/** The favourites heart on product cards: a set of product ids in which a
    click flips the membership of one id. Shared by the shop page and the
    featured-products section. */
module Favorites {

  /** The set after one click on `id`. */
  function Toggled<T(==)>(s: set<T>, id: T): (r: set<T>)
    ensures id in r <==> id !in s
    ensures r - {id} == s - {id}
  {
    if id in s then s - {id} else s + {id}
  }

  /** Two clicks on the same id restore the set. */
  lemma ToggleTwice<T>(s: set<T>, id: T)
    ensures Toggled(Toggled(s, id), id) == s
  {
  }

  /** Clicks on two different ids commute. */
  lemma ToggleCommutes<T>(s: set<T>, a: T, b: T)
    ensures Toggled(Toggled(s, a), b) == Toggled(Toggled(s, b), a)
  {
  }

  class FavoriteSet<T(==)> {
    var members: set<T>

    constructor ()
      ensures members == {}
    {
      members := {};
    }

    /** `toggleFavorite`: copy the set, delete the id when present,
        otherwise add it. */
    method Toggle(id: T)
      modifies this
      ensures members == Toggled(old(members), id)
      ensures id in members <==> id !in old(members)
    {
      var next := members;
      if id in next {
        next := next - {id};
      } else {
        next := next + {id};
      }
      members := next;
    }
  }
}
