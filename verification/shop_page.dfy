/** The shop page: the category buttons and the `category` URL parameter
    that mirrors them, the category sent when loading products, and the
    favourites on the product cards.

    Case mapping covers ASCII letters only; every category name is ASCII. */
module ShopPage {
  import opened Base
  import Api
  import Favorites

  const ALL := "All"
  const CATEGORIES: seq<string> := ["All", "Serums", "Moisturizers", "Cleansers", "Treatments", "Eye Care", "Masks"]

  function UpperChar(c: char): char {
    if 'a' <= c <= 'z' then (c as int - 32) as char else c
  }

  function LowerChar(c: char): char {
    if 'A' <= c <= 'Z' then (c as int + 32) as char else c
  }

  /** `toLowerCase`. */
  function Lower(s: string): (r: string)
    ensures |r| == |s| && forall i :: 0 <= i < |s| ==> r[i] == LowerChar(s[i])
  {
    seq(|s|, i requires 0 <= i < |s| => LowerChar(s[i]))
  }

  /** The parameter formatting as written: the first character upper-cased,
      the rest unchanged. */
  function FormatParam(p: string): (r: string)
    ensures |r| == |p|
    ensures p != [] ==> r[0] == UpperChar(p[0]) && r[1..] == p[1..]
  {
    if p == [] then [] else [UpperChar(p[0])] + p[1..]
  }

  /** The URL effect as written: a non-empty parameter selects its
      formatted form when that is one of the listed categories; anything
      else keeps the current selection. */
  function ApplyParamAsWritten(param: Option<string>, selected: string): (r: string)
    ensures Truthy(param) && FormatParam(param.value) in CATEGORIES ==> r == FormatParam(param.value)
    ensures !(Truthy(param) && FormatParam(param.value) in CATEGORIES) ==> r == selected
  {
    if Truthy(param) && FormatParam(param.value) in CATEGORIES then FormatParam(param.value) else selected
  }

  /** `handleCategoryChange`: 'All' clears the parameters, any other choice
      writes its lower-cased name. */
  function CategoryParam(c: string): (p: Option<string>)
    ensures c == ALL <==> p.None?
    ensures p.Some? ==> p.value == Lower(c)
  {
    if c == ALL then None else Some(Lower(c))
  }

  /** As written, choosing "Eye Care" writes "eye care", which formats to
      "Eye care"; that is not listed, so a page opened on this URL stays on
      'All'. */
  lemma EyeCareRoundTripFails()
    ensures CategoryParam("Eye Care") == Some("eye care")
    ensures FormatParam("eye care") == "Eye care"
    ensures "Eye care" !in CATEGORIES
    ensures ApplyParamAsWritten(CategoryParam("Eye Care"), ALL) == ALL
  {
    var l := Lower("Eye Care");
    assert l[0] == 'e' && l[1] == 'y' && l[2] == 'e' && l[3] == ' ';
    assert l[4] == 'c' && l[5] == 'a' && l[6] == 'r' && l[7] == 'e';
    assert l == "eye care";
    assert FormatParam("eye care") == "Eye care";
  }

  /** Upper-case the first letter of every space-separated word. */
  function TitleFrom(s: string, atWordStart: bool): (r: string)
    ensures |r| == |s|
  {
    if s == [] then []
    else [if atWordStart then UpperChar(s[0]) else s[0]] + TitleFrom(s[1..], s[0] == ' ')
  }

  /** The intended formatting: every word capitalised. */
  function FormatParamFixed(p: string): (r: string)
    ensures |r| == |p|
  {
    TitleFrom(p, true)
  }

  lemma {:induction false} TitleFromNoSpace(s: string)
    requires forall i :: 0 <= i < |s| ==> s[i] != ' '
    ensures TitleFrom(s, false) == s
  {
    if s != [] {
      TitleFromNoSpace(s[1..]);
    }
  }

  /** On a parameter without spaces the fix formats exactly as the code
      does, so only multi-word categories behave differently. */
  lemma FixedAgreesOnOneWord(p: string)
    requires forall i :: 0 <= i < |p| ==> p[i] != ' '
    ensures FormatParamFixed(p) == FormatParam(p)
  {
    if p != [] {
      TitleFromNoSpace(p[1..]);
    }
  }

  /** The URL effect with the intended formatting. */
  function ApplyParam(param: Option<string>, selected: string): (r: string)
    ensures Truthy(param) && FormatParamFixed(param.value) in CATEGORIES ==> r == FormatParamFixed(param.value)
    ensures !(Truthy(param) && FormatParamFixed(param.value) in CATEGORIES) ==> r == selected
    ensures selected in CATEGORIES ==> r in CATEGORIES
  {
    if Truthy(param) && FormatParamFixed(param.value) in CATEGORIES then FormatParamFixed(param.value) else selected
  }

  /** Letters and spaces, each letter upper-case exactly when it starts a
      word. */
  predicate TitleShaped(s: string, atWordStart: bool) {
    forall i :: 0 <= i < |s| ==> ShapedAt(s, atWordStart, i)
  }

  predicate ShapedAt(s: string, atWordStart: bool, i: nat)
    requires i < |s|
  {
    var wordStart := if i == 0 then atWordStart else s[i - 1] == ' ';
    && (s[i] == ' ' || 'A' <= s[i] <= 'Z' || 'a' <= s[i] <= 'z')
    && (s[i] != ' ' ==> ('A' <= s[i] <= 'Z' <==> wordStart))
  }

  /** Lower-casing a title-shaped string and capitalising every word gives
      it back. */
  lemma {:induction false} TitleOfLower(s: string, atWordStart: bool)
    requires TitleShaped(s, atWordStart)
    ensures TitleFrom(Lower(s), atWordStart) == s
  {
    if s != [] {
      var l := Lower(s);
      assert ShapedAt(s, atWordStart, 0);
      assert l[0] == LowerChar(s[0]);
      assert l[0] == ' ' <==> s[0] == ' ';
      assert (if atWordStart then UpperChar(l[0]) else l[0]) == s[0];
      assert l[1..] == Lower(s[1..]);
      var rest, restStart := s[1..], s[0] == ' ';
      forall i | 0 <= i < |rest| ensures ShapedAt(rest, restStart, i) {
        assert ShapedAt(s, atWordStart, i + 1);
      }
      TitleOfLower(rest, restStart);
    }
  }

  lemma TitleShapedCategory(c: string)
    requires c in CATEGORIES
    ensures TitleShaped(c, true)
  {
    if c == "Eye Care" {
      assert TitleShaped(c, true);
    } else if c == "Moisturizers" {
      assert TitleShaped(c, true);
    } else if c == "Treatments" {
      assert TitleShaped(c, true);
    } else if c == "Cleansers" {
      assert TitleShaped(c, true);
    } else {
      assert c == "All" || c == "Serums" || c == "Masks";
    }
  }

  /** With the fix, every category survives the trip through the URL: the
      parameter its button writes selects it again on a freshly opened
      page. */
  lemma CategoryRoundTrip(c: string)
    requires c in CATEGORIES
    ensures ApplyParam(CategoryParam(c), ALL) == c
  {
    if c != ALL {
      TitleShapedCategory(c);
      TitleOfLower(c, true);
    }
  }

  /** `loadProducts`: 'All' loads without a category filter. */
  function LoadCategory(selected: string): (c: Option<string>)
    ensures selected == ALL <==> c.None?
    ensures c.Some? ==> c.value == selected
  {
    if selected == ALL then None else Some(selected)
  }

  /** Loading 'All' requests the unfiltered product list; any other listed
      category requests exactly that category. */
  lemma LoadQuery(selected: string)
    requires selected in CATEGORIES
    ensures selected == ALL ==> Api.ProductsEndpoint(LoadCategory(selected)) == "/products"
    ensures selected != ALL ==> Api.ProductsEndpoint(LoadCategory(selected)) == "/products?category=" + selected
  {
  }

  /** The page's state: the selected category, the URL parameter and the
      favourite product ids. */
  class ShopState {
    var selectedCategory: string
    var categoryParam: Option<string>
    var favorites: set<string>

    ghost predicate Valid()
      reads this
    {
      selectedCategory in CATEGORIES
    }

    /** A page opened on a URL starts on 'All' with no favourites. */
    constructor (param: Option<string>)
      ensures Valid() && selectedCategory == ALL && categoryParam == param && favorites == {}
    {
      selectedCategory := ALL;
      categoryParam := param;
      favorites := {};
    }

    /** The effect run whenever the parameters change, with the corrected
        formatting `ApplyParam`. The page as written runs
        `ApplyParamAsWritten` instead and, for a multi-word category such
        as 'Eye Care', stays on the current selection. */
    method ApplyCategoryParam()
      requires Valid()
      modifies this
      ensures Valid()
      ensures selectedCategory == ApplyParam(categoryParam, old(selectedCategory))
      ensures categoryParam == old(categoryParam) && favorites == old(favorites)
    {
      selectedCategory := ApplyParam(categoryParam, selectedCategory);
    }

    /** A category button: select it and mirror it into the URL. */
    method ChangeCategory(c: string)
      requires Valid() && c in CATEGORIES
      modifies this
      ensures Valid()
      ensures selectedCategory == c && categoryParam == CategoryParam(c)
      ensures favorites == old(favorites)
    {
      selectedCategory := c;
      categoryParam := CategoryParam(c);
    }

    /** The heart on a product card. */
    method ToggleFavorite(id: string)
      modifies this
      ensures favorites == Favorites.Toggled(old(favorites), id)
      ensures selectedCategory == old(selectedCategory) && categoryParam == old(categoryParam)
    {
      var next := favorites;
      if id in next {
        next := next - {id};
      } else {
        next := next + {id};
      }
      favorites := next;
    }
  }
}
