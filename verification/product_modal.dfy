/** The product detail modal: its review list and review form, the
    add-to-cart button, and the average rating. */
module ProductModal {
  import opened Base

  const STAR_COUNT := 5

  datatype Review = Review(id: string, author: string, rating: int, comment: string)

  /** Σ rating over the reviews. */
  function RatingSum(reviews: seq<Review>): int {
    if reviews == [] then 0 else reviews[0].rating + RatingSum(reviews[1..])
  }

  /** Every review carries a rating of one to five stars. */
  predicate StarRatings(reviews: seq<Review>) {
    forall i :: 0 <= i < |reviews| ==> 1 <= reviews[i].rating <= STAR_COUNT
  }

  lemma {:induction false} RatingSumBounds(reviews: seq<Review>)
    requires StarRatings(reviews)
    ensures |reviews| <= RatingSum(reviews) <= STAR_COUNT * |reviews|
  {
    if reviews != [] {
      RatingSumBounds(reviews[1..]);
    }
  }

  lemma QuotientBounds(s: real, n: real)
    requires n >= 1.0 && n <= s <= STAR_COUNT as real * n
    ensures 1.0 <= s / n <= STAR_COUNT as real
  {
    var q := s / n;
    assert q * n == s;
  }

  /** The average shown: 0 for no reviews, otherwise the mean rating,
      which then lies between one and five stars. */
  function AverageRating(reviews: seq<Review>): (avg: real)
    requires StarRatings(reviews)
    ensures reviews == [] ==> avg == 0.0
    ensures reviews != [] ==> 1.0 <= avg <= STAR_COUNT as real
  {
    if reviews == [] then 0.0
    else
      RatingSumBounds(reviews);
      var n := |reviews| as real;
      var s := RatingSum(reviews) as real;
      QuotientBounds(s, n);
      s / n
  }

  datatype CartAction = NoProduct | SignInFirst | AddOne(productId: string, quantity: int)

  /** `handleAddToCart`: nothing without a product id; signed out, the
      visitor is sent to sign in and `addToCart` is not called; otherwise
      one unit of the product is added. */
  function AddToCartAction(productId: Option<string>, isAuthenticated: bool): (a: CartAction)
    ensures productId.None? || productId.value == "" ==> a == NoProduct
    ensures a.AddOne? <==> productId.Some? && productId.value != "" && isAuthenticated
    ensures a.AddOne? ==> a.productId == productId.value && a.quantity == 1
  {
    if productId.None? || productId.value == "" then NoProduct
    else if !isAuthenticated then SignInFirst
    else AddOne(productId.value, 1)
  }

  /** The review list and the form's rating and comment. */
  class ReviewPanel {
    var reviews: seq<Review>
    var rating: int
    var comment: string

    ghost predicate Valid()
      reads this
    {
      0 <= rating <= STAR_COUNT && StarRatings(reviews)
    }

    constructor ()
      ensures Valid() && reviews == [] && rating == 0 && comment == ""
    {
      reviews := [];
      rating := 0;
      comment := "";
    }

    /** Star `i` of the picker (counting from 0) sets the rating to i + 1. */
    method SelectStar(i: nat)
      requires Valid() && i < STAR_COUNT
      modifies this
      ensures Valid() && rating == i + 1 && 1 <= rating <= STAR_COUNT
      ensures reviews == old(reviews) && comment == old(comment)
    {
      rating := i + 1;
    }

    method EditComment(text: string)
      requires Valid()
      modifies this
      ensures Valid() && comment == text
      ensures reviews == old(reviews) && rating == old(rating)
    {
      comment := text;
    }

    /** Submitting the review form. The comment box is required, so the
        browser refuses an empty comment before the handler runs; then
        `handleSubmitReview`: signed out or with no star chosen, nothing
        changes; otherwise one review with the chosen rating and comment is
        put in front of the existing ones, which keep their order, and the
        form is reset. `id` is the new review's timestamp id. */
    method SubmitReview(isAuthenticated: bool, id: string) returns (added: bool)
      requires Valid()
      modifies this
      ensures Valid()
      ensures added <==> old(comment) != "" && isAuthenticated && old(rating) != 0
      ensures !added ==> reviews == old(reviews) && rating == old(rating) && comment == old(comment)
      ensures added ==>
        && reviews == [Review(id, "You", old(rating), old(comment))] + old(reviews)
        && |reviews| == |old(reviews)| + 1 && reviews[1..] == old(reviews)
        && rating == 0 && comment == ""
    {
      if comment == "" {
        return false;
      }
      if !isAuthenticated {
        return false;
      }
      if rating == 0 {
        return false;
      }
      var review := Review(id, "You", rating, comment);
      reviews := [review] + reviews;
      rating := 0;
      comment := "";
      added := true;
    }
  }
}
