/** The Review record of backend/src/models/Review.js and the checks its schema runs. */
module ReviewModel {
  import opened Wrappers
  import opened Text
  import opened ProductModel

  type ReviewId = nat

  datatype Review = Review(
    id: ReviewId,
    productId: ProductId,
    userId: UserId,
    rating: int,
    comment: Option<string>,
    createdAt: int)

  /** What the schema guarantees of every stored review. */
  predicate Valid(r: Review)
  {
    1 <= r.rating <= 5 && (r.comment.Some? ==> IsTrimmed(r.comment.value))
  }

  /** The fields passed to `Review.create`; `None` is a field left undefined. */
  datatype ReviewDraft = ReviewDraft(productId: Option<ProductId>, userId: Option<UserId>, rating: Option<int>, comment: Option<string>)

  /** The paths whose validation fails, in schema order. */
  function Violations(d: ReviewDraft): (r: seq<string>)
    ensures r == [] <==> d.productId.Some? && d.userId.Some? && d.rating.Some? && 1 <= d.rating.value <= 5
  {
    (if d.productId.None? then ["productId"] else [])
    + (if d.userId.None? then ["userId"] else [])
    + (if d.rating.None? || d.rating.value < 1 || d.rating.value > 5 then ["rating"] else [])
  }

  /** `Review.create`: validates, trims the comment, and stamps `createdAt` with `now`. */
  function Create(d: ReviewDraft, id: ReviewId, now: int): (r: Result<Review, seq<string>>)
    ensures r.Ok? <==> Violations(d) == []
    ensures r.Err? ==> r.error == Violations(d) && r.error != []
    ensures r.Ok? ==> Valid(r.value) && r.value.id == id && r.value.createdAt == now
    ensures r.Ok? ==> r.value.productId == d.productId.value && r.value.userId == d.userId.value
                      && r.value.rating == d.rating.value
    ensures r.Ok? ==> r.value.comment == (if d.comment.Some? then Some(Trim(d.comment.value)) else None)
  {
    var errors := Violations(d);
    if errors != [] then Err(errors)
    else
      Ok(Review(id, d.productId.value, d.userId.value, d.rating.value,
                if d.comment.Some? then Some(Trim(d.comment.value)) else None, now))
  }
}
