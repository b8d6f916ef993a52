/**
 * The review store and the two review operations of
 * backend/src/controllers/reviewController.js: `addReview` (one review per user and
 * product) and `getReviewsByProduct` (a product's reviews, newest first).
 */
module Reviews {
  import opened Wrappers
  import opened Seqs
  import opened Sorting
  import opened ProductModel
  import opened ReviewModel
  import Ratings

  /** `Review.findOne({ productId, userId })` finds something. */
  predicate HasReview(reviews: seq<Review>, pid: ProductId, uid: UserId)
  {
    exists k | 0 <= k < |reviews| :: reviews[k].productId == pid && reviews[k].userId == uid
  }

  /** No user holds two reviews of the same product. */
  predicate UniquePairs(reviews: seq<Review>)
  {
    forall i, j :: 0 <= i < j < |reviews| ==>
      reviews[i].productId != reviews[j].productId || reviews[i].userId != reviews[j].userId
  }

  /** Appending a review for a pair that has none keeps the pairs unique. */
  lemma AppendKeepsUniquePairs(reviews: seq<Review>, r: Review)
    requires UniquePairs(reviews)
    requires !HasReview(reviews, r.productId, r.userId)
    ensures UniquePairs(reviews + [r])
  {
    var s := reviews + [r];
    forall i, j | 0 <= i < j < |s|
      ensures s[i].productId != s[j].productId || s[i].userId != s[j].userId
    {
      if j == |reviews| {
        assert s[i] == reviews[i];
      } else {
        assert s[i] == reviews[i] && s[j] == reviews[j];
      }
    }
  }

  datatype AddOutcome = Created(review: Review) | Duplicate | Invalid(paths: seq<string>)

  /** The HTTP status each outcome is answered with (a schema error reaches the error handler as 500). */
  function AddStatus(o: AddOutcome): int
  {
    match o
    case Created(_) => 201
    case Duplicate => 400
    case Invalid(_) => 500
  }

  class ReviewLedger {
    var reviews: seq<Review>
    var nextId: nat

    ghost predicate Valid()
      reads this
    {
      && UniquePairs(reviews)
      && (forall k :: 0 <= k < |reviews| ==> reviews[k].id < nextId && ReviewModel.Valid(reviews[k]))
    }

    constructor ()
      ensures Valid() && reviews == []
    {
      reviews := [];
      nextId := 0;
    }

    /**
     * `addReview` for an authenticated user. The route's field check has already
     * guaranteed that `productId` and `rating` are present.
     */
    method AddReview(productId: ProductId, userId: UserId, rating: int, comment: Option<string>, now: int)
      returns (o: AddOutcome)
      requires Valid()
      modifies this
      ensures Valid()
      ensures HasReview(old(reviews), productId, userId) ==> o == Duplicate && reviews == old(reviews)
      ensures !HasReview(old(reviews), productId, userId) && !(1 <= rating <= 5) ==>
                o == Invalid(["rating"]) && reviews == old(reviews)
      ensures !HasReview(old(reviews), productId, userId) && 1 <= rating <= 5 ==>
                && o.Created? && reviews == old(reviews) + [o.review]
                && o.review.productId == productId && o.review.userId == userId
                && o.review.rating == rating && o.review.createdAt == now
                && o.review.comment == (if comment.Some? then Some(Text.Trim(comment.value)) else None)
    {
      if HasReview(reviews, productId, userId) {
        return Duplicate;
      }
      var created := ReviewModel.Create(ReviewDraft(Some(productId), Some(userId), Some(rating), comment), nextId, now);
      if created.Err? {
        return Invalid(created.error);
      }
      AppendKeepsUniquePairs(reviews, created.value);
      reviews := reviews + [created.value];
      nextId := nextId + 1;
      o := Created(created.value);
    }
  }

  /** `getReviewsByProduct`: the product's reviews sorted by `createdAt`, newest first. */
  function ListForProduct(reviews: seq<Review>, pid: ProductId): (r: seq<Review>)
    ensures multiset(r) == multiset(Ratings.ReviewsOf(reviews, pid))
    ensures forall x :: x in r <==> x in reviews && x.productId == pid
    ensures forall i, j :: 0 <= i < j < |r| ==> r[i].createdAt >= r[j].createdAt
  {
    var mine := Ratings.ReviewsOf(reviews, pid);
    var r := SortBy(mine, (x: Review) => Num(x.createdAt), false);
    assert forall x :: x in r <==> x in multiset(r);
    assert forall i, j :: 0 <= i < j < |r| ==> Before(Num(r[i].createdAt), Num(r[j].createdAt), false);
    r
  }

  /** A new review shows up in the next summary of its product and in no other product's. */
  lemma SummaryAfterAdd(reviews: seq<Review>, r: Review, pid: ProductId)
    ensures var before := Ratings.RatingSummary(reviews, pid);
            var after := Ratings.RatingSummary(reviews + [r], pid);
      && (r.productId == pid ==> after.reviewCount == before.reviewCount + 1)
      && (r.productId != pid ==> after == before)
  {
    var keep := (x: Review) => x.productId == pid;
    FilterAppend(reviews, [r], keep);
    assert [r][1..] == [];
    if r.productId == pid {
      assert Filter([r], keep) == [r];
    } else {
      assert Filter([r], keep) == [];
      assert Ratings.ReviewsOf(reviews + [r], pid) == Ratings.ReviewsOf(reviews, pid);
    }
  }
}
