/**
 * The rating aggregates computed from the review store: the average used by
 * `getProducts` and `getProductById`, and `getRatingSummary`'s average, count and
 * star histogram (backend/src/controllers/reviewController.js). Averages are exact rationals.
 */
module Ratings {
  import opened Seqs
  import opened ProductModel
  import opened ReviewModel

  /** The `$match: { productId }` stage. */
  function ReviewsOf(reviews: seq<Review>, pid: ProductId): (r: seq<Review>)
    ensures forall x :: x in r <==> x in reviews && x.productId == pid
  {
    Filter(reviews, (x: Review) => x.productId == pid)
  }

  function RatingsOf(reviews: seq<Review>): (r: seq<int>)
    ensures |r| == |reviews|
    ensures forall k :: 0 <= k < |r| ==> r[k] == reviews[k].rating
  {
    if reviews == [] then [] else [reviews[0].rating] + RatingsOf(reviews[1..])
  }

  /** `$avg`, with `|| 0` turning "no group" into 0. */
  function Average(rs: seq<int>): real
  {
    if |rs| == 0 then 0.0 else Sum(rs) as real / |rs| as real
  }

  /** The average rating of one product, 0 when it has no reviews. */
  function AvgRating(reviews: seq<Review>, pid: ProductId): real
  {
    Average(RatingsOf(ReviewsOf(reviews, pid)))
  }

  /** The `$group` by rating folded into an object: each occurring rating maps to its count. */
  function Breakdown(rs: seq<int>): (m: map<int, nat>)
    ensures forall v :: v in m <==> v in rs
    ensures forall v :: v in m ==> m[v] == Count(rs, v)
  {
    if rs == [] then map[]
    else
      var m := Breakdown(rs[1..]);
      assert forall v :: v in rs <==> v == rs[0] || v in rs[1..] by {
        assert rs == [rs[0]] + rs[1..];
      }
      assert forall v :: Count(rs, v) == (if rs[0] == v then 1 else 0) + Count(rs[1..], v);
      CountZeroIffAbsent(rs[1..], rs[0]);
      m[rs[0] := (if rs[0] in m then m[rs[0]] else 0) + 1]
  }

  /** A breakdown entry, 0 for a rating with no key. */
  function CountFor(m: map<int, nat>, v: int): nat
  {
    if v in m then m[v] else 0
  }

  datatype Summary = Summary(avgRating: real, reviewCount: nat, breakdown: map<int, nat>)

  /** `getRatingSummary`. */
  function RatingSummary(reviews: seq<Review>, pid: ProductId): (s: Summary)
    ensures s.reviewCount == |ReviewsOf(reviews, pid)|
    ensures s.avgRating == AvgRating(reviews, pid)
    ensures forall v :: v in s.breakdown ==> s.breakdown[v] > 0
    ensures forall v :: CountFor(s.breakdown, v) == Count(RatingsOf(ReviewsOf(reviews, pid)), v)
  {
    var rs := RatingsOf(ReviewsOf(reviews, pid));
    var m := Breakdown(rs);
    forall v | v in m ensures m[v] > 0 {
      CountZeroIffAbsent(rs, v);
    }
    forall v ensures CountFor(m, v) == Count(rs, v) {
      BreakdownCounts(rs, v);
    }
    Summary(Average(rs), |rs|, m)
  }

  /** A product without reviews gets average 0, count 0 and an empty breakdown. */
  lemma EmptySummary(reviews: seq<Review>, pid: ProductId)
    requires forall x :: x in reviews ==> x.productId != pid
    ensures RatingSummary(reviews, pid) == Summary(0.0, 0, map[])
  {
    var rs := ReviewsOf(reviews, pid);
    FilterNone(reviews, (x: Review) => x.productId == pid);
    assert Breakdown(RatingsOf(rs)) == map[];
  }

  /** Each breakdown entry counts the reviews of that product with that rating. */
  lemma {:induction false} BreakdownCounts(rs: seq<int>, v: int)
    ensures CountFor(Breakdown(rs), v) == Count(rs, v)
  {
    if v !in Breakdown(rs) {
      CountZeroIffAbsent(rs, v);
    }
  }

  predicate AllStars(rs: seq<int>)
  {
    forall k :: 0 <= k < |rs| ==> 1 <= rs[k] <= 5
  }

  lemma {:induction false} StarCountsSum(rs: seq<int>)
    requires AllStars(rs)
    ensures Count(rs, 1) + Count(rs, 2) + Count(rs, 3) + Count(rs, 4) + Count(rs, 5) == |rs|
  {
    if rs != [] {
      StarCountsSum(rs[1..]);
    }
  }

  /** With valid reviews the five histogram counts add up to the review count. */
  lemma BreakdownSumsToCount(reviews: seq<Review>, pid: ProductId)
    requires forall x :: x in reviews ==> ReviewModel.Valid(x)
    ensures var s := RatingSummary(reviews, pid);
      CountFor(s.breakdown, 1) + CountFor(s.breakdown, 2) + CountFor(s.breakdown, 3)
      + CountFor(s.breakdown, 4) + CountFor(s.breakdown, 5) == s.reviewCount
  {
    var mine := ReviewsOf(reviews, pid);
    var rs := RatingsOf(mine);
    assert AllStars(rs) by {
      forall k | 0 <= k < |rs| ensures 1 <= rs[k] <= 5 {
        assert mine[k] in mine;
      }
    }
    StarCountsSum(rs);
    BreakdownCounts(rs, 1);
    BreakdownCounts(rs, 2);
    BreakdownCounts(rs, 3);
    BreakdownCounts(rs, 4);
    BreakdownCounts(rs, 5);
  }

  lemma {:induction false} StarSumBounds(rs: seq<int>)
    requires AllStars(rs)
    ensures |rs| <= Sum(rs) <= 5 * |rs|
  {
    if rs != [] {
      StarSumBounds(rs[1..]);
    }
  }

  /** With valid reviews the average lies between 1 and 5, or is 0 when there are none. */
  lemma AverageBounds(reviews: seq<Review>, pid: ProductId)
    requires forall x :: x in reviews ==> ReviewModel.Valid(x)
    ensures var s := RatingSummary(reviews, pid);
      (s.reviewCount == 0 ==> s.avgRating == 0.0)
      && (s.reviewCount > 0 ==> 1.0 <= s.avgRating <= 5.0)
  {
    var mine := ReviewsOf(reviews, pid);
    var rs := RatingsOf(mine);
    assert AllStars(rs) by {
      forall k | 0 <= k < |rs| ensures 1 <= rs[k] <= 5 {
        assert mine[k] in mine;
      }
    }
    StarSumBounds(rs);
    if |rs| > 0 {
      var n := |rs| as real;
      var total := Sum(rs) as real;
      assert n <= total <= 5.0 * n;
      DivBounds(total, n);
    }
  }

  lemma DivBounds(total: real, n: real)
    requires n > 0.0 && n <= total <= 5.0 * n
    ensures 1.0 <= total / n <= 5.0
  {
    assert total / n * n == total;
  }

  /** The average times the count gives back the sum of the ratings. */
  lemma AverageTimesCount(rs: seq<int>)
    ensures Average(rs) * |rs| as real == Sum(rs) as real
  {
  }

  /** One more rating adds one to its own entry of the breakdown. */
  lemma BreakdownCons(r: int, rs: seq<int>, s: seq<int>)
    requires s == [r] + rs
    ensures Breakdown(s) == Breakdown(rs)[r := CountFor(Breakdown(rs), r) + 1]
  {
    assert s[1..] == rs;
  }

  lemma BreakdownOfFourThree()
    ensures Breakdown([4, 3]) == map[3 := 1, 4 := 1]
  {
    assert Breakdown([]) == map[];
    BreakdownCons(3, [], [3]);
    assert Breakdown([3]) == map[3 := 1];
    BreakdownCons(4, [3], [4, 3]);
    assert CountFor(map[3 := 1], 4) + 1 == 1;
  }

  lemma BreakdownOfFiveFourThree()
    ensures Breakdown([5, 4, 3]) == map[3 := 1, 4 := 1, 5 := 1]
  {
    BreakdownOfFourThree();
    BreakdownCons(5, [4, 3], [5, 4, 3]);
    assert CountFor(map[3 := 1, 4 := 1], 5) + 1 == 1;
  }

  lemma StarExampleBreakdown()
    ensures Breakdown([5, 5, 4, 3]) == map[3 := 1, 4 := 1, 5 := 2]
  {
    BreakdownOfFiveFourThree();
    BreakdownCons(5, [5, 4, 3], [5, 5, 4, 3]);
    assert CountFor(map[3 := 1, 4 := 1, 5 := 1], 5) + 1 == 2;
    SecondFive();
  }

  lemma SecondFive()
    ensures map[3 := 1, 4 := 1, 5 := 1][5 := 2] == map[3 := 1, 4 := 1, 5 := 2]
  {
  }

  /** Ratings 5, 5, 4, 3 for one product: average 4.25, four reviews, breakdown {3:1, 4:1, 5:2}. */
  lemma FourReviewsExample(a: Review, b: Review, c: Review, d: Review)
    requires a.productId == b.productId == c.productId == d.productId
    requires a.rating == 5 && b.rating == 5 && c.rating == 4 && d.rating == 3
    ensures RatingSummary([a, b, c, d], a.productId) == Summary(4.25, 4, map[3 := 1, 4 := 1, 5 := 2])
  {
    var reviews := [a, b, c, d];
    var pid := a.productId;
    FilterAll(reviews, (x: Review) => x.productId == pid);
    var rs := RatingsOf(reviews);
    assert rs == [5, 5, 4, 3];
    var t: seq<int> := [5, 5, 4, 3];
    assert Sum(t) == 17 by {
      assert t[1..] == [5, 4, 3] && t[1..][1..] == [4, 3] && t[1..][1..][1..] == [3];
      assert Sum([3]) == 3;
    }
    StarExampleBreakdown();
  }
}
