/**
 * The event-detail screen (components/events/EventDetailScreen.tsx): the
 * occupancy counts, the average rating and its star split, the star row of
 * one review, the five-review preview and the labels around it. The reviews
 * are whatever the review fetch returned.
 */
module EventDetail {

  datatype Review = Review(id: string, rating: int, comment: string, createdAt: string)

  datatype Occupancy = Occupancy(total: int, occupied: int, available: int)

  /** The counts under the progress bar. */
  function OccupancyOf(capacity: int, spotsLeft: int): (o: Occupancy)
    ensures o.total == capacity && o.available == spotsLeft
    ensures o.occupied + o.available == o.total
    ensures 0 <= spotsLeft <= capacity ==> 0 <= o.occupied <= o.total
  {
    Occupancy(capacity, capacity - spotsLeft, spotsLeft)
  }

  /** `reviews.reduce((acc, r) => acc + r.rating, 0)`, folding from the left. */
  function RatingSum(reviews: seq<Review>): int {
    if |reviews| == 0 then 0
    else RatingSum(reviews[..|reviews| - 1]) + reviews[|reviews| - 1].rating
  }

  /** The left fold gives the same total as adding from the front. */
  lemma {:induction false} RatingSumFromFront(reviews: seq<Review>)
    requires |reviews| > 0
    ensures RatingSum(reviews) == reviews[0].rating + RatingSum(reviews[1..])
  {
    var init := reviews[..|reviews| - 1];
    if |init| > 0 {
      RatingSumFromFront(init);
      assert init[1..] == reviews[1..][..|reviews| - 2];
    }
  }

  /** A rating the five-star scale can show. */
  predicate OnScale(r: Review) {
    0 <= r.rating <= 5
  }

  /** Ratings on the scale add up to between 0 and 5 per review. */
  lemma {:induction false} RatingSumBounds(reviews: seq<Review>)
    requires forall i :: 0 <= i < |reviews| ==> OnScale(reviews[i])
    ensures 0 <= RatingSum(reviews) <= 5 * |reviews|
  {
    if |reviews| > 0 {
      var init := reviews[..|reviews| - 1];
      assert forall i :: 0 <= i < |init| ==> init[i] == reviews[i];
      RatingSumBounds(init);
      assert OnScale(reviews[|reviews| - 1]);
    }
  }

  /** The average rating, 0 when there are no reviews. */
  function RatingAverage(reviews: seq<Review>): (avg: real)
    ensures |reviews| == 0 ==> avg == 0.0
    ensures |reviews| > 0 ==> avg * (|reviews| as real) == RatingSum(reviews) as real
  {
    if |reviews| > 0 then RatingSum(reviews) as real / |reviews| as real else 0.0
  }

  /** With every rating on the scale, so is the average. */
  lemma AverageOnScale(reviews: seq<Review>)
    requires forall i :: 0 <= i < |reviews| ==> OnScale(reviews[i])
    ensures 0.0 <= RatingAverage(reviews) <= 5.0
  {
    if |reviews| > 0 {
      RatingSumBounds(reviews);
      var n, avg := |reviews| as real, RatingAverage(reviews);
      ProductSign(avg, n);
      ProductSign(5.0 - avg, n);
    }
  }

  /** Scaling by a positive number keeps the sign. */
  lemma ProductSign(x: real, n: real)
    requires n > 0.0
    ensures x >= 0.0 <==> x * n >= 0.0
  {
    if x < 0.0 {
      assert x * n < 0.0;
    }
  }

  /** A value that is `q + rem / n` has whole part `q`, and its fraction is
    * compared with 1/4 and 3/4 by comparing `4 * rem` with `n` and `3 * n`. */
  lemma WholeAndFraction(x: real, q: int, rem: int, n: int)
    requires n > 0 && 0 <= rem < n
    requires x * (n as real) == (q * n + rem) as real
    ensures x.Floor == q
    ensures x - q as real >= 0.25 <==> 4 * rem >= n
    ensures x - q as real < 0.75 <==> 4 * rem < 3 * n
  {
    var f := x - q as real;
    assert f * (n as real) == rem as real;
    ProductSign(f, n as real);
    ProductSign(1.0 - f, n as real);
    ProductSign(f - 0.25, n as real);
    ProductSign(f - 0.75, n as real);
  }

  datatype StarSplit = StarSplit(full: int, half: bool, empty: int)

  function HalfCount(s: StarSplit): int {
    if s.half then 1 else 0
  }

  /** `fullStars`, `hasHalfStar` and `emptyStars` for an average: the whole
    * part in full stars, a half star when the fraction is in [0.25, 0.75),
    * and the rest of five empty. */
  function Stars(avg: real): (s: StarSplit)
    ensures s.full as real <= avg < s.full as real + 1.0
    ensures s.full + HalfCount(s) + s.empty == 5
    ensures 0.0 <= avg <= 5.0 ==> 0 <= s.full && 0 <= s.empty
  {
    var full := avg.Floor;
    var half := avg - full as real >= 0.25 && avg - full as real < 0.75;
    StarSplit(full, half, 5 - full - (if half then 1 else 0))
  }

  /** With every rating on the scale, the rating row shows five stars in all,
    * none of the three counts negative. */
  lemma StarsForRatedEvent(reviews: seq<Review>)
    requires forall i :: 0 <= i < |reviews| ==> OnScale(reviews[i])
    ensures var s := Stars(RatingAverage(reviews));
      0 <= s.full && 0 <= s.empty && s.full + HalfCount(s) + s.empty == 5
  {
    AverageOnScale(reviews);
  }

  /** No reviews: no full star, no half star, five empty ones. */
  lemma NoReviewsAllEmpty()
    ensures Stars(RatingAverage([])) == StarSplit(0, false, 5)
  {
  }

  /** With reviews, the split needs no division: the full stars are the
    * integer quotient of the rating sum by the count, and the half star shows
    * exactly when four times the remainder is at least the count and below
    * three times it. */
  lemma StarsByCrossMultiplication(reviews: seq<Review>)
    requires |reviews| > 0
    ensures Stars(RatingAverage(reviews)).full == RatingSum(reviews) / |reviews|
    ensures Stars(RatingAverage(reviews)).half
        <==> |reviews| <= 4 * (RatingSum(reviews) % |reviews|) < 3 * |reviews|
  {
    var sum, n := RatingSum(reviews), |reviews|;
    WholeAndFraction(RatingAverage(reviews), sum / n, sum % n, n);
  }

  /** The star row of one review card: star i of 0..4 is filled when
    * i < rating, so the first `rating` stars (clamped to 0..5) are filled
    * and the rest are outlines. */
  function ReviewStars(rating: int): (filled: seq<bool>)
    ensures |filled| == 5
    ensures filled == Repeat(true, Clamp(rating)) + Repeat(false, 5 - Clamp(rating))
  {
    var icons := seq(5, i requires 0 <= i < 5 => i < rating);
    assert icons == Repeat(true, Clamp(rating)) + Repeat(false, 5 - Clamp(rating)) by {
      var expected := Repeat(true, Clamp(rating)) + Repeat(false, 5 - Clamp(rating));
      forall i | 0 <= i < 5 ensures icons[i] == expected[i] {
        if i < Clamp(rating) {
          assert expected[i] == Repeat(true, Clamp(rating))[i];
        } else {
          assert expected[i] == Repeat(false, 5 - Clamp(rating))[i - Clamp(rating)];
        }
      }
    }
    icons
  }

  function Clamp(rating: int): nat {
    if rating < 0 then 0 else if rating > 5 then 5 else rating
  }

  function Repeat(b: bool, n: nat): (s: seq<bool>)
    ensures |s| == n && forall i :: 0 <= i < n ==> s[i] == b
  {
    seq(n, _ => b)
  }

  /** How many reviews the detail screen shows at most. */
  const PreviewSize := 5

  /** `reviews.slice(0, 5)`: what the carousel and its indicator dots show,
    * the first reviews in their original order. */
  function Preview(reviews: seq<Review>): (shown: seq<Review>)
    ensures |shown| == if |reviews| < PreviewSize then |reviews| else PreviewSize
    ensures shown == reviews[..|shown|]
  {
    reviews[..if |reviews| < PreviewSize then |reviews| else PreviewSize]
  }

  /** The "view all" link appears exactly when the preview leaves a review out. */
  function ShowViewAll(reviews: seq<Review>): (link: bool)
    ensures link <==> Preview(reviews) != reviews
  {
    |reviews| > PreviewSize
  }

  /** The noun after the review count: singular for exactly one review. */
  function CountNoun(count: nat): (noun: string)
    ensures noun == "opinión" <==> count == 1
    ensures noun == "opiniones" <==> count != 1
  {
    if count == 1 then "opinión" else "opiniones"
  }
}
