/** The star widget of client/src/components/StarRating.jsx: five buttons
    valued 1 to 5, a star drawn filled when its value is at most the
    rating, and a click that reports the star's value unless the widget is
    read-only or has no callback. */
module StarRating {
  import opened Common

  /** `[lo, lo + 1, ..., hi - 1]`. */
  function Range(lo: int, hi: int): (r: seq<int>)
    ensures |r| == if lo < hi then hi - lo else 0
    ensures forall i :: 0 <= i < |r| ==> r[i] == lo + i
    decreases hi - lo
  {
    if lo >= hi then [] else [lo] + Range(lo + 1, hi)
  }

  /** The five star values the widget maps over. */
  function Stars(): (r: seq<int>)
    ensures r == [1, 2, 3, 4, 5]
  {
    Range(1, 6)
  }

  /** A star is drawn filled when its value is at most the rating. */
  predicate Filled(star: int, rating: int)
  {
    star <= rating
  }

  /** How many of the given stars are drawn filled. */
  function FilledCount(stars: seq<int>, rating: int): (n: nat)
    ensures n <= |stars|
  {
    if stars == [] then 0
    else (if Filled(stars[0], rating) then 1 else 0) + FilledCount(stars[1..], rating)
  }

  /** The rating clamped to the range `lo..hi`. */
  function Clamp(x: int, lo: int, hi: int): int
    requires lo <= hi
  {
    if x < lo then lo else if x > hi then hi else x
  }

  /** Over a run of consecutive values, the filled ones are the first
      `rating - lo + 1`, clamped to the run. */
  lemma {:induction false} FilledCountRange(lo: int, hi: int, rating: int)
    requires lo <= hi
    ensures FilledCount(Range(lo, hi), rating) == Clamp(rating - lo + 1, 0, hi - lo)
    decreases hi - lo
  {
    if lo < hi {
      assert Range(lo, hi)[1..] == Range(lo + 1, hi);
      FilledCountRange(lo + 1, hi, rating);
    }
  }

  /** For an integer rating the widget fills exactly the rating, clamped
      to 0..5, and star k is filled iff k <= rating. */
  lemma FilledStarsIsClampedRating(rating: int)
    ensures FilledCount(Stars(), rating) == Clamp(rating, 0, 5)
    ensures forall i :: 0 <= i < 5 ==> (Filled(Stars()[i], rating) <==> i + 1 <= rating)
  {
    FilledCountRange(1, 6, rating);
  }

  /** The `onRate` call a click on `star` makes, if any. */
  function Click(star: int, readonly: bool, hasOnRate: bool): (call: Option<int>)
    ensures readonly ==> call.None?
    ensures !readonly && hasOnRate ==> call == Some(star)
    ensures !hasOnRate ==> call.None?
  {
    if !readonly && hasOnRate then Some(star) else None
  }

  /** Any value a click reports is one of the five star values. */
  lemma ClickReportsStarValue(i: int, readonly: bool, hasOnRate: bool)
    requires 0 <= i < 5
    ensures var call := Click(Stars()[i], readonly, hasOnRate);
            call.Some? ==> 1 <= call.value <= 5
  {
  }
}
