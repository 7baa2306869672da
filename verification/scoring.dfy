/**
 The Edible Score pipeline of Models/Restaurant.swift: a review's raw rating
 is scaled to 100 by its source's registry entry, curved and capped
 (`convertedScore`); a restaurant's score is the rounded mean of those
 numbers over all of its reviews, capped at 100 (`edibleScore`).

 Ratings are exact reals here; `round` (half away from zero) and the
 truncating `Int(_:)` conversion are written out for both signs.
 */
module Scoring {

  import opened Options
  import opened ReviewSources
  import Seqs

  /** One third-party review of a restaurant (its UUID is not modelled). */
  datatype SourceReview = SourceReview(
    source: string,
    rawRating: real,
    reviewCount: Option<int>,
    url: Option<string>)

  /** `reviewSource`: the registry entry named by the review, if any. */
  function ReviewSourceOf(r: SourceReview): Option<ReviewSource>
  {
    FromRaw(r.source)
  }

  function MinReal(a: real, b: real): real
  {
    if a <= b then a else b
  }

  function MinInt(a: int, b: int): int
  {
    if a <= b then a else b
  }

  // ---------------------------------------------------------------------------
  // Per-source normalisation
  // ---------------------------------------------------------------------------

  /**
   `convertedScore`: 0 for an unrecognised source; otherwise the rating as a
   percentage of the source's scale, plus the curve, capped at 100.
   */
  function ConvertedScore(r: SourceReview): (score: real)
    ensures ReviewSourceOf(r).None? ==> score == 0.0
    ensures score <= 100.0
    ensures 0.0 <= r.rawRating ==> 0.0 <= score
  {
    match ReviewSourceOf(r)
    case None => 0.0
    case Some(k) => MinReal((r.rawRating / MaxRating(k)) * 100.0 + Curve(k), 100.0)
  }

  /** The raw rating at and above which a source's converted score is capped at 100. */
  function SaturationPoint(k: ReviewSource): real
  {
    match k
    case Foursquare => 10.0
    case NYTimes | Zagat => 3.2
    case _ => 4.5
  }

  /**
   The converted score of a recognised review, stated per registry class as
   a straight line up to the saturation point and 100 from there on.
   */
  lemma ConvertedScoreByClass(r: SourceReview, k: ReviewSource)
    requires ReviewSourceOf(r) == Some(k)
    ensures ConvertedScore(r) == 100.0 <==> r.rawRating >= SaturationPoint(k)
    ensures r.rawRating < SaturationPoint(k) ==>
      ConvertedScore(r) ==
        (if k == Foursquare then 10.0 * r.rawRating
         else if IsProfessional(k) then 25.0 * r.rawRating + 20.0
         else 20.0 * r.rawRating + 10.0)
  {
  }

  /** A rating within its source's scale converts to a score within [0, 100]. */
  lemma ConvertedScoreInRange(r: SourceReview, k: ReviewSource)
    requires ReviewSourceOf(r) == Some(k)
    requires 0.0 <= r.rawRating <= MaxRating(k)
    ensures 0.0 <= ConvertedScore(r) <= 100.0
    ensures ConvertedScore(r) >= Curve(k)
  {
  }

  /** For a fixed source, a higher raw rating never converts to a lower score. */
  lemma ConvertedScoreMonotone(r1: SourceReview, r2: SourceReview)
    requires r1.source == r2.source
    requires r1.rawRating <= r2.rawRating
    ensures ConvertedScore(r1) <= ConvertedScore(r2)
  {
    match ReviewSourceOf(r1)
    case None =>
    case Some(k) =>
      assert r1.rawRating / MaxRating(k) <= r2.rawRating / MaxRating(k);
  }

  // ---------------------------------------------------------------------------
  // Rounding conversions of Swift's Double
  // ---------------------------------------------------------------------------

  /** `round(x)`: the nearest integer, ties going away from zero. */
  function RoundHalfAwayFromZero(x: real): (n: int)
    ensures x >= 0.0 ==> x - 0.5 < n as real <= x + 0.5
    ensures x < 0.0 ==> x - 0.5 <= n as real < x + 0.5
  {
    if x >= 0.0 then (x + 0.5).Floor else -((-x + 0.5).Floor)
  }

  /** `Int(x)`: the integer part of `x`, truncated toward zero. */
  function TruncateTowardZero(x: real): (n: int)
    ensures x >= 0.0 ==> n as real <= x < n as real + 1.0
    ensures x < 0.0 ==> n as real - 1.0 < x <= n as real
  {
    if x >= 0.0 then x.Floor else -((-x).Floor)
  }

  // ---------------------------------------------------------------------------
  // Aggregation
  // ---------------------------------------------------------------------------

  /** Sum of the converted scores of all reviews, recognised or not. */
  function TotalScore(rs: seq<SourceReview>): real
  {
    if |rs| == 0 then 0.0 else ConvertedScore(rs[0]) + TotalScore(rs[1..])
  }

  /** Every raw rating is non-negative. */
  predicate NonNegativeRatings(rs: seq<SourceReview>)
  {
    forall i :: 0 <= i < |rs| ==> 0.0 <= rs[i].rawRating
  }

  /**
   `edibleScore`: 0 without reviews; otherwise the total over ALL reviews
   (an unrecognised source adds 0 but still counts in the denominator)
   divided by their number, rounded, and capped at 100 from above only.
   */
  function EdibleScore(rs: seq<SourceReview>): (score: int)
    ensures |rs| == 0 ==> score == 0
    ensures score <= 100
  {
    if |rs| == 0 then 0
    else MinInt(RoundHalfAwayFromZero(TotalScore(rs) / (|rs| as real)), 100)
  }

  /** The mean converted score, the quantity `edibleScore` rounds. */
  function MeanScore(rs: seq<SourceReview>): real
    requires |rs| > 0
  {
    TotalScore(rs) / (|rs| as real)
  }

  /** With non-negative ratings every converted score lies in [0, 100], hence so does the total per review. */
  lemma {:induction false} TotalScoreBounds(rs: seq<SourceReview>)
    requires NonNegativeRatings(rs)
    ensures 0.0 <= TotalScore(rs) <= 100.0 * (|rs| as real)
  {
    if |rs| > 0 {
      TotalScoreBounds(rs[1..]);
    }
  }

  lemma MeanOfBoundedTotal(total: real, n: real)
    requires n > 0.0
    requires 0.0 <= total <= 100.0 * n
    ensures 0.0 <= total / n <= 100.0
  {
  }

  /** Every converted score is at most 100, whatever the sign of the rating, so the total is at most 100 per review. */
  lemma {:induction false} TotalScoreAtMostHundred(rs: seq<SourceReview>)
    ensures TotalScore(rs) <= 100.0 * (|rs| as real)
  {
    if |rs| > 0 {
      TotalScoreAtMostHundred(rs[1..]);
    }
  }

  /**
   For every non-empty review list, whatever the signs of its ratings, the
   mean converted score is at most 100, so the cap never changes the rounded
   mean: the Edible Score is `round` of the mean.
   */
  lemma EdibleScoreRoundsMean(rs: seq<SourceReview>)
    requires |rs| > 0
    ensures MeanScore(rs) <= 100.0
    ensures EdibleScore(rs) == RoundHalfAwayFromZero(MeanScore(rs))
  {
    var n := |rs| as real;
    TotalScoreAtMostHundred(rs);
    assert TotalScore(rs) / n <= 100.0;
  }

  /**
   For a non-empty review list with non-negative ratings the Edible Score is
   the integer nearest to the mean converted score (ties upward), and it lies
   in [0, 100].
   */
  lemma EdibleScoreIsRoundedMean(rs: seq<SourceReview>)
    requires |rs| > 0
    requires NonNegativeRatings(rs)
    ensures 0.0 <= MeanScore(rs) <= 100.0
    ensures MeanScore(rs) - 0.5 < EdibleScore(rs) as real <= MeanScore(rs) + 0.5
    ensures 0 <= EdibleScore(rs) <= 100
  {
    EdibleScoreRoundsMean(rs);
    TotalScoreBounds(rs);
    MeanOfBoundedTotal(TotalScore(rs), |rs| as real);
  }

  /** With non-negative ratings the Edible Score is within [0, 100], empty list included. */
  lemma EdibleScoreInRange(rs: seq<SourceReview>)
    requires NonNegativeRatings(rs)
    ensures 0 <= EdibleScore(rs) <= 100
  {
    if |rs| > 0 {
      EdibleScoreIsRoundedMean(rs);
    }
  }

  /** The cap is only an upper one: a negative rating can drive the score below zero. */
  lemma NegativeRatingScoresBelowZero()
    ensures EdibleScore([SourceReview("Google", -10.0, None, None)]) == -190
  {
    var r := SourceReview("Google", -10.0, None, None);
    assert ConvertedScore(r) == -190.0;
    assert TotalScore([r]) == -190.0;
  }

  /** If every review converts to exactly 100 the score is 100: no overshoot. */
  lemma EdibleScoreSaturates(rs: seq<SourceReview>)
    requires |rs| > 0
    requires forall i :: 0 <= i < |rs| ==> ConvertedScore(rs[i]) == 100.0
    ensures EdibleScore(rs) == 100
  {
    var n := |rs| as real;
    TotalScoreAllHundred(rs);
    assert TotalScore(rs) / n == 100.0;
  }

  lemma {:induction false} TotalScoreAllHundred(rs: seq<SourceReview>)
    requires forall i :: 0 <= i < |rs| ==> ConvertedScore(rs[i]) == 100.0
    ensures TotalScore(rs) == 100.0 * (|rs| as real)
  {
    if |rs| > 0 {
      TotalScoreAllHundred(rs[1..]);
    }
  }

  // ---------------------------------------------------------------------------
  // Order independence
  // ---------------------------------------------------------------------------

  lemma {:induction false} TotalScoreConcat(u: seq<SourceReview>, v: seq<SourceReview>)
    ensures TotalScore(u + v) == TotalScore(u) + TotalScore(v)
  {
    if |u| > 0 {
      assert (u + v)[1..] == u[1..] + v;
      TotalScoreConcat(u[1..], v);
    } else {
      assert u + v == v;
    }
  }

  /** Reordering the reviews does not change their total. */
  lemma {:induction false} TotalScorePermutation(a: seq<SourceReview>, b: seq<SourceReview>)
    requires multiset(a) == multiset(b)
    ensures TotalScore(a) == TotalScore(b)
    decreases |a|
  {
    if |a| == 0 {
      assert |multiset(b)| == 0;
    } else {
      var x := a[0];
      assert x in multiset(b);
      var i :| 0 <= i < |b| && b[i] == x;
      var rest := b[..i] + b[i + 1..];
      TotalScoreRemoveAt(b, i);
      MultisetRemoveAt(a, b, i);
      TotalScorePermutation(a[1..], rest);
    }
  }

  /** Removing the head of `a` and a matching element of `b` keeps the two lists permutations of each other. */
  lemma MultisetRemoveAt(a: seq<SourceReview>, b: seq<SourceReview>, i: int)
    requires multiset(a) == multiset(b)
    requires |a| > 0 && 0 <= i < |b| && b[i] == a[0]
    ensures multiset(a[1..]) == multiset(b[..i] + b[i + 1..])
  {
    var x := a[0];
    assert a == [x] + a[1..];
    assert multiset(a[1..]) == multiset(a) - multiset{x};
    assert b == b[..i] + [x] + b[i + 1..];
    assert multiset(b) == multiset(b[..i]) + multiset{x} + multiset(b[i + 1..]);
  }

  /** Taking one review out of the list takes exactly its converted score out of the total. */
  lemma TotalScoreRemoveAt(b: seq<SourceReview>, i: int)
    requires 0 <= i < |b|
    ensures TotalScore(b) == ConvertedScore(b[i]) + TotalScore(b[..i] + b[i + 1..])
  {
    var front, x, back := b[..i], b[i], b[i + 1..];
    var c := ConvertedScore(x);
    assert TotalScore(b) == TotalScore(front) + TotalScore([x] + back) by {
      Seqs.SplitAt(b, i);
      TotalScoreConcat(front, [x] + back);
    }
    assert TotalScore([x] + back) == c + TotalScore(back) by {
      assert ([x] + back)[0] == x && ([x] + back)[1..] == back;
    }
    assert TotalScore(front + back) == TotalScore(front) + TotalScore(back) by {
      TotalScoreConcat(front, back);
    }
  }

  /** `edibleScore` does not depend on the order of the reviews. */
  lemma EdibleScorePermutation(a: seq<SourceReview>, b: seq<SourceReview>)
    requires multiset(a) == multiset(b)
    ensures EdibleScore(a) == EdibleScore(b)
  {
    assert |a| == |multiset(a)| == |multiset(b)| == |b|;
    TotalScorePermutation(a, b);
  }

  // ---------------------------------------------------------------------------
  // Unrecognised sources
  // ---------------------------------------------------------------------------

  /**
   An unrecognised review adds nothing to the total but one to the count:
   appending it divides the same total by n + 1 instead of n.
   */
  lemma UnknownSourceDilutesMean(rs: seq<SourceReview>, u: SourceReview)
    requires |rs| > 0
    requires ReviewSourceOf(u).None?
    ensures TotalScore(rs + [u]) == TotalScore(rs)
    ensures MeanScore(rs + [u]) == TotalScore(rs) / ((|rs| + 1) as real)
  {
    TotalScoreConcat(rs, [u]);
    assert TotalScore([u]) == 0.0;
  }

  /** A 5.0 on Google next to a review from an unlisted source scores 50, not 100. */
  lemma UnknownSourceExample()
    ensures EdibleScore([SourceReview("Google", 5.0, None, None), SourceReview("Michelin", 3.0, None, None)]) == 50
  {
    var g := SourceReview("Google", 5.0, None, None);
    var m := SourceReview("Michelin", 3.0, None, None);
    assert ConvertedScore(g) == 100.0;
    assert ConvertedScore(m) == 0.0;
    assert TotalScore([g, m]) == 100.0 by {
      assert [g, m][1..] == [m];
      assert TotalScore([m]) == 0.0;
    }
  }

  /**
   Three sources of three classes: 4.5 on a 5-star site caps at 100, 9.4 on
   Foursquare gives 94, 3.0 from a critic gives 95; the mean 96.33 rounds to 96.
   */
  lemma MixedClassesExample()
    ensures EdibleScore([
      SourceReview("Google", 4.5, Some(100), None),
      SourceReview("Foursquare", 9.4, Some(50), None),
      SourceReview("NY Times", 3.0, None, None)]) == 96
  {
    var g := SourceReview("Google", 4.5, Some(100), None);
    var f := SourceReview("Foursquare", 9.4, Some(50), None);
    var n := SourceReview("NY Times", 3.0, None, None);
    assert ConvertedScore(g) == 100.0;
    assert ConvertedScore(f) == 94.0;
    assert ConvertedScore(n) == 95.0;
    assert [g, f, n][1..] == [f, n];
    assert [f, n][1..] == [n];
    assert TotalScore([n]) == 95.0;
    assert TotalScore([g, f, n]) == 289.0;
  }

  /** A converted score of 93.5 is shown as 93 in a row but rounds to 94 in the aggregate. */
  lemma TruncationDiffersFromRounding()
    ensures ConvertedScore(SourceReview("Foursquare", 9.35, None, None)) == 93.5
    ensures TruncateTowardZero(93.5) == 93
    ensures EdibleScore([SourceReview("Foursquare", 9.35, None, None)]) == 94
  {
    var f := SourceReview("Foursquare", 9.35, None, None);
    assert TotalScore([f]) == 93.5;
  }
}
