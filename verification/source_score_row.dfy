/**
 Views/Components/SourceScoreRow.swift: what one row of the score breakdown
 shows for a review, and the list of such rows. The row's number is the
 converted score cut to an Int (`Int(_:)` truncates), not rounded as in the
 Edible Score.
 */
module SourceScoreRow {

  import opened Options
  import opened Text
  import opened ReviewSources
  import opened Scoring
  import opened Restaurants

  /**
   The "rating/scale" caption: the raw rating (kept as a real; its `%.1f`
   rendering is not modelled) over the rendered `Int(maxRating)`.
   */
  datatype Scale = Scale(rating: real, outOf: string)

  /** The texts one row displays. */
  datatype ScoreRow = ScoreRow(
    icon: Option<string>,
    title: string,
    subtitle: Option<string>,
    score: string,
    scale: Option<Scale>)

  /** Suffix of the review-count subtitle. */
  const ReviewsSuffix: string := " reviews"

  /** Subtitle of a critic review that carries no count. */
  const ProfessionalCaption: string := "Professional review"

  /** The review's source resolves to a professional registry entry (`reviewSource?.isProfessional == true`). */
  predicate FromProfessional(r: SourceReview)
  {
    ReviewSourceOf(r).Some? && IsProfessional(ReviewSourceOf(r).value)
  }

  /**
   The subtitle: a present review count always wins and reads back as that
   count; without one, a professional source gets the fixed caption and
   everything else gets none.
   */
  function Subtitle(r: SourceReview): (caption: Option<string>)
    ensures r.reviewCount.Some? ==>
      && caption.Some?
      && |caption.value| > |ReviewsSuffix|
      && caption.value[|caption.value| - |ReviewsSuffix|..] == ReviewsSuffix
      && ParseInt(caption.value[..|caption.value| - |ReviewsSuffix|]) == Some(r.reviewCount.value)
    ensures r.reviewCount.None? ==> (caption.Some? <==> FromProfessional(r))
    ensures r.reviewCount.None? && caption.Some? ==> caption.value == ProfessionalCaption
  {
    match r.reviewCount
    case Some(count) =>
      var digits := IntToString(count);
      var text := digits + ReviewsSuffix;
      ParseIntToString(count);
      assert text[..|text| - |ReviewsSuffix|] == digits;
      Some(text)
    case None => if FromProfessional(r) then Some(ProfessionalCaption) else None
  }

  /**
   The two subtitles cannot be confused: a count caption ends in " reviews"
   and the critic caption does not, so the text alone tells whether a count
   was present.
   */
  lemma SubtitleShowsCountIff(r: SourceReview)
    ensures Subtitle(r).Some? && EndsWithReviews(Subtitle(r).value) <==> r.reviewCount.Some?
    ensures Subtitle(r) == Some(ProfessionalCaption) <==> r.reviewCount.None? && FromProfessional(r)
    ensures Subtitle(r).None? <==> r.reviewCount.None? && !FromProfessional(r)
  {
    assert !EndsWithReviews(ProfessionalCaption);
  }

  predicate EndsWithReviews(s: string)
  {
    |s| >= |ReviewsSuffix| && s[|s| - |ReviewsSuffix|..] == ReviewsSuffix
  }

  /** A professional review that does report a count shows the count, not the critic caption. */
  lemma CountBeatsProfessional()
    ensures Subtitle(SourceReview("Zagat", 3.5, Some(12), None)) == Some("12 reviews")
    ensures Subtitle(SourceReview("Zagat", 3.5, None, None)) == Some("Professional review")
    ensures Subtitle(SourceReview("Michelin", 3.5, None, None)) == None
  {
    assert IntToString(12) == "12";
    assert "12" + ReviewsSuffix == "12 reviews";
  }

  /** `Int(maxRating)` rendered: the whole-number top of the source's scale. */
  function ScaleText(k: ReviewSource): (outOf: string)
    ensures ParseNat(outOf).Some? && ParseNat(outOf).value as real == MaxRating(k)
    ensures outOf in {"4", "5", "10"}
  {
    var top := TruncateTowardZero(MaxRating(k));
    assert top as real == MaxRating(k);
    assert NatToString(10) == "10";
    IntToString(top)
  }

  /**
   `SourceScoreRow`: the title is the raw source name; the icon and the
   scale caption appear exactly when the name resolves, and then belong to
   that source; the number shown reads back as the truncated converted score.
   */
  function Row(r: SourceReview): (row: ScoreRow)
    ensures row.title == r.source
    ensures row.icon.Some? <==> ReviewSourceOf(r).Some?
    ensures row.scale.Some? <==> ReviewSourceOf(r).Some?
    ensures ReviewSourceOf(r).Some? ==>
      && row.icon == Some(Icon(ReviewSourceOf(r).value))
      && row.scale.value.rating == r.rawRating
      && ParseNat(row.scale.value.outOf).Some?
      && ParseNat(row.scale.value.outOf).value as real == MaxRating(ReviewSourceOf(r).value)
    ensures row.subtitle == Subtitle(r)
    ensures ParseInt(row.score) == Some(TruncateTowardZero(ConvertedScore(r)))
  {
    var shown := TruncateTowardZero(ConvertedScore(r));
    ParseIntToString(shown);
    match ReviewSourceOf(r)
    case None => ScoreRow(None, r.source, Subtitle(r), IntToString(shown), None)
    case Some(k) => ScoreRow(Some(Icon(k)), r.source, Subtitle(r), IntToString(shown), Some(Scale(r.rawRating, ScaleText(k))))
  }

  /**
   The number in a row is the converted score without its fraction: for a
   non-negative rating it is the largest whole number not above the
   converted score, between 0 and 100.
   */
  lemma RowScoreIsTruncated(r: SourceReview)
    requires 0.0 <= r.rawRating
    ensures var n := ParseInt(Row(r).score).value;
      && 0 <= n <= 100
      && n as real <= ConvertedScore(r) < n as real + 1.0
  {
  }

  /** A review from an unlisted source still gets a row: no icon, no scale, and the number 0. */
  lemma UnknownSourceRow(r: SourceReview)
    requires ReviewSourceOf(r).None?
    ensures Row(r).score == "0"
    ensures Row(r).icon.None? && Row(r).scale.None?
  {
    ParseIntCanonical(Row(r).score);
  }

  /**
   Truncation against rounding: Foursquare 9.35 converts to 93.5, which the
   row shows as "93" while the Edible Score of that single review is 94.
   */
  lemma RowDiffersFromEdibleScore()
    ensures Row(SourceReview("Foursquare", 9.35, None, None)).score == "93"
    ensures EdibleScore([SourceReview("Foursquare", 9.35, None, None)]) == 94
  {
    var f := SourceReview("Foursquare", 9.35, None, None);
    TruncationDiffersFromRounding();
    assert NatToString(93) == "93";
  }

  /** `SourceScoreList`: one row per review, in the order of the reviews. */
  function ScoreList(reviews: seq<SourceReview>): (rows: seq<ScoreRow>)
    ensures |rows| == |reviews|
    ensures forall i :: 0 <= i < |reviews| ==> rows[i] == Row(reviews[i])
    decreases |reviews|
  {
    if |reviews| == 0 then []
    else [Row(reviews[0])] + ScoreList(reviews[1..])
  }

  /** The list of a concatenation is the concatenation of the lists: rows never reorder or merge. */
  lemma ScoreListConcat(a: seq<SourceReview>, b: seq<SourceReview>)
    ensures ScoreList(a + b) == ScoreList(a) + ScoreList(b)
  {
  }

  /** The list's titles are the reviews' source names, unresolvable ones included. */
  lemma ScoreListTitles(reviews: seq<SourceReview>)
    ensures forall i :: 0 <= i < |reviews| ==> ScoreList(reviews)[i].title == reviews[i].source
  {
  }

  /**
   The preview list for the sample restaurant: Google 4.5 from 234 reviews
   shows 100 out of 5, and Yelp 4.2 from 156 reviews shows 94 out of 5.
   */
  lemma MockScoreList()
    ensures ScoreList(Mock().sourceReviews) == [
      ScoreRow(Some("g.circle.fill"), "Google", Some("234 reviews"), "100", Some(Scale(4.5, "5"))),
      ScoreRow(Some("star.circle.fill"), "Yelp", Some("156 reviews"), "94", Some(Scale(4.2, "5")))]
  {
    SampleScoreList(Mock().sourceReviews);
  }

  lemma SampleScoreList(rs: seq<SourceReview>)
    requires rs == [SourceReview("Google", 4.5, Some(234), None), SourceReview("Yelp", 4.2, Some(156), None)]
    ensures ScoreList(rs) == [
      ScoreRow(Some("g.circle.fill"), "Google", Some("234 reviews"), "100", Some(Scale(4.5, "5"))),
      ScoreRow(Some("star.circle.fill"), "Yelp", Some("156 reviews"), "94", Some(Scale(4.2, "5")))]
  {
    GoogleSampleRow();
    YelpSampleRow();
    assert ScoreList(rs) == [Row(rs[0]), Row(rs[1])];
  }

  lemma GoogleSampleRow()
    ensures Row(SourceReview("Google", 4.5, Some(234), None))
      == ScoreRow(Some("g.circle.fill"), "Google", Some("234 reviews"), "100", Some(Scale(4.5, "5")))
  {
    var g := SourceReview("Google", 4.5, Some(234), None);
    assert ConvertedScore(g) == 100.0;
    assert TruncateTowardZero(100.0) == 100;
    assert IntToString(234) == "234" && IntToString(100) == "100";
    assert "234" + ReviewsSuffix == "234 reviews";
    assert ScaleText(Google) == "5";
  }

  lemma YelpSampleRow()
    ensures Row(SourceReview("Yelp", 4.2, Some(156), None))
      == ScoreRow(Some("star.circle.fill"), "Yelp", Some("156 reviews"), "94", Some(Scale(4.2, "5")))
  {
    var y := SourceReview("Yelp", 4.2, Some(156), None);
    assert ConvertedScore(y) == 94.0;
    assert TruncateTowardZero(94.0) == 94;
    assert IntToString(156) == "156" && IntToString(94) == "94";
    assert "156" + ReviewsSuffix == "156 reviews";
    assert ScaleText(Yelp) == "5";
  }
}
