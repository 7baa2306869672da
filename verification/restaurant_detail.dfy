/**
 The pure texts of Views/Screens/RestaurantDetailScreen.swift: the week's
 hour rows (all seven days or only today's), the "Aggregated from N
 sources" caption and the share message. The current weekday, which the
 screen reads from the clock, is a parameter here.
 */
module RestaurantDetail {

  import opened Options
  import opened Text
  import opened Scoring
  import opened Restaurants

  /** `orderedDays`: the week from Monday to Sunday. */
  const OrderedDays: seq<string> :=
    ["Monday", "Tuesday", "Wednesday", "Thursday", "Friday", "Saturday", "Sunday"]

  /** The week has seven distinct names, starting on Monday and ending on Sunday. */
  lemma OrderedDaysWeek()
    ensures |OrderedDays| == 7
    ensures forall i, j :: 0 <= i < j < |OrderedDays| ==> OrderedDays[i] != OrderedDays[j]
    ensures OrderedDays[0] == "Monday" && OrderedDays[6] == "Sunday"
  {
  }

  /** One line of the hours section: the day label, the hours text, and whether it is the highlighted today row. */
  datatype HourRow = HourRow(day: string, hours: string, isToday: bool)

  /** Fallback in the full week for a day missing from the map. */
  const ClosedText: string := "Closed"

  /** Fallback of the today row when today is missing from the map. */
  const UnavailableText: string := "Hours unavailable"

  /** One row of the full week: `hours[day] ?? "Closed"`. */
  function WeekRow(r: Restaurant, day: string): HourRow
  {
    HourRow(day, if day in r.hours then r.hours[day] else ClosedText, false)
  }

  /**
   The hours section. Expanded, it lists the seven days in order, each with
   its stored hours or "Closed"; collapsed, it is a single highlighted
   "Today" row with today's stored hours or "Hours unavailable". Both are
   stated against `todayHours`, the record's own lookup.
   */
  function HoursRows(r: Restaurant, showAll: bool, today: string): (rows: seq<HourRow>)
    ensures showAll ==> |rows| == |OrderedDays|
    ensures showAll ==> forall i :: 0 <= i < |rows| ==>
      && rows[i].day == OrderedDays[i]
      && !rows[i].isToday
      && rows[i].hours == GetOr(TodayHours(r, OrderedDays[i]), ClosedText)
    ensures !showAll ==> rows == [HourRow("Today", GetOr(TodayHours(r, today), UnavailableText), true)]
  {
    if showAll then seq(|OrderedDays|, i requires 0 <= i < |OrderedDays| => WeekRow(r, OrderedDays[i]))
    else [HourRow("Today", if today in r.hours then r.hours[today] else UnavailableText, true)]
  }

  /**
   The two fallbacks differ: for a weekday missing from the map the full
   week says "Closed" while the today row says "Hours unavailable".
   */
  lemma FallbacksDiffer(r: Restaurant, i: int)
    requires 0 <= i < |OrderedDays|
    requires OrderedDays[i] !in r.hours
    ensures HoursRows(r, true, OrderedDays[i])[i].hours == ClosedText
    ensures HoursRows(r, false, OrderedDays[i])[0].hours == UnavailableText
    ensures ClosedText != UnavailableText
  {
  }

  /**
   The full week cannot tell a missing day from one stored as "Closed", but
   the today row can: only the stored value reads "Closed" there.
   */
  lemma MissingAndClosedDays(r: Restaurant, i: int)
    requires 0 <= i < |OrderedDays|
    ensures HoursRows(r, true, "")[i].hours == ClosedText <==>
      (OrderedDays[i] !in r.hours || r.hours[OrderedDays[i]] == ClosedText)
    ensures HoursRows(r, false, OrderedDays[i])[0].hours == ClosedText <==>
      (OrderedDays[i] in r.hours && r.hours[OrderedDays[i]] == ClosedText)
  {
  }

  /** The collapsed row's hours is exactly `todayHours` when present. */
  lemma TodayRowIsTodayHours(r: Restaurant, today: string)
    ensures TodayHours(r, today).Some? ==> HoursRows(r, false, today)[0].hours == TodayHours(r, today).value
    ensures TodayHours(r, today).None? ==> HoursRows(r, false, today)[0].hours == UnavailableText
  {
  }

  /** The sample restaurant lists hours for every day, so its full week shows no "Closed". */
  lemma MockWeekHasNoClosedDay()
    ensures forall i :: 0 <= i < 7 ==> HoursRows(Mock(), true, "")[i].hours != ClosedText
    ensures HoursRows(Mock(), false, "Sunday")[0].hours == "10:00 AM - 9:00 PM"
  {
    var h := Mock().hours;
    assert forall i :: 0 <= i < |OrderedDays| ==> OrderedDays[i] in h && h[OrderedDays[i]] != ClosedText;
  }

  // ---------------------------------------------------------------------------
  // Score caption and share text
  // ---------------------------------------------------------------------------

  const AggregatedPrefix: string := "Aggregated from "
  const SourcesSuffix: string := " sources"

  /**
   "Aggregated from N sources", where N is the number of reviews, whether
   or not their source is in the registry: the middle reads back as that
   count.
   */
  function SourceCountLabel(r: Restaurant): (caption: string)
    ensures |caption| > |AggregatedPrefix| + |SourcesSuffix|
    ensures caption[..|AggregatedPrefix|] == AggregatedPrefix
    ensures caption[|caption| - |SourcesSuffix|..] == SourcesSuffix
    ensures ParseNat(caption[|AggregatedPrefix|..|caption| - |SourcesSuffix|]) == Some(|r.sourceReviews|)
  {
    var digits := NatToString(|r.sourceReviews|);
    var caption := AggregatedPrefix + digits + SourcesSuffix;
    assert caption[|AggregatedPrefix|..|caption| - |SourcesSuffix|] == digits;
    caption
  }

  /**
   The caption counts reviews, not recognised sources: a Google review next
   to one from an unlisted guide reads "2 sources" although only one of
   them adds to the score.
   */
  lemma SourceCountIncludesUnknown(r: Restaurant)
    requires r.sourceReviews == [SourceReview("Google", 4.0, None, None), SourceReview("Michelin", 3.0, None, None)]
    ensures SourceCountLabel(r) == "Aggregated from 2 sources"
    ensures ReviewSourceOf(r.sourceReviews[1]).None?
  {
    assert NatToString(2) == "2";
  }

  const SharePrefix: string := "Check out "
  const ShareMiddle: string := " on Edible Dialect! Score: "
  const ShareSuffix: string := "/100"

  /**
   The share message "Check out NAME on Edible Dialect! Score: S/100": it
   starts with the prefix and the name, ends with "/100", and the number in
   between reads back as the Edible Score.
   */
  function ShareText(r: Restaurant): (text: string)
    ensures var head := SharePrefix + r.name + ShareMiddle;
      && |text| > |head| + |ShareSuffix|
      && text[..|head|] == head
      && text[|text| - |ShareSuffix|..] == ShareSuffix
      && ParseInt(text[|head|..|text| - |ShareSuffix|]) == Some(EdibleScore(r.sourceReviews))
  {
    var head := SharePrefix + r.name + ShareMiddle;
    var score := IntToString(EdibleScore(r.sourceReviews));
    ParseIntToString(EdibleScore(r.sourceReviews));
    var text := head + score + ShareSuffix;
    assert text[..|head|] == head;
    assert text[|head|..|text| - |ShareSuffix|] == score;
    text
  }

  /** Two restaurants with the same name share the same message exactly when their scores agree. */
  lemma ShareTextDeterminesScore(a: Restaurant, b: Restaurant)
    requires a.name == b.name
    ensures ShareText(a) == ShareText(b) <==> EdibleScore(a.sourceReviews) == EdibleScore(b.sourceReviews)
  {
    var head := SharePrefix + a.name + ShareMiddle;
    if ShareText(a) == ShareText(b) {
      assert ShareText(a)[|head|..|ShareText(a)| - |ShareSuffix|] == ShareText(b)[|head|..|ShareText(b)| - |ShareSuffix|];
    }
  }

  /** The sample restaurant's message reads "Check out Sample Restaurant on Edible Dialect! Score: 97/100". */
  lemma MockShareText()
    ensures ShareText(Mock()) == "Check out " + "Sample Restaurant" + " on Edible Dialect! Score: " + "97" + "/100"
  {
    MockScores();
    SampleShareText(Mock());
  }

  lemma SampleShareText(r: Restaurant)
    requires r.name == "Sample Restaurant" && EdibleScore(r.sourceReviews) == 97
    ensures ShareText(r) == "Check out " + "Sample Restaurant" + " on Edible Dialect! Score: " + "97" + "/100"
  {
    assert IntToString(97) == "97";
  }
}
