/**
 The restaurant record of Models/Restaurant.swift: its raw fields, the four
 string- or Int-backed enumerations with their total fallback parsers, and
 the derived fields (price display, formatted phone, coordinate, today's
 hours). The record's UUID and `dateAdded` timestamp are not modelled.
 */
module Restaurants {

  import opened Options
  import opened Text
  import opened Scoring
  import DesignSystem

  // ---------------------------------------------------------------------------
  // Borough
  // ---------------------------------------------------------------------------

  datatype Borough = Manhattan | Brooklyn | Queens | Elsewhere

  /** `rawValue`, which is also the `displayName`. */
  function BoroughRaw(b: Borough): string
  {
    match b
    case Manhattan => "Manhattan"
    case Brooklyn => "Brooklyn"
    case Queens => "Queens"
    case Elsewhere => "Elsewhere"
  }

  /** `Borough(rawValue:)`: exact inverse of `BoroughRaw`, `None` otherwise. */
  function BoroughFromRaw(s: string): (r: Option<Borough>)
    ensures r.Some? ==> BoroughRaw(r.value) == s
    ensures r.None? <==> forall b :: BoroughRaw(b) != s
  {
    if s == "Manhattan" then Some(Manhattan)
    else if s == "Brooklyn" then Some(Brooklyn)
    else if s == "Queens" then Some(Queens)
    else if s == "Elsewhere" then Some(Elsewhere)
    else None
  }

  // ---------------------------------------------------------------------------
  // Cuisine
  // ---------------------------------------------------------------------------

  datatype CuisineType =
    | Italian | Japanese | Mexican | American | French | Chinese | Indian | Thai
    | Korean | Mediterranean | Seafood | Steakhouse | Pizza | Vietnamese | Other

  function CuisineRaw(c: CuisineType): string
  {
    match c
    case Italian => "Italian"
    case Japanese => "Japanese"
    case Mexican => "Mexican"
    case American => "American"
    case French => "French"
    case Chinese => "Chinese"
    case Indian => "Indian"
    case Thai => "Thai"
    case Korean => "Korean"
    case Mediterranean => "Mediterranean"
    case Seafood => "Seafood"
    case Steakhouse => "Steakhouse"
    case Pizza => "Pizza"
    case Vietnamese => "Vietnamese"
    case Other => "Other"
  }

  /** `CuisineType(rawValue:)`: exact inverse of `CuisineRaw`, `None` otherwise. */
  function CuisineFromRaw(s: string): (r: Option<CuisineType>)
    ensures r.Some? ==> CuisineRaw(r.value) == s
    ensures r.None? <==> forall c :: CuisineRaw(c) != s
  {
    if s == "Italian" then Some(Italian)
    else if s == "Japanese" then Some(Japanese)
    else if s == "Mexican" then Some(Mexican)
    else if s == "American" then Some(American)
    else if s == "French" then Some(French)
    else if s == "Chinese" then Some(Chinese)
    else if s == "Indian" then Some(Indian)
    else if s == "Thai" then Some(Thai)
    else if s == "Korean" then Some(Korean)
    else if s == "Mediterranean" then Some(Mediterranean)
    else if s == "Seafood" then Some(Seafood)
    else if s == "Steakhouse" then Some(Steakhouse)
    else if s == "Pizza" then Some(Pizza)
    else if s == "Vietnamese" then Some(Vietnamese)
    else if s == "Other" then Some(Other)
    else None
  }

  // ---------------------------------------------------------------------------
  // Price range
  // ---------------------------------------------------------------------------

  datatype PriceRange = Budget | Moderate | Upscale | FineDining

  function PriceRaw(p: PriceRange): int
  {
    match p
    case Budget => 1
    case Moderate => 2
    case Upscale => 3
    case FineDining => 4
  }

  /** `PriceRange(rawValue:)`: exact inverse of `PriceRaw`, `None` otherwise. */
  function PriceFromRaw(n: int): (r: Option<PriceRange>)
    ensures r.Some? ==> PriceRaw(r.value) == n
    ensures r.None? <==> forall p :: PriceRaw(p) != n
  {
    if n == 1 then Some(Budget)
    else if n == 2 then Some(Moderate)
    else if n == 3 then Some(Upscale)
    else if n == 4 then Some(FineDining)
    else None
  }

  /** `displayString`: one "$" per price tier. */
  function DisplayString(p: PriceRange): string
  {
    Repeat('$', PriceRaw(p))
  }

  // ---------------------------------------------------------------------------
  // Health grade
  // ---------------------------------------------------------------------------

  datatype HealthGrade = GradeA | GradeB | GradeC | Pending

  function HealthGradeRaw(g: HealthGrade): string
  {
    match g
    case GradeA => "A"
    case GradeB => "B"
    case GradeC => "C"
    case Pending => "Pending"
  }

  /** `HealthGrade(rawValue:)`: exact inverse of `HealthGradeRaw`, `None` otherwise. */
  function HealthGradeFromRaw(s: string): (r: Option<HealthGrade>)
    ensures r.Some? ==> HealthGradeRaw(r.value) == s
    ensures r.None? <==> forall g :: HealthGradeRaw(g) != s
  {
    if s == "A" then Some(GradeA)
    else if s == "B" then Some(GradeB)
    else if s == "C" then Some(GradeC)
    else if s == "Pending" then Some(Pending)
    else None
  }

  /** Hex colour string of each grade. */
  function HealthGradeColor(g: HealthGrade): string
  {
    match g
    case GradeA => "00563F"
    case GradeB => "F5A623"
    case GradeC => "D0021B"
    case Pending => "9B9B9B"
  }

  /**
   The grade colours are bare six-digit hex strings that `Color(hex:)`
   reads as opaque colours: A is the brand green, B the badge amber, C the
   badge red, and Pending a mid grey.
   */
  lemma HealthGradeColors(g: HealthGrade)
    ensures var hex := HealthGradeColor(g);
      && |hex| == 6 && DesignSystem.AllHex(hex) && DesignSystem.Trim(hex) == hex
    ensures DesignSystem.ColorFromHex(HealthGradeColor(g)) ==
      match g
      case GradeA => DesignSystem.Argb(255, 0, 86, 63)
      case GradeB => DesignSystem.Argb(255, 245, 166, 35)
      case GradeC => DesignSystem.Argb(255, 208, 2, 27)
      case Pending => DesignSystem.Argb(255, 155, 155, 155)
    ensures HealthGradeColor(GradeA) == DesignSystem.EdibleGreenHex
    ensures HealthGradeColor(GradeB) == DesignSystem.AmberHex
    ensures HealthGradeColor(GradeC) == DesignSystem.RedHex
  {
    match g
    case GradeA => DesignSystem.EdibleGreenChannels();
    case GradeB => DesignSystem.AmberChannels();
    case GradeC => DesignSystem.RedChannels();
    case Pending => PendingChannels("9B9B9B");
  }

  lemma PendingChannels(hex: string)
    requires hex == "9B9B9B"
    ensures |hex| == 6 && DesignSystem.AllHex(hex) && DesignSystem.Trim(hex) == hex
    ensures DesignSystem.ColorFromHex(hex) == DesignSystem.Argb(255, 155, 155, 155)
  {
    assert DesignSystem.AllHex(hex);
    DesignSystem.SixDigitHex(hex);
    assert DesignSystem.HexDigitValue('9') == 9 && DesignSystem.HexDigitValue('B') == 11;
  }

  // ---------------------------------------------------------------------------
  // The record
  // ---------------------------------------------------------------------------

  datatype Restaurant = Restaurant(
    name: string,
    cuisineType: string,
    borough: string,
    neighborhood: string,
    address: string,
    phoneNumber: string,
    priceRange: int,
    healthGrade: Option<string>,
    menuURL: Option<string>,
    websiteURL: Option<string>,
    imageURL: string,
    heroImageURL: Option<string>,
    hours: map<string, string>,
    sourceReviews: seq<SourceReview>,
    isFeatured: bool,
    latitude: Option<real>,
    longitude: Option<real>)

  /** `cuisineTypeEnum`: the parsed cuisine, `.other` when unrecognised. */
  function CuisineTypeEnum(r: Restaurant): CuisineType
  {
    GetOr(CuisineFromRaw(r.cuisineType), Other)
  }

  /** `boroughEnum`: the parsed borough, `.elsewhere` when unrecognised. */
  function BoroughEnum(r: Restaurant): Borough
  {
    GetOr(BoroughFromRaw(r.borough), Elsewhere)
  }

  /** `priceRangeEnum`: the parsed tier, `.moderate` when outside 1...4. */
  function PriceRangeEnum(r: Restaurant): PriceRange
  {
    GetOr(PriceFromRaw(r.priceRange), Moderate)
  }

  /** `healthGradeEnum`: nil when the grade is absent and when it is unrecognised. */
  function HealthGradeEnum(r: Restaurant): Option<HealthGrade>
  {
    match r.healthGrade
    case None => None
    case Some(g) => HealthGradeFromRaw(g)
  }

  /** The parsers are total and each enumeration's fallback is hit exactly when parsing fails or names it. */
  lemma EnumFallbacks(r: Restaurant)
    ensures CuisineTypeEnum(r) == Other <==> (r.cuisineType == "Other" || forall c :: CuisineRaw(c) != r.cuisineType)
    ensures CuisineTypeEnum(r) != Other ==> CuisineRaw(CuisineTypeEnum(r)) == r.cuisineType
    ensures BoroughEnum(r) == Elsewhere <==> (r.borough == "Elsewhere" || forall b :: BoroughRaw(b) != r.borough)
    ensures BoroughEnum(r) != Elsewhere ==> BoroughRaw(BoroughEnum(r)) == r.borough
    ensures PriceRangeEnum(r) == (if 1 <= r.priceRange <= 4 then PriceFromRaw(r.priceRange).value else Moderate)
    ensures 1 <= r.priceRange <= 4 ==> PriceRaw(PriceRangeEnum(r)) == r.priceRange
    ensures HealthGradeEnum(r).None? <==>
      (r.healthGrade.None? || forall g :: HealthGradeRaw(g) != r.healthGrade.value)
    ensures HealthGradeEnum(r).Some? ==> HealthGradeRaw(HealthGradeEnum(r).value) == r.healthGrade.value
  {
  }

  /** Every enumeration case is recovered from its own raw value. */
  lemma EnumRoundTrips(b: Borough, c: CuisineType, p: PriceRange, g: HealthGrade)
    ensures BoroughFromRaw(BoroughRaw(b)) == Some(b)
    ensures CuisineFromRaw(CuisineRaw(c)) == Some(c)
    ensures PriceFromRaw(PriceRaw(p)) == Some(p)
    ensures HealthGradeFromRaw(HealthGradeRaw(g)) == Some(g)
  {
  }

  /**
   The price shown for a restaurant is a run of "$" as long as its tier, and
   "$$" whenever the stored tier is outside 1...4.
   */
  lemma PriceDisplay(r: Restaurant)
    ensures var d := DisplayString(PriceRangeEnum(r));
      && (forall i :: 0 <= i < |d| ==> d[i] == '$')
      && |d| == (if 1 <= r.priceRange <= 4 then r.priceRange else 2)
  {
  }

  lemma PriceDisplayExamples()
    ensures DisplayString(Budget) == "$"
    ensures DisplayString(Moderate) == "$$"
    ensures DisplayString(FineDining) == "$$$$"
  {
  }

  // ---------------------------------------------------------------------------
  // Phone number
  // ---------------------------------------------------------------------------

  /**
   `formattedPhone`: a 10-character string becomes "(AAA) MMM-LLLL"; any other
   length is passed through. The characters are not checked to be digits.
   */
  function FormattedPhone(phone: string): (f: string)
    ensures |phone| != 10 ==> f == phone
    ensures |phone| == 10 ==> |f| == 14
  {
    if |phone| != 10 then phone
    else "(" + phone[..3] + ") " + phone[3..6] + "-" + phone[6..]
  }

  /** The ten characters that a formatted phone number displays, read back in order. */
  function PhoneCharacters(f: string): string
    requires |f| == 14
  {
    f[1..4] + f[6..9] + f[10..]
  }

  /**
   Formatting a 10-character number keeps every character, in order, between
   fixed punctuation at positions 0, 4, 5 and 9.
   */
  lemma FormattedPhoneRoundTrip(phone: string)
    requires |phone| == 10
    ensures PhoneCharacters(FormattedPhone(phone)) == phone
    ensures var f := FormattedPhone(phone); f[0] == '(' && f[4] == ')' && f[5] == ' ' && f[9] == '-'
  {
    var f := FormattedPhone(phone);
    assert f[1..4] == phone[..3];
    assert f[6..9] == phone[3..6];
    assert f[10..] == phone[6..];
    assert phone == phone[..3] + phone[3..6] + phone[6..];
  }

  lemma FormattedPhoneExamples()
    ensures FormattedPhone("2125551234") == "(212) 555-1234"
    ensures FormattedPhone("123") == "123"
    ensures FormattedPhone("12345678901") == "12345678901"
  {
  }

  // ---------------------------------------------------------------------------
  // Coordinate and hours
  // ---------------------------------------------------------------------------

  /** `coordinate`: a (latitude, longitude) pair when both are present, nil otherwise. */
  function Coordinate(r: Restaurant): (c: Option<(real, real)>)
    ensures c.Some? <==> r.latitude.Some? && r.longitude.Some?
    ensures c.Some? ==> c.value.0 == r.latitude.value && c.value.1 == r.longitude.value
  {
    match (r.latitude, r.longitude)
    case (Some(lat), Some(lon)) => Some((lat, lon))
    case _ => None
  }

  /**
   `todayHours`, with the weekday name passed in instead of read from the
   clock: the raw dictionary entry, nil when the day has none. An explicit
   "Closed" entry is returned as is.
   */
  function TodayHours(r: Restaurant, today: string): (h: Option<string>)
    ensures h.Some? <==> today in r.hours
    ensures h.Some? ==> h.value == r.hours[today]
  {
    Lookup(r.hours, today)
  }

  /** An absent day and a day mapped to "Closed" are told apart. */
  lemma AbsentDayIsNotClosed(r: Restaurant, day: string)
    ensures day !in r.hours ==> TodayHours(r, day) == None
    ensures day in r.hours && r.hours[day] == "Closed" ==> TodayHours(r, day) == Some("Closed")
  {
  }

  // ---------------------------------------------------------------------------
  // The preview restaurant
  // ---------------------------------------------------------------------------

  /** `Restaurant.mock()`, the sample record used by previews. */
  function Mock(): Restaurant
  {
    Restaurant(
      "Sample Restaurant",
      CuisineRaw(Italian),
      BoroughRaw(Manhattan),
      "West Village",
      "123 Main St, New York, NY 10014",
      "2125551234",
      2,
      Some("A"),
      Some("https://example.com/menu"),
      Some("https://example.com"),
      "restaurant_placeholder",
      Some("restaurant_hero_placeholder"),
      map[
        "Monday" := "11:00 AM - 10:00 PM",
        "Tuesday" := "11:00 AM - 10:00 PM",
        "Wednesday" := "11:00 AM - 10:00 PM",
        "Thursday" := "11:00 AM - 11:00 PM",
        "Friday" := "11:00 AM - 11:00 PM",
        "Saturday" := "10:00 AM - 11:00 PM",
        "Sunday" := "10:00 AM - 9:00 PM"
      ],
      [
        SourceReview("Google", 4.5, Some(234), None),
        SourceReview("Yelp", 4.2, Some(156), None)
      ],
      false,
      Some(40.7335),
      Some(-74.0003))
  }

  /** The sample scores 97: Google 4.5 converts to 100 and Yelp 4.2 to 94. */
  lemma MockScores()
    ensures ConvertedScore(Mock().sourceReviews[0]) == 100.0
    ensures ConvertedScore(Mock().sourceReviews[1]) == 94.0
    ensures EdibleScore(Mock().sourceReviews) == 97
    ensures FormattedPhone(Mock().phoneNumber) == "(212) 555-1234"
    ensures Coordinate(Mock()).Some?
  {
    var rs := Mock().sourceReviews;
    assert rs[1..] == [rs[1]];
    assert TotalScore(rs) == 194.0;
  }
}
