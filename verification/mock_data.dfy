/**
 Services/MockDataService.swift: the static ten-restaurant catalog and the
 three catalog queries (by borough, featured only, free-text search). Each
 query takes the catalog as a parameter; the service applies it to
 `GetRestaurants()`.
 */
module MockData {

  import opened Options
  import opened Text
  import opened Seqs
  import opened ReviewSources
  import opened Scoring
  import opened Restaurants

  /** `getRestaurants()`: the fixture catalog, in declaration order. */
  function GetRestaurants(): (catalog: seq<Restaurant>)
    ensures |catalog| == 10
  {
    [
      Carbone(),
      LeBernardin(),
      KatzsDelicatessen(),
      MomofukuKo(),
      PeterLuger(),
      Lilia(),
      DiFaraPizza(),
      Sripraphai(),
      MWellsSteakhouse(),
      HunanKitchen()
    ]
  }

  function Carbone(): Restaurant
  {
    Restaurant(
      "Carbone",
      "Italian",
      "Manhattan",
      "Greenwich Village",
      "181 Thompson St, New York, NY 10012",
      "2122543000",
      4,
      Some("A"),
      Some("https://carbonenewyork.com/menu"),
      Some("https://carbonenewyork.com"),
      "carbone",
      Some("carbone_hero"),
      map[
        "Monday" := "5:00 PM - 11:00 PM",
        "Tuesday" := "5:00 PM - 11:00 PM",
        "Wednesday" := "5:00 PM - 11:00 PM",
        "Thursday" := "5:00 PM - 11:00 PM",
        "Friday" := "5:00 PM - 11:30 PM",
        "Saturday" := "5:00 PM - 11:30 PM",
        "Sunday" := "5:00 PM - 10:00 PM"
      ],
      [
        SourceReview("Google", 4.7, Some(3421), None),
        SourceReview("Yelp", 4.5, Some(2156), None),
        SourceReview("Foursquare", 9.4, Some(892), None),
        SourceReview("NY Times", 3.0, None, None),
        SourceReview("Zagat", 3.5, None, None)
      ],
      true,
      Some(40.7272),
      Some(-73.9999))
  }

  function LeBernardin(): Restaurant
  {
    Restaurant(
      "Le Bernardin",
      "Seafood",
      "Manhattan",
      "Midtown West",
      "155 W 51st St, New York, NY 10019",
      "2125541515",
      4,
      Some("A"),
      Some("https://le-bernardin.com/menus"),
      Some("https://le-bernardin.com"),
      "le_bernardin",
      Some("le_bernardin_hero"),
      map[
        "Monday" := "12:00 PM - 2:30 PM, 5:15 PM - 10:30 PM",
        "Tuesday" := "12:00 PM - 2:30 PM, 5:15 PM - 10:30 PM",
        "Wednesday" := "12:00 PM - 2:30 PM, 5:15 PM - 10:30 PM",
        "Thursday" := "12:00 PM - 2:30 PM, 5:15 PM - 10:30 PM",
        "Friday" := "12:00 PM - 2:30 PM, 5:15 PM - 11:00 PM",
        "Saturday" := "5:15 PM - 11:00 PM",
        "Sunday" := "Closed"
      ],
      [
        SourceReview("Google", 4.8, Some(2891), None),
        SourceReview("Yelp", 4.6, Some(1823), None),
        SourceReview("Foursquare", 9.6, Some(1205), None),
        SourceReview("NY Times", 4.0, None, None),
        SourceReview("Zagat", 4.0, None, None)
      ],
      true,
      Some(40.7618),
      Some(-73.9816))
  }

  function KatzsDelicatessen(): Restaurant
  {
    Restaurant(
      "Katz's Delicatessen",
      "American",
      "Manhattan",
      "Lower East Side",
      "205 E Houston St, New York, NY 10002",
      "2122542246",
      2,
      Some("A"),
      Some("https://katzsdelicatessen.com/menu"),
      Some("https://katzsdelicatessen.com"),
      "katz",
      Some("katz"),
      map[
        "Monday" := "8:00 AM - 10:45 PM",
        "Tuesday" := "8:00 AM - 10:45 PM",
        "Wednesday" := "8:00 AM - 10:45 PM",
        "Thursday" := "8:00 AM - 2:45 AM",
        "Friday" := "8:00 AM - Open 24 hours",
        "Saturday" := "Open 24 hours",
        "Sunday" := "Open 24 hours - 10:45 PM"
      ],
      [
        SourceReview("Google", 4.6, Some(15234), None),
        SourceReview("Yelp", 4.3, Some(8912), None),
        SourceReview("Foursquare", 9.3, Some(3421), None)
      ],
      true,
      Some(40.7223),
      Some(-73.9873))
  }

  function MomofukuKo(): Restaurant
  {
    Restaurant(
      "Momofuku Ko",
      "Japanese",
      "Manhattan",
      "East Village",
      "8 Extra Pl, New York, NY 10003",
      "2122038095",
      4,
      Some("A"),
      Some("https://ko.momofuku.com/menu"),
      Some("https://ko.momofuku.com"),
      "momofuku_ko",
      Some("momofuku_ko_hero"),
      map[
        "Monday" := "Closed",
        "Tuesday" := "5:00 PM - 10:00 PM",
        "Wednesday" := "5:00 PM - 10:00 PM",
        "Thursday" := "5:00 PM - 10:00 PM",
        "Friday" := "5:00 PM - 10:30 PM",
        "Saturday" := "5:00 PM - 10:30 PM",
        "Sunday" := "5:00 PM - 9:00 PM"
      ],
      [
        SourceReview("Google", 4.5, Some(892), None),
        SourceReview("Yelp", 4.4, Some(623), None),
        SourceReview("NY Times", 3.0, None, None)
      ],
      false,
      Some(40.7264),
      Some(-73.9907))
  }

  function PeterLuger(): Restaurant
  {
    Restaurant(
      "Peter Luger Steak House",
      "Steakhouse",
      "Brooklyn",
      "Williamsburg",
      "178 Broadway, Brooklyn, NY 11211",
      "7183877400",
      4,
      Some("A"),
      Some("https://peterluger.com/menu"),
      Some("https://peterluger.com"),
      "peter_luger",
      Some("peter_luger_hero"),
      map[
        "Monday" := "11:45 AM - 9:45 PM",
        "Tuesday" := "11:45 AM - 9:45 PM",
        "Wednesday" := "11:45 AM - 9:45 PM",
        "Thursday" := "11:45 AM - 9:45 PM",
        "Friday" := "11:45 AM - 10:45 PM",
        "Saturday" := "11:45 AM - 10:45 PM",
        "Sunday" := "12:45 PM - 9:45 PM"
      ],
      [
        SourceReview("Google", 4.5, Some(6234), None),
        SourceReview("Yelp", 4.1, Some(4521), None),
        SourceReview("Foursquare", 9.2, Some(2891), None),
        SourceReview("Zagat", 3.5, None, None)
      ],
      true,
      Some(40.7098),
      Some(-73.9624))
  }

  function Lilia(): Restaurant
  {
    Restaurant(
      "Lilia",
      "Italian",
      "Brooklyn",
      "Williamsburg",
      "567 Union Ave, Brooklyn, NY 11211",
      "7185765095",
      3,
      Some("A"),
      Some("https://lilianewyork.com/menu"),
      Some("https://lilianewyork.com"),
      "lilia",
      Some("lilia_hero"),
      map[
        "Monday" := "Closed",
        "Tuesday" := "5:30 PM - 10:00 PM",
        "Wednesday" := "5:30 PM - 10:00 PM",
        "Thursday" := "5:30 PM - 10:00 PM",
        "Friday" := "5:30 PM - 11:00 PM",
        "Saturday" := "11:00 AM - 2:30 PM, 5:30 PM - 11:00 PM",
        "Sunday" := "11:00 AM - 2:30 PM, 5:00 PM - 9:00 PM"
      ],
      [
        SourceReview("Google", 4.6, Some(1823), None),
        SourceReview("Yelp", 4.5, Some(1456), None),
        SourceReview("NY Times", 3.0, None, None)
      ],
      true,
      Some(40.7145),
      Some(-73.9512))
  }

  function DiFaraPizza(): Restaurant
  {
    Restaurant(
      "Di Fara Pizza",
      "Pizza",
      "Brooklyn",
      "Midwood",
      "1424 Avenue J, Brooklyn, NY 11230",
      "7182581367",
      2,
      Some("A"),
      Some("https://www.difarapizza.com/menu"),
      Some("https://www.difarapizza.com"),
      "difara",
      Some("difara_hero"),
      map[
        "Monday" := "Closed",
        "Tuesday" := "Closed",
        "Wednesday" := "12:00 PM - 4:00 PM",
        "Thursday" := "12:00 PM - 4:00 PM",
        "Friday" := "12:00 PM - 4:00 PM",
        "Saturday" := "12:00 PM - 4:00 PM",
        "Sunday" := "1:00 PM - 4:00 PM"
      ],
      [
        SourceReview("Google", 4.4, Some(2341), None),
        SourceReview("Yelp", 4.2, Some(1892), None),
        SourceReview("Foursquare", 9.1, Some(1234), None)
      ],
      false,
      Some(40.6250),
      Some(-73.9615))
  }

  function Sripraphai(): Restaurant
  {
    Restaurant(
      "Sripraphai",
      "Thai",
      "Queens",
      "Woodside",
      "64-13 39th Ave, Woodside, NY 11377",
      "7188991599",
      2,
      Some("A"),
      Some("https://sripraphairestaurant.com/menu"),
      Some("https://sripraphairestaurant.com"),
      "sripraphai",
      Some("sripraphai_hero"),
      map[
        "Monday" := "Closed",
        "Tuesday" := "11:30 AM - 9:30 PM",
        "Wednesday" := "11:30 AM - 9:30 PM",
        "Thursday" := "11:30 AM - 9:30 PM",
        "Friday" := "11:30 AM - 10:00 PM",
        "Saturday" := "11:30 AM - 10:00 PM",
        "Sunday" := "11:30 AM - 9:30 PM"
      ],
      [
        SourceReview("Google", 4.5, Some(3421), None),
        SourceReview("Yelp", 4.3, Some(2891), None),
        SourceReview("Foursquare", 9.0, Some(1567), None)
      ],
      true,
      Some(40.7441),
      Some(-73.9059))
  }

  function MWellsSteakhouse(): Restaurant
  {
    Restaurant(
      "M. Wells Steakhouse",
      "Steakhouse",
      "Queens",
      "Long Island City",
      "43-15 Crescent St, Long Island City, NY 11101",
      "7187868060",
      3,
      Some("A"),
      Some("https://magasinwells.com/steakhouse"),
      Some("https://magasinwells.com"),
      "mwells",
      Some("mwells_hero"),
      map[
        "Monday" := "Closed",
        "Tuesday" := "Closed",
        "Wednesday" := "5:30 PM - 10:00 PM",
        "Thursday" := "5:30 PM - 10:00 PM",
        "Friday" := "5:30 PM - 11:00 PM",
        "Saturday" := "11:00 AM - 3:00 PM, 5:30 PM - 11:00 PM",
        "Sunday" := "11:00 AM - 3:00 PM, 5:30 PM - 9:00 PM"
      ],
      [
        SourceReview("Google", 4.4, Some(892), None),
        SourceReview("Yelp", 4.2, Some(756), None),
        SourceReview("NY Times", 2.0, None, None)
      ],
      false,
      Some(40.7475),
      Some(-73.9465))
  }

  function HunanKitchen(): Restaurant
  {
    Restaurant(
      "Hunan Kitchen of Grand Sichuan",
      "Chinese",
      "Queens",
      "Flushing",
      "42-47 Main St, Flushing, NY 11355",
      "7188885553",
      2,
      Some("A"),
      Some("https://www.hunankitchenofgrandsichuan.com/menu"),
      Some("https://www.hunankitchenofgrandsichuan.com"),
      "hunan_kitchen",
      Some("hunan_kitchen_hero"),
      map[
        "Monday" := "11:00 AM - 10:00 PM",
        "Tuesday" := "11:00 AM - 10:00 PM",
        "Wednesday" := "11:00 AM - 10:00 PM",
        "Thursday" := "11:00 AM - 10:00 PM",
        "Friday" := "11:00 AM - 10:30 PM",
        "Saturday" := "11:00 AM - 10:30 PM",
        "Sunday" := "11:00 AM - 10:00 PM"
      ],
      [
        SourceReview("Google", 4.3, Some(1234), None),
        SourceReview("Yelp", 4.1, Some(892), None),
        SourceReview("Foursquare", 8.8, Some(567), None)
      ],
      false,
      Some(40.7580),
      Some(-73.8306))
  }

  // ---------------------------------------------------------------------------
  // Query predicates
  // ---------------------------------------------------------------------------

  /** The borough test: the raw borough string equals the case's raw value. */
  predicate InBorough(r: Restaurant, b: Borough)
  {
    r.borough == BoroughRaw(b)
  }

  /**
   The search test against an already lower-cased query: it occurs in the
   lower-cased name, cuisine string or neighbourhood.
   */
  predicate MatchesQuery(r: Restaurant, loweredQuery: string)
  {
    || Contains(Lower(r.name), loweredQuery)
    || Contains(Lower(r.cuisineType), loweredQuery)
    || Contains(Lower(r.neighborhood), loweredQuery)
  }

  /** The three tests as the predicates handed to `filter`. */
  predicate IsFeatured(r: Restaurant) { r.isFeatured }

  function BoroughTest(b: Borough): Restaurant -> bool
  {
    r => InBorough(r, b)
  }

  function QueryTest(loweredQuery: string): Restaurant -> bool
  {
    r => MatchesQuery(r, loweredQuery)
  }

  // ---------------------------------------------------------------------------
  // Queries
  // ---------------------------------------------------------------------------

  /**
   `getRestaurants(for:)`: the catalog entries whose borough STRING equals the
   case's raw value, each as often as in the catalog, in catalog order.
   */
  function GetRestaurantsFor(catalog: seq<Restaurant>, b: Borough): (rs: seq<Restaurant>)
    ensures IsSubsequence(rs, catalog)
    ensures forall r :: r in rs <==> r in catalog && r.borough == BoroughRaw(b)
    ensures forall r :: multiset(rs)[r] == if r.borough == BoroughRaw(b) then multiset(catalog)[r] else 0
  {
    FilterIsSubsequence(catalog, BoroughTest(b));
    FilterCount(catalog, BoroughTest(b));
    Filter(catalog, BoroughTest(b))
  }

  /** `getFeaturedRestaurants()`: the featured entries, in catalog order. */
  function GetFeaturedRestaurants(catalog: seq<Restaurant>): (rs: seq<Restaurant>)
    ensures IsSubsequence(rs, catalog)
    ensures forall r :: r in rs <==> r in catalog && r.isFeatured
    ensures forall r :: multiset(rs)[r] == if r.isFeatured then multiset(catalog)[r] else 0
  {
    FilterIsSubsequence(catalog, IsFeatured);
    FilterCount(catalog, IsFeatured);
    Filter(catalog, IsFeatured)
  }

  /**
   `searchRestaurants(query:)`: the entries in whose lower-cased name, cuisine
   or neighbourhood the lower-cased query occurs, in catalog order.
   */
  function SearchRestaurants(catalog: seq<Restaurant>, query: string): (rs: seq<Restaurant>)
    ensures IsSubsequence(rs, catalog)
    ensures forall r :: r in rs <==> r in catalog && MatchesQuery(r, Lower(query))
    ensures forall r :: multiset(rs)[r] == if MatchesQuery(r, Lower(query)) then multiset(catalog)[r] else 0
  {
    FilterIsSubsequence(catalog, QueryTest(Lower(query)));
    FilterCount(catalog, QueryTest(Lower(query)));
    Filter(catalog, QueryTest(Lower(query)))
  }

  /** Re-running any of the three queries on its own result changes nothing. */
  lemma QueriesIdempotent(catalog: seq<Restaurant>, b: Borough, query: string)
    ensures GetRestaurantsFor(GetRestaurantsFor(catalog, b), b) == GetRestaurantsFor(catalog, b)
    ensures GetFeaturedRestaurants(GetFeaturedRestaurants(catalog)) == GetFeaturedRestaurants(catalog)
    ensures SearchRestaurants(SearchRestaurants(catalog, query), query) == SearchRestaurants(catalog, query)
  {
    FilterIdempotent(catalog, BoroughTest(b));
    FilterIdempotent(catalog, IsFeatured);
    FilterIdempotent(catalog, QueryTest(Lower(query)));
  }

  /** The search sees the query only through its lower-cased form. */
  lemma SearchCaseInsensitive(catalog: seq<Restaurant>, q1: string, q2: string)
    ensures SearchRestaurants(catalog, q1) == SearchRestaurants(catalog, Lower(q1))
    ensures Lower(q1) == Lower(q2) ==> SearchRestaurants(catalog, q1) == SearchRestaurants(catalog, q2)
  {
    LowerIdempotent(q1);
  }

  /**
   An empty query keeps the whole catalog: the empty string occurs at the
   start of every text, so `contains("")` is taken to hold.
   */
  lemma EmptyQueryKeepsAll(catalog: seq<Restaurant>)
    ensures SearchRestaurants(catalog, "") == catalog
  {
    assert Lower("") == "";
    forall i | 0 <= i < |catalog|
      ensures QueryTest(Lower(""))(catalog[i])
    {
      assert OccursAt(Lower(catalog[i].name), "", 0);
    }
    FilterAllPass(catalog, QueryTest(Lower("")));
  }

  /**
   The borough query compares strings, not the parsed enumeration: an entry
   tagged "Staten Island" parses to `.elsewhere` yet is not returned for it.
   */
  lemma ElsewhereMatchesOnlyLiteralTag(r: Restaurant)
    requires r.borough == "Staten Island"
    ensures BoroughEnum(r) == Elsewhere
    ensures GetRestaurantsFor([r], Elsewhere) == []
  {
    assert r !in GetRestaurantsFor([r], Elsewhere);
  }

  // ---------------------------------------------------------------------------
  // The fixture
  // ---------------------------------------------------------------------------

  /** A review names a registry source and rates within that source's scale. */
  predicate WellFormedReview(rv: SourceReview)
  {
    FromRaw(rv.source).Some? && 0.0 <= rv.rawRating <= MaxRating(FromRaw(rv.source).value)
  }

  /** The data-quality invariants the fixture records satisfy. */
  predicate WellFormed(r: Restaurant)
  {
    && 1 <= r.priceRange <= 4
    && |r.phoneNumber| == 10
    && r.latitude.Some? && r.longitude.Some?
    && forall i :: 0 <= i < |r.sourceReviews| ==> WellFormedReview(r.sourceReviews[i])
  }

  /** Every fixture restaurant is well formed. */
  lemma FixtureWellFormed()
    ensures forall i :: 0 <= i < |GetRestaurants()| ==> WellFormed(GetRestaurants()[i])
  {
    CarboneWellFormed();
    LeBernardinWellFormed();
    KatzsDelicatessenWellFormed();
    MomofukuKoWellFormed();
    PeterLugerWellFormed();
    LiliaWellFormed();
    DiFaraPizzaWellFormed();
    SripraphaiWellFormed();
    MWellsSteakhouseWellFormed();
    HunanKitchenWellFormed();
  }

  // One lemma per fixture entry keeps each literal record in its own proof.

  lemma CarboneWellFormed()
    ensures WellFormed(Carbone())
  {
  }

  lemma LeBernardinWellFormed()
    ensures WellFormed(LeBernardin())
  {
  }

  lemma KatzsDelicatessenWellFormed()
    ensures WellFormed(KatzsDelicatessen())
  {
  }

  lemma MomofukuKoWellFormed()
    ensures WellFormed(MomofukuKo())
  {
  }

  lemma PeterLugerWellFormed()
    ensures WellFormed(PeterLuger())
  {
  }

  lemma LiliaWellFormed()
    ensures WellFormed(Lilia())
  {
  }

  lemma DiFaraPizzaWellFormed()
    ensures WellFormed(DiFaraPizza())
  {
  }

  lemma SripraphaiWellFormed()
    ensures WellFormed(Sripraphai())
  {
  }

  lemma MWellsSteakhouseWellFormed()
    ensures WellFormed(MWellsSteakhouse())
  {
  }

  lemma HunanKitchenWellFormed()
    ensures WellFormed(HunanKitchen())
  {
  }

  /**
   For a well-formed restaurant every fallback stays unused: its tier parses,
   its phone is formatted, its coordinate exists, and its score is in [0, 100].
   */
  lemma WellFormedConsequences(r: Restaurant)
    requires WellFormed(r)
    ensures PriceRaw(PriceRangeEnum(r)) == r.priceRange
    ensures |FormattedPhone(r.phoneNumber)| == 14
    ensures Coordinate(r).Some?
    ensures 0 <= EdibleScore(r.sourceReviews) <= 100
  {
    assert NonNegativeRatings(r.sourceReviews) by {
      forall i | 0 <= i < |r.sourceReviews|
        ensures 0.0 <= r.sourceReviews[i].rawRating
      {
        assert WellFormedReview(r.sourceReviews[i]);
      }
    }
    EdibleScoreInRange(r.sourceReviews);
  }

  /** The featured flag and borough tag of each fixture entry, by position. */
  lemma FixtureTags()
    ensures var c := GetRestaurants();
      forall i :: 0 <= i < |c| ==>
        && (c[i].isFeatured <==> i in [0, 1, 2, 4, 5, 7])
        && c[i].borough == (if i < 4 then "Manhattan" else if i < 7 then "Brooklyn" else "Queens")
  {
    var c := GetRestaurants();
    forall i | 0 <= i < |c|
      ensures c[i].isFeatured <==> i in [0, 1, 2, 4, 5, 7]
      ensures c[i].borough == (if i < 4 then "Manhattan" else if i < 7 then "Brooklyn" else "Queens")
    {
      assert i == 0 || i == 1 || i == 2 || i == 3 || i == 4 || i == 5 || i == 6 || i == 7 || i == 8 || i == 9;
    }
  }

  /** Six of the ten fixture restaurants are featured. */
  lemma FixtureFeatured()
    ensures var c := GetRestaurants();
      GetFeaturedRestaurants(c) == [c[0], c[1], c[2], c[4], c[5], c[7]]
  {
    FixtureTags();
    FeaturedAt(GetRestaurants());
  }

  /** The featured query on any ten entries flagged like the fixture's. */
  lemma FeaturedAt(c: seq<Restaurant>)
    requires |c| == 10
    requires forall i :: 0 <= i < |c| ==> (c[i].isFeatured <==> i in [0, 1, 2, 4, 5, 7])
    ensures GetFeaturedRestaurants(c) == [c[0], c[1], c[2], c[4], c[5], c[7]]
  {
    var idx := [0, 1, 2, 4, 5, 7];
    FeaturedPositions(c);
    FilterPicksPassing(c, IsFeatured, idx);
    assert Pick(c, idx) == [c[0], c[1], c[2], c[4], c[5], c[7]] by {
      var picked := Pick(c, idx);
      assert picked[0] == c[0] && picked[1] == c[1] && picked[2] == c[2];
      assert picked[3] == c[4] && picked[4] == c[5] && picked[5] == c[7];
    }
  }

  lemma FeaturedPositions(c: seq<Restaurant>)
    requires |c| == 10
    requires forall i :: 0 <= i < |c| ==> (c[i].isFeatured <==> i in [0, 1, 2, 4, 5, 7])
    ensures PassingPositions(c, IsFeatured, [0, 1, 2, 4, 5, 7])
  {
    var idx := [0, 1, 2, 4, 5, 7];
    assert Increasing(idx);
    assert forall i :: 0 <= i < |c| ==> (IsFeatured(c[i]) <==> i in idx);
  }

  /** The fixture splits 4 / 3 / 3 over Manhattan, Brooklyn and Queens; nothing is tagged "Elsewhere". */
  lemma FixtureBoroughs(b: Borough)
    ensures var c := GetRestaurants();
      GetRestaurantsFor(c, b) ==
        match b
        case Manhattan => c[..4]
        case Brooklyn => c[4..7]
        case Queens => c[7..]
        case Elsewhere => []
  {
    FixtureTags();
    BoroughsAt(GetRestaurants(), b);
  }

  /** The borough query on any ten entries tagged like the fixture's. */
  lemma BoroughsAt(c: seq<Restaurant>, b: Borough)
    requires |c| == 10
    requires forall i :: 0 <= i < |c| ==>
      c[i].borough == (if i < 4 then "Manhattan" else if i < 7 then "Brooklyn" else "Queens")
    ensures GetRestaurantsFor(c, b) ==
        match b
        case Manhattan => c[..4]
        case Brooklyn => c[4..7]
        case Queens => c[7..]
        case Elsewhere => []
  {
    var (lo, hi) := match b
      case Manhattan => (0, 4)
      case Brooklyn => (4, 7)
      case Queens => (7, 10)
      case Elsewhere => (0, 0);
    assert forall i :: 0 <= i < |c| ==> (BoroughTest(b)(c[i]) <==> lo <= i < hi);
    FilterContiguous(c, BoroughTest(b), lo, hi);
  }
}
