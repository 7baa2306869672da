# Edible Dialect: the Edible Score and the catalog, in Dafny

This project models the logic core of the Edible Dialect iOS app, a guide to
New York restaurants. A restaurant carries ratings from several review
sources (Google, Yelp, Foursquare, NY Times, ...). The **Edible Score**
turns each rating into a 0–100 score using a fixed per-source scale and
curve, then takes the rounded mean. The **catalog** is a fixed list of ten
restaurants. It is queried by borough, by the featured flag and by a
case-insensitive substring search, and the home screen combines the borough
and search filters.

Around these sit the small pure rules the screens apply:

- the colour band of a score badge;
- what one row of the score breakdown shows;
- the hours rows, source-count caption and share message of the detail screen;
- the hex-string colour parser of the design system.

Modules, one per concern:

| module | file | what it holds |
|---|---|---|
| `Options`, `Text`, `Seqs` | options.dfy, text.dfy, seqs.dfy | optional values and map lookup; ASCII lowercasing, substring search, decimal numerals; `Array.filter` and its facts |
| `ReviewSources` | review_sources.dfy | the source registry: raw names, scale, curve, professional flag, icon |
| `Scoring` | scoring.dfy | `SourceReview`, `convertedScore`, `edibleScore` |
| `Restaurants` | restaurants.dfy | the restaurant record, its enumerations with their fallbacks, the derived fields, `Restaurant.mock()` |
| `MockData` | mock_data.dfy | the ten-restaurant catalog and the three service queries |
| `HomeScreen` | home_screen.dfy | `filteredRestaurants`, the section title, the featured-section condition, the "N places" caption |
| `ScoreBadge` | score_badge.dfy | the score-to-colour bands |
| `SourceScoreRow` | source_score_row.dfy | one breakdown row and the list of rows |
| `RestaurantDetail` | restaurant_detail.dfy | the hours rows, "Aggregated from N sources", the share text |
| `DesignSystem` | design_system.dfy | `Color(hex:)`: trimming, the 3/6/8-digit cases, the brand colours |

Ratings and scores are Dafny `real`s, so arithmetic is exact rather than IEEE double. The Edible Score rounds, which hides the difference in the worked examples; the row's truncation can expose it (see `SourceScoreRow.Row` under "## Left out").

- Swift's `round` (half away from zero) is written out as `Scoring.RoundHalfAwayFromZero`.
- `Int(_:)` on a `Double` (truncation toward zero) is written out as `Scoring.TruncateTowardZero`.
- Both are defined for negative arguments too.
- Interpolated integers are rendered by `Text.IntToString`. Contracts about a rendered text state that its number part parses back (`Text.ParseInt`) to the intended value.

Four behaviours of the code that the model keeps as written:

- A review whose source name is not in the registry scores 0 and still counts in the denominator (`Scoring.UnknownSourceDilutesMean`, `Scoring.UnknownSourceExample`). It also counts in "Aggregated from N sources" (`RestaurantDetail.SourceCountIncludesUnknown`).
- The borough query compares the raw string with `borough.rawValue`, so `.elsewhere` finds only restaurants literally tagged "Elsewhere" (`MockData.ElsewhereMatchesOnlyLiteralTag`).
- The home screen only tests `isEmpty`, so a query of spaces filters as a literal substring (`HomeScreen.WhitespaceQueryIsLiteral`).
- `min(_, 100)` caps only from above, so a negative rating can give a negative score (`Scoring.NegativeRatingScoresBelowZero`). Non-negative ratings always land in [0, 100] (`Scoring.EdibleScoreInRange`).

## Model

| member | source | states |
|---|---|---|
| ReviewSources.FromRaw | EdibleDialect/EdibleDialect/Models/Restaurant.swift:80-89 | `ReviewSource(rawValue:)` succeeds exactly on the seven raw names, and then returns the case with that raw value |
| ReviewSources.FromRawRawValue | EdibleDialect/EdibleDialect/Models/Restaurant.swift:80-89 | parsing a case's raw value gives the case back |
| ReviewSources.RawValueInjective | EdibleDialect/EdibleDialect/Models/Restaurant.swift:81-87 | no two sources share a raw name |
| ReviewSources.RegistryClasses | EdibleDialect/EdibleDialect/Models/Restaurant.swift:103-124 | Foursquare alone has scale 10 and curve 0. The professional sources are exactly NY Times and Zagat, which are exactly the scale-4 sources and exactly the curve-20 sources. Everything else has scale 5 and curve 10 |
| Scoring.ConvertedScore | EdibleDialect/EdibleDialect/Models/Restaurant.swift:135-146 | a source not in the registry scores exactly 0; every converted score is at most 100; a non-negative rating never gives a negative score |
| Scoring.ConvertedScoreByClass | EdibleDialect/EdibleDialect/Models/Restaurant.swift:139-146 | for a resolved source, the score is 100 exactly from the saturation rating up. Below it, the score is the class's line: 10·x (Foursquare), 25·x + 20 (professional) or 20·x + 10 (others) |
| Scoring.ConvertedScoreInRange | EdibleDialect/EdibleDialect/Models/Restaurant.swift:141-145 | a rating within the source's scale converts into [curve, 100] |
| Scoring.ConvertedScoreMonotone | EdibleDialect/EdibleDialect/Models/Restaurant.swift:141-145 | for the same source name, a higher rating never converts to a lower score |
| Scoring.RoundHalfAwayFromZero | EdibleDialect/EdibleDialect/Models/Restaurant.swift:199 | the result is within one half of the argument, and ties go away from zero on both signs |
| Scoring.TruncateTowardZero | EdibleDialect/EdibleDialect/Views/Components/SourceScoreRow.swift:38 | the result is the whole part of the argument: at or below it when non-negative, at or above it when negative, less than one away |
| Scoring.EdibleScore | EdibleDialect/EdibleDialect/Models/Restaurant.swift:193-200 | no reviews score 0, and no score exceeds 100 |
| Scoring.TotalScoreAtMostHundred | EdibleDialect/EdibleDialect/Models/Restaurant.swift:196 | for any ratings, of either sign, the sum of converted scores is at most 100 per review |
| Scoring.EdibleScoreRoundsMean | EdibleDialect/EdibleDialect/Models/Restaurant.swift:193-200 | for every non-empty list, with ratings of any sign, the mean of the converted scores (unknown sources included) is at most 100, so the cap never fires and the score is exactly `round` of that mean |
| Scoring.EdibleScoreIsRoundedMean | EdibleDialect/EdibleDialect/Models/Restaurant.swift:193-200 | for a non-empty list of non-negative ratings, the mean of the converted scores (unknown sources included) lies in [0, 100] and the score is within one half of it |
| Scoring.EdibleScoreInRange | EdibleDialect/EdibleDialect/Models/Restaurant.swift:193-200 | with non-negative ratings the score is in [0, 100] |
| Scoring.NegativeRatingScoresBelowZero | EdibleDialect/EdibleDialect/Models/Restaurant.swift:199 | the cap is only from above: a Google rating of -10 scores -190 |
| Scoring.EdibleScoreSaturates | EdibleDialect/EdibleDialect/Models/Restaurant.swift:196-199 | if every review converts to 100, the score is 100 |
| Scoring.TotalScoreConcat | EdibleDialect/EdibleDialect/Models/Restaurant.swift:196 | the sum of converted scores over a concatenation is the sum of the two sums |
| Scoring.TotalScorePermutation | EdibleDialect/EdibleDialect/Models/Restaurant.swift:196 | reordering the reviews does not change the sum |
| Scoring.EdibleScorePermutation | EdibleDialect/EdibleDialect/Models/Restaurant.swift:193-200 | reordering the reviews does not change the Edible Score |
| Scoring.UnknownSourceDilutesMean | EdibleDialect/EdibleDialect/Models/Restaurant.swift:140 | adding a review from an unlisted source leaves the sum unchanged but adds one to the divisor |
| Scoring.UnknownSourceExample | EdibleDialect/EdibleDialect/Models/Restaurant.swift:196-197 | Google 5.0 next to an unlisted "Michelin" scores 50, not 100 |
| Scoring.MixedClassesExample | EdibleDialect/EdibleDialect/Models/Restaurant.swift:193-200 | Google 4.5, Foursquare 9.4 and NY Times 3.0 convert to 100, 94 and 95, and score 96 |
| Scoring.TruncationDiffersFromRounding | EdibleDialect/EdibleDialect/Views/Components/SourceScoreRow.swift:38 | Foursquare 9.35 converts to 93.5: the row's truncation gives 93 while the Edible Score gives 94 |
| Restaurants.BoroughFromRaw | EdibleDialect/EdibleDialect/Models/Restaurant.swift:5-9 | parses exactly the four borough names, each to its own case |
| Restaurants.CuisineFromRaw | EdibleDialect/EdibleDialect/Models/Restaurant.swift:26-41 | parses exactly the fifteen cuisine names, each to its own case |
| Restaurants.PriceFromRaw | EdibleDialect/EdibleDialect/Models/Restaurant.swift:47-51 | parses exactly 1 to 4, each to its own tier |
| Restaurants.HealthGradeFromRaw | EdibleDialect/EdibleDialect/Models/Restaurant.swift:61-65 | parses exactly "A", "B", "C" and "Pending" |
| Restaurants.EnumRoundTrips | EdibleDialect/EdibleDialect/Models/Restaurant.swift:5-65 | every case of the four enumerations parses back from its raw value |
| Restaurants.EnumFallbacks | EdibleDialect/EdibleDialect/Models/Restaurant.swift:176-191 | for `CuisineTypeEnum`, `BoroughEnum`, `PriceRangeEnum` and `HealthGradeEnum`: the cuisine is `.other` exactly when the string is "Other" or unknown, and the borough likewise `.elsewhere`. A known string keeps its own case. The price tier is the parsed tier for 1–4 and `.moderate` otherwise. The health grade is nil both when absent and when unknown |
| Restaurants.PriceDisplay | EdibleDialect/EdibleDialect/Models/Restaurant.swift:55-57 | `DisplayString` of the parsed tier: the price text is all "$", as many as the tier (two for an out-of-range stored tier) |
| Restaurants.HealthGradeColors | EdibleDialect/EdibleDialect/Models/Restaurant.swift:69-76 | each grade's colour (`HealthGradeColor`) is six bare hex digits. A is the brand green (255, 0, 86, 63), B the badge amber (255, 245, 166, 35), C the badge red (255, 208, 2, 27), Pending grey (255, 155, 155, 155) |
| Restaurants.PriceDisplayExamples | EdibleDialect/EdibleDialect/Models/Restaurant.swift:55-57 | tiers 1, 2 and 4 display "$", "$$" and "$$$$" |
| Restaurants.FormattedPhone | EdibleDialect/EdibleDialect/Models/Restaurant.swift:202-208 | a number of any length but ten is returned unchanged; ten characters give a 14-character text |
| Restaurants.FormattedPhoneRoundTrip | EdibleDialect/EdibleDialect/Models/Restaurant.swift:202-208 | the formatted text has "(", ")", " " and "-" at positions 0, 4, 5 and 9, and removing them gives back the ten input characters in order |
| Restaurants.FormattedPhoneExamples | EdibleDialect/EdibleDialect/Models/Restaurant.swift:202-208 | "2125551234" becomes "(212) 555-1234"; 3- and 11-character inputs pass through |
| Restaurants.Coordinate | EdibleDialect/EdibleDialect/Models/Restaurant.swift:171-174 | a coordinate exists exactly when both latitude and longitude do, and it holds those two values |
| Restaurants.TodayHours | EdibleDialect/EdibleDialect/Models/Restaurant.swift:210-215 | the hours for a weekday name are present exactly when the map has that key, and are the stored text |
| Restaurants.AbsentDayIsNotClosed | EdibleDialect/EdibleDialect/Models/Restaurant.swift:210-215 | a missing day gives nil, not "Closed"; only a stored "Closed" reads "Closed" |
| Restaurants.MockScores | EdibleDialect/EdibleDialect/Models/Restaurant.swift:220-253 | the sample restaurant's Google 4.5 converts to 100 and Yelp 4.2 to 94. Its Edible Score is 97, its phone reads "(212) 555-1234", and it has a coordinate |
| Text.Lower | EdibleDialect/EdibleDialect/Services/MockDataService.swift:369 | lowercasing keeps the length, maps each character on its own and leaves no upper-case letter |
| Text.Contains | EdibleDialect/EdibleDialect/Services/MockDataService.swift:371-373 | `contains` holds exactly when the needle occurs at some position of the text (so an empty needle is always contained) |
| Text.LowerIdempotent | EdibleDialect/EdibleDialect/Services/MockDataService.swift:369-373 | lowercasing twice is lowercasing once |
| Seqs.Filter | EdibleDialect/EdibleDialect/Services/MockDataService.swift:361 | the filter's output is no longer than its input and every element passes |
| Seqs.FilterIsSubsequence | EdibleDialect/EdibleDialect/Services/MockDataService.swift:361 | the filter's output is a subsequence of its input: order is kept |
| Seqs.FilterCount | EdibleDialect/EdibleDialect/Services/MockDataService.swift:365 | an element is in the output exactly when it is in the input and passes, and it appears there as often as in the input |
| Seqs.FilterPicksPassing | EdibleDialect/EdibleDialect/Services/MockDataService.swift:365 | given the increasing list of passing positions, the filter returns the elements at those positions |
| Seqs.FilterContiguous | EdibleDialect/EdibleDialect/Services/MockDataService.swift:361 | when exactly the positions lo to hi pass, the filter returns that slice |
| Seqs.FilterIdempotent | EdibleDialect/EdibleDialect/Services/MockDataService.swift:370-374 | filtering a filter's output by the same test changes nothing |
| Seqs.FilterConjunction | EdibleDialect/EdibleDialect/Views/Screens/HomeScreen.swift:28-40 | filtering by one test and then another is filtering once by their conjunction |
| MockData.GetRestaurants | EdibleDialect/EdibleDialect/Services/MockDataService.swift:8-357 | the catalog has ten restaurants |
| MockData.GetRestaurantsFor | EdibleDialect/EdibleDialect/Services/MockDataService.swift:360-362 | the result is a subsequence of the catalog holding exactly the restaurants whose borough string equals the borough's raw value, each as often as in the catalog |
| MockData.GetFeaturedRestaurants | EdibleDialect/EdibleDialect/Services/MockDataService.swift:364-366 | the result is a subsequence of the catalog holding exactly the featured restaurants, each as often as in the catalog |
| MockData.SearchRestaurants | EdibleDialect/EdibleDialect/Services/MockDataService.swift:368-375 | the result is a subsequence holding exactly the restaurants that pass `MatchesQuery`: the lowercased name, cuisine or neighborhood contains the lowercased query. Each appears as often as in the catalog |
| MockData.EmptyQueryKeepsAll | EdibleDialect/EdibleDialect/Services/MockDataService.swift:368-375 | the empty query returns the whole catalog, taking `contains("")` to hold |
| MockData.QueriesIdempotent | EdibleDialect/EdibleDialect/Services/MockDataService.swift:360-375 | each of the three queries applied to its own output returns that output |
| MockData.SearchCaseInsensitive | EdibleDialect/EdibleDialect/Services/MockDataService.swift:369 | the search depends on the query only through its lowercased form |
| MockData.ElsewhereMatchesOnlyLiteralTag | EdibleDialect/EdibleDialect/Services/MockDataService.swift:361 | a restaurant tagged "Staten Island" falls back to `.elsewhere` yet is not found by the Elsewhere query |
| MockData.FixtureWellFormed | EdibleDialect/EdibleDialect/Services/MockDataService.swift:8-357 | every catalog entry has a tier in 1–4, a ten-character phone number and both coordinates. All its reviews name registry sources, with ratings between 0 and the source's scale |
| MockData.WellFormedConsequences | EdibleDialect/EdibleDialect/Services/MockDataService.swift:8-357 | for such an entry the tier parses to itself, the phone is formatted, the coordinate exists and the score is in [0, 100] |
| MockData.FixtureTags | EdibleDialect/EdibleDialect/Services/MockDataService.swift:8-357 | entries 0–3 are Manhattan, 4–6 Brooklyn and 7–9 Queens; entries 0, 1, 2, 4, 5 and 7 are featured |
| MockData.FixtureFeatured | EdibleDialect/EdibleDialect/Services/MockDataService.swift:364-366 | the featured query returns six of the ten, namely entries 0, 1, 2, 4, 5 and 7 in that order |
| MockData.FixtureBoroughs | EdibleDialect/EdibleDialect/Services/MockDataService.swift:360-362 | the borough query returns the first four, the next three or the last three entries, and nothing for Elsewhere |
| HomeScreen.ByBorough | EdibleDialect/EdibleDialect/Views/Screens/HomeScreen.swift:28-30 | with a borough selected, the result is a subsequence holding exactly the entries with that raw borough string, each as often as in the input; with none, everything |
| HomeScreen.FilteredRestaurants | EdibleDialect/EdibleDialect/Views/Screens/HomeScreen.swift:24-43 | the result is a subsequence holding exactly the entries that pass the borough test when one is selected and the search test when the text is non-empty, each as often as in the input |
| HomeScreen.NoFilterIsIdentity | EdibleDialect/EdibleDialect/Views/Screens/HomeScreen.swift:24-43 | with no borough and empty text the list is returned unchanged |
| HomeScreen.SingleFiltersAreServiceQueries | EdibleDialect/EdibleDialect/Views/Screens/HomeScreen.swift:28-39 | each filter alone is the corresponding service query: the same borough test and the same search predicate |
| HomeScreen.BothFiltersAreConjunction | EdibleDialect/EdibleDialect/Views/Screens/HomeScreen.swift:28-40 | with both active the result is one filter by borough AND search, equal to the borough query applied to the search result |
| HomeScreen.WhitespaceQueryIsLiteral | EdibleDialect/EdibleDialect/Views/Screens/HomeScreen.swift:33-39 | a query of one space is not treated as empty: Carbone (whose neighborhood "Greenwich Village" contains a space) stays, Lilia (no space anywhere) is dropped, while the empty query keeps Lilia |
| HomeScreen.SectionTitle | EdibleDialect/EdibleDialect/Views/Screens/HomeScreen.swift:190-198 | a selected borough's name is the title; without a selection the title is never a borough name |
| HomeScreen.SectionTitleStates | EdibleDialect/EdibleDialect/Views/Screens/HomeScreen.swift:64 | "All Restaurants" is shown exactly when the featured section is (`ShowsFeatured`: empty search, no borough); "Results" exactly when only the search is active |
| HomeScreen.PlacesLabel | EdibleDialect/EdibleDialect/Views/Screens/HomeScreen.swift:172 | the caption ends in " places" and its number reads back as the filtered count |
| ScoreBadge.ScoreColorBands | EdibleDialect/EdibleDialect/Views/Components/ScoreBadge.swift:35-43 | for the band switch `ScoreColor`: the top band is exactly 90 to 100. Each other coloured band is exactly the ten scores from its floor (80, 70, 60). Red is exactly below 60 or above 100 |
| ScoreBadge.ScoreColorMonotone | EdibleDialect/EdibleDialect/Views/Components/ScoreBadge.swift:35-43 | within 60 to 100 a higher score never gets a lower band; 101 drops to red |
| ScoreBadge.EdibleScoreBadge | EdibleDialect/EdibleDialect/Views/Components/ScoreBadge.swift:35-43 | an Edible Score's badge is red exactly when the score is below 60 |
| ScoreBadge.SwatchChannels | EdibleDialect/EdibleDialect/Views/Components/ScoreBadge.swift:37-41 | the bands paint (255, 0, 86, 63), (255, 0, 122, 90), amber (255, 245, 166, 35) at full and at 0.8 opacity, and (255, 208, 2, 27) |
| SourceScoreRow.Subtitle | EdibleDialect/EdibleDialect/Views/Components/SourceScoreRow.swift:22-30 | a present count always gives "N reviews" whose number reads back as the count. Without one there is a subtitle exactly for a professional source, and it is "Professional review" |
| SourceScoreRow.SubtitleShowsCountIff | EdibleDialect/EdibleDialect/Views/Components/SourceScoreRow.swift:22-30 | the subtitle ends in " reviews" iff a count is present; it is "Professional review" iff there is no count and the source is professional; it is absent iff neither |
| SourceScoreRow.CountBeatsProfessional | EdibleDialect/EdibleDialect/Views/Components/SourceScoreRow.swift:22-30 | Zagat with 12 reviews shows "12 reviews"; Zagat without a count shows "Professional review"; an unlisted source without a count shows nothing |
| SourceScoreRow.ScaleText | EdibleDialect/EdibleDialect/Views/Components/SourceScoreRow.swift:44 | `Int(maxRating)` is one of "4", "5", "10" and reads back as the scale |
| SourceScoreRow.Row | EdibleDialect/EdibleDialect/Views/Components/SourceScoreRow.swift:3-48 | the title is the raw name. Icon and "rating/scale" appear exactly when the source resolves, and then show that source's icon, the raw rating and its scale. The subtitle is as above. The number reads back as the truncated converted score |
| SourceScoreRow.RowScoreIsTruncated | EdibleDialect/EdibleDialect/Views/Components/SourceScoreRow.swift:38 | for a non-negative rating the row's number is in [0, 100] and is the whole part of the converted score |
| SourceScoreRow.UnknownSourceRow | EdibleDialect/EdibleDialect/Views/Components/SourceScoreRow.swift:10-14 | an unlisted source still gets a row, numbered "0", with no icon and no scale |
| SourceScoreRow.RowDiffersFromEdibleScore | EdibleDialect/EdibleDialect/Views/Components/SourceScoreRow.swift:38 | Foursquare 9.35 shows "93" in its row although its Edible Score is 94 |
| SourceScoreRow.ScoreList | EdibleDialect/EdibleDialect/Views/Components/SourceScoreRow.swift:56-73 | one row per review, the i-th row being the i-th review's row |
| SourceScoreRow.ScoreListConcat | EdibleDialect/EdibleDialect/Views/Components/SourceScoreRow.swift:67-69 | the rows of a concatenation are the concatenated rows |
| SourceScoreRow.ScoreListTitles | EdibleDialect/EdibleDialect/Views/Components/SourceScoreRow.swift:67-69 | the list's titles are the reviews' source names in order |
| SourceScoreRow.MockScoreList | EdibleDialect/EdibleDialect/Views/Components/SourceScoreRow.swift:75-80 | the preview shows Google "234 reviews" 100 of 5 and Yelp "156 reviews" 94 of 5 |
| RestaurantDetail.OrderedDaysWeek | EdibleDialect/EdibleDialect/Views/Screens/RestaurantDetailScreen.swift:267-269 | seven distinct day names, Monday first and Sunday last |
| RestaurantDetail.HoursRows | EdibleDialect/EdibleDialect/Views/Screens/RestaurantDetailScreen.swift:251-260 | expanded, the seven days in order, each with its stored hours or "Closed"; collapsed, one highlighted "Today" row with today's stored hours or "Hours unavailable" |
| RestaurantDetail.FallbacksDiffer | EdibleDialect/EdibleDialect/Views/Screens/RestaurantDetailScreen.swift:251-260 | for a missing weekday the week shows "Closed" but the today row shows "Hours unavailable" |
| RestaurantDetail.MissingAndClosedDays | EdibleDialect/EdibleDialect/Views/Screens/RestaurantDetailScreen.swift:251-260 | the week row reads "Closed" iff the day is missing or stored as "Closed"; the today row iff stored as "Closed" |
| RestaurantDetail.TodayRowIsTodayHours | EdibleDialect/EdibleDialect/Views/Screens/RestaurantDetailScreen.swift:255-260 | the today row shows `todayHours` when present and "Hours unavailable" otherwise |
| RestaurantDetail.MockWeekHasNoClosedDay | EdibleDialect/EdibleDialect/Views/Screens/RestaurantDetailScreen.swift:251-260 | the sample restaurant's week has no "Closed" row, and its Sunday row reads "10:00 AM - 9:00 PM" |
| RestaurantDetail.SourceCountLabel | EdibleDialect/EdibleDialect/Views/Screens/RestaurantDetailScreen.swift:215 | "Aggregated from N sources" with N reading back as the number of reviews |
| RestaurantDetail.SourceCountIncludesUnknown | EdibleDialect/EdibleDialect/Views/Screens/RestaurantDetailScreen.swift:215 | a Google review plus an unlisted source reads "2 sources" |
| RestaurantDetail.ShareText | EdibleDialect/EdibleDialect/Views/Screens/RestaurantDetailScreen.swift:326 | the message starts "Check out NAME on Edible Dialect! Score: ", ends "/100", and the number between reads back as the Edible Score |
| RestaurantDetail.ShareTextDeterminesScore | EdibleDialect/EdibleDialect/Views/Screens/RestaurantDetailScreen.swift:326 | for the same name, two messages are equal iff the scores are |
| RestaurantDetail.MockShareText | EdibleDialect/EdibleDialect/Views/Screens/RestaurantDetailScreen.swift:326 | the sample restaurant's message is "Check out Sample Restaurant on Edible Dialect! Score: 97/100" |
| DesignSystem.TrimLeadingSpec | EdibleDialect/EdibleDialect/Theme/DesignSystem.swift:15 | leading trimming leaves a suffix, drops only non-alphanumerics and stops at an alphanumeric |
| DesignSystem.TrimTrailingSpec | EdibleDialect/EdibleDialect/Theme/DesignSystem.swift:15 | trailing trimming leaves a prefix, drops only non-alphanumerics and stops at an alphanumeric |
| DesignSystem.TrimSpec | EdibleDialect/EdibleDialect/Theme/DesignSystem.swift:15 | `Trim`: the trimmed text is a slice of the input with alphanumeric ends, and everything cut on either side is non-alphanumeric |
| DesignSystem.TrimIdempotent | EdibleDialect/EdibleDialect/Theme/DesignSystem.swift:15 | trimming twice is trimming once |
| DesignSystem.SurroundingPunctuationIgnored | EdibleDialect/EdibleDialect/Theme/DesignSystem.swift:15-28 | non-alphanumerics around the digits are removed, so "#00563F" parses like "00563F" |
| DesignSystem.ColorFromDigits | EdibleDialect/EdibleDialect/Theme/DesignSystem.swift:19-28 | three digits give alpha 255 and each nibble times 17; six give alpha 255 and three bytes; eight give four bytes in ARGB order; any other count gives (255, 0, 0, 0); all channels are in [0, 255] |
| DesignSystem.ColorFromHex | EdibleDialect/EdibleDialect/Theme/DesignSystem.swift:14-28 | whatever surrounds the digits, every channel is in [0, 255] |
| DesignSystem.ThreeDigitChannels | EdibleDialect/EdibleDialect/Theme/DesignSystem.swift:21 | `int >> 8`, `int >> 4 & 0xF` and `int & 0xF` of a three-digit value are its three digits |
| DesignSystem.SixDigitChannels | EdibleDialect/EdibleDialect/Theme/DesignSystem.swift:23 | `int >> 16`, `int >> 8 & 0xFF` and `int & 0xFF` of a six-digit value are its three digit pairs |
| DesignSystem.EightDigitChannels | EdibleDialect/EdibleDialect/Theme/DesignSystem.swift:25 | `int >> 24` and the three masked shifts of an eight-digit value are its four digit pairs |
| DesignSystem.SixDigitHex | EdibleDialect/EdibleDialect/Theme/DesignSystem.swift:14-28 | six bare hex digits, with or without "#", give alpha 255 and each channel sixteen times one digit plus the next |
| DesignSystem.EdibleGreenChannels | EdibleDialect/EdibleDialect/Theme/DesignSystem.swift:5 | "00563F" reads as (255, 0, 86, 63), also as "#00563F" |
| DesignSystem.EdibleGreenLightChannels | EdibleDialect/EdibleDialect/Theme/DesignSystem.swift:6 | "007A5A" reads as (255, 0, 122, 90) |
| DesignSystem.EdibleGreenDarkChannels | EdibleDialect/EdibleDialect/Theme/DesignSystem.swift:7 | "003D2D" reads as (255, 0, 61, 45) |
| DesignSystem.AmberChannels | EdibleDialect/EdibleDialect/Views/Components/ScoreBadge.swift:39-40 | "F5A623" reads as (255, 245, 166, 35) |
| DesignSystem.RedChannels | EdibleDialect/EdibleDialect/Views/Components/ScoreBadge.swift:41 | "D0021B" reads as (255, 208, 2, 27) |
| DesignSystem.ShortAndOddLengths | EdibleDialect/EdibleDialect/Theme/DesignSystem.swift:19-28 | "FA0" reads as (255, 255, 170, 0); five or zero digits give opaque black |
| DesignSystem.EightDigitsAreArgb | EdibleDialect/EdibleDialect/Theme/DesignSystem.swift:24-25 | "8000563F" is alpha 128 before the green's channels |

## Left out

- Network, audio and asynchronous code: the AI chat service, speech recognition, the audio waveform, the experiences chat screen and the tab-state delay. These are I/O, timers and floating-point signal processing with no stateable contract.
- SwiftUI layout: fonts, spacing, shadows, the remaining screens and components (about, scoring method, account, map, tab icons, search bar, borough buttons, restaurant card, info button) and the app configuration file. The borough icons are asset names and are not stated as properties.
- `Restaurant.id`, `SourceReview.id`, `SourceReview.url` and `dateAdded`: UUIDs, URLs and dates carry no logic in the core.
- RestaurantDetail.HoursRows: the current weekday comes from `Date()` and `DateFormatter`. It is a parameter here, and so is the weekday of `Restaurants.TodayHours`.
- Text.Lower: `lowercased()` is modelled on ASCII letters only. Unicode case mapping is not modelled.
- DesignSystem.TrimSpec: `CharacterSet.alphanumerics` is modelled as the ASCII letters and digits. Unicode letters and digits are not modelled.
- DesignSystem.ColorFromDigits: for 3, 6 or 8 characters the digits must be hex. `Scanner.scanHexInt64` on other input (a "0x" prefix, a stray letter, an overflowing value) is not modelled. The conversion `Double(_)/255` to colour components is also not modelled. Channels are the integers before that division.
- DesignSystem.ColorFromHex: its own contract states only the channel range. What it computes is stated by TrimSpec, SurroundingPunctuationIgnored and ColorFromDigits.
- SourceScoreRow.Row: the rating half of the "rating/scale" caption is kept as the real rating. Its `%.1f` rendering is not modelled. `Int(_)` trapping on a non-finite or huge converted score (a NaN rating, a rating of -1e300) is not modelled either.
- SourceScoreRow.Row: the number truncates the exact-real converted score. When the app's double product lands just below a whole number, the model shows one more than the app. The catalog has such a case: Di Fara Pizza's Foursquare 9.1 gives (9.1/10)·100 = 90.99999999999999 as a double, so the app shows "90" where the model shows "91".
- Scoring.EdibleScore: ratings are exact reals, not IEEE doubles. `Int(round(_))` trapping on a non-finite or huge value is not modelled.
- MockData.SearchRestaurants: the model takes `contains("")` to be true, so the empty query returns the whole catalog (`MockData.EmptyQueryKeepsAll`). Swift versions differ on `contains("")`, and the home screen never searches with an empty text.
- Restaurants.FormattedPhone: strings are modelled as sequences of Unicode code points, while Swift's `count`, `prefix`, `dropFirst` and `suffix` work on grapheme clusters. A text whose clusters span several code points (such as "\r\n") can have a different length here than in Swift.
- DesignSystem.ColorFromDigits: `hex.count` is the number of code points here, not of grapheme clusters. For hex-digit input the two agree.
- Restaurants.BoroughFromRaw: raw values are compared code point by code point, not under Swift's canonical equivalence. A string that is canonically equivalent to a raw value but spelled differently does not parse here.
- Restaurants.CuisineFromRaw: compares code points, as described for BoroughFromRaw.
- Restaurants.HealthGradeFromRaw: compares code points, as described for BoroughFromRaw.
- ReviewSources.FromRaw: compares code points, as described for BoroughFromRaw.
- Text.Contains: the needle is matched code point by code point, not on grapheme clusters under Swift's canonical equivalence. A query "é" written as one code point does not find "Cafe" followed by a combining acute accent here, though Swift finds it. Conversely, the query "e" finds that name here but not in Swift. The same holds for MockData.SearchRestaurants and for the search filter of HomeScreen.FilteredRestaurants.
- MockData.GetRestaurantsFor: the borough test compares code points, not canonically equivalent strings. The same holds for the borough filter of `HomeScreen.FilteredRestaurants`.
- HomeScreen.SectionTitle: the rotating taglines and the featured carousel's contents are not modelled. The carousel's visibility condition is, as `HomeScreen.ShowsFeatured`.
