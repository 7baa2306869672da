/**
 The fixed registry of review sources (`ReviewSource` in
 Models/Restaurant.swift): each source's raw name, native rating scale,
 curve bonus and professional flag.
 */
module ReviewSources {

  import opened Options

  datatype ReviewSource = Google | Yelp | MenuPages | Zomato | Foursquare | NYTimes | Zagat

  /** The raw string each source is stored under in review records. */
  function RawValue(s: ReviewSource): string
  {
    match s
    case Google => "Google"
    case Yelp => "Yelp"
    case MenuPages => "MenuPages"
    case Zomato => "Zomato"
    case Foursquare => "Foursquare"
    case NYTimes => "NY Times"
    case Zagat => "Zagat"
  }

  /**
   `ReviewSource(rawValue:)`: the exact, case-sensitive inverse of
   `RawValue`, and `None` for any other name.
   */
  function FromRaw(name: string): (r: Option<ReviewSource>)
    ensures r.Some? ==> RawValue(r.value) == name
    ensures r.None? <==> forall s :: RawValue(s) != name
  {
    if name == "Google" then Some(Google)
    else if name == "Yelp" then Some(Yelp)
    else if name == "MenuPages" then Some(MenuPages)
    else if name == "Zomato" then Some(Zomato)
    else if name == "Foursquare" then Some(Foursquare)
    else if name == "NY Times" then Some(NYTimes)
    else if name == "Zagat" then Some(Zagat)
    else None
  }

  /** Every source is recognised under its own raw name. */
  lemma FromRawRawValue(s: ReviewSource)
    ensures FromRaw(RawValue(s)) == Some(s)
  {
  }

  /** Top of the source's native rating range. */
  function MaxRating(s: ReviewSource): real
  {
    match s
    case Foursquare => 10.0
    case NYTimes | Zagat => 4.0
    case _ => 5.0
  }

  /** Points added after scaling the rating to 100. */
  function Curve(s: ReviewSource): real
  {
    match s
    case NYTimes | Zagat => 20.0
    case Foursquare => 0.0
    case _ => 10.0
  }

  /** Critic sources; used for display only, never in the score arithmetic. */
  predicate IsProfessional(s: ReviewSource)
  {
    s == NYTimes || s == Zagat
  }

  /** SF Symbol shown beside the source in a score row. */
  function Icon(s: ReviewSource): string
  {
    match s
    case Google => "g.circle.fill"
    case Yelp => "star.circle.fill"
    case MenuPages => "book.circle.fill"
    case Zomato => "fork.knife.circle.fill"
    case Foursquare => "location.circle.fill"
    case NYTimes => "newspaper.circle.fill"
    case Zagat => "rosette"
  }

  /**
   The registry as three classes: the 10-point source, the two critic
   sources (the only professional ones), and the 5-star consumer sources.
   */
  lemma RegistryClasses(s: ReviewSource)
    ensures MaxRating(s) == 10.0 <==> s == Foursquare
    ensures s == Foursquare ==> Curve(s) == 0.0
    ensures IsProfessional(s) <==> MaxRating(s) == 4.0
    ensures IsProfessional(s) <==> Curve(s) == 20.0
    ensures IsProfessional(s) <==> RawValue(s) in {"NY Times", "Zagat"}
    ensures !IsProfessional(s) && s != Foursquare ==> MaxRating(s) == 5.0 && Curve(s) == 10.0
    ensures MaxRating(s) in {4.0, 5.0, 10.0}
  {
  }

  /** The raw names are pairwise distinct, so the registry is a bijection with its names. */
  lemma RawValueInjective(s: ReviewSource, t: ReviewSource)
    ensures RawValue(s) == RawValue(t) ==> s == t
  {
    FromRawRawValue(s);
    FromRawRawValue(t);
  }
}
