/**
 Views/Components/ScoreBadge.swift: the colour band of a score badge. The
 switch tests the closed range 90...100 first, then the half-open ranges
 80..<90, 70..<80 and 60..<70; every other Int, above 100 included, falls
 to the red default.
 */
module ScoreBadge {

  import opened Scoring
  import opened DesignSystem

  datatype Tier = EdibleGreen | EdibleGreenLight | Amber | AmberFaded | Red

  /** `scoreColor`. */
  function ScoreColor(score: int): (t: Tier)
  {
    if 90 <= score <= 100 then EdibleGreen
    else if 80 <= score < 90 then EdibleGreenLight
    else if 70 <= score < 80 then Amber
    else if 60 <= score < 70 then AmberFaded
    else Red
  }

  /** Lowest score of each coloured band, 60 to 90 in steps of ten. */
  function TierFloor(t: Tier): int
    requires t != Red
  {
    match t
    case EdibleGreen => 90
    case EdibleGreenLight => 80
    case Amber => 70
    case AmberFaded => 60
  }

  /** Badge order from worst to best. */
  function Rank(t: Tier): nat
  {
    match t
    case Red => 0
    case AmberFaded => 1
    case Amber => 2
    case EdibleGreenLight => 3
    case EdibleGreen => 4
  }

  /**
   Each coloured band is the ten scores from its floor up (the top band also
   takes 100), and red is everything else: the bands are disjoint and cover
   every Int.
   */
  lemma ScoreColorBands(score: int, t: Tier)
    ensures t != Red && t != EdibleGreen ==>
      (ScoreColor(score) == t <==> TierFloor(t) <= score < TierFloor(t) + 10)
    ensures ScoreColor(score) == EdibleGreen <==> 90 <= score <= 100
    ensures ScoreColor(score) == Red <==> score < 60 || score > 100
  {
  }

  /** Over 60...100 a higher score never gets a worse badge; above 100 it drops to red. */
  lemma ScoreColorMonotone(s1: int, s2: int)
    requires 60 <= s1 <= s2 <= 100
    ensures Rank(ScoreColor(s1)) <= Rank(ScoreColor(s2))
    ensures Rank(ScoreColor(101)) < Rank(ScoreColor(100))
  {
  }

  /**
   An Edible Score is at most 100, so its badge is red exactly when the
   score is below 60.
   */
  lemma EdibleScoreBadge(rs: seq<SourceReview>)
    ensures ScoreColor(EdibleScore(rs)) == Red <==> EdibleScore(rs) < 60
  {
  }

  /** The hex string and opacity each band is painted with. */
  function Swatch(t: Tier): (string, real)
  {
    match t
    case EdibleGreen => (EdibleGreenHex, 1.0)
    case EdibleGreenLight => (EdibleGreenLightHex, 1.0)
    case Amber => (AmberHex, 1.0)
    case AmberFaded => (AmberHex, 0.8)
    case Red => (RedHex, 1.0)
  }

  /**
   The band colours as channels: the two greens, amber (full and at 0.8
   opacity, the same channels) and red. Each hex string is already bare, so
   `Color(hex:)` reads its digits untrimmed.
   */
  lemma SwatchChannels(t: Tier)
    ensures Trim(Swatch(t).0) == Swatch(t).0 && |Swatch(t).0| == 6 && AllHex(Swatch(t).0)
    ensures ColorFromHex(Swatch(t).0) ==
      match t
      case EdibleGreen => Argb(255, 0, 86, 63)
      case EdibleGreenLight => Argb(255, 0, 122, 90)
      case Amber | AmberFaded => Argb(255, 245, 166, 35)
      case Red => Argb(255, 208, 2, 27)
    ensures Swatch(t).1 == if t == AmberFaded then 0.8 else 1.0
  {
    match t
    case EdibleGreen => EdibleGreenChannels();
    case EdibleGreenLight => EdibleGreenLightChannels();
    case Amber | AmberFaded => AmberChannels();
    case Red => RedChannels();
  }
}
