/**
 * The scoring and formatting helpers of src/utils/helpers.js: the daily
 * eco score, the eco level table and the relative-time text.
 */
module Helpers {
  import opened Values

  // ---------------------------------------------------------------------------
  // Daily eco score (calculateEcoScore)

  const DailyWaterTarget: real := 150.0
  const DailyCarbonTarget: real := 10.0

  /** The water half of the daily score: 50 at the target, half a point less per extra liter, never negative. */
  function DailyWaterTerm(waterUsage: real): (r: real)
    ensures r >= 0.0
    ensures waterUsage <= 250.0 ==> r == 50.0 - (waterUsage - DailyWaterTarget) / 2.0
    ensures waterUsage >= 250.0 ==> r == 0.0
  {
    Max(0.0, 50.0 - (waterUsage - DailyWaterTarget) / 2.0)
  }

  /** The carbon half: 50 at the target, two points less per extra kg, never negative. */
  function DailyCarbonTerm(carbonFootprint: real): (r: real)
    ensures r >= 0.0
    ensures carbonFootprint <= 35.0 ==> r == 50.0 - (carbonFootprint - DailyCarbonTarget) * 2.0
    ensures carbonFootprint >= 35.0 ==> r == 0.0
  {
    Max(0.0, 50.0 - (carbonFootprint - DailyCarbonTarget) * 2.0)
  }

  /** `calculateEcoScore(waterUsage, carbonFootprint)`: the rounded sum of both halves, clamped to [0, 100]. */
  function DailyEcoScore(waterUsage: real, carbonFootprint: real): (r: int)
    ensures 0 <= r <= 100
  {
    Clamp(Round(DailyWaterTerm(waterUsage) + DailyCarbonTerm(carbonFootprint)), 0, 100)
  }

  /** Meeting both daily targets exactly scores 100. */
  lemma DailyAtTargets()
    ensures DailyWaterTerm(DailyWaterTarget) + DailyCarbonTerm(DailyCarbonTarget) == 100.0
    ensures DailyEcoScore(DailyWaterTarget, DailyCarbonTarget) == 100
  {
    RoundOfInt(100);
  }

  /** With no usage at all the raw sum is 125 + 70, which is clamped to 100. */
  lemma DailyAtZero()
    ensures DailyWaterTerm(0.0) == 125.0 && DailyCarbonTerm(0.0) == 70.0
    ensures DailyEcoScore(0.0, 0.0) == 100
  {
    RoundOfInt(195);
  }

  /** From 250 L and 35 kg on, both halves are 0 and so is the score. */
  lemma DailyFloor(waterUsage: real, carbonFootprint: real)
    requires waterUsage >= 250.0 && carbonFootprint >= 35.0
    ensures DailyEcoScore(waterUsage, carbonFootprint) == 0
  {
    RoundOfInt(0);
  }

  /** Using more water or emitting more carbon never raises the daily score. */
  lemma DailyMonotone(w1: real, c1: real, w2: real, c2: real)
    requires w1 <= w2 && c1 <= c2
    ensures DailyEcoScore(w2, c2) <= DailyEcoScore(w1, c1)
  {
    var raw1 := DailyWaterTerm(w1) + DailyCarbonTerm(c1);
    var raw2 := DailyWaterTerm(w2) + DailyCarbonTerm(c2);
    assert raw2 <= raw1;
    RoundMonotone(raw2, raw1);
    ClampMonotone(Round(raw2), Round(raw1), 0, 100);
  }

  // ---------------------------------------------------------------------------
  // Eco level (getEcoLevel)

  datatype EcoLevel = Beginner | Intermediate | Expert
  {
    function Name(): string {
      match this
      case Beginner => "Beginner"
      case Intermediate => "Intermediate"
      case Expert => "Expert"
    }

    function Color(): string {
      match this
      case Beginner => "red"
      case Intermediate => "yellow"
      case Expert => "green"
    }

    function Rank(): nat {
      match this
      case Beginner => 0
      case Intermediate => 1
      case Expert => 2
    }
  }

  /** `getEcoLevel(score)`: up to 30 Beginner (red), up to 70 Intermediate (yellow), above that Expert (green). */
  function EcoLevelOf(score: real): (r: EcoLevel)
    ensures r == Beginner <==> score <= 30.0
    ensures r == Intermediate <==> 30.0 < score <= 70.0
    ensures r == Expert <==> score > 70.0
  {
    if score <= 30.0 then Beginner
    else if score <= 70.0 then Intermediate
    else Expert
  }

  /** A higher score never gives a lower level. */
  lemma EcoLevelMonotone(s1: real, s2: real)
    requires s1 <= s2
    ensures EcoLevelOf(s1).Rank() <= EcoLevelOf(s2).Rank()
  {
  }

  // ---------------------------------------------------------------------------
  // Relative time (formatTimeAgo)

  const SecondMs: int := 1000
  const MinuteMs: int := 60000
  const HourMs: int := 3600000
  const DayMs: int := 86400000
  const WeekMs: int := 7 * DayMs

  /** What formatTimeAgo shows; `AsDate` is the calendar-date text it falls back to after a week. */
  datatype Ago = JustNow | MinutesAgo(n: int) | HoursAgo(n: int) | DaysAgo(n: int) | AsDate

  /**
   * formatTimeAgo's choice for a difference of diffMs milliseconds between
   * now and the timestamp. Dafny's `/` by a positive divisor is floor
   * division, as `Math.floor(diffMs / unit)` is.
   */
  function TimeAgo(diffMs: int): (r: Ago)
    ensures r == JustNow <==> diffMs < MinuteMs
    ensures r.MinutesAgo? <==> MinuteMs <= diffMs < HourMs
    ensures r.HoursAgo? <==> HourMs <= diffMs < DayMs
    ensures r.DaysAgo? <==> DayMs <= diffMs < WeekMs
    ensures r == AsDate <==> diffMs >= WeekMs
    ensures r.MinutesAgo? ==> r.n * MinuteMs <= diffMs < (r.n + 1) * MinuteMs && 1 <= r.n < 60
    ensures r.HoursAgo? ==> r.n * HourMs <= diffMs < (r.n + 1) * HourMs && 1 <= r.n < 24
    ensures r.DaysAgo? ==> r.n * DayMs <= diffMs < (r.n + 1) * DayMs && 1 <= r.n < 7
  {
    var diffSecs := diffMs / SecondMs;
    var diffMins := diffMs / MinuteMs;
    var diffHours := diffMs / HourMs;
    var diffDays := diffMs / DayMs;
    if diffSecs < 60 then JustNow
    else if diffMins < 60 then MinutesAgo(diffMins)
    else if diffHours < 24 then HoursAgo(diffHours)
    else if diffDays < 7 then DaysAgo(diffDays)
    else AsDate
  }

  /** A count followed by its unit, as in `${diffMins}m ago`. */
  function CountText(n: int, unit: string): string {
    IntText(n) + unit
  }

  /** The unit text after a count. */
  function Unit(a: Ago): (u: string)
    ensures |u| == 5
  {
    match a
    case MinutesAgo(_) => "m ago"
    case HoursAgo(_) => "h ago"
    case _ => "d ago"
  }

  /** The text shown; None for the calendar-date fallback, whose formatting is not modelled. */
  function AgoText(a: Ago): (r: Option<string>)
    ensures r.None? <==> a == AsDate
  {
    match a
    case JustNow => Some("just now")
    case MinutesAgo(n) => Some(CountText(n, Unit(a)))
    case HoursAgo(n) => Some(CountText(n, Unit(a)))
    case DaysAgo(n) => Some(CountText(n, Unit(a)))
    case AsDate => None
  }

  /** Different counts or units print differently. */
  lemma CountTextInjective(m: int, u: string, n: int, v: string)
    requires |u| == |v|
    requires CountText(m, u) == CountText(n, v)
    ensures m == n && u == v
  {
    var s := CountText(m, u);
    assert |IntText(m)| == |IntText(n)|;
    assert IntText(m) == s[..|IntText(m)|];
    assert IntText(n) == s[..|IntText(n)|];
    IntTextInjective(m, n);
    assert u == s[|IntText(m)|..];
    assert v == s[|IntText(n)|..];
  }

  /** A count text starts with a sign or a digit, so it is never "just now". */
  lemma CountTextNotJustNow(n: int, u: string)
    ensures CountText(n, u) != "just now"
  {
    assert CountText(n, u)[0] == IntText(n)[0];
  }

  /** The shown text determines what was shown: no two choices print alike. */
  lemma AgoTextInjective(a: Ago, b: Ago)
    requires AgoText(a).Some? && AgoText(a) == AgoText(b)
    ensures a == b
  {
    if !a.JustNow? && !b.JustNow? {
      CountTextInjective(a.n, Unit(a), b.n, Unit(b));
    } else if !a.JustNow? {
      CountTextNotJustNow(a.n, Unit(a));
    } else if !b.JustNow? {
      CountTextNotJustNow(b.n, Unit(b));
    }
  }
}
