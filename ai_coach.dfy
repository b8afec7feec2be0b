/**
 * The statistics of the AI Coach page (src/pages/AICoach.jsx): the
 * signed-in user's logs of the last seven days, the weekly eco score, the
 * savings against the weekly targets and the activity summary.
 */
module AICoach {
  import opened Values
  import opened Seqs
  import opened Logs

  /** The water half of the weekly score: 50 at 1050 L, a point less per extra 20 L, never negative. */
  function WeeklyWaterTerm(totalWater: real): (r: real)
    ensures r >= 0.0
    ensures totalWater <= 2050.0 ==> r == 50.0 - (totalWater - WeeklyWaterTarget) / 20.0
    ensures totalWater >= 2050.0 ==> r == 0.0
  {
    Max(0.0, 50.0 - (totalWater - WeeklyWaterTarget) / 20.0)
  }

  /** The carbon half: 50 at 70 kg, a point less per extra kg, never negative. */
  function WeeklyCarbonTerm(totalCarbon: real): (r: real)
    ensures r >= 0.0
    ensures totalCarbon <= 120.0 ==> r == 50.0 - (totalCarbon - WeeklyCarbonTarget)
    ensures totalCarbon >= 120.0 ==> r == 0.0
  {
    Max(0.0, 50.0 - (totalCarbon - WeeklyCarbonTarget))
  }

  /** The weekly score: the rounded sum of both halves, clamped to [0, 100]. */
  function WeeklyEcoScore(totalWater: real, totalCarbon: real): (r: int)
    ensures 0 <= r <= 100
  {
    Clamp(Round(WeeklyWaterTerm(totalWater) + WeeklyCarbonTerm(totalCarbon)), 0, 100)
  }

  /** At the weekly targets the score is 100. */
  lemma WeeklyAtTargets()
    ensures WeeklyEcoScore(1050.0, 70.0) == 100
  {
    RoundOfInt(100);
  }

  /** 420 L over the water target costs 21 points: the water half is 29 and the score 79. */
  lemma WeeklyOverWaterTarget()
    ensures WeeklyWaterTerm(1470.0) == 29.0
    ensures WeeklyEcoScore(1470.0, 70.0) == 79
  {
    RoundOfInt(79);
  }

  /** More water or more carbon in the week never raises the score. */
  lemma WeeklyMonotone(w1: real, c1: real, w2: real, c2: real)
    requires w1 <= w2 && c1 <= c2
    ensures WeeklyEcoScore(w2, c2) <= WeeklyEcoScore(w1, c1)
  {
    RoundMonotone(WeeklyWaterTerm(w2) + WeeklyCarbonTerm(c2), WeeklyWaterTerm(w1) + WeeklyCarbonTerm(c1));
  }

  /** `log => new Date(log.createdAt) >= oneWeekAgo`; an invalid date compares false. */
  function InWeek(timeOf: string -> Option<int>, weekAgo: int): Record -> bool {
    (log: Record) => timeOf(CreatedAt(log)).Some? && timeOf(CreatedAt(log)).value >= weekAgo
  }

  /** The user's logs since weekAgo, the boundary included. */
  function WeekLogs(logs: seq<Record>, uid: Option<Field>, timeOf: string -> Option<int>, weekAgo: int): (r: seq<Record>)
    ensures forall i :: 0 <= i < |r| ==> OwnedBy(r[i], uid) && timeOf(CreatedAt(r[i])).Some? && timeOf(CreatedAt(r[i])).value >= weekAgo
    ensures forall x :: x in r <==> x in logs && OwnedBy(x, uid) && timeOf(CreatedAt(x)).Some? && timeOf(CreatedAt(x)).value >= weekAgo
  {
    var r := Filter(ForUser(logs, uid), InWeek(timeOf, weekAgo));
    forall x ensures x in r <==> x in logs && OwnedBy(x, uid) && InWeek(timeOf, weekAgo)(x) {
      FilterMembers(ForUser(logs, uid), InWeek(timeOf, weekAgo), x);
      FilterMembers(logs, Owner(uid), x);
    }
    r
  }

  const WaterTracking: string := "water tracking"
  const CarbonTracking: string := "carbon tracking"
  const HighScore: string := "maintaining high eco score"

  /** The position of an activity in the summary's fixed order. */
  function ActivityRank(a: string): int {
    if a == WaterTracking then 0 else if a == CarbonTracking then 1 else 2
  }

  /** The summary of the week, as loadUserData stores it. */
  datatype CoachStats = CoachStats(ecoScore: int, waterSaved: real, carbonReduced: real, weekProgress: nat, recentActivities: seq<string>)

  /** The fixed conditional list of recent activities. */
  function RecentActivities(wroteWater: bool, wroteCarbon: bool, ecoScore: int): (r: seq<string>)
    ensures forall i, j :: 0 <= i < j < |r| ==> ActivityRank(r[i]) < ActivityRank(r[j])
    ensures WaterTracking in r <==> wroteWater
    ensures CarbonTracking in r <==> wroteCarbon
    ensures HighScore in r <==> ecoScore > 70
    ensures forall i :: 0 <= i < |r| ==> r[i] in {WaterTracking, CarbonTracking, HighScore}
  {
    (if wroteWater then [WaterTracking] else [])
    + (if wroteCarbon then [CarbonTracking] else [])
    + (if ecoScore > 70 then [HighScore] else [])
  }

  /** `loadUserData()`'s computation for the user with this uid, one week back from weekAgo. */
  function CoachStatsOf(waterLogs: seq<Record>, carbonLogs: seq<Record>, uid: Option<Field>,
                        timeOf: string -> Option<int>, weekAgo: int): (s: CoachStats)
    ensures 0 <= s.ecoScore <= 100 && s.waterSaved >= 0.0 && s.carbonReduced >= 0.0
    ensures
      var water := WeekLogs(waterLogs, uid, timeOf, weekAgo);
      var carbon := WeekLogs(carbonLogs, uid, timeOf, weekAgo);
      s.ecoScore == WeeklyEcoScore(Total(water, "liters"), Total(carbon, "co2kg")) &&
      s.waterSaved == WaterSaved(Total(water, "liters")) &&
      s.carbonReduced == CarbonReduced(Total(carbon, "co2kg")) &&
      s.weekProgress == |water| + |carbon| &&
      s.recentActivities == RecentActivities(|water| > 0, |carbon| > 0, s.ecoScore)
  {
    var water := WeekLogs(waterLogs, uid, timeOf, weekAgo);
    var carbon := WeekLogs(carbonLogs, uid, timeOf, weekAgo);
    var totalWater := Total(water, "liters");
    var totalCarbon := Total(carbon, "co2kg");
    var score := WeeklyEcoScore(totalWater, totalCarbon);
    CoachStats(score, WaterSaved(totalWater), CarbonReduced(totalCarbon), |water| + |carbon|,
               RecentActivities(|water| > 0, |carbon| > 0, score))
  }

  /** A log created exactly at weekAgo is counted; one a millisecond earlier is not. */
  lemma WindowBoundary(log: Record, timeOf: string -> Option<int>, weekAgo: int)
    requires timeOf(CreatedAt(log)).Some?
    ensures timeOf(CreatedAt(log)).value == weekAgo ==> InWeek(timeOf, weekAgo)(log)
    ensures timeOf(CreatedAt(log)).value == weekAgo - 1 ==> !InWeek(timeOf, weekAgo)(log)
  {
  }

  /** The summary mentions water tracking exactly when there is a water log of the user in the week. */
  lemma WaterTrackingMeansAWeekLog(waterLogs: seq<Record>, carbonLogs: seq<Record>, uid: Option<Field>,
                                   timeOf: string -> Option<int>, weekAgo: int)
    ensures WaterTracking in CoachStatsOf(waterLogs, carbonLogs, uid, timeOf, weekAgo).recentActivities <==>
      exists x :: x in waterLogs && OwnedBy(x, uid) && timeOf(CreatedAt(x)).Some? && timeOf(CreatedAt(x)).value >= weekAgo
  {
    var water := WeekLogs(waterLogs, uid, timeOf, weekAgo);
    if |water| > 0 {
      assert water[0] in water;
    }
  }
}
