/**
 * The dashboard (src/pages/HomeDashboard.jsx): today's totals and daily
 * score for the signed-in user, the seven-day water chart and its bar
 * heights. `today` is today's calendar day number and `weekday` its
 * `getDay()` (0 is Sunday).
 */
module HomeDashboard {
  import opened Values
  import opened Seqs
  import opened Logs
  import opened Helpers

  /** The dashboard's own copy of the daily formula. */
  function DashboardScore(todayWater: real, todayCarbon: real): (r: int)
    ensures r == DailyEcoScore(todayWater, todayCarbon)
  {
    var avgWater := 150.0;
    var avgCarbon := 10.0;
    var waterScore := Max(0.0, 50.0 - (todayWater - avgWater) / 2.0);
    var carbonScore := Max(0.0, 50.0 - (todayCarbon - avgCarbon) * 2.0);
    Clamp(Round(waterScore + carbonScore), 0, 100)
  }

  /** What the dashboard shows for today: rounded liters, kg to one decimal, and the score. */
  datatype TodayStats = TodayStats(todayWater: int, todayCarbon: real, ecoScore: int)

  /** `loadStats()`'s figures: the user's logs created today, summed. */
  function Today(waterLogs: seq<Record>, carbonLogs: seq<Record>, uid: Option<Field>,
                 dayOf: string -> Option<int>, today: int): (s: TodayStats)
    ensures
      var water := DayTotal(ForUser(waterLogs, uid), "liters", dayOf, today);
      var carbon := DayTotal(ForUser(carbonLogs, uid), "co2kg", dayOf, today);
      s.todayWater == Round(water) && s.todayCarbon == ToFixed(carbon, 10) &&
      s.ecoScore == DailyEcoScore(water, carbon)
    ensures 0 <= s.ecoScore <= 100
  {
    var water := DayTotal(ForUser(waterLogs, uid), "liters", dayOf, today);
    var carbon := DayTotal(ForUser(carbonLogs, uid), "co2kg", dayOf, today);
    TodayStats(Round(water), ToFixed(carbon, 10), DashboardScore(water, carbon))
  }

  /** Other users' logs and the user's logs from other days leave today's figures alone. */
  lemma TodayIgnoresOthers(water: seq<Record>, carbon: seq<Record>, moreWater: seq<Record>, moreCarbon: seq<Record>,
                           uid: Option<Field>, dayOf: string -> Option<int>, today: int)
    requires forall i :: 0 <= i < |moreWater| ==> !OwnedBy(moreWater[i], uid) || dayOf(CreatedAt(moreWater[i])) != Some(today)
    requires forall i :: 0 <= i < |moreCarbon| ==> !OwnedBy(moreCarbon[i], uid) || dayOf(CreatedAt(moreCarbon[i])) != Some(today)
    ensures Today(water + moreWater, carbon + moreCarbon, uid, dayOf, today) == Today(water, carbon, uid, dayOf, today)
  {
    FilterConcat(water, moreWater, Owner(uid));
    FilterConcat(carbon, moreCarbon, Owner(uid));
    var mw := ForUser(moreWater, uid);
    var mc := ForUser(moreCarbon, uid);
    forall i | 0 <= i < |mw| ensures dayOf(CreatedAt(mw[i])) != Some(today) {
      FilterMembers(moreWater, Owner(uid), mw[i]);
    }
    forall i | 0 <= i < |mc| ensures dayOf(CreatedAt(mc[i])) != Some(today) {
      FilterMembers(moreCarbon, Owner(uid), mc[i]);
    }
    DayTotalIgnoresOtherDays(ForUser(water, uid), mw, "liters", dayOf, today);
    DayTotalIgnoresOtherDays(ForUser(carbon, uid), mc, "co2kg", dayOf, today);
  }

  // ---------------------------------------------------------------------------
  // Weekly chart (generateWeeklyData)

  datatype DayBar = DayBar(day: string, liters: int)

  /** The bar for the day `back` days before today. */
  function BarFor(logs: seq<Record>, dayOf: string -> Option<int>, today: int, weekday: int, back: int): DayBar {
    DayBar(DayLabel(weekday, back), Round(DayTotal(logs, "liters", dayOf, today - back)))
  }

  /** The seven bars, six days ago first and today last. */
  function WeeklyWater(logs: seq<Record>, dayOf: string -> Option<int>, today: int, weekday: int): (r: seq<DayBar>)
    ensures |r| == 7
    ensures forall k :: 0 <= k < 7 ==> r[k] == BarFor(logs, dayOf, today, weekday, 6 - k)
  {
    seq(7, k requires 0 <= k < 7 => BarFor(logs, dayOf, today, weekday, 6 - k))
  }

  /** The loop `for (i = 6; i >= 0; i--)` pushing one bar per day. */
  method GenerateWeeklyData(logs: seq<Record>, dayOf: string -> Option<int>, today: int, weekday: int)
    returns (data: seq<DayBar>)
    ensures data == WeeklyWater(logs, dayOf, today, weekday)
  {
    data := [];
    var i := 6;
    while i >= 0
      invariant -1 <= i <= 6
      invariant |data| == 6 - i
      invariant forall k :: 0 <= k < |data| ==> data[k] == BarFor(logs, dayOf, today, weekday, 6 - k)
    {
      var dayLogs := Filter(logs, OnDay(dayOf, today - i));
      var total := Total(dayLogs, "liters");
      data := data + [DayBar(DayLabel(weekday, i), Round(total))];
      i := i - 1;
    }
  }

  /** The chart ends with today and shows seven different labels. */
  lemma WeeklyShape(logs: seq<Record>, dayOf: string -> Option<int>, today: int, weekday: int)
    ensures WeeklyWater(logs, dayOf, today, weekday)[6].liters == Round(DayTotal(logs, "liters", dayOf, today))
    ensures WeeklyWater(logs, dayOf, today, weekday)[6].day == DayLabel(weekday, 0)
    ensures forall i, j :: 0 <= i < j < 7 ==>
      WeeklyWater(logs, dayOf, today, weekday)[i].day != WeeklyWater(logs, dayOf, today, weekday)[j].day
  {
    var r := WeeklyWater(logs, dayOf, today, weekday);
    forall i, j | 0 <= i < j < 7 ensures r[i].day != r[j].day {
      assert r[i].day == DayLabel(weekday, 6 - i) && r[j].day == DayLabel(weekday, 6 - j);
      DayLabelsDistinct(weekday, 6 - j, 6 - i);
    }
  }

  /** With non-negative logged liters no bar is negative. */
  lemma WeeklyNonNegative(logs: seq<Record>, dayOf: string -> Option<int>, today: int, weekday: int)
    requires forall i :: 0 <= i < |logs| ==> Amount(logs[i], "liters") >= 0.0
    ensures forall k :: 0 <= k < 7 ==> WeeklyWater(logs, dayOf, today, weekday)[k].liters >= 0
  {
    var r := WeeklyWater(logs, dayOf, today, weekday);
    forall k | 0 <= k < 7 ensures r[k].liters >= 0 {
      DayTotalNonNegative(logs, "liters", dayOf, today - (6 - k));
      RoundMonotone(0.0, DayTotal(logs, "liters", dayOf, today - (6 - k)));
      RoundOfInt(0);
    }
  }

  // ---------------------------------------------------------------------------
  // Bar heights

  /** `Math.max(...bars.map(d => d.liters), 1)` */
  function MaxLiters(bars: seq<DayBar>): (r: int)
    ensures r >= 1
    ensures forall i :: 0 <= i < |bars| ==> bars[i].liters <= r
    ensures r == 1 || exists i :: 0 <= i < |bars| && bars[i].liters == r
  {
    if bars == [] then 1
    else
      var rest := MaxLiters(bars[1..]);
      assert forall i :: 1 <= i < |bars| ==> bars[i] == bars[1..][i - 1];
      if bars[0].liters > rest then bars[0].liters else rest
  }

  /** A part over a positive whole is at most one, exactly one for the whole itself, and not negative for a non-negative part. */
  lemma RatioBounds(part: real, whole: real)
    requires 0.0 < whole && part <= whole
    ensures part / whole <= 1.0
    ensures part == whole ==> part / whole == 1.0
    ensures part >= 0.0 ==> part / whole >= 0.0
  {
    var inv := 1.0 / whole;
    assert inv > 0.0;
    assert part / whole == part * inv;
    assert whole * inv == 1.0;
    assert (whole - part) * inv == whole * inv - part * inv;
    assert (whole - part) * inv >= 0.0;
    assert part >= 0.0 ==> part * inv >= 0.0;
  }

  /** `(bar.liters / maxHeight) * 100`, the height of bar k in percent. */
  function BarHeight(bars: seq<DayBar>, k: nat): (r: real)
    requires k < |bars|
    ensures r <= 100.0
    ensures bars[k].liters >= 0 ==> 0.0 <= r
    ensures bars[k].liters == MaxLiters(bars) ==> r == 100.0
  {
    var top := MaxLiters(bars) as real;
    var l := bars[k].liters as real;
    var ratio := l / top;
    RatioBounds(l, top);
    ratio * 100.0
  }
}
