/**
 * What the pages share when they read the activity logs: selecting one
 * user's logs, summing an amount, placing a log on a calendar day, the
 * weekly savings targets, the badge names and the weekday labels.
 *
 * Dates are abstract: `timeOf` parses a `createdAt` text to milliseconds
 * (None for an invalid date) and `dayOf` gives the local calendar day
 * number of a `createdAt` text (None for an invalid date), where day d - 1
 * is the day before day d.
 */
module Logs {
  import opened Values
  import opened Seqs

  // ---------------------------------------------------------------------------
  // Ownership

  /** `log.userId === uid`, where uid is `currentUser.uid` (None when the user has no uid). */
  predicate OwnedBy(log: Record, uid: Option<Field>) {
    StrictEquals(Prop(log, "userId"), uid)
  }

  /** `log => log.userId === uid` */
  function Owner(uid: Option<Field>): Record -> bool {
    log => OwnedBy(log, uid)
  }

  /** `logs.filter(log => log.userId === uid)` */
  function ForUser(logs: seq<Record>, uid: Option<Field>): (r: seq<Record>)
    ensures |r| <= |logs|
    ensures forall i :: 0 <= i < |r| ==> OwnedBy(r[i], uid)
  {
    Filter(logs, Owner(uid))
  }

  /** Logs of other users, wherever they are placed, do not change what a user's filter selects. */
  lemma ForUserIgnoresOthers(mine: seq<Record>, others: seq<Record>, more: seq<Record>, uid: Option<Field>)
    requires forall i :: 0 <= i < |others| ==> !OwnedBy(others[i], uid)
    ensures ForUser(mine + others + more, uid) == ForUser(mine + more, uid)
  {
    FilterConcat(mine + others, more, Owner(uid));
    FilterConcat(mine, others, Owner(uid));
    FilterNone(others, Owner(uid));
    FilterConcat(mine, more, Owner(uid));
  }

  /** `currentUser?.uid || 'guest'`: the userId written on a new log. */
  function ActorId(currentUser: Option<Record>): (r: Field)
    ensures currentUser.Some? && PropTruthy(currentUser.value, "uid") ==> r == currentUser.value["uid"]
    ensures !(currentUser.Some? && PropTruthy(currentUser.value, "uid")) ==> r == FStr("guest")
    ensures Truthy(r)
  {
    if currentUser.Some? && PropTruthy(currentUser.value, "uid") then currentUser.value["uid"] else FStr("guest")
  }

  /**
   * A log stamped with `ActorId(currentUser)` belongs to the signed-in user
   * it names, and a guest's log belongs to the uid "guest" and never to a
   * user without a uid.
   */
  lemma ActorIdOwnership(log: Record, currentUser: Option<Record>)
    requires Prop(log, "userId") == Some(ActorId(currentUser))
    ensures currentUser.Some? && PropTruthy(currentUser.value, "uid") && currentUser.value["uid"].FStr? ==>
      OwnedBy(log, Prop(currentUser.value, "uid"))
    ensures !(currentUser.Some? && PropTruthy(currentUser.value, "uid")) ==> OwnedBy(log, Some(FStr("guest")))
    ensures !OwnedBy(log, None)
  {
  }

  // ---------------------------------------------------------------------------
  // Sums

  /** `logs.reduce((sum, log) => sum + (log[field] || 0), 0)` */
  function Total(logs: seq<Record>, field: string): real {
    if logs == [] then 0.0 else Amount(logs[0], field) + Total(logs[1..], field)
  }

  /** The sum over a concatenation is the sum of the sums. */
  lemma {:induction false} TotalConcat(a: seq<Record>, b: seq<Record>, field: string)
    ensures Total(a + b, field) == Total(a, field) + Total(b, field)
  {
    if a == [] {
      assert a + b == b;
    } else {
      assert (a + b)[1..] == a[1..] + b;
      TotalConcat(a[1..], b, field);
    }
  }

  /** A log the user owns, appended to the logs, adds its amount to the user's total. */
  lemma AppendOwnedLog(logs: seq<Record>, log: Record, uid: Option<Field>, field: string)
    requires OwnedBy(log, uid)
    ensures Total(ForUser(logs + [log], uid), field) == Total(ForUser(logs, uid), field) + Amount(log, field)
  {
    FilterConcat(logs, [log], Owner(uid));
    assert Filter([log], Owner(uid)) == [log];
    TotalConcat(ForUser(logs, uid), [log], field);
  }

  /** Summing non-negative amounts gives a non-negative total. */
  lemma {:induction false} TotalNonNegative(logs: seq<Record>, field: string)
    requires forall i :: 0 <= i < |logs| ==> Amount(logs[i], field) >= 0.0
    ensures Total(logs, field) >= 0.0
  {
    if logs != [] {
      TotalNonNegative(logs[1..], field);
    }
  }

  /** A log anywhere in the sequence contributes to the total: with non-negative amounts the total bounds each one. */
  lemma {:induction false} TotalBoundsEach(logs: seq<Record>, field: string, k: nat)
    requires forall i :: 0 <= i < |logs| ==> Amount(logs[i], field) >= 0.0
    requires k < |logs|
    ensures Amount(logs[k], field) <= Total(logs, field)
  {
    TotalNonNegative(logs[1..], field);
    if k > 0 {
      TotalBoundsEach(logs[1..], field, k - 1);
    }
  }

  /** The `createdAt` text of a log ("" when it has none). */
  function CreatedAt(log: Record): string {
    Text(log, "createdAt")
  }

  /** `log => new Date(log.createdAt).toDateString() === <day d>.toDateString()` */
  function OnDay(dayOf: string -> Option<int>, d: int): Record -> bool {
    log => dayOf(CreatedAt(log)) == Some(d)
  }

  /** The sum of `field` over the logs created on day d. */
  function DayTotal(logs: seq<Record>, field: string, dayOf: string -> Option<int>, d: int): real {
    Total(Filter(logs, OnDay(dayOf, d)), field)
  }

  /** Every log of a day, with non-negative amounts, sums to a non-negative total. */
  lemma DayTotalNonNegative(logs: seq<Record>, field: string, dayOf: string -> Option<int>, d: int)
    requires forall i :: 0 <= i < |logs| ==> Amount(logs[i], field) >= 0.0
    ensures DayTotal(logs, field, dayOf, d) >= 0.0
  {
    var dayLogs := Filter(logs, OnDay(dayOf, d));
    forall n | 0 <= n < |dayLogs| ensures Amount(dayLogs[n], field) >= 0.0 {
      FilterMembers(logs, OnDay(dayOf, d), dayLogs[n]);
    }
    TotalNonNegative(dayLogs, field);
  }

  /** Logs from other days do not change a day's total. */
  lemma DayTotalIgnoresOtherDays(logs: seq<Record>, more: seq<Record>, field: string, dayOf: string -> Option<int>, d: int)
    requires forall i :: 0 <= i < |more| ==> dayOf(CreatedAt(more[i])) != Some(d)
    ensures DayTotal(logs + more, field, dayOf, d) == DayTotal(logs, field, dayOf, d)
  {
    FilterConcat(logs, more, OnDay(dayOf, d));
    FilterNone(more, OnDay(dayOf, d));
    assert Filter(logs, OnDay(dayOf, d)) + [] == Filter(logs, OnDay(dayOf, d));
  }

  // ---------------------------------------------------------------------------
  // Savings against the weekly targets

  const WeeklyWaterTarget: real := 1050.0
  const WeeklyCarbonTarget: real := 70.0

  /** `Math.max(0, 1050 - totalWater)` */
  function WaterSaved(totalWater: real): (r: real)
    ensures r >= 0.0
    ensures r <= WeeklyWaterTarget || totalWater < 0.0
    ensures totalWater <= WeeklyWaterTarget ==> r + totalWater == WeeklyWaterTarget
    ensures totalWater >= WeeklyWaterTarget ==> r == 0.0
  {
    Max(0.0, WeeklyWaterTarget - totalWater)
  }

  /** `Math.max(0, 70 - totalCarbon)` */
  function CarbonReduced(totalCarbon: real): (r: real)
    ensures r >= 0.0
    ensures r <= WeeklyCarbonTarget || totalCarbon < 0.0
    ensures totalCarbon <= WeeklyCarbonTarget ==> r + totalCarbon == WeeklyCarbonTarget
    ensures totalCarbon >= WeeklyCarbonTarget ==> r == 0.0
  {
    Max(0.0, WeeklyCarbonTarget - totalCarbon)
  }

  /** Using more never saves more. */
  lemma SavingsAntitone(t1: real, t2: real)
    requires t1 <= t2
    ensures WaterSaved(t2) <= WaterSaved(t1)
    ensures CarbonReduced(t2) <= CarbonReduced(t1)
  {
  }

  // ---------------------------------------------------------------------------
  // Badges

  /** The achievement badges, in the order the pages list them. */
  datatype Badge = WaterSaver | CarbonNeutral | EcoHero | ConsistentTracker
  {
    function Name(): string {
      match this
      case WaterSaver => "Water Saver"
      case CarbonNeutral => "Carbon Neutral"
      case EcoHero => "Eco Hero"
      case ConsistentTracker => "Consistent Tracker"
    }

    function Rank(): nat {
      match this
      case WaterSaver => 0
      case CarbonNeutral => 1
      case EcoHero => 2
      case ConsistentTracker => 3
    }
  }

  /** Badges listed in their fixed order, each at most once. */
  predicate InBadgeOrder(badges: seq<Badge>) {
    forall i, j :: 0 <= i < j < |badges| ==> badges[i].Rank() < badges[j].Rank()
  }

  // ---------------------------------------------------------------------------
  // Weekday labels

  const DayNames: seq<string> := ["Mon", "Tue", "Wed", "Thu", "Fri", "Sat", "Sun"]

  /** `getDay() === 0 ? 6 : getDay() - 1`: Sunday (getDay 0) is the last label. */
  function LabelIndex(weekday: int): (i: nat)
    requires 0 <= weekday < 7
    ensures i < 7
    ensures weekday == 0 ==> i == 6
    ensures weekday > 0 ==> i + 1 == weekday
  {
    if weekday == 0 then 6 else weekday - 1
  }

  /** `getDay()` of the day `back` days before a day whose `getDay()` is weekday. */
  function WeekdayBefore(weekday: int, back: int): (r: int)
    ensures 0 <= r < 7
  {
    (weekday - back) % 7
  }

  /** The label of the day `back` days before today. */
  function DayLabel(weekday: int, back: int): string {
    DayNames[LabelIndex(WeekdayBefore(weekday, back))]
  }

  /** Seven consecutive days get seven different labels. */
  lemma DayLabelsDistinct(weekday: int, i: int, j: int)
    requires 0 <= i < j < 7
    ensures DayLabel(weekday, i) != DayLabel(weekday, j)
  {
    var a := WeekdayBefore(weekday, i);
    var b := WeekdayBefore(weekday, j);
    assert a != b;
    assert LabelIndex(a) != LabelIndex(b);
    forall x, y | 0 <= x < y < 7 ensures DayNames[x] != DayNames[y] {
    }
  }
}
