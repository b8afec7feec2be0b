/**
 * The Water Tracker page (src/pages/WaterTracker.jsx): the standard mode's
 * liters estimate from a fixed activity table, the GreenPulse timer mode
 * that meters a flow while it runs, the usage alert, and the two save
 * handlers that append a log to waterLogs.
 *
 * The flow rate is an input of the model (the page derives it from pipe
 * parameters with floating-point pi), and the one-second interval is the
 * explicit Tick method.
 */
module WaterTracker {
  import opened Values
  import opened Seqs
  import opened Logs
  import Store

  // ---------------------------------------------------------------------------
  // The activity table and the standard estimate

  /** An activity button: its value, its shown label (`title`) and its liters per ten minutes. */
  datatype Activity = Activity(value: string, title: string, avgLiters: int)

  /** The five activities, with their liters per ten minutes. */
  const Activities: seq<Activity> := [
    Activity("bathing", "Bathing", 80),
    Activity("washing", "Washing Dishes", 30),
    Activity("cooking", "Cooking", 15),
    Activity("cleaning", "Cleaning", 25),
    Activity("gardening", "Gardening", 50)
  ]

  /** `a => a.value === v` */
  function ValueIs(v: string): Activity -> bool {
    (a: Activity) => a.value == v
  }

  /** `activities.find(a => a.value === v)` */
  function Lookup(v: string): (r: Option<Activity>)
    ensures r.Some? ==> r.value in Activities && r.value.value == v
    ensures r.None? <==> forall i :: 0 <= i < |Activities| ==> Activities[i].value != v
  {
    Find(Activities, ValueIs(v))
  }

  /** Each activity button selects its own table row. */
  lemma LookupTable(i: nat)
    requires i < |Activities|
    ensures Lookup(Activities[i].value) == Some(Activities[i])
  {
    var j := FirstIndex(Activities, ValueIs(Activities[i].value)).value;
    assert Activities[j].value == Activities[i].value;
  }

  /** `Math.round(avgLiters / 10 * minutes)` */
  function Estimate(a: Activity, minutes: real): (r: int)
    ensures a.avgLiters >= 0 && minutes >= 0.0 ==> r >= 0
  {
    var calculated := a.avgLiters as real / 10.0 * minutes;
    assert a.avgLiters >= 0 && minutes >= 0.0 ==> calculated >= 0.0;
    Round(calculated)
  }

  /** Ten minutes of an activity use exactly its table liters. */
  lemma EstimateTenMinutes(a: Activity)
    ensures Estimate(a, 10.0) == a.avgLiters
  {
    RoundOfInt(a.avgLiters);
  }

  /** A longer activity never has a smaller estimate. */
  lemma EstimateMonotone(a: Activity, m1: real, m2: real)
    requires a.avgLiters >= 0 && m1 <= m2
    ensures Estimate(a, m1) <= Estimate(a, m2)
  {
    var rate := a.avgLiters as real / 10.0;
    assert rate * m2 - rate * m1 == rate * (m2 - m1);
    RoundMonotone(rate * m1, rate * m2);
  }

  /** A zero-minute entry estimates 0 liters, which keeps Save Log disabled. */
  lemma ZeroMinutesEstimateNothing(a: Activity)
    ensures Estimate(a, 0.0) == 0
  {
    RoundOfInt(0);
  }

  // ---------------------------------------------------------------------------
  // GreenPulse metering

  /**
   * `useState(10)`: the flow rate before the pipe effect first runs. That
   * effect also runs on mount and replaces it with MountedFlowRate.
   */
  const InitialFlowRate: real := 10.0

  /**
   * The rate the pipe effect computes on mount from the initial 5 m/s and
   * 0.015 m pipe: 5 * pi * 0.0075^2 * 60000 is about 53.01, and keeping one
   * decimal gives 53.0.
   */
  const MountedFlowRate: real := 53.0

  /**
   * The GreenPulse cap: from this many liters Start/Stop is disabled, and
   * the toggle handler force-stops a running session. Nothing stops the
   * interval itself.
   */
  const PulseCap: int := 30

  /** `Math.round(flowRate * timerSeconds / 60)` */
  function GreenPulseLiters(flowRate: real, seconds: int): (r: int)
    ensures flowRate >= 0.0 && seconds >= 0 ==> r >= 0
  {
    var used := flowRate * seconds as real / 60.0;
    assert flowRate >= 0.0 && seconds >= 0 ==> used >= 0.0;
    Round(used)
  }

  /** With a non-negative flow rate, the metered liters never go down as the timer runs. */
  lemma GreenPulseMonotone(flowRate: real, s1: int, s2: int)
    requires flowRate >= 0.0 && s1 <= s2
    ensures GreenPulseLiters(flowRate, s1) <= GreenPulseLiters(flowRate, s2)
  {
    var a := flowRate * s1 as real;
    var b := flowRate * s2 as real;
    assert b - a == flowRate * (s2 - s1) as real;
    RoundMonotone(a / 60.0, b / 60.0);
  }

  /** At the rate set on mount the meter shows 29 L after 33 s and reaches the 30 L cap at 34 s. */
  lemma MountedRateReachesCap()
    ensures GreenPulseLiters(MountedFlowRate, 33) == 29
    ensures GreenPulseLiters(MountedFlowRate, 34) == PulseCap
  {
    assert MountedFlowRate * 33 as real / 60.0 == 29.15;
    assert MountedFlowRate * 34 as real / 60.0 == 30.0 + 1.0 / 30.0;
  }

  /** With a non-negative rate, a meter at the cap stays at or above it as the timer runs on. */
  lemma CapIsPermanent(flowRate: real, s1: int, s2: int)
    requires flowRate >= 0.0 && s1 <= s2
    requires GreenPulseLiters(flowRate, s1) >= PulseCap
    ensures GreenPulseLiters(flowRate, s2) >= PulseCap
  {
    GreenPulseMonotone(flowRate, s1, s2);
  }

  // ---------------------------------------------------------------------------
  // The usage alert

  datatype Alert = NoAlert | GreenAlert | YellowAlert | RedAlert
  {
    function Level(): string {
      match this
      case NoAlert => "none"
      case GreenAlert => "green"
      case YellowAlert => "yellow"
      case RedAlert => "red"
    }

    function Message(): string {
      match this
      case NoAlert => ""
      case GreenAlert => "Good! Moderate usage"
      case YellowAlert => "Warning: High water usage"
      case RedAlert => "CRITICAL! Stop water usage!"
    }

    function Rank(): nat {
      match this
      case NoAlert => 0
      case GreenAlert => 1
      case YellowAlert => 2
      case RedAlert => 3
    }
  }

  /** `getAlertLevel(liters)`: red from 30, yellow from 20, green from 10, none below. */
  function AlertLevelOf(liters: int): (r: Alert)
    ensures r == RedAlert <==> liters >= 30
    ensures r == YellowAlert <==> 20 <= liters < 30
    ensures r == GreenAlert <==> 10 <= liters < 20
    ensures r == NoAlert <==> liters < 10
  {
    if liters >= 30 then RedAlert
    else if liters >= 20 then YellowAlert
    else if liters >= 10 then GreenAlert
    else NoAlert
  }

  /** More liters never lower the alert. */
  lemma AlertMonotone(l1: int, l2: int)
    requires l1 <= l2
    ensures AlertLevelOf(l1).Rank() <= AlertLevelOf(l2).Rank()
  {
  }

  /** Reaching the GreenPulse cap is exactly reaching the red alert. */
  lemma CapIsRed(liters: int)
    ensures liters >= PulseCap <==> AlertLevelOf(liters) == RedAlert
  {
  }

  // ---------------------------------------------------------------------------
  // The saved logs

  /** The duration field: blank, or the number the input holds. */
  datatype Duration = Blank | Entered(minutes: real)

  /** `parseFloat(duration)`, stored as JSON: a blank input parses to NaN, which is written as null. */
  function DurationField(d: Duration): (r: Field)
    ensures d.Entered? <==> r.FNum?
    ensures d.Entered? ==> r == FNum(d.minutes)
  {
    if d.Entered? then FNum(d.minutes) else FNull
  }

  /** The log handleSave writes: `{ activity, duration, liters, userId }`. */
  function StandardLog(activity: string, duration: Duration, liters: int, currentUser: Option<Record>): (r: Record)
    ensures r.Keys == {"activity", "duration", "liters", "userId"}
    ensures Amount(r, "liters") == liters as real
    ensures Prop(r, "userId") == Some(ActorId(currentUser))
    ensures r["activity"] == FStr(activity) && r["duration"] == DurationField(duration)
  {
    map["activity" := FStr(activity), "duration" := DurationField(duration),
        "liters" := FNum(liters as real), "userId" := ActorId(currentUser)]
  }

  /** The log handleGreenPulseSave writes: `{ activity: 'greenpulse', duration, liters, flowRate, userId }`. */
  function PulseLog(seconds: int, flowRate: real, currentUser: Option<Record>): (r: Record)
    ensures r.Keys == {"activity", "duration", "liters", "flowRate", "userId"}
    ensures r["activity"] == FStr("greenpulse")
    ensures r["duration"] == FNum(seconds as real) && r["flowRate"] == FNum(flowRate)
    ensures Amount(r, "liters") == GreenPulseLiters(flowRate, seconds) as real
    ensures Prop(r, "userId") == Some(ActorId(currentUser))
  {
    map["activity" := FStr("greenpulse"), "duration" := FNum(seconds as real),
        "liters" := FNum(GreenPulseLiters(flowRate, seconds) as real), "flowRate" := FNum(flowRate),
        "userId" := ActorId(currentUser)]
  }

  /** Adding a log as a document keeps its liters. */
  lemma StoredLiters(log: Record, freshId: string, stamp: string)
    ensures Amount(Store.NewDoc(log, freshId, stamp), "liters") == Amount(log, "liters")
  {
  }

  /**
   * Once stored, a signed-in user's standard log adds exactly its liters to
   * the user's water total, which is what the other pages sum.
   */
  lemma StandardLogCounts(logs: seq<Record>, activity: string, duration: Duration, liters: int,
                          currentUser: Option<Record>, freshId: string, stamp: string)
    requires currentUser.Some? && PropTruthy(currentUser.value, "uid") && currentUser.value["uid"].FStr?
    ensures
      var uid := Prop(currentUser.value, "uid");
      var log := Store.NewDoc(StandardLog(activity, duration, liters, currentUser), freshId, stamp);
      Total(ForUser(logs + [log], uid), "liters") == Total(ForUser(logs, uid), "liters") + liters as real
  {
    var log := Store.NewDoc(StandardLog(activity, duration, liters, currentUser), freshId, stamp);
    ActorIdOwnership(log, currentUser);
    AppendOwnedLog(logs, log, Prop(currentUser.value, "uid"), "liters");
  }

  /** The same for a GreenPulse session: it adds its metered liters. */
  lemma PulseLogCounts(logs: seq<Record>, seconds: int, flowRate: real,
                       currentUser: Option<Record>, freshId: string, stamp: string)
    requires currentUser.Some? && PropTruthy(currentUser.value, "uid") && currentUser.value["uid"].FStr?
    ensures
      var uid := Prop(currentUser.value, "uid");
      var log := Store.NewDoc(PulseLog(seconds, flowRate, currentUser), freshId, stamp);
      Total(ForUser(logs + [log], uid), "liters") ==
        Total(ForUser(logs, uid), "liters") + GreenPulseLiters(flowRate, seconds) as real
  {
    var log := Store.NewDoc(PulseLog(seconds, flowRate, currentUser), freshId, stamp);
    ActorIdOwnership(log, currentUser);
    AppendOwnedLog(logs, log, Prop(currentUser.value, "uid"), "liters");
  }

  /**
   * The confirmation texts. The droplet at their end is stored in the page's
   * text as the four characters of its UTF-8 bytes read as Windows-1252.
   */
  const Droplet: string := "\U{00F0}\U{0178}\U{2019}\U{00A7}"
  const StandardSaved: string := "Water usage logged successfully! " + Droplet
  const PulseSaved: string := "GreenPulse session logged successfully! " + Droplet

  // ---------------------------------------------------------------------------
  // Save Session visibility

  /**
   * Save Session is rendered inside the GreenPulse panel and only for a
   * stopped session with a running time: `panel` says whether that panel is
   * on screen.
   */
  predicate SaveSessionShown(panel: bool, active: bool, timerSeconds: nat) {
    panel && timerSeconds > 0 && !active
  }

  /**
   * The page renders the GreenPulse panel exactly while GreenPulse runs, so
   * the panel is on screen only when the session is active, and Save
   * Session, which needs it stopped, never appears.
   */
  lemma AsWrittenSaveNeverShown(active: bool, timerSeconds: nat)
    ensures !SaveSessionShown(active, active, timerSeconds)
  {
  }

  /** With the panel kept up by its own tab flag, a stopped session with a running time offers Save Session. */
  lemma TabPanelShowsSave(timerSeconds: nat)
    requires timerSeconds > 0
    ensures SaveSessionShown(true, false, timerSeconds)
  {
  }

  // ---------------------------------------------------------------------------
  // The page

  class WaterTrackerPage {
    /** The selected activity, held as its row of the table (None for `''`). */
    var selected: Option<nat>
    var duration: Duration
    var liters: int
    var savedMessage: string
    var greenPulseActive: bool
    var timerSeconds: nat
    var flowRate: real
    /**
     * The tab chosen last (true for GreenPulse Mode). The page as written
     * does not keep it: it picks the panel by `greenPulseActive`. It is the
     * panel flag the corrected rendering uses.
     */
    var greenPulseTab: bool

    /**
     * What the page keeps true: the selection is a row of the table, and
     * once an activity and a duration are both set the liters are their
     * estimate (the effect on those two inputs recomputes it).
     */
    predicate Valid()
      reads this
    {
      (selected.Some? ==> selected.value < |Activities|) &&
      (selected.Some? && duration.Entered? ==>
        liters == Estimate(Activities[selected.value], duration.minutes))
    }

    /** `selectedActivity`: the selected row's value, or `''`. */
    function SelectedActivity(): (r: string)
      reads this
      requires Valid()
      ensures selected.None? <==> r == ""
      ensures selected.Some? ==> Lookup(r) == Some(Activities[selected.value])
    {
      if selected.None? then ""
      else
        LookupTable(selected.value);
        Activities[selected.value].value
    }

    /** `greenPulseLiters` for the current timer. */
    function PulseLiters(): int
      reads this
    {
      GreenPulseLiters(flowRate, timerSeconds)
    }

    /** The alert shown: on the metered liters while GreenPulse runs, on the estimate otherwise. */
    function ShownAlert(): (r: Alert)
      reads this
      ensures greenPulseActive ==> r == AlertLevelOf(PulseLiters())
      ensures !greenPulseActive ==> r == AlertLevelOf(liters)
    {
      AlertLevelOf(if greenPulseActive then PulseLiters() else liters)
    }

    /** Save Log is enabled with an activity, a duration and a non-zero estimate. */
    predicate SaveEnabled()
      reads this
    {
      selected.Some? && duration.Entered? && liters != 0
    }

    /** Start/Stop is enabled below the cap. */
    predicate ToggleEnabled()
      reads this
    {
      PulseLiters() < PulseCap
    }

    /** The GreenPulse panel (pipe inputs, meter, Start/Stop, Save Session) is rendered while GreenPulse runs. */
    predicate GreenPulsePanelShown()
      reads this
    {
      greenPulseActive
    }

    /** Save Session as the page renders it: inside the GreenPulse panel, for a stopped session, so never. */
    predicate SessionSaveShown(): (r: bool)
      reads this
      ensures !r
    {
      AsWrittenSaveNeverShown(greenPulseActive, timerSeconds);
      SaveSessionShown(GreenPulsePanelShown(), greenPulseActive, timerSeconds)
    }

    /** Save Session as intended, with the panel shown on its own tab. */
    predicate IntendedSessionSaveShown()
      reads this
    {
      SaveSessionShown(greenPulseTab, greenPulseActive, timerSeconds)
    }

    constructor ()
      ensures Valid()
      ensures selected.None? && duration == Blank && liters == 0 && savedMessage == ""
      ensures !greenPulseActive && timerSeconds == 0 && flowRate == InitialFlowRate && !greenPulseTab
      ensures !SessionSaveShown()
    {
      selected, duration, liters, savedMessage := None, Blank, 0, "";
      greenPulseActive, timerSeconds, flowRate, greenPulseTab := false, 0, InitialFlowRate, false;
    }

    /** The effect on the activity and the duration: with both set, the liters become the estimate. */
    method Recalculate()
      requires selected.Some? ==> selected.value < |Activities|
      modifies this
      ensures Valid()
      ensures selected.Some? && duration.Entered? ==> liters == Estimate(Activities[selected.value], duration.minutes)
      ensures !(selected.Some? && duration.Entered?) ==> liters == old(liters)
      ensures selected == old(selected) && duration == old(duration)
      ensures savedMessage == old(savedMessage) && greenPulseActive == old(greenPulseActive)
      ensures timerSeconds == old(timerSeconds) && flowRate == old(flowRate) && greenPulseTab == old(greenPulseTab)
    {
      if selected.Some? && duration.Entered? {
        var activity := Activities[selected.value];
        liters := Estimate(activity, duration.minutes);
      }
    }

    /** Clicking the button of activity i. */
    method SelectActivity(i: nat)
      requires i < |Activities| && Valid()
      modifies this
      ensures Valid()
      ensures selected == Some(i) && SelectedActivity() == Activities[i].value
      ensures duration.Entered? ==> liters == Estimate(Activities[i], duration.minutes)
      ensures duration.Blank? ==> liters == old(liters)
      ensures duration == old(duration) && savedMessage == old(savedMessage)
      ensures greenPulseActive == old(greenPulseActive) && timerSeconds == old(timerSeconds) && flowRate == old(flowRate)
      ensures greenPulseTab == old(greenPulseTab)
    {
      selected := Some(i);
      Recalculate();
    }

    /** Typing a duration. */
    method SetDuration(d: Duration)
      requires Valid()
      modifies this
      ensures Valid()
      ensures duration == d
      ensures selected.Some? && d.Entered? ==> liters == Estimate(Activities[selected.value], d.minutes)
      ensures !(selected.Some? && d.Entered?) ==> liters == old(liters)
      ensures selected == old(selected) && savedMessage == old(savedMessage)
      ensures greenPulseActive == old(greenPulseActive) && timerSeconds == old(timerSeconds) && flowRate == old(flowRate)
      ensures greenPulseTab == old(greenPulseTab)
    {
      duration := d;
      Recalculate();
    }

    /**
     * The pipe effect setting a new flow rate. The pipe inputs are disabled
     * while GreenPulse runs, and the page renders them only then (inside the
     * GreenPulse panel), so on the page as written this is only the run on
     * mount, `SetFlowRate(MountedFlowRate)`.
     */
    method SetFlowRate(rate: real)
      requires Valid() && !greenPulseActive
      modifies this
      ensures Valid()
      ensures flowRate == rate
      ensures selected == old(selected) && duration == old(duration) && liters == old(liters)
      ensures savedMessage == old(savedMessage) && greenPulseActive == old(greenPulseActive) && timerSeconds == old(timerSeconds)
      ensures greenPulseTab == old(greenPulseTab)
    {
      flowRate := rate;
    }

    /**
     * One second of the interval, which runs only while GreenPulse is
     * active. A running session that has reached the cap stays running with
     * Start/Stop disabled, so not even the intended Save Session appears.
     */
    method Tick()
      requires Valid()
      modifies this
      ensures Valid()
      ensures greenPulseActive ==> timerSeconds == old(timerSeconds) + 1
      ensures !greenPulseActive ==> timerSeconds == old(timerSeconds)
      ensures flowRate >= 0.0 ==> PulseLiters() >= old(PulseLiters())
      ensures old(greenPulseActive && !ToggleEnabled()) && flowRate >= 0.0 ==>
        greenPulseActive && !ToggleEnabled() && !IntendedSessionSaveShown()
      ensures selected == old(selected) && duration == old(duration) && liters == old(liters)
      ensures savedMessage == old(savedMessage) && greenPulseActive == old(greenPulseActive) && flowRate == old(flowRate)
      ensures greenPulseTab == old(greenPulseTab)
    {
      if greenPulseActive {
        if flowRate >= 0.0 {
          GreenPulseMonotone(flowRate, timerSeconds, timerSeconds + 1);
          if PulseLiters() >= PulseCap {
            CapIsPermanent(flowRate, timerSeconds, timerSeconds + 1);
          }
        }
        timerSeconds := timerSeconds + 1;
      }
    }

    /**
     * `toggleGreenPulse()`: a running session at the cap is force-stopped;
     * otherwise the flag flips and starting resets the timer. Either way a
     * running session stops with its timer kept.
     */
    method ToggleGreenPulse()
      requires Valid()
      modifies this
      ensures Valid()
      ensures old(greenPulseActive) ==> !greenPulseActive && timerSeconds == old(timerSeconds)
      ensures !old(greenPulseActive) ==> greenPulseActive && timerSeconds == 0
      ensures selected == old(selected) && duration == old(duration) && liters == old(liters)
      ensures savedMessage == old(savedMessage) && flowRate == old(flowRate) && greenPulseTab == old(greenPulseTab)
    {
      if greenPulseActive && PulseLiters() >= PulseCap {
        greenPulseActive := false;
      } else {
        var wasActive := greenPulseActive;
        greenPulseActive := !wasActive;
        if !wasActive {
          timerSeconds := 0;
        }
      }
    }

    /**
     * A click on Start/Stop: the button is disabled from the cap on, so
     * there it does nothing; below the cap it runs toggleGreenPulse, whose
     * force-stop branch therefore never runs from the page. As written the
     * button is on screen only while GreenPulse runs, so it is always Stop,
     * and stopping takes the panel, Save Session included, off the screen;
     * with the panel kept by its tab, stopping a session with a running
     * time shows Save Session.
     */
    method PressStartStop()
      requires Valid()
      modifies this
      ensures Valid()
      ensures !old(ToggleEnabled()) ==>
        greenPulseActive == old(greenPulseActive) && timerSeconds == old(timerSeconds)
      ensures old(ToggleEnabled()) && old(greenPulseActive) ==> !greenPulseActive && timerSeconds == old(timerSeconds)
      ensures old(ToggleEnabled()) && !old(greenPulseActive) ==> greenPulseActive && timerSeconds == 0
      ensures old(ToggleEnabled() && greenPulseActive) ==> !SessionSaveShown() && !GreenPulsePanelShown()
      ensures old(ToggleEnabled() && greenPulseActive && greenPulseTab && timerSeconds > 0) ==> IntendedSessionSaveShown()
      ensures selected == old(selected) && duration == old(duration) && liters == old(liters)
      ensures savedMessage == old(savedMessage) && flowRate == old(flowRate) && greenPulseTab == old(greenPulseTab)
    {
      if !ToggleEnabled() {
        return;
      }
      ToggleGreenPulse();
    }

    /** The Standard Mode tab: stops GreenPulse and zeroes the timer. */
    method StandardTab()
      requires Valid()
      modifies this
      ensures Valid()
      ensures !greenPulseActive && timerSeconds == 0 && !greenPulseTab
      ensures selected == old(selected) && duration == old(duration) && liters == old(liters)
      ensures savedMessage == old(savedMessage) && flowRate == old(flowRate)
    {
      greenPulseActive, greenPulseTab := false, false;
      timerSeconds := 0;
    }

    /** The GreenPulse Mode tab: starts GreenPulse from a zero timer. */
    method GreenPulseTab()
      requires Valid()
      modifies this
      ensures Valid()
      ensures greenPulseActive && timerSeconds == 0 && greenPulseTab
      ensures selected == old(selected) && duration == old(duration) && liters == old(liters)
      ensures savedMessage == old(savedMessage) && flowRate == old(flowRate)
    {
      greenPulseActive, greenPulseTab := true, true;
      timerSeconds := 0;
    }

    /**
     * `handleSave()`: appends the standard log to waterLogs, then shows the
     * confirmation and clears the form. When the collection cannot be read
     * as an array the call rejects before any of that. When Save Log was
     * enabled, the stored liters are the estimate for the logged activity
     * and duration.
     */
    method HandleSave(store: Store.LocalStorageService, currentUser: Option<Record>, freshId: string, stamp: string)
      returns (r: Store.Result<Record>, ghost written: bool)
      requires Valid()
      modifies this, store
      ensures Valid()
      ensures greenPulseActive == old(greenPulseActive) && timerSeconds == old(timerSeconds) && flowRate == old(flowRate)
      ensures greenPulseTab == old(greenPulseTab)
      ensures old(store.Docs("waterLogs")).None? ==>
        r == Store.Err(Store.TypeError) && store.storage == old(store.storage) &&
        selected == old(selected) && duration == old(duration) && liters == old(liters) &&
        savedMessage == old(savedMessage)
      ensures old(store.Docs("waterLogs")).Some? ==>
        var log := Store.NewDoc(StandardLog(old(SelectedActivity()), old(duration), old(liters), currentUser), freshId, stamp);
        r == Store.Ok(log) &&
        store.storage == Store.Written(old(store.storage), Store.Prefix + "waterLogs",
                                       Store.Encode(old(store.Docs("waterLogs")).value + [log]), written) &&
        selected.None? && duration == Blank && liters == 0 && savedMessage == StandardSaved
      ensures old(SaveEnabled()) && r.Ok? ==>
        Amount(r.value, "liters") == Estimate(Activities[old(selected).value], old(duration).minutes) as real
    {
      var log := StandardLog(SelectedActivity(), duration, liters, currentUser);
      r, written := store.AddDoc("waterLogs", log, freshId, stamp);
      if r.Ok? {
        assert Amount(r.value, "liters") == liters as real;
        FormSaved();
      }
    }

    /** After a standard save: the confirmation, and activity, duration and liters cleared. */
    method FormSaved()
      modifies this
      ensures Valid()
      ensures savedMessage == StandardSaved && selected.None? && duration == Blank && liters == 0
      ensures greenPulseActive == old(greenPulseActive) && timerSeconds == old(timerSeconds) && flowRate == old(flowRate)
      ensures greenPulseTab == old(greenPulseTab)
    {
      savedMessage, selected, duration, liters := StandardSaved, None, Blank, 0;
    }

    /**
     * `handleGreenPulseSave()`: appends the session's log (its seconds, the
     * metered liters and the flow rate), then stops GreenPulse and zeroes
     * the timer. Its button is Save Session, which the page as written never
     * shows (AsWrittenSaveNeverShown); with the panel kept by its tab it is
     * shown once a session stops (IntendedSessionSaveShown).
     */
    method HandleGreenPulseSave(store: Store.LocalStorageService, currentUser: Option<Record>, freshId: string, stamp: string)
      returns (r: Store.Result<Record>, ghost written: bool)
      requires Valid()
      modifies this, store
      ensures Valid()
      ensures selected == old(selected) && duration == old(duration) && liters == old(liters)
      ensures flowRate == old(flowRate) && greenPulseTab == old(greenPulseTab)
      ensures old(store.Docs("waterLogs")).None? ==>
        r == Store.Err(Store.TypeError) && store.storage == old(store.storage) &&
        savedMessage == old(savedMessage) && greenPulseActive == old(greenPulseActive) && timerSeconds == old(timerSeconds)
      ensures old(store.Docs("waterLogs")).Some? ==>
        var log := Store.NewDoc(PulseLog(old(timerSeconds), old(flowRate), currentUser), freshId, stamp);
        r == Store.Ok(log) &&
        store.storage == Store.Written(old(store.storage), Store.Prefix + "waterLogs",
                                       Store.Encode(old(store.Docs("waterLogs")).value + [log]), written) &&
        savedMessage == PulseSaved && !greenPulseActive && timerSeconds == 0
    {
      var log := PulseLog(timerSeconds, flowRate, currentUser);
      r, written := store.AddDoc("waterLogs", log, freshId, stamp);
      if r.Ok? {
        SessionSaved();
      }
    }

    /** After a GreenPulse save: the confirmation, GreenPulse stopped and the timer zeroed. */
    method SessionSaved()
      requires Valid()
      modifies this
      ensures Valid()
      ensures savedMessage == PulseSaved && !greenPulseActive && timerSeconds == 0
      ensures selected == old(selected) && duration == old(duration) && liters == old(liters) && flowRate == old(flowRate)
      ensures greenPulseTab == old(greenPulseTab)
    {
      savedMessage, greenPulseActive, timerSeconds := PulseSaved, false, 0;
    }
  }
}
