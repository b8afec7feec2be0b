/**
 * The Carbon Tracker page (src/pages/CarbonTracker.jsx): the day's CO2 from
 * transport, electricity and food with fixed emission factors, the saved
 * carbon log, and the seven-day chart of every stored carbon log.
 *
 * The form's inputs are integers: the distance and electricity sliders give
 * 0..100 km and 0..50 kWh, and the meals field is `parseInt(value) || 0`.
 */
module CarbonTracker {
  import opened Values
  import opened Seqs
  import opened Logs
  import Store

  // ---------------------------------------------------------------------------
  // Emission factors

  datatype Mode = Car | Bike | Bus | Train | Flight
  {
    /** The key the page stores for the mode. */
    function Value(): string {
      match this
      case Car => "car"
      case Bike => "bike"
      case Bus => "bus"
      case Train => "train"
      case Flight => "flight"
    }

    /** kg of CO2 per km. */
    function Factor(): real {
      match this
      case Car => 0.12
      case Bike => 0.0
      case Bus => 0.05
      case Train => 0.03
      case Flight => 0.25
    }

    /** The factor in hundredths of a kg. */
    function Cents(): (c: int)
      ensures c as real == Factor() * 100.0
    {
      match this
      case Car => 12
      case Bike => 0
      case Bus => 5
      case Train => 3
      case Flight => 25
    }
  }

  datatype Diet = Vegan | Vegetarian | NonVegetarian
  {
    function Value(): string {
      match this
      case Vegan => "vegan"
      case Vegetarian => "vegetarian"
      case NonVegetarian => "nonVegetarian"
    }

    /** kg of CO2 per meal. */
    function Factor(): real {
      match this
      case Vegan => 1.0
      case Vegetarian => 1.5
      case NonVegetarian => 3.0
    }

    /** The factor in hundredths of a kg. */
    function Cents(): (c: int)
      ensures c as real == Factor() * 100.0
    {
      match this
      case Vegan => 100
      case Vegetarian => 150
      case NonVegetarian => 300
    }
  }

  /** kg of CO2 per kWh. */
  const ElectricityFactor: real := 0.5

  /** Per meal a vegan diet emits less than a vegetarian one, which emits less than a meat one. */
  lemma DietOrder()
    ensures Vegan.Factor() < Vegetarian.Factor() < NonVegetarian.Factor()
  {
  }

  // ---------------------------------------------------------------------------
  // The total

  /** `distance * factor[mode] + electricity * 0.5 + meals * factor[diet]`, before toFixed(2). */
  function TotalCO2(mode: Mode, distance: int, electricity: int, diet: Diet, meals: int): (r: real)
    ensures distance >= 0 && electricity >= 0 && meals >= 0 ==> r >= 0.0
  {
    var transport := distance as real * mode.Factor();
    var power := electricity as real * ElectricityFactor;
    var food := meals as real * diet.Factor();
    assert distance >= 0 ==> transport >= 0.0;
    assert meals >= 0 ==> food >= 0.0;
    transport + power + food
  }

  /** The same total in hundredths of a kg, an integer. */
  function TotalCents(mode: Mode, distance: int, electricity: int, diet: Diet, meals: int): int {
    distance * mode.Cents() + electricity * 50 + meals * diet.Cents()
  }

  /** With integer inputs the total is a whole number of hundredths. */
  lemma TotalInCents(mode: Mode, distance: int, electricity: int, diet: Diet, meals: int)
    ensures TotalCO2(mode, distance, electricity, diet, meals) * 100.0 == TotalCents(mode, distance, electricity, diet, meals) as real
  {
    var d := distance as real;
    var m := meals as real;
    assert d * mode.Factor() * 100.0 == d * (mode.Factor() * 100.0);
    assert m * diet.Factor() * 100.0 == m * (diet.Factor() * 100.0);
    assert (distance * mode.Cents()) as real == d * mode.Cents() as real;
    assert (meals * diet.Cents()) as real == m * diet.Cents() as real;
  }

  /** So toFixed(2) loses nothing: the shown and stored value is the exact total. */
  lemma ToFixedExact(mode: Mode, distance: int, electricity: int, diet: Diet, meals: int)
    ensures ToFixed(TotalCO2(mode, distance, electricity, diet, meals), 100) == TotalCO2(mode, distance, electricity, diet, meals)
  {
    var t := TotalCO2(mode, distance, electricity, diet, meals);
    var n := TotalCents(mode, distance, electricity, diet, meals);
    TotalInCents(mode, distance, electricity, diet, meals);
    RoundOfInt(n);
    RoundOfInt(-n);
    assert -t * 100.0 == (-n) as real;
  }

  /** toFixed(2) reads '0.00': non-negative and rounding to zero hundredths. */
  predicate ShowsZero(t: real) {
    t >= 0.0 && Round(t * 100.0) == 0
  }

  /** Save is disabled exactly when the form's total is zero. */
  lemma ShowsZeroIffNothing(mode: Mode, distance: int, electricity: int, diet: Diet, meals: int)
    ensures ShowsZero(TotalCO2(mode, distance, electricity, diet, meals)) <==> TotalCO2(mode, distance, electricity, diet, meals) == 0.0
  {
    TotalInCents(mode, distance, electricity, diet, meals);
    RoundOfInt(TotalCents(mode, distance, electricity, diet, meals));
  }

  /** Cycling emits nothing however far. */
  lemma BikeIsFree(d1: int, d2: int, electricity: int, diet: Diet, meals: int)
    ensures TotalCO2(Bike, d1, electricity, diet, meals) == TotalCO2(Bike, d2, electricity, diet, meals)
  {
  }

  /** More distance, electricity or meals never lower the total. */
  lemma TotalMonotone(mode: Mode, d1: int, d2: int, e1: int, e2: int, diet: Diet, m1: int, m2: int)
    requires d1 <= d2 && e1 <= e2 && m1 <= m2
    ensures TotalCO2(mode, d1, e1, diet, m1) <= TotalCO2(mode, d2, e2, diet, m2)
  {
    assert d2 as real * mode.Factor() - d1 as real * mode.Factor() == (d2 - d1) as real * mode.Factor();
    assert m2 as real * diet.Factor() - m1 as real * diet.Factor() == (m2 - m1) as real * diet.Factor();
  }

  /** For the same meals, a lower-emission diet gives a lower total. */
  lemma DietLowersTotal(mode: Mode, distance: int, electricity: int, meals: int)
    requires meals > 0
    ensures TotalCO2(mode, distance, electricity, Vegan, meals) < TotalCO2(mode, distance, electricity, Vegetarian, meals)
    ensures TotalCO2(mode, distance, electricity, Vegetarian, meals) < TotalCO2(mode, distance, electricity, NonVegetarian, meals)
  {
  }

  // ---------------------------------------------------------------------------
  // The saved log

  /** The log handleSave writes: the inputs, the two-decimal total as co2kg, and the user. */
  function CarbonLog(mode: Mode, distance: int, electricity: int, diet: Diet, meals: int,
                     currentUser: Option<Record>): (r: Record)
    ensures r.Keys == {"transport", "electricity", "food", "co2kg", "userId"}
    ensures r["transport"] == FObj(map["mode" := FStr(mode.Value()), "distance" := FNum(distance as real)])
    ensures r["electricity"] == FNum(electricity as real)
    ensures r["food"] == FObj(map["type" := FStr(diet.Value()), "meals" := FNum(meals as real)])
    ensures Amount(r, "co2kg") == ToFixed(TotalCO2(mode, distance, electricity, diet, meals), 100)
    ensures Prop(r, "userId") == Some(ActorId(currentUser))
  {
    map["transport" := FObj(map["mode" := FStr(mode.Value()), "distance" := FNum(distance as real)]),
        "electricity" := FNum(electricity as real),
        "food" := FObj(map["type" := FStr(diet.Value()), "meals" := FNum(meals as real)]),
        "co2kg" := FNum(ToFixed(TotalCO2(mode, distance, electricity, diet, meals), 100)),
        "userId" := ActorId(currentUser)]
  }

  /** Once stored, a signed-in user's log adds exactly the form's total to the user's carbon total. */
  lemma CarbonLogCounts(logs: seq<Record>, mode: Mode, distance: int, electricity: int, diet: Diet, meals: int,
                        currentUser: Option<Record>, freshId: string, stamp: string)
    requires currentUser.Some? && PropTruthy(currentUser.value, "uid") && currentUser.value["uid"].FStr?
    ensures
      var uid := Prop(currentUser.value, "uid");
      var log := Store.NewDoc(CarbonLog(mode, distance, electricity, diet, meals, currentUser), freshId, stamp);
      Total(ForUser(logs + [log], uid), "co2kg") ==
        Total(ForUser(logs, uid), "co2kg") + TotalCO2(mode, distance, electricity, diet, meals)
  {
    var log := Store.NewDoc(CarbonLog(mode, distance, electricity, diet, meals, currentUser), freshId, stamp);
    ActorIdOwnership(log, currentUser);
    AppendOwnedLog(logs, log, Prop(currentUser.value, "uid"), "co2kg");
    ToFixedExact(mode, distance, electricity, diet, meals);
  }

  const SavedMessage: string := "Carbon footprint logged successfully! 🌱"

  // ---------------------------------------------------------------------------
  // The seven-day chart

  /** A chart entry: the weekday label, the day's CO2 to one decimal, and the day's date text. */
  datatype ChartPoint = ChartPoint(day: string, co2: real, date: string)

  /** The entry for the day `back` days before today, over every user's logs. */
  function PointFor(logs: seq<Record>, dayOf: string -> Option<int>, dateText: int -> string,
                    today: int, weekday: int, back: int): ChartPoint {
    ChartPoint(DayLabel(weekday, back), ToFixed(DayTotal(logs, "co2kg", dayOf, today - back), 10), dateText(today - back))
  }

  /** The seven entries, six days ago first and today last. */
  function CarbonChart(logs: seq<Record>, dayOf: string -> Option<int>, dateText: int -> string,
                       today: int, weekday: int): (r: seq<ChartPoint>)
    ensures |r| == 7
    ensures forall k :: 0 <= k < 7 ==> r[k] == PointFor(logs, dayOf, dateText, today, weekday, 6 - k)
  {
    seq(7, k requires 0 <= k < 7 => PointFor(logs, dayOf, dateText, today, weekday, 6 - k))
  }

  /** The chart ends with today and shows seven different weekday labels. */
  lemma ChartShape(logs: seq<Record>, dayOf: string -> Option<int>, dateText: int -> string, today: int, weekday: int)
    ensures
      var r := CarbonChart(logs, dayOf, dateText, today, weekday);
      r[6].date == dateText(today) && r[6].co2 == ToFixed(DayTotal(logs, "co2kg", dayOf, today), 10) &&
      forall i, j :: 0 <= i < j < 7 ==> r[i].day != r[j].day
  {
    var r := CarbonChart(logs, dayOf, dateText, today, weekday);
    assert r[6] == PointFor(logs, dayOf, dateText, today, weekday, 0);
    forall i, j | 0 <= i < j < 7 ensures r[i].day != r[j].day {
      assert r[i].day == DayLabel(weekday, 6 - i);
      assert r[j].day == DayLabel(weekday, 6 - j);
      DayLabelsDistinct(weekday, 6 - j, 6 - i);
    }
  }

  /**
   * The chart does not filter by user: any stored log created on a charted
   * day, whoever wrote it, is part of that day's sum.
   */
  lemma ChartCountsEveryLog(logs: seq<Record>, k: nat, dayOf: string -> Option<int>, today: int, back: int)
    requires forall i :: 0 <= i < |logs| ==> Amount(logs[i], "co2kg") >= 0.0
    requires k < |logs| && dayOf(CreatedAt(logs[k])) == Some(today - back)
    ensures Amount(logs[k], "co2kg") <= DayTotal(logs, "co2kg", dayOf, today - back)
  {
    var day := Filter(logs, OnDay(dayOf, today - back));
    FilterMembers(logs, OnDay(dayOf, today - back), logs[k]);
    var j :| 0 <= j < |day| && day[j] == logs[k];
    forall i | 0 <= i < |day| ensures Amount(day[i], "co2kg") >= 0.0 {
      FilterMembers(logs, OnDay(dayOf, today - back), day[i]);
    }
    TotalBoundsEach(day, "co2kg", j);
  }

  // ---------------------------------------------------------------------------
  // The page

  class CarbonTrackerPage {
    var mode: Mode
    var distance: int
    var electricity: int
    var diet: Diet
    var meals: int
    var savedMessage: string
    var chartData: seq<ChartPoint>

    /** The sliders keep distance in 0..100 and electricity in 0..50. */
    predicate Valid()
      reads this
    {
      0 <= distance <= 100 && 0 <= electricity <= 50
    }

    /** The form's total before rounding. */
    function CurrentTotal(): real
      reads this
    {
      TotalCO2(mode, distance, electricity, diet, meals)
    }

    /** `totalCO2`, the two-decimal figure the page shows. */
    function ShownTotal(): real
      reads this
    {
      ToFixed(CurrentTotal(), 100)
    }

    /** Save is disabled while the total reads '0.00'. */
    predicate SaveEnabled()
      reads this
    {
      !ShowsZero(CurrentTotal())
    }

    constructor ()
      ensures Valid()
      ensures mode == Car && distance == 0 && electricity == 0 && diet == Vegetarian && meals == 0
      ensures savedMessage == "" && chartData == []
      ensures !SaveEnabled()
    {
      mode, distance, electricity, diet, meals := Car, 0, 0, Vegetarian, 0;
      savedMessage, chartData := "", [];
      RoundOfInt(0);
    }

    method SetMode(m: Mode)
      requires Valid()
      modifies this
      ensures Valid()
      ensures mode == m && distance == old(distance) && electricity == old(electricity) && diet == old(diet) && meals == old(meals)
      ensures savedMessage == old(savedMessage) && chartData == old(chartData)
    {
      mode := m;
    }

    method SetDistance(km: int)
      requires Valid() && 0 <= km <= 100
      modifies this
      ensures Valid()
      ensures distance == km && mode == old(mode) && electricity == old(electricity) && diet == old(diet) && meals == old(meals)
      ensures savedMessage == old(savedMessage) && chartData == old(chartData)
    {
      distance := km;
    }

    method SetElectricity(kWh: int)
      requires Valid() && 0 <= kWh <= 50
      modifies this
      ensures Valid()
      ensures electricity == kWh && mode == old(mode) && distance == old(distance) && diet == old(diet) && meals == old(meals)
      ensures savedMessage == old(savedMessage) && chartData == old(chartData)
    {
      electricity := kWh;
    }

    method SetDiet(d: Diet)
      requires Valid()
      modifies this
      ensures Valid()
      ensures diet == d && mode == old(mode) && distance == old(distance) && electricity == old(electricity) && meals == old(meals)
      ensures savedMessage == old(savedMessage) && chartData == old(chartData)
    {
      diet := d;
    }

    /** `parseInt(value) || 0`: the parsed number, with NaN (None) taken as 0. */
    method SetMeals(parsed: Option<int>)
      requires Valid()
      modifies this
      ensures Valid()
      ensures parsed.Some? ==> meals == parsed.value
      ensures parsed.None? ==> meals == 0
      ensures mode == old(mode) && distance == old(distance) && electricity == old(electricity) && diet == old(diet)
      ensures savedMessage == old(savedMessage) && chartData == old(chartData)
    {
      meals := if parsed.Some? then parsed.value else 0;
    }

    /**
     * `loadChartData()`: the loop `for (i = 6; i >= 0; i--)` building one
     * entry per day from all stored carbon logs. A collection that is not an
     * array makes the call reject, leaving the chart as it was.
     */
    method LoadChartData(store: Store.LocalStorageService, dayOf: string -> Option<int>, dateText: int -> string,
                         today: int, weekday: int)
      modifies this
      ensures store.Docs("carbonLogs").Some? ==>
        chartData == CarbonChart(store.Docs("carbonLogs").value, dayOf, dateText, today, weekday)
      ensures store.Docs("carbonLogs").None? ==> chartData == old(chartData)
      ensures mode == old(mode) && distance == old(distance) && electricity == old(electricity)
      ensures diet == old(diet) && meals == old(meals) && savedMessage == old(savedMessage)
    {
      var logs := store.Docs("carbonLogs");
      if logs.None? {
        return;
      }
      var data: seq<ChartPoint> := [];
      var i := 6;
      while i >= 0
        invariant -1 <= i <= 6
        invariant |data| == 6 - i
        invariant forall k :: 0 <= k < |data| ==> data[k] == PointFor(logs.value, dayOf, dateText, today, weekday, 6 - k)
      {
        var dayLogs := Filter(logs.value, OnDay(dayOf, today - i));
        var total := Total(dayLogs, "co2kg");
        data := data + [ChartPoint(DayLabel(weekday, i), ToFixed(total, 10), dateText(today - i))];
        i := i - 1;
      }
      chartData := data;
    }

    /** After a save: the confirmation, and the form back to car/0 km, 0 kWh and vegetarian/0 meals. */
    method FormSaved()
      modifies this
      ensures Valid()
      ensures mode == Car && distance == 0 && electricity == 0 && diet == Vegetarian && meals == 0
      ensures savedMessage == SavedMessage && chartData == old(chartData)
    {
      savedMessage := SavedMessage;
      mode, distance, electricity, diet, meals := Car, 0, 0, Vegetarian, 0;
    }

    /**
     * `handleSave()`: appends the log to carbonLogs, shows the confirmation,
     * resets the form and reloads the chart, which then includes the new log
     * when its write happened. Rejects without changes when the collection
     * is not an array.
     */
    method HandleSave(store: Store.LocalStorageService, currentUser: Option<Record>, freshId: string, stamp: string,
                      dayOf: string -> Option<int>, dateText: int -> string, today: int, weekday: int)
      returns (r: Store.Result<Record>, ghost written: bool)
      requires Valid()
      modifies this, store
      ensures Valid()
      ensures old(store.Docs("carbonLogs")).None? ==>
        r == Store.Err(Store.TypeError) && store.storage == old(store.storage) &&
        mode == old(mode) && distance == old(distance) && electricity == old(electricity) &&
        diet == old(diet) && meals == old(meals) && savedMessage == old(savedMessage) && chartData == old(chartData)
      ensures old(store.Docs("carbonLogs")).Some? ==>
        var log := Store.NewDoc(CarbonLog(old(mode), old(distance), old(electricity), old(diet), old(meals), currentUser),
                                freshId, stamp);
        r == Store.Ok(log) &&
        store.storage == Store.Written(old(store.storage), Store.Prefix + "carbonLogs",
                                       Store.Encode(old(store.Docs("carbonLogs")).value + [log]), written) &&
        mode == Car && distance == 0 && electricity == 0 && diet == Vegetarian && meals == 0 &&
        savedMessage == SavedMessage &&
        chartData == CarbonChart(if written then old(store.Docs("carbonLogs")).value + [log] else old(store.Docs("carbonLogs")).value,
                                 dayOf, dateText, today, weekday)
    {
      var log := CarbonLog(mode, distance, electricity, diet, meals, currentUser);
      r, written := store.AddDoc("carbonLogs", log, freshId, stamp);
      if r.Ok? {
        FormSaved();
        LoadChartData(store, dayOf, dateText, today, weekday);
      }
    }
  }
}
