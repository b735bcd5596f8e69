/** The appliance optimiser (`calcularHoraOptimizada`): a priority window
    selects the eligible hours, a strategy chosen by its exact label picks the
    hours to walk, and the settlement walk charges the appliance's minutes to
    them. */
module Scheduler {
  import opened Base
  import opened Text
  import opened Prices
  import opened Ordering
  import opened Settlement

  /** A registered appliance (`ConsumptionEntry`): power in watts, priority
      text and daily minutes of use. */
  datatype Appliance = Appliance(power: real, priority: string, usageMinutes: int)

  /** The strategies the optimiser recognises; `Default` is every other label. */
  datatype Strategy = TopThree | NearestCheapest | CheapestOfDay | AvoidPeak | Default

  /** The label each named strategy is selected by. */
  function Label(s: Strategy): string
    requires s != Default
  {
    match s
    case TopThree => "Top 3 horas más baratas"
    case NearestCheapest => "Hora más cercana/barata"
    case CheapestOfDay => "Hora más barata del día"
    case AvoidPeak => "Evitar horas punta (18:00–21:00)"
  }

  /** The `when (estrategia)` dispatch: exact string comparison. */
  function StrategyOf(choice: string): Strategy {
    if choice == Label(TopThree) then TopThree
    else if choice == Label(NearestCheapest) then NearestCheapest
    else if choice == Label(CheapestOfDay) then CheapestOfDay
    else if choice == Label(AvoidPeak) then AvoidPeak
    else Default
  }

  /** Labels and strategies are inverse: each named strategy is selected by
      its label, and a label selects a named strategy only if it is exactly
      that strategy's label. */
  lemma LabelRoundTrip(s: Strategy, choice: string)
    ensures s != Default ==> StrategyOf(Label(s)) == s
    ensures StrategyOf(choice) != Default ==> Label(StrategyOf(choice)) == choice
  {
  }

  /** The labels the optimisation screen offers, in its order. */
  const ScreenLabels: seq<string> := ["Hora más cercana/barata", "Evitar horas punta", "Hora más barata del día"]

  /** The screen's "Evitar horas punta" is not the optimiser's label, so it
      selects the chronological default; the top-3 and avoid-peak strategies
      cannot be chosen from the screen at all. */
  lemma ScreenStrategies()
    ensures StrategyOf(ScreenLabels[0]) == NearestCheapest
    ensures StrategyOf(ScreenLabels[1]) == Default
    ensures StrategyOf(ScreenLabels[2]) == CheapestOfDay
    ensures forall i :: 0 <= i < |ScreenLabels| ==> StrategyOf(ScreenLabels[i]) !in {TopThree, AvoidPeak}
  {
    assert ScreenLabels[1] != Label(AvoidPeak) by {
      assert |ScreenLabels[1]| < |Label(AvoidPeak)|;
    }
  }

  datatype Priority = High | Medium | AnyHour

  /** `prioridad.uppercase()` matched against "ALTA" and "MEDIA". */
  function PriorityOf(text: string): Priority {
    var up := Upper(text);
    if up == "ALTA" then High else if up == "MEDIA" then Medium else AnyHour
  }

  /** The hours of day a priority admits. */
  predicate InWindow(prio: Priority, hour: int) {
    match prio
    case High => 7 <= hour <= 22
    case Medium => 6 <= hour <= 23
    case AnyHour => true
  }

  /** The priority text is read without regard to case: any text, its
      lower case and its upper case name the same priority. */
  lemma PriorityIgnoresCase(text: string)
    ensures PriorityOf(text) == PriorityOf(Lower(text))
    ensures PriorityOf(text) == PriorityOf(Upper(text))
  {
    UpperForgetsCase(text);
  }

  /** The spellings the settings offer, in any case, and everything else. */
  lemma PrioritySpellings()
    ensures PriorityOf("alta") == High && PriorityOf("Alta") == High && PriorityOf("ALTA") == High
    ensures PriorityOf("media") == Medium && PriorityOf("Media") == Medium
    ensures PriorityOf("baja") == AnyHour && PriorityOf("") == AnyHour
  {
    assert Upper("alta") == "ALTA";
    assert Upper("Alta") == "ALTA";
    assert Upper("ALTA") == "ALTA";
    assert Upper("media") == "MEDIA";
    assert Upper("Media") == "MEDIA";
    assert Upper("baja") == "BAJA";
  }

  /** A point the optimiser may start from: its date-time parses and its hour
      lies in the priority window. */
  predicate Admits(prio: Priority, p: Point) {
    ClockOf(p).Some? && InWindow(prio, HourOf(p))
  }

  /** `horasValidas`: the points that parse and fall in the priority window,
      in series order. */
  function Eligible(prio: Priority, series: seq<Point>): (r: seq<Point>)
    ensures forall p :: p in r <==> p in series && Admits(prio, p)
    ensures multiset(r) <= multiset(series)
  {
    Filter(series, AdmittedBy(prio))
  }

  function AdmittedBy(prio: Priority): Point -> bool {
    (p: Point) => Admits(prio, p)
  }

  /** `filter` keeps the series order: the eligible points of a concatenation
      are those of each part in turn, and a single point is eligible exactly
      when it is admitted. */
  lemma EligibleInSeriesOrder(prio: Priority, a: seq<Point>, b: seq<Point>, p: Point)
    ensures Eligible(prio, a + b) == Eligible(prio, a) + Eligible(prio, b)
    ensures Eligible(prio, [p]) == if Admits(prio, p) then [p] else []
    ensures forall q :: multiset(Eligible(prio, a))[q] == if Admits(prio, q) then multiset(a)[q] else 0
  {
    FilterAppend(a, b, AdmittedBy(prio));
    FilterSingle(p, AdmittedBy(prio));
    FilterCount(a, AdmittedBy(prio));
  }

  function Price(p: Point): real {
    p.value
  }

  /** `hourlyPrices.drop(indexOfFirst { it.datetime == start.datetime })`, or
      nothing when no point carries that date-time. */
  function FromFirstMatch(series: seq<Point>, start: Point): (r: seq<Point>)
    ensures start in series ==> |r| > 0 && r[0].datetime == start.datetime
    ensures |r| <= |series| && r == series[|series| - |r|..]
    ensures |r| > 0 ==> forall j :: 0 <= j < |series| - |r| ==> series[j].datetime != start.datetime
  {
    var k := FirstIndexWhere(series, (q: Point) => q.datetime == start.datetime);
    if k == -1 then [] else series[k..]
  }

  /** The points of `elig` whose hour is at least `nowHour` (`futuras`). */
  function Upcoming(elig: seq<Point>, nowHour: int): (r: seq<Point>)
    ensures forall p :: p in r <==> p in elig && HourOf(p) >= nowHour
  {
    Filter(elig, AtOrAfter(nowHour))
  }

  function AtOrAfter(nowHour: int): Point -> bool {
    (p: Point) => HourOf(p) >= nowHour
  }

  /** The upcoming points keep the order of the points they are drawn from. */
  lemma UpcomingInOrder(a: seq<Point>, b: seq<Point>, p: Point, nowHour: int)
    ensures Upcoming(a + b, nowHour) == Upcoming(a, nowHour) + Upcoming(b, nowHour)
    ensures Upcoming([p], nowHour) == if HourOf(p) >= nowHour then [p] else []
    ensures forall q :: multiset(Upcoming(a, nowHour))[q] == if HourOf(q) >= nowHour then multiset(a)[q] else 0
  {
    FilterAppend(a, b, AtOrAfter(nowHour));
    FilterSingle(p, AtOrAfter(nowHour));
    FilterCount(a, AtOrAfter(nowHour));
  }

  /** The points outside the evening peak, hours 18 to 20 (`fueraDePunta`). */
  function OffPeak(elig: seq<Point>): (r: seq<Point>)
    ensures forall p :: p in r <==> p in elig && !(18 <= HourOf(p) <= 20)
  {
    Filter(elig, OutsidePeak)
  }

  predicate OutsidePeak(p: Point) {
    !(18 <= HourOf(p) <= 20)
  }

  /** The off-peak points keep the order of the points they are drawn from. */
  lemma OffPeakInOrder(a: seq<Point>, b: seq<Point>, p: Point)
    ensures OffPeak(a + b) == OffPeak(a) + OffPeak(b)
    ensures OffPeak([p]) == if 18 <= HourOf(p) <= 20 then [] else [p]
    ensures forall q :: multiset(OffPeak(a))[q] == if 18 <= HourOf(q) <= 20 then 0 else multiset(a)[q]
  {
    FilterAppend(a, b, OutsidePeak);
    FilterSingle(p, OutsidePeak);
    FilterCount(a, OutsidePeak);
  }

  /** The walk that starts at the series' first point carrying the date-time
      of the first cheapest candidate, or nothing without candidates. */
  function FromCheapest(series: seq<Point>, candidates: seq<Point>): (r: seq<Point>)
    ensures |r| <= |series| && r == series[|series| - |r|..]
  {
    var sorted := SortOn(candidates, Price);
    if |sorted| == 0 then [] else FromFirstMatch(series, sorted[0])
  }

  /** The (at most) three cheapest points, put back in chronological order. */
  function CheapestThree(elig: seq<Point>): seq<Point> {
    SortOn(Take(SortOn(elig, Price), 3), TimeKey)
  }

  /** The walk from the first cheapest upcoming point (`minByOrNull`). */
  function FromNearest(series: seq<Point>, later: seq<Point>): (r: seq<Point>)
    ensures |r| <= |series| && r == series[|series| - |r|..]
  {
    if |later| == 0 then [] else FromFirstMatch(series, later[FirstMinIndex(later, Price)])
  }

  /** All the points in chronological order. */
  function InTimeOrder(elig: seq<Point>): seq<Point> {
    SortOn(elig, TimeKey)
  }

  /** The hours a strategy that starts from one chosen point walks: the rest
      of the series from that point on. */
  function Walked(strategy: Strategy, elig: seq<Point>, nowHour: int, series: seq<Point>): (r: seq<Point>)
    ensures |r| <= |series| && r == series[|series| - |r|..]
  {
    match strategy
    case NearestCheapest => FromNearest(series, Upcoming(elig, nowHour))
    case AvoidPeak => FromCheapest(series, OffPeak(elig))
    case _ => FromCheapest(series, elig)
  }

  /** The hours each strategy walks. */
  function Plan(strategy: Strategy, prio: Priority, nowHour: int, series: seq<Point>): seq<Point> {
    var elig := Eligible(prio, series);
    match strategy
    case TopThree => CheapestThree(elig)
    case Default => InTimeOrder(elig)
    case _ => Walked(strategy, elig, nowHour, series)
  }

  /** `calcularHoraOptimizada`: the suggested hours with their costs, or the
      exception the walk raises on an hour whose date-time does not parse. */
  function Schedule(choice: string, appliance: Appliance, nowHour: int, series: seq<Point>): Result<seq<Slice>> {
    Settle(Plan(StrategyOf(choice), PriorityOf(appliance.priority), nowHour, series), appliance.usageMinutes, appliance.power)
  }

  /** Points with the same date-time are admitted alike. */
  lemma AdmitsByDatetime(prio: Priority, p: Point, q: Point)
    requires p.datetime == q.datetime
    ensures ClockOf(p) == ClockOf(q) && HourOf(p) == HourOf(q)
    ensures Admits(prio, p) <==> Admits(prio, q)
  {
    assert StampOf(p) == StampOf(q);
  }

  /** The three cheapest points: at most three, drawn from `elig`, and no
      point left out is cheaper than one kept. */
  lemma CheapestThreeAreCheapest(elig: seq<Point>)
    ensures var top := CheapestThree(elig);
      && |top| == Min(3, |elig|)
      && multiset(top) <= multiset(elig)
      && (forall x, y :: x in top && y in multiset(elig) - multiset(top) ==> x.value <= y.value)
  {
    var first := Take(SortOn(elig, Price), 3);
    var top := CheapestThree(elig);
    assert multiset(top) == multiset(first);
    TakeSmallest(elig, Price, 3);
    forall x | x in top ensures x in first {
      assert x in multiset(first);
    }
  }

  /** The three cheapest points are put back in chronological order. */
  lemma CheapestThreeInTimeOrder(elig: seq<Point>)
    requires forall i :: 0 <= i < |elig| ==> StampOf(elig[i]).Some?
    ensures Chronological(CheapestThree(elig))
  {
    var sorted := SortOn(elig, Price);
    var first := Take(sorted, 3);
    forall i | 0 <= i < |first| ensures StampOf(first[i]).Some? {
      assert first[i] == sorted[i];
      assert sorted[i] in multiset(elig);
    }
    SortByTimeIsChronological(first);
  }

  /** Every eligible point parses. */
  lemma EligibleParse(prio: Priority, series: seq<Point>)
    ensures forall i :: 0 <= i < |Eligible(prio, series)| ==> Admits(prio, Eligible(prio, series)[i]) && StampOf(Eligible(prio, series)[i]).Some?
  {
    var elig := Eligible(prio, series);
    forall i | 0 <= i < |elig| ensures Admits(prio, elig[i]) {
      assert elig[i] in elig;
    }
  }

  /** "Top 3 horas más baratas": the (at most) three cheapest eligible points,
      no eligible point left out being cheaper, walked in chronological order. */
  lemma TopThreePlan(prio: Priority, nowHour: int, series: seq<Point>)
    ensures var elig, plan := Eligible(prio, series), Plan(TopThree, prio, nowHour, series);
      && |plan| == Min(3, |elig|)
      && (forall p :: p in plan ==> p in series && Admits(prio, p))
      && (forall x, y :: x in plan && y in multiset(elig) - multiset(plan) ==> x.value <= y.value)
      && Chronological(plan)
  {
    var elig := Eligible(prio, series);
    EligibleParse(prio, series);
    CheapestThreeAreCheapest(elig);
    CheapestThreeInTimeOrder(elig);
    var plan := CheapestThree(elig);
    forall p | p in plan ensures p in series && Admits(prio, p) {
      assert p in multiset(elig);
    }
  }

  /** The eligible points, in time order, are the eligible points. */
  lemma InTimeOrderAdmitted(prio: Priority, series: seq<Point>)
    ensures var elig := Eligible(prio, series);
      && multiset(InTimeOrder(elig)) == multiset(elig)
      && (forall p :: p in InTimeOrder(elig) ==> p in series && Admits(prio, p))
  {
    var elig := Eligible(prio, series);
    forall p | p in InTimeOrder(elig) ensures p in series && Admits(prio, p) {
      assert p in multiset(elig);
    }
  }

  /** The default strategy walks every eligible point, in chronological order. */
  lemma DefaultPlan(prio: Priority, nowHour: int, series: seq<Point>)
    ensures var elig, plan := Eligible(prio, series), Plan(Default, prio, nowHour, series);
      && multiset(plan) == multiset(elig)
      && (forall p :: p in plan ==> p in series && Admits(prio, p))
      && Chronological(plan)
  {
    var elig := Eligible(prio, series);
    assert Plan(Default, prio, nowHour, series) == InTimeOrder(elig);
    InTimeOrderAdmitted(prio, series);
    EligibleParse(prio, series);
    SortByTimeIsChronological(elig);
  }

  /** "Hora más barata del día": when an eligible point exists, the walk
      starts at the series' first point with the date-time of the first
      cheapest eligible point, so that first hour is admitted; otherwise
      nothing is walked. */
  lemma CheapestOfDayStart(prio: Priority, nowHour: int, series: seq<Point>)
    ensures var elig, plan := Eligible(prio, series), Plan(CheapestOfDay, prio, nowHour, series);
      && (|plan| > 0 <==> |elig| > 0)
      && (|elig| > 0 ==>
            var start := elig[FirstMinIndex(elig, Price)];
            && plan == FromFirstMatch(series, start)
            && plan[0].datetime == start.datetime
            && (forall q :: q in elig ==> start.value <= q.value)
            && Admits(prio, plan[0]))
  {
    var elig := Eligible(prio, series);
    var plan := Plan(CheapestOfDay, prio, nowHour, series);
    assert plan == FromCheapest(series, elig);
    FromCheapestStarts(series, elig);
    if |elig| > 0 {
      AdmitsByDatetime(prio, plan[0], elig[FirstMinIndex(elig, Price)]);
    }
  }

  /** The walk from the cheapest of candidates drawn from the series starts
      at the first cheapest candidate's date-time, and is empty only without
      candidates. */
  lemma FromCheapestStarts(series: seq<Point>, candidates: seq<Point>)
    requires forall p :: p in candidates ==> p in series
    ensures var walk := FromCheapest(series, candidates);
      && (|walk| > 0 <==> |candidates| > 0)
      && (|candidates| > 0 ==>
            var start := candidates[FirstMinIndex(candidates, Price)];
            && walk == FromFirstMatch(series, start)
            && walk[0].datetime == start.datetime
            && (forall q :: q in candidates ==> start.value <= q.value))
  {
    if |candidates| > 0 {
      SortHeadIsFirstMin(candidates, Price);
      var start := candidates[FirstMinIndex(candidates, Price)];
      assert start in series;
    }
  }

  /** "Evitar horas punta (18:00–21:00)": as the cheapest-of-day strategy,
      over the eligible points outside hours 18 to 20; the first hour walked
      is admitted and outside the peak. */
  lemma AvoidPeakStart(prio: Priority, nowHour: int, series: seq<Point>)
    ensures var off, plan := OffPeak(Eligible(prio, series)), Plan(AvoidPeak, prio, nowHour, series);
      && (|plan| > 0 <==> |off| > 0)
      && (|off| > 0 ==>
            var start := off[FirstMinIndex(off, Price)];
            && plan == FromFirstMatch(series, start)
            && plan[0].datetime == start.datetime
            && (forall q :: q in off ==> start.value <= q.value)
            && Admits(prio, plan[0]) && !(18 <= HourOf(plan[0]) <= 20))
  {
    var off := OffPeak(Eligible(prio, series));
    assert Plan(AvoidPeak, prio, nowHour, series) == FromCheapest(series, off);
    FromCheapestStarts(series, off);
    OffPeakWalkFirstHour(prio, series);
  }

  /** The first hour walked from the cheapest off-peak eligible point is
      admitted and outside the peak. */
  lemma OffPeakWalkFirstHour(prio: Priority, series: seq<Point>)
    ensures var walk := FromCheapest(series, OffPeak(Eligible(prio, series)));
      |walk| > 0 ==> Admits(prio, walk[0]) && !(18 <= HourOf(walk[0]) <= 20)
  {
    var off := OffPeak(Eligible(prio, series));
    var walk := FromCheapest(series, off);
    FromCheapestStarts(series, off);
    if |walk| > 0 {
      OffPeakByDatetime(prio, series, walk[0], off[FirstMinIndex(off, Price)]);
    }
  }

  /** A point with the date-time of an off-peak eligible point is admitted
      and outside the peak. */
  lemma OffPeakByDatetime(prio: Priority, series: seq<Point>, p: Point, q: Point)
    requires q in OffPeak(Eligible(prio, series)) && p.datetime == q.datetime
    ensures Admits(prio, p) && !(18 <= HourOf(p) <= 20)
  {
    AdmitsByDatetime(prio, p, q);
  }

  /** "Hora más cercana/barata": when an eligible point at or after the
      current hour exists, the walk starts at the series' first point with the
      date-time of the first cheapest such point (the start is always found,
      being drawn from the series itself); otherwise nothing is walked. */
  lemma NearestStart(prio: Priority, nowHour: int, series: seq<Point>)
    ensures var later, plan := Upcoming(Eligible(prio, series), nowHour), Plan(NearestCheapest, prio, nowHour, series);
      && (forall p :: p in later <==> p in series && Admits(prio, p) && HourOf(p) >= nowHour)
      && (|plan| > 0 <==> |later| > 0)
      && (|later| > 0 ==>
            var start := later[FirstMinIndex(later, Price)];
            && plan == FromFirstMatch(series, start)
            && plan[0].datetime == start.datetime
            && (forall q :: q in later ==> start.value <= q.value)
            && Admits(prio, plan[0]) && HourOf(plan[0]) >= nowHour)
  {
    var later := Upcoming(Eligible(prio, series), nowHour);
    if |later| > 0 {
      var start := later[FirstMinIndex(later, Price)];
      assert start in series;
      AdmitsByDatetime(prio, Plan(NearestCheapest, prio, nowHour, series)[0], start);
    }
  }

  /** Every strategy walks points of the series only: a sub-multiset of the
      eligible points, or a suffix of the whole series. */
  lemma PlanWithinSeries(strategy: Strategy, prio: Priority, nowHour: int, series: seq<Point>)
    ensures forall p :: p in Plan(strategy, prio, nowHour, series) ==> p in series
  {
    match strategy
    case TopThree => DrawnPlanWithin(TopThree, prio, nowHour, series);
    case Default => DrawnPlanWithin(Default, prio, nowHour, series);
    case NearestCheapest => WalkedWithin(NearestCheapest, Eligible(prio, series), nowHour, series);
    case CheapestOfDay => WalkedWithin(CheapestOfDay, Eligible(prio, series), nowHour, series);
    case AvoidPeak => WalkedWithin(AvoidPeak, Eligible(prio, series), nowHour, series);
  }

  /** A walk is a suffix of the series, so it holds points of the series
      only. */
  lemma WalkedWithin(strategy: Strategy, elig: seq<Point>, nowHour: int, series: seq<Point>)
    ensures forall p :: p in Walked(strategy, elig, nowHour, series) ==> p in series
  {
    SuffixWithin(series, Walked(strategy, elig, nowHour, series));
  }

  /** The strategies that rearrange eligible points walk points of the
      series only. */
  lemma DrawnPlanWithin(strategy: Strategy, prio: Priority, nowHour: int, series: seq<Point>)
    requires strategy == TopThree || strategy == Default
    ensures forall p :: p in Plan(strategy, prio, nowHour, series) ==> p in series
  {
    if strategy == TopThree {
      TopThreePlan(prio, nowHour, series);
    } else {
      DefaultPlan(prio, nowHour, series);
    }
  }

  /** Points drawn from points of the series are points of the series. */
  lemma DrawnWithin(series: seq<Point>, elig: seq<Point>, walk: seq<Point>)
    requires multiset(walk) <= multiset(elig)
    requires forall p :: p in elig ==> p in series
    ensures forall p :: p in walk ==> p in series
  {
    forall p | p in walk ensures p in series {
      assert p in multiset(elig);
    }
  }

  /** A suffix of the series holds points of the series only. */
  lemma SuffixWithin(series: seq<Point>, walk: seq<Point>)
    requires |walk| <= |series| && walk == series[|series| - |walk|..]
    ensures forall p :: p in walk ==> p in series
  {
    forall p | p in walk ensures p in series {
      var i :| 0 <= i < |walk| && walk[i] == p;
      assert series[|series| - |walk| + i] == p;
    }
  }

  /** With no prices there is nothing to suggest, whatever the strategy. */
  lemma EmptySeries(choice: string, appliance: Appliance, nowHour: int)
    ensures Schedule(choice, appliance, nowHour, []) == Ok([])
  {
    var prio := PriorityOf(appliance.priority);
    assert Eligible(prio, []) == [];
    assert Plan(StrategyOf(choice), prio, nowHour, []) == [];
  }

  /** The schedule walks the plan: it fails only on an unparseable hour
      reached while minutes remain, and otherwise places `min(minutes, 60·n)`
      minutes over the first hours of the plan, each at its own price. */
  lemma ScheduleWalksPlan(choice: string, appliance: Appliance, nowHour: int, series: seq<Point>)
    ensures var plan := Plan(StrategyOf(choice), PriorityOf(appliance.priority), nowHour, series);
      var r := Schedule(choice, appliance, nowHour, series);
      && (r.Ok? ==>
            && |r.value| <= |plan|
            && TotalMinutes(r.value) == Allotted(|plan|, appliance.usageMinutes)
            && (forall i :: 0 <= i < |r.value| ==>
                 ClockOf(plan[i]) == Some(r.value[i].at)
                 && r.value[i].cost == Cost(plan[i].value, appliance.power, r.value[i].minutes)))
      && (appliance.usageMinutes <= 0 ==> r == Ok([]))
  {
    var plan := Plan(StrategyOf(choice), PriorityOf(appliance.priority), nowHour, series);
    SettleShape(plan, appliance.usageMinutes, appliance.power);
  }

  /** The strategies that walk only eligible points never fail, and every
      hour they suggest lies in the priority window; top-3 suggests at most
      three hours. */
  lemma WindowedStrategiesRespectPriority(choice: string, appliance: Appliance, nowHour: int, series: seq<Point>)
    requires StrategyOf(choice) in {TopThree, Default}
    ensures var r := Schedule(choice, appliance, nowHour, series);
      && r.Ok?
      && (forall i :: 0 <= i < |r.value| ==> InWindow(PriorityOf(appliance.priority), r.value[i].at.hour))
      && (StrategyOf(choice) == TopThree ==> |r.value| <= 3)
  {
    var prio := PriorityOf(appliance.priority);
    var plan := Plan(StrategyOf(choice), prio, nowHour, series);
    assert forall i :: 0 <= i < |plan| ==> Admits(prio, plan[i]) by {
      if StrategyOf(choice) == TopThree {
        TopThreePlan(prio, nowHour, series);
      } else {
        DefaultPlan(prio, nowHour, series);
      }
      forall i | 0 <= i < |plan| ensures Admits(prio, plan[i]) {
        assert plan[i] in plan;
      }
    }
    assert StrategyOf(choice) == TopThree ==> |plan| <= 3 by {
      if StrategyOf(choice) == TopThree {
        TopThreePlan(prio, nowHour, series);
      }
    }
    assert Schedule(choice, appliance, nowHour, series) == Settle(plan, appliance.usageMinutes, appliance.power);
    SettleOverParsed(plan, appliance.usageMinutes, appliance.power);
    var r := Settle(plan, appliance.usageMinutes, appliance.power);
    forall i | 0 <= i < |r.value| ensures InWindow(prio, r.value[i].at.hour) {
      assert Admits(prio, plan[i]);
    }
  }
}
