/** The optimisation view-model's choice of the hourly prices it schedules
    with (`loadHourlyPrices`), and the latest-prices summary it reads from the
    store (`loadLatestPrices`). */
module Resolution {
  import opened Base
  import opened Text
  import opened Calendar
  import opened Prices
  import Worker

  /** Where the hourly prices came from (`tarifaFuente`). */
  datatype Source = MarketPvpc | CachedEstimate | Unknown | Failed

  function SourceLabel(s: Source): string {
    match s
    case MarketPvpc => "Precio mercado PVPC"
    case CachedEstimate => "Tarifa PVPC (estimado)"
    case Unknown => "Desconocido"
    case Failed => "Error"
  }

  /** The prices the scheduler is given, and their source. */
  datatype Resolved = Resolved(points: seq<Point>, source: Source)

  /** A point dated `day`: its date-time starts with the `yyyy-MM-dd` text. */
  predicate OfDay(p: Point, day: string) {
    |p.datetime| >= 10 && p.datetime[..10] == day
  }

  /** A date-time too short for `substring(0, 10)`. */
  predicate Short(p: Point) {
    |p.datetime| < 10
  }

  /** `values.any { esDeHoy(it.datetime) }`: the scan stops at the first point
      dated `day`, and throws at a date-time too short to hold a date if it
      reaches one first. */
  function AnyOfDay(points: seq<Point>, day: string): (r: Result<bool>)
    ensures r.Err? <==> exists i :: 0 <= i < |points| && Short(points[i]) && forall j :: 0 <= j < i ==> !OfDay(points[j], day)
    ensures r.Ok? ==> (r.value <==> exists i :: 0 <= i < |points| && OfDay(points[i], day))
  {
    if |points| == 0 then Ok(false)
    else if Short(points[0]) then Err(IndexOutOfBounds)
    else if points[0].datetime[..10] == day then Ok(true)
    else
      var r := AnyOfDay(points[1..], day);
      assert forall i :: 1 <= i < |points| ==> points[i] == points[1..][i - 1];
      r
  }

  /** The real PVPC series: the first whose id contains "pvpc" but not
      "pvpc-estimado", ignoring case. */
  function RealPvpc(included: seq<Series>): Option<Series> {
    FirstWhere(included, (s: Series) => ContainsIgnoreCase(s.id, "pvpc") && !ContainsIgnoreCase(s.id, "pvpc-estimado"))
  }

  /** Whether an optional series has a point dated `day` (false when absent). */
  function SeriesOfDay(s: Option<Series>, day: string): Result<bool> {
    match s
    case None => Ok(false)
    case Some(series) => AnyOfDay(series.points, day)
  }

  /** The day whose prices are wanted, as `yyyy-MM-dd`: tomorrow from 20:00 on. */
  function TargetDay(hour: int, today: Date): string
    requires Valid(today)
  {
    Iso(DisplayDay(hour, today))
  }

  /** `loadHourlyPrices` once the request has completed (`None` when it
      failed): the real PVPC series if it has a point of the target day, else
      the cached estimate if it has one, else nothing ("Desconocido"); any
      exception gives nothing ("Error"). */
  function Resolve(hour: int, today: Date, fetched: Option<Payload>, store: Store): (r: Resolved)
    requires Valid(today)
    ensures r.source == Failed || r.source == Unknown ==> r.points == []
    ensures fetched.None? ==> r.source == Failed
    ensures r.source == MarketPvpc ==>
      && fetched.Some? && RealPvpc(fetched.value.included.GetOr([])).Some?
      && r.points == RealPvpc(fetched.value.included.GetOr([])).value.points
      && exists i :: 0 <= i < |r.points| && OfDay(r.points[i], TargetDay(hour, today))
    ensures r.source == CachedEstimate ==>
      && store.estimate.Some? && r.points == store.estimate.value.points
      && (exists i :: 0 <= i < |r.points| && OfDay(r.points[i], TargetDay(hour, today)))
      && SeriesOfDay(RealPvpc(fetched.value.included.GetOr([])), TargetDay(hour, today)) == Ok(false)
    ensures r.source == Unknown ==>
      && SeriesOfDay(RealPvpc(fetched.value.included.GetOr([])), TargetDay(hour, today)) == Ok(false)
      && SeriesOfDay(store.estimate, TargetDay(hour, today)) == Ok(false)
    ensures var day := TargetDay(hour, today);
      var cached := SeriesOfDay(store.estimate, day);
      && (r.source == Failed <==>
            fetched.None? || SeriesOfDay(RealPvpc(fetched.value.included.GetOr([])), day).Err? || cached.Err?)
      && (r.source == MarketPvpc <==>
            fetched.Some? && SeriesOfDay(RealPvpc(fetched.value.included.GetOr([])), day) == Ok(true) && cached.Ok?)
      && (r.source == CachedEstimate <==>
            fetched.Some? && SeriesOfDay(RealPvpc(fetched.value.included.GetOr([])), day) == Ok(false) && cached == Ok(true))
      && (r.source == Unknown <==>
            fetched.Some? && SeriesOfDay(RealPvpc(fetched.value.included.GetOr([])), day) == Ok(false) && cached == Ok(false))
  {
    var day := TargetDay(hour, today);
    match fetched
    case None => Resolved([], Failed)
    case Some(p) =>
      var market := RealPvpc(p.included.GetOr([]));
      var realToday := SeriesOfDay(market, day);
      var cachedToday := SeriesOfDay(store.estimate, day);
      if realToday.Err? || cachedToday.Err? then Resolved([], Failed)
      else if realToday.value then Resolved(market.value.points, MarketPvpc)
      else if cachedToday.value then Resolved(store.estimate.value.points, CachedEstimate)
      else Resolved([], Unknown)
  }

  /** Over well-formed date-times the chain never fails once the request has
      succeeded, and the real PVPC series wins whenever it has a point of the
      target day. */
  lemma RealPvpcFirst(hour: int, today: Date, p: Payload, store: Store)
    requires Valid(today)
    requires RealPvpc(p.included.GetOr([])).Some?
    requires var market := RealPvpc(p.included.GetOr([])).value.points;
      (forall i :: 0 <= i < |market| ==> !Short(market[i]))
      && exists i :: 0 <= i < |market| && OfDay(market[i], TargetDay(hour, today))
    requires store.estimate.Some? ==> forall i :: 0 <= i < |store.estimate.value.points| ==> !Short(store.estimate.value.points[i])
    ensures Resolve(hour, today, Some(p), store) == Resolved(RealPvpc(p.included.GetOr([])).value.points, MarketPvpc)
  {
  }

  /** The estimate a worker run caches is what the optimisation screen falls
      back to: when a later payload has no real PVPC series, the prices
      scheduled with are the synthesised spot prices, provided one of them is
      dated the target day and all date-times hold a date. */
  lemma CachedEstimateRoundTrip(today: Date, todayAgain: Date, fetchedByWorker: Payload, store: Store, offset: real,
                                hour: int, later: Payload)
    requires Valid(today)
    requires Worker.NeedsEstimate(fetchedByWorker.included.GetOr([]))
    requires var spot := Worker.SpotPoints(fetchedByWorker.included.GetOr([]));
      (forall i :: 0 <= i < |spot| ==> !Short(spot[i]))
      && exists i :: 0 <= i < |spot| && OfDay(spot[i], TargetDay(hour, today))
    requires RealPvpc(later.included.GetOr([])).None?
    ensures var stored := Worker.DoWork(today, todayAgain, Some(fetchedByWorker), store, offset).store;
      Resolve(hour, today, Some(later), stored)
        == Resolved(Shift(Worker.SpotPoints(fetchedByWorker.included.GetOr([])), offset), CachedEstimate)
  {
    var included := fetchedByWorker.included.GetOr([]);
    var spot := Worker.SpotPoints(included);
    var day := TargetDay(hour, today);
    var stored := Worker.DoWork(today, todayAgain, Some(fetchedByWorker), store, offset).store;
    var e := Worker.Synthesise(Worker.SpotSeries(included).value, offset);
    assert stored.estimate == Some(e) by {
      Worker.WorkerSynthesis(today, todayAgain, fetchedByWorker, store, offset);
    }
    assert e.points == Shift(spot, offset);
    ShiftKeepsDays(spot, offset, day);
    CacheResolves(hour, today, later, stored);
  }

  /** Without a real PVPC series, a cached estimate with a point of the
      target day is what the chain resolves to. */
  lemma CacheResolves(hour: int, today: Date, later: Payload, stored: Store)
    requires Valid(today)
    requires stored.estimate.Some? && AnyOfDay(stored.estimate.value.points, TargetDay(hour, today)) == Ok(true)
    requires RealPvpc(later.included.GetOr([])).None?
    ensures Resolve(hour, today, Some(later), stored) == Resolved(stored.estimate.value.points, CachedEstimate)
  {
  }

  /** Shifting values keeps every date-time, so the scan for a day answers
      the same. */
  lemma ShiftKeepsDays(points: seq<Point>, offset: real, day: string)
    requires (forall i :: 0 <= i < |points| ==> !Short(points[i]))
    requires exists i :: 0 <= i < |points| && OfDay(points[i], day)
    ensures AnyOfDay(Shift(points, offset), day) == Ok(true)
  {
    var shifted := Shift(points, offset);
    var i :| 0 <= i < |points| && OfDay(points[i], day);
    assert OfDay(shifted[i], day);
    assert forall j :: 0 <= j < |shifted| ==> !Short(shifted[j]) by {
      forall j | 0 <= j < |shifted| ensures !Short(shifted[j]) {
        assert shifted[j].datetime == points[j].datetime;
      }
    }
    var r := AnyOfDay(shifted, day);
    assert r.Ok?;
    assert r.value;
  }

  /** `loadLatestPrices`: the stored spot and PVPC prices, per kWh, each
      present only when the stored value (read with the default -1) is
      positive. */
  function LatestPrices(store: Store): (m: map<string, real>)
    ensures m.Keys <= {"SPOT", "PVPC"}
    ensures "SPOT" in m <==> store.spot.GetOr(-1.0) > 0.0
    ensures "PVPC" in m <==> store.pvpc.GetOr(-1.0) > 0.0
    ensures "SPOT" in m ==> m["SPOT"] * 1000.0 == store.spot.value
    ensures "PVPC" in m ==> m["PVPC"] * 1000.0 == store.pvpc.value
  {
    var spot: map<string, real> := if store.spot.GetOr(-1.0) > 0.0 then map["SPOT" := store.spot.value / 1000.0] else map[];
    if store.pvpc.GetOr(-1.0) > 0.0 then spot["PVPC" := store.pvpc.value / 1000.0] else spot
  }
}
