/** The price screen of the earlier app (`com.example…ScreenPriceData`): the
    estimate is hidden before 20:00 rather than when real PVPC prices exist,
    the synthesised estimate is not persisted, and the default view is a
    plain time order. */
module LegacyScreen {
  import opened Base
  import opened Prices
  import opened Ordering
  import opened Bands
  import opened Views

  /** The series on offer, the full `included` list as finally extended, and
      the kind selected first; this screen writes nothing to the store. */
  datatype Screen = Screen(visible: seq<Series>, included: seq<Series>, defaultKind: string)

  /** The screen's set-up at hour `hour`: the estimate is filtered out before
      20:00, from the payload as received; then the synthesised estimate,
      and failing that the cached one, is appended when no estimate is
      present. */
  function Prepare(included: seq<Series>, store: Store, hour: int): (r: Screen)
    ensures r.defaultKind == DefaultKind(r.visible)
    ensures forall s :: s in r.visible <==> s in included && !(s.kind == "pvpc-estimado" && hour < 20)
    ensures r.visible == Offer(included, hour < 20)
  {
    var visible := Offer(included, hour < 20);
    var spot := MarketSeries(included);
    var synthesised :=
      if spot.Some? && !HasKind(included, "pvpc-estimado")
      then included + [ScreenEstimate(spot.value)] else included;
    var withCache :=
      if store.estimate.Some? && !HasKind(synthesised, "pvpc-estimado")
      then synthesised + [store.estimate.value] else synthesised;
    Screen(visible, withCache, DefaultKind(visible))
  }

  /** Before 20:00 no estimate is on offer; from 20:00 on, the offer is the
      payload as received, so the appended estimates are never selectable. */
  lemma EstimateShownFromEight(included: seq<Series>, store: Store, hour: int)
    ensures var r := Prepare(included, store, hour);
      && (hour < 20 ==> !HasKind(r.visible, "pvpc-estimado"))
      && (hour >= 20 ==> r.visible == included)
  {
    if hour >= 20 {
      FilterKeepsAll(included, OnOffer(false));
    }
  }

  /** Without an estimate or a real PVPC series on offer, the kind shown
      first is that of the first series of the payload still on offer. */
  lemma DefaultIsFirstShown(included: seq<Series>, store: Store, hour: int)
    ensures var r := Prepare(included, store, hour);
      var i := FirstIndexWhere(included, OnOffer(hour < 20));
      && (|r.visible| > 0 <==> i != -1)
      && (i != -1 ==> r.visible[0] == included[i])
      && (i != -1 && !HasKind(r.visible, "pvpc-estimado") && !HasKind(r.visible, "pvpc") ==> r.defaultKind == included[i].kind)
  {
    DefaultIsFirstOnOffer(included, hour < 20);
  }

  /** The cached estimate is appended exactly when the payload has neither
      an estimate nor a spot series to synthesise one from. */
  lemma CacheOnlyWithoutSpot(included: seq<Series>, store: Store, hour: int)
    ensures var r := Prepare(included, store, hour);
      && ((MarketSeries(included).None? && !HasKind(included, "pvpc-estimado") && store.estimate.Some?)
            ==> r.included == included + [store.estimate.value])
      && ((MarketSeries(included).Some? && !HasKind(included, "pvpc-estimado"))
            ==> r.included == included + [ScreenEstimate(MarketSeries(included).value)])
      && (HasKind(included, "pvpc-estimado") ==> r.included == included)
  {
    var spot := MarketSeries(included);
    if spot.Some? && !HasKind(included, "pvpc-estimado") {
      var ext := included + [ScreenEstimate(spot.value)];
      assert ext[|included|].kind == "pvpc-estimado";
      assert HasKind(ext, "pvpc-estimado");
    }
  }

  /** The default view: the selected series in time order. The sort parses
      every date-time, and throws at one that does not parse, unless the
      series has at most one point, which `sortedBy` returns as it is. */
  function TimeOrder(points: seq<Point>): (r: Result<seq<Point>>)
    ensures r.Err? <==> |points| >= 2 && exists i :: 0 <= i < |points| && DisplayStamp(points[i].datetime).None?
    ensures r.Ok? ==> multiset(r.value) == multiset(points)
    ensures r.Ok? && |points| >= 2 ==> Chronological(r.value)
  {
    if |points| <= 1 then Ok(points)
    else if exists i :: 0 <= i < |points| && DisplayStamp(points[i].datetime).None? then Err(UnparseableDatetime)
    else
      assert forall i :: 0 <= i < |points| ==> StampOf(points[i]).Some? by {
        forall i | 0 <= i < |points| ensures StampOf(points[i]).Some? {
          assert DisplayStamp(points[i].datetime).Some?;
        }
      }
      SortByTimeIsChronological(points);
      Ok(SortOn(points, TimeKey))
  }

  /** The rows shown for an ordering: nothing without a selected series, else
      the time order, a value order or a band filter of its points. */
  function View(order: Order, selected: Option<Series>): (r: Result<seq<Point>>)
    ensures selected.None? ==> r == Ok([])
    ensures r.Ok? ==> multiset(r.value) <= multiset(if selected.Some? then selected.value.points else [])
    ensures order != InTimeOrder ==> r.Ok?
    ensures selected.Some? ==>
      var points := selected.value.points;
      && (order == InTimeOrder ==> r == TimeOrder(points))
      && (order == CheapestFirst ==> r == Ok(Cheapest(points)))
      && (order == DearestFirst ==> r == Ok(Dearest(points)))
      && (order == OnlyValle ==> r == Ok(BandView(points, Valle)))
      && (order == OnlyLlano ==> r == Ok(BandView(points, Llano)))
      && (order == OnlyPunta ==> r == Ok(BandView(points, Punta)))
  {
    match selected
    case None => Ok([])
    case Some(s) =>
      match order
      case InTimeOrder => TimeOrder(s.points)
      case CheapestFirst => Ok(Cheapest(s.points))
      case DearestFirst => Ok(Dearest(s.points))
      case _ => Ok(BandView(s.points, OrderBand(order)))
  }
}
