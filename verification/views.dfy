/** The pieces the two price screens share: choosing the series on show, the
    spot-based PVPC estimate they synthesise, and the value-ordered and
    band-filtered views of the selected series. */
module Views {
  import opened Base
  import opened Text
  import opened Prices
  import opened Ordering
  import opened Bands

  /** The ordering picked in the screen's menu. */
  datatype Order = InTimeOrder | CheapestFirst | DearestFirst | OnlyValle | OnlyLlano | OnlyPunta

  /** Whether some series of `list` has the kind (`type`) `kind`. */
  predicate HasKind(list: seq<Series>, kind: string) {
    exists i :: 0 <= i < |list| && list[i].kind == kind
  }

  /** The kind shown first: the estimate, else the real PVPC, else the first
      kind on offer, else nothing. The choice is always one of the kinds on
      offer when there are any. */
  function DefaultKind(visible: seq<Series>): (k: string)
    ensures |visible| == 0 ==> k == ""
    ensures |visible| > 0 ==> HasKind(visible, k)
    ensures k == "pvpc-estimado" <==> HasKind(visible, "pvpc-estimado")
    ensures !HasKind(visible, "pvpc-estimado") && HasKind(visible, "pvpc") ==> k == "pvpc"
    ensures !HasKind(visible, "pvpc-estimado") && !HasKind(visible, "pvpc") && |visible| > 0 ==> k == visible[0].kind
  {
    if Any(visible, (s: Series) => s.kind == "pvpc-estimado") then "pvpc-estimado"
    else if Any(visible, (s: Series) => s.kind == "pvpc") then "pvpc"
    else if |visible| == 0 then ""
    else visible[0].kind
  }

  /** `tiposFiltrados.find { it.type == selectedType }`. */
  function Selected(visible: seq<Series>, kind: string): (r: Option<Series>)
    ensures r.Some? <==> HasKind(visible, kind)
    ensures r.Some? ==> r.value in visible && r.value.kind == kind
    ensures r.Some? ==> exists i :: 0 <= i < |visible| && visible[i] == r.value && forall j :: 0 <= j < i ==> visible[j].kind != kind
  {
    FirstWhere(visible, (s: Series) => s.kind == kind)
  }

  /** Whether series `s` stays on offer: every series does, except one of
      the estimate's kind when estimates are `hidden`. */
  function OnOffer(hidden: bool): Series -> bool {
    (s: Series) => !(s.kind == "pvpc-estimado" && hidden)
  }

  /** The series on offer from `list`: the screens' filter on the estimate. */
  function Offer(list: seq<Series>, hidden: bool): (r: seq<Series>)
    ensures forall s :: s in r <==> s in list && !(s.kind == "pvpc-estimado" && hidden)
    ensures hidden ==> !HasKind(r, "pvpc-estimado")
  {
    Filter(list, OnOffer(hidden))
  }

  /** The offer keeps the list's order and multiplicities: it distributes
      over concatenation, a single series stays exactly when it is on offer,
      and with nothing hidden the offer is the whole list. */
  lemma OfferInListOrder(a: seq<Series>, b: seq<Series>, s: Series, hidden: bool)
    ensures Offer(a + b, hidden) == Offer(a, hidden) + Offer(b, hidden)
    ensures Offer([s], hidden) == if s.kind == "pvpc-estimado" && hidden then [] else [s]
    ensures !hidden ==> Offer(a, hidden) == a
  {
    FilterAppend(a, b, OnOffer(hidden));
    FilterSingle(s, OnOffer(hidden));
    if !hidden {
      FilterKeepsAll(a, OnOffer(hidden));
    }
  }

  /** The offer is empty exactly when no series of the list is on offer;
      otherwise it starts with the first series on offer, and when neither
      an estimate nor a real PVPC series is on offer, that series' kind is
      the one shown first. */
  lemma DefaultIsFirstOnOffer(list: seq<Series>, hidden: bool)
    ensures var offer := Offer(list, hidden);
      var i := FirstIndexWhere(list, OnOffer(hidden));
      && (|offer| > 0 <==> i != -1)
      && (i != -1 ==> offer[0] == list[i])
      && (i != -1 && !HasKind(offer, "pvpc-estimado") && !HasKind(offer, "pvpc") ==> DefaultKind(offer) == list[i].kind)
  {
    FilterFirst(list, OnOffer(hidden));
  }

  /** The offset the screens add to spot prices, euros per MWh (0.06404 per kWh). */
  const ScreenOffset: real := 0.06404 * 1000.0

  /** The PVPC estimate the screens synthesise from the spot series: the spot
      date-times under the estimate's identity, with the offset added to
      every value. */
  function ScreenEstimate(spot: Series): (e: Series)
    ensures e.kind == "pvpc-estimado" && e.id == "pvpc-estimado-from-spot" && e.title == "Tarifa PVPC (estimado)"
    ensures e.lastUpdate == spot.lastUpdate
    ensures |e.points| == |spot.points|
    ensures forall i :: 0 <= i < |e.points| ==> e.points[i].datetime == spot.points[i].datetime
    ensures Shift(e.points, -ScreenOffset) == spot.points
  {
    ShiftInverse(spot.points, ScreenOffset);
    Series("pvpc-estimado", "pvpc-estimado-from-spot", "Tarifa PVPC (estimado)", spot.lastUpdate, Shift(spot.points, ScreenOffset))
  }

  /** The spot series of the screens: the first whose kind contains
      "mercado", ignoring case. */
  function MarketSeries(included: seq<Series>): Option<Series> {
    FirstWhere(included, (s: Series) => ContainsIgnoreCase(s.kind, "mercado"))
  }

  function PointValue(p: Point): real {
    p.value
  }

  function NegatedValue(p: Point): real {
    -p.value
  }

  /** `sortedBy { it.value }`: the same points, cheapest first. */
  function Cheapest(points: seq<Point>): (r: seq<Point>)
    ensures multiset(r) == multiset(points)
    ensures forall i, j :: 0 <= i < j < |r| ==> r[i].value <= r[j].value
  {
    SortOn(points, PointValue)
  }

  /** `sortedByDescending { it.value }`: the same points, dearest first. */
  function Dearest(points: seq<Point>): (r: seq<Point>)
    ensures multiset(r) == multiset(points)
    ensures forall i, j :: 0 <= i < j < |r| ==> r[i].value >= r[j].value
  {
    var r := SortOn(points, NegatedValue);
    assert forall i, j :: 0 <= i < j < |r| ==> NegatedValue(r[i]) <= NegatedValue(r[j]);
    r
  }

  /** The cheapest-first order is stable: points of equal price keep the
      order the series gave them. */
  lemma CheapestIsStable(points: seq<Point>, price: real)
    ensures WithKey(Cheapest(points), PointValue, price) == WithKey(points, PointValue, price)
  {
    assert Cheapest(points) == SortOn(points, PointValue);
    SortOnIsStable(points, PointValue, price);
  }

  /** The dearest-first order is stable too (`sortedByDescending` does not
      reverse runs of equal prices): the points whose negated price is `k`
      keep their series order. */
  lemma DearestIsStable(points: seq<Point>, k: real)
    ensures WithKey(Dearest(points), NegatedValue, k) == WithKey(points, NegatedValue, k)
  {
    assert Dearest(points) == SortOn(points, NegatedValue);
    SortOnIsStable(points, NegatedValue, k);
  }

  /** The band of a band-only view. */
  function OrderBand(order: Order): Band {
    match order
    case OnlyValle => Valle
    case OnlyLlano => Llano
    case OnlyPunta => Punta
    case _ => Otro
  }

  /** A band-only view: the points of the band, in time order. Every point of
      a band parses, so sorting by time cannot throw. */
  function BandView(points: seq<Point>, band: Band): (r: seq<Point>)
    requires band != Otro
    ensures forall x :: x in r <==> x in points && BandOf(x) == band
    ensures multiset(r) <= multiset(points)
    ensures forall x :: multiset(r)[x] == if BandOf(x) == band then multiset(points)[x] else 0
    ensures Chronological(r)
  {
    var keep := (p: Point) => BandOf(p) == band;
    var kept := Filter(points, keep);
    FilterCount(points, keep);
    assert multiset(SortOn(kept, TimeKey)) == multiset(kept);
    BandedParse(kept, band);
    SortByTimeIsChronological(kept);
    var r := SortOn(kept, TimeKey);
    assert forall x :: x in r <==> x in kept by {
      forall x ensures x in r <==> x in kept {
        assert x in r <==> x in multiset(r);
      }
    }
    r
  }

  lemma BandedParse(kept: seq<Point>, band: Band)
    requires band != Otro
    requires forall i :: 0 <= i < |kept| ==> BandOf(kept[i]) == band
    ensures forall i :: 0 <= i < |kept| ==> StampOf(kept[i]).Some?
  {
    forall i | 0 <= i < |kept| ensures StampOf(kept[i]).Some? {
      assert DisplayStamp(kept[i].datetime).Some?;
    }
  }

  /** The price a card shows, euros per kWh. */
  function RowPrice(p: Point): (r: real)
    ensures r * 1000.0 == p.value
  {
    p.value / 1000.0
  }
}
