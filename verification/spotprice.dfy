/** The price view-model's refresh (`DatosPreciosViewModel.getPrices`): it
    keeps the fetched payload for the screens, derives the final spot price
    (euros per kWh plus the access toll of the hour's band and the retailer's
    margin) and the PVPC price, and stores each one, announcing it, only when
    it differs from the value stored before. */
module SpotPrice {
  import opened Base
  import opened Text
  import opened Prices
  import opened Bands

  /** The access toll of a band, euros per kWh. */
  function BandToll(b: Band): real {
    match b
    case Valle => 0.030
    case Llano => 0.045
    case Punta => 0.060
    case Otro => 0.045
  }

  /** `peaje`: the toll of an hour, listed hour range by hour range; it is the
      toll of the hour's band, and hours outside the day pay the mid rate. */
  function Toll(hour: int): (t: real)
    ensures t == BandToll(HourBand(hour))
    ensures t == 0.030 || t == 0.045 || t == 0.060
  {
    if 0 <= hour <= 7 then 0.030
    else if 8 <= hour <= 9 || 14 <= hour <= 17 || 22 <= hour <= 23 then 0.045
    else if 10 <= hour <= 13 || 18 <= hour <= 21 then 0.060
    else 0.045
  }

  /** The retailer's margin, euros per kWh. */
  const Margin: real := 0.001

  /** The hour as the view-model reads it: the two characters after the first
      `T` as a number, 0 when they are not one, and an exception when fewer
      than two characters follow. For a date-time that parses it is the
      parsed hour. */
  function HourText(datetime: string): (r: Result<int>)
    ensures r.Err? <==> |SubstringAfterT(datetime)| < 2
    ensures ParseStamp(datetime).Some? ==> r == Ok(ParseStamp(datetime).value.hour)
    ensures |SubstringAfterT(datetime)| >= 2 ==> r == Ok(ToIntOrNull(SubstringAfterT(datetime)[..2]).GetOr(0))
  {
    var after := SubstringAfterT(datetime);
    if |after| < 2 then
      assert ParseStamp(datetime).None? by {
        if ParseStamp(datetime).Some? {
          HourDigits(datetime);
        }
      }
      Err(IndexOutOfBounds)
    else
      assert ParseStamp(datetime).Some? ==> ToIntOrNull(after[..2]) == Some(ParseStamp(datetime).value.hour) by {
        if ParseStamp(datetime).Some? {
          HourDigits(datetime);
        }
      }
      Ok(ToIntOrNull(after[..2]).GetOr(0))
  }

  /** In a date-time that parses, the first `T` is the layout's, so the two
      characters after it are the hour's digits. */
  lemma HourDigits(datetime: string)
    requires ParseStamp(datetime).Some?
    ensures |SubstringAfterT(datetime)| >= 2
    ensures ToIntOrNull(SubstringAfterT(datetime)[..2]) == Some(ParseStamp(datetime).value.hour)
  {
    assert datetime[10] == 'T';
    assert forall j :: 0 <= j < 10 ==> datetime[j] != 'T';
    var after := SubstringAfterT(datetime);
    assert after == datetime[11..];
    assert after[..2] == datetime[11..13];
    assert after[..2][0] == datetime[11] && after[..2][1] == datetime[12];
  }

  /** The last point of the first series whose id contains `tag` (case-sensitive). */
  function LastWithId(included: seq<Series>, tag: string): Option<Point> {
    match FirstWhere(included, (s: Series) => Contains(s.id, tag))
    case None => None
    case Some(s) => Last(s.points)
  }

  /** `spotFinal`: the final spot price of the spot point, or null when there
      is none; an exception when the point's hour cannot be read. */
  function FinalSpot(spot: Option<Point>): (r: Result<Option<real>>)
    ensures spot.None? ==> r == Ok(None)
    ensures r.Err? <==> spot.Some? && |SubstringAfterT(spot.value.datetime)| < 2
  {
    match spot
    case None => Ok(None)
    case Some(p) =>
      match HourText(p.datetime)
      case Err(f) => Err(f)
      case Ok(hour) => Ok(Some(FinalPrice(p.value, hour)))
  }

  /** The final price, euros per kWh, of a market price in euros per MWh at `hour`. */
  function FinalPrice(value: real, hour: int): (r: real)
    ensures r == value / 1000.0 + BandToll(HourBand(hour)) + Margin
  {
    value / 1000.0 + Toll(hour) + Margin
  }

  /** For a spot point whose date-time parses, the final price is the price
      in euros per kWh plus the toll of the parsed hour's band and the margin. */
  lemma FinalSpotOfParsed(p: Point, st: Stamp)
    requires ParseStamp(p.datetime) == Some(st)
    ensures FinalSpot(Some(p)) == Ok(Some(FinalPrice(p.value, st.hour)))
  {
    FinalSpotOfHour(p, st.hour);
  }

  /** The final price of a point whose hour reads as `h`. */
  lemma FinalSpotOfHour(p: Point, h: int)
    requires HourText(p.datetime) == Ok(h)
    ensures FinalSpot(Some(p)) == Ok(Some(FinalPrice(p.value, h)))
  {
  }

  /** The notifications the refresh raises. */
  datatype Notice = SpotChanged(price: real) | PvpcChanged(price: real)

  /** The outcome of a refresh: the payload the screens see, the store after
      it, and the notifications raised, in order. */
  datatype Refresh = Refresh(datos: Option<Payload>, store: Store, notices: seq<Notice>)

  /** Whether a new value is written under a key: there is one, and it differs
      from the stored value read with the default -1. */
  predicate Changed(stored: Option<real>, v: Option<real>) {
    v.Some? && v.value != stored.GetOr(-1.0)
  }

  /** The key after a change-detected write. */
  function Written(stored: Option<real>, v: Option<real>): (r: Option<real>)
    ensures v.Some? ==> r.GetOr(-1.0) == v.value
    ensures r != stored ==> Changed(stored, v) && r == v
  {
    if Changed(stored, v) then v else stored
  }

  /** The notifications a change of the store calls for: one for the spot
      key if it changed, then one for the PVPC key if it changed, each with
      the value written. */
  function ChangeNotices(before: Store, after: Store): seq<Notice> {
    (if after.spot != before.spot && after.spot.Some? then [SpotChanged(after.spot.value)] else [])
    + (if after.pvpc != before.pvpc && after.pvpc.Some? then [PvpcChanged(after.pvpc.value)] else [])
  }

  /** What a refresh promises of the store and the notifications: the cached
      estimate is kept, a key changes only to a value different from the one
      stored (read with the default -1), and exactly the changed keys are
      announced, spot first, each with the value written. */
  predicate Announced(before: Store, after: Store, notices: seq<Notice>) {
    && after.estimate == before.estimate
    && (after.spot != before.spot ==> after.spot.Some? && after.spot.value != before.spot.GetOr(-1.0))
    && (after.pvpc != before.pvpc ==> after.pvpc.Some? && after.pvpc.value != before.pvpc.GetOr(-1.0))
    && notices == ChangeNotices(before, after)
  }

  /** The notification for one key: one when the write changes it. */
  function Notify(stored: Option<real>, v: Option<real>, spot: bool): (r: seq<Notice>)
    ensures forall n :: n in r ==> Changed(stored, v) && n.price == v.value && n.SpotChanged? == spot
    ensures Changed(stored, v) ==> (if spot then SpotChanged(v.value) else PvpcChanged(v.value)) in r
  {
    if !Changed(stored, v) then [] else if spot then [SpotChanged(v.value)] else [PvpcChanged(v.value)]
  }

  /** Both change-detected writes, spot first, with their notifications. */
  function WriteBoth(store: Store, spot: Option<real>, pvpc: Option<real>): (r: (Store, seq<Notice>))
    ensures Announced(store, r.0, r.1)
  {
    var after := store.(spot := Written(store.spot, spot), pvpc := Written(store.pvpc, pvpc));
    var notices := Notify(store.spot, spot, true) + Notify(store.pvpc, pvpc, false);
    assert forall n :: n in notices ==> n in Notify(store.spot, spot, true) || n in Notify(store.pvpc, pvpc, false);
    (after, notices)
  }

  /** The post-processing of a fetched payload: nothing is written when the
      spot hour cannot be read, since the exception ends the block before
      either write. */
  function Process(included: seq<Series>, store: Store): (r: (Store, seq<Notice>))
    ensures Announced(store, r.0, r.1)
  {
    match FinalSpot(LastWithId(included, "spot"))
    case Err(_) => (store, [])
    case Ok(spot) =>
      var pvpcPoint := LastWithId(included, "pvpcValue");
      var pvpc := if pvpcPoint.Some? then Some(pvpcPoint.value.value / 1000.0) else None;
      WriteBoth(store, spot, pvpc)
  }

  /** `getPrices` once the request has completed (`None` when it failed): the
      payload is published even if the post-processing throws; a key changes
      only to a value different from the one stored, and exactly the changed
      keys are announced, each with the value written. */
  function RefreshPrices(fetched: Option<Payload>, store: Store): (r: Refresh)
    ensures r.datos == fetched
    ensures fetched.None? ==> r.store == store && r.notices == []
    ensures Announced(store, r.store, r.notices)
    ensures fetched.Some? && LastWithId(fetched.value.included.GetOr([]), "spot").None? ==> r.store.spot == store.spot
    ensures fetched.Some? && LastWithId(fetched.value.included.GetOr([]), "pvpcValue").None? ==> r.store.pvpc == store.pvpc
  {
    match fetched
    case None => Refresh(None, store, [])
    case Some(p) =>
      var (after, notices) := Process(p.included.GetOr([]), store);
      Refresh(fetched, after, notices)
  }

  /** What a refresh of a fetched payload stores. When the last spot point's
      hour cannot be cut out (fewer than two characters after its `T`), the
      refresh throws before writing: the store is unchanged and nothing is
      announced. Otherwise the stored spot price (read with the default -1)
      is that point's price in euros per kWh plus the toll of the band of the
      hour its text gives, plus the margin; it is left as it was when there is
      no spot point; and in both cases the stored PVPC price is the last PVPC
      value in euros per kWh. */
  lemma RefreshStoresFinalPrices(p: Payload, store: Store)
    ensures var included := p.included.GetOr([]);
      var r := RefreshPrices(Some(p), store);
      var spot := LastWithId(included, "spot");
      var pvpc := LastWithId(included, "pvpcValue");
      var throws := spot.Some? && HourText(spot.value.datetime).Err?;
      && (throws ==> r.store == store && r.notices == [])
      && (spot.Some? && !throws ==>
            r.store.spot.GetOr(-1.0)
              == spot.value.value / 1000.0 + BandToll(HourBand(HourText(spot.value.datetime).value)) + Margin)
      && (spot.None? ==> r.store.spot == store.spot)
      && (!throws && pvpc.Some? ==> r.store.pvpc.GetOr(-1.0) == pvpc.value.value / 1000.0)
  {
    var spot := LastWithId(p.included.GetOr([]), "spot");
    if spot.Some? && HourText(spot.value.datetime).Ok? {
      FinalSpotOfHour(spot.value, HourText(spot.value.datetime).value);
    }
  }

  /** Refreshing twice with the same payload changes nothing the second time
      and raises no notification. */
  lemma RefreshIdempotent(fetched: Option<Payload>, store: Store)
    ensures var first := RefreshPrices(fetched, store);
      var second := RefreshPrices(fetched, first.store);
      second.store == first.store && second.notices == []
  {
  }
}
