/** The price screen of the current app (`com.proyecto…ScreenPriceData`):
    the estimate it synthesises and persists, the series it offers, and the
    views of the selected series, including the time-ordered view padded with
    placeholder hours. */
module CurrentScreen {
  import opened Base
  import opened Text
  import opened Calendar
  import opened Prices
  import opened Ordering
  import opened Bands
  import opened Views

  /** What the screen works with once the payload has arrived: the series it
      offers for selection, the full `included` list as finally extended, the
      store afterwards, and the kind selected first. */
  datatype Screen = Screen(visible: seq<Series>, included: seq<Series>, store: Store, defaultKind: string)

  /** Whether the payload has a real PVPC series with values (`hayPvpcReal`). */
  predicate HasRealPvpc(list: seq<Series>) {
    exists i :: 0 <= i < |list| && EqualsIgnoreCase(list[i].kind, "pvpc") && |list[i].points| > 0
  }

  /** The list after synthesis: the estimate is appended when there is a
      spot series and no series of the estimate's kind yet. */
  function WithEstimate(included: seq<Series>): seq<Series> {
    match MarketSeries(included)
    case None => included
    case Some(spot) =>
      if HasKind(included, "pvpc-estimado") then included else included + [ScreenEstimate(spot)]
  }

  /** The screen's set-up: synthesise and persist the estimate, hide the
      estimate when a real PVPC series has values, choose the default kind,
      and only then append the cached estimate if no estimate is present. */
  function Prepare(included: seq<Series>, store: Store): (r: Screen)
    ensures MarketSeries(included).Some? ==> r.store == store.(estimate := Some(ScreenEstimate(MarketSeries(included).value)))
    ensures MarketSeries(included).None? ==> r.store == store
    ensures forall s :: s in r.visible <==>
      s in WithEstimate(included) && !(s.kind == "pvpc-estimado" && HasRealPvpc(WithEstimate(included)))
    ensures HasRealPvpc(WithEstimate(included)) ==> !HasKind(r.visible, "pvpc-estimado")
    ensures r.visible == Offer(WithEstimate(included), HasRealPvpc(WithEstimate(included)))
    ensures r.defaultKind == DefaultKind(r.visible)
  {
    var spot := MarketSeries(included);
    var persisted := if spot.Some? then store.(estimate := Some(ScreenEstimate(spot.value))) else store;
    var extended := WithEstimate(included);
    var hasReal := HasRealPvpc(extended);
    var visible := Offer(extended, hasReal);
    var withCache :=
      if persisted.estimate.Some? && !HasKind(extended, "pvpc-estimado")
      then extended + [persisted.estimate.value] else extended;
    Screen(visible, withCache, persisted, DefaultKind(visible))
  }

  /** Without an estimate or a real PVPC series on offer, the kind shown
      first is that of the first series of the extended list still on
      offer. */
  lemma DefaultIsFirstShown(included: seq<Series>, store: Store)
    ensures var r := Prepare(included, store);
      var extended := WithEstimate(included);
      var i := FirstIndexWhere(extended, OnOffer(HasRealPvpc(extended)));
      && (|r.visible| > 0 <==> i != -1)
      && (i != -1 ==> r.visible[0] == extended[i])
      && (i != -1 && !HasKind(r.visible, "pvpc-estimado") && !HasKind(r.visible, "pvpc") ==> r.defaultKind == extended[i].kind)
  {
    var extended := WithEstimate(included);
    DefaultIsFirstOnOffer(extended, HasRealPvpc(extended));
  }

  /** With a spot series the cache is never appended (the list already holds
      an estimate); and when the cached estimate is appended, no series of
      the estimate's kind is on offer, so it can never be selected. */
  lemma CacheNeverSelectable(included: seq<Series>, store: Store)
    ensures var r := Prepare(included, store);
      var extended := WithEstimate(included);
      && (MarketSeries(included).Some? ==> r.included == extended)
      && (r.included != extended ==> !HasKind(r.visible, "pvpc-estimado") && store.estimate.Some?)
  {
    var extended := WithEstimate(included);
    var r := Prepare(included, store);
    if MarketSeries(included).Some? {
      assert HasKind(extended, "pvpc-estimado") by {
        if !HasKind(included, "pvpc-estimado") {
          assert extended[|included|].kind == "pvpc-estimado";
        }
        else {
          var i :| 0 <= i < |included| && included[i].kind == "pvpc-estimado";
          assert extended[i].kind == "pvpc-estimado";
        }
      }
    }
    if r.included != extended {
      assert forall s :: s in r.visible ==> s in extended;
    }
  }

  /** The two characters of a date-time at the hour's place (`substring(11, 13)`). */
  function HourField(p: Point): string
    requires |p.datetime| >= 13
  {
    p.datetime[11..13]
  }

  /** Whether some point of `points` has hour field `hh` (`containsKey`). */
  predicate HasHour(points: seq<Point>, hh: string) {
    exists i :: 0 <= i < |points| && |points[i].datetime| >= 13 && HourField(points[i]) == hh
  }

  /** The sort key of the time-ordered view: the hour field as a number, 24
      where it is not one. */
  function HourKey(p: Point): real {
    if |p.datetime| < 13 then 24.0 else ToIntOrNull(HourField(p)).GetOr(24) as real
  }

  /** The zero-valued row put in for a missing hour `hh` of `day`. */
  function Placeholder(day: Date, hh: string): Point
    requires Valid(day)
  {
    Point(0.0, 0.0, Iso(day) + "T" + hh + ":00:00.000Z")
  }

  /** The rows before sorting: the hour-00 placeholder first when no point has
      hour 00, and the hour-01 placeholder second when none has hour 01. */
  function Padded(points: seq<Point>, day: Date): (r: seq<Point>)
    requires Valid(day)
    ensures multiset(r) == multiset(points)
      + (if HasHour(points, "00") then multiset{} else multiset{Placeholder(day, "00")})
      + (if HasHour(points, "01") then multiset{} else multiset{Placeholder(day, "01")})
  {
    var first := if HasHour(points, "00") then points else [Placeholder(day, "00")] + points;
    if HasHour(points, "01") then first
    else
      assert first == first[..1] + first[1..];
      first[..1] + [Placeholder(day, "01")] + first[1..]
  }

  /** The time-ordered view: an exception when some date-time is too short to
      hold an hour; otherwise the points with the placeholders, stably sorted
      by hour. Without a selected series it shows the two placeholders. */
  function TimeView(selected: Option<Series>, day: Date): (r: Result<seq<Point>>)
    requires Valid(day)
    ensures var points := if selected.Some? then selected.value.points else [];
      && (r.Err? <==> exists i :: 0 <= i < |points| && |points[i].datetime| < 13)
      && (r.Ok? ==> multiset(r.value) == multiset(Padded(points, day)) && SortedOn(r.value, HourKey))
  {
    var points := if selected.Some? then selected.value.points else [];
    if exists i :: 0 <= i < |points| && |points[i].datetime| < 13 then Err(IndexOutOfBounds)
    else Ok(SortOn(Padded(points, day), HourKey))
  }

  lemma PlaceholderHour(day: Date, hh: string)
    requires Valid(day) && day.year <= 9999 && |hh| == 2
    ensures |Placeholder(day, hh).datetime| >= 13 && HourField(Placeholder(day, hh)) == hh
  {
    var s := Placeholder(day, hh).datetime;
    assert s == Iso(day) + "T" + hh + ":00:00.000Z";
    assert s[11..13] == hh;
  }

  /** The padded rows have a row for hour `hh` whenever `hh` is 00 or 01. */
  lemma PaddedHasHour(points: seq<Point>, day: Date, hh: string)
    requires Valid(day) && day.year <= 9999
    requires hh == "00" || hh == "01"
    ensures exists x :: x in multiset(Padded(points, day)) && |x.datetime| >= 13 && HourField(x) == hh
  {
    if HasHour(points, hh) {
      var i :| 0 <= i < |points| && |points[i].datetime| >= 13 && HourField(points[i]) == hh;
      assert points[i] in multiset(points);
      assert points[i] in multiset(Padded(points, day));
    } else {
      PlaceholderHour(day, hh);
      assert Placeholder(day, hh) in multiset(Padded(points, day));
    }
  }

  /** A rearrangement keeps a row with hour `hh`. */
  lemma RearrangedHasHour(a: seq<Point>, b: seq<Point>, hh: string)
    requires multiset(a) == multiset(b)
    requires exists x :: x in multiset(b) && |x.datetime| >= 13 && HourField(x) == hh
    ensures HasHour(a, hh)
  {
    var x :| x in multiset(b) && |x.datetime| >= 13 && HourField(x) == hh;
    assert x in a;
    var j :| 0 <= j < |a| && a[j] == x;
  }

  /** The time-ordered view always has rows for hours 00 and 01. */
  lemma TimeViewHasEarlyHours(selected: Option<Series>, day: Date)
    requires Valid(day) && day.year <= 9999
    requires TimeView(selected, day).Ok?
    ensures HasHour(TimeView(selected, day).value, "00") && HasHour(TimeView(selected, day).value, "01")
  {
    var points := if selected.Some? then selected.value.points else [];
    var r := TimeView(selected, day).value;
    PaddedHasHour(points, day, "00");
    PaddedHasHour(points, day, "01");
    RearrangedHasHour(r, Padded(points, day), "00");
    RearrangedHasHour(r, Padded(points, day), "01");
  }

  /** Rows of the same hour keep their order in the series. */
  lemma TimeViewIsStable(selected: Option<Series>, day: Date, hour: real)
    requires Valid(day)
    requires TimeView(selected, day).Ok?
    ensures var points := if selected.Some? then selected.value.points else [];
      WithKey(TimeView(selected, day).value, HourKey, hour) == WithKey(Padded(points, day), HourKey, hour)
  {
    var points := if selected.Some? then selected.value.points else [];
    SortOnIsStable(Padded(points, day), HourKey, hour);
  }

  /** The rows shown for an ordering: the value orders and band filters of the
      selected series (nothing without one), or the padded time order. */
  function View(order: Order, selected: Option<Series>, day: Date): (r: Result<seq<Point>>)
    requires Valid(day)
    ensures order != InTimeOrder ==> r.Ok?
    ensures order != InTimeOrder && selected.None? ==> r == Ok([])
    ensures order != InTimeOrder && selected.Some? ==> multiset(r.value) <= multiset(selected.value.points)
    ensures order == InTimeOrder ==> r == TimeView(selected, day)
    ensures var points := if selected.Some? then selected.value.points else [];
      && (order == CheapestFirst ==> r == Ok(Cheapest(points)))
      && (order == DearestFirst ==> r == Ok(Dearest(points)))
      && (order == OnlyValle ==> r == Ok(BandView(points, Valle)))
      && (order == OnlyLlano ==> r == Ok(BandView(points, Llano)))
      && (order == OnlyPunta ==> r == Ok(BandView(points, Punta)))
  {
    var points := if selected.Some? then selected.value.points else [];
    match order
    case InTimeOrder => TimeView(selected, day)
    case CheapestFirst => Ok(Cheapest(points))
    case DearestFirst => Ok(Dearest(points))
    case _ => Ok(BandView(points, OrderBand(order)))
  }

  /** The date header above the rows: the first row's date-time is parsed for
      display, and the parse throws when it cannot read it. */
  function Header(rows: seq<Point>): (r: Result<Option<Stamp>>)
    ensures |rows| == 0 ==> r == Ok(None)
    ensures |rows| > 0 ==> (r.Err? <==> DisplayStamp(rows[0].datetime).None?)
  {
    if |rows| == 0 then Ok(None)
    else
      match DisplayStamp(rows[0].datetime)
      case None => Err(UnparseableDatetime)
      case Some(st) => Ok(Some(st))
  }

  /** As written, no placeholder row can be read for display: its date-time
      ends in a literal `Z`, which the display parser's offset pattern does
      not accept. */
  lemma PlaceholderUnreadable(day: Date, hh: string)
    requires Valid(day)
    ensures DisplayStamp(Placeholder(day, hh).datetime).None?
  {
    var s := Placeholder(day, hh).datetime;
    assert s[|s| - 1] == 'Z';
    if ParseStamp(s).Some? {
      var z := s[23..];
      assert z[|z| - 1] == 'Z';
    }
  }

  /** The placeholders' hours as the view sorts them. */
  lemma PlaceholderKeys(day: Date)
    requires Valid(day) && day.year <= 9999
    ensures HourKey(Placeholder(day, "00")) == 0.0 && HourKey(Placeholder(day, "01")) == 1.0
  {
    PlaceholderHour(day, "00");
    PlaceholderHour(day, "01");
  }

  /** With no series selected, the time view is the two placeholders, hour 00
      first, so the date header throws. */
  lemma EmptyTimeViewThrows(day: Date)
    requires Valid(day) && day.year <= 9999
    ensures TimeView(None, day) == Ok([Placeholder(day, "00"), Placeholder(day, "01")])
    ensures Header(TimeView(None, day).value).Err?
  {
    EmptyTimeView(day);
    PlaceholderUnreadable(day, "00");
  }

  /** With no series selected, the time view is the two placeholders, hour 00
      first. */
  lemma EmptyTimeView(day: Date)
    requires Valid(day) && day.year <= 9999
    ensures TimeView(None, day) == Ok([Placeholder(day, "00"), Placeholder(day, "01")])
  {
    var none: seq<Point> := [];
    EmptyPadded(day);
    PlaceholdersInOrder(day);
    assert TimeView(None, day) == Ok(SortOn(Padded(none, day), HourKey));
  }

  /** Without points, both placeholders are added, hour 00 first. */
  lemma EmptyPadded(day: Date)
    requires Valid(day)
    ensures Padded([], day) == [Placeholder(day, "00"), Placeholder(day, "01")]
  {
    var none: seq<Point> := [];
    assert !HasHour(none, "00") && !HasHour(none, "01");
  }

  /** The two placeholders are already in hour order. */
  lemma PlaceholdersInOrder(day: Date)
    requires Valid(day) && day.year <= 9999
    ensures var p0, p1 := Placeholder(day, "00"), Placeholder(day, "01");
      SortOn([p0, p1], HourKey) == [p0, p1]
  {
    var p0, p1 := Placeholder(day, "00"), Placeholder(day, "01");
    PlaceholderKeys(day);
    assert [p0, p1][1..] == [p1];
    assert SortOn([p1], HourKey) == [p1];
  }

  /** The placeholder row evidently intended: the same row, carrying the
      feed's numeric offset `zone` (`+01:00` or `+02:00` for the Spanish
      market) in place of `Z`, so the display parser reads it. */
  function ReadablePlaceholder(day: Date, hh: string, zone: string): Point
    requires Valid(day)
  {
    Point(0.0, 0.0, Iso(day) + "T" + hh + ":00:00.000" + zone)
  }

  /** The intended placeholder's date-time agrees with the formatted stamp
      of its hour up to the offset, which is the feed's. */
  lemma ReadablePlaceholderText(day: Date, h: int, zone: string)
    requires Valid(day) && day.year <= 9999 && 0 <= h <= 23
    ensures var s := ReadablePlaceholder(day, Pad2(h), zone).datetime;
      var f := FormatStamp(Stamp(day.year, day.month, day.day, h, 0, 0, 0));
      |s| >= 23 && |f| >= 23 && s[..23] == f[..23] && s[23..] == zone
  {
    var s := ReadablePlaceholder(day, Pad2(h), zone).datetime;
    var f := FormatStamp(Stamp(day.year, day.month, day.day, h, 0, 0, 0));
    assert Pad2(0) == "00" && Pad3(0) == "000";
    assert Iso(day) == Pad4(day.year) + "-" + Pad2(day.month) + "-" + Pad2(day.day);
    var head := Pad4(day.year) + "-" + Pad2(day.month) + "-" + Pad2(day.day) + "T" + Pad2(h) + ":00:00.000";
    assert |head| == 23;
    assert s == head + zone;
    assert f == head + "Z";
    assert s[..23] == head && f[..23] == head;
  }

  /** The intended placeholder for hour `h`, carrying the feed's numeric
      offset, reads as that hour of the day in the feed's zone, and its card
      is coloured by the hour's band. */
  lemma ReadablePlaceholderRenders(day: Date, h: int, zone: string)
    requires Valid(day) && day.year <= 9999 && 0 <= h <= 23
    requires |zone| == 6 && Offset(zone)
    ensures DisplayStamp(ReadablePlaceholder(day, Pad2(h), zone).datetime) == Some(Stamp(day.year, day.month, day.day, h, 0, 0, 0))
    ensures CardBand(ReadablePlaceholder(day, Pad2(h), zone)) == Ok(HourBand(h))
  {
    var st := Stamp(day.year, day.month, day.day, h, 0, 0, 0);
    var s := ReadablePlaceholder(day, Pad2(h), zone).datetime;
    var f := FormatStamp(st);
    ParseFormat(st);
    ReadablePlaceholderText(day, h, zone);
    SamePrefixSameStamp(s, f);
    assert s[23..] != "Z" by {
      assert |s[23..]| == 6;
    }
  }
}
