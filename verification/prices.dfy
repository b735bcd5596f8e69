/** The price payload of the electricity-market API and the values derived
    from it: hourly price points with their raw date-time text, the series
    (`included` entries) that group them, and the key-value store the app
    keeps between runs. */
module Prices {
  import opened Base
  import opened Text
  import opened Ordering

  /** One hourly price (`Value`): euros per MWh, share of the daily total,
      and the date-time exactly as the API wrote it. */
  datatype Point = Point(value: real, percentage: real, datetime: string)

  /** One `included` entry of the payload: a tariff series such as the
      wholesale spot market or the regulated PVPC tariff. `kind` is the
      entry's `type`. */
  datatype Series = Series(kind: string, id: string, title: string, lastUpdate: string, points: seq<Point>)

  /** The API response; `included` is nullable. */
  datatype Payload = Payload(included: Option<seq<Series>>)

  /** The shared-preferences file "precios": the cached estimate
      ("pvpc_estimado_json") and the last notified spot and PVPC prices. */
  datatype Store = Store(estimate: Option<Series>, spot: Option<real>, pvpc: Option<real>)

  /** A local date-time as `yyyy-MM-dd'T'HH:mm:ss.SSSXXX` describes it; the
      zone offset is checked but, as for `LocalDateTime`, not kept. */
  datatype Stamp = Stamp(year: int, month: int, day: int, hour: int, minute: int, second: int, milli: int)

  /** An hour-and-minute label (`HH:mm`). */
  datatype Clock = Clock(hour: int, minute: int)

  predicate InRanges(st: Stamp) {
    0 <= st.year <= 9999 && 1 <= st.month <= 12 && 1 <= st.day <= 31
    && 0 <= st.hour <= 23 && 0 <= st.minute <= 59 && 0 <= st.second <= 59 && 0 <= st.milli <= 999
  }

  function Two(s: string, i: nat): int
    requires i + 2 <= |s| && IsDigit(s[i]) && IsDigit(s[i + 1])
  {
    DigitValue(s[i]) * 10 + DigitValue(s[i + 1])
  }

  /** The fixed part `yyyy-MM-ddTHH:mm:ss.SSS` of the layout. */
  predicate Layout(s: string) {
    |s| >= 23
    && IsDigit(s[0]) && IsDigit(s[1]) && IsDigit(s[2]) && IsDigit(s[3]) && s[4] == '-'
    && IsDigit(s[5]) && IsDigit(s[6]) && s[7] == '-'
    && IsDigit(s[8]) && IsDigit(s[9]) && s[10] == 'T'
    && IsDigit(s[11]) && IsDigit(s[12]) && s[13] == ':'
    && IsDigit(s[14]) && IsDigit(s[15]) && s[16] == ':'
    && IsDigit(s[17]) && IsDigit(s[18]) && s[19] == '.'
    && IsDigit(s[20]) && IsDigit(s[21]) && IsDigit(s[22])
  }

  /** The offset `XXX`: `Z`, or a sign and `HH:MM` no larger than 18:00. */
  predicate Offset(z: string) {
    (|z| == 1 && z[0] == 'Z')
    || (|z| == 6 && (z[0] == '+' || z[0] == '-') && IsDigit(z[1]) && IsDigit(z[2]) && z[3] == ':'
        && IsDigit(z[4]) && IsDigit(z[5]) && Two(z, 4) <= 59 && Two(z, 1) * 60 + Two(z, 4) <= 18 * 60)
  }

  /** `LocalDateTime.parse(text, "yyyy-MM-dd'T'HH:mm:ss.SSSXXX")`: the stamp,
      or null where the parser throws. */
  function ParseStamp(s: string): Option<Stamp> {
    if !Layout(s) || !Offset(s[23..]) then None
    else
      var st := Stamp(Two(s, 0) * 100 + Two(s, 2), Two(s, 5), Two(s, 8), Two(s, 11), Two(s, 14), Two(s, 17),
                      DigitValue(s[20]) * 100 + Two(s, 21));
      if InRanges(st) then Some(st) else None
  }

  /** A parsed stamp is in range, comes from text of the layout with a well
      formed offset, and carries the hour and minute written at positions 11
      and 14. */
  lemma ParsedStampShape(s: string)
    requires ParseStamp(s).Some?
    ensures InRanges(ParseStamp(s).value) && Layout(s) && Offset(s[23..])
    ensures ParseStamp(s).value.hour == Two(s, 11) && ParseStamp(s).value.minute == Two(s, 14)
  {
  }

  /** The inverse of `ParseStamp` for stamps in range, in UTC (`Z`). */
  function FormatStamp(st: Stamp): (s: string)
    requires InRanges(st)
  {
    Pad4(st.year) + "-" + Pad2(st.month) + "-" + Pad2(st.day) + "T" + Pad2(st.hour) + ":" + Pad2(st.minute)
      + ":" + Pad2(st.second) + "." + Pad3(st.milli) + "Z"
  }

  lemma ParseFormat(st: Stamp)
    requires InRanges(st)
    ensures ParseStamp(FormatStamp(st)) == Some(st)
  {
    var s := FormatStamp(st);
    var y, mo, d, h, mi, se, ms := Pad4(st.year), Pad2(st.month), Pad2(st.day), Pad2(st.hour), Pad2(st.minute), Pad2(st.second), Pad3(st.milli);
    assert s == y + "-" + mo + "-" + d + "T" + h + ":" + mi + ":" + se + "." + ms + "Z";
    assert s[0] == y[0] && s[1] == y[1] && s[2] == y[2] && s[3] == y[3];
    assert s[5] == mo[0] && s[6] == mo[1] && s[8] == d[0] && s[9] == d[1];
    assert s[11] == h[0] && s[12] == h[1] && s[14] == mi[0] && s[15] == mi[1];
    assert s[17] == se[0] && s[18] == se[1] && s[20] == ms[0] && s[21] == ms[1] && s[22] == ms[2];
    assert s[23..] == "Z";
  }

  /** The stamp depends only on the first 23 characters, once the offset is
      well formed. */
  lemma SamePrefixSameStamp(a: string, b: string)
    requires |a| >= 23 && |b| >= 23 && a[..23] == b[..23]
    requires Offset(a[23..]) && Offset(b[23..])
    ensures ParseStamp(a) == ParseStamp(b)
  {
    assert forall i :: 0 <= i < 23 ==> a[i] == a[..23][i] == b[..23][i] == b[i];
  }

  /** The parsed stamp of a point. */
  function StampOf(p: Point): Option<Stamp> {
    ParseStamp(p.datetime)
  }

  /** The `HH:mm` label of a point, or null where its date-time does not parse. */
  function ClockOf(p: Point): (c: Option<Clock>)
    ensures c.Some? <==> StampOf(p).Some?
    ensures c.Some? ==> 0 <= c.value.hour <= 23 && 0 <= c.value.minute <= 59
  {
    match StampOf(p)
    case None => None
    case Some(st) => Some(Clock(st.hour, st.minute))
  }

  /** The hour of a point whose date-time parses (-1 otherwise). */
  function HourOf(p: Point): int {
    match ClockOf(p)
    case None => -1
    case Some(c) => c.hour
  }

  /** A number that orders stamps as `LocalDateTime.compareTo` does. */
  function StampKey(st: Stamp): int {
    (((((st.year * 13 + st.month) * 32 + st.day) * 24 + st.hour) * 60 + st.minute) * 60 + st.second) * 1000 + st.milli
  }

  /** Field-by-field (lexicographic) order of stamps. */
  predicate Earlier(a: Stamp, b: Stamp) {
    a.year < b.year
    || (a.year == b.year && (a.month < b.month
    || (a.month == b.month && (a.day < b.day
    || (a.day == b.day && (a.hour < b.hour
    || (a.hour == b.hour && (a.minute < b.minute
    || (a.minute == b.minute && (a.second < b.second
    || (a.second == b.second && a.milli < b.milli)))))))))))
  }

  lemma StampKeyOrdersStamps(a: Stamp, b: Stamp)
    requires InRanges(a) && InRanges(b)
    ensures StampKey(a) < StampKey(b) <==> Earlier(a, b)
    ensures StampKey(a) == StampKey(b) <==> a == b
  {
  }

  /** The chronological sort key of a point (0 where its date-time does not parse). */
  function TimeKey(p: Point): real {
    match StampOf(p)
    case None => 0.0
    case Some(st) => StampKey(st) as real
  }

  /** Every date-time parses and no point is earlier than the one before it. */
  predicate Chronological(s: seq<Point>) {
    forall i, j :: 0 <= i < j < |s| ==>
      StampOf(s[i]).Some? && StampOf(s[j]).Some? && !Earlier(StampOf(s[j]).value, StampOf(s[i]).value)
  }

  /** Sorting parsed points by `TimeKey` puts them in chronological order. */
  lemma {:induction false} TimeSortedIsChronological(s: seq<Point>)
    requires forall i :: 0 <= i < |s| ==> StampOf(s[i]).Some?
    requires SortedOn(s, TimeKey)
    ensures Chronological(s)
  {
    forall i, j | 0 <= i < j < |s|
      ensures !Earlier(StampOf(s[j]).value, StampOf(s[i]).value)
    {
      assert TimeKey(s[i]) <= TimeKey(s[j]);
      StampKeyOrdersStamps(StampOf(s[j]).value, StampOf(s[i]).value);
    }
  }

  /** Sorting parsed points by `TimeKey` puts them in chronological order. */
  lemma SortByTimeIsChronological(s: seq<Point>)
    requires forall i :: 0 <= i < |s| ==> StampOf(s[i]).Some?
    ensures Chronological(SortOn(s, TimeKey))
  {
    var r := SortOn(s, TimeKey);
    forall i | 0 <= i < |r| ensures StampOf(r[i]).Some? {
      assert r[i] in multiset(s);
    }
    TimeSortedIsChronological(r);
  }

  /** The same points with `offset` added to every value: the spot-to-PVPC estimate. */
  function Shift(points: seq<Point>, offset: real): (r: seq<Point>)
    ensures |r| == |points|
    ensures forall i :: 0 <= i < |points| ==>
      r[i].datetime == points[i].datetime && r[i].percentage == points[i].percentage
      && r[i].value == points[i].value + offset
  {
    if |points| == 0 then []
    else [points[0].(value := points[0].value + offset)] + Shift(points[1..], offset)
  }

  /** Shifting back by the same offset recovers the original series. */
  lemma {:induction false} ShiftInverse(points: seq<Point>, offset: real)
    ensures Shift(Shift(points, offset), -offset) == points
  {
    if |points| > 0 {
      ShiftInverse(points[1..], offset);
      assert Shift(points, offset)[1..] == Shift(points[1..], offset);
    }
  }
}
