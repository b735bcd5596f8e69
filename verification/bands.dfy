/** The tariff bands of the price screens: valle (off-peak), llano (mid) and
    punta (peak), read from the minute of the day of a price point, and the
    hour-based variant the price cards are coloured by. */
module Bands {
  import opened Base
  import opened Prices

  datatype Band = Valle | Llano | Punta | Otro

  /** The band of the hour `h`, as the price cards colour it. */
  function HourBand(h: int): Band {
    if 0 <= h <= 7 then Valle
    else if 8 <= h <= 9 || 14 <= h <= 17 || 22 <= h <= 23 then Llano
    else if 10 <= h <= 13 || 18 <= h <= 21 then Punta
    else Otro
  }

  /** The band of minute `t` of the day (`obtenerTramoDesdeFecha`). The three
      named bands cover exactly the minutes of a day, and within the day the
      band depends only on the hour. */
  function MinuteBand(t: int): (b: Band)
    ensures b != Otro <==> 0 <= t < 1440
    ensures 0 <= t < 1440 ==> b == HourBand(t / 60)
  {
    if 0 <= t <= 479 then Valle
    else if 480 <= t <= 599 || 840 <= t <= 1079 || 1320 <= t <= 1439 then Llano
    else if 600 <= t <= 839 || 1080 <= t <= 1319 then Punta
    else Otro
  }

  /** `SimpleDateFormat("yyyy-MM-dd'T'HH:mm:ss.SSSZ")` applied once the colon
      of a trailing `:dd` is removed: the layout with a numeric offset. The
      pattern letter `Z` reads `+0100` but not a literal `Z`. */
  function DisplayStamp(s: string): (r: Option<Stamp>)
    ensures r.Some? <==> ParseStamp(s).Some? && s[23..] != "Z"
    ensures r.Some? ==> r == ParseStamp(s)
  {
    match ParseStamp(s)
    case None => None
    case Some(st) => if s[23..] == "Z" then None else Some(st)
  }

  /** The band of a price point; `Otro` when its date-time does not parse. */
  function BandOf(p: Point): (b: Band)
    ensures b != Otro <==> DisplayStamp(p.datetime).Some?
    ensures b != Otro ==> b == HourBand(DisplayStamp(p.datetime).value.hour)
  {
    match DisplayStamp(p.datetime)
    case None => Otro
    case Some(st) => MinuteBand(st.hour * 60 + st.minute)
  }

  /** The band label and colour of a price card: the hour of the parsed
      date-time, and a parse exception for a date-time that does not parse.
      For every card that renders, the colour agrees with the band filter. */
  function CardBand(p: Point): (r: Result<Band>)
    ensures r.Ok? <==> BandOf(p) != Otro
    ensures r.Ok? ==> r.value == BandOf(p)
  {
    match DisplayStamp(p.datetime)
    case None => Err(UnparseableDatetime)
    case Some(st) => Ok(HourBand(st.hour))
  }

  /** The price including the access toll and tax (`calcularPrecioConImpuestos`),
      euros per MWh: 0.05 euros per kWh of toll, then 1% of tax. */
  function WithTax(value: real): (r: real)
    ensures r - value == 50.5 + value / 100.0
  {
    (value + 0.05 * 1000.0) * (1.0 + 0.010)
  }

  /** The tax formula preserves the order of prices, so the cheapest and
      dearest views rank the taxed prices as they rank the raw ones. */
  lemma WithTaxMonotone(a: real, b: real)
    requires a <= b
    ensures WithTax(a) <= WithTax(b)
  {
  }
}
