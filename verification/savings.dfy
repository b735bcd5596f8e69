/** The optimisation screen's cost advice for one appliance: the suggested
    hours and their total cost, and the monthly saving against running the
    appliance at the day's dearest price. */
module Savings {
  import opened Base
  import opened Prices
  import opened Ordering
  import opened Settlement
  import opened Scheduler

  /** Days of use a month is taken to have: seven days a week for four weeks (`* 7 * 4`). */
  const DaysPerMonth: real := 28.0

  /** The average monthly bill, in euros, the saving is compared with. */
  const AverageBill: real := 60.0

  /** What the screen shows for an appliance with a non-empty suggestion. */
  datatype Advice = Advice(
    slices: seq<Slice>,     // the suggested hours with their costs
    totalCost: real,        // `costeTotal`
    dearestPrice: real,     // `precioMasCaro`, euros per MWh
    monthlyKwh: real,       // `consumoTotalMensual`
    optimalMonthly: real,   // `costeMensualOptimo`
    dearestMonthly: real,   // `costeMensualCaro`
    saving: real,           // `ahorroEstimado`
    percent: real,          // `porcentajeAhorro`
    banner: bool)           // whether the saving banner is shown

  /** The monthly energy of an appliance, in kWh. */
  function MonthlyKwh(appliance: Appliance): real {
    appliance.power / 1000.0 * (appliance.usageMinutes as real / 60.0) * DaysPerMonth
  }

  /** The figures derived from a non-empty suggestion. */
  function Derive(slices: seq<Slice>, appliance: Appliance, series: seq<Point>): (a: Advice)
    ensures a.slices == slices
    ensures a.totalCost == TotalCost(slices)
    ensures (forall i :: 0 <= i < |series| ==> series[i].value <= a.dearestPrice)
    ensures |series| > 0 ==> exists i :: 0 <= i < |series| && series[i].value == a.dearestPrice
    ensures |series| == 0 ==> a.dearestPrice == 0.0
    ensures a.monthlyKwh == MonthlyKwh(appliance)
    ensures a.optimalMonthly == a.totalCost * DaysPerMonth
    ensures a.dearestMonthly == a.dearestPrice / 1000.0 * a.monthlyKwh
    ensures a.saving == a.dearestMonthly - a.optimalMonthly
    ensures a.dearestMonthly == Cost(a.dearestPrice, appliance.power, appliance.usageMinutes) * DaysPerMonth
    ensures a.percent * AverageBill == a.saving * 100.0
    ensures a.banner <==> a.saving > 0.01
  {
    var total := TotalCost(slices);
    var dearest := MaxKeyOrZero(series, Price);
    var kwh := MonthlyKwh(appliance);
    var optimal := total * DaysPerMonth;
    var dearestMonthly := dearest / 1000.0 * kwh;
    var saving := dearestMonthly - optimal;
    var percent := saving / AverageBill * 100.0;
    DearestMonthlyIsDailyCost(dearest, appliance);
    Advice(slices, total, dearest, kwh, optimal, dearestMonthly, saving, percent, saving > 0.01)
  }

  /** The advice block of the optimisation screen: nothing when the power is
      not positive or there is no suggestion ("Introduce datos válidos o
      espera precios."), the exception of the scheduler when it throws, and
      the derived figures otherwise. */
  function Advise(appliance: Appliance, choice: string, nowHour: int, series: seq<Point>): (r: Result<Option<Advice>>)
    ensures appliance.power <= 0.0 ==> r == Ok(None)
    ensures r.Ok? && r.value.Some? ==>
      appliance.power > 0.0 && Schedule(choice, appliance, nowHour, series) == Ok(r.value.value.slices)
      && |r.value.value.slices| > 0 && r.value.value == Derive(r.value.value.slices, appliance, series)
    ensures var s := Schedule(choice, appliance, nowHour, series);
      appliance.power > 0.0 ==> (r.Err? <==> s.Err?) && (s.Err? ==> r == Err(s.fault))
    ensures var s := Schedule(choice, appliance, nowHour, series);
      appliance.power > 0.0 && s.Ok? && |s.value| > 0 ==> r == Ok(Some(Derive(s.value, appliance, series)))
    ensures appliance.power > 0.0 && Schedule(choice, appliance, nowHour, series) == Ok([]) ==> r == Ok(None)
  {
    if appliance.power <= 0.0 then Ok(None)
    else
      match Schedule(choice, appliance, nowHour, series)
      case Err(f) => Err(f)
      case Ok(slices) => if |slices| == 0 then Ok(None) else Ok(Some(Derive(slices, appliance, series)))
  }

  /** Cost is monotone in the price for a non-negative power and duration. */
  lemma CostMonotone(price: real, bound: real, power: real, minutes: int)
    requires price <= bound && power >= 0.0 && minutes >= 0
    ensures Cost(price, power, minutes) <= Cost(bound, power, minutes)
  {
    var k := power / 1000.0 / 60.0 * minutes as real;
    assert k >= 0.0;
    assert (price / 1000.0) * k <= (bound / 1000.0) * k;
  }

  /** Cost is additive in the duration. */
  lemma CostAdds(price: real, power: real, m: int, n: int)
    ensures Cost(price, power, m) + Cost(price, power, n) == Cost(price, power, m + n)
  {
    var c := power / 1000.0 / 60.0;
    assert c * m as real + c * n as real == c * (m + n) as real;
  }

  /** A walk over hours priced at most `bound` costs at most the walk's
      minutes at `bound`. */
  lemma {:induction false} WalkCostBound(hours: seq<Point>, minutes: int, power: real, bound: real, clock: Point -> Option<Clock>)
    requires power >= 0.0
    requires forall i :: 0 <= i < |hours| ==> hours[i].value <= bound
    requires Walk(hours, minutes, power, clock).Ok?
    ensures TotalCost(Walk(hours, minutes, power, clock).value) <= Cost(bound, power, TotalMinutes(Walk(hours, minutes, power, clock).value))
    decreases |hours|
  {
    if |hours| > 0 && minutes > 0 {
      var share := if minutes >= 60 then 60 else minutes;
      var r := Walk(hours, minutes, power, clock).value;
      var rest := Walk(hours[1..], minutes - share, power, clock).value;
      assert r == [r[0]] + rest;
      assert r[1..] == rest;
      WalkCostBound(hours[1..], minutes - share, power, bound, clock);
      CostMonotone(hours[0].value, bound, power, share);
      CostAdds(bound, power, share, TotalMinutes(rest));
    }
  }

  /** Cost is monotone in the duration for a non-negative price and power. */
  lemma CostGrowsWithMinutes(price: real, power: real, m: int, n: int)
    requires price >= 0.0 && power >= 0.0 && m <= n
    ensures Cost(price, power, m) <= Cost(price, power, n)
  {
    var c := power / 1000.0 / 60.0;
    assert c * m as real <= c * n as real;
    assert (price / 1000.0) * (c * m as real) <= (price / 1000.0) * (c * n as real);
  }

  /** The monthly cost at the dearest price is a month of daily use at that price. */
  lemma DearestMonthlyIsDailyCost(price: real, appliance: Appliance)
    ensures price / 1000.0 * MonthlyKwh(appliance) == Cost(price, appliance.power, appliance.usageMinutes) * DaysPerMonth
  {
    var p, w, u := price / 1000.0, appliance.power / 1000.0, appliance.usageMinutes as real;
    assert w * (u / 60.0) == w / 60.0 * u;
  }

  /** The saving of derived figures whose total cost is at most a day's use
      at the dearest price is not negative. */
  lemma SavingFromBound(slices: seq<Slice>, appliance: Appliance, series: seq<Point>)
    requires TotalCost(slices) <= Cost(MaxKeyOrZero(series, Price), appliance.power, appliance.usageMinutes)
    ensures Derive(slices, appliance, series).saving >= 0.0
  {
    var a := Derive(slices, appliance, series);
    assert a.saving == (Cost(a.dearestPrice, appliance.power, appliance.usageMinutes) - a.totalCost) * DaysPerMonth;
  }

  /** The estimated saving is never negative when the dearest price is not:
      every suggested hour is priced at most the dearest price, and the walk
      places no more than the appliance's minutes. */
  lemma SavingNotNegative(appliance: Appliance, choice: string, nowHour: int, series: seq<Point>)
    requires Advise(appliance, choice, nowHour, series).Ok? && Advise(appliance, choice, nowHour, series).value.Some?
    requires MaxKeyOrZero(series, Price) >= 0.0
    ensures Advise(appliance, choice, nowHour, series).value.value.saving >= 0.0
  {
    var a := Advise(appliance, choice, nowHour, series).value.value;
    var bound := MaxKeyOrZero(series, Price);
    var plan := Plan(StrategyOf(choice), PriorityOf(appliance.priority), nowHour, series);
    var u, power := appliance.usageMinutes, appliance.power;
    assert Settle(plan, u, power) == Ok(a.slices);
    assert forall i :: 0 <= i < |plan| ==> plan[i].value <= bound by {
      PlanWithinSeries(StrategyOf(choice), PriorityOf(appliance.priority), nowHour, series);
      forall i | 0 <= i < |plan| ensures plan[i].value <= bound {
        assert plan[i] in series;
      }
    }
    assert TotalCost(a.slices) <= Cost(bound, power, u) by {
      WalkCostBound(plan, u, power, bound, ClockOf);
      SettleShape(plan, u, power);
      CostGrowsWithMinutes(bound, power, TotalMinutes(a.slices), u);
    }
    SavingFromBound(a.slices, appliance, series);
  }

  /** The figure the saving banner prints as "un X% de una factura media
      mensual de 60 €", as written: the format call is handed the saving
      first and the percentage second, and the single `%.1f` takes the first. */
  function BannerFigureAsWritten(a: Advice): real {
    a.saving
  }

  /** The figure the banner evidently means: the saving as a percentage of the
      average bill. */
  function BannerFigure(a: Advice): real {
    a.percent
  }

  /** The corrected banner figure is the saving's share of the average bill,
      in percent. */
  lemma BannerFigureIsShareOfBill(slices: seq<Slice>, appliance: Appliance, series: seq<Point>)
    ensures BannerFigure(Derive(slices, appliance, series)) * AverageBill
      == Derive(slices, appliance, series).saving * 100.0
  {
  }

  /** As written, the banner misstates the percentage whenever there is a
      saving: a saving of 6 euros is printed as "6.0%" instead of "10.0%". */
  lemma BannerAsWrittenMisstates(slices: seq<Slice>, appliance: Appliance, series: seq<Point>)
    requires Derive(slices, appliance, series).saving != 0.0
    ensures BannerFigureAsWritten(Derive(slices, appliance, series)) != BannerFigure(Derive(slices, appliance, series))
  {
    var a := Derive(slices, appliance, series);
    assert a.percent * 60.0 == a.saving * 100.0;
  }

  /** A concrete banner: 6 euros saved out of a 60 euro bill reads as 6, not 10. */
  lemma BannerSixEuros(a: Advice)
    requires a.saving == 6.0 && a.percent * AverageBill == a.saving * 100.0
    ensures BannerFigureAsWritten(a) == 6.0 && BannerFigure(a) == 10.0
  {
  }
}
