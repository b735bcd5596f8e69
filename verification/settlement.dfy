/** The settlement walk of the appliance optimiser (`calcularCosteDesdeHoras`):
    starting from the first hour it is given, the walk charges up to 60
    minutes of use to each hour in turn, at that hour's price, until the
    appliance's minutes are used up or the hours run out. */
module Settlement {
  import opened Base
  import opened Prices

  /** One suggested hour: its `HH:mm` label, the minutes of use charged to it
      (implicit in the source, which keeps only the label and the cost), and
      its cost in euros. */
  datatype Slice = Slice(at: Clock, minutes: int, cost: real)

  /** Cost of `minutes` of use at `power` watts in an hour priced at `price`
      euros per MWh: euros per kWh times the kWh drawn. */
  function Cost(price: real, power: real, minutes: int): real {
    (price / 1000.0) * (power / 1000.0 / 60.0 * minutes as real)
  }

  /** How many of `n` hours a walk of `minutes` minutes charges. */
  function HoursCharged(n: nat, minutes: int): (k: nat)
    ensures k <= n
  {
    if minutes <= 0 then 0 else Min(n, (minutes + 59) / 60)
  }

  /** The minutes of use charged to hour `i`: a full hour, or what is left. */
  function Share(i: nat, minutes: int): int {
    Min(60, minutes - 60 * i)
  }

  /** The minutes of use a walk over `n` hours can place. */
  function Allotted(n: nat, minutes: int): int {
    if minutes <= 0 then 0 else Min(minutes, 60 * n)
  }

  function TotalMinutes(r: seq<Slice>): int {
    if |r| == 0 then 0 else r[0].minutes + TotalMinutes(r[1..])
  }

  /** The total cost the optimisation screen shows: the sum of the slice costs. */
  function TotalCost(r: seq<Slice>): real {
    if |r| == 0 then 0.0 else r[0].cost + TotalCost(r[1..])
  }

  /** One step of the walk, in the closed forms above. */
  lemma WalkStep(n: nat, minutes: int)
    requires n >= 1 && minutes > 0
    ensures var rest := minutes - Share(0, minutes);
      && HoursCharged(n, minutes) == 1 + HoursCharged(n - 1, rest)
      && Allotted(n, minutes) == Share(0, minutes) + Allotted(n - 1, rest)
      && (minutes >= 60 ==> forall i: nat :: Share(i + 1, minutes) == Share(i, rest))
  {
  }

  /** The walk over `hours` in the order given, with `clock` reading each
      hour's `HH:mm` label (null where its date-time does not parse). An hour
      without a label, reached while minutes remain, makes the walk throw. */
  function Walk(hours: seq<Point>, minutes: int, power: real, clock: Point -> Option<Clock>): Result<seq<Slice>>
    decreases |hours|
  {
    if |hours| == 0 || minutes <= 0 then Ok([])
    else
      var share := if minutes >= 60 then 60 else minutes;
      match clock(hours[0])
      case None => Err(UnparseableDatetime)
      case Some(at) =>
        match Walk(hours[1..], minutes - share, power, clock)
        case Err(f) => Err(f)
        case Ok(rest) => Ok([Slice(at, share, Cost(hours[0].value, power, share))] + rest)
  }

  /** The walk as the source performs it: labels are read by parsing each
      date-time and formatting it as `HH:mm`. */
  function Settle(hours: seq<Point>, minutes: int, power: real): Result<seq<Slice>> {
    Walk(hours, minutes, power, ClockOf)
  }

  /** The walk fails only at an hour it reaches that has no label, and then
      with a parse failure. */
  lemma {:induction false} WalkFailsAtUnlabelled(hours: seq<Point>, minutes: int, power: real, clock: Point -> Option<Clock>)
    ensures var r := Walk(hours, minutes, power, clock);
      r.Err? ==> (r.fault == UnparseableDatetime
        && exists i :: 0 <= i < HoursCharged(|hours|, minutes) && clock(hours[i]).None?)
    decreases |hours|
  {
    if |hours| > 0 && minutes > 0 && clock(hours[0]).Some? {
      var share := if minutes >= 60 then 60 else minutes;
      WalkStep(|hours|, minutes);
      WalkFailsAtUnlabelled(hours[1..], minutes - share, power, clock);
      if Walk(hours[1..], minutes - share, power, clock).Err? {
        var i :| 0 <= i < HoursCharged(|hours| - 1, minutes - share) && clock(hours[1..][i]).None?;
        assert hours[1..][i] == hours[i + 1];
      }
    }
  }

  /** The walk succeeds when every hour it reaches has a label. */
  lemma {:induction false} WalkSucceedsOnLabelled(hours: seq<Point>, minutes: int, power: real, clock: Point -> Option<Clock>)
    requires forall i :: 0 <= i < HoursCharged(|hours|, minutes) ==> clock(hours[i]).Some?
    ensures Walk(hours, minutes, power, clock).Ok?
    decreases |hours|
  {
    if |hours| > 0 && minutes > 0 {
      var share := if minutes >= 60 then 60 else minutes;
      WalkStep(|hours|, minutes);
      assert clock(hours[0]).Some?;
      forall i | 0 <= i < HoursCharged(|hours| - 1, minutes - share)
        ensures clock(hours[1..][i]).Some?
      {
        assert hours[1..][i] == hours[i + 1];
      }
      WalkSucceedsOnLabelled(hours[1..], minutes - share, power, clock);
    }
  }

  /** What a successful walk produces: it charges hour `i` its share of the
      minutes at that hour's price, and places all minutes the hours can take. */
  lemma {:induction false} WalkSlices(hours: seq<Point>, minutes: int, power: real, clock: Point -> Option<Clock>)
    requires Walk(hours, minutes, power, clock).Ok?
    ensures var r := Walk(hours, minutes, power, clock).value;
      && |r| == HoursCharged(|hours|, minutes)
      && (forall i :: 0 <= i < |r| ==>
            && clock(hours[i]) == Some(r[i].at)
            && r[i].minutes == Share(i, minutes)
            && r[i].cost == Cost(hours[i].value, power, Share(i, minutes)))
      && TotalMinutes(r) == Allotted(|hours|, minutes)
    decreases |hours|
  {
    if |hours| > 0 && minutes > 0 {
      var share := if minutes >= 60 then 60 else minutes;
      var r := Walk(hours, minutes, power, clock).value;
      var rest := Walk(hours[1..], minutes - share, power, clock).value;
      WalkStep(|hours|, minutes);
      WalkSlices(hours[1..], minutes - share, power, clock);
      assert r == [r[0]] + rest;
      assert r[1..] == rest;
      forall i | 1 <= i < |r|
        ensures clock(hours[i]) == Some(r[i].at) && r[i].minutes == Share(i, minutes)
      {
        assert r[i] == rest[i - 1] && hours[i] == hours[1..][i - 1];
      }
    }
  }

  /** What the walk produces: it fails exactly when one of the hours it
      reaches does not parse; otherwise it charges hour `i` its share of the
      minutes at that hour's price, and places all minutes the hours can take. */
  lemma SettleShape(hours: seq<Point>, minutes: int, power: real)
    ensures var r := Settle(hours, minutes, power);
      && (r.Ok? <==> forall i :: 0 <= i < HoursCharged(|hours|, minutes) ==> ClockOf(hours[i]).Some?)
      && (r.Err? ==> r.fault == UnparseableDatetime)
      && (r.Ok? ==> |r.value| == HoursCharged(|hours|, minutes))
      && (r.Ok? ==> forall i :: 0 <= i < |r.value| ==>
            && ClockOf(hours[i]) == Some(r.value[i].at)
            && r.value[i].minutes == Share(i, minutes)
            && r.value[i].cost == Cost(hours[i].value, power, Share(i, minutes)))
      && (r.Ok? ==> TotalMinutes(r.value) == Allotted(|hours|, minutes))
  {
    WalkFailsAtUnlabelled(hours, minutes, power, ClockOf);
    if forall i :: 0 <= i < HoursCharged(|hours|, minutes) ==> ClockOf(hours[i]).Some? {
      WalkSucceedsOnLabelled(hours, minutes, power, ClockOf);
    }
    if Settle(hours, minutes, power).Ok? {
      WalkSlices(hours, minutes, power, ClockOf);
    }
  }

  /** A walk over hours that all parse never fails, and labels each slice
      with its own hour's time. */
  lemma SettleOverParsed(hours: seq<Point>, minutes: int, power: real)
    requires forall i :: 0 <= i < |hours| ==> ClockOf(hours[i]).Some?
    ensures var r := Settle(hours, minutes, power);
      && r.Ok? && |r.value| <= |hours|
      && forall i :: 0 <= i < |r.value| ==> ClockOf(hours[i]) == Some(r.value[i].at)
  {
    SettleShape(hours, minutes, power);
  }

  /** Prepends the slices already produced to the outcome of the rest of a walk. */
  function Prepend(done: seq<Slice>, rest: Result<seq<Slice>>): Result<seq<Slice>> {
    match rest
    case Ok(s) => Ok(done + s)
    case Err(f) => Err(f)
  }

  /** One step of the walk, stated on `Walk` itself. */
  lemma WalkUnfolds(hours: seq<Point>, minutes: int, power: real, clock: Point -> Option<Clock>)
    requires |hours| > 0 && minutes > 0
    ensures var share := if minutes >= 60 then 60 else minutes;
      Walk(hours, minutes, power, clock) ==
        match clock(hours[0])
        case None => Err(UnparseableDatetime)
        case Some(at) => Prepend([Slice(at, share, Cost(hours[0].value, power, share))], Walk(hours[1..], minutes - share, power, clock))
  {
  }

  lemma PrependNothing(rest: Result<seq<Slice>>)
    ensures Prepend([], rest) == rest
  {
    if rest.Ok? {
      assert [] + rest.value == rest.value;
    }
  }

  lemma PrependAssoc(a: seq<Slice>, b: seq<Slice>, rest: Result<seq<Slice>>)
    ensures Prepend(a, Prepend(b, rest)) == Prepend(a + b, rest)
  {
    if rest.Ok? {
      assert a + (b + rest.value) == (a + b) + rest.value;
    }
  }

  /** One iteration of the source's loop, as a step on the remaining walk. */
  lemma LoopStep(hours: seq<Point>, i: nat, remaining: int, power: real, done: seq<Slice>, clock: Point -> Option<Clock>)
    requires i < |hours| && remaining > 0
    ensures var share := if remaining >= 60 then 60 else remaining;
      match clock(hours[i])
      case None => Prepend(done, Walk(hours[i..], remaining, power, clock)) == Err(UnparseableDatetime)
      case Some(at) =>
        Prepend(done, Walk(hours[i..], remaining, power, clock))
        == Prepend(done + [Slice(at, share, Cost(hours[i].value, power, share))], Walk(hours[i + 1..], remaining - share, power, clock))
  {
    var share := if remaining >= 60 then 60 else remaining;
    WalkUnfolds(hours[i..], remaining, power, clock);
    assert hours[i..][1..] == hours[i + 1..];
    if at :| clock(hours[i]) == Some(at) {
      PrependAssoc(done, [Slice(at, share, Cost(hours[i].value, power, share))], Walk(hours[i + 1..], remaining - share, power, clock));
    }
  }

  /** The loop's exit: no hours or no minutes remain. */
  lemma LoopDone(hours: seq<Point>, i: nat, remaining: int, power: real, done: seq<Slice>, clock: Point -> Option<Clock>)
    requires i <= |hours| && (i == |hours| || remaining <= 0)
    ensures Prepend(done, Walk(hours[i..], remaining, power, clock)) == Ok(done)
  {
    assert done + [] == done;
  }

  /** The loop of `calcularCosteDesdeHoras`, computing the same walk. */
  method SettleLoop(hours: seq<Point>, minutes: int, power: real) returns (r: Result<seq<Slice>>)
    ensures r == Settle(hours, minutes, power)
  {
    var slices: seq<Slice> := [];
    var remaining := minutes;
    var i := 0;
    assert hours[i..] == hours;
    PrependNothing(Walk(hours, minutes, power, ClockOf));
    while i < |hours| && remaining > 0
      invariant 0 <= i <= |hours|
      invariant Walk(hours, minutes, power, ClockOf) == Prepend(slices, Walk(hours[i..], remaining, power, ClockOf))
    {
      var share := if remaining >= 60 then 60 else remaining;
      var at := ClockOf(hours[i]);
      LoopStep(hours, i, remaining, power, slices, ClockOf);
      if at.None? {
        return Err(UnparseableDatetime);
      }
      slices := slices + [Slice(at.value, share, Cost(hours[i].value, power, share))];
      remaining := remaining - share;
      i := i + 1;
    }
    LoopDone(hours, i, remaining, power, slices, ClockOf);
    r := Ok(slices);
  }
}
