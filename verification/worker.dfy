/** The background price worker (`PrecioWorker.doWork`): it fetches the next
    day's prices, synthesises a PVPC estimate from the spot series when the
    payload has no PVPC values, caches that estimate, builds the per-hour
    estimate table and stores the last spot price. */
module Worker {
  import opened Base
  import opened Text
  import opened Calendar
  import opened Prices

  datatype Outcome = Success | Retry

  /** What one run leaves behind: the worker's result, the `included` list as
      extended, the estimate table (`listaEstimaciones`) and the store. */
  datatype WorkerRun = WorkerRun(outcome: Outcome, included: seq<Series>, estimates: map<string, real>, store: Store)

  /** `forceRevisionPVPC`: whether the date, read a second time
      (`todayAgain`), is the base date computed from the first read (`today`)
      plus one day. The two reads agree unless the run crosses midnight
      between them. */
  function ForceRevision(today: Date, todayAgain: Date): bool
    requires Valid(today)
  {
    todayAgain == Next(today)
  }

  /** The flag holds only across midnight: when both reads give the same day
      it is false, it needs the second read to be a later day, and a run
      whose second read falls on the next day does raise it. */
  lemma ForceRevisionOnlyAcrossMidnight(today: Date, todayAgain: Date)
    requires Valid(today)
    ensures todayAgain == today ==> !ForceRevision(today, todayAgain)
    ensures ForceRevision(today, todayAgain) ==> Valid(todayAgain) && Before(today, todayAgain)
    ensures ForceRevision(today, Next(today))
  {
  }

  /** The spot series: the first whose title contains "spot", ignoring case. */
  function SpotSeries(included: seq<Series>): Option<Series> {
    FirstWhere(included, (s: Series) => ContainsIgnoreCase(s.title, "spot"))
  }

  /** The PVPC series: the first whose title contains "pvpc", ignoring case. */
  function PvpcSeries(included: seq<Series>): Option<Series> {
    FirstWhere(included, (s: Series) => ContainsIgnoreCase(s.title, "pvpc"))
  }

  /** The PVPC values, empty when there is no PVPC series. */
  function PvpcPoints(included: seq<Series>): seq<Point> {
    match PvpcSeries(included)
    case None => []
    case Some(s) => s.points
  }

  /** The spot values, empty when there is no spot series. */
  function SpotPoints(included: seq<Series>): seq<Point> {
    match SpotSeries(included)
    case None => []
    case Some(s) => s.points
  }

  /** An estimate is synthesised when the PVPC values are missing or empty
      and there is a spot series. */
  predicate NeedsEstimate(included: seq<Series>) {
    |PvpcPoints(included)| == 0 && SpotSeries(included).Some?
  }

  /** The synthesised PVPC series: the spot series under the estimate's
      identity, with `offset` added to every value. Shifting its values back
      recovers the spot values. */
  function Synthesise(spot: Series, offset: real): (e: Series)
    ensures e.kind == "pvpc-estimado" && e.id == "9999" && e.title == "PVPC (estimado)"
    ensures e.lastUpdate == spot.lastUpdate
    ensures |e.points| == |spot.points|
    ensures forall i :: 0 <= i < |e.points| ==> e.points[i].datetime == spot.points[i].datetime
    ensures Shift(e.points, -offset) == spot.points
  {
    ShiftInverse(spot.points, offset);
    Series("pvpc-estimado", "9999", "PVPC (estimado)", spot.lastUpdate, Shift(spot.points, offset))
  }

  /** The estimate table built by `forEach` over `points`: each date-time is
      entered with its value plus `offset`, the later entry overwriting. */
  function Estimates(points: seq<Point>, offset: real): map<string, real> {
    if |points| == 0 then map[]
    else
      var last := points[|points| - 1];
      Estimates(points[..|points| - 1], offset)[last.datetime := last.value + offset]
  }

  /** No later point of `points` has the date-time of point `i`. */
  predicate LastOccurrence(points: seq<Point>, i: int)
    requires 0 <= i < |points|
  {
    forall j :: i < j < |points| ==> points[j].datetime != points[i].datetime
  }

  /** The table holds exactly the date-times of `points`. */
  lemma {:induction false} EstimatesKeys(points: seq<Point>, offset: real)
    ensures forall k :: k in Estimates(points, offset) <==> exists i :: 0 <= i < |points| && points[i].datetime == k
  {
    if |points| > 0 {
      var n := |points| - 1;
      var init := points[..n];
      EstimatesKeys(init, offset);
      forall k ensures k in Estimates(points, offset) <==> exists i :: 0 <= i < |points| && points[i].datetime == k {
        if k != points[n].datetime && exists i :: 0 <= i < |points| && points[i].datetime == k {
          var i :| 0 <= i < |points| && points[i].datetime == k;
          assert init[i].datetime == k;
        }
        if exists i :: 0 <= i < n && init[i].datetime == k {
          var i :| 0 <= i < n && init[i].datetime == k;
          assert points[i].datetime == k;
        }
      }
    }
  }

  /** Each date-time maps to the value of its last occurrence plus `offset`. */
  lemma {:induction false} EstimatesLastWins(points: seq<Point>, offset: real, i: int)
    requires 0 <= i < |points| && LastOccurrence(points, i)
    ensures points[i].datetime in Estimates(points, offset)
    ensures Estimates(points, offset)[points[i].datetime] == points[i].value + offset
  {
    var n := |points| - 1;
    if i < n {
      var init := points[..n];
      assert init[i] == points[i];
      assert LastOccurrence(init, i);
      EstimatesLastWins(init, offset, i);
    }
  }

  /** The `forEach` loop that fills the table. */
  method EstimateLoop(points: seq<Point>, offset: real) returns (m: map<string, real>)
    ensures m == Estimates(points, offset)
  {
    m := map[];
    var i := 0;
    while i < |points|
      invariant 0 <= i <= |points|
      invariant m == Estimates(points[..i], offset)
    {
      assert points[..i + 1][..i] == points[..i];
      m := m[points[i].datetime := points[i].value + offset];
      i := i + 1;
    }
    assert points[..i] == points;
  }

  lemma ShiftPrefix(points: seq<Point>, offset: real, n: nat)
    requires n <= |points|
    ensures Shift(points, offset)[..n] == Shift(points[..n], offset)
  {
  }

  /** The table built from the spot values plus the offset is the table of
      the synthesised series' own values: both give every spot date-time the
      same estimate. */
  lemma {:induction false} EstimatesMatchSynthesised(points: seq<Point>, offset: real)
    ensures Estimates(points, offset) == Estimates(Shift(points, offset), 0.0)
    decreases |points|
  {
    if |points| > 0 {
      var n := |points| - 1;
      var shifted := Shift(points, offset);
      ShiftPrefix(points, offset, n);
      EstimatesMatchSynthesised(points[..n], offset);
      assert shifted[..n] == Shift(points[..n], offset);
      assert shifted[n].value + 0.0 == points[n].value + offset;
      assert shifted[n].datetime == points[n].datetime;
      assert Estimates(points, offset) == Estimates(points[..n], offset)[points[n].datetime := points[n].value + offset];
      assert Estimates(shifted, 0.0) == Estimates(shifted[..n], 0.0)[shifted[n].datetime := shifted[n].value + 0.0];
    }
  }

  /** One run of the worker on the fetched payload (`None` when the request
      failed, which makes the worker ask to be retried with nothing written). */
  function DoWork(today: Date, todayAgain: Date, fetched: Option<Payload>, store: Store, offset: real): (r: WorkerRun)
    requires Valid(today)
    ensures fetched.None? ==> r.outcome == Retry && r.store == store
    ensures fetched.Some? ==> r.outcome == Success
  {
    match fetched
    case None => WorkerRun(Retry, [], map[], store)
    case Some(p) =>
      var included := p.included.GetOr([]);
      var synthesise := NeedsEstimate(included);
      var estimate := if synthesise then Some(Synthesise(SpotSeries(included).value, offset)) else None;
      var extended := if synthesise then included + [estimate.value] else included;
      var pvpcValues := if synthesise then estimate.value.points else PvpcPoints(included);
      var table := if |pvpcValues| > 0 && ForceRevision(today, todayAgain) then Estimates(pvpcValues, 0.0)
                   else Estimates(SpotPoints(included), offset);
      var cached := if synthesise then estimate else store.estimate;
      var spot := match Last(SpotPoints(included)) case Some(q) => Some(q.value) case None => store.spot;
      WorkerRun(Success, extended, table, store.(estimate := cached, spot := spot))
  }

  /** A successful run appends the synthesised estimate exactly when the PVPC
      values are missing and a spot series exists, and caches it then and only
      then; a non-empty PVPC series leaves both the list and the cache alone. */
  lemma WorkerSynthesis(today: Date, todayAgain: Date, p: Payload, store: Store, offset: real)
    requires Valid(today)
    ensures var included := p.included.GetOr([]);
      var r := DoWork(today, todayAgain, Some(p), store, offset);
      && r.included[..|included|] == included
      && (NeedsEstimate(included) ==>
            && |r.included| == |included| + 1
            && r.included[|included|] == Synthesise(SpotSeries(included).value, offset)
            && r.store.estimate == Some(r.included[|included|]))
      && (!NeedsEstimate(included) ==> r.included == included && r.store.estimate == store.estimate)
      && r.store.pvpc == store.pvpc
  {
    var included := p.included.GetOr([]);
    var r := DoWork(today, todayAgain, Some(p), store, offset);
    if NeedsEstimate(included) {
      assert (included + [Synthesise(SpotSeries(included).value, offset)])[..|included|] == included;
    }
  }

  /** The estimate table comes from the real PVPC values exactly when the
      run crosses midnight between its two date reads and the payload has
      PVPC values; otherwise, including when the estimate was synthesised,
      it is the spot values plus the offset. The stored spot price is the
      last spot value (in euros per MWh), left unchanged when there is none. */
  lemma WorkerTableAndSpot(today: Date, todayAgain: Date, p: Payload, store: Store, offset: real)
    requires Valid(today)
    ensures var included := p.included.GetOr([]);
      var r := DoWork(today, todayAgain, Some(p), store, offset);
      var fromPvpc := ForceRevision(today, todayAgain) && |PvpcPoints(included)| > 0;
      && (fromPvpc ==> r.estimates == Estimates(PvpcPoints(included), 0.0))
      && (!fromPvpc ==> r.estimates == Estimates(SpotPoints(included), offset))
      && (|SpotPoints(included)| > 0 ==> r.store.spot == Some(SpotPoints(included)[|SpotPoints(included)| - 1].value))
      && (|SpotPoints(included)| == 0 ==> r.store.spot == store.spot)
  {
    var included := p.included.GetOr([]);
    if NeedsEstimate(included) {
      EstimatesMatchSynthesised(SpotPoints(included), offset);
    }
  }
}
