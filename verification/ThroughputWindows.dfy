/** Rate limits: what the throughput controller guarantees about any window of time. */
module ThroughputWindows {
  import opened Common
  import opened Ranges
  import opened Totals
  import opened ThroughputModel
  import opened ThroughputRuns

  // ---------------------------------------------------------------- how long a record lives

  /** The step adds no value for the order. */
  ghost predicate LeavesAlone(w: World, e: Event, id: OrderId) {
    !(e.Land? && e.p in w.flights && w.flights[e.p].id == id)
  }

  ghost predicate AllLeaveAlone(cfg: Config, w: World, es: seq<Event>, id: OrderId)
    requires Legal(cfg, w, es)
    decreases |es|
  {
    es == [] || (LeavesAlone(w, es[0], id) && AllLeaveAlone(cfg, Step(cfg, w, es[0]), es[1..], id))
  }

  ghost predicate Timed(w: World) {
    Consistent(w.s) && (forall t :: t in w.s.timers ==> t in w.due)
  }

  /** The order is recorded under timer t0, and no timer of the order is due before `end`. */
  ghost predicate Protected(w: World, id: OrderId, t0: nat, end: int) {
    && Timed(w)
    && id in w.s.records && w.s.records[id].timer == t0
    && forall t :: t in w.s.timers && w.s.timers[t].id == id ==> w.due[t] >= end
  }

  lemma StepProtected(cfg: Config, w: World, e: Event, id: OrderId, t0: nat, end: int)
    requires Enabled(cfg, w, e) && LeavesAlone(w, e, id) && Protected(w, id, t0, end) && w.now < end
    ensures Protected(Step(cfg, w, e), id, t0, end)
  {
    match e
    case Land(p, value) =>
      AddConsistent(w.s, w.flights[p].id, w.flights[p].c, value);
      RemoveConsistent(w.s, w.flights[p].id);
    case Fires(t) => FireConsistent(w.s, t);
    case _ =>
  }

  lemma {:induction false} ClockOnlyAdvances(cfg: Config, w: World, es: seq<Event>)
    requires Legal(cfg, w, es)
    ensures w.now <= Run(cfg, w, es).now
    decreases |es|
  {
    if es != [] {
      ClockOnlyAdvances(cfg, Step(cfg, w, es[0]), es[1..]);
    }
  }

  lemma {:induction false} RunProtected(cfg: Config, w: World, es: seq<Event>, id: OrderId, t0: nat, end: int)
    requires Legal(cfg, w, es) && AllLeaveAlone(cfg, w, es, id) && Protected(w, id, t0, end)
    requires Run(cfg, w, es).now < end
    ensures Protected(Run(cfg, w, es), id, t0, end)
    decreases |es|
  {
    if es != [] {
      ClockOnlyAdvances(cfg, w, es);
      StepProtected(cfg, w, es[0], id, t0, end);
      RunProtected(cfg, Step(cfg, w, es[0]), es[1..], id, t0, end);
    }
  }

  /** The order stays recorded until `end` along every run that does not add it again. */
  ghost predicate Survives(cfg: Config, w: World, id: OrderId, end: int) {
    forall es :: Legal(cfg, w, es) && AllLeaveAlone(cfg, w, es, id) && Run(cfg, w, es).now < end ==>
                   id in Run(cfg, w, es).s.records
  }

  lemma AddRecords(s: Controller, id: OrderId, c: int, value: nat, i: nat)
    requires Consistent(s) && GetMetric(s.metrics, c) == Some(i)
    ensures var r := AddOrder(s, id, c, value);
            && r.records == s.records[id := Record(value, c, s.next, i)]
            && r.timers == s.timers[s.next := Timer(id, s.metrics[i].limits.window)]
  {
    RemoveConsistent(s, id);
    assert (s.records - {id})[id := Record(value, c, s.next, i)] == s.records[id := Record(value, c, s.next, i)];
  }

  lemma LandingTimed(cfg: Config, w: World, p: ChainId, value: nat, i: nat)
    requires Timed(w) && Enabled(cfg, w, Land(p, value))
    requires GetMetric(w.s.metrics, w.flights[p].c) == Some(i)
    ensures var v := Step(cfg, w, Land(p, value));
            && Timed(v) && v.now == w.now < w.now + w.s.metrics[i].limits.window
            && forall t :: t in w.s.timers ==>
                 t < w.s.next && t in v.s.timers && v.s.timers[t] == w.s.timers[t] && v.due[t] == w.due[t]
  {
    AddRecords(w.s, w.flights[p].id, w.flights[p].c, value, i);
    AddConsistent(w.s, w.flights[p].id, w.flights[p].c, value);
  }

  lemma LandingProtected(cfg: Config, w: World, p: ChainId, value: nat, i: nat)
    requires Timed(w) && Enabled(cfg, w, Land(p, value))
    requires GetMetric(w.s.metrics, w.flights[p].c) == Some(i)
    requires var end := w.now + w.s.metrics[i].limits.window;
             forall t :: t in w.s.timers && w.s.timers[t].id == w.flights[p].id ==> w.due[t] >= end
    ensures Protected(Step(cfg, w, Land(p, value)), w.flights[p].id, w.s.next, w.now + w.s.metrics[i].limits.window)
  {
    LandingTimed(cfg, w, p, value, i);
    AddRecords(w.s, w.flights[p].id, w.flights[p].c, value, i);
  }

  lemma ProtectedSurvives(cfg: Config, w: World, id: OrderId, t0: nat, end: int)
    requires Protected(w, id, t0, end)
    ensures Survives(cfg, w, id, end)
  {
    forall es | Legal(cfg, w, es) && AllLeaveAlone(cfg, w, es, id) && Run(cfg, w, es).now < end
      ensures id in Run(cfg, w, es).s.records
    {
      RunProtected(cfg, w, es, id, t0, end);
    }
  }

  /** A value added to a constrained range is sure to stay locked for its whole window exactly when
      no timer left over from an earlier addition of the same order is due before the window ends. */
  lemma FullWindowIff(cfg: Config, w: World, p: ChainId, value: nat, i: nat)
    requires Timed(w) && Enabled(cfg, w, Land(p, value))
    requires GetMetric(w.s.metrics, w.flights[p].c) == Some(i)
    ensures var id, end := w.flights[p].id, w.now + w.s.metrics[i].limits.window;
            Survives(cfg, Step(cfg, w, Land(p, value)), id, end) <==>
            forall t :: t in w.s.timers && w.s.timers[t].id == id ==> w.due[t] >= end
  {
    var id, end := w.flights[p].id, w.now + w.s.metrics[i].limits.window;
    var v := Step(cfg, w, Land(p, value));
    LandingTimed(cfg, w, p, value, i);
    if t :| t in w.s.timers && w.s.timers[t].id == id && w.due[t] < end {
      EarlyTimerCutsShort(cfg, v, id, t, end);
    } else {
      LandingProtected(cfg, w, p, value, i);
      ProtectedSurvives(cfg, v, id, w.s.next, end);
    }
  }

  lemma EarlyTimerCutsShort(cfg: Config, w: World, id: OrderId, t: nat, end: int)
    requires Timed(w) && t in w.s.timers && w.s.timers[t].id == id && w.due[t] < end && w.now < end
    ensures !Survives(cfg, w, id, end)
  {
    var later := if w.now < w.due[t] then w.due[t] else w.now;
    var mid := Step(cfg, w, Advance(later));
    var last := Step(cfg, mid, Fires(t));
    FireConsistent(mid.s, t);
    assert Legal(cfg, last, []) && AllLeaveAlone(cfg, last, [], id) && Run(cfg, last, []) == last;
    var tail := [Fires(t)];
    assert tail[1..] == [];
    assert Legal(cfg, mid, tail) && AllLeaveAlone(cfg, mid, tail, id) && Run(cfg, mid, tail) == last;
    var es := [Advance(later)] + tail;
    assert es[1..] == tail;
    assert Legal(cfg, w, es) && AllLeaveAlone(cfg, w, es, id) && Run(cfg, w, es) == last;
  }

  // ---------------------------------------------------------------- the rate limit

  ghost function WindowOf(s: Controller, e: Entry): int {
    if e.metric < |s.metrics| then s.metrics[e.metric].limits.window else 0
  }

  ghost predicate Recent(w: World, e: Entry) {
    w.now < e.time + WindowOf(w.s, e)
  }

  /** The addition is within its window, and of some value. */
  ghost predicate Counts(w: World, e: Entry) {
    Recent(w, e) && e.value > 0
  }

  /** An addition of the order still counts. */
  ghost predicate RecentlyAdded(w: World, id: OrderId) {
    exists k :: 0 <= k < |w.log| && w.log[k].id == id && Counts(w, w.log[k])
  }

  /** A timer of the order is due before the given time. */
  ghost predicate DueBefore(w: World, id: OrderId, end: int) {
    exists t :: t in w.s.timers && w.s.timers[t].id == id && t in w.due && w.due[t] < end
  }

  /** An addition is safe if no earlier addition of the order still counts, and no timer of the order
      is due before the window of a new value ends. */
  ghost predicate Safe(w: World, e: Event) {
    e.Land? && e.p in w.flights ==>
      var i := GetMetric(w.s.metrics, w.flights[e.p].c);
      i.Some? ==>
        && !RecentlyAdded(w, w.flights[e.p].id)
        && (e.value > 0 ==> !DueBefore(w, w.flights[e.p].id, w.now + w.s.metrics[i.value].limits.window))
  }

  ghost predicate AllSafe(cfg: Config, w: World, es: seq<Event>)
    requires Legal(cfg, w, es)
    decreases |es|
  {
    es == [] || (Safe(w, es[0]) && AllSafe(cfg, Step(cfg, w, es[0]), es[1..]))
  }

  /** The addition is still recorded, and no timer of its order is due before its window ends. */
  ghost predicate Recorded(w: World, e: Entry) {
    && e.id in w.s.records
    && w.s.records[e.id].metric == e.metric
    && w.s.records[e.id].value == e.value
    && !DueBefore(w, e.id, e.time + WindowOf(w.s, e))
  }

  ghost predicate AllRecorded(w: World) {
    forall k :: 0 <= k < |w.log| && Counts(w, w.log[k]) ==> Recorded(w, w.log[k])
  }

  ghost predicate AllDifferent(w: World) {
    forall j, k :: 0 <= j < k < |w.log| && Counts(w, w.log[j]) && Counts(w, w.log[k]) ==> w.log[j].id != w.log[k].id
  }

  /** The additions that count are still recorded, and are of different orders. */
  ghost predicate Remembers(w: World) {
    (forall t :: t in w.s.timers ==> t in w.due) && AllRecorded(w) && AllDifferent(w)
  }

  lemma FireKeepsRecorded(cfg: Config, w: World, t: nat, e: Entry)
    requires Plausible(cfg, w) && Enabled(cfg, w, Fires(t)) && Recent(w, e) && Recorded(w, e)
    ensures var v := Step(cfg, w, Fires(t)); Recent(v, e) && Recorded(v, e)
  {
    FireConsistent(w.s, t);
    var v := Step(cfg, w, Fires(t));
    assert w.s.timers[t].id != e.id;
    assert DueBefore(v, e.id, e.time + WindowOf(v.s, e)) ==> DueBefore(w, e.id, e.time + WindowOf(w.s, e));
  }

  lemma FireRemembers(cfg: Config, w: World, t: nat)
    requires Plausible(cfg, w) && Remembers(w) && Enabled(cfg, w, Fires(t))
    ensures Remembers(Step(cfg, w, Fires(t)))
  {
    FireConsistent(w.s, t);
    var v := Step(cfg, w, Fires(t));
    forall k | 0 <= k < |w.log|
      ensures Counts(v, w.log[k]) <==> Counts(w, w.log[k])
      ensures Counts(w, w.log[k]) ==> Recorded(v, w.log[k])
    {
      if Counts(w, w.log[k]) {
        FireKeepsRecorded(cfg, w, t, w.log[k]);
      }
    }
  }

  /** What an addition to a constrained range does. */
  lemma Landing(cfg: Config, w: World, p: ChainId, value: nat, i: nat)
    requires Plausible(cfg, w) && Enabled(cfg, w, Land(p, value))
    requires GetMetric(w.s.metrics, w.flights[p].c) == Some(i)
    ensures var v, f := Step(cfg, w, Land(p, value)), w.flights[p];
            var end := w.now + w.s.metrics[i].limits.window;
            && SameLimits(v.s.metrics, w.s.metrics) && w.s.next !in w.s.timers
            && v.s.records == w.s.records[f.id := Record(value, f.c, w.s.next, i)]
            && v.s.timers == w.s.timers[w.s.next := Timer(f.id, w.s.metrics[i].limits.window)]
            && v.due == w.due[w.s.next := end]
            && v.log == w.log + [Entry(f.id, i, value, w.now)] && v.now == w.now
  {
    AddRecords(w.s, w.flights[p].id, w.flights[p].c, value, i);
    AddConsistent(w.s, w.flights[p].id, w.flights[p].c, value);
  }

  lemma LandKeepsRecorded(cfg: Config, w: World, p: ChainId, value: nat, i: nat, e: Entry)
    requires Plausible(cfg, w) && Enabled(cfg, w, Land(p, value)) && e.id != w.flights[p].id
    requires GetMetric(w.s.metrics, w.flights[p].c) == Some(i) && Recorded(w, e)
    ensures Recorded(Step(cfg, w, Land(p, value)), e)
  {
    Landing(cfg, w, p, value, i);
    var v := Step(cfg, w, Land(p, value));
    assert DueBefore(v, e.id, e.time + WindowOf(v.s, e)) ==> DueBefore(w, e.id, e.time + WindowOf(w.s, e));
  }

  lemma NewRecorded(cfg: Config, w: World, p: ChainId, value: nat, i: nat)
    requires Plausible(cfg, w) && Enabled(cfg, w, Land(p, value)) && Safe(w, Land(p, value)) && value > 0
    requires GetMetric(w.s.metrics, w.flights[p].c) == Some(i)
    ensures Recorded(Step(cfg, w, Land(p, value)), Entry(w.flights[p].id, i, value, w.now))
  {
    Landing(cfg, w, p, value, i);
    var v, id := Step(cfg, w, Land(p, value)), w.flights[p].id;
    var end := w.now + w.s.metrics[i].limits.window;
    assert DueBefore(v, id, end) ==> DueBefore(w, id, end);
  }

  lemma LandKeepsAll(cfg: Config, w: World, p: ChainId, value: nat, i: nat, k: nat)
    requires Plausible(cfg, w) && Remembers(w) && Enabled(cfg, w, Land(p, value)) && Safe(w, Land(p, value))
    requires GetMetric(w.s.metrics, w.flights[p].c) == Some(i) && k < |w.log|
    ensures var v := Step(cfg, w, Land(p, value));
            && k < |v.log| && v.log[k] == w.log[k] && (Counts(v, w.log[k]) <==> Counts(w, w.log[k]))
            && (Counts(w, w.log[k]) ==> w.log[k].id != w.flights[p].id && Recorded(v, w.log[k]))
  {
    Landing(cfg, w, p, value, i);
    if Counts(w, w.log[k]) {
      assert w.log[k].id != w.flights[p].id;
      LandKeepsRecorded(cfg, w, p, value, i, w.log[k]);
    }
  }

  lemma LandRemembers(cfg: Config, w: World, p: ChainId, value: nat, i: nat)
    requires Plausible(cfg, w) && Remembers(w) && Enabled(cfg, w, Land(p, value)) && Safe(w, Land(p, value))
    requires GetMetric(w.s.metrics, w.flights[p].c) == Some(i)
    ensures Remembers(Step(cfg, w, Land(p, value)))
  {
    Landing(cfg, w, p, value, i);
    if value > 0 {
      NewRecorded(cfg, w, p, value, i);
    }
    var v, n := Step(cfg, w, Land(p, value)), |w.log|;
    forall k | 0 <= k < n
      ensures v.log[k] == w.log[k] && (Counts(v, v.log[k]) <==> Counts(w, w.log[k]))
      ensures Counts(w, w.log[k]) ==> w.log[k].id != v.log[n].id && Recorded(v, v.log[k])
    {
      LandKeepsAll(cfg, w, p, value, i, k);
    }
  }

  /** An addition to a constrained range leaves every addition that counts recorded once, and sure to
      stay so until its window ends, exactly if it is safe. */
  lemma LandRemembersIff(cfg: Config, w: World, p: ChainId, value: nat, i: nat)
    requires Plausible(cfg, w) && Remembers(w) && Enabled(cfg, w, Land(p, value))
    requires GetMetric(w.s.metrics, w.flights[p].c) == Some(i)
    ensures Remembers(Step(cfg, w, Land(p, value))) <==> Safe(w, Land(p, value))
  {
    if Safe(w, Land(p, value)) {
      LandRemembers(cfg, w, p, value, i);
    } else if RecentlyAdded(w, w.flights[p].id) {
      RepeatForgets(cfg, w, p, value, i);
    } else {
      EarlyTimerForgets(cfg, w, p, value, i);
    }
  }

  lemma RepeatForgets(cfg: Config, w: World, p: ChainId, value: nat, i: nat)
    requires Plausible(cfg, w) && Enabled(cfg, w, Land(p, value)) && RecentlyAdded(w, w.flights[p].id)
    requires GetMetric(w.s.metrics, w.flights[p].c) == Some(i)
    ensures !Remembers(Step(cfg, w, Land(p, value)))
  {
    Landing(cfg, w, p, value, i);
    var v, id, n := Step(cfg, w, Land(p, value)), w.flights[p].id, |w.log|;
    var k :| 0 <= k < n && w.log[k].id == id && Counts(w, w.log[k]);
    assert v.log[k] == w.log[k] && Counts(v, v.log[k]);
    assert v.log[n] == Entry(id, i, value, w.now) && Recent(v, v.log[n]);
    if value == 0 {
      assert !Recorded(v, v.log[k]);
    }
  }

  lemma EarlyTimerForgets(cfg: Config, w: World, p: ChainId, value: nat, i: nat)
    requires Plausible(cfg, w) && Enabled(cfg, w, Land(p, value)) && value > 0
    requires GetMetric(w.s.metrics, w.flights[p].c) == Some(i)
    requires DueBefore(w, w.flights[p].id, w.now + w.s.metrics[i].limits.window)
    ensures !Remembers(Step(cfg, w, Land(p, value)))
  {
    Landing(cfg, w, p, value, i);
    var v, id := Step(cfg, w, Land(p, value)), w.flights[p].id;
    var end := w.now + w.s.metrics[i].limits.window;
    assert v.log[|w.log|] == Entry(id, i, value, w.now) && Counts(v, v.log[|w.log|]);
    var t :| t in w.s.timers && w.s.timers[t].id == id && t in w.due && w.due[t] < end;
    assert t in v.s.timers && t in v.due && v.due[t] < end;
    assert DueBefore(v, id, end);
  }

  lemma StepRemembers(cfg: Config, w: World, e: Event)
    requires Plausible(cfg, w) && Remembers(w) && Enabled(cfg, w, e) && Safe(w, e)
    ensures Remembers(Step(cfg, w, e))
  {
    match e
    case Land(p, value) =>
      var metric := GetMetric(w.s.metrics, w.flights[p].c);
      if metric.Some? {
        LandRemembers(cfg, w, p, value, metric.value);
      } else {
        StaysRemembered(w, Step(cfg, w, e));
      }
    case Fires(t) => FireRemembers(cfg, w, t);
    case _ => StaysRemembered(w, Step(cfg, w, e));
  }

  lemma StaysRemembered(w: World, v: World)
    requires Remembers(w) && v.s == w.s && v.due == w.due && v.log == w.log && w.now <= v.now
    ensures Remembers(v)
  {
    forall k | 0 <= k < |w.log| && Counts(v, w.log[k])
      ensures Counts(w, w.log[k]) && Recorded(v, w.log[k])
    {
      assert Recorded(w, w.log[k]);
    }
  }

  /** The value added to a range within its window up to now. */
  ghost function WindowSum(w: World, log: seq<Entry>, i: nat): int {
    if log == [] then 0
    else
      var n := |log| - 1;
      WindowSum(w, log[..n], i) + if log[n].metric == i && Recent(w, log[n]) then log[n].value else 0
  }

  ghost function WindowMap(w: World, log: seq<Entry>, i: nat): map<OrderId, int> {
    if log == [] then map[]
    else
      var n := |log| - 1;
      var front := WindowMap(w, log[..n], i);
      if log[n].metric == i && Counts(w, log[n]) then front[log[n].id := log[n].value] else front
  }

  lemma {:induction false} WindowIsHeld(w: World, n: nat, i: nat)
    requires Remembers(w) && n <= |w.log|
    ensures var m := WindowMap(w, w.log[..n], i);
            && WindowSum(w, w.log[..n], i) == Total(m)
            && (forall id :: id in m ==> id in Held(w.s.records, i) && Held(w.s.records, i)[id] == m[id])
            && (forall id :: id in m ==> exists k :: 0 <= k < n && Counts(w, w.log[k]) && w.log[k].id == id)
  {
    if n > 0 {
      assert w.log[..n][..n - 1] == w.log[..n - 1];
      WindowIsHeld(w, n - 1, i);
      var front, e := WindowMap(w, w.log[..n - 1], i), w.log[n - 1];
      if e.metric == i && Counts(w, e) {
        assert Recorded(w, e);
        assert e.id !in front;
        TotalAdd(front, e.id, e.value);
      }
    }
  }

  lemma {:induction false} RunRemembers(cfg: Config, w: World, es: seq<Event>)
    requires Plausible(cfg, w) && Bounded(cfg, w) && Remembers(w) && Legal(cfg, w, es) && AllSafe(cfg, w, es)
    ensures Remembers(Run(cfg, w, es))
    decreases |es|
  {
    if es != [] {
      StepPlausible(cfg, w, es[0]);
      StepBounded(cfg, w, es[0]);
      StepRemembers(cfg, w, es[0]);
      RunRemembers(cfg, Step(cfg, w, es[0]), es[1..]);
    }
  }

  /** The value added to each constrained range within its window keeps to the ceiling. */
  ghost predicate RateKept(cfg: Config, w: World) {
    forall i :: 0 <= i < |w.s.metrics| && IsActual(w.s.metrics[i]) ==> WindowSum(w, w.log, i) <= Ceiling(cfg, w.s.metrics[i])
  }

  lemma RememberedRateKept(cfg: Config, w: World)
    requires Plausible(cfg, w) && Bounded(cfg, w) && Remembers(w)
    ensures RateKept(cfg, w)
  {
    forall i: nat | i < |w.s.metrics| && IsActual(w.s.metrics[i])
      ensures WindowSum(w, w.log, i) <= Ceiling(cfg, w.s.metrics[i])
    {
      WindowIsHeld(w, |w.log|, i);
      assert w.log[..|w.log|] == w.log;
      TotalPart(WindowMap(w, w.log, i), Held(w.s.records, i));
      TotalPart(map[], InFlight(w.flights, i));
      assert LockedAndInFlight(w, i) <= Ceiling(cfg, w.s.metrics[i]);
    }
  }

  /** The documented rate limit, for any number of processors: along safe runs the value added to a
      constrained range within its window keeps to the ceiling. */
  lemma RateLimit(cfg: Config, thresholds: seq<Threshold>, es: seq<Event>)
    requires cfg.procs != {} && Legal(cfg, Init(thresholds), es) && AllSafe(cfg, Init(thresholds), es)
    ensures RateKept(cfg, Run(cfg, Init(thresholds), es))
  {
    InitBounded(cfg, thresholds);
    RunBounded(cfg, Init(thresholds), es);
    RunRemembers(cfg, Init(thresholds), es);
    RememberedRateKept(cfg, Run(cfg, Init(thresholds), es));
  }

  // ---------------------------------------------------------------- what the limit does not cover

  const NARROW := Threshold(0, 100, 30)
  ghost const ALONE := Config({1}, 100)

  /** A controller of one narrow range, with a clock and nothing in flight. */
  ghost function Sample(
    records: map<OrderId, Record>, locked: int, timers: map<nat, Timer>, next: nat,
    now: int, due: map<nat, int>, log: seq<Entry>): World
  {
    World(Controller([Metric(NARROW, locked, records.Keys)], records, timers, next, false), now, due, map[], log)
  }

  lemma SampleLands(w: World, id: OrderId, value: nat)
    requires w.flights == map[] && |w.s.metrics| == 1 && w.s.metrics[0].limits == NARROW
    requires value <= 100 && w.s.metrics[0].currentlyLocked + value <= 100
    requires Reaches(ALONE, Init([NARROW]), w)
    ensures var s := AddOrder(w.s, id, 0, value);
            Reaches(ALONE, Init([NARROW]),
                    World(s, w.now, w.due[w.s.next := w.now + 30], map[], w.log + [Entry(id, 0, value, w.now)]))
  {
    var v := Step(ALONE, w, Check(1, id, 0, value));
    ReachFurther(ALONE, Init([NARROW]), w, Check(1, id, 0, value));
    ReachFurther(ALONE, Init([NARROW]), v, Land(1, value));
    assert v.flights - {1} == map[];
  }

  // The scenario: 50 added at time 0; 50 for the same order at 20; its first timer at 30; then 100.

  ghost function Added(x: OrderId): World {
    Sample(map[x := Record(50, 0, 0, 0)], 50, map[0 := Timer(x, 30)], 1, 0, map[0 := 30], [Entry(x, 0, 50, 0)])
  }

  ghost function Returned(x: OrderId): World {
    Sample(map[x := Record(50, 0, 1, 0)], 50, map[0 := Timer(x, 30), 1 := Timer(x, 30)], 2, 20, map[0 := 30, 1 := 50],
           [Entry(x, 0, 50, 0), Entry(x, 0, 50, 20)])
  }

  ghost function CutShort(x: OrderId): World {
    Sample(map[], 0, map[1 := Timer(x, 30)], 2, 30, Returned(x).due, Returned(x).log)
  }

  ghost function Exceeded(x: OrderId, y: OrderId): World {
    Sample(map[y := Record(100, 0, 2, 0)], 100, map[1 := Timer(x, 30), 2 := Timer(y, 30)], 3, 30, Returned(x).due[2 := 60],
           [Entry(x, 0, 50, 0), Entry(x, 0, 50, 20), Entry(y, 0, 100, 30)])
  }

  lemma SampleStarts()
    ensures Init([NARROW]) == Sample(map[], 0, map[], 0, 0, map[], [])
  {
    StartOfOne(NARROW);
    var none: map<OrderId, Record> := map[];
    assert none.Keys == {};
  }

  lemma ReachAdded(x: OrderId)
    ensures Reaches(ALONE, Init([NARROW]), Added(x))
  {
    SampleStarts();
    var w := Init([NARROW]);
    assert Legal(ALONE, w, []) && Run(ALONE, w, []) == w;
    SampleLands(w, x, 50);
    assert w.s.metrics == [Metric(NARROW, 0, {})] && {} + {x} == {x};
    assert AddOrder(w.s, x, 0, 50).metrics == [Metric(NARROW, 50, {x})];
    assert {x} == map[x := Record(50, 0, 0, 0)].Keys;
    assert w.log + [Entry(x, 0, 50, 0)] == [Entry(x, 0, 50, 0)];
  }

  lemma ReachReturned(x: OrderId)
    ensures Reaches(ALONE, Init([NARROW]), Returned(x))
  {
    ReachAdded(x);
    ReachFurther(ALONE, Init([NARROW]), Added(x), Advance(20));
    var w := Step(ALONE, Added(x), Advance(20));
    SampleLands(w, x, 50);
    var r, s := RemoveOrder(w.s, x), AddOrder(w.s, x, 0, 50);
    assert w.s.metrics == [Metric(NARROW, 50, {x})] by {
      assert {x} == map[x := Record(50, 0, 0, 0)].Keys;
    }
    assert {x} - {x} == {} && {} + {x} == {x};
    assert r.records == map[] && r.metrics == [Metric(NARROW, 0, {})];
    assert {x} == map[x := Record(50, 0, 1, 0)].Keys;
    assert s.metrics == [Metric(NARROW, 50, {x})];
    assert s == Returned(x).s;
    assert w.due[w.s.next := 50] == Returned(x).due;
  }

  lemma ReachCutShort(x: OrderId)
    ensures Reaches(ALONE, Init([NARROW]), CutShort(x))
  {
    ReachReturned(x);
    ReachFurther(ALONE, Init([NARROW]), Returned(x), Advance(30));
    var w := Step(ALONE, Returned(x), Advance(30));
    ReachFurther(ALONE, Init([NARROW]), w, Fires(0));
    assert w.s.timers - {0} == map[1 := Timer(x, 30)];
    assert w.s.records - {x} == map[];
  }

  lemma ReachExceeded(x: OrderId, y: OrderId)
    ensures Reaches(ALONE, Init([NARROW]), Exceeded(x, y))
  {
    ReachCutShort(x);
    var w := CutShort(x);
    SampleLands(w, y, 100);
    var none: map<OrderId, Record> := map[];
    assert none.Keys == {} && {} + {y} == {y};
    assert w.s.metrics == [Metric(NARROW, 0, {})];
    assert AddOrder(w.s, y, 0, 100).metrics == [Metric(NARROW, 100, {y})];
    assert {y} == map[y := Record(100, 0, 2, 0)].Keys;
    assert AddOrder(w.s, y, 0, 100) == Exceeded(x, y).s;
    assert w.log + [Entry(y, 0, 100, 30)] == Exceeded(x, y).log;
  }

  /** One order added twice within its window: the timer of the first addition takes out the
      second, and the value added within one window exceeds the cap of the only processor. */
  lemma RateLimitBrokenByReturningOrder(x: OrderId, y: OrderId)
    ensures Reaches(ALONE, Init([NARROW]), Exceeded(x, y))
    ensures var w := Exceeded(x, y); WindowSum(w, w.log, 0) == 150 > NARROW.cap == Ceiling(ALONE, w.s.metrics[0])
  {
    ReachExceeded(x, y);
    var w, log := Exceeded(x, y), Exceeded(x, y).log;
    assert log[..2][..1] == log[..1] && log[..1][..0] == [];
    assert WindowSum(w, log[..1], 0) == 0;
    assert WindowSum(w, log[..2], 0) == 50;
  }
}
