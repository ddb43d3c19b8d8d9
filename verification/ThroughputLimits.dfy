/** How sharp the bounds on the throughput are: each is attained, and each condition is needed. */
module ThroughputLimits {
  import opened Common
  import opened Ranges
  import opened Totals
  import opened ThroughputModel
  import opened ThroughputRuns
  import opened ThroughputWindows

  // ---------------------------------------------------------------- what the log knows of the records

  /** The place of the last addition of an order, or -1. */
  ghost function LastAdded(log: seq<Entry>, id: OrderId): (k: int)
    ensures -1 <= k < |log|
    ensures k >= 0 ==> log[k].id == id
    ensures forall j :: k < j < |log| ==> log[j].id != id
  {
    if log == [] then -1
    else
      var n := |log| - 1;
      if log[n].id == id then n else LastAdded(log[..n], id)
  }

  lemma LastAfter(log: seq<Entry>, e: Entry, id: OrderId)
    ensures LastAdded(log + [e], id) == if e.id == id then |log| else LastAdded(log, id)
  {
    assert (log + [e])[..|log|] == log;
  }

  /** The record of an order stands for its last addition, and its timer is due when that one's
      window ends. */
  ghost predicate StandsForLast(w: World, id: OrderId)
    requires id in w.s.records
  {
    var k, r := LastAdded(w.log, id), w.s.records[id];
    && k >= 0 && r.metric == w.log[k].metric && r.value == w.log[k].value
    && r.timer in w.due && w.due[r.timer] == w.log[k].time + WindowOf(w.s, w.log[k])
  }

  /** The range is constrained, and the one found at its own minimum. */
  ghost predicate Usable(metrics: seq<Metric>, i: nat) {
    i < |metrics| && GetMetric(metrics, metrics[i].limits.min) == Some(i)
  }

  ghost predicate Logged(w: World) {
    && (forall t :: t in w.s.timers ==> t in w.due)
    && (forall id :: id in w.s.records ==> StandsForLast(w, id))
    && (forall k :: 0 <= k < |w.log| ==> Usable(w.s.metrics, w.log[k].metric))
  }

  lemma {:induction false} FoundIsUsable(metrics: seq<Metric>, c: int)
    ensures var i := GetMetric(metrics, c); i.Some? ==> Usable(metrics, i.value)
  {
    if metrics != [] && metrics[0].limits.min > c {
      FoundIsUsable(metrics[1..], c);
    }
  }

  lemma SameLimitsUsable(a: seq<Metric>, b: seq<Metric>, i: nat)
    requires SameLimits(a, b) && Usable(a, i)
    ensures Usable(b, i)
  {
    SameLimitsSameMetric(a, b, a[i].limits.min);
  }

  lemma UsableStays(w: World, v: World)
    requires SameLimits(w.s.metrics, v.s.metrics)
    requires forall k :: 0 <= k < |w.log| ==> Usable(w.s.metrics, w.log[k].metric)
    ensures forall k :: 0 <= k < |w.log| ==> Usable(v.s.metrics, w.log[k].metric)
  {
    forall k | 0 <= k < |w.log|
      ensures Usable(v.s.metrics, w.log[k].metric)
    {
      SameLimitsUsable(w.s.metrics, v.s.metrics, w.log[k].metric);
    }
  }

  /** A new record with a timer of its own, for a new entry of the log. */
  ghost predicate Appends(w: World, v: World, e: Entry, r: Record) {
    && v.log == w.log + [e] && v.s.records == w.s.records[e.id := r] && SameLimits(w.s.metrics, v.s.metrics)
    && r.metric == e.metric && r.value == e.value
    && v.due == w.due[r.timer := e.time + WindowOf(w.s, e)]
    && (forall id :: id in w.s.records ==> w.s.records[id].timer != r.timer)
  }

  lemma AppendedStands(w: World, v: World, e: Entry, r: Record, id: OrderId)
    requires Appends(w, v, e, r) && id in v.s.records && (id != e.id ==> StandsForLast(w, id))
    ensures StandsForLast(v, id)
  {
    LastAfter(w.log, e, id);
  }

  lemma LandingAppends(cfg: Config, w: World, p: ChainId, value: nat, i: nat)
    requires Plausible(cfg, w) && Enabled(cfg, w, Land(p, value))
    requires GetMetric(w.s.metrics, w.flights[p].c) == Some(i)
    ensures var f := w.flights[p];
            Appends(w, Step(cfg, w, Land(p, value)), Entry(f.id, i, value, w.now), Record(value, f.c, w.s.next, i))
  {
    Landing(cfg, w, p, value, i);
  }

  lemma LandingUsable(cfg: Config, w: World, p: ChainId, value: nat, i: nat)
    requires Plausible(cfg, w) && Logged(w) && Enabled(cfg, w, Land(p, value))
    requires GetMetric(w.s.metrics, w.flights[p].c) == Some(i)
    ensures var v := Step(cfg, w, Land(p, value));
            forall k :: 0 <= k < |v.log| ==> Usable(v.s.metrics, v.log[k].metric)
  {
    Landing(cfg, w, p, value, i);
    var v := Step(cfg, w, Land(p, value));
    FoundIsUsable(w.s.metrics, w.flights[p].c);
    SameLimitsUsable(w.s.metrics, v.s.metrics, i);
    UsableStays(w, v);
  }

  lemma LandingTimers(cfg: Config, w: World, p: ChainId, value: nat, i: nat)
    requires Plausible(cfg, w) && Logged(w) && Enabled(cfg, w, Land(p, value))
    requires GetMetric(w.s.metrics, w.flights[p].c) == Some(i)
    ensures var v := Step(cfg, w, Land(p, value)); forall t :: t in v.s.timers ==> t in v.due
  {
    Landing(cfg, w, p, value, i);
  }

  lemma LandingLogged(cfg: Config, w: World, p: ChainId, value: nat, i: nat)
    requires Plausible(cfg, w) && Logged(w) && Enabled(cfg, w, Land(p, value))
    requires GetMetric(w.s.metrics, w.flights[p].c) == Some(i)
    ensures Logged(Step(cfg, w, Land(p, value)))
  {
    var v, f := Step(cfg, w, Land(p, value)), w.flights[p];
    LandingTimers(cfg, w, p, value, i);
    LandingUsable(cfg, w, p, value, i);
    LandingAppends(cfg, w, p, value, i);
    forall id | id in v.s.records
      ensures StandsForLast(v, id)
    {
      AppendedStands(w, v, Entry(f.id, i, value, w.now), Record(value, f.c, w.s.next, i), id);
    }
  }

  lemma FiringLogged(cfg: Config, w: World, t: nat)
    requires Plausible(cfg, w) && Logged(w) && Enabled(cfg, w, Fires(t))
    ensures Logged(Step(cfg, w, Fires(t)))
  {
    FireConsistent(w.s, t);
    var v := Step(cfg, w, Fires(t));
    forall id | id in v.s.records
      ensures StandsForLast(v, id)
    {
      assert StandsForLast(w, id);
    }
    UsableStays(w, v);
  }

  lemma StaysLogged(w: World, v: World)
    requires Logged(w) && v.s == w.s && v.due == w.due && v.log == w.log
    ensures Logged(v)
  {
    forall id | id in v.s.records
      ensures StandsForLast(v, id)
    {
      assert StandsForLast(w, id);
    }
  }

  lemma StepLogged(cfg: Config, w: World, e: Event)
    requires Plausible(cfg, w) && Logged(w) && Enabled(cfg, w, e)
    ensures Logged(Step(cfg, w, e))
  {
    match e
    case Land(p, value) =>
      var metric := GetMetric(w.s.metrics, w.flights[p].c);
      if metric.Some? {
        LandingLogged(cfg, w, p, value, metric.value);
      } else {
        StaysLogged(w, Step(cfg, w, e));
      }
    case Fires(t) => FiringLogged(cfg, w, t);
    case _ => StaysLogged(w, Step(cfg, w, e));
  }

  // ---------------------------------------------------------------- safe runs

  ghost predicate SafelyReaches(cfg: Config, w: World, v: World) {
    exists es :: Legal(cfg, w, es) && AllSafe(cfg, w, es) && Run(cfg, w, es) == v
  }

  lemma {:induction false} SafeRunFurther(cfg: Config, w: World, es: seq<Event>, e: Event)
    requires Legal(cfg, w, es) && AllSafe(cfg, w, es)
    requires Enabled(cfg, Run(cfg, w, es), e) && Safe(Run(cfg, w, es), e)
    ensures Legal(cfg, w, es + [e]) && AllSafe(cfg, w, es + [e])
    ensures Run(cfg, w, es + [e]) == Step(cfg, Run(cfg, w, es), e)
    decreases |es|
  {
    if es == [] {
      assert es + [e] == [e] && [e][1..] == [];
      assert Legal(cfg, Step(cfg, w, e), []) && Run(cfg, Step(cfg, w, e), []) == Step(cfg, w, e);
    } else {
      assert (es + [e])[1..] == es[1..] + [e];
      SafeRunFurther(cfg, Step(cfg, w, es[0]), es[1..], e);
    }
  }

  lemma SafelyStays(cfg: Config, w: World)
    ensures SafelyReaches(cfg, w, w)
  {
    assert Legal(cfg, w, []) && AllSafe(cfg, w, []) && Run(cfg, w, []) == w;
  }

  lemma SafelyFurther(cfg: Config, w: World, v: World, e: Event)
    requires SafelyReaches(cfg, w, v) && Enabled(cfg, v, e) && Safe(v, e)
    ensures SafelyReaches(cfg, w, Step(cfg, v, e))
  {
    var es :| Legal(cfg, w, es) && AllSafe(cfg, w, es) && Run(cfg, w, es) == v;
    SafeRunFurther(cfg, w, es, e);
  }

  /** What holds of every world that is reached. */
  ghost predicate Sane(cfg: Config, w: World) {
    Plausible(cfg, w) && Bounded(cfg, w) && Logged(w)
  }

  lemma StepSane(cfg: Config, w: World, e: Event)
    requires Sane(cfg, w) && Enabled(cfg, w, e)
    ensures Sane(cfg, Step(cfg, w, e)) && SameLimits(Step(cfg, w, e).s.metrics, w.s.metrics)
  {
    StepPlausible(cfg, w, e);
    StepBounded(cfg, w, e);
    StepLogged(cfg, w, e);
  }

  lemma {:induction false} RunSane(cfg: Config, w: World, es: seq<Event>)
    requires Sane(cfg, w) && Legal(cfg, w, es)
    ensures Sane(cfg, Run(cfg, w, es))
    decreases |es|
  {
    if es != [] {
      StepSane(cfg, w, es[0]);
      RunSane(cfg, Step(cfg, w, es[0]), es[1..]);
    }
  }

  lemma SafelyReachedSane(cfg: Config, thresholds: seq<Threshold>, w: World)
    requires cfg.procs != {} && SafelyReaches(cfg, Init(thresholds), w)
    ensures Sane(cfg, w) && Remembers(w)
  {
    var es :| Legal(cfg, Init(thresholds), es) && AllSafe(cfg, Init(thresholds), es) && Run(cfg, Init(thresholds), es) == w;
    InitBounded(cfg, thresholds);
    RunSane(cfg, Init(thresholds), es);
    RunRemembers(cfg, Init(thresholds), es);
  }

  /** A set of sane worlds that no safe step leaves. */
  ghost predicate Closed(cfg: Config, reached: World -> bool) {
    && (forall w {:trigger Sane(cfg, w)} :: reached(w) ==> Sane(cfg, w))
    && (forall w, e {:trigger reached(Step(cfg, w, e))} ::
          reached(w) && Enabled(cfg, w, e) && Safe(w, e) ==> reached(Step(cfg, w, e)))
  }

  lemma SafelyReachedClosed(cfg: Config, start: World)
    ensures Closed(cfg, w => Sane(cfg, w) && SafelyReaches(cfg, start, w))
  {
    forall w, e | Sane(cfg, w) && SafelyReaches(cfg, start, w) && Enabled(cfg, w, e) && Safe(w, e)
      ensures Sane(cfg, Step(cfg, w, e)) && SafelyReaches(cfg, start, Step(cfg, w, e))
    {
      SafelyFurther(cfg, start, w, e);
      StepSane(cfg, w, e);
    }
  }

  // ---------------------------------------------------------------- filling a range

  ghost function MaxLength(ids: set<OrderId>): (n: nat)
    ensures forall id :: id in ids ==> |id| <= n
  {
    if ids == {} then 0
    else
      var id :| id in ids;
      var n := MaxLength(ids - {id});
      if n < |id| then |id| else n
  }

  lemma FreshId(ids: set<OrderId>) returns (id: OrderId)
    ensures id !in ids
  {
    id := seq(MaxLength(ids) + 1, _ => '0');
  }

  ghost predicate Unheard(w: World, id: OrderId) {
    && id !in w.s.records
    && (forall t :: t in w.s.timers ==> w.s.timers[t].id != id)
    && (forall k :: 0 <= k < |w.log| ==> w.log[k].id != id)
  }

  lemma FindUnheard(w: World) returns (id: OrderId)
    ensures Unheard(w, id) && forall p :: p in w.flights ==> w.flights[p].id != id
  {
    var ofTimers := set t | t in w.s.timers :: w.s.timers[t].id;
    var ofLog := set k | 0 <= k < |w.log| :: w.log[k].id;
    var ofFlights := set p | p in w.flights :: w.flights[p].id;
    id := FreshId(w.s.records.Keys + ofTimers + ofLog + ofFlights);
    assert forall t :: t in w.s.timers ==> w.s.timers[t].id in ofTimers;
    assert forall k :: 0 <= k < |w.log| ==> w.log[k].id in ofLog;
    assert forall p :: p in w.flights ==> w.flights[p].id in ofFlights;
  }

  /** By how much the value added within a window exceeds what is locked. */
  ghost function Excess(w: World, i: nat): int
    requires i < |w.s.metrics|
  {
    WindowSum(w, w.log, i) - w.s.metrics[i].currentlyLocked
  }

  lemma {:induction false} WindowSumOfSame(w: World, v: World, log: seq<Entry>, i: nat)
    requires v.now == w.now && SameLimits(v.s.metrics, w.s.metrics)
    ensures WindowSum(v, log, i) == WindowSum(w, log, i)
  {
    if log != [] {
      WindowSumOfSame(w, v, log[..|log| - 1], i);
    }
  }

  /** A new order of a processor, checked against a range, is added. */
  ghost predicate Adds(w: World, v: World, p: ChainId, i: nat)
    requires p in w.flights && i < |w.s.metrics|
  {
    && SameLimits(v.s.metrics, w.s.metrics) && v.now == w.now && v.flights == w.flights - {p}
    && v.s.metrics[i].currentlyLocked == w.s.metrics[i].currentlyLocked + w.flights[p].value
    && v.s.records.Keys == w.s.records.Keys + {w.flights[p].id}
    && Excess(v, i) == Excess(w, i)
    && (forall id {:trigger Unheard(v, id)} :: id != w.flights[p].id && Unheard(w, id) ==> Unheard(v, id))
  }

  lemma NewLands(cfg: Config, w: World, p: ChainId, value: nat, i: nat)
    requires Plausible(cfg, w) && p in w.flights && w.flights[p].value == value
    requires w.flights[p].id !in w.s.records
    requires Usable(w.s.metrics, i) && w.flights[p].c == w.s.metrics[i].limits.min
    ensures Adds(w, Step(cfg, w, Land(p, value)), p, i)
  {
    var v := Step(cfg, w, Land(p, value));
    Landing(cfg, w, p, value, i);
    assert v.s == Lock(w.s, w.flights[p].id, w.flights[p].c, value, i);
    WindowSumOfSame(w, v, w.log, i);
    assert v.log[..|w.log|] == w.log;
  }

  lemma SafeStep(cfg: Config, reached: World -> bool, w: World, e: Event)
    requires Closed(cfg, reached) && reached(w) && Enabled(cfg, w, e) && Safe(w, e)
    ensures var v := Step(cfg, w, e);
            reached(v) && SameLimits(v.s.metrics, w.s.metrics)
  {
    assert Sane(cfg, w);
    StepSane(cfg, w, e);
  }

  lemma NewIsSafe(w: World, p: ChainId, value: nat)
    requires p in w.flights && Unheard(w, w.flights[p].id)
    ensures Safe(w, Land(p, value))
  {
  }

  /** A new order passes the check of a range that has room for it. */
  lemma CheckNew(cfg: Config, reached: World -> bool, w: World, p: ChainId, i: nat, value: nat) returns (u: World)
    requires Closed(cfg, reached) && reached(w) && p in cfg.procs && p !in w.flights
    requires Usable(w.s.metrics, i) && value <= cfg.maxValue
    requires w.s.metrics[i].currentlyLocked + value <= w.s.metrics[i].limits.cap
    ensures reached(u) && Ready(u, p, i)
    ensures u == w.(flights := w.flights[p := Flight(u.flights[p].id, w.s.metrics[i].limits.min, value, Some(i))])
    ensures forall q :: q in w.flights ==> w.flights[q].id != u.flights[p].id
  {
    var id := FindUnheard(w);
    var e := Check(p, id, w.s.metrics[i].limits.min, value);
    SafeStep(cfg, reached, w, e);
    u := Step(cfg, w, e);
  }

  /** It can be added, and safely. */
  ghost predicate Ready(w: World, p: ChainId, i: nat) {
    && p in w.flights && Unheard(w, w.flights[p].id) && 0 <= w.flights[p].value
    && Usable(w.s.metrics, i) && w.flights[p].c == w.s.metrics[i].limits.min
  }

  lemma LandNew(cfg: Config, reached: World -> bool, u: World, p: ChainId, i: nat) returns (v: World)
    requires Closed(cfg, reached) && reached(u) && Ready(u, p, i)
    ensures reached(v) && Adds(u, v, p, i)
  {
    NewIsSafe(u, p, u.flights[p].value);
    assert Sane(cfg, u);
    NewLands(cfg, u, p, u.flights[p].value, i);
    v := LandSafely(cfg, reached, u, p);
  }

  lemma LandSafely(cfg: Config, reached: World -> bool, u: World, p: ChainId) returns (v: World)
    requires Closed(cfg, reached) && reached(u) && p in u.flights && 0 <= u.flights[p].value
    requires Safe(u, Land(p, u.flights[p].value))
    ensures reached(v) && v == Step(cfg, u, Land(p, u.flights[p].value))
  {
    SafeStep(cfg, reached, u, Land(p, u.flights[p].value));
    v := Step(cfg, u, Land(p, u.flights[p].value));
  }

  /** One more new order, by a processor that has none in flight. */
  lemma FillOnce(cfg: Config, reached: World -> bool, w: World, p: ChainId, i: nat, value: nat) returns (v: World)
    requires Closed(cfg, reached) && reached(w) && w.flights == map[] && p in cfg.procs
    requires Usable(w.s.metrics, i) && 0 < value <= cfg.maxValue
    requires w.s.metrics[i].currentlyLocked + value <= w.s.metrics[i].limits.cap
    ensures reached(v) && v.flights == map[]
    ensures SameLimits(v.s.metrics, w.s.metrics) && Usable(v.s.metrics, i)
    ensures v.s.metrics[i].currentlyLocked == w.s.metrics[i].currentlyLocked + value
    ensures Excess(v, i) == Excess(w, i)
  {
    var u := CheckNew(cfg, reached, w, p, i, value);
    WindowSumOfSame(w, u, w.log, i);
    v := LandNew(cfg, reached, u, p, i);
    SameLimitsUsable(u.s.metrics, v.s.metrics, i);
  }

  /** A range can be filled up to any level below its cap, by new orders one after the other. */
  lemma {:induction false} Fill(cfg: Config, reached: World -> bool, w: World, p: ChainId, i: nat, level: int) returns (v: World)
    requires Closed(cfg, reached) && reached(w) && w.flights == map[] && p in cfg.procs
    requires Usable(w.s.metrics, i) && 0 < cfg.maxValue
    requires w.s.metrics[i].currentlyLocked <= level <= w.s.metrics[i].limits.cap
    ensures reached(v) && v.flights == map[]
    ensures SameLimits(v.s.metrics, w.s.metrics) && Usable(v.s.metrics, i)
    ensures v.s.metrics[i].currentlyLocked == level && Excess(v, i) == Excess(w, i)
    decreases level - w.s.metrics[i].currentlyLocked
  {
    var missing := level - w.s.metrics[i].currentlyLocked;
    if missing == 0 {
      v := w;
    } else {
      var u := FillOnce(cfg, reached, w, p, i, if missing < cfg.maxValue then missing else cfg.maxValue);
      v := Fill(cfg, reached, u, p, i, level);
    }
  }

  // ---------------------------------------------------------------- the ceiling is attained

  /** Every order in flight is new, of the given value, and checked against the range. */
  ghost predicate AllReady(w: World, i: nat, value: nat) {
    && (forall p :: p in w.flights ==> Ready(w, p, i) && w.flights[p].value == value)
    && (forall p, q :: p in w.flights && q in w.flights && p != q ==> w.flights[p].id != w.flights[q].id)
  }

  lemma OneMoreReady(w: World, u: World, p: ChainId, i: nat, value: nat)
    requires AllReady(w, i, value) && p !in w.flights && p in u.flights
    requires u == w.(flights := w.flights[p := u.flights[p]])
    requires Ready(u, p, i) && u.flights[p].value == value
    requires forall q :: q in w.flights ==> w.flights[q].id != u.flights[p].id
    ensures AllReady(u, i, value)
  {
    forall q | q in u.flights && q != p
      ensures Ready(u, q, i)
    {
      assert Ready(w, q, i);
    }
  }

  lemma OneLessReady(w: World, u: World, p: ChainId, i: nat, value: nat)
    requires AllReady(w, i, value) && p in w.flights && i < |w.s.metrics| && Adds(w, u, p, i)
    ensures AllReady(u, i, value)
  {
    forall q | q in u.flights
      ensures Ready(u, q, i)
    {
      assert Ready(w, q, i);
      SameLimitsUsable(w.s.metrics, u.s.metrics, i);
      assert Unheard(u, u.flights[q].id);
    }
  }

  /** The range has room for an order of the value. */
  ghost predicate HasRoom(w: World, i: nat, value: nat) {
    Usable(w.s.metrics, i) && w.s.metrics[i].currentlyLocked + value <= w.s.metrics[i].limits.cap
  }

  lemma CheckOneMore(cfg: Config, reached: World -> bool, w: World, p: ChainId, i: nat, value: nat) returns (u: World)
    requires Closed(cfg, reached) && reached(w) && AllReady(w, i, value) && HasRoom(w, i, value)
    requires p in cfg.procs && p !in w.flights && value <= cfg.maxValue
    ensures reached(u) && u == w.(flights := u.flights) && u.flights.Keys == w.flights.Keys + {p}
    ensures AllReady(u, i, value) && HasRoom(u, i, value)
  {
    u := CheckNew(cfg, reached, w, p, i, value);
    OneMoreReady(w, u, p, i, value);
  }

  type Flights = map<ChainId, Flight>

  /** One more processor can have an order in flight. */
  ghost predicate CanCheck(good: Flights -> bool, flights: Flights, p: ChainId) {
    exists more :: good(more) && more.Keys == flights.Keys + {p}
  }

  ghost predicate AllCanCheck(good: Flights -> bool, ps: set<ChainId>) {
    forall flights, p {:trigger CanCheck(good, flights, p)} ::
      good(flights) && p in ps && p !in flights ==> CanCheck(good, flights, p)
  }

  lemma {:induction false} AllCheckAtOnce(good: Flights -> bool, flights: Flights, all: set<ChainId>)
    returns (more: Flights)
    requires good(flights) && AllCanCheck(good, all) && flights.Keys <= all
    ensures good(more) && more.Keys == all
    decreases |all - flights.Keys|
  {
    if flights.Keys == all {
      more := flights;
    } else {
      var p :| p in all && p !in flights.Keys;
      assert CanCheck(good, flights, p);
      var next :| good(next) && next.Keys == flights.Keys + {p};
      assert all - next.Keys == (all - flights.Keys) - {p};
      more := AllCheckAtOnce(good, next, all);
    }
  }

  /** Processors that check at the same time all see the same locked value. */
  lemma AllCheckReady(cfg: Config, reached: World -> bool, w: World, i: nat, value: nat) returns (v: World)
    requires Closed(cfg, reached) && reached(w) && w.flights == map[] && HasRoom(w, i, value) && value <= cfg.maxValue
    ensures reached(v) && v == w.(flights := v.flights) && v.flights.Keys == cfg.procs && AllReady(v, i, value)
  {
    var good := (flights: Flights) => reached(w.(flights := flights)) && AllReady(w.(flights := flights), i, value);
    forall flights, p | good(flights) && p in cfg.procs && p !in flights
      ensures CanCheck(good, flights, p)
    {
      var x := CheckOneMore(cfg, reached, w.(flights := flights), p, i, value);
      assert x == w.(flights := x.flights) && good(x.flights);
    }
    assert good(map[]) by {
      assert w.(flights := map[]) == w;
    }
    var flights := AllCheckAtOnce(good, map[], cfg.procs);
    v := w.(flights := flights);
  }

  lemma LandOne(cfg: Config, reached: World -> bool, w: World, p: ChainId, i: nat, value: nat) returns (u: World)
    requires Closed(cfg, reached) && reached(w) && AllReady(w, i, value) && p in w.flights
    ensures reached(u) && AllReady(u, i, value) && i < |w.s.metrics| && Adds(w, u, p, i)
  {
    u := LandNew(cfg, reached, w, p, i);
    OneLessReady(w, u, p, i, value);
  }

  /** And then all of them add. */
  lemma {:induction false} AllLand(cfg: Config, reached: World -> bool, w: World, i: nat, value: nat) returns (v: World)
    requires Closed(cfg, reached) && reached(w) && AllReady(w, i, value) && i < |w.s.metrics|
    ensures reached(v) && v.flights == map[] && SameLimits(v.s.metrics, w.s.metrics)
    ensures v.s.metrics[i].currentlyLocked == w.s.metrics[i].currentlyLocked + |w.flights| * value
    decreases |w.flights|
  {
    if w.flights == map[] {
      v := w;
    } else {
      var p :| p in w.flights;
      assert Ready(w, p, i);
      var u := LandOne(cfg, reached, w, p, i, value);
      Shrinks(w.flights, p);
      v := AllLand(cfg, reached, u, i, value);
      OneMore(|w.flights|, value);
    }
  }

  lemma InitSane(cfg: Config, thresholds: seq<Threshold>)
    requires cfg.procs != {}
    ensures Sane(cfg, Init(thresholds))
  {
    InitBounded(cfg, thresholds);
  }

  lemma FillToCeiling(cfg: Config, reached: World -> bool, w: World, i: nat) returns (v: World)
    requires Closed(cfg, reached) && reached(w) && w.flights == map[] && cfg.procs != {} && 0 < cfg.maxValue
    requires Usable(w.s.metrics, i) && w.s.metrics[i].currentlyLocked == 0
    ensures reached(v) && v.flights == map[] && SameLimits(v.s.metrics, w.s.metrics)
    ensures v.s.metrics[i].currentlyLocked == Ceiling(cfg, v.s.metrics[i])
  {
    var value := Greatest(cfg, w.s.metrics[i]);
    var p :| p in cfg.procs;
    var filled := Fill(cfg, reached, w, p, i, w.s.metrics[i].limits.cap - value);
    var checked := AllCheckReady(cfg, reached, filled, i, value);
    v := AllLand(cfg, reached, checked, i, value);
    KeysSize(checked.flights);
    OneMore(|cfg.procs|, value);
  }

  /** The bound of `ThroughputRuns.EveryRun` is attained, by what is locked alone and in every range
      that is constrained and can be reached: orders fill it until one more of the greatest value
      just fits; then all processors check one such order each; and then all of them add. */
  lemma AttainsCeiling(cfg: Config, thresholds: seq<Threshold>, c: int, i: nat) returns (w: World)
    requires cfg.procs != {} && 0 < cfg.maxValue && GetMetric(Start(thresholds).metrics, c) == Some(i)
    ensures Reaches(cfg, Init(thresholds), w) && w.flights == map[]
    ensures i < |w.s.metrics| && IsActual(w.s.metrics[i])
    ensures w.s.metrics[i].currentlyLocked == Ceiling(cfg, w.s.metrics[i])
  {
    var start := Init(thresholds);
    var reached := (v: World) => Sane(cfg, v) && SafelyReaches(cfg, start, v);
    InitSane(cfg, thresholds);
    SafelyStays(cfg, start);
    SafelyReachedClosed(cfg, start);
    FoundIsUsable(start.s.metrics, c);
    w := FillToCeiling(cfg, reached, start, i);
  }

  lemma KeysSize<K, V>(m: map<K, V>)
    ensures |m| == |m.Keys|
  {
  }

  /** What is locked stays within the cap, in every run. */
  ghost predicate CapKept(cfg: Config, thresholds: seq<Threshold>) {
    forall w, i: nat ::
      Reaches(cfg, Init(thresholds), w) && i < |w.s.metrics| && IsActual(w.s.metrics[i]) ==>
        w.s.metrics[i].currentlyLocked <= w.s.metrics[i].limits.cap
  }

  lemma AloneKeepsCap(cfg: Config, thresholds: seq<Threshold>, w: World, i: nat)
    requires |cfg.procs| == 1 && Reaches(cfg, Init(thresholds), w)
    requires i < |w.s.metrics| && IsActual(w.s.metrics[i])
    ensures w.s.metrics[i].currentlyLocked <= w.s.metrics[i].limits.cap
  {
    var es :| Legal(cfg, Init(thresholds), es) && Run(cfg, Init(thresholds), es) == w;
    EveryRun(cfg, thresholds, es);
    assert LockedAndInFlight(w, i) <= Ceiling(cfg, w.s.metrics[i]);
    InitBounded(cfg, thresholds);
    RunBounded(cfg, Init(thresholds), es);
    TotalPart(map[], InFlight(w.flights, i));
  }

  /** Whatever the thresholds, as long as some range is constrained and can be reached: the cap is kept
      over every interleaving exactly when a single take-chain processor is at work. */
  lemma CapKeptIff(cfg: Config, thresholds: seq<Threshold>, c: int)
    requires cfg.procs != {} && 0 < cfg.maxValue && GetMetric(Start(thresholds).metrics, c).Some?
    ensures CapKept(cfg, thresholds) <==> |cfg.procs| == 1
  {
    if |cfg.procs| == 1 {
      forall w, i: nat | Reaches(cfg, Init(thresholds), w) && i < |w.s.metrics| && IsActual(w.s.metrics[i])
        ensures w.s.metrics[i].currentlyLocked <= w.s.metrics[i].limits.cap
      {
        AloneKeepsCap(cfg, thresholds, w, i);
      }
    } else {
      var i := GetMetric(Start(thresholds).metrics, c).value;
      var w := AttainsCeiling(cfg, thresholds, c, i);
      assert (|cfg.procs| - 1) * Greatest(cfg, w.s.metrics[i]) > 0;
    }
  }

  // ---------------------------------------------------------------- when the rate is kept

  /** The addition counts, but no record stands for it. */
  ghost predicate Forgotten(w: World, k: nat) {
    && k < |w.log| && Counts(w, w.log[k])
    && (w.log[k].id !in w.s.records || LastAdded(w.log, w.log[k].id) != k)
  }

  /** What is held in a range for orders last added among the first n additions. */
  ghost function HeldUpTo(w: World, n: nat, i: nat): map<OrderId, int> {
    map id | id in Held(w.s.records, i) && LastAdded(w.log, id) < n :: Held(w.s.records, i)[id]
  }

  ghost predicate NothingDue(w: World) {
    forall t :: t in w.s.timers ==> t in w.due && w.now < w.due[t]
  }

  /** The record of its order stands for the addition. */
  ghost predicate Stands(w: World, n: nat)
    requires n < |w.log|
  {
    w.log[n].id in w.s.records && LastAdded(w.log, w.log[n].id) == n
  }

  lemma StandingIsRecent(w: World, n: nat)
    requires Consistent(w.s) && Logged(w) && NothingDue(w) && n < |w.log| && Stands(w, n)
    ensures var e, r := w.log[n], w.s.records[w.log[n].id]; Recent(w, e) && r.value == e.value && r.metric == e.metric
  {
    assert StandsForLast(w, w.log[n].id);
  }

  lemma HeldMore(w: World, n: nat, i: nat)
    requires n < |w.log| && Stands(w, n) && w.s.records[w.log[n].id].metric == i
    ensures var id := w.log[n].id;
            && id !in HeldUpTo(w, n, i)
            && HeldUpTo(w, n + 1, i) == HeldUpTo(w, n, i)[id := w.s.records[id].value]
  {
    forall id | id in HeldUpTo(w, n + 1, i) && id !in HeldUpTo(w, n, i)
      ensures id == w.log[n].id
    {
      assert LastAdded(w.log, id) == n;
    }
  }

  lemma HeldSame(w: World, n: nat, i: nat)
    requires n < |w.log| && (Stands(w, n) ==> w.s.records[w.log[n].id].metric != i)
    ensures HeldUpTo(w, n + 1, i) == HeldUpTo(w, n, i)
  {
    forall id | id in HeldUpTo(w, n + 1, i)
      ensures id in HeldUpTo(w, n, i)
    {
      assert LastAdded(w.log, id) == n ==> id == w.log[n].id;
    }
  }

  lemma HeldNone(w: World, i: nat)
    requires Logged(w)
    ensures HeldUpTo(w, 0, i) == map[]
  {
    assert forall id :: id in w.s.records ==> StandsForLast(w, id);
  }

  lemma HeldGrows(w: World, n: nat, i: nat)
    requires Consistent(w.s) && Logged(w) && NothingDue(w) && n < |w.log|
    ensures Total(HeldUpTo(w, n + 1, i))
         == Total(HeldUpTo(w, n, i)) + if Stands(w, n) && w.log[n].metric == i then w.log[n].value else 0
    ensures Stands(w, n) ==> Recent(w, w.log[n])
  {
    var e := w.log[n];
    if Stands(w, n) {
      StandingIsRecent(w, n);
    }
    if Stands(w, n) && e.metric == i {
      HeldMore(w, n, i);
      TotalAdd(HeldUpTo(w, n, i), e.id, e.value);
    } else {
      HeldSame(w, n, i);
    }
  }

  /** With no timer due, every record stands for an addition within its window; so what such additions
      sum up to covers what is locked, and what is forgotten on top. */
  lemma {:induction false} WindowCovers(w: World, n: nat, i: nat, k: nat)
    requires Consistent(w.s) && Logged(w) && NothingDue(w) && n <= |w.log|
    requires Forgotten(w, k) && w.log[k].metric == i
    ensures WindowSum(w, w.log[..n], i) >= Total(HeldUpTo(w, n, i)) + if k < n then w.log[k].value else 0
  {
    if n == 0 {
      HeldNone(w, i);
    } else {
      assert w.log[..n][..n - 1] == w.log[..n - 1];
      WindowCovers(w, n - 1, i, k);
      HeldGrows(w, n - 1, i);
      assert !Stands(w, k);
    }
  }

  lemma ForgottenExceeds(w: World, k: nat)
    requires Consistent(w.s) && Logged(w) && NothingDue(w) && Forgotten(w, k)
    ensures w.log[k].metric < |w.s.metrics| && Excess(w, w.log[k].metric) > 0
  {
    var i := w.log[k].metric;
    assert Usable(w.s.metrics, i);
    WindowCovers(w, |w.log|, i, k);
    assert w.log[..|w.log|] == w.log;
    assert HeldUpTo(w, |w.log|, i) == Held(w.s.records, i);
  }

  /** A forgotten addition stays forgotten while all due timers fire. */
  lemma {:induction false} FireDue(cfg: Config, reached: World -> bool, w: World, k: nat) returns (v: World)
    requires Closed(cfg, reached) && reached(w) && Forgotten(w, k)
    ensures reached(v) && Forgotten(v, k) && NothingDue(v) && v.flights == w.flights
    decreases |w.s.timers|
  {
    assert Sane(cfg, w);
    if t :| t in w.s.timers && w.due[t] <= w.now {
      FireConsistent(w.s, t);
      SafeStep(cfg, reached, w, Fires(t));
      Shrinks(w.s.timers, t);
      v := FireDue(cfg, reached, Step(cfg, w, Fires(t)), k);
    } else {
      v := w;
    }
  }

  /** An addition made too early forgets the one before it. */
  lemma RepeatIsForgotten(cfg: Config, w: World, p: ChainId, value: nat, i: nat) returns (k: nat)
    requires Plausible(cfg, w) && Enabled(cfg, w, Land(p, value)) && RecentlyAdded(w, w.flights[p].id)
    requires GetMetric(w.s.metrics, w.flights[p].c) == Some(i)
    ensures Forgotten(Step(cfg, w, Land(p, value)), k)
  {
    Landing(cfg, w, p, value, i);
    var id := w.flights[p].id;
    k :| 0 <= k < |w.log| && w.log[k].id == id && Counts(w, w.log[k]);
    LastAfter(w.log, Entry(id, i, value, w.now), id);
    assert Step(cfg, w, Land(p, value)).log[k] == w.log[k];
  }

  /** A timer left from before makes the controller forget the new addition. */
  lemma EarlyIsForgotten(cfg: Config, reached: World -> bool, w: World, p: ChainId, value: nat, i: nat) returns (v: World)
    requires Plausible(cfg, w) && Enabled(cfg, w, Land(p, value)) && value > 0
    requires GetMetric(w.s.metrics, w.flights[p].c) == Some(i)
    requires DueBefore(w, w.flights[p].id, w.now + w.s.metrics[i].limits.window)
    requires Closed(cfg, reached) && reached(Step(cfg, w, Land(p, value)))
    ensures reached(v) && Forgotten(v, |w.log|) && v.flights == w.flights - {p}
  {
    Landing(cfg, w, p, value, i);
    var u, id := Step(cfg, w, Land(p, value)), w.flights[p].id;
    var end := w.now + w.s.metrics[i].limits.window;
    var t :| t in w.s.timers && w.s.timers[t].id == id && t in w.due && w.due[t] < end;
    var later := if u.now < u.due[t] then u.due[t] else u.now;
    SafeStep(cfg, reached, u, Advance(later));
    var mid := Step(cfg, u, Advance(later));
    SafeStep(cfg, reached, mid, Fires(t));
    assert Sane(cfg, mid);
    FireConsistent(mid.s, t);
    v := Step(cfg, mid, Fires(t));
    assert v.log[|w.log|] == Entry(id, i, value, w.now);
  }

  /** A single processor can exceed the rate from any world with a forgotten addition. */
  lemma ForgottenBreaksRate(cfg: Config, reached: World -> bool, w: World, k: nat) returns (v: World)
    requires Closed(cfg, reached) && reached(w) && Forgotten(w, k) && w.flights == map[]
    requires |cfg.procs| == 1 && 0 < cfg.maxValue
    ensures reached(v) && !RateKept(cfg, v)
  {
    var u := FireDue(cfg, reached, w, k);
    var i := u.log[k].metric;
    var p :| p in cfg.procs;
    assert Sane(cfg, u);
    ForgottenExceeds(u, k);
    assert Usable(u.s.metrics, i);
    assert InFlight(u.flights, i) == map[];
    assert LockedAndInFlight(u, i) <= Ceiling(cfg, u.s.metrics[i]);
    v := Fill(cfg, reached, u, p, i, u.s.metrics[i].limits.cap);
    assert WindowSum(v, v.log, i) > Ceiling(cfg, v.s.metrics[i]);
  }

  /** However runs go on safely, the rate is kept. */
  ghost predicate RateStaysKept(cfg: Config, w: World) {
    forall v :: SafelyReaches(cfg, w, v) ==> RateKept(cfg, v)
  }

  lemma RememberedStaysKept(cfg: Config, w: World)
    requires Plausible(cfg, w) && Bounded(cfg, w) && Remembers(w)
    ensures RateStaysKept(cfg, w)
  {
    forall v | SafelyReaches(cfg, w, v)
      ensures RateKept(cfg, v)
    {
      var es :| Legal(cfg, w, es) && AllSafe(cfg, w, es) && Run(cfg, w, es) == v;
      RunBounded(cfg, w, es);
      RunRemembers(cfg, w, es);
      RememberedRateKept(cfg, v);
    }
  }

  lemma AloneHasNothingElse(cfg: Config, w: World, p: ChainId)
    requires |cfg.procs| == 1 && w.flights.Keys <= cfg.procs && p in w.flights
    ensures w.flights - {p} == map[]
  {
    assert |cfg.procs - {p}| == 0;
    assert forall q :: q in w.flights ==> q !in cfg.procs - {p};
  }

  lemma UnsafeBreaksRate(cfg: Config, w: World, p: ChainId, value: nat, i: nat)
    requires |cfg.procs| == 1 && Sane(cfg, w) && Enabled(cfg, w, Land(p, value))
    requires GetMetric(w.s.metrics, w.flights[p].c) == Some(i) && !Safe(w, Land(p, value))
    requires 0 < cfg.maxValue
    ensures !RateStaysKept(cfg, Step(cfg, w, Land(p, value)))
  {
    var start := Step(cfg, w, Land(p, value));
    var reached := (v: World) => Sane(cfg, v) && SafelyReaches(cfg, start, v);
    StepSane(cfg, w, Land(p, value));
    SafelyStays(cfg, start);
    SafelyReachedClosed(cfg, start);
    AloneHasNothingElse(cfg, w, p);
    var u, k := start, 0;
    if RecentlyAdded(w, w.flights[p].id) {
      k := RepeatIsForgotten(cfg, w, p, value, i);
    } else {
      u := EarlyIsForgotten(cfg, reached, w, p, value, i);
      k := |w.log|;
    }
    var v := ForgottenBreaksRate(cfg, reached, u, k);
  }

  /** What the documented rate hangs on, for a single processor: after any safe run, an addition to a
      constrained range is safe exactly if the rate is kept along every safe run that follows. */
  lemma RateLimitIff(cfg: Config, thresholds: seq<Threshold>, w: World, p: ChainId, value: nat, i: nat)
    requires |cfg.procs| == 1 && 0 < cfg.maxValue && SafelyReaches(cfg, Init(thresholds), w)
    requires Enabled(cfg, w, Land(p, value)) && GetMetric(w.s.metrics, w.flights[p].c) == Some(i)
    ensures Safe(w, Land(p, value)) <==> RateStaysKept(cfg, Step(cfg, w, Land(p, value)))
  {
    SafelyReachedSane(cfg, thresholds, w);
    if Safe(w, Land(p, value)) {
      StepSane(cfg, w, Land(p, value));
      LandRemembers(cfg, w, p, value, i);
      RememberedStaysKept(cfg, Step(cfg, w, Land(p, value)));
    } else {
      UnsafeBreaksRate(cfg, w, p, value, i);
    }
  }
}
