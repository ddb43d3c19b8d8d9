/** Whole runs of the throughput controller: several take-chain processors check and add
    concurrently while timers take values out again. */
module ThroughputRuns {
  import opened Common
  import opened Ranges
  import opened Totals
  import opened ThroughputModel

  // ---------------------------------------------------------------- conservation

  /** The value each recorded order holds in a range. */
  ghost function Held(records: map<OrderId, Record>, i: nat): map<OrderId, int> {
    map id | id in records && records[id].metric == i :: records[id].value
  }

  /** Every range caches exactly the sum and the ids of the records that point at it, so no order
      is in two ranges; every record's own timer is pending. */
  ghost predicate Consistent(s: Controller) {
    && !s.died
    && (forall i :: 0 <= i < |s.metrics| ==>
          && s.metrics[i].orders == Held(s.records, i).Keys
          && s.metrics[i].currentlyLocked == Total(Held(s.records, i)))
    && (forall id :: id in s.records ==>
          && s.records[id].metric < |s.metrics|
          && s.records[id].timer in s.timers && s.timers[s.records[id].timer].id == id)
    && (forall t :: t in s.timers ==> t < s.next)
  }

  ghost predicate SameLimits(a: seq<Metric>, b: seq<Metric>) {
    |a| == |b| && forall i :: 0 <= i < |a| ==> a[i].limits == b[i].limits
  }

  lemma {:induction false} SameLimitsSameMetric(a: seq<Metric>, b: seq<Metric>, c: int)
    requires SameLimits(a, b)
    ensures GetMetric(a, c) == GetMetric(b, c)
  {
    if a != [] {
      SameLimitsSameMetric(a[1..], b[1..], c);
    }
  }

  /** Removal finds its order in the range the record points at: the assertion never fails. */
  lemma RemoveConsistent(s: Controller, id: OrderId)
    requires Consistent(s)
    ensures var r := RemoveOrder(s, id);
            && Consistent(r) && SameLimits(r.metrics, s.metrics)
            && r.records == s.records - {id} && r.timers == s.timers && r.next == s.next
  {
    if id in s.records {
      var r := RemoveOrder(s, id);
      var k := s.records[id].metric;
      assert id in Held(s.records, k);
      assert Held(r.records, k) == Held(s.records, k) - {id};
      TotalRemove(Held(s.records, k), id);
      forall i | 0 <= i < |s.metrics| && i != k
        ensures Held(r.records, i) == Held(s.records, i)
      {
      }
    } else {
      assert s.records - {id} == s.records;
    }
  }

  lemma HeldAfterLock(s: Controller, id: OrderId, c: int, value: int, k: nat, i: nat)
    requires id !in s.records && k < |s.metrics|
    ensures var records := Lock(s, id, c, value, k).records;
            && Held(records, i).Keys == Held(s.records, i).Keys + (if i == k then {id} else {})
            && Total(Held(records, i)) == Total(Held(s.records, i)) + if i == k then value else 0
  {
    var records := Lock(s, id, c, value, k).records;
    if i == k {
      assert Held(records, i) == Held(s.records, i)[id := value];
      TotalAdd(Held(s.records, i), id, value);
    } else {
      assert Held(records, i) == Held(s.records, i);
    }
  }

  lemma LockConsistent(s: Controller, id: OrderId, c: int, value: int, k: nat)
    requires Consistent(s) && id !in s.records && k < |s.metrics|
    ensures var r := Lock(s, id, c, value, k); Consistent(r) && SameLimits(r.metrics, s.metrics)
  {
    forall i | 0 <= i < |s.metrics|
      ensures var records := Lock(s, id, c, value, k).records;
              && Held(records, i).Keys == Held(s.records, i).Keys + (if i == k then {id} else {})
              && Total(Held(records, i)) == Total(Held(s.records, i)) + if i == k then value else 0
    {
      HeldAfterLock(s, id, c, value, k, i);
    }
  }

  lemma AddConsistent(s: Controller, id: OrderId, c: int, value: int)
    requires Consistent(s)
    ensures var r := AddOrder(s, id, c, value); Consistent(r) && SameLimits(r.metrics, s.metrics)
  {
    var i := GetMetric(s.metrics, c);
    if i.Some? {
      RemoveConsistent(s, id);
      LockConsistent(RemoveOrder(s, id), id, c, value, i.value);
    }
  }

  /** A timer may be stale: it removes the record of its order even if that record has a later timer. */
  lemma FireConsistent(s: Controller, t: nat)
    requires Consistent(s) && t in s.timers
    ensures var r := Fire(s, t);
            && Consistent(r) && SameLimits(r.metrics, s.metrics)
            && r.records == s.records - {s.timers[t].id} && r.timers == s.timers - {t} && r.next == s.next
  {
    RemoveConsistent(s, s.timers[t].id);
  }

  // ---------------------------------------------------------------- worlds and runs

  /** An order between its throttle check and its addition; `metric` is the range checked. */
  datatype Flight = Flight(id: OrderId, c: int, value: int, metric: Option<nat>)

  /** One addition to a range. */
  datatype Entry = Entry(id: OrderId, metric: nat, value: nat, time: int)

  /** The controller, a clock, the due times of pending timers, the orders in flight by take-chain
      processor, and the log of additions. */
  datatype World = World(
    s: Controller, now: int, due: map<nat, int>, flights: map<ChainId, Flight>, log: seq<Entry>)

  /** The processors at work and the greatest value of an order. */
  datatype Config = Config(procs: set<ChainId>, maxValue: nat)

  /** A processor holds one order at a time, and no two hold the same one, as every order goes to the
      processor of its take chain; its value does not grow between check and addition; timers may be
      late but never early. */
  datatype Event =
    | Check(p: ChainId, id: OrderId, c: int, value: nat)
    | Land(p: ChainId, value: nat)
    | Abort(p: ChainId)
    | Advance(to: int)
    | Fires(t: nat)

  ghost function Init(thresholds: seq<Threshold>): World {
    World(Start(thresholds), 0, map[], map[], [])
  }

  ghost predicate Enabled(cfg: Config, w: World, e: Event) {
    match e
    case Check(p, id, c, value) =>
      && p in cfg.procs && p !in w.flights && (forall q :: q in w.flights ==> w.flights[q].id != id)
      && value <= cfg.maxValue && !IsThrottled(w.s, c, value)
    case Land(p, value) => p in w.flights && value <= w.flights[p].value
    case Abort(p) => p in w.flights
    case Advance(to) => w.now <= to
    case Fires(t) => t in w.s.timers && t in w.due && w.due[t] <= w.now
  }

  ghost function Step(cfg: Config, w: World, e: Event): World
    requires Enabled(cfg, w, e)
  {
    match e
    case Check(p, id, c, value) => w.(flights := w.flights[p := Flight(id, c, value, GetMetric(w.s.metrics, c))])
    case Land(p, value) =>
      var f := w.flights[p];
      var s := AddOrder(w.s, f.id, f.c, value);
      var landed := w.(s := s, flights := w.flights - {p});
      (match GetMetric(w.s.metrics, f.c)
       case None => landed
       case Some(i) => landed.(due := w.due[w.s.next := w.now + s.timers[w.s.next].delay],
                               log := w.log + [Entry(f.id, i, value, w.now)]))
    case Abort(p) => w.(flights := w.flights - {p})
    case Advance(to) => w.(now := to)
    case Fires(t) => w.(s := Fire(w.s, t))
  }

  ghost predicate Legal(cfg: Config, w: World, es: seq<Event>)
    decreases |es|
  {
    es == [] || (Enabled(cfg, w, es[0]) && Legal(cfg, Step(cfg, w, es[0]), es[1..]))
  }

  ghost function Run(cfg: Config, w: World, es: seq<Event>): World
    requires Legal(cfg, w, es)
    decreases |es|
  {
    if es == [] then w else Run(cfg, Step(cfg, w, es[0]), es[1..])
  }

  // ---------------------------------------------------------------- the concurrent bound

  ghost function InFlight(flights: map<ChainId, Flight>, i: nat): map<ChainId, int> {
    map p | p in flights && flights[p].metric == Some(i) :: flights[p].value
  }

  /** An order in flight passed the throttle check. */
  ghost predicate FlightFits(cfg: Config, metrics: seq<Metric>, f: Flight) {
    && 0 <= f.value <= cfg.maxValue
    && f.metric == GetMetric(metrics, f.c)
    && (f.metric.Some? ==> f.value <= metrics[f.metric.value].limits.cap)
  }

  ghost predicate Plausible(cfg: Config, w: World) {
    && Consistent(w.s)
    && w.flights.Keys <= cfg.procs
    && (forall p :: p in w.flights ==> FlightFits(cfg, w.s.metrics, w.flights[p]))
    && (forall id :: id in w.s.records ==> 0 <= w.s.records[id].value)
  }

  /** The greatest value of an order that can pass the throttle check of a range. */
  ghost function Greatest(cfg: Config, m: Metric): int {
    if cfg.maxValue <= m.limits.cap then cfg.maxValue else m.limits.cap
  }

  ghost function Ceiling(cfg: Config, m: Metric): int {
    m.limits.cap + (|cfg.procs| - 1) * Greatest(cfg, m)
  }

  ghost predicate Bounded(cfg: Config, w: World) {
    forall i :: 0 <= i < |w.s.metrics| && IsActual(w.s.metrics[i]) ==>
      LockedAndInFlight(w, i) <= Ceiling(cfg, w.s.metrics[i])
  }

  lemma LandConsistent(w: World, p: ChainId, value: nat)
    requires Consistent(w.s) && p in w.flights
    requires forall id :: id in w.s.records ==> 0 <= w.s.records[id].value
    ensures var s := AddOrder(w.s, w.flights[p].id, w.flights[p].c, value);
            && Consistent(s) && SameLimits(s.metrics, w.s.metrics)
            && forall id :: id in s.records ==> 0 <= s.records[id].value
  {
    AddConsistent(w.s, w.flights[p].id, w.flights[p].c, value);
    RemoveConsistent(w.s, w.flights[p].id);
  }

  lemma StepPlausible(cfg: Config, w: World, e: Event)
    requires Plausible(cfg, w) && Enabled(cfg, w, e)
    ensures var v := Step(cfg, w, e); Plausible(cfg, v) && SameLimits(v.s.metrics, w.s.metrics)
  {
    var v := Step(cfg, w, e);
    match e {
      case Check(p, id, c, value) => CheckedFits(cfg, w, id, c, value);
      case Land(p, value) => LandConsistent(w, p, value);
      case Fires(t) => FireConsistent(w.s, t);
      case _ =>
    }
    assert SameLimits(v.s.metrics, w.s.metrics);
    forall p | p in v.flights
      ensures FlightFits(cfg, v.s.metrics, v.flights[p])
    {
      SameLimitsSameMetric(w.s.metrics, v.s.metrics, v.flights[p].c);
    }
  }

  lemma CheckedFits(cfg: Config, w: World, id: OrderId, c: int, value: nat)
    requires Plausible(cfg, w) && value <= cfg.maxValue && !IsThrottled(w.s, c, value)
    ensures FlightFits(cfg, w.s.metrics, Flight(id, c, value, GetMetric(w.s.metrics, c)))
  {
    var i := GetMetric(w.s.metrics, c);
    if i.Some? {
      NothingOwed(w.s, i.value);
    }
  }

  lemma NothingOwed(s: Controller, i: nat)
    requires Consistent(s) && i < |s.metrics| && forall id :: id in s.records ==> 0 <= s.records[id].value
    ensures 0 <= s.metrics[i].currentlyLocked
  {
    TotalPart(map[], Held(s.records, i));
  }

  /** Removing a non-negative value locks no more anywhere. */
  lemma RemoveLocksNoMore(s: Controller, id: OrderId, i: nat)
    requires Consistent(s) && i < |s.metrics| && (id in s.records ==> 0 <= s.records[id].value)
    ensures var r := RemoveOrder(s, id); i < |r.metrics| && r.metrics[i].currentlyLocked <= s.metrics[i].currentlyLocked
  {
  }

  lemma OthersAtMost(cfg: Config, others: map<ChainId, int>, p: ChainId, bound: nat)
    requires p in cfg.procs && others.Keys <= cfg.procs - {p}
    requires forall q :: q in others ==> others[q] <= bound
    ensures Total(others) <= (|cfg.procs| - 1) * bound
  {
    TotalAtMost(others, cfg.procs - {p}, bound);
    assert |cfg.procs - {p}| == |cfg.procs| - 1;
  }

  ghost function LockedAndInFlight(w: World, i: nat): int
    requires i < |w.s.metrics|
  {
    w.s.metrics[i].currentlyLocked + Total(InFlight(w.flights, i))
  }

  ghost function Share(f: Flight, i: nat): int {
    if f.metric == Some(i) then f.value else 0
  }

  lemma InFlightWithout(flights: map<ChainId, Flight>, p: ChainId, i: nat)
    requires p in flights
    ensures Total(InFlight(flights, i)) == Total(InFlight(flights - {p}, i)) + Share(flights[p], i)
  {
    var all, rest := InFlight(flights, i), InFlight(flights - {p}, i);
    if flights[p].metric == Some(i) {
      assert rest == all - {p};
      TotalRemove(all, p);
    } else {
      assert rest == all;
    }
  }

  lemma OthersInFlight(cfg: Config, w: World, p: ChainId, i: nat)
    requires Plausible(cfg, w) && p in cfg.procs && p !in w.flights && i < |w.s.metrics| && IsActual(w.s.metrics[i])
    ensures Total(InFlight(w.flights, i)) <= (|cfg.procs| - 1) * Greatest(cfg, w.s.metrics[i])
  {
    var others := InFlight(w.flights, i);
    forall q | q in others
      ensures others[q] <= Greatest(cfg, w.s.metrics[i])
    {
      assert FlightFits(cfg, w.s.metrics, w.flights[q]);
    }
    OthersAtMost(cfg, others, p, Greatest(cfg, w.s.metrics[i]));
  }

  lemma CheckBounded(cfg: Config, w: World, e: Event, i: nat)
    requires Plausible(cfg, w) && Enabled(cfg, w, e) && e.Check?
    requires i < |w.s.metrics| && IsActual(w.s.metrics[i])
    ensures var v := Step(cfg, w, e);
            LockedAndInFlight(v, i) <= LockedAndInFlight(w, i) || LockedAndInFlight(v, i) <= Ceiling(cfg, w.s.metrics[i])
  {
    var flights := Step(cfg, w, e).flights;
    InFlightWithout(flights, e.p, i);
    assert flights - {e.p} == w.flights;
    OthersInFlight(cfg, w, e.p, i);
  }

  lemma AddLocksAtMost(s: Controller, id: OrderId, c: int, value: nat, i: nat)
    requires Consistent(s) && i < |s.metrics| && (id in s.records ==> 0 <= s.records[id].value)
    ensures var r := AddOrder(s, id, c, value);
            && i < |r.metrics|
            && r.metrics[i].currentlyLocked <=
               s.metrics[i].currentlyLocked + if GetMetric(s.metrics, c) == Some(i) then value else 0
  {
    RemoveLocksNoMore(s, id, i);
  }

  lemma LandBounded(cfg: Config, w: World, e: Event, i: nat)
    requires Plausible(cfg, w) && Enabled(cfg, w, e) && e.Land? && i < |w.s.metrics|
    ensures var v := Step(cfg, w, e);
            i < |v.s.metrics| && LockedAndInFlight(v, i) <= LockedAndInFlight(w, i)
  {
    var f := w.flights[e.p];
    AddLocksAtMost(w.s, f.id, f.c, e.value, i);
    InFlightWithout(w.flights, e.p, i);
  }

  lemma StepBoundedAt(cfg: Config, w: World, e: Event, i: nat)
    requires Plausible(cfg, w) && Enabled(cfg, w, e) && i < |w.s.metrics| && IsActual(w.s.metrics[i])
    ensures var v := Step(cfg, w, e);
            && i < |v.s.metrics|
            && (LockedAndInFlight(v, i) <= LockedAndInFlight(w, i)
                || LockedAndInFlight(v, i) <= Ceiling(cfg, w.s.metrics[i]))
  {
    match e
    case Check(_, _, _, _) => CheckBounded(cfg, w, e, i);
    case Land(_, _) => LandBounded(cfg, w, e, i);
    case Abort(p) => InFlightWithout(w.flights, p, i);
    case Advance(_) =>
    case Fires(t) => RemoveLocksNoMore(w.s, w.s.timers[t].id, i);
  }

  lemma StepBounded(cfg: Config, w: World, e: Event)
    requires Plausible(cfg, w) && Bounded(cfg, w) && Enabled(cfg, w, e)
    ensures Bounded(cfg, Step(cfg, w, e))
  {
    var v := Step(cfg, w, e);
    StepPlausible(cfg, w, e);
    forall i | 0 <= i < |v.s.metrics| && IsActual(v.s.metrics[i])
      ensures LockedAndInFlight(v, i) <= Ceiling(cfg, v.s.metrics[i])
    {
      StepBoundedAt(cfg, w, e, i);
    }
  }

  lemma {:induction false} RunBounded(cfg: Config, w: World, es: seq<Event>)
    requires Plausible(cfg, w) && Bounded(cfg, w) && Legal(cfg, w, es)
    ensures var v := Run(cfg, w, es);
            Plausible(cfg, v) && Bounded(cfg, v) && SameLimits(v.s.metrics, w.s.metrics)
    decreases |es|
  {
    if es != [] {
      StepPlausible(cfg, w, es[0]);
      StepBounded(cfg, w, es[0]);
      RunBounded(cfg, Step(cfg, w, es[0]), es[1..]);
    }
  }

  lemma InitBounded(cfg: Config, thresholds: seq<Threshold>)
    requires cfg.procs != {}
    ensures Plausible(cfg, Init(thresholds)) && Bounded(cfg, Init(thresholds))
  {
  }

  /** Over every interleaving: the cached sums are exact, and what a constrained range has locked
      and in flight exceeds its cap by at most one order per further processor, of the greatest value
      that passes the check. */
  lemma EveryRun(cfg: Config, thresholds: seq<Threshold>, es: seq<Event>)
    requires cfg.procs != {} && Legal(cfg, Init(thresholds), es)
    ensures var w := Run(cfg, Init(thresholds), es);
            && Consistent(w.s)
            && forall i :: 0 <= i < |w.s.metrics| && IsActual(w.s.metrics[i]) ==>
                 w.s.metrics[i].currentlyLocked + Total(InFlight(w.flights, i)) <= Ceiling(cfg, w.s.metrics[i])
  {
    InitBounded(cfg, thresholds);
    RunBounded(cfg, Init(thresholds), es);
  }

  // ---------------------------------------------------------------- which range an order counts against

  ghost predicate Constrained(t: Option<Threshold>) {
    t.Some? && t.value.cap > 0 && t.value.window > 0
  }

  lemma {:induction false} MetricIsReached(metrics: seq<Metric>, thresholds: seq<Threshold>, c: int)
    requires |metrics| == |thresholds| && forall i :: 0 <= i < |metrics| ==> metrics[i].limits == thresholds[i]
    ensures var reached, i := FindReached(thresholds, MinOf, c), GetMetric(metrics, c);
            && (i.Some? <==> Constrained(reached))
            && (i.Some? ==> metrics[i.value].limits == reached.value)
  {
    if metrics != [] && thresholds[0].min > c {
      MetricIsReached(metrics[1..], thresholds[1..], c);
    }
  }

  /** In every state of every run, with the thresholds a chain is configured with: an order counts
      against the limits of its own range of confirmations, or from finality on against the final
      ones, and against none exactly when those limits are absent or zero. */
  lemma OrderCountsAgainstItsRange(
    cfg: Config, finalized: int, raw: seq<SrcRange>, final: Threshold, es: seq<Event>, c: int)
    requires ConfiguredRanges(finalized, raw).Ok? && final.min == finalized && cfg.procs != {}
    requires Legal(cfg, Init(ControllerThresholds(ConfiguredRanges(finalized, raw).value, final)), es)
    ensures var ranges := ConfiguredRanges(finalized, raw).value;
            var metrics := Run(cfg, Init(ControllerThresholds(ranges, final)), es).s.metrics;
            var own := FindReached(SortDesc(ranges, SrcMinOf), SrcMinOf, c);
            var limits := if finalized <= c then Some(final) else if own.Some? then Some(own.value.limits) else None;
            var i := GetMetric(metrics, c);
            && (i.Some? <==> Constrained(limits))
            && (i.Some? ==> metrics[i.value].limits == limits.value)
  {
    var thresholds := ControllerThresholds(ConfiguredRanges(finalized, raw).value, final);
    InitBounded(cfg, thresholds);
    RunBounded(cfg, Init(thresholds), es);
    RangesAgree(finalized, raw, final, c);
    MetricIsReached(Run(cfg, Init(thresholds), es).s.metrics, SortDesc(thresholds, MinOf), c);
  }

  // ---------------------------------------------------------------- reachable worlds

  ghost predicate Reaches(cfg: Config, w: World, v: World) {
    exists es :: Legal(cfg, w, es) && Run(cfg, w, es) == v
  }

  lemma {:induction false} RunFurther(cfg: Config, w: World, es: seq<Event>, e: Event)
    requires Legal(cfg, w, es) && Enabled(cfg, Run(cfg, w, es), e)
    ensures Legal(cfg, w, es + [e]) && Run(cfg, w, es + [e]) == Step(cfg, Run(cfg, w, es), e)
    decreases |es|
  {
    if es == [] {
      assert es + [e] == [e] && [e][1..] == [];
      assert Legal(cfg, Step(cfg, w, e), []) && Run(cfg, Step(cfg, w, e), []) == Step(cfg, w, e);
    } else {
      assert (es + [e])[1..] == es[1..] + [e];
      RunFurther(cfg, Step(cfg, w, es[0]), es[1..], e);
    }
  }

  lemma ReachFurther(cfg: Config, w: World, v: World, e: Event)
    requires Reaches(cfg, w, v) && Enabled(cfg, v, e)
    ensures Reaches(cfg, w, Step(cfg, v, e))
  {
    var es :| Legal(cfg, w, es) && Run(cfg, w, es) == v;
    RunFurther(cfg, w, es, e);
  }

  lemma StartOfOne(t: Threshold)
    ensures Start([t]).metrics == [Fresh(t)]
  {
    assert [t][1..] == [];
    assert SortDesc([t], MinOf) == [t];
  }
}
