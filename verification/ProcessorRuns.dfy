/** Whole runs of the order processor: feed events, retry timers and ends of take attempts
    interleave in any order. */
module ProcessorRuns {
  import opened Common
  import opened ProcessorModel
  import M = MempoolModel

  // ---------------------------------------------------------------- what a queue of events does

  /** The orders wiped out by a queue of events. */
  ghost function Wiped(events: seq<Context>): set<OrderId> {
    if events == [] then {}
    else (if IsTerminal(events[0].status) then {events[0].id} else {}) + Wiped(events[1..])
  }

  ghost function CallOf(e: Context): seq<Call> {
    if e.status.Fulfilled? || e.status.ArchivalFulfilled? then [Unlock(e.id)]
    else if e.status.UnlockSent? || e.status.UnlockClaim? then [DropUnlock(e.id)]
    else []
  }

  /** The calls made for a queue of events, first in first out. */
  ghost function CallsOf(events: seq<Context>): seq<Call> {
    if events == [] then [] else CallOf(events[0]) + CallsOf(events[1..])
  }

  ghost function ForgetAll(m: M.Mempool, ids: set<OrderId>): M.Mempool {
    m.(tracked := m.tracked - ids, timers := map t | t in m.timers && m.timers[t].id !in ids :: m.timers[t])
  }

  /** The processor without a set of orders, after some calls. */
  ghost function Wipe(p: Processor, ids: set<OrderId>, calls: seq<Call>): Processor {
    p.(queue := Without(p.queue, ids), priority := Without(p.priority, ids), store := p.store - ids,
       mempool := ForgetAll(p.mempool, ids), calls := p.calls + calls)
  }

  lemma ForgetNothing(m: M.Mempool)
    ensures ForgetAll(m, {}) == m
  {
  }

  lemma DeleteForgets(m: M.Mempool, id: OrderId)
    requires M.OneTimerEach(m)
    ensures M.Delete(m, id) == ForgetAll(m, {id})
  {
  }

  lemma ForgetTwice(m: M.Mempool, a: set<OrderId>, b: set<OrderId>)
    ensures ForgetAll(ForgetAll(m, a), b) == ForgetAll(m, a + b)
  {
  }

  lemma ForgetKeeps(m: M.Mempool, ids: set<OrderId>)
    requires M.OneTimerEach(m)
    ensures M.OneTimerEach(ForgetAll(m, ids))
  {
  }

  lemma RemoveTwice<K, V>(m: map<K, V>, a: set<K>, b: set<K>)
    ensures m - a - b == m - (a + b)
  {
  }

  lemma WipeTwice(p: Processor, a: set<OrderId>, x: seq<Call>, b: set<OrderId>, y: seq<Call>)
    ensures Wipe(Wipe(p, a, x), b, y) == Wipe(p, a + b, x + y)
  {
    WithoutTwice(p.queue, a, b);
    WithoutTwice(p.priority, a, b);
    ForgetTwice(p.mempool, a, b);
    RemoveTwice(p.store, a, b);
    assert p.calls + x + y == p.calls + (x + y);
  }

  lemma WipeNothing(p: Processor, calls: seq<Call>)
    ensures Wipe(p, {}, calls) == p.(calls := p.calls + calls)
  {
    WithoutNothing(p.queue, {});
    WithoutNothing(p.priority, {});
    ForgetNothing(p.mempool);
    assert p.store - {} == p.store;
  }

  lemma DispatchWipes(p: Processor, e: Context)
    requires M.OneTimerEach(p.mempool) && !IsCreation(e.status)
    ensures Dispatch(p, e) == Wipe(p, Wiped([e]), CallOf(e))
  {
    if IsTerminal(e.status) {
      assert Wiped([e]) == {e.id};
      DeleteForgets(p.mempool, e.id);
      assert p.calls + [] == p.calls;
    } else {
      assert Wiped([e]) == {};
      WipeNothing(p, CallOf(e));
      assert p.calls + [] == p.calls;
    }
  }

  ghost predicate NoCreations(events: seq<Context>) {
    forall i :: 0 <= i < |events| ==> !IsCreation(events[i].status)
  }

  /** Releasing the lock drains the whole event queue at once and in order, then turns to a
      waiting order: the recursion amounts to one wipe. */
  lemma {:induction false} ContinueDrains(p: Processor)
    requires !p.locked && M.OneTimerEach(p.mempool) && NoCreations(p.events)
    ensures Continue(p) == ProcessNextOrder(Wipe(p, Wiped(p.events), CallsOf(p.events)).(events := []))
    decreases |p.events|
  {
    if p.events == [] {
      WipeNothing(p, []);
      assert p.calls + [] == p.calls;
    } else {
      var e, rest := p.events[0], p.events[1..];
      var q := p.(events := rest);
      var r := Dispatch(q, e);
      DispatchWipes(q, e);
      ForgetKeeps(q.mempool, Wiped([e]));
      ContinueDrains(r);
      WipeTwice(q, Wiped([e]), CallOf(e), Wiped(rest), CallsOf(rest));
      assert Wiped([e]) + Wiped(rest) == Wiped(p.events);
    }
  }

  // ---------------------------------------------------------------- worlds and runs

  /** `rejected`: orders whose latest attempt ended in a rejection. */
  datatype World = World(p: Processor, rejected: set<OrderId>)

  datatype Event =
    | FeedSends(ctx: Context)
    | TimerFires(t: nat)
    | TakeEnds(k: nat, outcome: Outcome, fulfillCheckDelay: int)
    | Resumes(k: nat)

  const INIT := World(EMPTY, {})

  ghost predicate Enabled(w: World, e: Event) {
    match e
    case FeedSends(_) => true
    case TimerFires(t) => t in w.p.mempool.timers
    case TakeEnds(k, _, _) => k < |w.p.attempts| && w.p.attempts[k].phase.Taking?
    case Resumes(k) => k < |w.p.attempts| && w.p.attempts[k].phase.Ended?
  }

  ghost function UnderWay(p: Processor): set<OrderId> {
    set i | 0 <= i < |p.attempts| :: p.attempts[i].id
  }

  ghost function Next(p: Processor, e: Event): Processor
    requires Enabled(World(p, {}), e)
  {
    match e
    case FeedSends(ctx) => HandleEvent(p, ctx)
    case TimerFires(t) => OnTimeout(p, t)
    case TakeEnds(k, outcome, delay) => EndTake(p, k, outcome, delay)
    case Resumes(k) => Resume(p, k)
  }

  ghost function RejectedBy(p: Processor, e: Event): set<OrderId>
    requires Enabled(World(p, {}), e)
  {
    if e.Resumes? && p.attempts[e.k].phase.rejected then {p.attempts[e.k].id} else {}
  }

  ghost function Step(w: World, e: Event): World
    requires Enabled(w, e)
  {
    var q := Next(w.p, e);
    World(q, w.rejected + RejectedBy(w.p, e) - UnderWay(q))
  }

  ghost predicate Legal(w: World, es: seq<Event>)
    decreases |es|
  {
    es == [] || (Enabled(w, es[0]) && Legal(Step(w, es[0]), es[1..]))
  }

  ghost function Run(w: World, es: seq<Event>): World
    requires Legal(w, es)
    decreases |es|
  {
    if es == [] then w else Run(Step(w, es[0]), es[1..])
  }

  // ---------------------------------------------------------------- the invariant

  ghost function Waiting(p: Processor): set<OrderId> {
    Elems(p.priority) + Elems(p.queue) + p.mempool.tracked.Keys
  }

  /** What holds with or without the lock. */
  ghost predicate Sound(p: Processor) {
    && !p.died
    && M.OneTimerEach(p.mempool)
    && NoCreations(p.events)
    && Distinct(p.priority) && Distinct(p.queue)
    && Waiting(p) + UnderWay(p) <= p.store.Keys
  }

  /** One attempt at a time, under the lock; and without the lock nothing waits its turn. */
  ghost predicate Settled(p: Processor) {
    && |p.attempts| <= 1
    && (p.locked <==> p.attempts != [])
    && (!p.locked ==> p.priority == [] && p.queue == [] && p.events == [])
  }

  /** Once an attempt has ended, its order waits again, unless it was rejected. */
  ghost predicate WaitsAgain(p: Processor, more: set<OrderId>) {
    forall i :: 0 <= i < |p.attempts| && p.attempts[i].phase.Ended? && !p.attempts[i].phase.rejected ==>
      p.attempts[i].id in Waiting(p) + more
  }

  /** Every order in the store is under way, waiting, or was rejected at its latest attempt. */
  ghost predicate NoOrderLost(w: World) {
    w.p.store.Keys <= UnderWay(w.p) + Waiting(w.p) + w.rejected
  }

  ghost predicate Inv(w: World) {
    Sound(w.p) && Settled(w.p) && WaitsAgain(w.p, {}) && NoOrderLost(w)
  }

  lemma StartTakeKeeps(p: Processor, id: OrderId)
    requires Sound(p) && p.locked && p.attempts == [] && id in p.store
    ensures var q := StartTake(p, id);
            && Sound(q) && Settled(q) && WaitsAgain(q, {}) && UnderWay(q) == {id} && q.store.Keys == p.store.Keys
            && Waiting(p) <= Waiting(q) + {id}
  {
    var q := StartTake(p, id);
    assert q.attempts[0].id == id;
    assert UnderWay(q) == {id};
    M.DeleteKeeps(p.mempool, id);
  }

  lemma ProcessCreatedKeeps(p: Processor, id: OrderId, live: bool)
    requires Sound(p) && Settled(p) && WaitsAgain(p, {id}) && id in p.store
    ensures var q := ProcessCreated(p, id, live);
            && Sound(q) && Settled(q) && WaitsAgain(q, {}) && q.store.Keys == p.store.Keys
            && UnderWay(p) + Waiting(p) + {id} <= UnderWay(q) + Waiting(q)
  {
    if !p.locked {
      StartTakeKeeps(p.(locked := true), id);
    }
  }

  /** With the lock released and no event left, the next order is under way or none waits. */
  lemma ProcessNextKeeps(p: Processor)
    requires Sound(p) && !p.locked && p.attempts == [] && p.events == []
    ensures var q := ProcessNextOrder(p);
            && Sound(q) && Settled(q) && WaitsAgain(q, {}) && q.store.Keys == p.store.Keys
            && Waiting(p) <= UnderWay(q) + Waiting(q)
  {
    var next := PickNext(p);
    if next.Some? {
      var id := next.value;
      assert id in Elems(p.priority) || id in Elems(p.queue);
      StartTakeKeeps(p.(priority := Without(p.priority, {id}), queue := Without(p.queue, {id}), locked := true), id);
    }
  }

  lemma WipeKeeps(p: Processor, ids: set<OrderId>, calls: seq<Call>)
    requires Sound(p) && p.attempts == []
    ensures var q := Wipe(p, ids, calls); Sound(q) && Waiting(q) == Waiting(p) - ids
  {
  }

  lemma ContinueKeeps(p: Processor)
    requires Sound(p) && !p.locked && p.attempts == []
    ensures var q := Continue(p);
            && Sound(q) && Settled(q) && WaitsAgain(q, {}) && q.store.Keys == p.store.Keys - Wiped(p.events)
            && Waiting(p) - Wiped(p.events) <= UnderWay(q) + Waiting(q)
  {
    ContinueDrains(p);
    WipeKeeps(p, Wiped(p.events), CallsOf(p.events));
    ProcessNextKeeps(Wipe(p, Wiped(p.events), CallsOf(p.events)).(events := []));
  }

  lemma DispatchKeeps(p: Processor, e: Context)
    requires Sound(p) && p.attempts == [] && !IsCreation(e.status)
    ensures var q := Dispatch(p, e);
            && Sound(q) && q.attempts == [] && q.locked == p.locked && q.events == p.events
            && Waiting(q) == Waiting(p) - Wiped([e]) && q.store.Keys == p.store.Keys - Wiped([e])
  {
    DispatchWipes(p, e);
    WipeKeeps(p, Wiped([e]), CallOf(e));
  }

  lemma FeedKeeps(w: World, ctx: Context)
    requires Inv(w)
    ensures Inv(Step(w, FeedSends(ctx)))
  {
    var p := w.p.(store := Register(w.p.store, ctx));
    assert UnderWay(p) == UnderWay(w.p);
    if IsCreation(ctx.status) {
      ProcessCreatedKeeps(p, ctx.id, ctx.status.Created?);
    } else if p.locked {
      assert UnderWay(HandleEvent(w.p, ctx)) == UnderWay(w.p);
    } else {
      DispatchKeeps(p, ctx);
      ContinueKeeps(Dispatch(p, ctx));
    }
  }

  lemma TimerKeeps(w: World, t: nat)
    requires Inv(w) && t in w.p.mempool.timers
    ensures Inv(Step(w, TimerFires(t)))
  {
    M.FireKeeps(w.p.mempool, t);
    var id := w.p.mempool.timers[t].id;
    var p := w.p.(mempool := M.Fire(w.p.mempool, t).0);
    assert UnderWay(p) == UnderWay(w.p);
    ProcessCreatedKeeps(p, id, p.store[id].live);
  }

  lemma SettleKeeps(p: Processor, a: Attempt, outcome: Outcome, delay: int)
    requires Sound(p) && a.id in p.store
    ensures var q := Settle(p, a, outcome, delay);
            && Sound(q) && q.store == p.store && q.events == p.events && q.attempts == p.attempts
            && Waiting(p) <= Waiting(q) + {a.id}
            && (a.id !in Waiting(q) ==> outcome.Rejected?)
  {
    var q := Settle(p, a, outcome, delay);
    assert UnderWay(q) == UnderWay(p);
    M.DeleteKeeps(p.mempool, a.id);
    if outcome.Taken? {
      M.AddOrderKeeps(M.Delete(p.mempool, a.id), a.id, delay);
      assert a.id in Waiting(q);
    } else if !outcome.Rejected? {
      M.AddOrderKeeps(p.mempool, a.id, PostponeDelay(a, if outcome.Failed? then None else outcome.delay));
      assert a.id in Waiting(q);
    }
  }

  lemma OneUnderWay(p: Processor, k: nat)
    requires Sound(p) && Settled(p) && k < |p.attempts|
    ensures |p.attempts| == 1 && k == 0 && p.locked
    ensures UnderWay(p) == {p.attempts[k].id} && p.attempts[k].id in p.store
  {
    assert p.attempts[k].id in UnderWay(p);
  }

  lemma TakeEndsKeeps(w: World, k: nat, outcome: Outcome, delay: int)
    requires Inv(w) && Enabled(w, TakeEnds(k, outcome, delay))
    ensures Inv(Step(w, TakeEnds(k, outcome, delay)))
  {
    OneUnderWay(w.p, k);
    SettleKeeps(w.p, w.p.attempts[k], outcome, delay);
    var q := EndTake(w.p, k, outcome, delay);
    assert q.attempts[0].id == w.p.attempts[0].id;
    assert UnderWay(q) == UnderWay(w.p);
  }

  /** The processor at the moment an attempt gives the lock back. */
  ghost function Released(p: Processor, k: nat): Processor
    requires k < |p.attempts|
  {
    p.(attempts := [], locked := false)
  }

  lemma ReleasedKeeps(p: Processor, k: nat)
    requires Sound(p) && Settled(p) && WaitsAgain(p, {}) && k < |p.attempts| && p.attempts[k].phase.Ended?
    ensures var q, a := Released(p, k), p.attempts[k];
            && Resume(p, k) == Continue(q)
            && UnderWay(p) == {a.id} && a.id in p.store
            && Sound(q) && Waiting(q) == Waiting(p)
            && (a.id !in Waiting(q) ==> a.phase.rejected)
  {
    OneUnderWay(p, k);
    assert p.attempts[..k] + p.attempts[k + 1..] == [];
    assert UnderWay(Released(p, k)) == {};
  }

  lemma ResumesKeeps(w: World, k: nat)
    requires Inv(w) && Enabled(w, Resumes(k))
    ensures Inv(Step(w, Resumes(k)))
  {
    ReleasedKeeps(w.p, k);
    ContinueKeeps(Released(w.p, k));
  }

  lemma StepInv(w: World, e: Event)
    requires Inv(w) && Enabled(w, e)
    ensures Inv(Step(w, e))
  {
    match e
    case FeedSends(ctx) => FeedKeeps(w, ctx);
    case TimerFires(t) => TimerKeeps(w, t);
    case TakeEnds(k, outcome, delay) => TakeEndsKeeps(w, k, outcome, delay);
    case Resumes(k) => ResumesKeeps(w, k);
  }

  lemma {:induction false} RunInv(w: World, es: seq<Event>)
    requires Inv(w) && Legal(w, es)
    ensures Inv(Run(w, es))
    decreases |es|
  {
    if es != [] {
      StepInv(w, es[0]);
      RunInv(Step(w, es[0]), es[1..]);
    }
  }

  /** Over every run: the assertion on the store never fails, at most one order is under way and
      exactly then the lock is held, a free processor has nothing queued, no order is lost, and
      each order has at most one live retry timer, which finds it when it fires. */
  lemma EveryRun(es: seq<Event>)
    requires Legal(INIT, es)
    ensures var w := Run(INIT, es);
            && !w.p.died
            && |w.p.attempts| <= 1 && (w.p.locked <==> w.p.attempts != [])
            && (!w.p.locked ==> w.p.priority == [] && w.p.queue == [] && w.p.events == [])
            && NoOrderLost(w)
            && M.OneTimerEach(w.p.mempool)
            && (forall t :: t in w.p.mempool.timers ==> M.Fire(w.p.mempool, t).1 == Some(w.p.mempool.timers[t].id))
  {
    assert UnderWay(EMPTY) == {};
    RunInv(INIT, es);
    var m := Run(INIT, es).p.mempool;
    forall t | t in m.timers
      ensures M.Fire(m, t).1 == Some(m.timers[t].id)
    {
      M.FireKeeps(m, t);
    }
  }

  // ---------------------------------------------------------------- whose turn it is

  /** The taker is called for an order whose attempt has just started, and told its finalization: an
      order first seen as archival counts as final, a live one is as the feed last said, with no
      confirmations if the feed said nothing. A live order that the feed has revoked is not taken. */
  ghost function TakenNow(p: Processor): seq<Call> {
    if p.attempts == [] || p.attempts[0].id !in p.store then []
    else
      var id, known := p.attempts[0].id, p.store[p.attempts[0].id];
      if !known.live then [Take(id, Finalized)]
      else
        match known.feed
        case IsRevoked => []
        case IsFinalized => [Take(id, Finalized)]
        case IsConfirmed(n) => [Take(id, Confirmations(n))]
        case IsSilent => [Take(id, Confirmations(0))]
  }

  lemma StartIsTaken(p: Processor, id: OrderId)
    requires p.attempts == [] && id in p.store
    ensures var q := StartTake(p, id); q.attempts != [] && UnderWay(q) == {id} && q.calls == p.calls + TakenNow(q)
  {
    var q := StartTake(p, id);
    assert q.attempts[0].id == id;
    assert UnderWay(q) == {id};
  }

  lemma NextIsTaken(p: Processor)
    requires Sound(p) && !p.locked && p.attempts == [] && p.events == []
    ensures var q := ProcessNextOrder(p);
            && UnderWay(q) == (if p.priority != [] then {p.priority[0]}
                               else if p.queue != [] then {p.queue[0]} else {})
            && q.calls == p.calls + TakenNow(q)
  {
    var next := PickNext(p);
    if next.Some? {
      var id := next.value;
      assert id in Elems(p.priority) || id in Elems(p.queue);
      StartIsTaken(p.(priority := Without(p.priority, {id}), queue := Without(p.queue, {id}), locked := true), id);
    }
  }

  /** With the lock released, the queued events take effect first, in order of arrival; what they
      wiped leaves the store and every queue; then the first live order is taken, or else the
      first archival one. Nothing else is called, and a revoked order is not taken. */
  lemma TurnOrder(p: Processor)
    requires Sound(p) && !p.locked && p.attempts == []
    ensures var gone, q := Wiped(p.events), Continue(p);
            var live, archival := Without(p.priority, gone), Without(p.queue, gone);
            && q.store.Keys == p.store.Keys - gone
            && UnderWay(q) == (if live != [] then {live[0]} else if archival != [] then {archival[0]} else {})
            && q.calls == p.calls + CallsOf(p.events) + TakenNow(q)
  {
    ContinueDrains(p);
    ContinueKeeps(p);
    WipeKeeps(p, Wiped(p.events), CallsOf(p.events));
    NextIsTaken(Wipe(p, Wiped(p.events), CallsOf(p.events)).(events := []));
  }

  // ---------------------------------------------------------------- terminal events are final

  /** Nothing is known of the order, or a terminal event for it waits under the lock. */
  ghost predicate Dead(p: Processor, id: OrderId) {
    id !in p.store || (p.locked && id in Wiped(p.events))
  }

  ghost predicate Recreates(e: Event, id: OrderId) {
    e.FeedSends? && e.ctx.id == id && IsCreation(e.ctx.status)
  }

  /** The calls made by a step, if they contain no take of the order. */
  ghost predicate NoTake(before: seq<Call>, after: seq<Call>, id: OrderId) {
    before <= after && forall c :: c in after[|before|..] ==> !(c.Take? && c.id == id)
  }

  lemma NoTakeTwice(a: seq<Call>, b: seq<Call>, c: seq<Call>, id: OrderId)
    requires NoTake(a, b, id) && NoTake(b, c, id)
    ensures NoTake(a, c, id)
  {
  }

  lemma {:induction false} CallsOfNeverTake(events: seq<Context>, id: OrderId)
    ensures forall c :: c in CallsOf(events) ==> !(c.Take? && c.id == id)
  {
    if events != [] {
      CallsOfNeverTake(events[1..], id);
    }
  }

  lemma {:induction false} WipedLast(events: seq<Context>, e: Context)
    ensures Wiped(events + [e]) == Wiped(events) + Wiped([e])
  {
    if events == [] {
      assert events + [e] == [e];
    } else {
      assert (events + [e])[1..] == events[1..] + [e];
      WipedLast(events[1..], e);
    }
  }

  lemma StartTakesOnly(p: Processor, x: OrderId, id: OrderId)
    requires x in p.store && x != id
    ensures NoTake(p.calls, StartTake(p, x).calls, id)
  {
  }

  lemma ContinueWithoutDead(p: Processor, id: OrderId)
    requires Sound(p) && !p.locked && p.attempts == []
    requires id !in p.store || id in Wiped(p.events)
    ensures var q := Continue(p); id !in q.store && NoTake(p.calls, q.calls, id)
  {
    ContinueKeeps(p);
    ContinueDrains(p);
    CallsOfNeverTake(p.events, id);
    var r := Wipe(p, Wiped(p.events), CallsOf(p.events)).(events := []);
    WipeKeeps(p, Wiped(p.events), CallsOf(p.events));
    assert NoTake(p.calls, r.calls, id);
    var next := PickNext(r);
    if next.Some? {
      assert next.value in Elems(r.priority) || next.value in Elems(r.queue);
      StartTakesOnly(r.(priority := Without(r.priority, {next.value}), queue := Without(r.queue, {next.value}),
                        locked := true), next.value, id);
      NoTakeTwice(p.calls, r.calls, Continue(p).calls, id);
    }
  }

  lemma FeedWithoutDead(p: Processor, ctx: Context, id: OrderId)
    requires Sound(p) && Settled(p) && Dead(p, id) && !(ctx.id == id && IsCreation(ctx.status))
    ensures var q := HandleEvent(p, ctx); Dead(q, id) && NoTake(p.calls, q.calls, id)
  {
    var r := p.(store := Register(p.store, ctx));
    assert UnderWay(r) == UnderWay(p);
    if IsCreation(ctx.status) {
      if !p.locked {
        StartTakesOnly(r.(locked := true), ctx.id, id);
      }
    } else if p.locked {
      WipedLast(p.events, ctx);
    } else {
      DispatchKeeps(r, ctx);
      DispatchWipes(r, ctx);
      CallsOfNeverTake([ctx], id);
      assert CallsOf([ctx]) == CallOf(ctx);
      var d := Dispatch(r, ctx);
      assert NoTake(p.calls, d.calls, id);
      ContinueWithoutDead(d, id);
      NoTakeTwice(p.calls, d.calls, Continue(d).calls, id);
    }
  }

  lemma TimerWithoutDead(p: Processor, t: nat, id: OrderId)
    requires Sound(p) && Settled(p) && Dead(p, id) && t in p.mempool.timers
    ensures var q := OnTimeout(p, t); Dead(q, id) && NoTake(p.calls, q.calls, id)
  {
  }

  lemma StepWithoutDead(w: World, e: Event, id: OrderId)
    requires Inv(w) && Enabled(w, e) && Dead(w.p, id) && !Recreates(e, id)
    ensures var q := Step(w, e).p; Dead(q, id) && NoTake(w.p.calls, q.calls, id)
  {
    match e
    case FeedSends(ctx) => FeedWithoutDead(w.p, ctx, id);
    case TimerFires(t) => TimerWithoutDead(w.p, t, id);
    case TakeEnds(k, outcome, delay) => OneUnderWay(w.p, k);
    case Resumes(k) =>
      ReleasedKeeps(w.p, k);
      ContinueWithoutDead(Released(w.p, k), id);
  }

  /** A terminal event makes its order dead at once, even while the processor is busy. */
  lemma TerminalKills(w: World, ctx: Context)
    requires Inv(w) && IsTerminal(ctx.status)
    ensures Dead(Step(w, FeedSends(ctx)).p, ctx.id)
  {
    if w.p.locked {
      WipedLast(w.p.events, ctx);
    } else {
      DispatchKeeps(w.p, ctx);
      ContinueKeeps(Dispatch(w.p, ctx));
    }
  }

  /** Along every continuation in which the feed does not announce it again, an order that saw a
      terminal event is never taken. */
  lemma {:induction false} TerminalIsFinal(w: World, es: seq<Event>, id: OrderId)
    requires Inv(w) && Legal(w, es) && Dead(w.p, id)
    requires forall i :: 0 <= i < |es| ==> !Recreates(es[i], id)
    ensures Dead(Run(w, es).p, id) && NoTake(w.p.calls, Run(w, es).p.calls, id)
    decreases |es|
  {
    if es != [] {
      var v := Step(w, es[0]);
      assert Run(w, es[..1]) == v by {
        assert es[..1] == [es[0]];
        assert Run(v, []) == v;
      }
      RunInv(w, es[..1]);
      StepWithoutDead(w, es[0], id);
      TerminalIsFinal(v, es[1..], id);
      NoTakeTwice(w.p.calls, v.p.calls, Run(w, es).p.calls, id);
    }
  }

  // ---------------------------------------------------------------- under the lock

  ghost predicate WhileBusy(es: seq<Event>) {
    forall i :: 0 <= i < |es| ==> !es[i].Resumes?
  }

  /** The order being taken, if it is taken for good, leaves the set of live orders. */
  ghost predicate Takes(es: seq<Event>) {
    exists i :: 0 <= i < |es| && es[i].TakeEnds? && es[i].outcome.Taken?
  }

  /** The order has a place among the live orders, behind none but those of `first`. */
  ghost predicate Placed(first: seq<OrderId>, p: Processor, id: OrderId) {
    exists kept :: kept <= p.priority && id in kept && Elems(kept) <= Elems(first)
  }

  /** The end of a take drops the order that was taken from the queues, and no other. */
  lemma SettleKeepsPlace(p: Processor, a: Attempt, outcome: Outcome, delay: int, first: seq<OrderId>, id: OrderId)
    requires Placed(first, p, id) && (outcome.Taken? ==> id != a.id)
    ensures Placed(first, Settle(p, a, outcome, delay), id)
  {
    var kept :| kept <= p.priority && id in kept && Elems(kept) <= Elems(first);
    if outcome.Taken? {
      var rest := p.priority[|kept|..];
      assert p.priority == kept + rest;
      WithoutConcat(kept, rest, {a.id});
      assert id in Elems(kept) - {a.id};
      assert id in Elems(Without(kept, {a.id}));
      assert Without(kept, {a.id}) <= Settle(p, a, outcome, delay).priority;
    } else {
      assert kept <= Settle(p, a, outcome, delay).priority;
    }
  }

  lemma BusyStep(w: World, e: Event)
    requires Inv(w) && w.p.locked && Enabled(w, e) && !e.Resumes?
    ensures var v := Step(w, e);
            && v.p.locked && |v.p.attempts| == |w.p.attempts| == 1 && v.p.attempts[0].id == w.p.attempts[0].id
            && w.p.events <= v.p.events && w.p.store.Keys <= v.p.store.Keys
            && (!e.TakeEnds? ==> w.p.priority <= v.p.priority)
  {
    if e.TimerFires? {
      M.FireKeeps(w.p.mempool, e.t);
      assert w.p.mempool.timers[e.t].id in Waiting(w.p);
    }
  }

  lemma BusyStepKeepsPlace(w: World, e: Event, first: seq<OrderId>, id: OrderId)
    requires Inv(w) && w.p.locked && Enabled(w, e) && !e.Resumes? && Placed(first, w.p, id)
    requires e.TakeEnds? && e.outcome.Taken? ==> id != w.p.attempts[0].id
    ensures Placed(first, Step(w, e).p, id)
  {
    BusyStep(w, e);
    if e.TakeEnds? {
      SettleKeepsPlace(w.p, w.p.attempts[e.k], e.outcome, e.fulfillCheckDelay, first, id);
    } else {
      var kept :| kept <= w.p.priority && id in kept && Elems(kept) <= Elems(first);
      assert kept <= Step(w, e).p.priority;
    }
  }

  /** Until the processor resumes, the lock is held over the same order, events only queue up, and no
      order is forgotten. */
  lemma {:induction false} BusyHolds(w: World, es: seq<Event>)
    requires Inv(w) && w.p.locked && Legal(w, es) && WhileBusy(es)
    ensures var v := Run(w, es);
            && Inv(v) && v.p.locked && |v.p.attempts| == |w.p.attempts| == 1
            && v.p.attempts[0].id == w.p.attempts[0].id && w.p.events <= v.p.events
            && w.p.store.Keys <= v.p.store.Keys
    decreases |es|
  {
    if es != [] {
      StepInv(w, es[0]);
      BusyStep(w, es[0]);
      BusyHolds(Step(w, es[0]), es[1..]);
    }
  }

  lemma TakesLater(es: seq<Event>)
    requires es != [] && Takes(es[1..])
    ensures Takes(es)
  {
    var i :| 0 <= i < |es[1..]| && es[1..][i].TakeEnds? && es[1..][i].outcome.Taken?;
    assert es[i + 1].TakeEnds? && es[i + 1].outcome.Taken?;
  }

  /** Meanwhile each live order keeps its place, unless it is the order being taken. */
  lemma {:induction false} BusyKeepsPlace(w: World, es: seq<Event>, first: seq<OrderId>, id: OrderId)
    requires Inv(w) && |w.p.attempts| == 1 && Legal(w, es) && WhileBusy(es)
    requires Placed(first, w.p, id) && (Takes(es) ==> id != w.p.attempts[0].id)
    ensures Placed(first, Run(w, es).p, id)
    decreases |es|
  {
    if es != [] {
      StepInv(w, es[0]);
      BusyStep(w, es[0]);
      BusyStepKeepsPlace(w, es[0], first, id);
      if Takes(es[1..]) {
        TakesLater(es);
      }
      BusyKeepsPlace(Step(w, es[0]), es[1..], first, id);
    }
  }

  lemma {:induction false} WipedPrefix(events: seq<Context>, more: seq<Context>)
    requires events <= more
    ensures Wiped(events) <= Wiped(more)
  {
    if events != [] {
      WipedPrefix(events[1..], more[1..]);
    }
  }

  /** An order announced while the processor is busy is gone at the release exactly if a terminal event
      of it is queued by then, even one that came before the announcement. */
  lemma AnnouncedIsWipedIff(w: World, ctx: Context, es: seq<Event>, k: nat)
    requires Inv(w) && w.p.locked && IsCreation(ctx.status)
    requires var u := Step(w, FeedSends(ctx));
             Legal(u, es) && WhileBusy(es) && Enabled(Run(u, es), Resumes(k))
    ensures var u := Step(w, FeedSends(ctx));
            var p := Run(u, es).p;
            && ctx.id in u.p.store && ctx.id in Waiting(u.p)
            && (ctx.id !in Step(Run(u, es), Resumes(k)).p.store <==> ctx.id in Wiped(p.events))
            && Wiped(w.p.events) <= Wiped(p.events)
  {
    FeedKeeps(w, ctx);
    var u := Step(w, FeedSends(ctx));
    BusyHolds(u, es);
    var p := Run(u, es).p;
    WipedPrefix(w.p.events, p.events);
    ReleasedKeeps(p, k);
    TurnOrder(Released(p, k));
  }

  // ---------------------------------------------------------------- live orders go first

  lemma {:induction false} FirstLeft(s: seq<OrderId>, more: seq<OrderId>, gone: set<OrderId>, id: OrderId)
    requires id in s && id !in gone
    ensures Without(s + more, gone) != [] && Without(s + more, gone)[0] in s
  {
    WithoutConcat(s, more, gone);
    assert id in Elems(Without(s, gone));
    assert Without(s, gone)[0] in Elems(Without(s, gone));
  }

  lemma FirstAtRelease(p: Processor, first: seq<OrderId>, id: OrderId)
    requires Sound(p) && !p.locked && p.attempts == [] && Placed(first, p, id) && id !in Wiped(p.events)
    ensures exists x :: x in first && UnderWay(Continue(p)) == {x}
  {
    var gone := Wiped(p.events);
    var kept :| kept <= p.priority && id in kept && Elems(kept) <= Elems(first);
    assert p.priority == kept + p.priority[|kept|..];
    FirstLeft(kept, p.priority[|kept|..], gone, id);
    TurnOrder(p);
    var x := Without(p.priority, gone)[0];
    assert x in Elems(kept);
    assert x in first && UnderWay(Continue(p)) == {x};
  }

  lemma FirstAfterRelease(p: Processor, k: nat, first: seq<OrderId>, id: OrderId)
    requires Sound(p) && Settled(p) && WaitsAgain(p, {}) && k < |p.attempts| && p.attempts[k].phase.Ended?
    requires Placed(first, p, id) && id !in Wiped(p.events)
    ensures exists x :: x in first && UnderWay(Resume(p, k)) == {x}
  {
    ReleasedKeeps(p, k);
    assert Released(p, k).priority == p.priority;
    assert Placed(first, Released(p, k), id);
    FirstAtRelease(Released(p, k), first, id);
  }

  /** A live order announced while the processor is busy is overtaken only by live orders that
      waited before it: the next attempt is at it or at one of them, whatever else comes in
      meanwhile, unless a terminal event wipes it or it is the very order being taken. */
  lemma LiveGoesFirst(w: World, ctx: Context, es: seq<Event>, k: nat)
    requires Inv(w) && w.p.locked && ctx.status.Created?
    requires var u := Step(w, FeedSends(ctx));
             && Legal(u, es) && WhileBusy(es) && Enabled(Run(u, es), Resumes(k))
             && ctx.id !in Wiped(Run(u, es).p.events)
             && (Takes(es) ==> ctx.id != w.p.attempts[0].id)
    ensures exists x :: x in Include(w.p.priority, ctx.id)
                        && UnderWay(Step(Run(Step(w, FeedSends(ctx)), es), Resumes(k)).p) == {x}
  {
    FeedKeeps(w, ctx);
    var u := Step(w, FeedSends(ctx));
    var first := u.p.priority;
    assert first == Include(w.p.priority, ctx.id);
    assert first <= u.p.priority && ctx.id in first;
    assert Placed(first, u.p, ctx.id);
    BusyHolds(u, es);
    BusyKeepsPlace(u, es, first, ctx.id);
    FirstAfterRelease(Run(u, es).p, k, first, ctx.id);
  }

  // ---------------------------------------------------------------- what is known of an order

  /** A step starts a new attempt at the order. */
  ghost predicate Starts(w: World, e: Event, id: OrderId)
    requires Enabled(w, e)
  {
    id in UnderWay(Step(w, e).p) && (e.Resumes? || id !in UnderWay(w.p))
  }

  /** Each attempt under way carries the order's current number of attempts. */
  ghost predicate Numbered(p: Processor) {
    forall i :: 0 <= i < |p.attempts| ==>
      var a := p.attempts[i];
      a.id in p.store && a.number == p.store[a.id].attempts && a.live == p.store[a.id].live
  }

  /** The order's record after an attempt at `under` has started, if any has. */
  ghost function Counted(was: Metadata, id: OrderId, under: set<OrderId>): Metadata {
    was.(attempts := was.attempts + if id in under then 1 else 0)
  }

  lemma StartCounts(p: Processor, x: OrderId, id: OrderId)
    requires Sound(p) && p.locked && p.attempts == [] && x in p.store && id in p.store
    ensures var q := StartTake(p, x); id in q.store && q.store[id] == Counted(p.store[id], id, UnderWay(q))
  {
    StartTakeKeeps(p, x);
  }

  lemma NextCounts(p: Processor, id: OrderId)
    requires Sound(p) && !p.locked && p.attempts == [] && id in p.store
    ensures var q := ProcessNextOrder(p); id in q.store && q.store[id] == Counted(p.store[id], id, UnderWay(q))
  {
    var next := PickNext(p);
    if next.Some? {
      var x := next.value;
      assert x in Elems(p.priority) || x in Elems(p.queue);
      StartCounts(p.(priority := Without(p.priority, {x}), queue := Without(p.queue, {x}), locked := true), x, id);
    }
  }

  lemma ContinueCounts(p: Processor, id: OrderId)
    requires Sound(p) && !p.locked && p.attempts == []
    requires id in p.store && id in Continue(p).store
    ensures var q := Continue(p); q.store[id] == Counted(p.store[id], id, UnderWay(q))
  {
    ContinueKeeps(p);
    ContinueDrains(p);
    WipeKeeps(p, Wiped(p.events), CallsOf(p.events));
    NextCounts(Wipe(p, Wiped(p.events), CallsOf(p.events)).(events := []), id);
  }

  lemma CreationCounts(p: Processor, x: OrderId, live: bool, id: OrderId)
    requires Sound(p) && Settled(p) && x in p.store && id in p.store
    ensures var q := ProcessCreated(p, x, live);
            id in q.store && q.store[id] == Counted(p.store[id], id, UnderWay(q) - UnderWay(p))
  {
    if !p.locked {
      StartCounts(p.(locked := true), x, id);
      assert UnderWay(p) == {};
    }
  }

  lemma FeedCounts(p: Processor, ctx: Context, id: OrderId)
    requires Sound(p) && Settled(p) && id in p.store && id in HandleEvent(p, ctx).store
    ensures var q := HandleEvent(p, ctx);
            q.store[id] == Counted(Register(p.store, ctx)[id], id, UnderWay(q) - UnderWay(p))
  {
    var r := p.(store := Register(p.store, ctx));
    assert UnderWay(r) == UnderWay(p);
    if IsCreation(ctx.status) {
      CreationCounts(r, ctx.id, ctx.status.Created?, id);
    } else if !p.locked {
      DispatchKeeps(r, ctx);
      DispatchWipes(r, ctx);
      ContinueKeeps(Dispatch(r, ctx));
      ContinueCounts(Dispatch(r, ctx), id);
      assert UnderWay(p) == {};
    }
  }

  lemma TimerCounts(p: Processor, t: nat, id: OrderId)
    requires Sound(p) && Settled(p) && t in p.mempool.timers && id in p.store
    ensures var q := OnTimeout(p, t);
            id in q.store && q.store[id] == Counted(p.store[id], id, UnderWay(q) - UnderWay(p))
  {
    M.FireKeeps(p.mempool, t);
    var x := p.mempool.timers[t].id;
    assert x in Waiting(p);
    var r := p.(mempool := M.Fire(p.mempool, t).0);
    assert UnderWay(r) == UnderWay(p);
    CreationCounts(r, x, p.store[x].live, id);
  }

  /** What becomes of what is known of an order. */
  ghost predicate Evolves(w: World, e: Event, id: OrderId)
    requires Enabled(w, e) && id in w.p.store && id in Step(w, e).p.store
  {
    var was, now := w.p.store[id], Step(w, e).p.store[id];
    && now.live == was.live
    && now.feed == (if Recreates(e, id) && e.ctx.status.Created? then e.ctx.feed else was.feed)
    && now.attempts == was.attempts + if Starts(w, e, id) then 1 else 0
  }

  lemma FeedEvolves(w: World, ctx: Context, id: OrderId)
    requires Inv(w) && id in w.p.store && id in Step(w, FeedSends(ctx)).p.store
    ensures Evolves(w, FeedSends(ctx), id)
  {
    FeedCounts(w.p, ctx, id);
  }

  lemma ReleaseEvolves(w: World, k: nat, id: OrderId)
    requires Inv(w) && Enabled(w, Resumes(k)) && id in w.p.store && id in Step(w, Resumes(k)).p.store
    ensures Evolves(w, Resumes(k), id)
  {
    ReleasedKeeps(w.p, k);
    ContinueCounts(Released(w.p, k), id);
  }

  /** What is known of an order changes in two ways only: a live creation event brings its
      finalization up to date, and each attempt that starts counts as one. Whether the order
      counts as live is settled when it is first seen. */
  lemma StoreEvolves(w: World, e: Event, id: OrderId)
    requires Inv(w) && Enabled(w, e) && id in w.p.store && id in Step(w, e).p.store
    ensures Evolves(w, e, id)
  {
    match e
    case FeedSends(ctx) => FeedEvolves(w, ctx, id);
    case TimerFires(t) => TimerCounts(w.p, t, id);
    case TakeEnds(k, _, _) => OneUnderWay(w.p, k);
    case Resumes(k) => ReleaseEvolves(w, k, id);
  }

  lemma NextNumbered(p: Processor)
    requires Sound(p) && !p.locked && p.attempts == []
    ensures Numbered(ProcessNextOrder(p))
  {
  }

  lemma ContinueNumbered(p: Processor)
    requires Sound(p) && !p.locked && p.attempts == []
    ensures Numbered(Continue(p))
  {
    ContinueDrains(p);
    WipeKeeps(p, Wiped(p.events), CallsOf(p.events));
    NextNumbered(Wipe(p, Wiped(p.events), CallsOf(p.events)).(events := []));
  }

  lemma FeedNumbered(p: Processor, ctx: Context)
    requires Sound(p) && Settled(p) && Numbered(p)
    ensures Numbered(HandleEvent(p, ctx))
  {
    var r := p.(store := Register(p.store, ctx));
    if !IsCreation(ctx.status) && !p.locked {
      DispatchKeeps(r, ctx);
      ContinueNumbered(Dispatch(r, ctx));
    }
  }

  lemma StepNumbered(w: World, e: Event)
    requires Inv(w) && Enabled(w, e) && Numbered(w.p)
    ensures Numbered(Step(w, e).p)
  {
    match e
    case FeedSends(ctx) => FeedNumbered(w.p, ctx);
    case TimerFires(t) =>
      M.FireKeeps(w.p.mempool, t);
      assert w.p.mempool.timers[t].id in Waiting(w.p);
    case TakeEnds(k, _, _) => OneUnderWay(w.p, k);
    case Resumes(k) =>
      ReleasedKeeps(w.p, k);
      ContinueNumbered(Released(w.p, k));
  }

  lemma {:induction false} RunNumbered(w: World, es: seq<Event>)
    requires Inv(w) && Legal(w, es) && Numbered(w.p)
    ensures Numbered(Run(w, es).p)
    decreases |es|
  {
    if es != [] {
      StepInv(w, es[0]);
      StepNumbered(w, es[0]);
      RunNumbered(Step(w, es[0]), es[1..]);
    }
  }

  // ---------------------------------------------------------------- when the retry comes

  /** The wait asked for once an attempt that was not revoked has ended other than in a rejection. */
  ghost function RetryDelay(known: Metadata, outcome: Outcome, fulfillCheckDelay: int): int {
    match outcome
    case Taken => fulfillCheckDelay
    case Postponed(Some(delay)) => if delay != 0 then delay else 1000 * M.Delay(known.live, known.attempts)
    case _ => 1000 * M.Delay(known.live, known.attempts)
  }

  ghost predicate RetriesIn(m: M.Mempool, id: OrderId, delay: int) {
    && id in m.tracked && m.tracked[id] in m.timers
    && m.timers[m.tracked[id]] == M.Timer(id, delay)
  }

  lemma NextLeavesTimer(p: Processor, id: OrderId, delay: int)
    requires Sound(p) && RetriesIn(p.mempool, id, delay)
    requires id !in UnderWay(ProcessNextOrder(p)) && !p.locked && p.attempts == []
    ensures RetriesIn(ProcessNextOrder(p).mempool, id, delay)
  {
    var next := PickNext(p);
    if next.Some? {
      var x := next.value;
      assert x in Elems(p.priority) || x in Elems(p.queue);
      var q := p.(priority := Without(p.priority, {x}), queue := Without(p.queue, {x}), locked := true);
      StartTakeKeeps(q, x);
    }
  }

  lemma ContinueLeavesTimer(p: Processor, id: OrderId, delay: int)
    requires Sound(p) && RetriesIn(p.mempool, id, delay) && !p.locked && p.attempts == []
    requires id in Continue(p).store && id !in UnderWay(Continue(p))
    ensures RetriesIn(Continue(p).mempool, id, delay)
  {
    ContinueKeeps(p);
    ContinueDrains(p);
    WipeKeeps(p, Wiped(p.events), CallsOf(p.events));
    NextLeavesTimer(Wipe(p, Wiped(p.events), CallsOf(p.events)).(events := []), id, delay);
  }

  lemma SettleSetsTimer(p: Processor, k: nat, outcome: Outcome, delay: int)
    requires Sound(p) && Settled(p) && Numbered(p) && k < |p.attempts| && p.attempts[k].phase.Taking?
    requires !outcome.Rejected?
    ensures var id := p.attempts[k].id;
            id in p.store && RetriesIn(EndTake(p, k, outcome, delay).mempool, id, RetryDelay(p.store[id], outcome, delay))
  {
  }

  /** Over every run: when an attempt ends without being rejected, its order waits behind a timer
      set for just the back-off of its count of attempts, or the wait its outcome asks for. */
  lemma EveryRetryBacksOff(es: seq<Event>, k: nat, outcome: Outcome, delay: int)
    requires Legal(INIT, es) && Enabled(Run(INIT, es), TakeEnds(k, outcome, delay)) && !outcome.Rejected?
    ensures var w := Run(INIT, es);
            var id := w.p.attempts[k].id;
            && id in w.p.store
            && RetriesIn(Step(w, TakeEnds(k, outcome, delay)).p.mempool, id, RetryDelay(w.p.store[id], outcome, delay))
  {
    assert UnderWay(EMPTY) == {};
    RunInv(INIT, es);
    RunNumbered(INIT, es);
    SettleSetsTimer(Run(INIT, es).p, k, outcome, delay);
  }

  /** The timer stays set when the processor resumes, unless a terminal event wipes the order or it
      came again and is its turn at once. */
  lemma ResumingKeepsTimer(w: World, k: nat, id: OrderId, delay: int)
    requires Inv(w) && Enabled(w, Resumes(k)) && RetriesIn(w.p.mempool, id, delay)
    requires var p := Step(w, Resumes(k)).p; id in p.store && id !in UnderWay(p)
    ensures RetriesIn(Step(w, Resumes(k)).p.mempool, id, delay)
  {
    ReleasedKeeps(w.p, k);
    ContinueLeavesTimer(Released(w.p, k), id, delay);
  }
}
