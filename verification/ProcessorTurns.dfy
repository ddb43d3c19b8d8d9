/** What single steps of the order processor come to, told without its own functions: where events,
    announcements and retries go, what the end of a take leaves behind, and that live orders come
    before archival ones. */
module ProcessorTurns {
  import opened Common
  import opened ProcessorModel
  import opened ProcessorRuns
  import M = MempoolModel

  ghost predicate Announces(s: Status) {
    s.Created? || s.ArchivalCreated?
  }

  ghost predicate Ends(s: Status) {
    s.Cancelled? || s.Fulfilled? || s.UnlockSent? || s.UnlockClaim?
  }

  ghost predicate IsRevokedNow(known: Metadata) {
    known.live && known.feed.IsRevoked?
  }

  // ---------------------------------------------------------------- what the feed says

  /** What becomes of the record of an order that the feed announces. */
  ghost function Filed(store: map<OrderId, Metadata>, ctx: Context): Metadata {
    if ctx.id !in store then Metadata(0, ctx.status.Created?, ctx.feed)
    else if ctx.status.Created? then store[ctx.id].(feed := ctx.feed)
    else store[ctx.id]
  }

  /** An announcement to a free processor starts an attempt at its order at once. */
  lemma FreeTakesAnnounced(w: World, ctx: Context)
    requires Inv(w) && !w.p.locked && Announces(ctx.status)
    ensures var v, known := Step(w, FeedSends(ctx)).p, Filed(w.p.store, ctx);
            && v.locked && UnderWay(v) == {ctx.id} && v.calls == w.p.calls + TakenNow(v)
            && v.store == w.p.store[ctx.id := known.(attempts := known.attempts + 1)]
            && v.priority == [] && v.queue == [] && v.events == []
  {
    StartIsTaken(w.p.(store := w.p.store[ctx.id := Filed(w.p.store, ctx)], locked := true), ctx.id);
  }

  /** An announcement under the lock is filed and parked: live ones apart from archival ones. */
  lemma BusyParksAnnounced(w: World, ctx: Context)
    requires w.p.locked && Announces(ctx.status)
    ensures var v := Step(w, FeedSends(ctx)).p;
            && v.store == w.p.store[ctx.id := Filed(w.p.store, ctx)]
            && v.priority == (if ctx.status.Created? then Include(w.p.priority, ctx.id) else w.p.priority)
            && v.queue == (if ctx.status.Created? then w.p.queue else Include(w.p.queue, ctx.id))
            && v == w.p.(store := v.store, priority := v.priority, queue := v.queue)
  {
  }

  /** What the batch unlocker is asked to do about an event. */
  ghost function Asked(ctx: Context): seq<Call> {
    match ctx.status
    case Fulfilled | ArchivalFulfilled => [Unlock(ctx.id)]
    case UnlockSent | UnlockClaim => [DropUnlock(ctx.id)]
    case _ => []
  }

  /** Any other event takes effect at once if the processor is free, and leaves it free. */
  lemma FreeActsOnEvent(w: World, ctx: Context)
    requires Inv(w) && !w.p.locked && !Announces(ctx.status)
    ensures var v := Step(w, FeedSends(ctx)).p;
            && !v.locked && v.attempts == [] && v.calls == w.p.calls + Asked(ctx)
            && v.store == (if Ends(ctx.status) then w.p.store - {ctx.id} else w.p.store)
            && (Ends(ctx.status) ==> ctx.id !in Waiting(v))
            && (forall id, d {:trigger RetriesIn(v.mempool, id, d)} :: !Ends(ctx.status) || id != ctx.id ==>
                  (RetriesIn(v.mempool, id, d) <==> RetriesIn(w.p.mempool, id, d)))
  {
    DispatchWipes(w.p, ctx);
    DispatchKeeps(w.p, ctx);
    ContinueDrains(Dispatch(w.p, ctx));
    var d := Dispatch(w.p, ctx);
    assert d.priority == [] && d.queue == [];
    WipeNothing(d, []);
    assert d.calls + [] == d.calls;
    assert CallOf(ctx) == Asked(ctx);
    assert w.p.store - {} == w.p.store;
  }

  /** Under the lock it waits at the end of the event queue, and nothing else changes. */
  lemma BusyQueuesEvent(w: World, ctx: Context)
    requires w.p.locked && !Announces(ctx.status)
    ensures Step(w, FeedSends(ctx)).p == w.p.(events := w.p.events + [ctx])
  {
  }

  /** Just the terminal events in a queue wipe their orders. */
  lemma {:induction false} WipedIff(events: seq<Context>, id: OrderId)
    ensures id in Wiped(events) <==> exists i :: 0 <= i < |events| && events[i].id == id && Ends(events[i].status)
  {
    if events != [] {
      WipedIff(events[1..], id);
      assert forall i :: 0 < i < |events| ==> events[i] == events[1..][i - 1];
      if id in Wiped(events[1..]) {
        var i :| 0 <= i < |events[1..]| && events[1..][i].id == id && Ends(events[1..][i].status);
        assert events[i + 1].id == id && Ends(events[i + 1].status);
      }
    }
  }

  // ---------------------------------------------------------------- retries and ends of takes

  /** A retry of a free processor starts an attempt at once; under the lock it is parked by what the
      order counts as. */
  lemma RetryTurns(w: World, t: nat)
    requires Inv(w) && t in w.p.mempool.timers
    ensures var v, id := Step(w, TimerFires(t)).p, w.p.mempool.timers[t].id;
            && id in w.p.store && id !in v.mempool.tracked
            && (!w.p.locked ==> UnderWay(v) == {id} && v.calls == w.p.calls + TakenNow(v))
            && (w.p.locked ==>
                  && v.priority == (if w.p.store[id].live then Include(w.p.priority, id) else w.p.priority)
                  && v.queue == (if w.p.store[id].live then w.p.queue else Include(w.p.queue, id))
                  && v == w.p.(mempool := v.mempool, priority := v.priority, queue := v.queue))
  {
    M.FireKeeps(w.p.mempool, t);
    var id := w.p.mempool.timers[t].id;
    assert id in Waiting(w.p);
    if !w.p.locked {
      StartIsTaken(w.p.(mempool := M.Fire(w.p.mempool, t).0, locked := true), id);
    }
  }

  /** The end of a take. An order taken leaves both sets and waits for its check; one rejected waits for
      nothing new; any other waits for its retry. The lock stays held, and nothing else changes. */
  lemma TakeEndTurns(w: World, k: nat, outcome: Outcome, delay: int)
    requires Inv(w) && Numbered(w.p) && Enabled(w, TakeEnds(k, outcome, delay))
    ensures var v, a := Step(w, TakeEnds(k, outcome, delay)).p, w.p.attempts[k];
            && a.id in w.p.store
            && v == w.p.(priority := v.priority, queue := v.queue, mempool := v.mempool, attempts := v.attempts)
            && v.attempts == [a.(phase := Ended(outcome.Rejected?))]
            && v.priority == (if outcome.Taken? then Without(w.p.priority, {a.id}) else w.p.priority)
            && v.queue == (if outcome.Taken? then Without(w.p.queue, {a.id}) else w.p.queue)
            && (outcome.Taken? ==> a.id !in v.priority && a.id !in v.queue)
            && (if outcome.Rejected? then v.mempool == w.p.mempool
                else RetriesIn(v.mempool, a.id, RetryDelay(w.p.store[a.id], outcome, delay)))
  {
    OneUnderWay(w.p, k);
    var a, v := w.p.attempts[k], Step(w, TakeEnds(k, outcome, delay)).p;
    if outcome.Taken? {
      assert a.id !in Elems(v.priority) && a.id !in Elems(v.queue);
    }
  }

  /** The retries of other orders do not move. */
  lemma TakeEndLeavesOthers(w: World, k: nat, outcome: Outcome, delay: int, id: OrderId, d: int)
    requires Inv(w) && Enabled(w, TakeEnds(k, outcome, delay)) && id != w.p.attempts[k].id
    ensures RetriesIn(Step(w, TakeEnds(k, outcome, delay)).p.mempool, id, d) <==> RetriesIn(w.p.mempool, id, d)
  {
  }

  // ---------------------------------------------------------------- revoked orders

  lemma RevokedStart(p: Processor, id: OrderId)
    requires Sound(p) && p.attempts == [] && id in p.store && IsRevokedNow(p.store[id])
    ensures var q := StartTake(p, id); id !in Waiting(q) && q.attempts != [] && q.attempts[0].phase == Ended(true)
  {
  }

  lemma RevokedNext(p: Processor, id: OrderId)
    requires Sound(p) && !p.locked && p.attempts == [] && id in p.store && IsRevokedNow(p.store[id])
    requires id in UnderWay(ProcessNextOrder(p))
    ensures var q := ProcessNextOrder(p); id !in Waiting(q) && q.attempts != [] && q.attempts[0].phase == Ended(true)
  {
    var x := PickNext(p).value;
    assert x in Elems(p.priority) || x in Elems(p.queue);
    var q := p.(priority := Without(p.priority, {x}), queue := Without(p.queue, {x}), locked := true);
    StartTakeKeeps(q, x);
    RevokedStart(q, x);
  }

  lemma RevokedTurn(p: Processor, id: OrderId)
    requires Sound(p) && !p.locked && p.attempts == [] && id in Continue(p).store && id in UnderWay(Continue(p))
    requires id in p.store && IsRevokedNow(p.store[id])
    ensures var q := Continue(p); id !in Waiting(q) && q.attempts != [] && q.attempts[0].phase == Ended(true)
  {
    ContinueKeeps(p);
    ContinueDrains(p);
    WipeKeeps(p, Wiped(p.events), CallsOf(p.events));
    RevokedNext(Wipe(p, Wiped(p.events), CallsOf(p.events)).(events := []), id);
  }

  ghost predicate DroppedNow(p: Processor, id: OrderId) {
    id !in Waiting(p) && p.attempts != [] && p.attempts[0].phase == Ended(true)
  }

  lemma AnnouncedIsDropped(w: World, ctx: Context, id: OrderId)
    requires Inv(w) && Starts(w, FeedSends(ctx), id)
    requires var v := Step(w, FeedSends(ctx)).p; id in v.store && IsRevokedNow(v.store[id])
    ensures DroppedNow(Step(w, FeedSends(ctx)).p, id)
  {
    if !w.p.locked && Announces(ctx.status) {
      FreeTakesAnnounced(w, ctx);
      RevokedStart(w.p.(store := w.p.store[ctx.id := Filed(w.p.store, ctx)], locked := true), ctx.id);
    } else if !w.p.locked {
      FreeActsOnEvent(w, ctx);
    }
  }

  lemma RetriedIsDropped(w: World, t: nat, id: OrderId)
    requires Inv(w) && Enabled(w, TimerFires(t)) && Starts(w, TimerFires(t), id)
    requires var v := Step(w, TimerFires(t)).p; id in v.store && IsRevokedNow(v.store[id])
    ensures DroppedNow(Step(w, TimerFires(t)).p, id)
  {
    RetryTurns(w, t);
    M.FireKeeps(w.p.mempool, t);
    if !w.p.locked {
      RevokedStart(w.p.(mempool := M.Fire(w.p.mempool, t).0, locked := true), w.p.mempool.timers[t].id);
    }
  }

  lemma ResumedWasKnown(w: World, k: nat, id: OrderId)
    requires Inv(w) && Enabled(w, Resumes(k)) && id in Step(w, Resumes(k)).p.store
    ensures id in w.p.store
  {
    ReleasedKeeps(w.p, k);
    TurnOrder(Released(w.p, k));
  }

  lemma ResumedIsDropped(w: World, k: nat, id: OrderId)
    requires Inv(w) && Enabled(w, Resumes(k)) && Starts(w, Resumes(k), id)
    requires var v := Step(w, Resumes(k)).p; id in v.store && IsRevokedNow(v.store[id])
    ensures DroppedNow(Step(w, Resumes(k)).p, id)
  {
    ResumedWasKnown(w, k, id);
    StoreEvolves(w, Resumes(k), id);
    ReleasedKeeps(w.p, k);
    RevokedTurn(Released(w.p, k), id);
  }

  /** A live order that the feed has revoked is not taken when its turn comes: it leaves every set and
      its retry is called off. */
  lemma RevokedIsDropped(w: World, e: Event, id: OrderId)
    requires Inv(w) && Enabled(w, e) && Starts(w, e, id)
    requires id in Step(w, e).p.store && IsRevokedNow(Step(w, e).p.store[id])
    ensures DroppedNow(Step(w, e).p, id)
  {
    match e
    case FeedSends(ctx) => AnnouncedIsDropped(w, ctx, id);
    case TimerFires(t) => RetriedIsDropped(w, t, id);
    case TakeEnds(k, _, _) => OneUnderWay(w.p, k);
    case Resumes(k) => ResumedIsDropped(w, k, id);
  }

  // ---------------------------------------------------------------- live before archival

  /** The event brings the order to its turn: as a live one, or as an archival one. */
  ghost predicate Brings(w: World, e: Event, id: OrderId, live: bool)
    requires Enabled(w, e)
  {
    match e
    case FeedSends(ctx) => ctx.id == id && if live then ctx.status.Created? else ctx.status.ArchivalCreated?
    case TimerFires(t) => w.p.mempool.timers[t].id == id && id in w.p.store && w.p.store[id].live == live
    case _ => false
  }

  ghost predicate Brought(w: World, es: seq<Event>, id: OrderId, live: bool)
    requires Legal(w, es)
    decreases |es|
  {
    es != [] && (Brings(w, es[0], id, live) || Brought(Step(w, es[0]), es[1..], id, live))
  }

  ghost function Set(p: Processor, live: bool): seq<OrderId> {
    if live then p.priority else p.queue
  }

  /** One step under the lock: what it brings is parked in the set it belongs to, and only an order
      taken for good leaves a set. */
  lemma StepParks(w: World, e: Event, id: OrderId, live: bool)
    requires Inv(w) && w.p.locked && Enabled(w, e) && !e.Resumes?
    ensures id in Set(Step(w, e).p, live) <==>
              (id in Set(w.p, live) || Brings(w, e, id, live))
              && !(e.TakeEnds? && e.outcome.Taken? && id == w.p.attempts[0].id)
  {
    match e
    case FeedSends(ctx) =>
      if Announces(ctx.status) {
        BusyParksAnnounced(w, ctx);
      } else {
        BusyQueuesEvent(w, ctx);
      }
    case TimerFires(t) => RetryTurns(w, t);
    case TakeEnds(k, outcome, delay) =>
      OneUnderWay(w.p, k);
      var before, after := Set(w.p, live), Set(Step(w, e).p, live);
      assert id in after <==> id in Elems(after);
      assert id in before <==> id in Elems(before);
  }

  /** Over a stretch under the lock: waiting with the live orders are those that were there before and
      those brought in as live ones, and with the archival orders likewise; save for the order being
      taken, of which nothing is said once it has been taken for good. */
  lemma {:induction false} StretchParksIff(w: World, es: seq<Event>, id: OrderId, live: bool)
    requires Inv(w) && w.p.locked && w.p.attempts != [] && Legal(w, es) && WhileBusy(es)
    ensures id in Set(Run(w, es).p, live) ==> id in Set(w.p, live) || Brought(w, es, id, live)
    ensures (Takes(es) ==> id != w.p.attempts[0].id)
            ==> (id in Set(Run(w, es).p, live) <==> id in Set(w.p, live) || Brought(w, es, id, live))
    decreases |es|
  {
    if es != [] {
      StepInv(w, es[0]);
      BusyStep(w, es[0]);
      StepParks(w, es[0], id, live);
      StretchParksIff(Step(w, es[0]), es[1..], id, live);
      if Takes(es[1..]) {
        TakesLater(es);
      }
    }
  }

  /** Live orders go before archival ones. If a live order that waited under the lock, or was brought in
      meanwhile, survives to the release and is not the one just taken, then the next attempt is at an
      order that waited as a live one or was brought in as one: at none that only archival
      announcements or retries brought in. */
  lemma LiveBeforeArchival(w: World, es: seq<Event>, id: OrderId, k: nat)
    requires Inv(w) && w.p.locked && w.p.attempts != [] && Legal(w, es) && WhileBusy(es)
    requires Enabled(Run(w, es), Resumes(k))
    requires (id in w.p.priority || Brought(w, es, id, true)) && (Takes(es) ==> id != w.p.attempts[0].id)
    requires id !in Wiped(Run(w, es).p.events)
    ensures exists x :: (x in w.p.priority || Brought(w, es, x, true)) && UnderWay(Step(Run(w, es), Resumes(k)).p) == {x}
  {
    BusyHolds(w, es);
    StretchParksIff(w, es, id, true);
    var p := Run(w, es).p;
    assert p.priority <= p.priority && id in p.priority && Elems(p.priority) <= Elems(p.priority);
    assert Placed(p.priority, p, id);
    FirstAfterRelease(p, k, p.priority, id);
    var x :| x in p.priority && UnderWay(Resume(p, k)) == {x};
    StretchParksIff(w, es, x, true);
  }
}
