/** The order processor of one take chain: a single lock, a first-in-first-out queue of terminal
    events, two ordered sets of waiting orders, the mempool of retries, and the order store.

    `ProcessorModel` gives the effect of each uninterrupted stretch of code; `OrderProcessing` is
    the class that updates these structures in place. A suspended `process` is an `Attempt`:
    nothing here presumes that there is at most one. */
module ProcessorModel {
  import opened Common
  import M = MempoolModel

  datatype Status =
    | Created | ArchivalCreated | ArchivalFulfilled | Fulfilled | Cancelled
    | UnlockSent | UnlockClaim | TakeOfferDecreased | GiveOfferIncreased

  predicate IsCreation(s: Status) {
    s.Created? || s.ArchivalCreated?
  }

  /** The terminal events that wipe an order out of the store and of every queue. */
  predicate IsTerminal(s: Status) {
    s.Cancelled? || s.Fulfilled? || s.UnlockSent? || s.UnlockClaim?
  }

  datatype Feed = IsRevoked | IsFinalized | IsConfirmed(blocks: int) | IsSilent

  datatype Context = Context(id: OrderId, status: Status, feed: Feed)

  /** `live`: the order first came as Created, rather than as ArchivalCreated. */
  datatype Metadata = Metadata(attempts: nat, live: bool, feed: Feed)

  datatype Finalization = Revoked | Finalized | Confirmations(blocks: int)

  function GetFinalizationInfo(meta: Metadata): Finalization {
    if !meta.live then Finalized
    else match meta.feed
         case IsRevoked => Revoked
         case IsFinalized => Finalized
         case IsConfirmed(n) => Confirmations(n)
         case IsSilent => Confirmations(0)
  }

  /** Where a suspended `process` waits: within `takeOrder`, or for its own turn after it. */
  datatype Phase = Taking | Ended(rejected: bool)

  datatype Attempt = Attempt(id: OrderId, number: nat, live: bool, phase: Phase)

  datatype Outcome = Taken | Rejected | Postponed(delay: Option<int>) | Failed

  /** What the processor asks of the taker and of the batch unlocker, in order. The taker is told how
      far the order has been confirmed. */
  datatype Call = Take(id: OrderId, finalization: Finalization) | Unlock(id: OrderId) | DropUnlock(id: OrderId)

  datatype Processor = Processor(
    priority: seq<OrderId>,
    queue: seq<OrderId>,
    events: seq<Context>,
    locked: bool,
    store: map<OrderId, Metadata>,
    mempool: M.Mempool,
    attempts: seq<Attempt>,
    calls: seq<Call>,
    died: bool)

  const EMPTY := Processor([], [], [], false, map[], M.EMPTY, [], [], false)

  /** Files a creation event: a new order enters the store, a known one only takes over the
      finalization of a live event. */
  function Register(store: map<OrderId, Metadata>, ctx: Context): map<OrderId, Metadata> {
    if !IsCreation(ctx.status) then store
    else if ctx.id !in store then store[ctx.id := Metadata(0, ctx.status.Created?, ctx.feed)]
    else if ctx.status.Created? then store[ctx.id := store[ctx.id].(feed := ctx.feed)]
    else store
  }

  function ClearQueues(p: Processor, id: OrderId): Processor {
    p.(queue := Without(p.queue, {id}), priority := Without(p.priority, {id}), mempool := M.Delete(p.mempool, id))
  }

  function ClearOrder(p: Processor, id: OrderId): Processor {
    ClearQueues(p, id).(store := p.store - {id})
  }

  /** Starts a take attempt under the lock; a revoked order is cleared and rejected at once. */
  function StartTake(p: Processor, id: OrderId): Processor
    requires id in p.store
  {
    var meta := p.store[id].(attempts := p.store[id].attempts + 1);
    var finalization := GetFinalizationInfo(meta);
    var revoked := finalization.Revoked?;
    var q := p.(store := p.store[id := meta],
                attempts := p.attempts + [Attempt(id, meta.attempts, meta.live, if revoked then Ended(true) else Taking)],
                calls := if revoked then p.calls else p.calls + [Take(id, finalization)]);
    if revoked then ClearQueues(q, id) else q
  }

  /** A creation event of an order, or its turn: take it now or park it in one of the two sets. */
  function ProcessCreated(p: Processor, id: OrderId, live: bool): Processor {
    if p.locked then
      if live then p.(priority := Include(p.priority, id)) else p.(queue := Include(p.queue, id))
    else if id !in p.store then p.(locked := true, died := true)
    else StartTake(p.(locked := true), id)
  }

  /** What an event other than a creation does once it is its turn. */
  function Dispatch(p: Processor, ctx: Context): Processor {
    match ctx.status
    case ArchivalFulfilled => p.(calls := p.calls + [Unlock(ctx.id)])
    case Cancelled => ClearOrder(p, ctx.id)
    case UnlockSent | UnlockClaim => ClearOrder(p, ctx.id).(calls := p.calls + [DropUnlock(ctx.id)])
    case Fulfilled => ClearOrder(p, ctx.id).(calls := p.calls + [Unlock(ctx.id)])
    case _ => p
  }

  function PickNext(p: Processor): Option<OrderId> {
    if p.priority != [] then Some(p.priority[0])
    else if p.queue != [] then Some(p.queue[0])
    else None
  }

  function HandleOrder(p: Processor, id: OrderId): Processor {
    if id !in p.store then p.(died := true)
    else ProcessCreated(p, id, p.store[id].live)
  }

  function ProcessNextOrder(p: Processor): Processor {
    match PickNext(p)
    case None => p
    case Some(id) => HandleOrder(p.(priority := Without(p.priority, {id}), queue := Without(p.queue, {id})), id)
  }

  /** With the lock just released: queued events first, then a waiting order. */
  function Continue(p: Processor): Processor
    decreases |p.events|, 0
  {
    if p.events != [] then HandleEvent(p.(events := p.events[1..]), p.events[0])
    else ProcessNextOrder(p)
  }

  function HandleEvent(p: Processor, ctx: Context): Processor
    decreases |p.events|, 1
  {
    var q := p.(store := Register(p.store, ctx));
    if IsCreation(ctx.status) then ProcessCreated(q, ctx.id, ctx.status.Created?)
    else if q.locked then q.(events := q.events + [ctx])
    else Continue(Dispatch(q, ctx))
  }

  function OnTimeout(p: Processor, t: nat): Processor
    requires t in p.mempool.timers
  {
    var (m, due) := M.Fire(p.mempool, t);
    match due
    case None => p.(mempool := m)
    case Some(id) => HandleOrder(p.(mempool := m), id)
  }

  /** A delay of zero counts as none. */
  function PostponeDelay(a: Attempt, delay: Option<int>): int {
    if delay.Some? && delay.value != 0 then delay.value else 1000 * M.Delay(a.live, a.number)
  }

  /** What the end of an attempt does to the queues. */
  function Settle(p: Processor, a: Attempt, outcome: Outcome, fulfillCheckDelay: int): Processor {
    match outcome
    case Taken =>
      var q := ClearQueues(p, a.id);
      q.(mempool := M.AddOrder(q.mempool, a.id, fulfillCheckDelay))
    case Rejected => p
    case Postponed(delay) => p.(mempool := M.AddOrder(p.mempool, a.id, PostponeDelay(a, delay)))
    case Failed => p.(mempool := M.AddOrder(p.mempool, a.id, PostponeDelay(a, None)))
  }

  /** The taker settles, and `takeOrder` returns. */
  function EndTake(p: Processor, k: nat, outcome: Outcome, fulfillCheckDelay: int): Processor
    requires k < |p.attempts| && p.attempts[k].phase.Taking?
  {
    var a := p.attempts[k];
    Settle(p, a, outcome, fulfillCheckDelay).(attempts := p.attempts[k := a.(phase := Ended(outcome.Rejected?))])
  }

  /** `process` resumes: it gives the lock back and turns to what waits. */
  function Resume(p: Processor, k: nat): Processor
    requires k < |p.attempts| && p.attempts[k].phase.Ended?
  {
    Continue(p.(attempts := p.attempts[..k] + p.attempts[k + 1..], locked := false))
  }
}

module OrderProcessing {
  import opened Common
  import opened ProcessorModel
  import opened MempoolServices

  class OrderProcessor {
    const mempool: MempoolService
    const fulfillCheckDelay: int
    var priorityQueue: seq<OrderId>
    var queue: seq<OrderId>
    var eventsQueue: seq<Context>
    var isLocked: bool
    var createdOrdersMetadata: map<OrderId, Metadata>
    // The runtime's share of the state: suspended attempts, calls made, whether the process is gone.
    var attempts: seq<Attempt>
    var calls: seq<Call>
    var died: bool

    ghost function View(): Processor
      reads this, mempool
    {
      Processor(priorityQueue, queue, eventsQueue, isLocked, createdOrdersMetadata, mempool.View(), attempts, calls, died)
    }

    constructor (fulfillCheckDelay: int)
      ensures View() == EMPTY && fresh(mempool) && this.fulfillCheckDelay == fulfillCheckDelay
    {
      mempool := new MempoolService();
      this.fulfillCheckDelay := fulfillCheckDelay;
      priorityQueue, queue, eventsQueue, isLocked := [], [], [], false;
      createdOrdersMetadata, attempts, calls, died := map[], [], [], false;
    }

    method ClearInternalQueues(id: OrderId)
      modifies this, mempool
      ensures View() == ClearQueues(old(View()), id)
    {
      queue := Without(queue, {id});
      priorityQueue := Without(priorityQueue, {id});
      mempool.Delete(id);
    }

    method ClearOrderStore(id: OrderId)
      modifies this`createdOrdersMetadata
      ensures createdOrdersMetadata == old(createdOrdersMetadata) - {id}
    {
      createdOrdersMetadata := createdOrdersMetadata - {id};
    }

    method HandleEvent(ctx: Context)
      modifies this, mempool
      ensures View() == ProcessorModel.HandleEvent(old(View()), ctx)
      decreases |eventsQueue|, 2
    {
      if IsCreation(ctx.status) {
        if ctx.id !in createdOrdersMetadata {
          createdOrdersMetadata := createdOrdersMetadata[ctx.id := Metadata(0, ctx.status.Created?, ctx.feed)];
        } else if ctx.status.Created? {
          var known := createdOrdersMetadata[ctx.id];
          createdOrdersMetadata := createdOrdersMetadata[ctx.id := known.(feed := ctx.feed)];
        }
      }
      Process(ctx.id, ctx.status, ctx.feed);
    }

    method HandleOrder(id: OrderId)
      modifies this, mempool
      ensures View() == ProcessorModel.HandleOrder(old(View()), id)
      decreases |eventsQueue|, 0, 1
    {
      if id !in createdOrdersMetadata {
        died := true;
        return;
      }
      ProcessCreated(id, createdOrdersMetadata[id].live);
    }

    method Process(id: OrderId, status: Status, feed: Feed)
      modifies this, mempool
      ensures var p, ctx := old(View()), Context(id, status, feed);
              View() == if IsCreation(status) then ProcessorModel.ProcessCreated(p, id, status.Created?)
                        else if p.locked then p.(events := p.events + [ctx])
                        else ProcessorModel.Continue(Dispatch(p, ctx))
      ensures old(isLocked) ==>
                && priorityQueue == (if status.Created? then Include(old(priorityQueue), id) else old(priorityQueue))
                && queue == (if status.ArchivalCreated? then Include(old(queue), id) else old(queue))
                && eventsQueue == (if status.Created? || status.ArchivalCreated? then old(eventsQueue)
                                   else old(eventsQueue) + [Context(id, status, feed)])
                && isLocked && attempts == old(attempts) && calls == old(calls)
      decreases |eventsQueue|, 1
    {
      if IsCreation(status) {
        ProcessCreated(id, status.Created?);
        return;
      }
      if isLocked {
        eventsQueue := eventsQueue + [Context(id, status, feed)];
        return;
      }
      isLocked := true;
      match status {
        case ArchivalFulfilled =>
          calls := calls + [Unlock(id)];
        case Cancelled =>
          ClearInternalQueues(id);
          ClearOrderStore(id);
        case UnlockSent | UnlockClaim =>
          ClearInternalQueues(id);
          ClearOrderStore(id);
          calls := calls + [DropUnlock(id)];
        case Fulfilled =>
          ClearInternalQueues(id);
          ClearOrderStore(id);
          calls := calls + [Unlock(id)];
        case _ =>
      }
      isLocked := false;
      Continue();
    }

    method ProcessCreated(id: OrderId, live: bool)
      modifies this, mempool
      ensures View() == ProcessorModel.ProcessCreated(old(View()), id, live)
      decreases |eventsQueue|, 0, 0
    {
      if isLocked {
        if live {
          priorityQueue := Include(priorityQueue, id);
        } else {
          queue := Include(queue, id);
        }
        return;
      }
      isLocked := true;
      if id !in createdOrdersMetadata {
        died := true;
        return;
      }
      TakeOrder(id);
    }

    /** Runs `takeOrder` up to its first suspension. */
    method TakeOrder(id: OrderId)
      requires id in createdOrdersMetadata
      modifies this, mempool
      ensures View() == StartTake(old(View()), id)
    {
      var meta := createdOrdersMetadata[id];
      meta := meta.(attempts := meta.attempts + 1);
      createdOrdersMetadata := createdOrdersMetadata[id := meta];
      var finalization := GetFinalizationInfo(meta);
      if finalization.Revoked? {
        ClearInternalQueues(id);
        attempts := attempts + [Attempt(id, meta.attempts, meta.live, Ended(true))];
      } else {
        calls := calls + [Take(id, finalization)];
        attempts := attempts + [Attempt(id, meta.attempts, meta.live, Taking)];
      }
    }

    method PickNextOrderId() returns (next: Option<OrderId>)
      modifies this`priorityQueue, this`queue
      ensures next == PickNext(old(View()))
      ensures View() == match next
                        case None => old(View())
                        case Some(id) =>
                          old(View()).(priority := Without(old(priorityQueue), {id}), queue := Without(old(queue), {id}))
    {
      if priorityQueue != [] {
        next := Some(priorityQueue[0]);
      } else if queue != [] {
        next := Some(queue[0]);
      } else {
        return None;
      }
      priorityQueue := Without(priorityQueue, {next.value});
      queue := Without(queue, {next.value});
    }

    method Continue()
      modifies this, mempool
      ensures View() == ProcessorModel.Continue(old(View()))
      decreases |eventsQueue|, 0, 2
    {
      if |eventsQueue| > 0 {
        var ctx := eventsQueue[0];
        eventsQueue := eventsQueue[1..];
        HandleEvent(ctx);
        return;
      }
      var next := PickNextOrderId();
      if next.Some? {
        HandleOrder(next.value);
      }
    }

    method PostponeOrder(id: OrderId, live: bool, attempt: nat, remainingDelay: Option<int>)
      modifies mempool
      ensures mempool.View() ==
              M.AddOrder(old(mempool.View()), id, PostponeDelay(Attempt(id, attempt, live, Taking), remainingDelay))
    {
      if remainingDelay.Some? && remainingDelay.value != 0 {
        mempool.AddOrder(id, remainingDelay.value);
      } else if !live {
        mempool.DelayArchivalOrder(id, attempt);
      } else {
        mempool.DelayOrder(id, attempt);
      }
    }

    method MarkOrderAsFulfilled(id: OrderId)
      modifies this, mempool
      ensures var q := ClearQueues(old(View()), id);
              View() == q.(mempool := M.AddOrder(q.mempool, id, fulfillCheckDelay))
    {
      ClearInternalQueues(id);
      mempool.AddOrder(id, fulfillCheckDelay);
    }

    /** Resumes `takeOrder` once the taker has settled. */
    method OnTakeSettled(k: nat, outcome: Outcome)
      requires k < |attempts| && attempts[k].phase.Taking?
      modifies this, mempool
      ensures View() == EndTake(old(View()), k, outcome, fulfillCheckDelay)
    {
      var a := attempts[k];
      match outcome {
        case Taken =>
          MarkOrderAsFulfilled(a.id);
        case Rejected =>
        case Postponed(delay) =>
          PostponeOrder(a.id, a.live, a.number, delay);
        case Failed =>
          PostponeOrder(a.id, a.live, a.number, None);
      }
      attempts := attempts[k := a.(phase := Ended(outcome.Rejected?))];
    }

    /** Resumes `process` after `takeOrder`. */
    method OnOrderProcessed(k: nat)
      requires k < |attempts| && attempts[k].phase.Ended?
      modifies this, mempool
      ensures View() == Resume(old(View()), k)
    {
      attempts := attempts[..k] + attempts[k + 1..];
      isLocked := false;
      Continue();
    }

    method OnTimeout(t: nat)
      requires t in mempool.timers
      modifies this, mempool
      ensures View() == ProcessorModel.OnTimeout(old(View()), t)
    {
      var due := mempool.OnTimeout(t);
      if due.Some? {
        HandleOrder(due.value);
      }
    }
  }
}
