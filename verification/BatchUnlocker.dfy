/** The batch unlocker: fulfilled orders wait in one queue per give chain until a batch is full,
    and a single lock guards the check, send and clean-up of a batch.

    `UnlockModel` gives the effect of each uninterrupted stretch of code between two awaits;
    `BatchUnlocking` is the class that updates its maps and flag in place. A suspended unlock run
    is a `Job`: nothing here presumes that there is at most one. */
module UnlockModel {
  import opened Common

  const SOLANA: ChainId := 7565164

  datatype OrderData = OrderData(giveChain: ChainId, body: string)

  /** Where a suspended unlock run waits: for the order states; for the sender; in
      `performBatchUnlock` for the orders to delete; in the caller of `performBatchUnlock`; or in
      `tryUnlock` for the end of `unlockAny`. `nested`: the caller is `unlockAny`, not `tryUnlock`. */
  datatype Job =
    | Checking(chain: ChainId, batch: seq<OrderId>, nested: bool)
    | Sending(chain: ChainId, gone: seq<OrderId>, batch: seq<OrderId>, payload: seq<Option<OrderData>>, nested: bool)
    | Unlocked(chain: ChainId, ids: seq<OrderId>, nested: bool)
    | Performed(success: bool, nested: bool)
    | Releasing

  /** `chains` holds the keys of `queues` in insertion order. */
  datatype Unlocker = Unlocker(
    chains: seq<ChainId>,
    queues: map<ChainId, seq<OrderId>>,
    data: map<OrderId, OrderData>,
    locked: bool,
    jobs: seq<Job>,
    exited: bool)

  /** `size` has an entry for every configured chain: events of other chains are dropped. */
  datatype Config = Config(takeChain: ChainId, size: map<ChainId, int>)

  ghost predicate ValidConfig(cfg: Config) {
    forall c :: c in cfg.size ==> 1 <= cfg.size[c] <= if c == SOLANA then 7 else 10
  }

  const EMPTY := Unlocker([], map[], map[], false, [], false)

  /** Zero counts as not configured. */
  predicate Unset(a: Option<int>) {
    a.None? || a.value == 0
  }

  function OrElse(a: Option<int>, b: int): int {
    if Unset(a) then b else a.value
  }

  /** The batch size of a give chain, from its own and the shared configuration. */
  function BatchSize(chain: ChainId, own: Option<int>, shared: Option<int>): (r: Result<int, string>)
    ensures r.Ok? ==> 1 <= r.value <= if chain == SOLANA then 7 else 10
    ensures r.Ok? && !Unset(own) ==> r.value == own.value || (chain == SOLANA && r.value == 7 < own.value)
    ensures r.Ok? && Unset(own) && !Unset(shared) ==>
              r.value == shared.value || (chain == SOLANA && r.value == 7 < shared.value)
    ensures r.Ok? && Unset(own) && Unset(shared) ==> r.value == if chain == SOLANA then 7 else 10
    ensures r.Err? <==>
            var asked := if Unset(own) then shared else own;
            !Unset(asked) && !(1 <= asked.value <= 10)
  {
    var size := OrElse(own, OrElse(shared, 10));
    if size < 1 || size > 10 then Err("batch size is out of bounds")
    else if chain == SOLANA && size > 7 then Ok(7)
    else Ok(size)
  }

  predicate IsFull(cfg: Config, queues: map<ChainId, seq<OrderId>>, c: ChainId) {
    c in queues && c in cfg.size && |queues[c]| >= cfg.size[c]
  }

  /** The full queue whose chain was first seen earliest. */
  function PeekNext(cfg: Config, chains: seq<ChainId>, queues: map<ChainId, seq<OrderId>>): (r: Option<ChainId>)
    ensures r.None? ==> forall c :: c in chains ==> !IsFull(cfg, queues, c)
    ensures r.Some? ==> IsFull(cfg, queues, r.value)
    ensures r.Some? ==> exists i ::
              0 <= i < |chains| && chains[i] == r.value && forall j :: 0 <= j < i ==> !IsFull(cfg, queues, chains[j])
  {
    if chains == [] then None
    else if IsFull(cfg, queues, chains[0]) then
      assert chains[0] == chains[0];
      Some(chains[0])
    else
      var rest := PeekNext(cfg, chains[1..], queues);
      assert rest.Some? ==> exists i :: 0 < i < |chains| && chains[i] == rest.value
                                        && forall j :: 0 <= j < i ==> !IsFull(cfg, queues, chains[j]) by {
        if rest.Some? {
          var i :| 0 <= i < |chains[1..]| && chains[1..][i] == rest.value
                   && forall j :: 0 <= j < i ==> !IsFull(cfg, queues, chains[1..][j]);
          assert forall j :: 0 < j < i + 1 ==> chains[j] == chains[1..][j - 1];
          assert chains[i + 1] == rest.value;
        }
      }
      rest
  }

  /** The head of a full queue. */
  function Pick(cfg: Config, queues: map<ChainId, seq<OrderId>>, c: ChainId, nested: bool): Job
    requires ValidConfig(cfg) && IsFull(cfg, queues, c)
  {
    Checking(c, queues[c][..cfg.size[c]], nested)
  }

  function TryUnlock(cfg: Config, u: Unlocker, c: ChainId): Unlocker
    requires ValidConfig(cfg)
  {
    if u.locked || !IsFull(cfg, u.queues, c) then u
    else u.(locked := true, jobs := u.jobs + [Pick(cfg, u.queues, c, false)])
  }

  function Enqueue(u: Unlocker, id: OrderId, order: OrderData): Unlocker {
    var c := order.giveChain;
    u.(chains := Include(u.chains, c),
       queues := u.queues[c := Include(if c in u.queues then u.queues[c] else [], id)],
       data := u.data[id := order])
  }

  function AddOrder(cfg: Config, u: Unlocker, id: OrderId, order: OrderData): Unlocker
    requires ValidConfig(cfg)
  {
    TryUnlock(cfg, Enqueue(u, id, order), order.giveChain)
  }

  /** `remove` looks the queue up under the chain it is given, which is the take chain. */
  function Remove(u: Unlocker, chain: ChainId, id: OrderId): Unlocker {
    if chain !in u.queues then u
    else u.(queues := u.queues[chain := Without(u.queues[chain], {id})], data := u.data - {id})
  }

  function Select(batch: seq<OrderId>, flags: seq<bool>, wanted: bool): (r: seq<OrderId>)
    requires |flags| == |batch|
    ensures forall id :: id in r ==> id in batch
    ensures forall id :: id in r ==> exists i :: 0 <= i < |batch| && batch[i] == id && flags[i] == wanted
    ensures forall i :: 0 <= i < |batch| && flags[i] == wanted ==> batch[i] in r
    ensures Distinct(batch) ==> Distinct(r)
  {
    if batch == [] then []
    else
      var n := |batch| - 1;
      var front := Select(batch[..n], flags[..n], wanted);
      assert Distinct(batch) ==> batch[n] !in batch[..n];
      assert forall j :: 0 <= j < |front| ==> front[j] in front;
      if flags[n] == wanted then front + [batch[n]] else front
  }

  /** The positions that a filter keeps: the wanted ones, all of them, in ascending order. */
  ghost predicate Keeps(flags: seq<bool>, wanted: bool, at: seq<nat>) {
    && (forall k :: 0 <= k < |at| ==> at[k] < |flags| && flags[at[k]] == wanted)
    && (forall j, k :: 0 <= j < k < |at| ==> at[j] < at[k])
    && (forall i :: 0 <= i < |flags| && flags[i] == wanted ==> i in at)
  }

  lemma KeepsMore(flags: seq<bool>, wanted: bool, at: seq<nat>)
    requires flags != [] && Keeps(flags[..|flags| - 1], wanted, at)
    ensures var n := |flags| - 1; Keeps(flags, wanted, if flags[n] == wanted then at + [n] else at)
  {
    var n := |flags| - 1;
    forall i | 0 <= i < n && flags[i] == wanted
      ensures i in at
    {
      assert flags[..n][i] == wanted;
    }
    forall k | 0 <= k < |at|
      ensures at[k] < n && flags[at[k]] == wanted
    {
      assert flags[..n][at[k]] == wanted;
    }
  }

  ghost function Positions(flags: seq<bool>, wanted: bool): (at: seq<nat>)
    ensures Keeps(flags, wanted, at)
  {
    if flags == [] then []
    else
      var n := |flags| - 1;
      var front := Positions(flags[..n], wanted);
      KeepsMore(flags, wanted, front);
      if flags[n] == wanted then front + [n] else front
  }

  /** The filter keeps the order of the batch. */
  lemma {:induction false} SelectKeepsOrder(batch: seq<OrderId>, flags: seq<bool>, wanted: bool)
    requires |flags| == |batch|
    ensures var r, at := Select(batch, flags, wanted), Positions(flags, wanted);
            |r| == |at| && forall k :: 0 <= k < |at| ==> r[k] == batch[at[k]]
  {
    if batch != [] {
      var n := |batch| - 1;
      SelectKeepsOrder(batch[..n], flags[..n], wanted);
    }
  }

  /** What the sender is given. It has no gap exactly when no order of the batch lacks its data. */
  function Payload(data: map<OrderId, OrderData>, batch: seq<OrderId>): (r: seq<Option<OrderData>>)
    ensures |r| == |batch|
    ensures None !in r <==> forall id :: id in batch ==> id in data
  {
    var r := seq(|batch|, i requires 0 <= i < |batch| => if batch[i] in data then Some(data[batch[i]]) else None);
    assert forall i :: 0 <= i < |batch| ==> (r[i] == None <==> batch[i] !in data);
    r
  }

  /** The order states arrive: keep the orders still Fulfilled and hand them to the sender,
      which ends the process when there are none. */
  function Answered(u: Unlocker, k: nat, flags: seq<bool>): Unlocker
    requires k < |u.jobs| && u.jobs[k].Checking? && |flags| == |u.jobs[k].batch|
  {
    var Checking(c, batch, nested) := u.jobs[k];
    var kept := Select(batch, flags, true);
    u.(jobs := u.jobs[k := Sending(c, Select(batch, flags, false), kept, Payload(u.data, kept), nested)],
       exited := u.exited || kept == [])
  }

  /** A request for an order state throws: the continuation dies without giving the lock back. */
  function CheckThrew(u: Unlocker, k: nat): Unlocker
    requires k < |u.jobs|
  {
    u.(jobs := u.jobs[..k] + u.jobs[k + 1..])
  }

  /** The orders to delete from the queue once the sender has settled. */
  function Cleaned(job: Job, ok: bool): seq<OrderId>
    requires job.Sending?
  {
    job.gone + if ok then job.batch else []
  }

  /** The sender settles, and `unlockOrders` returns. */
  function SendSettled(u: Unlocker, k: nat, ok: bool): Unlocker
    requires k < |u.jobs| && u.jobs[k].Sending?
  {
    u.(jobs := u.jobs[k := Unlocked(u.jobs[k].chain, Cleaned(u.jobs[k], ok), u.jobs[k].nested)])
  }

  function CleanUp(u: Unlocker, c: ChainId, ids: seq<OrderId>): Unlocker {
    u.(queues := if c in u.queues then u.queues[c := Without(u.queues[c], Elems(ids))] else u.queues,
       data := u.data - Elems(ids))
  }

  /** `performBatchUnlock` resumes: clean up, and report a success if the whole batch is gone. */
  function Perform(cfg: Config, u: Unlocker, k: nat): Unlocker
    requires k < |u.jobs| && u.jobs[k].Unlocked? && u.jobs[k].chain in cfg.size
  {
    var Unlocked(c, ids, nested) := u.jobs[k];
    CleanUp(u, c, ids).(jobs := u.jobs[k := Performed(|ids| == cfg.size[c], nested)])
  }

  /** The caller resumes: after a success on to the next full queue, if there is one. `tryUnlock`
      gives the lock back at once after a failure of its own, but has to wait for `unlockAny`. */
  function GoOn(cfg: Config, u: Unlocker, k: nat): Unlocker
    requires ValidConfig(cfg) && k < |u.jobs| && u.jobs[k].Performed?
  {
    var next := if u.jobs[k].success then PeekNext(cfg, u.chains, u.queues) else None;
    if next.Some? then u.(jobs := u.jobs[k := Pick(cfg, u.queues, next.value, true)])
    else if u.jobs[k].success || u.jobs[k].nested then u.(jobs := u.jobs[k := Releasing])
    else Release(u, k)
  }

  function Release(u: Unlocker, k: nat): Unlocker
    requires k < |u.jobs|
  {
    u.(jobs := u.jobs[..k] + u.jobs[k + 1..], locked := false)
  }

  predicate CanResume(cfg: Config, job: Job) {
    job.Performed? || job.Releasing? || (job.Unlocked? && job.chain in cfg.size)
  }

  /** The next stretch of a run that waits for nothing but its turn. */
  function Resume(cfg: Config, u: Unlocker, k: nat): Unlocker
    requires ValidConfig(cfg) && k < |u.jobs| && CanResume(cfg, u.jobs[k])
  {
    match u.jobs[k]
    case Unlocked(_, _, _) => Perform(cfg, u, k)
    case Performed(_, _) => GoOn(cfg, u, k)
    case Releasing => Release(u, k)
  }
}

module BatchUnlocking {
  import opened Common
  import opened UnlockModel

  class BatchUnlocker {
    const cfg: Config
    var ordersDataMap: map<OrderId, OrderData>
    var batches: map<ChainId, seq<OrderId>>
    var chainsSeen: seq<ChainId>
    var isBatchUnlockLocked: bool
    // The runtime's share of the state: suspended continuations, and whether the process is gone.
    var jobs: seq<Job>
    var exited: bool

    function View(): Unlocker
      reads this
    {
      Unlocker(chainsSeen, batches, ordersDataMap, isBatchUnlockLocked, jobs, exited)
    }

    constructor (cfg: Config)
      ensures this.cfg == cfg && View() == EMPTY
    {
      this.cfg := cfg;
      ordersDataMap, batches, chainsSeen := map[], map[], [];
      isBatchUnlockLocked, jobs, exited := false, [], false;
    }

    method Remove(takeChain: ChainId, id: OrderId)
      modifies this
      ensures View() == UnlockModel.Remove(old(View()), takeChain, id)
    {
      if takeChain in batches {
        batches := batches[takeChain := Without(batches[takeChain], {id})];
        ordersDataMap := ordersDataMap - {id};
      }
    }

    /** Enters the pool only an order that is Fulfilled in favour of our own authority. */
    method UnlockOrder(id: OrderId, order: OrderData, fulfilled: bool, ours: bool)
      requires ValidConfig(cfg) && order.giveChain in cfg.size
      modifies this
      ensures View() == if fulfilled && ours then UnlockModel.AddOrder(cfg, old(View()), id, order) else old(View())
    {
      if !fulfilled {
        return;
      }
      if !ours {
        return;
      }
      AddOrder(id, order);
    }

    method AddOrder(id: OrderId, order: OrderData)
      requires ValidConfig(cfg) && order.giveChain in cfg.size
      modifies this
      ensures View() == UnlockModel.AddOrder(cfg, old(View()), id, order)
    {
      var c := order.giveChain;
      if c !in batches {
        batches := batches[c := []];
      }
      chainsSeen := Include(chainsSeen, c);
      batches := batches[c := Include(batches[c], id)];
      ordersDataMap := ordersDataMap[id := order];
      assert View() == Enqueue(old(View()), id, order);
      TryUnlock(c);
    }

    method TryUnlock(c: ChainId)
      requires ValidConfig(cfg) && c in cfg.size && c in batches
      modifies this`isBatchUnlockLocked, this`jobs
      ensures View() == UnlockModel.TryUnlock(cfg, old(View()), c)
      ensures isBatchUnlockLocked <==> old(isBatchUnlockLocked) || |batches[c]| >= cfg.size[c]
      ensures jobs == if isBatchUnlockLocked && !old(isBatchUnlockLocked)
                      then old(jobs) + [Checking(c, batches[c][..cfg.size[c]], false)] else old(jobs)
    {
      if isBatchUnlockLocked {
        return;
      }
      if |batches[c]| < cfg.size[c] {
        return;
      }
      isBatchUnlockLocked := true;
      jobs := jobs + [Checking(c, batches[c][..cfg.size[c]], false)];
    }

    method PeekNextBatch() returns (r: Option<ChainId>)
      ensures r == PeekNext(cfg, chainsSeen, batches)
    {
      for i := 0 to |chainsSeen|
        invariant PeekNext(cfg, chainsSeen, batches) == PeekNext(cfg, chainsSeen[i..], batches)
      {
        if IsFull(cfg, batches, chainsSeen[i]) {
          return Some(chainsSeen[i]);
        }
        assert chainsSeen[i..][1..] == chainsSeen[i + 1..];
      }
      return None;
    }

    /** Resumes `unlockOrders` with the order states; `None` stands for a request that threw. */
    method OnOrderStates(k: nat, states: Option<seq<bool>>)
      requires k < |jobs| && jobs[k].Checking?
      requires states.Some? ==> |states.value| == |jobs[k].batch|
      modifies this`jobs, this`exited
      ensures View() == match states
                        case None => CheckThrew(old(View()), k)
                        case Some(flags) => Answered(old(View()), k, flags)
    {
      if states.None? {
        jobs := jobs[..k] + jobs[k + 1..];
        return;
      }
      var flags, batch := states.value, jobs[k].batch;
      var kept: seq<OrderId>, gone: seq<OrderId> := [], [];
      for i := 0 to |batch|
        invariant kept == Select(batch[..i], flags[..i], true)
        invariant gone == Select(batch[..i], flags[..i], false)
      {
        assert batch[..i + 1][..i] == batch[..i] && flags[..i + 1][..i] == flags[..i];
        if flags[i] {
          kept := kept + [batch[i]];
        } else {
          gone := gone + [batch[i]];
        }
      }
      assert batch[..|batch|] == batch && flags[..|batch|] == flags;
      jobs := jobs[k := Sending(jobs[k].chain, gone, kept, Payload(ordersDataMap, kept), jobs[k].nested)];
      exited := exited || kept == [];
    }

    /** Deletes the executed orders from their queue, one after the other. */
    method CleanUp(c: ChainId, ids: seq<OrderId>)
      requires c in batches
      modifies this`batches, this`ordersDataMap
      ensures View() == UnlockModel.CleanUp(old(View()), c, ids)
    {
      ghost var queue := batches[c];
      WithoutNothing(queue, {});
      assert batches == batches[c := queue] && Elems(ids[..0]) == {};
      for i := 0 to |ids|
        invariant batches == old(batches)[c := Without(queue, Elems(ids[..i]))]
        invariant ordersDataMap == old(ordersDataMap) - Elems(ids[..i])
      {
        WithoutTwice(queue, Elems(ids[..i]), {ids[i]});
        ElemsNext(ids, i);
        batches := batches[c := Without(batches[c], {ids[i]})];
        ordersDataMap := ordersDataMap - {ids[i]};
      }
      assert ids[..|ids|] == ids;
    }

    /** Resumes `unlockOrders` once the sender has settled. */
    method OnSendSettled(k: nat, ok: bool)
      requires k < |jobs| && jobs[k].Sending?
      modifies this`jobs
      ensures View() == SendSettled(old(View()), k, ok)
    {
      var unlockedOrders := jobs[k].gone;
      if ok {
        unlockedOrders := unlockedOrders + jobs[k].batch;
      } else {
        assert unlockedOrders == unlockedOrders + [];
      }
      jobs := jobs[k := Unlocked(jobs[k].chain, unlockedOrders, jobs[k].nested)];
    }

    /** Resumes `performBatchUnlock` with the orders to delete. */
    method OnOrdersUnlocked(k: nat)
      requires k < |jobs| && jobs[k].Unlocked? && jobs[k].chain in cfg.size && jobs[k].chain in batches
      modifies this
      ensures View() == Perform(cfg, old(View()), k)
    {
      var Unlocked(c, ids, nested) := jobs[k];
      CleanUp(c, ids);
      jobs := jobs[k := Performed(|ids| == cfg.size[c], nested)];
    }

    /** Resumes `tryUnlock`, or the loop of `unlockAny`, with the outcome of a batch. */
    method OnBatchPerformed(k: nat)
      requires ValidConfig(cfg) && k < |jobs| && jobs[k].Performed?
      modifies this`jobs, this`isBatchUnlockLocked
      ensures View() == GoOn(cfg, old(View()), k)
    {
      if jobs[k].success {
        var next := PeekNextBatch();
        if next.Some? {
          jobs := jobs[k := Checking(next.value, batches[next.value][..cfg.size[next.value]], true)];
          return;
        }
      } else if !jobs[k].nested {
        OnAnyUnlocked(k);
        return;
      }
      jobs := jobs[k := Releasing];
    }

    /** Resumes `tryUnlock` for the last time. */
    method OnAnyUnlocked(k: nat)
      requires k < |jobs|
      modifies this`jobs, this`isBatchUnlockLocked
      ensures View() == Release(old(View()), k)
    {
      jobs := jobs[..k] + jobs[k + 1..];
      isBatchUnlockLocked := false;
    }
  }
}
