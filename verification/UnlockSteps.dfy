/** What single steps of the batch unlocker come to, told without its own functions: when an unlock
    run starts and with which orders, in which order chains and orders wait, and what a failed
    batch leaves behind. */
module UnlockSteps {
  import opened Common
  import opened UnlockModel
  import opened UnlockRuns

  // ---------------------------------------------------------------- when an unlock run starts

  /** An arrival at a free lock starts an unlock run exactly if its chain then holds a full batch or
      more, no matter what was left there before; the run is about the head of that queue. */
  lemma ArrivalStartsIff(cfg: Config, u: Unlocker, id: OrderId, order: OrderData)
    requires ValidConfig(cfg) && !u.locked && order.giveChain in cfg.size
    ensures var v, c := AddOrder(cfg, u, id, order), order.giveChain;
            && c in v.queues && id in v.queues[c]
            && (v.locked <==> |v.queues[c]| >= cfg.size[c])
            && v.jobs == if v.locked then u.jobs + [Checking(c, v.queues[c][..cfg.size[c]], false)] else u.jobs
  {
    assert id in Elems(AddOrder(cfg, u, id, order).queues[order.giveChain]);
  }

  /** An arrival under the lock only waits. */
  lemma ArrivalWaits(cfg: Config, u: Unlocker, id: OrderId, order: OrderData)
    requires ValidConfig(cfg) && u.locked && order.giveChain in cfg.size
    ensures var v, c := AddOrder(cfg, u, id, order), order.giveChain;
            && v.locked && v.jobs == u.jobs && c in v.queues && id in v.queues[c]
  {
    assert id in Elems(AddOrder(cfg, u, id, order).queues[order.giveChain]);
  }

  /** Over every run: whenever the lock is free, whatever went before, the next order accepted for a
      chain with a full batch starts an unlock run for it. */
  lemma EveryArrivalRetries(cfg: Config, es: seq<Event>, id: OrderId, order: OrderData)
    requires ValidConfig(cfg) && Legal(cfg, INIT, es) && !Run(cfg, INIT, es).u.locked
    requires Enabled(cfg, Run(cfg, INIT, es), Arrive(id, order, true, true))
    ensures var u, c := Run(cfg, INIT, es).u, order.giveChain;
            var v := Step(cfg, Run(cfg, INIT, es), Arrive(id, order, true, true)).u;
            && (c in u.queues && |u.queues[c]| >= cfg.size[c] ==> v.jobs != [])
            && (v.jobs != [] <==> |v.queues[c]| >= cfg.size[c])
            && (v.jobs != [] ==> v.jobs == [Checking(c, v.queues[c][..cfg.size[c]], false)])
  {
    RunInv(cfg, INIT, es);
    var u := Run(cfg, INIT, es).u;
    ArrivalStartsIff(cfg, u, id, order);
  }

  // ---------------------------------------------------------------- what a failed batch leaves behind

  /** The unlocker after a send has failed and its run has come to its end. */
  ghost function AfterFailure(cfg: Config, u: Unlocker): Unlocker
    requires ValidConfig(cfg) && |u.jobs| == 1 && u.jobs[0].Sending? && u.jobs[0].chain in cfg.size
    requires |u.jobs[0].gone| < cfg.size[u.jobs[0].chain]
  {
    var performed := Resume(cfg, SendSettled(u, 0, false), 0);
    var stopped := Resume(cfg, performed, 0);
    if u.jobs[0].nested then Resume(cfg, stopped, 0) else stopped
  }

  /** A failed send stops the run: the lock is given back without another look at the queues, all
      orders of the batch still wait, and only those no longer Fulfilled are gone. */
  lemma FailureStops(cfg: Config, u: Unlocker)
    requires ValidConfig(cfg) && Exclusive(cfg, u) && PoolAgrees(u) && !u.exited
    requires u.jobs != [] && u.jobs[0].Sending?
    ensures var job := u.jobs[0];
            && job.chain in cfg.size && |job.gone| < cfg.size[job.chain] && job.chain in u.queues
            && var v := AfterFailure(cfg, u);
               && !v.locked && v.jobs == [] && v.chains == u.chains && v.exited == u.exited
               && v.queues == u.queues[job.chain := Without(u.queues[job.chain], Elems(job.gone))]
               && Elems(job.batch) <= Elems(v.queues[job.chain])
               && v.data == u.data - Elems(job.gone)
  {
    var job := u.jobs[0];
    assert job.gone + [] == job.gone;
    assert u.jobs[..0] + u.jobs[1..] == [];
  }

  /** So a batch that failed as a whole is tried again as soon as another order of its chain arrives. */
  lemma FailedBatchIsRetried(cfg: Config, u: Unlocker, id: OrderId, order: OrderData)
    requires ValidConfig(cfg) && Exclusive(cfg, u) && PoolAgrees(u) && !u.exited
    requires u.jobs != [] && u.jobs[0].Sending? && u.jobs[0].gone == [] && order.giveChain == u.jobs[0].chain
    ensures u.jobs[0].chain in cfg.size && 0 < cfg.size[u.jobs[0].chain]
    ensures var v, c := AddOrder(cfg, AfterFailure(cfg, u), id, order), order.giveChain;
            v.locked && c in v.queues && |v.queues[c]| >= cfg.size[c]
            && v.jobs == [Checking(c, v.queues[c][..cfg.size[c]], false)]
  {
    FailureStops(cfg, u);
    var job, v := u.jobs[0], AfterFailure(cfg, u);
    DistinctSize(job.batch);
    DistinctSize(v.queues[job.chain]);
    SubsetSize(Elems(job.batch), Elems(v.queues[job.chain]));
    ArrivalStartsIff(cfg, v, id, order);
    IncludeSize(v.queues[job.chain], id);
  }

  lemma SubsetSize<T>(a: set<T>, b: set<T>)
    requires a <= b
    ensures |a| <= |b|
  {
    assert b == a + (b - a);
  }

  lemma IncludeSize(s: seq<OrderId>, x: OrderId)
    ensures |Include(s, x)| >= |s|
  {
  }

  // ---------------------------------------------------------------- first come, first served

  /** Later is earlier with some orders taken out and at most one new order put at the end. */
  ghost predicate KeepsOrder(before: seq<OrderId>, after: seq<OrderId>) {
    exists gone, more :: |more| <= 1 && after == Without(before, gone) + more
  }

  ghost function QueueOf(u: Unlocker, c: ChainId): seq<OrderId> {
    if c in u.queues then u.queues[c] else []
  }

  lemma Unchanged(s: seq<OrderId>)
    ensures KeepsOrder(s, s)
  {
    WithoutNothing(s, {});
    var none: seq<OrderId> := [];
    assert s == Without(s, {}) + none;
  }

  lemma OneMoreAtTheEnd(s: seq<OrderId>, x: OrderId)
    ensures KeepsOrder(s, Include(s, x))
  {
    if x in s {
      Unchanged(s);
    } else {
      WithoutNothing(s, {});
      assert Include(s, x) == Without(s, {}) + [x];
    }
  }

  lemma SomeTakenOut(s: seq<OrderId>, gone: set<OrderId>)
    ensures KeepsOrder(s, Without(s, gone))
  {
    var none: seq<OrderId> := [];
    assert Without(s, gone) == Without(s, gone) + none;
  }

  lemma ArrivalKeepsOrder(cfg: Config, u: Unlocker, id: OrderId, order: OrderData, c: ChainId)
    requires ValidConfig(cfg)
    ensures var v := AddOrder(cfg, u, id, order); KeepsOrder(QueueOf(u, c), QueueOf(v, c)) && u.chains <= v.chains
  {
    if c == order.giveChain {
      OneMoreAtTheEnd(QueueOf(u, c), id);
    } else {
      Unchanged(QueueOf(u, c));
    }
  }

  lemma RemovalKeepsOrder(u: Unlocker, chain: ChainId, id: OrderId, c: ChainId)
    ensures var v := Remove(u, chain, id); KeepsOrder(QueueOf(u, c), QueueOf(v, c)) && v.chains == u.chains
  {
    Unchanged(QueueOf(u, c));
    SomeTakenOut(QueueOf(u, c), {id});
  }

  lemma ResumptionQueue(cfg: Config, u: Unlocker, k: nat, c: ChainId)
    requires ValidConfig(cfg) && k < |u.jobs| && CanResume(cfg, u.jobs[k])
    ensures var v, job := Resume(cfg, u, k), u.jobs[k];
            && v.chains == u.chains
            && QueueOf(v, c) == if job.Unlocked? && c == job.chain then Without(QueueOf(u, c), Elems(job.ids))
                                else QueueOf(u, c)
  {
  }

  lemma ResumptionKeepsOrder(cfg: Config, u: Unlocker, k: nat, c: ChainId)
    requires ValidConfig(cfg) && k < |u.jobs| && CanResume(cfg, u.jobs[k])
    ensures var v := Resume(cfg, u, k); KeepsOrder(QueueOf(u, c), QueueOf(v, c)) && v.chains == u.chains
  {
    ResumptionQueue(cfg, u, k, c);
    if u.jobs[k].Unlocked? {
      SomeTakenOut(QueueOf(u, c), Elems(u.jobs[k].ids));
    }
    Unchanged(QueueOf(u, c));
  }

  /** Every step keeps the order in which the orders of a chain came, and the order in which chains
      were first seen. */
  lemma StepKeepsOrder(cfg: Config, w: World, e: Event, c: ChainId)
    requires ValidConfig(cfg) && Enabled(cfg, w, e)
    ensures var v := Step(cfg, w, e);
            KeepsOrder(QueueOf(w.u, c), QueueOf(v.u, c)) && w.u.chains <= v.u.chains
  {
    Unchanged(QueueOf(w.u, c));
    match e
    case Arrive(id, order, _, _) => ArrivalKeepsOrder(cfg, w.u, id, order, c);
    case Forget(id) => RemovalKeepsOrder(w.u, cfg.takeChain, id, c);
    case Resumes(k) => ResumptionKeepsOrder(cfg, w.u, k, c);
    case _ =>
  }

  /** A removal under a chain with a queue makes that queue and the data forget the order, and touches
      nothing else; under any other chain it does nothing. */
  lemma RemovalIsExact(u: Unlocker, chain: ChainId, id: OrderId)
    ensures var v := Remove(u, chain, id);
            && (chain !in u.queues ==> v == u)
            && (chain in u.queues ==>
                  && v.queues.Keys == u.queues.Keys && id !in v.queues[chain] && id !in v.data
                  && (forall x :: x != id ==> (x in v.queues[chain] <==> x in u.queues[chain]))
                  && (forall x :: x != id && x in u.data ==> x in v.data && v.data[x] == u.data[x])
                  && (forall c :: c in u.queues && c != chain ==> v.queues[c] == u.queues[c])
                  && v.locked == u.locked && v.jobs == u.jobs && v.chains == u.chains)
  {
    if chain in u.queues {
      var q := Remove(u, chain, id).queues[chain];
      assert forall x :: x in q <==> x in Elems(q);
      assert forall x :: x in u.queues[chain] <==> x in Elems(u.queues[chain]);
    }
  }
}
