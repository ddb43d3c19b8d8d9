/** Whole runs of the batch unlocker: arrivals, order states and send outcomes interleave in any
    order, and the take chain may change under the unlocker's feet. */
module UnlockRuns {
  import opened Common
  import opened UnlockModel

  /** The unlocker, its environment and its history.
      `left`: orders that are no longer Fulfilled on the take chain, for good;
      `mark`: what `left` was when the current batch was picked;
      `accepted`: orders that ever entered the pool; `sent`: the successful batches;
      `dropped`: orders reported as no longer Fulfilled when their batch was handed over;
      `clean`: the last batch to end was a success;
      `late`: the chains whose queue an arrival has filled since the last peek found no full queue,
      as long as no removal has made it short again. */
  datatype World = World(
    u: Unlocker,
    left: set<OrderId>,
    mark: set<OrderId>,
    accepted: set<OrderId>,
    sent: seq<seq<OrderId>>,
    dropped: set<OrderId>,
    clean: bool,
    late: set<ChainId>)

  /** A request for an order state that throws is an unhandled rejection: the runtime decides whether
      the process survives it. */
  datatype Event =
    | Arrive(id: OrderId, order: OrderData, fulfilled: bool, ours: bool)
    | Forget(id: OrderId)
    | States(k: nat, flags: seq<bool>)
    | StatesThrew(k: nat, survives: bool)
    | Settled(k: nat, ok: bool)
    | Resumes(k: nat)
    | Leave(id: OrderId)

  const INIT := World(EMPTY, {}, {}, {}, [], {}, true, {})

  /** An order reported as Fulfilled had not left that state when the batch was picked. */
  ghost predicate Enabled(cfg: Config, w: World, e: Event) {
    && !w.u.exited
    && match e
       case Arrive(_, order, _, _) => order.giveChain in cfg.size
       case States(k, flags) =>
         && k < |w.u.jobs| && w.u.jobs[k].Checking? && |flags| == |w.u.jobs[k].batch|
         && forall i :: 0 <= i < |flags| && flags[i] ==> w.u.jobs[k].batch[i] !in w.mark
       case StatesThrew(k, _) => k < |w.u.jobs| && w.u.jobs[k].Checking?
       case Settled(k, _) => k < |w.u.jobs| && w.u.jobs[k].Sending?
       case Resumes(k) => k < |w.u.jobs| && CanResume(cfg, w.u.jobs[k])
       case _ => true
  }

  /** The last peek found no full queue, and the lock is about to be given back. */
  ghost predicate AtRelease(u: Unlocker) {
    u.jobs != [] && u.jobs[0].Releasing?
  }

  ghost function StillFull(cfg: Config, u: Unlocker, late: set<ChainId>): set<ChainId> {
    set c | c in late && IsFull(cfg, u.queues, c)
  }

  /** The chain of an arrival, if the arrival has filled its queue under the lock. */
  ghost function Filled(cfg: Config, before: Unlocker, after: Unlocker, c: ChainId): set<ChainId> {
    if AtRelease(before) && !IsFull(cfg, before.queues, c) && IsFull(cfg, after.queues, c) then {c} else {}
  }

  ghost function Step(cfg: Config, w: World, e: Event): World
    requires ValidConfig(cfg) && Enabled(cfg, w, e)
  {
    match e
    case Arrive(id, order, fulfilled, ours) =>
      if !(fulfilled && ours) then w else
      var u := AddOrder(cfg, w.u, id, order);
      var picked := u.jobs != w.u.jobs;
      w.(u := u, accepted := w.accepted + {id}, mark := if picked then w.left else w.mark,
         late := if picked then {} else w.late + Filled(cfg, w.u, u, order.giveChain))
    case Forget(id) =>
      var u := Remove(w.u, cfg.takeChain, id);
      w.(u := u, late := StillFull(cfg, u, w.late))
    case States(k, flags) => w.(u := Answered(w.u, k, flags))
    case StatesThrew(k, survives) => w.(u := CheckThrew(w.u, k).(exited := !survives))
    case Settled(k, ok) =>
      var job := w.u.jobs[k];
      w.(u := SendSettled(w.u, k, ok),
         left := w.left + (if ok then Elems(job.batch) else {}),
         sent := if ok then w.sent + [job.batch] else w.sent,
         dropped := w.dropped + Elems(job.gone))
    case Resumes(k) =>
      var job, u := w.u.jobs[k], Resume(cfg, w.u, k);
      if !job.Performed? then w.(u := u)
      else w.(u := u, mark := w.left, clean := job.success, late := {})
    case Leave(id) => w.(left := w.left + {id})
  }

  ghost predicate Legal(cfg: Config, w: World, es: seq<Event>)
    requires ValidConfig(cfg)
    decreases |es|
  {
    es == [] || (Enabled(cfg, w, es[0]) && Legal(cfg, Step(cfg, w, es[0]), es[1..]))
  }

  ghost function Run(cfg: Config, w: World, es: seq<Event>): World
    requires ValidConfig(cfg) && Legal(cfg, w, es)
    decreases |es|
  {
    if es == [] then w else Run(cfg, Step(cfg, w, es[0]), es[1..])
  }

  // ---------------------------------------------------------------- mutual exclusion

  ghost predicate Shape(cfg: Config, u: Unlocker) {
    && Distinct(u.chains)
    && Elems(u.chains) == u.queues.Keys <= cfg.size.Keys
    && forall c :: c in u.queues ==> Distinct(u.queues[c])
  }

  ghost predicate JobShape(cfg: Config, u: Unlocker, job: Job) {
    && (job.Performed? || job.Releasing? || (job.chain in u.queues && job.chain in cfg.size))
    && match job
       case Checking(c, batch, _) => Distinct(batch) && |batch| == cfg.size[c]
       case Sending(c, gone, batch, payload, _) =>
         && Distinct(gone) && Distinct(batch) && Elems(gone) !! Elems(batch)
         && |gone| + |batch| == cfg.size[c] && |payload| == |batch|
         && (batch == [] ==> u.exited)
       case Unlocked(c, ids, _) => Distinct(ids) && |ids| <= cfg.size[c]
       case _ => true
  }

  /** At most one unlock run is under way, and it holds the lock. */
  ghost predicate Exclusive(cfg: Config, u: Unlocker) {
    && Shape(cfg, u)
    && |u.jobs| <= 1
    && (u.jobs != [] ==> u.locked && JobShape(cfg, u, u.jobs[0]))
  }

  lemma SelectSplits(batch: seq<OrderId>, flags: seq<bool>)
    requires |flags| == |batch| && Distinct(batch)
    ensures Elems(Select(batch, flags, true)) !! Elems(Select(batch, flags, false))
    ensures Elems(Select(batch, flags, true)) + Elems(Select(batch, flags, false)) == Elems(batch)
    ensures |Select(batch, flags, true)| + |Select(batch, flags, false)| == |batch|
  {
  }

  lemma ArrivalExclusive(cfg: Config, u: Unlocker, id: OrderId, order: OrderData)
    requires ValidConfig(cfg) && Exclusive(cfg, u) && order.giveChain in cfg.size
    ensures Exclusive(cfg, AddOrder(cfg, u, id, order))
  {
  }

  lemma StatesExclusive(cfg: Config, u: Unlocker, k: nat, flags: seq<bool>)
    requires Exclusive(cfg, u) && k < |u.jobs| && u.jobs[k].Checking? && |flags| == |u.jobs[k].batch|
    ensures Exclusive(cfg, Answered(u, k, flags))
  {
    SelectSplits(u.jobs[k].batch, flags);
  }

  lemma CleanUpShape(cfg: Config, u: Unlocker, c: ChainId, ids: seq<OrderId>)
    requires Shape(cfg, u) && c in u.queues
    ensures Shape(cfg, CleanUp(u, c, ids))
  {
  }

  lemma CleanedDistinct(cfg: Config, u: Unlocker, job: Job, ok: bool)
    requires JobShape(cfg, u, job) && job.Sending?
    ensures Distinct(Cleaned(job, ok))
  {
    assert forall i :: 0 <= i < |job.gone| ==> job.gone[i] in Elems(job.gone);
    assert forall i :: 0 <= i < |job.batch| ==> job.batch[i] in Elems(job.batch);
  }

  lemma SettledExclusive(cfg: Config, u: Unlocker, k: nat, ok: bool)
    requires Exclusive(cfg, u) && k < |u.jobs| && u.jobs[k].Sending?
    ensures Exclusive(cfg, SendSettled(u, k, ok))
  {
    CleanedDistinct(cfg, u, u.jobs[k], ok);
  }

  lemma ResumeExclusive(cfg: Config, u: Unlocker, k: nat)
    requires ValidConfig(cfg) && Exclusive(cfg, u) && k < |u.jobs| && CanResume(cfg, u.jobs[k])
    ensures Exclusive(cfg, Resume(cfg, u, k))
  {
    if u.jobs[k].Unlocked? {
      CleanUpShape(cfg, u, u.jobs[k].chain, u.jobs[k].ids);
    }
  }

  lemma StepExclusive(cfg: Config, w: World, e: Event)
    requires ValidConfig(cfg) && Enabled(cfg, w, e) && Exclusive(cfg, w.u)
    ensures Exclusive(cfg, Step(cfg, w, e).u)
  {
    match e
    case Arrive(id, order, _, _) => ArrivalExclusive(cfg, w.u, id, order);
    case States(k, flags) => StatesExclusive(cfg, w.u, k, flags);
    case Settled(k, ok) => SettledExclusive(cfg, w.u, k, ok);
    case Resumes(k) => ResumeExclusive(cfg, w.u, k);
    case _ =>
  }

  // ---------------------------------------------------------------- at most one unlock per order

  ghost function Flat(batches: seq<seq<OrderId>>): set<OrderId> {
    if batches == [] then {} else Flat(batches[..|batches| - 1]) + Elems(batches[|batches| - 1])
  }

  ghost predicate Fresh(batches: seq<seq<OrderId>>) {
    batches == [] ||
    var n := |batches| - 1;
    Fresh(batches[..n]) && Distinct(batches[n]) && Elems(batches[n]) !! Flat(batches[..n])
  }

  ghost predicate NoOrderTwice(batches: seq<seq<OrderId>>) {
    && (forall i :: 0 <= i < |batches| ==> Distinct(batches[i]))
    && (forall i, j :: 0 <= i < j < |batches| ==> Elems(batches[i]) !! Elems(batches[j]))
  }

  lemma {:induction false} FlatContains(batches: seq<seq<OrderId>>, i: nat)
    requires i < |batches|
    ensures Elems(batches[i]) <= Flat(batches)
  {
    if i < |batches| - 1 {
      FlatContains(batches[..|batches| - 1], i);
    }
  }

  lemma {:induction false} FreshNeverTwice(batches: seq<seq<OrderId>>)
    requires Fresh(batches)
    ensures NoOrderTwice(batches)
  {
    if batches != [] {
      var n := |batches| - 1;
      FreshNeverTwice(batches[..n]);
      forall i | 0 <= i < n
        ensures Distinct(batches[i]) && Elems(batches[i]) !! Elems(batches[n])
      {
        assert batches[..n][i] == batches[i];
        FlatContains(batches[..n], i);
      }
      forall i, j | 0 <= i < j < n
        ensures Elems(batches[i]) !! Elems(batches[j])
      {
        assert batches[..n][i] == batches[i] && batches[..n][j] == batches[j];
      }
    }
  }

  ghost predicate SentOnce(w: World) {
    && Fresh(w.sent)
    && Flat(w.sent) <= w.left
    && (w.u.jobs != [] ==>
          match w.u.jobs[0]
          case Checking(_, _, _) => Flat(w.sent) <= w.mark
          case Sending(_, _, batch, _, _) => Flat(w.sent) !! Elems(batch)
          case _ => true)
  }

  lemma FreshExtended(batches: seq<seq<OrderId>>, batch: seq<OrderId>)
    requires Fresh(batches) && Distinct(batch) && Elems(batch) !! Flat(batches)
    ensures Fresh(batches + [batch]) && Flat(batches + [batch]) == Flat(batches) + Elems(batch)
  {
  }

  lemma StatesSentOnce(cfg: Config, w: World, k: nat, flags: seq<bool>)
    requires ValidConfig(cfg) && Enabled(cfg, w, States(k, flags)) && Exclusive(cfg, w.u) && SentOnce(w)
    ensures SentOnce(Step(cfg, w, States(k, flags)))
  {
  }

  lemma SettledSentOnce(cfg: Config, w: World, k: nat, ok: bool)
    requires ValidConfig(cfg) && Enabled(cfg, w, Settled(k, ok)) && Exclusive(cfg, w.u) && SentOnce(w)
    ensures SentOnce(Step(cfg, w, Settled(k, ok)))
  {
    FreshExtended(w.sent, w.u.jobs[k].batch);
  }

  lemma StepSentOnce(cfg: Config, w: World, e: Event)
    requires ValidConfig(cfg) && Enabled(cfg, w, e) && Exclusive(cfg, w.u) && SentOnce(w)
    ensures SentOnce(Step(cfg, w, e))
  {
    match e
    case States(k, flags) => StatesSentOnce(cfg, w, k, flags);
    case Settled(k, ok) => SettledSentOnce(cfg, w, k, ok);
    case _ =>
  }

  // ---------------------------------------------------------------- draining

  /** From the last peek on, and as long as the unlocker stays idle after a success, exactly the
      late queues are full. */
  ghost predicate Drained(cfg: Config, w: World) {
    (AtRelease(w.u) || !w.u.locked) && w.clean ==> forall c :: IsFull(cfg, w.u.queues, c) <==> c in w.late
  }

  lemma ArrivalDrained(cfg: Config, w: World, e: Event)
    requires ValidConfig(cfg) && Enabled(cfg, w, e) && Exclusive(cfg, w.u) && Drained(cfg, w) && e.Arrive?
    ensures Drained(cfg, Step(cfg, w, e))
  {
    if e.fulfilled && e.ours {
      var v, c := Step(cfg, w, e), e.order.giveChain;
      assert forall d :: d != c ==> (IsFull(cfg, v.u.queues, d) <==> IsFull(cfg, w.u.queues, d));
      assert IsFull(cfg, w.u.queues, c) ==> IsFull(cfg, v.u.queues, c);
    }
  }

  lemma RemovalDrained(cfg: Config, w: World, id: OrderId)
    requires ValidConfig(cfg) && Enabled(cfg, w, Forget(id)) && Exclusive(cfg, w.u) && Drained(cfg, w)
    ensures Drained(cfg, Step(cfg, w, Forget(id)))
  {
    var v := Step(cfg, w, Forget(id));
    assert forall c :: IsFull(cfg, v.u.queues, c) ==> IsFull(cfg, w.u.queues, c);
  }

  lemma StepDrained(cfg: Config, w: World, e: Event)
    requires ValidConfig(cfg) && Enabled(cfg, w, e) && Exclusive(cfg, w.u) && Drained(cfg, w)
    ensures Drained(cfg, Step(cfg, w, e))
  {
    match e
    case Arrive(_, _, _, _) => ArrivalDrained(cfg, w, e);
    case Forget(id) => RemovalDrained(cfg, w, id);
    case Resumes(k) =>
      if w.u.jobs[k].Performed? && w.u.jobs[k].success {
        FinalPeek(cfg, w, k);
      }
    case _ =>
  }

  /** The peek after a successful batch: the unlock goes on with a full queue exactly when there is
      one, and else the lock is about to be given back. */
  lemma FinalPeek(cfg: Config, w: World, k: nat)
    requires ValidConfig(cfg) && Enabled(cfg, w, Resumes(k)) && Exclusive(cfg, w.u)
    requires w.u.jobs[k].Performed? && w.u.jobs[k].success
    ensures var u := Step(cfg, w, Resumes(k)).u;
            && u.queues == w.u.queues && |u.jobs| == 1
            && (if exists c :: IsFull(cfg, u.queues, c)
                then u.jobs[0].Checking? && IsFull(cfg, u.queues, u.jobs[0].chain)
                else u.jobs[0].Releasing?)
  {
    if c :| IsFull(cfg, w.u.queues, c) {
      assert c in Elems(w.u.chains);
    }
  }

  ghost predicate Inv(cfg: Config, w: World) {
    Exclusive(cfg, w.u) && SentOnce(w) && Drained(cfg, w)
  }

  lemma StepInv(cfg: Config, w: World, e: Event)
    requires ValidConfig(cfg) && Enabled(cfg, w, e) && Inv(cfg, w)
    ensures Inv(cfg, Step(cfg, w, e))
  {
    StepExclusive(cfg, w, e);
    StepSentOnce(cfg, w, e);
    StepDrained(cfg, w, e);
  }

  lemma {:induction false} RunInv(cfg: Config, w: World, es: seq<Event>)
    requires ValidConfig(cfg) && Inv(cfg, w) && Legal(cfg, w, es)
    ensures Inv(cfg, Run(cfg, w, es))
    decreases |es|
  {
    if es != [] {
      StepInv(cfg, w, es[0]);
      RunInv(cfg, Step(cfg, w, es[0]), es[1..]);
    }
  }

  /** Over every run, whatever arrives, whatever the checks answer and however sends end: one batch
      at a time under the lock; no order in two successful batches; and an unlocker idle after a
      success leaves a full queue exactly if an arrival filled it between the last peek and the
      release of the lock. */
  lemma EveryRun(cfg: Config, es: seq<Event>)
    requires ValidConfig(cfg) && Legal(cfg, INIT, es)
    ensures var w := Run(cfg, INIT, es);
            && |w.u.jobs| <= 1 && (w.u.jobs != [] ==> w.u.locked)
            && NoOrderTwice(w.sent)
            && w.u.queues.Keys <= cfg.size.Keys
            && (!w.u.locked && w.clean ==> forall c :: IsFull(cfg, w.u.queues, c) <==> c in w.late)
  {
    RunInv(cfg, INIT, es);
    FreshNeverTwice(Run(cfg, INIT, es).sent);
  }

  /** The gap: an order that fills its queue after the last peek is not unlocked. It finds the lock
      held, and the lock is then given back over a full queue. */
  lemma LateArrivalIsLeft(cfg: Config, w: World, id: OrderId, order: OrderData)
    requires ValidConfig(cfg) && Inv(cfg, w) && !w.u.exited && AtRelease(w.u) && order.giveChain in cfg.size
    requires var c := order.giveChain;
             !IsFull(cfg, w.u.queues, c)
             && IsFull(cfg, Enqueue(w.u, id, order).queues, c)
    ensures var a := Arrive(id, order, true, true);
            && Enabled(cfg, w, a) && Enabled(cfg, Step(cfg, w, a), Resumes(0))
            && var v := Step(cfg, Step(cfg, w, a), Resumes(0));
               && v.clean == w.clean && !v.u.locked && v.u.jobs == []
               && IsFull(cfg, v.u.queues, order.giveChain) && order.giveChain in v.late
  {
  }

  // ---------------------------------------------------------------- a backlog left behind

  ghost predicate Reaches(cfg: Config, v: World)
    requires ValidConfig(cfg)
  {
    exists es :: Legal(cfg, INIT, es) && Run(cfg, INIT, es) == v
  }

  lemma {:induction false} RunFurther(cfg: Config, w: World, es: seq<Event>, e: Event)
    requires ValidConfig(cfg) && Legal(cfg, w, es) && Enabled(cfg, Run(cfg, w, es), e)
    ensures Legal(cfg, w, es + [e]) && Run(cfg, w, es + [e]) == Step(cfg, Run(cfg, w, es), e)
    decreases |es|
  {
    if es == [] {
      assert [e][1..] == [];
    } else {
      assert (es + [e])[1..] == es[1..] + [e];
      RunFurther(cfg, Step(cfg, w, es[0]), es[1..], e);
    }
  }

  lemma ReachFurther(cfg: Config, v: World, e: Event)
    requires ValidConfig(cfg) && Reaches(cfg, v) && Enabled(cfg, v, e)
    ensures Reaches(cfg, Step(cfg, v, e))
  {
    var es :| Legal(cfg, INIT, es) && Run(cfg, INIT, es) == v;
    RunFurther(cfg, INIT, es, e);
  }

  const SINGLES := Config(1, map[2 := 1])
  const DATA := OrderData(2, "")

  ghost function Empty(locked: bool, jobs: seq<Job>): Unlocker {
    Unlocker([2], map[2 := []], map[], locked, jobs, false)
  }

  ghost function One(x: OrderId, locked: bool, jobs: seq<Job>): Unlocker {
    Unlocker([2], map[2 := [x]], map[x := DATA], locked, jobs, false)
  }

  // The scenario: x is picked, handed over, sent, cleaned up; the peek finds nothing; y arrives.

  ghost function Picked(x: OrderId): World {
    World(One(x, true, [Checking(2, [x], false)]), {}, {}, {x}, [], {}, true, {})
  }

  ghost function HandedOver(x: OrderId): World {
    World(One(x, true, [Sending(2, [], [x], [Some(DATA)], false)]), {}, {}, {x}, [], {}, true, {})
  }

  ghost function Sent(x: OrderId): World {
    World(One(x, true, [Unlocked(2, [x], false)]), {x}, {}, {x}, [[x]], {}, true, {})
  }

  ghost function CleanedUp(x: OrderId): World {
    World(Empty(true, [Performed(true, false)]), {x}, {}, {x}, [[x]], {}, true, {})
  }

  ghost function Peeked(x: OrderId): World {
    World(Empty(true, [Releasing]), {x}, {x}, {x}, [[x]], {}, true, {})
  }

  ghost function Overtaken(x: OrderId, y: OrderId): World {
    World(One(y, true, [Releasing]), {x}, {x}, {x, y}, [[x]], {}, true, {2})
  }

  ghost function LeftBehind(x: OrderId, y: OrderId): World {
    World(One(y, false, []), {x}, {x}, {x, y}, [[x]], {}, true, {2})
  }

  ghost predicate Leads(cfg: Config, w: World, e: Event, v: World)
    requires ValidConfig(cfg)
  {
    Enabled(cfg, w, e) && Step(cfg, w, e) == v
  }

  lemma ReachNext(cfg: Config, w: World, e: Event, v: World)
    requires ValidConfig(cfg) && Reaches(cfg, w) && Leads(cfg, w, e, v)
    ensures Reaches(cfg, v)
  {
    ReachFurther(cfg, w, e);
  }

  lemma ReachPicked(x: OrderId)
    ensures Reaches(SINGLES, Picked(x))
  {
    assert Legal(SINGLES, INIT, []) && Run(SINGLES, INIT, []) == INIT;
    assert Leads(SINGLES, INIT, Arrive(x, DATA, true, true), Picked(x)) by {
      assert Include([], x) == [x];
      assert Enqueue(EMPTY, x, DATA) == One(x, false, []);
      assert [x][..1] == [x];
    }
    ReachNext(SINGLES, INIT, Arrive(x, DATA, true, true), Picked(x));
  }

  lemma OneHandedOver(x: OrderId)
    ensures Select([x], [true], true) == [x] && Select([x], [true], false) == []
    ensures Payload(map[x := DATA], [x]) == [Some(DATA)]
  {
    assert [x][..0] == [] && [true][..0] == [];
    assert Select([x], [true], true) == [] + [x];
  }

  lemma OneAnswered(x: OrderId)
    ensures Answered(Picked(x).u, 0, [true]) == HandedOver(x).u
  {
    OneHandedOver(x);
  }

  lemma LeadsToHandedOver(x: OrderId)
    ensures Leads(SINGLES, Picked(x), States(0, [true]), HandedOver(x))
  {
    OneAnswered(x);
  }

  lemma ReachHandedOver(x: OrderId)
    ensures Reaches(SINGLES, HandedOver(x))
  {
    ReachPicked(x);
    LeadsToHandedOver(x);
    ReachNext(SINGLES, Picked(x), States(0, [true]), HandedOver(x));
  }

  lemma ReachSent(x: OrderId)
    ensures Reaches(SINGLES, Sent(x))
  {
    ReachHandedOver(x);
    assert Leads(SINGLES, HandedOver(x), Settled(0, true), Sent(x)) by {
      assert Elems([x]) == {x} && Elems<OrderId>([]) == {};
      assert Cleaned(HandedOver(x).u.jobs[0], true) == [x];
      assert SendSettled(HandedOver(x).u, 0, true) == Sent(x).u;
    }
    ReachNext(SINGLES, HandedOver(x), Settled(0, true), Sent(x));
  }

  lemma ReachCleanedUp(x: OrderId)
    ensures Reaches(SINGLES, CleanedUp(x))
  {
    ReachSent(x);
    assert Leads(SINGLES, Sent(x), Resumes(0), CleanedUp(x)) by {
      assert Elems([x]) == {x};
      assert [x][1..] == [] && Without([x], {x}) == [];
      assert map[x := DATA] - {x} == map[];
      assert CleanUp(Sent(x).u, 2, [x]).queues == map[2 := []];
    }
    ReachNext(SINGLES, Sent(x), Resumes(0), CleanedUp(x));
  }

  lemma ReachPeeked(x: OrderId)
    ensures Reaches(SINGLES, Peeked(x))
  {
    ReachCleanedUp(x);
    assert Leads(SINGLES, CleanedUp(x), Resumes(0), Peeked(x)) by {
      assert PeekNext(SINGLES, [2], map[2 := []]) == None;
    }
    ReachNext(SINGLES, CleanedUp(x), Resumes(0), Peeked(x));
  }

  lemma ReachOvertaken(x: OrderId, y: OrderId)
    ensures Reaches(SINGLES, Overtaken(x, y))
  {
    ReachPeeked(x);
    var a := Arrive(y, DATA, true, true);
    assert Leads(SINGLES, Peeked(x), a, Overtaken(x, y)) by {
      var u := Enqueue(Empty(true, [Releasing]), y, DATA);
      assert Include([], y) == [y];
      assert u.queues == map[2 := [y]];
      assert u == One(y, true, [Releasing]);
      assert {x} + {y} == {x, y};
    }
    ReachNext(SINGLES, Peeked(x), a, Overtaken(x, y));
  }

  /** The gap is reached: with batches of one, an order that arrives just before the lock is given
      back waits in a full queue while the unlocker is idle, its last batch a success. */
  lemma FullQueueLeftBehind(x: OrderId, y: OrderId)
    ensures Reaches(SINGLES, LeftBehind(x, y))
    ensures var w := LeftBehind(x, y); !w.u.locked && w.u.jobs == [] && w.clean && IsFull(SINGLES, w.u.queues, 2)
  {
    ReachOvertaken(x, y);
    ReachNext(SINGLES, Overtaken(x, y), Resumes(0), LeftBehind(x, y));
  }

  // ---------------------------------------------------------------- agreement of the two maps

  ghost function Queued(queues: map<ChainId, seq<OrderId>>, c: ChainId): set<OrderId> {
    if c in queues then Elems(queues[c]) else {}
  }

  /** Every queued order has its data, every datum is queued, each in its own give chain's queue. */
  ghost predicate Agree(queues: map<ChainId, seq<OrderId>>, data: map<OrderId, OrderData>) {
    && (forall c, id :: id in Queued(queues, c) ==> id in data && data[id].giveChain == c)
    && (forall id :: id in data ==> id in Queued(queues, data[id].giveChain))
  }

  lemma EnqueueAgrees(u: Unlocker, id: OrderId, order: OrderData)
    requires Agree(u.queues, u.data) && (id !in u.data || u.data[id].giveChain == order.giveChain)
    ensures var v := Enqueue(u, id, order); Agree(v.queues, v.data)
  {
    var v, c := Enqueue(u, id, order), order.giveChain;
    assert forall d :: Queued(v.queues, d) == Queued(u.queues, d) + if d == c then {id} else {};
    forall d, x | x in Queued(v.queues, d)
      ensures x in v.data && v.data[x].giveChain == d
    {
      assert x in Queued(u.queues, d) || (x == id && d == c);
    }
  }

  lemma EnqueueSplits(u: Unlocker, id: OrderId, order: OrderData)
    requires Agree(u.queues, u.data) && id in u.data && u.data[id].giveChain != order.giveChain
    ensures var v := Enqueue(u, id, order); !Agree(v.queues, v.data)
  {
    var v, d := Enqueue(u, id, order), u.data[id].giveChain;
    assert id in Queued(v.queues, d) && v.data[id] == order;
  }

  /** An arrival keeps the maps in agreement exactly when the order is new to the pool or
      already waits under the same give chain. */
  lemma AddOrderAgreesIff(cfg: Config, u: Unlocker, id: OrderId, order: OrderData)
    requires ValidConfig(cfg) && Agree(u.queues, u.data)
    ensures var v := AddOrder(cfg, u, id, order);
            Agree(v.queues, v.data) <==> id !in u.data || u.data[id].giveChain == order.giveChain
  {
    if id !in u.data || u.data[id].giveChain == order.giveChain {
      EnqueueAgrees(u, id, order);
    } else {
      EnqueueSplits(u, id, order);
    }
  }

  /** Removal is keyed by the take chain. It keeps the maps in agreement exactly when no queue has
      that key, or the order is unknown, or the order's give chain is the take chain itself. */
  lemma RemoveAgreesIff(u: Unlocker, chain: ChainId, id: OrderId)
    requires Agree(u.queues, u.data)
    ensures var v := Remove(u, chain, id);
            Agree(v.queues, v.data) <==> chain !in u.queues || id !in u.data || u.data[id].giveChain == chain
  {
    if chain in u.queues {
      if id in u.data && u.data[id].giveChain != chain {
        RemoveSplits(u, chain, id);
      } else {
        RemoveAgrees(u, chain, id);
      }
    }
  }

  lemma RemoveAgrees(u: Unlocker, chain: ChainId, id: OrderId)
    requires Agree(u.queues, u.data) && chain in u.queues && (id !in u.data || u.data[id].giveChain == chain)
    ensures var v := Remove(u, chain, id); Agree(v.queues, v.data)
  {
    var v := Remove(u, chain, id);
    assert forall d :: Queued(v.queues, d) == Queued(u.queues, d) - if d == chain then {id} else {};
    forall d, x | x in Queued(v.queues, d)
      ensures x in v.data && v.data[x].giveChain == d
    {
      assert x in Queued(u.queues, d);
    }
  }

  lemma RemoveSplits(u: Unlocker, chain: ChainId, id: OrderId)
    requires Agree(u.queues, u.data) && chain in u.queues && id in u.data && u.data[id].giveChain != chain
    ensures var v := Remove(u, chain, id); !Agree(v.queues, v.data)
  {
    assert id in Queued(Remove(u, chain, id).queues, u.data[id].giveChain);
  }

  /** What an arrival must satisfy for the maps to agree along a run: the give chain is not the
      take chain, and an id in the pool comes back with the order it stands for. */
  ghost predicate Proper(cfg: Config, w: World, e: Event) {
    e.Arrive? ==> e.order.giveChain != cfg.takeChain && (e.id in w.u.data ==> w.u.data[e.id] == e.order)
  }

  ghost predicate AllProper(cfg: Config, w: World, es: seq<Event>)
    requires ValidConfig(cfg) && Legal(cfg, w, es)
    decreases |es|
  {
    es == [] || (Proper(cfg, w, es[0]) && AllProper(cfg, Step(cfg, w, es[0]), es[1..]))
  }

  /** The sender was given the data of each order in flight. */
  ghost predicate Supplied(data: map<OrderId, OrderData>, batch: seq<OrderId>, payload: seq<Option<OrderData>>) {
    && |payload| == |batch|
    && forall i :: 0 <= i < |batch| ==> batch[i] in data && payload[i] == Some(data[batch[i]])
  }

  /** The orders in flight, or to be deleted, still wait in the queue of the batch's chain. */
  ghost predicate JobAgrees(queues: map<ChainId, seq<OrderId>>, data: map<OrderId, OrderData>, job: Job) {
    match job
    case Checking(c, batch, _) => Elems(batch) <= Queued(queues, c)
    case Sending(c, gone, batch, payload, _) =>
      Elems(batch) <= Queued(queues, c) && Elems(gone) <= Queued(queues, c) && Supplied(data, batch, payload)
    case Unlocked(c, ids, _) => Elems(ids) <= Queued(queues, c)
    case _ => true
  }

  ghost predicate PoolAgrees(u: Unlocker) {
    && Agree(u.queues, u.data)
    && (u.jobs != [] ==> JobAgrees(u.queues, u.data, u.jobs[0]))
  }

  ghost predicate Agreement(cfg: Config, w: World) {
    PoolAgrees(w.u) && cfg.takeChain !in w.u.queues
  }

  lemma PickAgrees(cfg: Config, u: Unlocker, c: ChainId, nested: bool)
    requires ValidConfig(cfg) && IsFull(cfg, u.queues, c)
    ensures JobAgrees(u.queues, u.data, Pick(cfg, u.queues, c, nested))
  {
  }

  lemma ArrivalAgrees(cfg: Config, u: Unlocker, id: OrderId, order: OrderData)
    requires ValidConfig(cfg) && Exclusive(cfg, u) && PoolAgrees(u) && (id in u.data ==> u.data[id] == order)
    ensures PoolAgrees(AddOrder(cfg, u, id, order))
  {
    AddOrderAgreesIff(cfg, u, id, order);
    var v := AddOrder(cfg, u, id, order);
    if u.jobs != [] {
      assert v.jobs == u.jobs;
      StillAgrees(u.queues, u.data, v.queues, v.data, u.jobs[0]);
    } else if v.jobs != [] {
      PickAgrees(cfg, v, order.giveChain, false);
    }
  }

  lemma StillAgrees(
    queues: map<ChainId, seq<OrderId>>, data: map<OrderId, OrderData>,
    more: map<ChainId, seq<OrderId>>, known: map<OrderId, OrderData>, job: Job)
    requires JobAgrees(queues, data, job)
    requires forall c :: Queued(queues, c) <= Queued(more, c)
    requires forall id :: id in data ==> id in known && known[id] == data[id]
    ensures JobAgrees(more, known, job)
  {
  }

  lemma StatesAgree(cfg: Config, u: Unlocker, k: nat, flags: seq<bool>)
    requires Exclusive(cfg, u) && PoolAgrees(u)
    requires k < |u.jobs| && u.jobs[k].Checking? && |flags| == |u.jobs[k].batch|
    ensures PoolAgrees(Answered(u, k, flags))
  {
  }

  lemma CleanUpAgrees(u: Unlocker, c: ChainId, ids: seq<OrderId>)
    requires Agree(u.queues, u.data) && c in u.queues && Elems(ids) <= Queued(u.queues, c)
    ensures var v := CleanUp(u, c, ids); Agree(v.queues, v.data)
  {
    var v, gone := CleanUp(u, c, ids), Elems(ids);
    assert forall d :: Queued(v.queues, d) == if d == c then Queued(u.queues, c) - gone else Queued(u.queues, d);
    assert forall x :: x in gone ==> x in Queued(u.queues, c);
    forall d, x | x in Queued(v.queues, d)
      ensures x in v.data && v.data[x].giveChain == d
    {
      assert x in Queued(u.queues, d);
      assert x !in gone;
    }
  }

  lemma SettledAgrees(u: Unlocker, k: nat, ok: bool)
    requires PoolAgrees(u) && |u.jobs| == 1 && k < |u.jobs| && u.jobs[k].Sending?
    ensures PoolAgrees(SendSettled(u, k, ok))
  {
  }

  lemma ResumeAgrees(cfg: Config, u: Unlocker, k: nat)
    requires ValidConfig(cfg) && Exclusive(cfg, u) && PoolAgrees(u) && k < |u.jobs| && CanResume(cfg, u.jobs[k])
    ensures PoolAgrees(Resume(cfg, u, k))
  {
    match u.jobs[k]
    case Unlocked(c, ids, _) => CleanUpAgrees(u, c, ids);
    case Performed(_, _) =>
      var v := GoOn(cfg, u, k);
      if v.jobs != [] && v.jobs[0].Checking? {
        PickAgrees(cfg, u, v.jobs[0].chain, true);
      }
    case Releasing =>
  }

  lemma StepAgreement(cfg: Config, w: World, e: Event)
    requires ValidConfig(cfg) && Enabled(cfg, w, e) && Exclusive(cfg, w.u) && Proper(cfg, w, e)
    requires Agreement(cfg, w)
    ensures Agreement(cfg, Step(cfg, w, e))
  {
    match e
    case Arrive(id, order, fulfilled, ours) =>
      if fulfilled && ours {
        ArrivalAgrees(cfg, w.u, id, order);
      }
    case States(k, flags) => StatesAgree(cfg, w.u, k, flags);
    case Settled(k, ok) => SettledAgrees(w.u, k, ok);
    case Resumes(k) => ResumeAgrees(cfg, w.u, k);
    case _ =>
  }

  /** While its order states are awaited, the batch is the head of its queue: first in, first out. */
  ghost predicate Oldest(u: Unlocker) {
    u.jobs != [] && u.jobs[0].Checking? ==>
      u.jobs[0].chain in u.queues && u.jobs[0].batch <= u.queues[u.jobs[0].chain]
  }

  lemma ArrivalOldest(cfg: Config, u: Unlocker, id: OrderId, order: OrderData)
    requires ValidConfig(cfg) && Exclusive(cfg, u) && Oldest(u)
    ensures Oldest(AddOrder(cfg, u, id, order))
  {
  }

  lemma StepOldest(cfg: Config, w: World, e: Event)
    requires ValidConfig(cfg) && Enabled(cfg, w, e) && Exclusive(cfg, w.u) && Agreement(cfg, w) && Oldest(w.u)
    ensures Oldest(Step(cfg, w, e).u)
  {
    match e
    case Arrive(id, order, _, _) => ArrivalOldest(cfg, w.u, id, order);
    case _ =>
  }

  // ---------------------------------------------------------------- no order is lost

  /** Every order that entered the pool is still there, or was unlocked, or was seen not Fulfilled;
      and only orders of the last two kinds are about to be deleted. */
  ghost predicate NothingLost(w: World) {
    && w.accepted <= w.u.data.Keys + Flat(w.sent) + w.dropped
    && (w.u.jobs != [] && w.u.jobs[0].Unlocked? ==> Elems(w.u.jobs[0].ids) <= Flat(w.sent) + w.dropped)
  }

  /** The only way out of the pool is the clean-up of a batch the order was in. */
  lemma OnlyCleanUpRemoves(cfg: Config, w: World, e: Event, id: OrderId)
    requires ValidConfig(cfg) && Enabled(cfg, w, e) && Proper(cfg, w, e) && Agreement(cfg, w)
    requires id in w.u.data
    ensures var v := Step(cfg, w, e);
            && (id !in v.u.data <==> e.Resumes? && w.u.jobs[e.k].Unlocked? && id in w.u.jobs[e.k].ids)
            && (id in v.u.data ==> v.u.data[id] == w.u.data[id])
  {
    if e.Resumes? && w.u.jobs[e.k].Unlocked? {
      var ids := w.u.jobs[e.k].ids;
      assert id in ids <==> id in Elems(ids);
    }
  }

  lemma SettledNothingLost(cfg: Config, w: World, k: nat, ok: bool)
    requires ValidConfig(cfg) && Enabled(cfg, w, Settled(k, ok)) && Exclusive(cfg, w.u) && NothingLost(w)
    ensures NothingLost(Step(cfg, w, Settled(k, ok)))
  {
    var v, job := Step(cfg, w, Settled(k, ok)), w.u.jobs[k];
    assert (w.sent + [job.batch])[..|w.sent|] == w.sent;
    assert Elems(Cleaned(job, ok)) == Elems(job.gone) + if ok then Elems(job.batch) else {};
  }

  lemma ResumeNothingLost(cfg: Config, w: World, k: nat)
    requires ValidConfig(cfg) && Enabled(cfg, w, Resumes(k)) && Exclusive(cfg, w.u) && NothingLost(w)
    ensures NothingLost(Step(cfg, w, Resumes(k)))
  {
  }

  lemma StepNothingLost(cfg: Config, w: World, e: Event)
    requires ValidConfig(cfg) && Enabled(cfg, w, e) && Exclusive(cfg, w.u) && Agreement(cfg, w) && NothingLost(w)
    ensures NothingLost(Step(cfg, w, e))
  {
    match e
    case Settled(k, ok) => SettledNothingLost(cfg, w, k, ok);
    case Resumes(k) => ResumeNothingLost(cfg, w, k);
    case _ =>
  }

  lemma {:induction false} RunAgreement(cfg: Config, w: World, es: seq<Event>)
    requires ValidConfig(cfg) && Legal(cfg, w, es) && AllProper(cfg, w, es)
    requires Inv(cfg, w) && Agreement(cfg, w) && Oldest(w.u) && NothingLost(w)
    ensures var v := Run(cfg, w, es); Inv(cfg, v) && Agreement(cfg, v) && Oldest(v.u) && NothingLost(v)
    decreases |es|
  {
    if es != [] {
      StepInv(cfg, w, es[0]);
      StepAgreement(cfg, w, es[0]);
      StepOldest(cfg, w, es[0]);
      StepNothingLost(cfg, w, es[0]);
      RunAgreement(cfg, Step(cfg, w, es[0]), es[1..]);
    }
  }

  /** A batch fit for the sender: duplicate-free, within bounds, with data for every order, and
      all of it from one give chain. */
  ghost predicate FitToSend(job: Job) {
    && job.Sending?
    && Distinct(job.batch) && 1 <= |job.batch| <= (if job.chain == SOLANA then 7 else 10)
    && |job.payload| == |job.batch|
    && forall i :: 0 <= i < |job.batch| ==> job.payload[i].Some? && job.payload[i].value.giveChain == job.chain
  }

  /** Over every run of cross-chain orders: no order is lost, both maps agree, every batch is the
      oldest of its queue when picked, and every batch handed to the sender is fit, with the data
      of each of its orders as the pool has it. */
  lemma EveryProperRun(cfg: Config, es: seq<Event>)
    requires ValidConfig(cfg) && Legal(cfg, INIT, es) && AllProper(cfg, INIT, es)
    ensures var w := Run(cfg, INIT, es);
            && Agree(w.u.queues, w.u.data) && NothingLost(w) && Oldest(w.u)
            && forall k :: 0 <= k < |w.u.jobs| && w.u.jobs[k].Sending? && !w.u.exited ==>
                 FitToSend(w.u.jobs[k]) && Supplied(w.u.data, w.u.jobs[k].batch, w.u.jobs[k].payload)
  {
    RunAgreement(cfg, INIT, es);
    var w := Run(cfg, INIT, es);
    if w.u.jobs != [] && w.u.jobs[0].Sending? && !w.u.exited {
      InFlightFit(cfg, w.u, w.u.jobs[0]);
    }
  }

  lemma InFlightFit(cfg: Config, u: Unlocker, job: Job)
    requires ValidConfig(cfg) && JobShape(cfg, u, job) && !u.exited
    requires Agree(u.queues, u.data) && JobAgrees(u.queues, u.data, job) && job.Sending?
    ensures FitToSend(job)
  {
  }

  // ---------------------------------------------------------------- draining terminates

  /** How far an unlock run is from its end, not counting further batches. */
  ghost function Distance(jobs: seq<Job>): nat {
    if jobs == [] then 0
    else
      match jobs[0]
      case Checking(_, _, _) => 5
      case Sending(_, _, _, _, _) => 4
      case Unlocked(_, _, _) => 3
      case Performed(success, _) => if success then 6 else 2
      case Releasing => 1
  }

  ghost function Potential(u: Unlocker): nat {
    4 * |u.data| + Distance(u.jobs)
  }

  /** A settled send leaves the whole batch size to delete if it succeeded, and only the orders no
      longer Fulfilled if it failed. */
  lemma SettledSize(cfg: Config, u: Unlocker, k: nat, ok: bool)
    requires Exclusive(cfg, u) && k < |u.jobs| && u.jobs[k].Sending?
    ensures var ids := SendSettled(u, k, ok).jobs[k].ids;
            |ids| == if ok then cfg.size[u.jobs[k].chain] else |u.jobs[k].gone|
  {
  }

  /** The clean-up shrinks the pool by exactly the orders it was handed, and only if they make up a
      whole batch does the unlock go on. */
  lemma CleanUpShrinks(cfg: Config, u: Unlocker, k: nat)
    requires ValidConfig(cfg) && Exclusive(cfg, u) && PoolAgrees(u)
    requires k < |u.jobs| && u.jobs[k].Unlocked? && u.jobs[k].chain in cfg.size
    ensures var v, job := Resume(cfg, u, k), u.jobs[k];
            && |v.data| == |u.data| - |job.ids|
            && v.jobs == [Performed(|job.ids| == cfg.size[job.chain], job.nested)]
            && ((exists c :: c in GoOn(cfg, v, 0).jobs && c.Checking?) ==> |job.ids| == cfg.size[job.chain])
  {
    var job := u.jobs[k];
    QueuedInPool(u, job.chain, Elems(job.ids));
    RemovingShrinks(u.data, Elems(job.ids));
    DistinctSize(job.ids);
  }

  lemma RemovingShrinks(data: map<OrderId, OrderData>, ids: set<OrderId>)
    requires ids <= data.Keys
    ensures |data - ids| == |data| - |ids|
  {
    assert (data - ids).Keys == data.Keys - ids;
  }

  lemma QueuedInPool(u: Unlocker, c: ChainId, ids: set<OrderId>)
    requires Agree(u.queues, u.data) && ids <= Queued(u.queues, c)
    ensures ids <= u.data.Keys
  {
  }

  /** The steps of an unlock run itself. */
  ghost predicate IsUnlockStep(e: Event) {
    e.States? || e.StatesThrew? || e.Settled? || e.Resumes?
  }

  lemma ArrivalPotential(cfg: Config, u: Unlocker, id: OrderId, order: OrderData)
    requires ValidConfig(cfg) && Exclusive(cfg, u)
    ensures Potential(AddOrder(cfg, u, id, order)) <= Potential(u) + 9
  {
  }

  lemma PerformPotential(cfg: Config, u: Unlocker, k: nat)
    requires ValidConfig(cfg) && Exclusive(cfg, u) && PoolAgrees(u)
    requires k < |u.jobs| && u.jobs[k].Unlocked? && u.jobs[k].chain in cfg.size
    ensures Potential(Resume(cfg, u, k)) < Potential(u)
  {
    CleanUpShrinks(cfg, u, k);
  }

  lemma ResumePotential(cfg: Config, u: Unlocker, k: nat)
    requires ValidConfig(cfg) && Exclusive(cfg, u) && PoolAgrees(u) && k < |u.jobs| && CanResume(cfg, u.jobs[k])
    ensures Potential(Resume(cfg, u, k)) < Potential(u)
  {
    if u.jobs[k].Unlocked? {
      PerformPotential(cfg, u, k);
    }
  }

  lemma StepPotential(cfg: Config, w: World, e: Event)
    requires ValidConfig(cfg) && Enabled(cfg, w, e) && Proper(cfg, w, e)
    requires Exclusive(cfg, w.u) && Agreement(cfg, w)
    ensures Potential(Step(cfg, w, e).u) + (if IsUnlockStep(e) then 1 else 0)
            <= Potential(w.u) + if e.Arrive? then 9 else 0
  {
    match e
    case Arrive(id, order, _, _) => ArrivalPotential(cfg, w.u, id, order);
    case Resumes(k) => ResumePotential(cfg, w.u, k);
    case _ =>
  }

  ghost function Unlocks(es: seq<Event>): nat {
    if es == [] then 0 else (if IsUnlockStep(es[0]) then 1 else 0) + Unlocks(es[1..])
  }

  ghost function Arrivals(es: seq<Event>): nat {
    if es == [] then 0 else (if es[0].Arrive? then 1 else 0) + Arrivals(es[1..])
  }

  /** However events interleave, the unlocker takes at most a fixed number of steps for what was
      queued at the start and nine for each arrival: with no more arrivals it comes to rest. */
  lemma {:induction false} DrainingTerminates(cfg: Config, w: World, es: seq<Event>)
    requires ValidConfig(cfg) && Legal(cfg, w, es) && AllProper(cfg, w, es)
    requires Inv(cfg, w) && Agreement(cfg, w)
    ensures Unlocks(es) + Potential(Run(cfg, w, es).u) <= Potential(w.u) + 9 * Arrivals(es)
    decreases |es|
  {
    if es != [] {
      StepInv(cfg, w, es[0]);
      StepAgreement(cfg, w, es[0]);
      StepPotential(cfg, w, es[0]);
      DrainingTerminates(cfg, Step(cfg, w, es[0]), es[1..]);
    }
  }

  /** A live process with an unlock run under way always has a next step of that run at hand. */
  lemma RunCanGoOn(cfg: Config, w: World) returns (e: Event)
    requires ValidConfig(cfg) && Exclusive(cfg, w.u) && w.u.jobs != [] && !w.u.exited
    ensures IsUnlockStep(e) && Enabled(cfg, w, e)
  {
    match w.u.jobs[0]
    case Checking(_, batch, _) => e := States(0, seq(|batch|, _ => false));
    case Sending(_, _, _, _, _) => e := Settled(0, true);
    case _ => e := Resumes(0);
  }

  /** So a run that goes on until no step of an unlock run is left ends at rest, or with the process,
      and within the bound of `DrainingTerminates`. */
  lemma DrainedAtTheEnd(cfg: Config, w: World, es: seq<Event>)
    requires ValidConfig(cfg) && Legal(cfg, w, es) && AllProper(cfg, w, es)
    requires Inv(cfg, w) && Agreement(cfg, w)
    requires forall e :: IsUnlockStep(e) ==> !Enabled(cfg, Run(cfg, w, es), e)
    ensures var v := Run(cfg, w, es); v.u.jobs == [] || v.u.exited
    ensures Unlocks(es) <= Potential(w.u) + 9 * Arrivals(es)
  {
    DrainingTerminates(cfg, w, es);
    RunInv(cfg, w, es);
    var v := Run(cfg, w, es);
    if v.u.jobs != [] && !v.u.exited {
      var e := RunCanGoOn(cfg, v);
    }
  }

  // ---------------------------------------------------------------- the two ways to stop for good

  /** The process exits at the pre-check exactly when no order of the batch is still Fulfilled. */
  lemma ExitsIffNothingToSend(cfg: Config, w: World, k: nat, flags: seq<bool>)
    requires ValidConfig(cfg) && Enabled(cfg, w, States(k, flags)) && Exclusive(cfg, w.u)
    ensures Step(cfg, w, States(k, flags)).u.exited <==> forall i :: 0 <= i < |flags| ==> !flags[i]
  {
    var kept := Select(w.u.jobs[k].batch, flags, true);
    if kept != [] {
      assert kept[0] in kept;
    }
  }

  ghost predicate SomeCheckThrew(es: seq<Event>) {
    es != [] && (es[0].StatesThrew? || SomeCheckThrew(es[1..]))
  }

  /** Along a run the lock is held exactly while an unlock run is under way, up to and including the
      wait between its last peek and the release, or for ever once a request for an order state has
      thrown, should the process survive that. */
  lemma {:induction false} LockHeldIff(cfg: Config, w: World, es: seq<Event>)
    requires ValidConfig(cfg) && Legal(cfg, w, es) && Exclusive(cfg, w.u)
    requires w.u.locked <==> w.u.jobs != []
    ensures var v := Run(cfg, w, es);
            v.u.locked <==> v.u.jobs != [] || SomeCheckThrew(es)
    decreases |es|
  {
    if es != [] {
      var v := Step(cfg, w, es[0]);
      StepExclusive(cfg, w, es[0]);
      if es[0].StatesThrew? {
        WedgedForGood(cfg, v, es[1..]);
      } else {
        LockHeldIff(cfg, v, es[1..]);
      }
    }
  }

  /** A lock left behind by a thrown request is never released: nothing is ever sent again. */
  lemma {:induction false} WedgedForGood(cfg: Config, w: World, es: seq<Event>)
    requires ValidConfig(cfg) && Legal(cfg, w, es)
    requires w.u.locked && w.u.jobs == []
    ensures var v := Run(cfg, w, es); v.u.locked && v.u.jobs == [] && v.sent == w.sent
    decreases |es|
  {
    if es != [] {
      WedgedForGood(cfg, Step(cfg, w, es[0]), es[1..]);
    }
  }
}
