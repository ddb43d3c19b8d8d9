/** The mempool: orders waiting for a retry, each behind one timer of the runtime. */
module MempoolModel {
  import opened Common

  /** A pending timer made for an order; `delay` is in milliseconds. */
  datatype Timer = Timer(id: OrderId, delay: int)

  /** `timers` is the runtime's share: what has been set and neither fired nor been cleared. */
  datatype Mempool = Mempool(tracked: map<OrderId, nat>, timers: map<nat, Timer>, next: nat)

  const EMPTY := Mempool(map[], map[], 0)

  function Handle(m: Mempool, id: OrderId): set<nat> {
    if id in m.tracked then {m.tracked[id]} else {}
  }

  function AddOrder(m: Mempool, id: OrderId, delay: int): Mempool {
    Mempool(m.tracked[id := m.next], (m.timers - Handle(m, id))[m.next := Timer(id, delay)], m.next + 1)
  }

  function Delete(m: Mempool, id: OrderId): Mempool {
    m.(tracked := m.tracked - {id}, timers := m.timers - Handle(m, id))
  }

  /** A timer goes off; the order is handed back if the mempool still tracks it. */
  function Fire(m: Mempool, t: nat): (Mempool, Option<OrderId>)
    requires t in m.timers
  {
    var id := m.timers[t].id;
    var rest := m.(timers := m.timers - {t});
    if id in m.tracked then (rest.(tracked := rest.tracked - {id}), Some(id)) else (rest, None)
  }

  /** Tracked orders and pending timers are in bijection. */
  ghost predicate OneTimerEach(m: Mempool) {
    && (forall id :: id in m.tracked ==> m.tracked[id] in m.timers && m.timers[m.tracked[id]].id == id)
    && (forall t :: t in m.timers ==> t < m.next && m.timers[t].id in m.tracked && m.tracked[m.timers[t].id] == t)
  }

  lemma AddOrderKeeps(m: Mempool, id: OrderId, delay: int)
    requires OneTimerEach(m)
    ensures OneTimerEach(AddOrder(m, id, delay))
  {
  }

  lemma DeleteKeeps(m: Mempool, id: OrderId)
    requires OneTimerEach(m)
    ensures OneTimerEach(Delete(m, id))
  {
  }

  /** A timer that fires always finds its order: the branch for a missing order is dead. */
  lemma FireKeeps(m: Mempool, t: nat)
    requires OneTimerEach(m) && t in m.timers
    ensures OneTimerEach(Fire(m, t).0)
    ensures Fire(m, t).1 == Some(m.timers[t].id)
    ensures Fire(m, t).0.tracked == m.tracked - {m.timers[t].id}
  {
  }

  // ---------------------------------------------------------------- back-off

  /** Seconds before the retry that follows a given attempt. */
  function Delay(live: bool, attempt: int): int {
    if live then 5 + 10 * (attempt - 1) else 120 + 300 * (attempt - 1)
  }

  function TotalDelay(live: bool, attempts: nat): int {
    if attempts == 0 then 0 else TotalDelay(live, attempts - 1) + Delay(live, attempts)
  }

  /** Each retry waits longer than the one before, and the time spent waiting over the first n
      grows quadratically. */
  lemma {:induction false} TotalDelayIsQuadratic(live: bool, n: nat)
    ensures TotalDelay(live, n) == if live then 5 * (n * n) else 150 * (n * n) - 30 * n
    ensures n > 0 ==> 0 < Delay(live, n) < Delay(live, n + 1)
  {
    if n > 0 {
      TotalDelayIsQuadratic(live, n - 1);
      var k := n - 1;
      assert n * n == k * k + 2 * k + 1;
    }
  }
}

module MempoolServices {
  import opened Common
  import opened MempoolModel

  class MempoolService {
    var trackedOrders: map<OrderId, nat>
    // The runtime's share of the state.
    var timers: map<nat, Timer>
    var nextTimer: nat

    function View(): Mempool
      reads this
    {
      Mempool(trackedOrders, timers, nextTimer)
    }

    constructor ()
      ensures View() == EMPTY
    {
      trackedOrders, timers, nextTimer := map[], map[], 0;
    }

    method ClearTimeout(t: nat)
      modifies this`timers
      ensures timers == old(timers) - {t}
    {
      timers := timers - {t};
    }

    method SetTimeout(id: OrderId, delay: int) returns (t: nat)
      modifies this`timers, this`nextTimer
      ensures t == old(nextTimer) && nextTimer == t + 1 && timers == old(timers)[t := Timer(id, delay)]
    {
      t := nextTimer;
      timers, nextTimer := timers[t := Timer(id, delay)], t + 1;
    }

    method AddOrder(id: OrderId, delay: int)
      modifies this
      ensures View() == MempoolModel.AddOrder(old(View()), id, delay)
    {
      if id in trackedOrders {
        ClearTimeout(trackedOrders[id]);
      } else {
        assert timers - Handle(View(), id) == timers;
      }
      var t := SetTimeout(id, delay);
      trackedOrders := trackedOrders[id := t];
    }

    method DelayArchivalOrder(id: OrderId, attempt: int)
      modifies this
      ensures View() == MempoolModel.AddOrder(old(View()), id, 1000 * Delay(false, attempt))
    {
      AddOrder(id, 1000 * (120 + 300 * (attempt - 1)));
    }

    method DelayOrder(id: OrderId, attempt: int)
      modifies this
      ensures View() == MempoolModel.AddOrder(old(View()), id, 1000 * Delay(true, attempt))
    {
      AddOrder(id, 1000 * (5 + 10 * (attempt - 1)));
    }

    method Delete(id: OrderId)
      modifies this
      ensures View() == MempoolModel.Delete(old(View()), id)
    {
      if id in trackedOrders {
        ClearTimeout(trackedOrders[id]);
      } else {
        assert timers - Handle(View(), id) == timers;
      }
      trackedOrders := trackedOrders - {id};
    }

    /** The timer callback; the result is what it passes to the order consumer. */
    method OnTimeout(t: nat) returns (due: Option<OrderId>)
      requires t in timers
      modifies this
      ensures (View(), due) == Fire(old(View()), t)
    {
      var id := timers[t].id;
      timers := timers - {t};
      if id in trackedOrders {
        trackedOrders := trackedOrders - {id};
        return Some(id);
      }
      return None;
    }
  }
}
