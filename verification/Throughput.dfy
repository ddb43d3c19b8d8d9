/** The throughput controller of a give chain: how much value is locked in each range of block
    confirmations, with a timer per addition that takes the value out again. Values are in cents,
    windows in milliseconds. */
module ThroughputModel {
  import opened Common
  import opened Ranges

  datatype Metric = Metric(limits: Threshold, currentlyLocked: int, orders: set<OrderId>)

  /** `metric` is the index of the range the record points at. */
  datatype Record = Record(value: int, confirmations: int, timer: nat, metric: nat)

  /** A pending timer made for an order. */
  datatype Timer = Timer(id: OrderId, delay: int)

  /** `timers` is the runtime's share of the state. */
  datatype Controller = Controller(
    metrics: seq<Metric>,
    records: map<OrderId, Record>,
    timers: map<nat, Timer>,
    next: nat,
    died: bool)

  function MetricMin(m: Metric): int {
    m.limits.min
  }

  function Fresh(t: Threshold): Metric {
    Metric(t, 0, {})
  }

  function Start(thresholds: seq<Threshold>): Controller {
    var sorted := SortDesc(thresholds, MinOf);
    Controller(seq(|sorted|, i requires 0 <= i < |sorted| => Fresh(sorted[i])), map[], map[], 0, false)
  }

  /** The index of the first range reached, if that range is constrained. */
  function GetMetric(metrics: seq<Metric>, c: int): (r: Option<nat>)
    ensures r.Some? ==>
              && r.value < |metrics| && IsActual(metrics[r.value])
              && metrics[r.value].limits.min <= c
              && forall j :: 0 <= j < r.value ==> metrics[j].limits.min > c
  {
    if metrics == [] then None
    else if MetricMin(metrics[0]) <= c then if IsActual(metrics[0]) then Some(0) else None
    else
      match GetMetric(metrics[1..], c)
      case None => None
      case Some(i) => Some(i + 1)
  }

  predicate IsActual(m: Metric) {
    m.limits.cap > 0 && m.limits.window > 0
  }

  predicate IsThrottled(s: Controller, c: int, value: int) {
    var i := GetMetric(s.metrics, c);
    i.Some? && s.metrics[i.value].limits.cap < s.metrics[i.value].currentlyLocked + value
  }

  /** The first range whose minimum has been reached. */
  ghost predicate FirstReached(metrics: seq<Metric>, c: int, k: nat) {
    k < |metrics| && metrics[k].limits.min <= c && forall j :: 0 <= j < k ==> metrics[j].limits.min > c
  }

  ghost predicate NoneReached(metrics: seq<Metric>, c: int) {
    forall j :: 0 <= j < |metrics| ==> metrics[j].limits.min > c
  }

  lemma {:induction false} MetricAt(metrics: seq<Metric>, c: int, k: nat)
    requires FirstReached(metrics, c, k)
    ensures GetMetric(metrics, c) == if metrics[k].limits.cap > 0 && metrics[k].limits.window > 0 then Some(k) else None
  {
    if k > 0 {
      MetricAt(metrics[1..], c, k - 1);
    }
  }

  lemma {:induction false} MetricBeyond(metrics: seq<Metric>, c: int)
    requires NoneReached(metrics, c)
    ensures GetMetric(metrics, c) == None
  {
    if metrics != [] {
      MetricBeyond(metrics[1..], c);
    }
  }

  /** Ends the process if the record points at a range that does not know the order. */
  function RemoveOrder(s: Controller, id: OrderId): Controller {
    if id !in s.records then s
    else
      var r := s.records[id];
      var rest := s.(records := s.records - {id});
      if r.metric >= |s.metrics| || id !in s.metrics[r.metric].orders then rest.(died := true)
      else
        var m := s.metrics[r.metric];
        rest.(metrics := s.metrics[r.metric := Metric(m.limits, m.currentlyLocked - r.value, m.orders - {id})])
  }

  function Lock(s: Controller, id: OrderId, c: int, value: int, i: nat): Controller
    requires i < |s.metrics|
  {
    var m := s.metrics[i];
    s.(metrics := s.metrics[i := Metric(m.limits, m.currentlyLocked + value, m.orders + {id})],
       records := s.records[id := Record(value, c, s.next, i)],
       timers := s.timers[s.next := Timer(id, m.limits.window)],
       next := s.next + 1)
  }

  /** Moves the order into the range of its confirmations; nothing happens if that range is
      unconstrained, not even the removal from an earlier range. */
  function AddOrder(s: Controller, id: OrderId, c: int, value: int): Controller {
    match GetMetric(s.metrics, c)
    case None => s
    case Some(i) => Lock(RemoveOrder(s, id), id, c, value, i)
  }

  /** A timer removes whatever record its order has by then. */
  function Fire(s: Controller, t: nat): Controller
    requires t in s.timers
  {
    RemoveOrder(s.(timers := s.timers - {t}), s.timers[t].id)
  }

  /** An order is throttled exactly if the first range it reaches has a cap and a window, and locking the
      order's value would exceed that cap. */
  lemma ThrottledIff(s: Controller, c: int, value: int, k: nat)
    requires FirstReached(s.metrics, c, k)
    ensures var m := s.metrics[k];
            IsThrottled(s, c, value)
            <==> m.limits.cap > 0 && m.limits.window > 0 && m.limits.cap < m.currentlyLocked + value
  {
    MetricAt(s.metrics, c, k);
  }

  /** One that reaches no range never is. */
  lemma NeverThrottled(s: Controller, c: int, value: int)
    requires NoneReached(s.metrics, c)
    ensures !IsThrottled(s, c, value)
  {
    MetricBeyond(s.metrics, c);
  }

  /** Nor is anything ever added for it, or for one whose range has no cap or no window. */
  lemma UnconstrainedIsIgnored(s: Controller, id: OrderId, c: int, value: int)
    requires NoneReached(s.metrics, c)
             || exists k: nat :: FirstReached(s.metrics, c, k)
                                 && !(s.metrics[k].limits.cap > 0 && s.metrics[k].limits.window > 0)
    ensures AddOrder(s, id, c, value) == s
  {
    if NoneReached(s.metrics, c) {
      MetricBeyond(s.metrics, c);
    } else {
      var k: nat :| FirstReached(s.metrics, c, k) && !(s.metrics[k].limits.cap > 0 && s.metrics[k].limits.window > 0);
      MetricAt(s.metrics, c, k);
    }
  }
}

module ThroughputControllers {
  import opened Common
  import opened Ranges
  import opened ThroughputModel

  class ThroughputController {
    var metrics: seq<Metric>
    var orders: map<OrderId, Record>
    // The runtime's share of the state.
    var timers: map<nat, Timer>
    var nextTimer: nat
    var died: bool

    function View(): Controller
      reads this
    {
      Controller(metrics, orders, timers, nextTimer, died)
    }

    constructor (thresholds: seq<Threshold>)
      ensures View() == Start(thresholds)
    {
      var sorted := SortDesc(thresholds, MinOf);
      metrics := seq(|sorted|, i requires 0 <= i < |sorted| => Fresh(sorted[i]));
      orders, timers, nextTimer, died := map[], map[], 0, false;
    }

    method GetMetric(c: int) returns (i: Option<nat>)
      ensures i == ThroughputModel.GetMetric(metrics, c)
    {
      var k := 0;
      while k < |metrics| && metrics[k].limits.min > c
        invariant k <= |metrics|
        invariant ThroughputModel.GetMetric(metrics, c) ==
                  match ThroughputModel.GetMetric(metrics[k..], c)
                  case None => None
                  case Some(j) => Some(k + j)
      {
        assert metrics[k..][1..] == metrics[k + 1..];
        k := k + 1;
      }
      i := if k < |metrics| && IsActual(metrics[k]) then Some(k) else None;
    }

    method IsThrottled(c: int, value: int) returns (throttled: bool)
      ensures throttled == ThroughputModel.IsThrottled(View(), c, value)
      ensures NoneReached(metrics, c) ==> !throttled
      ensures forall k: nat {:trigger FirstReached(metrics, c, k)} :: FirstReached(metrics, c, k) ==>
                var m := metrics[k];
                throttled <==> m.limits.cap > 0 && m.limits.window > 0 && m.limits.cap < m.currentlyLocked + value
    {
      if NoneReached(metrics, c) {
        NeverThrottled(View(), c, value);
      }
      forall k: nat | FirstReached(metrics, c, k) {
        ThrottledIff(View(), c, value, k);
      }
      var i := GetMetric(c);
      if i.None? {
        return false;
      }
      var potential := metrics[i.value].currentlyLocked + value;
      return metrics[i.value].limits.cap < potential;
    }

    method AddOrder(id: OrderId, c: int, value: int)
      modifies this
      ensures View() == ThroughputModel.AddOrder(old(View()), id, c, value)
    {
      var i := GetMetric(c);
      if i.None? {
        return;
      }
      RemoveOrder(id);
      var m := metrics[i.value];
      metrics := metrics[i.value := Metric(m.limits, m.currentlyLocked + value, m.orders + {id})];
      timers := timers[nextTimer := Timer(id, m.limits.window)];
      orders := orders[id := Record(value, c, nextTimer, i.value)];
      nextTimer := nextTimer + 1;
    }

    method RemoveOrder(id: OrderId)
      modifies this`metrics, this`orders, this`died
      ensures View() == ThroughputModel.RemoveOrder(old(View()), id)
    {
      if id !in orders {
        return;
      }
      var r := orders[id];
      orders := orders - {id};
      if r.metric >= |metrics| || id !in metrics[r.metric].orders {
        died := true;
        return;
      }
      var m := metrics[r.metric];
      metrics := metrics[r.metric := Metric(m.limits, m.currentlyLocked - r.value, m.orders - {id})];
    }

    method OnTimer(t: nat)
      requires t in timers
      modifies this
      ensures View() == Fire(old(View()), t)
    {
      var id := timers[t].id;
      timers := timers - {t};
      RemoveOrder(id);
    }
  }
}
