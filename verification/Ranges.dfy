/** Selection of a range by block confirmations: the first entry, in descending order of its
    minimum, whose minimum has been reached. */
module Ranges {
  import opened Common

  datatype Threshold = Threshold(min: int, cap: int, window: int)

  /** One entry of the per-order-value source constraints. */
  datatype SrcRange = SrcRange(upperThreshold: int, fulfillmentDelay: int, limits: Threshold)

  /** JavaScript's stable sort, by descending key. */
  function SortDesc<T>(xs: seq<T>, key: T -> int): (r: seq<T>) {
    if xs == [] then [] else Insert(xs[0], SortDesc(xs[1..], key), key)
  }

  function Insert<T>(x: T, ys: seq<T>, key: T -> int): (r: seq<T>) {
    if ys == [] || key(ys[0]) <= key(x) then [x] + ys else [ys[0]] + Insert(x, ys[1..], key)
  }

  function FindReached<T>(xs: seq<T>, key: T -> int, c: int): Option<T> {
    if xs == [] then None
    else if key(xs[0]) <= c then Some(xs[0])
    else FindReached(xs[1..], key, c)
  }

  ghost predicate Descending<T>(xs: seq<T>, key: T -> int) {
    forall i, j :: 0 <= i < j < |xs| ==> key(xs[i]) >= key(xs[j])
  }

  /** Entry i is the choice among unsorted entries: its minimum has been reached, no reached
      minimum is greater, and it stands first among equals. */
  ghost predicate IsChoice<T>(xs: seq<T>, key: T -> int, c: int, i: nat) {
    && i < |xs| && key(xs[i]) <= c
    && (forall j :: 0 <= j < |xs| && key(xs[j]) <= c ==> key(xs[j]) <= key(xs[i]))
    && (forall j :: 0 <= j < i ==> key(xs[j]) != key(xs[i]))
  }

  /** The same choice, computed. */
  ghost function Choose<T>(xs: seq<T>, key: T -> int, c: int): (r: Option<nat>)
    ensures r.Some? ==> r.value < |xs|
  {
    if xs == [] then None
    else
      match Choose(xs[1..], key, c)
      case None => if key(xs[0]) <= c then Some(0) else None
      case Some(i) => if key(xs[0]) <= c && key(xs[0]) >= key(xs[1..][i]) then Some(0) else Some(i + 1)
  }

  ghost function Chosen<T>(xs: seq<T>, key: T -> int, c: int): Option<T> {
    match Choose(xs, key, c)
    case None => None
    case Some(i) => Some(xs[i])
  }

  lemma {:induction false} ChooseIsChoice<T>(xs: seq<T>, key: T -> int, c: int)
    ensures match Choose(xs, key, c)
            case Some(i) => IsChoice(xs, key, c, i)
            case None => forall j :: 0 <= j < |xs| ==> key(xs[j]) > c
  {
    if xs != [] {
      var t := xs[1..];
      ChooseIsChoice(t, key, c);
      assert forall j :: 0 < j < |xs| ==> xs[j] == t[j - 1];
    }
  }

  lemma ChoiceIsUnique<T>(xs: seq<T>, key: T -> int, c: int, i: nat, j: nat)
    requires IsChoice(xs, key, c, i) && IsChoice(xs, key, c, j)
    ensures i == j
  {
  }

  lemma {:induction false} InsertPermutes<T>(x: T, ys: seq<T>, key: T -> int)
    ensures multiset(Insert(x, ys, key)) == multiset(ys) + multiset{x}
  {
    if ys != [] && key(ys[0]) > key(x) {
      InsertPermutes(x, ys[1..], key);
      assert ys == [ys[0]] + ys[1..];
    }
  }

  lemma {:induction false} InsertSorts<T>(x: T, ys: seq<T>, key: T -> int)
    requires Descending(ys, key)
    ensures Descending(Insert(x, ys, key), key)
    ensures forall j :: 0 <= j < |Insert(x, ys, key)| ==> Insert(x, ys, key)[j] == x || Insert(x, ys, key)[j] in ys
  {
    if ys != [] && key(ys[0]) > key(x) {
      var t := Insert(x, ys[1..], key);
      InsertSorts(x, ys[1..], key);
      assert forall j :: 0 <= j < |t| ==> key(t[j]) <= key(ys[0]);
    }
  }

  lemma {:induction false} SortSorts<T>(xs: seq<T>, key: T -> int)
    ensures Descending(SortDesc(xs, key), key)
    ensures multiset(SortDesc(xs, key)) == multiset(xs)
  {
    if xs != [] {
      SortSorts(xs[1..], key);
      InsertSorts(xs[0], SortDesc(xs[1..], key), key);
      InsertPermutes(xs[0], SortDesc(xs[1..], key), key);
      assert xs == [xs[0]] + xs[1..];
    }
  }

  lemma {:induction false} SortOfSorted<T>(xs: seq<T>, key: T -> int)
    requires Descending(xs, key)
    ensures SortDesc(xs, key) == xs
  {
    if xs != [] {
      SortOfSorted(xs[1..], key);
    }
  }

  lemma {:induction false} FindAfterInsert<T>(x: T, ys: seq<T>, key: T -> int, c: int)
    requires Descending(ys, key)
    ensures FindReached(Insert(x, ys, key), key, c) ==
            var f := FindReached(ys, key, c);
            if key(x) <= c && (f.None? || key(x) >= key(f.value)) then Some(x) else f
  {
    if ys == [] {
    } else if key(ys[0]) <= key(x) {
      assert ([x] + ys)[1..] == ys;
      FoundIsMember(ys, key, c);
    } else {
      assert ([ys[0]] + Insert(x, ys[1..], key))[1..] == Insert(x, ys[1..], key);
      FindAfterInsert(x, ys[1..], key, c);
      FoundIsMember(ys[1..], key, c);
    }
  }

  lemma {:induction false} FoundIsMember<T>(ys: seq<T>, key: T -> int, c: int)
    ensures FindReached(ys, key, c).Some? ==> FindReached(ys, key, c).value in ys
  {
    if ys != [] && key(ys[0]) > c {
      FoundIsMember(ys[1..], key, c);
    }
  }

  /** Scanning the sorted entries finds the choice among the unsorted ones, ties included. */
  lemma {:induction false} ScanFindsChoice<T>(xs: seq<T>, key: T -> int, c: int)
    ensures FindReached(SortDesc(xs, key), key, c) == Chosen(xs, key, c)
  {
    if xs != [] {
      ScanFindsChoice(xs[1..], key, c);
      SortSorts(xs[1..], key);
      FindAfterInsert(xs[0], SortDesc(xs[1..], key), key, c);
    }
  }

  // ---------------------------------------------------------------- the two users of the ranges

  function MinOf(t: Threshold): int {
    t.min
  }

  function SrcMinOf(r: SrcRange): int {
    r.limits.min
  }

  function Expensiveness(r: SrcRange): int {
    -r.upperThreshold
  }

  /** The configured ranges of a chain, sorted by ascending upper threshold; a range that asks for
      no fewer confirmations than finality is refused. */
  function ConfiguredRanges(finalized: int, raw: seq<SrcRange>): (r: Result<seq<SrcRange>, string>)
    ensures r.Err? <==> exists i :: 0 <= i < |raw| && finalized <= raw[i].limits.min
    ensures r.Ok? ==>
              && multiset(r.value) == multiset(raw)
              && forall i, j :: 0 <= i < j < |r.value| ==> r.value[i].upperThreshold <= r.value[j].upperThreshold
  {
    SortSorts(raw, Expensiveness);
    assert forall x: SrcRange, y: SrcRange ::
        Expensiveness(x) >= Expensiveness(y) ==> x.upperThreshold <= y.upperThreshold;
    if exists i :: 0 <= i < |raw| && finalized <= raw[i].limits.min
    then Err("minBlockConfirmations must be less than max block confirmations")
    else Ok(SortDesc(raw, Expensiveness))
  }

  /** The thresholds handed to a chain's throughput controller: all ranges and the final one. */
  function ControllerThresholds(ranges: seq<SrcRange>, final: Threshold): (r: seq<Threshold>)
    ensures |r| == |ranges| + 1
  {
    seq(|ranges|, i requires 0 <= i < |ranges| => ranges[i].limits) + [final]
  }

  lemma ConfiguredBelowFinality(finalized: int, raw: seq<SrcRange>)
    requires ConfiguredRanges(finalized, raw).Ok?
    ensures forall r :: r in ConfiguredRanges(finalized, raw).value ==> r.limits.min < finalized
  {
    SortSorts(raw, Expensiveness);
    forall r | r in ConfiguredRanges(finalized, raw).value
      ensures r.limits.min < finalized
    {
      assert r in multiset(raw);
      var i :| 0 <= i < |raw| && raw[i] == r;
    }
  }

  /** The in-place sort of the shared array changes no later choice. */
  lemma ResortKeepsChoice<T>(xs: seq<T>, key: T -> int, c: int)
    ensures Chosen(SortDesc(xs, key), key, c) == Chosen(xs, key, c)
  {
    SortSorts(xs, key);
    SortOfSorted(SortDesc(xs, key), key);
    ScanFindsChoice(xs, key, c);
    ScanFindsChoice(SortDesc(xs, key), key, c);
  }

  lemma {:induction false} ThresholdsChoice(ranges: seq<SrcRange>, final: Threshold, c: int)
    requires forall r :: r in ranges ==> r.limits.min < final.min
    ensures Chosen(ControllerThresholds(ranges, final), MinOf, c) ==
            if final.min <= c then Some(final)
            else match Chosen(ranges, SrcMinOf, c)
                 case Some(r) => Some(r.limits)
                 case None => None
  {
    var ts := ControllerThresholds(ranges, final);
    if ranges == [] {
      assert ts[1..] == [];
    } else {
      assert ts[1..] == ControllerThresholds(ranges[1..], final);
      ThresholdsChoice(ranges[1..], final, c);
      assert ts[0] == ranges[0].limits && ranges[0] in ranges;
    }
  }

  /** Below finality the controller's range carries the limits of the order's range, ties broken
      alike, and there is none for the one exactly when there is none for the other; from finality
      on the controller uses the final range. */
  lemma RangesAgree(finalized: int, raw: seq<SrcRange>, final: Threshold, c: int)
    requires ConfiguredRanges(finalized, raw).Ok? && final.min == finalized
    ensures var ranges := ConfiguredRanges(finalized, raw).value;
            var mine := FindReached(SortDesc(ranges, SrcMinOf), SrcMinOf, c);
            var theirs := FindReached(SortDesc(ControllerThresholds(ranges, final), MinOf), MinOf, c);
            theirs == if finalized <= c then Some(final) else if mine.Some? then Some(mine.value.limits) else None
  {
    var ranges := ConfiguredRanges(finalized, raw).value;
    ConfiguredBelowFinality(finalized, raw);
    ScanFindsChoice(ranges, SrcMinOf, c);
    ScanFindsChoice(ControllerThresholds(ranges, final), MinOf, c);
    ThresholdsChoice(ranges, final, c);
  }

  /** The finalization check of the order validator: `confirmations` is absent for a finalized
      order. */
  predicate PassesFinalization(ranges: seq<SrcRange>, confirmations: Option<int>, usdValue: int) {
    match confirmations
    case None => true
    case Some(c) =>
      match FindReached(SortDesc(ranges, SrcMinOf), SrcMinOf, c)
      case None => false
      case Some(r) => usdValue <= r.upperThreshold
  }

  /** A finalized order always passes. One announced with its confirmations passes exactly if a range has
      been reached and the order is worth no more than the range chosen allows. */
  lemma PassesFinalizationIff(ranges: seq<SrcRange>, confirmations: Option<int>, usdValue: int)
    ensures PassesFinalization(ranges, confirmations, usdValue) <==>
            confirmations.Some? ==>
              exists i: nat :: IsChoice(ranges, SrcMinOf, confirmations.value, i) && usdValue <= ranges[i].upperThreshold
  {
    if confirmations.Some? {
      var c := confirmations.value;
      ScanFindsChoice(ranges, SrcMinOf, c);
      ChooseIsChoice(ranges, SrcMinOf, c);
      if i: nat :| IsChoice(ranges, SrcMinOf, c, i) && usdValue <= ranges[i].upperThreshold {
        ChoiceIsUnique(ranges, SrcMinOf, c, i, Choose(ranges, SrcMinOf, c).value);
      }
    }
  }

  /** An order announced with its confirmations passes only if a range was configured for orders of
      its value and has been reached. It counts against that range of the controller, or against
      the final one if it has as many confirmations as finality takes. */
  lemma PassedOrderHasItsRange(finalized: int, raw: seq<SrcRange>, final: Threshold, c: int, usdValue: int)
    requires ConfiguredRanges(finalized, raw).Ok? && final.min == finalized
    requires PassesFinalization(ConfiguredRanges(finalized, raw).value, Some(c), usdValue)
    ensures var theirs :=
              FindReached(SortDesc(ControllerThresholds(ConfiguredRanges(finalized, raw).value, final), MinOf), MinOf, c);
            exists r ::
              && r in raw && r.limits.min <= c && usdValue <= r.upperThreshold
              && theirs == Some(if finalized <= c then final else r.limits)
  {
    var ranges := ConfiguredRanges(finalized, raw).value;
    RangesAgree(finalized, raw, final, c);
    ScanFindsChoice(ranges, SrcMinOf, c);
    ChooseIsChoice(ranges, SrcMinOf, c);
    SortSorts(raw, Expensiveness);
    var r := Chosen(ranges, SrcMinOf, c).value;
    assert r in ranges;
    assert r in multiset(raw);
  }

  /** The source constraints of a chain, shared by all its orders. */
  class SourceConstraints {
    var perOrderValue: seq<SrcRange>

    constructor (ranges: seq<SrcRange>)
      ensures perOrderValue == ranges
    {
      perOrderValue := ranges;
    }

    /** Sorts the shared array in place, then scans it: the result and every later one depend
        only on the array as it was configured. */
    method SrcConstraintsRange(c: int) returns (r: Option<SrcRange>)
      modifies this
      ensures r == Chosen(old(perOrderValue), SrcMinOf, c)
      ensures forall d :: Chosen(perOrderValue, SrcMinOf, d) == Chosen(old(perOrderValue), SrcMinOf, d)
      ensures perOrderValue == SortDesc(old(perOrderValue), SrcMinOf)
    {
      ghost var before := perOrderValue;
      perOrderValue := SortDesc(perOrderValue, SrcMinOf);
      ScanFindsChoice(before, SrcMinOf, c);
      forall d {
        ResortKeepsChoice(before, SrcMinOf, d);
      }
      r := FindReached(perOrderValue, SrcMinOf, c);
    }
  }
}
