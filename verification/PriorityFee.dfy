/** The fee fetcher: a priority fee estimated from the tips of recent blocks, and a target base fee. */
module PriorityFee {

  // ---------------------------------------------------------------- sorting bigints as text

  /** Decimal digits, most significant first. */
  function Digits(n: nat): (ds: seq<int>)
    ensures |ds| >= 1
  {
    if n < 10 then [n] else Digits(n / 10) + [n % 10]
  }

  predicate TextLeq(a: seq<int>, b: seq<int>) {
    a == [] || (b != [] && (a[0] < b[0] || (a[0] == b[0] && TextLeq(a[1..], b[1..]))))
  }

  /** `sort()` without a comparator compares the decimal texts. */
  function TextSort(xs: seq<nat>): (r: seq<nat>)
    ensures |r| == |xs|
  {
    if xs == [] then [] else TextInsert(xs[0], TextSort(xs[1..]))
  }

  function TextInsert(x: nat, ys: seq<nat>): (r: seq<nat>)
    ensures |r| == |ys| + 1
  {
    if ys == [] || TextLeq(Digits(x), Digits(ys[0])) then [x] + ys
    else [ys[0]] + TextInsert(x, ys[1..])
  }

  lemma {:induction false} TextLeqOfLonger(a: seq<int>, b: seq<int>, d: int, e: int)
    requires |a| == |b|
    ensures TextLeq(a + [d], b + [e]) <==> if a == b then d <= e else TextLeq(a, b)
  {
    if a == [] {
      assert [d][1..] == [] && [e][1..] == [];
    } else {
      assert (a + [d])[1..] == a[1..] + [d] && (b + [e])[1..] == b[1..] + [e];
      TextLeqOfLonger(a[1..], b[1..], d, e);
      assert a == [a[0]] + a[1..] && b == [b[0]] + b[1..];
    }
  }

  lemma {:induction false} DigitsDetermine(m: nat, n: nat)
    requires Digits(m) == Digits(n)
    ensures m == n
  {
    if m >= 10 && n >= 10 {
      assert Digits(m)[..|Digits(m)| - 1] == Digits(m / 10) && Digits(n)[..|Digits(n)| - 1] == Digits(n / 10);
      assert Digits(m)[|Digits(m)| - 1] == m % 10 && Digits(n)[|Digits(n)| - 1] == n % 10;
      DigitsDetermine(m / 10, n / 10);
    }
  }

  /** Among numbers with equally many digits the order of the texts is the order of the numbers. */
  lemma {:induction false} TextOrderIsNumeric(m: nat, n: nat)
    requires |Digits(m)| == |Digits(n)|
    ensures TextLeq(Digits(m), Digits(n)) <==> m <= n
  {
    if m < 10 {
      assert n < 10;
    } else {
      TextLeqOfLonger(Digits(m / 10), Digits(n / 10), m % 10, n % 10);
      TextOrderIsNumeric(m / 10, n / 10);
      if Digits(m / 10) == Digits(n / 10) {
        DigitsDetermine(m / 10, n / 10);
      }
    }
  }

  ghost predicate Ascending(xs: seq<nat>) {
    forall i, j :: 0 <= i < j < |xs| ==> xs[i] <= xs[j]
  }

  lemma {:induction false} TextInsertPermutes(x: nat, ys: seq<nat>)
    ensures multiset(TextInsert(x, ys)) == multiset(ys) + multiset{x}
  {
    if ys != [] && !TextLeq(Digits(x), Digits(ys[0])) {
      TextInsertPermutes(x, ys[1..]);
      assert ys == [ys[0]] + ys[1..];
    }
  }

  lemma {:induction false} TextSortPermutes(xs: seq<nat>)
    ensures multiset(TextSort(xs)) == multiset(xs)
  {
    if xs != [] {
      TextSortPermutes(xs[1..]);
      TextInsertPermutes(xs[0], TextSort(xs[1..]));
      assert xs == [xs[0]] + xs[1..];
    }
  }

  // ---------------------------------------------------------------- when the text sort is numeric

  lemma {:induction false} TextLeqTotal(a: seq<int>, b: seq<int>)
    ensures TextLeq(a, b) || TextLeq(b, a)
  {
    if a != [] && b != [] && a[0] == b[0] {
      TextLeqTotal(a[1..], b[1..]);
    }
  }

  lemma {:induction false} TextLeqTransitive(a: seq<int>, b: seq<int>, c: seq<int>)
    requires TextLeq(a, b) && TextLeq(b, c)
    ensures TextLeq(a, c)
  {
    if a != [] && a[0] == b[0] == c[0] {
      TextLeqTransitive(a[1..], b[1..], c[1..]);
    }
  }

  lemma {:induction false} TextLeqAntisymmetric(a: seq<int>, b: seq<int>)
    requires TextLeq(a, b) && TextLeq(b, a)
    ensures a == b
  {
    if a != [] {
      TextLeqAntisymmetric(a[1..], b[1..]);
      assert a == [a[0]] + a[1..] && b == [b[0]] + b[1..];
    }
  }

  ghost predicate Before(x: nat, y: nat) {
    TextLeq(Digits(x), Digits(y))
  }

  ghost predicate TextAscending(xs: seq<nat>) {
    forall i, j :: 0 <= i < j < |xs| ==> Before(xs[i], xs[j])
  }

  /** Lesser numbers have lesser texts. */
  ghost predicate TextAgrees(xs: seq<nat>) {
    forall x, y :: x in xs && y in xs && x < y ==> Before(x, y)
  }

  lemma {:induction false} TextInsertAscends(x: nat, ys: seq<nat>)
    requires TextAscending(ys)
    ensures TextAscending(TextInsert(x, ys))
    ensures forall i :: 0 <= i < |ys| + 1 ==> TextInsert(x, ys)[i] == x || TextInsert(x, ys)[i] in ys
  {
    if ys == [] {
    } else if TextLeq(Digits(x), Digits(ys[0])) {
      forall j | 0 <= j < |ys|
        ensures Before(x, ys[j])
      {
        if j > 0 {
          assert Before(ys[0], ys[j]);
          TextLeqTransitive(Digits(x), Digits(ys[0]), Digits(ys[j]));
        }
      }
    } else {
      var t := TextInsert(x, ys[1..]);
      TextInsertAscends(x, ys[1..]);
      TextLeqTotal(Digits(x), Digits(ys[0]));
      assert forall j :: 0 <= j < |t| ==> Before(ys[0], t[j]);
    }
  }

  lemma {:induction false} TextSortAscends(xs: seq<nat>)
    ensures TextAscending(TextSort(xs))
  {
    if xs != [] {
      TextSortAscends(xs[1..]);
      TextInsertAscends(xs[0], TextSort(xs[1..]));
    }
  }

  lemma SortHasSame(xs: seq<nat>, x: nat)
    ensures x in xs <==> x in TextSort(xs)
  {
    TextSortPermutes(xs);
    assert x in multiset(xs) <==> x in multiset(TextSort(xs));
  }

  lemma SortedPairAgrees(xs: seq<nat>, x: nat, y: nat)
    requires Ascending(TextSort(xs)) && x in xs && y in xs && x < y
    ensures Before(x, y)
  {
    var t := TextSort(xs);
    TextSortAscends(xs);
    SortHasSame(xs, x);
    SortHasSame(xs, y);
    var i :| 0 <= i < |t| && t[i] == x;
    var j :| 0 <= j < |t| && t[j] == y;
    assert i < j;
  }

  lemma AgreeingPairSorted(xs: seq<nat>, i: nat, j: nat)
    requires TextAgrees(xs) && i < j < |TextSort(xs)|
    ensures TextSort(xs)[i] <= TextSort(xs)[j]
  {
    var t := TextSort(xs);
    TextSortAscends(xs);
    SortHasSame(xs, t[i]);
    SortHasSame(xs, t[j]);
    if t[j] < t[i] {
      assert Before(t[i], t[j]) && Before(t[j], t[i]);
      TextLeqAntisymmetric(Digits(t[i]), Digits(t[j]));
      DigitsDetermine(t[i], t[j]);
    }
  }

  /** The text sort yields ascending numbers exactly when lesser numbers have lesser texts. */
  lemma TextSortIsNumericIff(xs: seq<nat>)
    ensures Ascending(TextSort(xs)) <==> TextAgrees(xs)
  {
    if Ascending(TextSort(xs)) {
      forall x, y | x in xs && y in xs && x < y {
        SortedPairAgrees(xs, x, y);
      }
    }
    if TextAgrees(xs) {
      forall i, j | 0 <= i < j < |TextSort(xs)| {
        AgreeingPairSorted(xs, i, j);
      }
    }
  }

  /** Numbers with equally many digits are one such case. */
  lemma EquallyLongAgree(xs: seq<nat>)
    requires forall x, y :: x in xs && y in xs ==> |Digits(x)| == |Digits(y)|
    ensures TextAgrees(xs)
  {
    forall x, y | x in xs && y in xs && x < y
      ensures Before(x, y)
    {
      TextOrderIsNumeric(x, y);
    }
  }

  // ---------------------------------------------------------------- the estimator

  function NonZero(tips: seq<nat>): (r: seq<nat>)
    ensures forall x :: x in r <==> x in tips && x != 0
  {
    if tips == [] then []
    else
      assert tips == [tips[0]] + tips[1..];
      if tips[0] == 0 then NonZero(tips[1..]) else [tips[0]] + NonZero(tips[1..])
  }

  lemma {:induction false} NonZeroKeepsAll(tips: seq<nat>)
    ensures multiset(NonZero(tips)) == multiset(tips)[0 := 0]
  {
    if tips != [] {
      NonZeroKeepsAll(tips[1..]);
      assert tips == [tips[0]] + tips[1..];
    }
  }

  /** Division of bigints truncates toward zero. */
  function TruncDiv(a: int, b: int): int
    requires b > 0
  {
    if a >= 0 then a / b else -((-a) / b)
  }

  lemma TruncDivRounds(a: int, b: int)
    requires b > 0
    ensures var q := TruncDiv(a, b); if a >= 0 then b * q <= a < b * q + b else b * q - b < a <= b * q
  {
    if a < 0 {
      assert b * -((-a) / b) == -(b * ((-a) / b));
    }
  }

  /** The change from each tip to the next, in percent. */
  function Increases(tips: seq<nat>): (r: seq<int>)
    requires |tips| >= 1 && forall i :: 0 <= i < |tips| ==> tips[i] != 0
    ensures |r| == |tips| - 1
  {
    if |tips| == 1 then []
    else [TruncDiv((tips[1] as int - tips[0] as int) * 100, tips[0])] + Increases(tips[1..])
  }

  /** The greatest of some numbers and zero. */
  function FindMax(xs: seq<int>): (m: int)
    ensures m >= 0 && forall x :: x in xs ==> x <= m
    ensures m == 0 || m in xs
  {
    if xs == [] then 0
    else
      var n := |xs| - 1;
      var front := FindMax(xs[..n]);
      assert xs == xs[..n] + [xs[n]];
      if xs[n] > front then xs[n] else front
  }

  /** The index of the first occurrence, or -1. */
  function FindIndex(xs: seq<int>, x: int): (i: int)
    ensures -1 <= i < |xs|
    ensures i >= 0 ==> xs[i] == x
    ensures i == -1 <==> x !in xs
  {
    if xs == [] then -1
    else if xs[0] == x then 0
    else
      var i := FindIndex(xs[1..], x);
      assert xs == [xs[0]] + xs[1..];
      if i == -1 then -1 else i + 1
  }

  /** Where the tips to take the median of start: past the outlier jump, if there is one. */
  function CutOff(tips: seq<nat>, boundary: int): (from: nat)
    requires |tips| >= 2 && forall i :: 0 <= i < |tips| ==> tips[i] != 0
    ensures from == 0 || |tips| / 2 <= from < |tips| - 1
  {
    var increases := Increases(tips);
    var highest := FindMax(increases);
    var index := FindIndex(increases, highest);
    if highest >= boundary && index >= |tips| / 2 then index else 0
  }

  ghost predicate AllPositive(tips: seq<nat>) {
    forall i :: 0 <= i < |tips| ==> tips[i] != 0
  }

  /** The change from a tip to the next, in percent. */
  ghost function Jump(tips: seq<nat>, i: nat): int
    requires i + 1 < |tips| && tips[i] != 0
  {
    TruncDiv((tips[i + 1] as int - tips[i] as int) * 100, tips[i])
  }

  /** The jump after the i-th tip is an outlier: the first of the greatest jumps, not downward, at
      the boundary or above, and in the upper half. */
  ghost predicate IsOutlier(tips: seq<nat>, boundary: int, i: nat)
    requires AllPositive(tips)
  {
    && |tips| / 2 <= i && i + 1 < |tips|
    && Jump(tips, i) >= 0 && Jump(tips, i) >= boundary
    && (forall j: nat :: j + 1 < |tips| ==> Jump(tips, j) <= Jump(tips, i))
    && (forall j: nat :: j < i ==> Jump(tips, j) < Jump(tips, i))
  }

  lemma {:induction false} IncreasesAreJumps(tips: seq<nat>, i: nat)
    requires AllPositive(tips) && i + 1 < |tips|
    ensures Increases(tips)[i] == Jump(tips, i)
  {
    if i > 0 {
      assert Increases(tips) == [Increases(tips)[0]] + Increases(tips[1..]);
      IncreasesAreJumps(tips[1..], i - 1);
    }
  }

  lemma {:induction false} FoundFirst(xs: seq<int>, x: int, i: nat)
    requires i < |xs| && xs[i] == x && x !in xs[..i]
    ensures FindIndex(xs, x) == i
  {
    if i > 0 {
      assert xs[..i] == [xs[0]] + xs[1..][..i - 1];
      FoundFirst(xs[1..], x, i - 1);
    }
  }

  lemma {:induction false} NotBefore(xs: seq<int>, x: int, j: nat)
    requires j < FindIndex(xs, x)
    ensures xs[j] != x
  {
    if j > 0 {
      NotBefore(xs[1..], x, j - 1);
    }
  }

  /** Low tips are cut off exactly at an outlier jump. */
  lemma CutOffIff(tips: seq<nat>, boundary: int, i: nat)
    requires |tips| >= 2 && AllPositive(tips) && i > 0
    ensures CutOff(tips, boundary) == i <==> IsOutlier(tips, boundary, i)
  {
    var jumps := Increases(tips);
    var highest := FindMax(jumps);
    forall j: nat | j + 1 < |tips|
      ensures jumps[j] == Jump(tips, j) && jumps[j] in jumps
    {
      IncreasesAreJumps(tips, j);
    }
    if CutOff(tips, boundary) == i {
      forall j: nat | j < i
        ensures Jump(tips, j) != highest
      {
        NotBefore(jumps, highest, j);
      }
    }
    if IsOutlier(tips, boundary, i) {
      assert highest == jumps[i];
      FoundFirst(jumps, highest, i);
    }
  }

  function Estimate(tips: seq<nat>, boundary: int): nat {
    var sorted := TextSort(NonZero(tips));
    if |sorted| == 0 then 0
    else if |sorted| == 1 then sorted[0]
    else
      SortedNonZero(tips);
      var values := sorted[CutOff(sorted, boundary)..];
      values[|values| / 2]
  }

  lemma SortedNonZero(tips: seq<nat>)
    ensures forall i :: 0 <= i < |TextSort(NonZero(tips))| ==>
              TextSort(NonZero(tips))[i] != 0 && TextSort(NonZero(tips))[i] in tips
  {
    var sorted := TextSort(NonZero(tips));
    TextSortPermutes(NonZero(tips));
    forall i | 0 <= i < |sorted|
      ensures sorted[i] in NonZero(tips)
    {
      assert sorted[i] in multiset(NonZero(tips));
    }
  }

  /** The estimate is a nonzero tip that was paid, or zero exactly when there is none. */
  lemma EstimateIsATip(tips: seq<nat>, boundary: int)
    ensures Estimate(tips, boundary) == 0 <==> forall t :: t in tips ==> t == 0
    ensures Estimate(tips, boundary) != 0 ==> Estimate(tips, boundary) in tips
  {
    SortedNonZero(tips);
    var some := NonZero(tips);
    if some != [] {
      assert some[0] in some;
    }
  }

  /** The estimate is the upper median of the sorted tips from the cut-off on. So it stands in their upper
      half, past the outlier jump if the low tips are cut off at one, and is at least the upper median
      of all whenever the sort is numeric. */
  lemma EstimateAtLeastMedian(tips: seq<nat>, boundary: int) returns (k: nat)
    requires NonZero(tips) != []
    ensures var sorted := TextSort(NonZero(tips));
            && multiset(sorted) == multiset(tips)[0 := 0]
            && |sorted| / 2 <= k < |sorted| && Estimate(tips, boundary) == sorted[k]
            && (|sorted| == 1 ==> k == 0)
            && (|sorted| >= 2 ==>
                  && AllPositive(sorted) && CutOff(sorted, boundary) < k
                  && var rest := |sorted| - CutOff(sorted, boundary); k == CutOff(sorted, boundary) + rest / 2)
            && (TextAgrees(NonZero(tips)) ==> Ascending(sorted) && Estimate(tips, boundary) >= sorted[|sorted| / 2])
  {
    var sorted := TextSort(NonZero(tips));
    TextSortIsNumericIff(NonZero(tips));
    TextSortPermutes(NonZero(tips));
    NonZeroKeepsAll(tips);
    SortedNonZero(tips);
    if |sorted| == 1 {
      k := 0;
    } else {
      var from := CutOff(sorted, boundary);
      k := from + (|sorted| - from) / 2;
      MedianOfRest(sorted, from);
    }
  }

  lemma MedianOfRest(xs: seq<nat>, from: nat)
    requires from < |xs|
    ensures xs[from..][|xs[from..]| / 2] == xs[from + (|xs| - from) / 2]
  {
  }

  lemma SortOfSample()
    ensures TextSort(NonZero([2, 3, 10])) == [10, 2, 3]
  {
    assert Digits(10) == [1, 0];
    assert [2, 3, 10][1..] == [3, 10] && [3, 10][1..] == [10];
    assert NonZero([2, 3, 10]) == [2, 3, 10];
    assert TextSort([3, 10]) == [10, 3];
  }

  lemma CutOffOfSample()
    ensures CutOff([10, 2, 3], 200) == 0
  {
    assert [10, 2, 3][1..] == [2, 3] && [2, 3][1..] == [3];
    assert Increases([10, 2, 3]) == [-80, 50];
  }

  /** Where it is not, the estimate can fall below the median. */
  lemma EstimateBelowMedian()
    ensures TextSort(NonZero([2, 3, 10])) == [10, 2, 3] && !TextAgrees(NonZero([2, 3, 10]))
    ensures Estimate([2, 3, 10], 200) == 2 < 3
  {
    SortOfSample();
    CutOffOfSample();
    TextSortIsNumericIff(NonZero([2, 3, 10]));
    var sorted := [10, 2, 3];
    assert sorted[0] > sorted[1];
  }
}
