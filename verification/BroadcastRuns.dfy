/** What all legal histories of the broadcaster have in common, for every behaviour of the node. */
module BroadcastRuns {
  import opened Common
  import opened FeeManager
  import opened BroadcastModel

  // ---------------------------------------------------------------- a run is fully determined

  /** Any two histories of the same run agree as far as both go. */
  lemma {:induction false} HistoryIsUnique(s: Setup, a: seq<Broadcast>, b: seq<Broadcast>, i: nat)
    requires History(s, a) && History(s, b) && i < |a| && i < |b|
    ensures a[i] == b[i]
  {
    if i > 0 {
      HistoryIsUnique(s, a, b, 0);
      HistoryIsUnique(s, a, b, i - 1);
    }
    assert LegalAt(s, a, i) && LegalAt(s, b, i);
  }

  /** Where a run stops, no history goes on within the permitted attempts. */
  lemma StopsAtTheEnd(s: Setup, a: seq<Broadcast>, r: Outcome<Receipt>, b: seq<Broadcast>)
    requires Stops(s, a, r) && History(s, a) && History(s, b) && |a| < |b|
    ensures |b| > s.sendMaxAttempts
  {
    var n := |a|;
    if n > 0 {
      HistoryIsUnique(s, a, b, 0);
      HistoryIsUnique(s, a, b, n - 1);
    }
    assert LegalAt(s, b, n);
    assert Due(s, a, Ok(b[n].tx));
  }

  // ---------------------------------------------------------------- what the node's refusals mean

  /** A refusal means a taken nonce exactly if it speaks of a nonce that is too low. */
  lemma NonceTakenIff(s: Setup, i: nat)
    ensures NonceTaken(s, i) <==> s.rpc.send(i).Refused? && s.rpc.send(i).error.tooLow && s.rpc.send(i).error.nonce
  {
  }

  /** A broadcast is to be replaced exactly if it was polled for in vain, or if the refusal speaks of an
      underpriced transaction, of something else that is too low, or of one not mined. */
  lemma ReplaceableIff(s: Setup, i: nat)
    ensures Replaceable(s, i) <==>
            || Unseen(s, i)
            || (s.rpc.send(i).Refused?
                && var e := s.rpc.send(i).error; !(e.tooLow && e.nonce) && (e.tooLow || e.underpriced || e.notMined))
  {
  }

  /** Any other refusal ends the run: nothing is due after it. */
  lemma OtherRefusalEnds(s: Setup, bs: seq<Broadcast>, error: string)
    requires bs != [] && s.rpc.send(|bs| - 1).Refused?
    requires var e := s.rpc.send(|bs| - 1).error; !e.tooLow && !e.underpriced && !e.notMined
    ensures Stops(s, bs, Err(error)) && forall r :: !Due(s, bs, r)
  {
  }

  /** A receipt seen ends the run too: nothing is due after it. */
  lemma ReceiptEnds(s: Setup, bs: seq<Broadcast>, status: bool)
    requires bs != [] && Found(s, |bs| - 1, status) && bs[|bs| - 1].hash.Some?
    ensures Stops(s, bs, Ok(Receipt(bs[|bs| - 1].hash.value, status))) && forall r :: !Due(s, bs, r)
  {
    var k: nat :| FoundAt(s, |bs| - 1, k) && s.rpc.poll(|bs| - 1, k) == Some(status);
  }

  // ---------------------------------------------------------------- bounds

  /** An accepted broadcast is polled at once, and then up to `pollingMaxAttempts` times in all: in vain
      if none of those polls finds a receipt, and else no longer than until the first that does. */
  lemma PolledIff(s: Setup, i: nat)
    ensures Unseen(s, i) <==>
            && s.rpc.send(i).Accepted? && s.rpc.poll(i, 0).None?
            && forall k :: 0 <= k < s.pollingMaxAttempts ==> s.rpc.poll(i, k).None?
    ensures Unseen(s, i) ==> PollsOf(s, i) == if s.pollingMaxAttempts >= 1 then s.pollingMaxAttempts else 1
    ensures forall k: nat {:trigger FoundAt(s, i, k)} :: FoundAt(s, i, k) ==>
              (k == 0 || k < s.pollingMaxAttempts) && PollsOf(s, i) == k + 1
  {
    if Unseen(s, i) {
      PollsUpTo(s, i, MaxPolls(s) - 1);
    }
    forall k: nat | FoundAt(s, i, k)
      ensures PollsOf(s, i) == k + 1
    {
      PollsUpTo(s, i, k);
    }
  }

  lemma {:induction false} PollsBounded(s: Setup, n: nat)
    ensures TotalPolls(s, n) <= n * MaxPolls(s)
  {
    if n > 0 {
      PollsBounded(s, n - 1);
      assert n * MaxPolls(s) == (n - 1) * MaxPolls(s) + MaxPolls(s);
    }
  }

  // ---------------------------------------------------------------- nonces

  /** How many of the first n broadcasts were refused because their nonce was taken. */
  ghost function NoncesTaken(s: Setup, n: nat): nat {
    if n == 0 then 0 else NoncesTaken(s, n - 1) + if NonceTaken(s, n - 1) then 1 else 0
  }

  /** The nonce starts at the account's count, moves up by one for each taken nonce, and stays put
      for each replacement. */
  lemma {:induction false} NonceCounts(s: Setup, bs: seq<Broadcast>, i: nat, o: Options, cappedFee: Option<int>)
    requires History(s, bs) && i < |bs| && Sound(s.feeManager, o, cappedFee)
    ensures s.rpc.count.Ok? && bs[i].tx.template.nonce == s.rpc.count.value + NoncesTaken(s, i)
  {
    assert LegalAt(s, bs, i);
    if i > 0 {
      NonceCounts(s, bs, i - 1, o, cappedFee);
      NonceCounts(s, bs, 0, o, cappedFee);
    }
  }

  /** Every transaction makes the call asked for, at the nonce that is next by the refusals so far, with
      the gas limit estimated when that nonce came up. */
  lemma {:induction false} TemplateIsCurrent(s: Setup, bs: seq<Broadcast>, i: nat, o: Options, cappedFee: Option<int>)
    requires History(s, bs) && i < |bs| && Sound(s.feeManager, o, cappedFee) && s.rpc.count.Ok?
    ensures var t, n := bs[i].tx.template, NoncesTaken(s, i);
            t.nonce == s.rpc.count.value + n && s.rpc.gas(n) == Ok(t.gas) && t.call == s.call
  {
    assert LegalAt(s, bs, i);
    NonceCounts(s, bs, i, o, cappedFee);
    if i > 0 {
      TemplateIsCurrent(s, bs, i - 1, o, cappedFee);
      NonceCounts(s, bs, 0, o, cappedFee);
    }
  }

  lemma {:induction false} TakenBetween(s: Setup, i: nat, j: nat)
    requires i <= j
    ensures NoncesTaken(s, i) <= NoncesTaken(s, j)
    ensures NoncesTaken(s, i) == NoncesTaken(s, j) <==> forall k :: i <= k < j ==> !NonceTaken(s, k)
    decreases j - i
  {
    if i < j {
      TakenBetween(s, i, j - 1);
    }
  }

  /** Two broadcasts compete for one nonce exactly when none from the one up to the other was refused
      because its nonce was taken. */
  lemma SameNonceIff(s: Setup, bs: seq<Broadcast>, i: nat, j: nat, o: Options, cappedFee: Option<int>)
    requires History(s, bs) && i <= j < |bs| && Sound(s.feeManager, o, cappedFee)
    ensures bs[i].tx.template.nonce == bs[j].tx.template.nonce <==> forall k :: i <= k < j ==> !NonceTaken(s, k)
  {
    NonceCounts(s, bs, i, o, cappedFee);
    NonceCounts(s, bs, j, o, cappedFee);
    TakenBetween(s, i, j);
  }

  /** Two published transactions do not exclude each other: an account spends each nonce once, but
      these have different ones. */
  ghost predicate TwoCanBeMined(bs: seq<Broadcast>) {
    exists i, j :: 0 <= i < j < |bs| && bs[i].hash.Some? && bs[j].hash.Some?
                   && bs[i].tx.template.nonce != bs[j].tx.template.nonce
  }

  /** A publication is followed by a refusal for a taken nonce, and that by another publication. */
  ghost predicate PublishedAround(s: Setup, bs: seq<Broadcast>) {
    exists i, k, j :: 0 <= i < k < j < |bs| && bs[i].hash.Some? && NonceTaken(s, k) && bs[j].hash.Some?
  }

  /** Two of our transactions can both be mined exactly if, after one was published, another was
      refused because its nonce was taken, and a later one was published. */
  lemma TwoCanBeMinedIff(s: Setup, bs: seq<Broadcast>, o: Options, cappedFee: Option<int>)
    requires History(s, bs) && Sound(s.feeManager, o, cappedFee)
    ensures TwoCanBeMined(bs) <==> PublishedAround(s, bs)
  {
    if TwoCanBeMined(bs) {
      var i, j :| 0 <= i < j < |bs| && bs[i].hash.Some? && bs[j].hash.Some?
                  && bs[i].tx.template.nonce != bs[j].tx.template.nonce;
      SameNonceIff(s, bs, i, j, o, cappedFee);
      assert LegalAt(s, bs, i);
      var k :| i <= k < j && NonceTaken(s, k);
      assert i < k;
    }
    if PublishedAround(s, bs) {
      var i, k, j :| 0 <= i < k < j < |bs| && bs[i].hash.Some? && NonceTaken(s, k) && bs[j].hash.Some?;
      SameNonceIff(s, bs, i, j, o, cappedFee);
    }
  }

  // ---------------------------------------------------------------- prices

  /** Every broadcast that was ever signed is affordable and well-formed. */
  lemma EveryBroadcastAffordable(s: Setup, bs: seq<Broadcast>, i: nat, o: Options, cappedFee: Option<int>)
    requires History(s, bs) && i < |bs| && Sound(s.feeManager, o, cappedFee)
    ensures Affordable(o, cappedFee, bs[i].tx)
  {
    assert LegalAt(s, bs, i);
  }

  /** The last permitted attempt, if it is a replacement, is priced as AGGRESSIVE. */
  lemma LastAttemptIsAggressive(s: Setup, bs: seq<Broadcast>, i: nat)
    requires History(s, bs) && 0 < i < |bs| && Replaceable(s, i - 1)
    ensures Ok(bs[i].tx) ==
            s.feeManager.populateReplacementTx(
              bs[i - 1].tx, if bs[i].attempt == s.sendMaxAttempts then Some(AGGRESSIVE) else None, i)
  {
    assert LegalAt(s, bs, i);
  }

  /** With the real manager, every broadcast that is not a replacement, the first one and any after a taken
      nonce, costs the least that meets the market at the configured default. */
  lemma FreshIsLeast(
    s: Setup, bs: seq<Broadcast>, i: nat, o: Options, cappedFee: Option<int>,
    market: nat -> Outcome<Market>, estimate: nat -> Outcome<nat>)
    requires Complete(o) && s.feeManager == Manager(o, cappedFee, market, estimate)
    requires History(s, bs) && i < |bs| && (i == 0 || NonceTaken(s, i - 1))
    ensures market(i).Ok? && IsLeastFee(o, DefaultCategory(o), market(i).value, bs[i].tx.fee)
  {
    assert LegalAt(s, bs, i);
    var t := bs[i].tx.template;
    var due := if i == 0 then TemplateAt(s, s.rpc.count.value, 0)
               else TemplateAt(s, bs[i - 1].tx.template.nonce + 1, bs[i - 1].tx.template.nonce + 1 - bs[0].tx.template.nonce);
    assert Ok(bs[i].tx) == PopulateTx(o, due.value, cappedFee, None, market(i), estimate(i));
    FirstSendIsLeast(o, due.value, cappedFee, market(i).value, estimate(i));
  }

  /** With the real manager, the last permitted attempt meets the market at AGGRESSIVE if it is a
      replacement, and any earlier replacement does at the configured default. */
  lemma ReplacementMeetsMarket(
    s: Setup, bs: seq<Broadcast>, i: nat, o: Options, cappedFee: Option<int>,
    market: nat -> Outcome<Market>, estimate: nat -> Outcome<nat>)
    requires Complete(o) && s.feeManager == Manager(o, cappedFee, market, estimate)
    requires History(s, bs) && 0 < i < |bs| && Replaceable(s, i - 1)
    ensures var enforce := if o.isEip1559 then o.eip1559EnforceAggressive else o.legacyEnforceAggressive;
            var category := if bs[i].attempt == s.sendMaxAttempts || enforce then AGGRESSIVE else NORMAL;
            market(i).Ok? && MeetsMarket(o, category, market(i).value, bs[i].tx.fee)
  {
    var asked := if bs[i].attempt == s.sendMaxAttempts then Some(AGGRESSIVE) else None;
    LastAttemptIsAggressive(s, bs, i);
    assert Ok(bs[i].tx) == PopulateReplacementTx(o, bs[i - 1].tx, cappedFee, asked, market(i), estimate(i));
    ReplacementIsLeast(o, bs[i - 1].tx.fee, asked, market(i).value, bs[i].tx.fee);
  }

  /** A price bumped n times, rounded down each time. */
  ghost function Repeat(x: nat, multiplier: nat, n: nat): nat {
    if n == 0 then x else Scale(Repeat(x, multiplier, n - 1), multiplier)
  }

  lemma {:induction false} RepeatGrows(x: nat, b: nat, n: nat)
    requires b > 10_000 && x * (b - 10_000) >= 10_000
    ensures Repeat(x, b, n) >= x + n
  {
    if n > 0 {
      RepeatGrows(x, b, n - 1);
      var y := Repeat(x, b, n - 1);
      ProductMonotone(x, y, b - 10_000);
      BumpRaisesIff(y, b);
    }
  }

  ghost predicate AtLeastRepeated(multiplier: nat, n: nat, old_: Fee, new_: Fee) {
    match (old_, new_)
    case (Legacy(p), Legacy(q)) => Repeat(p, multiplier, n) <= q
    case (Eip1559(m, t), Eip1559(k, u)) => Repeat(m, multiplier, n) <= k && Repeat(t, multiplier, n) <= u
    case _ => false
  }

  lemma BumpedOnceMore(multiplier: nat, n: nat, first: Fee, old_: Fee, new_: Fee)
    requires AtLeastRepeated(multiplier, n, first, old_) && Bumped(multiplier, old_, new_)
    ensures AtLeastRepeated(multiplier, n + 1, first, new_)
  {
    match (first, old_)
    case (Legacy(p), Legacy(q)) => ScaleMonotone(Repeat(p, multiplier, n), q, multiplier);
    case (Eip1559(m, t), Eip1559(k, u)) =>
      ScaleMonotone(Repeat(m, multiplier, n), k, multiplier);
      ScaleMonotone(Repeat(t, multiplier, n), u, multiplier);
  }

  lemma ReplacedOnce(s: Setup, bs: seq<Broadcast>, j: nat, o: Options, cappedFee: Option<int>)
    requires History(s, bs) && 0 < j < |bs| && Sound(s.feeManager, o, cappedFee) && Replaceable(s, j - 1)
    ensures bs[j].tx.template == bs[j - 1].tx.template && Bumped(Bumper(o), bs[j - 1].tx.fee, bs[j].tx.fee)
  {
    LastAttemptIsAggressive(s, bs, j);
  }

  lemma {:induction false} RepeatedBumps(fees: seq<Fee>, multiplier: nat, n: nat)
    requires n < |fees| && forall k :: 0 < k <= n ==> Bumped(multiplier, fees[k - 1], fees[k])
    ensures AtLeastRepeated(multiplier, n, fees[0], fees[n])
  {
    if n > 0 {
      RepeatedBumps(fees, multiplier, n - 1);
      BumpedOnceMore(multiplier, n - 1, fees[0], fees[n - 1], fees[n]);
    }
  }

  lemma {:induction false} SameTemplates(txs: seq<Tx>, n: nat)
    requires n < |txs| && forall k :: 0 < k <= n ==> txs[k].template == txs[k - 1].template
    ensures txs[n].template == txs[0].template
  {
    if n > 0 {
      SameTemplates(txs, n - 1);
    }
  }

  /** Along any number of consecutive replacements the transaction stays the same but for its fee,
      every field of which is at least the first one's, bumped as often. */
  lemma ReplacementChain(s: Setup, bs: seq<Broadcast>, i: nat, j: nat, o: Options, cappedFee: Option<int>)
    requires History(s, bs) && i <= j < |bs| && Sound(s.feeManager, o, cappedFee)
    requires forall k :: i <= k < j ==> Replaceable(s, k)
    ensures bs[j].tx.template == bs[i].tx.template
    ensures AtLeastRepeated(Bumper(o), j - i, bs[i].tx.fee, bs[j].tx.fee)
  {
    var txs := seq(j - i + 1, k requires 0 <= k <= j - i => bs[i + k].tx);
    var fees := seq(j - i + 1, k requires 0 <= k <= j - i => bs[i + k].tx.fee);
    forall k | 0 < k <= j - i
      ensures txs[k].template == txs[k - 1].template && Bumped(Bumper(o), fees[k - 1], fees[k])
    {
      ReplacedOnce(s, bs, i + k, o, cappedFee);
    }
    SameTemplates(txs, j - i);
    RepeatedBumps(fees, Bumper(o), j - i);
  }

  // ---------------------------------------------------------------- looking back

  /** When looking back, the i-th broadcast is found to have been published and mined. */
  ghost predicate HasReceipt(s: Setup, i: nat, status: bool) {
    s.rpc.send(i).Accepted? && s.rpc.lookBack(i) == Some(status)
  }

  lemma LookBackIff(s: Setup, bs: seq<Broadcast>, i: nat)
    requires History(s, bs) && i < |bs|
    ensures LookBack(s, bs, i).Some? <==> s.rpc.send(i).Accepted? && s.rpc.lookBack(i).Some?
    ensures LookBack(s, bs, i).Some? ==>
              && HasReceipt(s, i, LookBack(s, bs, i).value.status)
              && s.rpc.send(i) == Accepted(LookBack(s, bs, i).value.hash)
  {
    assert LegalAt(s, bs, i);
  }

  /** Looking back finds a receipt exactly when one of the broadcasts before the last was published
      and has one: the last broadcast is never looked at. */
  lemma SeekFindsIff(s: Setup, bs: seq<Broadcast>, error: string)
    requires History(s, bs)
    ensures Seek(s, bs, error).Ok? <==>
            exists i :: 0 <= i < |bs| - 1 && (HasReceipt(s, i, true) || HasReceipt(s, i, false))
  {
    forall i | 0 <= i < |bs|
      ensures LookBack(s, bs, i).Some? <==> HasReceipt(s, i, true) || HasReceipt(s, i, false)
    {
      LookBackIff(s, bs, i);
    }
    if bs != [] {
      var front := bs[..|bs| - 1];
      assert forall i :: 0 <= i < |front| ==> LookBack(s, front, i) == LookBack(s, bs, i);
      var success, failure := FirstSuccess(s, front, 0), LastFailure(s, front, |front|);
      if success.Some? {
        assert LookBack(s, bs, success.value).Some?;
      } else if failure.Some? {
        assert LookBack(s, bs, failure.value).Some?;
      }
    }
  }

  /** The receipt found is of a hash this run published: the earliest success, or with no success
      the latest failure; with neither the original error stands. */
  lemma SeekPrefers(s: Setup, bs: seq<Broadcast>, error: string)
    requires History(s, bs)
    ensures match Seek(s, bs, error)
            case Err(e) => e == error
            case Ok(r) => exists i ::
              && 0 <= i < |bs| - 1 && s.rpc.send(i) == Accepted(r.hash) && HasReceipt(s, i, r.status)
              && (forall j :: 0 <= j < |bs| - 1 && HasReceipt(s, j, true) ==> r.status && i <= j)
              && (forall j :: 0 <= j < |bs| - 1 && HasReceipt(s, j, false) ==> r.status || j <= i)
  {
    forall i | 0 <= i < |bs|
      ensures LookBack(s, bs, i).Some? && LookBack(s, bs, i).value.status <==> HasReceipt(s, i, true)
      ensures LookBack(s, bs, i).Some? && !LookBack(s, bs, i).value.status <==> HasReceipt(s, i, false)
      ensures LookBack(s, bs, i).Some? ==> s.rpc.send(i) == Accepted(LookBack(s, bs, i).value.hash)
    {
      LookBackIff(s, bs, i);
    }
    if bs != [] {
      var front := bs[..|bs| - 1];
      assert forall i :: 0 <= i < |front| ==> LookBack(s, front, i) == LookBack(s, bs, i);
      var success, failure := FirstSuccess(s, front, 0), LastFailure(s, front, |front|);
      if success.Some? {
        assert HasReceipt(s, success.value, true);
      } else if failure.Some? {
        assert HasReceipt(s, failure.value, false);
      }
    }
  }

  // ---------------------------------------------------------------- two runs that end badly

  const FLAT := map[PROJECTED := 10_000, NORMAL := 10_000, AGGRESSIVE := 10_000]
  const OPTIONS := Options(false, FLAT, false, FLAT, 200, false, 11_000, 11_000, false, true, 30_000)

  lemma FlatPrices()
    ensures Complete(OPTIONS)
    ensures FetchGasPrice(OPTIONS, NORMAL, Market([], [], 100)) == 100
    ensures ReplacementFee(OPTIONS, Legacy(100), None, Market([], [], 100)) == Legacy(110)
  {
    forall c: Category
      ensures c in FLAT && FLAT[c] == 10_000
    {
      match c
      case PROJECTED =>
      case NORMAL =>
      case AGGRESSIVE =>
    }
    assert Scale(100, 11_000) == 110;
  }

  /** A node in a calm market: a gas price of 100, and no receipt ever seen by polling once. */
  ghost function Calm(sendMaxAttempts: int, send: nat -> SendAnswer, lookBack: nat -> Option<bool>): Setup {
    FlatPrices();
    Setup(sendMaxAttempts, 1,
          Manager(OPTIONS, None, (i: nat) => Ok(Market([], [], 100)), (i: nat) => Ok(0)), "",
          Rpc(Ok(7), (k: int) => Ok(21_000), send, (i: nat, k: nat) => None, lookBack))
  }

  lemma CalmPrices(s: Setup, n: int, send: nat -> SendAnswer, lookBack: nat -> Option<bool>, nonce: nat, i: nat)
    requires s == Calm(n, send, lookBack)
    ensures var t := Template(nonce, 21_000, "");
            && s.feeManager.populateTx(t, i) == Ok(Tx(t, Legacy(100)))
            && s.feeManager.populateReplacementTx(Tx(t, Legacy(100)), None, i) == Ok(Tx(t, Legacy(110)))
  {
    FlatPrices();
    var t, market: Outcome<Market>, estimate: Outcome<nat> := Template(nonce, 21_000, ""), Ok(Market([], [], 100)), Ok(0);
    assert s.feeManager.populateTx(t, i) == PopulateTx(OPTIONS, t, None, None, market, estimate);
    assert s.feeManager.populateReplacementTx(Tx(t, Legacy(100)), None, i)
        == PopulateReplacementTx(OPTIONS, Tx(t, Legacy(100)), None, None, market, estimate);
  }

  ghost function Sent(nonce: nat, gasPrice: nat, attempt: int, hash: Option<Hash>): Broadcast {
    Broadcast(Tx(Template(nonce, 21_000, ""), Legacy(gasPrice)), attempt, hash)
  }

  /** A run whose attempts are used up has made just the broadcasts of the longest history. */
  lemma RunMakes(s: Setup, full: seq<Broadcast>, bs: seq<Broadcast>, r: Outcome<Receipt>)
    requires History(s, full) && |full| == s.sendMaxAttempts
    requires History(s, bs) && |bs| <= s.sendMaxAttempts && Returns(s, bs, r)
    ensures bs == full
  {
    var raw :| Stops(s, bs, raw);
    if |bs| < |full| {
      StopsAtTheEnd(s, bs, raw, full);
    }
    forall i | 0 <= i < |bs|
      ensures bs[i] == full[i]
    {
      HistoryIsUnique(s, bs, full, i);
    }
  }

  /** The second of three attempts is refused: the first one's nonce is taken. */
  ghost function TakenInBetween(): Setup {
    Calm(3, (i: nat) => if i == 1 then Refused(Complaint(true, true, false, false))
                        else Accepted(if i == 0 then "0xa" else "0xb"),
         (i: nat) => None)
  }

  ghost const TWICE := [Sent(7, 100, 1, Some("0xa")), Sent(7, 110, 2, None), Sent(8, 100, 3, Some("0xb"))]

  lemma TwiceIsLegal()
    ensures History(TakenInBetween(), TWICE)
  {
    var s := TakenInBetween();
    CalmPrices(s, 3, s.rpc.send, s.rpc.lookBack, 7, 0);
    CalmPrices(s, 3, s.rpc.send, s.rpc.lookBack, 7, 1);
    CalmPrices(s, 3, s.rpc.send, s.rpc.lookBack, 8, 2);
    assert Unseen(s, 0) && NonceTaken(s, 1);
    assert LegalAt(s, TWICE, 0) && LegalAt(s, TWICE, 1) && LegalAt(s, TWICE, 2);
  }

  /** A run of the broadcaster that publishes two transactions, both of which can be mined. */
  lemma BothCanBeMined(bs: seq<Broadcast>, r: Outcome<Receipt>)
    requires History(TakenInBetween(), bs) && |bs| <= 3 && Returns(TakenInBetween(), bs, r)
    ensures TwoCanBeMined(bs)
  {
    TwiceIsLegal();
    RunMakes(TakenInBetween(), TWICE, bs, r);
    assert bs[0].hash.Some? && bs[2].hash.Some?;
  }

  /** A single attempt, not mined while it is polled for, but by the time of looking back. */
  ghost function MinedLate(): Setup {
    Calm(1, (i: nat) => Accepted("0xa"), (i: nat) => Some(true))
  }

  /** Every run of the broadcaster against it fails, although its transaction has been mined. */
  lemma MinedLastIsMissed(bs: seq<Broadcast>, r: Outcome<Receipt>)
    requires History(MinedLate(), bs) && |bs| <= 1 && Returns(MinedLate(), bs, r)
    ensures r.Err? && |bs| == 1 && HasReceipt(MinedLate(), 0, true)
  {
    var s, full := MinedLate(), [Sent(7, 100, 1, Some("0xa"))];
    CalmPrices(s, 1, s.rpc.send, s.rpc.lookBack, 7, 0);
    assert LegalAt(s, full, 0);
    RunMakes(s, full, bs, r);
    forall e: string {
      SeekFindsIff(s, bs, e);
    }
  }
}
