/** The transaction broadcaster: sign and publish, poll for a receipt, replace what is stuck or
    underpriced, move on from a nonce that is taken, and finally look back for an older receipt.

    `BroadcastModel` says which histories of broadcasts are legal, given everything the node may
    answer; `Broadcasting` is the class that builds one, call by call. */
module BroadcastModel {
  import opened Common
  import opened FeeManager

  type Hash = string

  /** What an error message of the node mentions. */
  datatype Complaint = Complaint(tooLow: bool, nonce: bool, underpriced: bool, notMined: bool)

  datatype RpcError = NonceTooLow | TransactionUnderpriced | Stuck | Other

  function Classify(e: Complaint): RpcError {
    if e.tooLow && e.nonce then NonceTooLow
    else if e.underpriced || e.tooLow then TransactionUnderpriced
    else if e.notMined then Stuck
    else Other
  }

  /** The end of signing and publishing: a hash, or an error. */
  datatype SendAnswer = Accepted(hash: Hash) | Refused(error: Complaint)

  /** All answers of the node and the signer: the initial nonce; the gas limit for the k-th
      template; the outcome of publishing the i-th broadcast; the status found by its k-th poll,
      if any; and the status of its receipt when looking back. */
  datatype Rpc = Rpc(
    count: Outcome<nat>,
    gas: int -> Outcome<nat>,
    send: nat -> SendAnswer,
    poll: (nat, nat) -> Option<bool>,
    lookBack: nat -> Option<bool>)

  /** The fee manager is asked once for every broadcast: its i-th request prices the i-th one. */
  datatype Setup = Setup(
    sendMaxAttempts: int, pollingMaxAttempts: int, feeManager: IEvmFeeManager, call: string, rpc: Rpc)

  /** What the fee manager is asked to price. */
  datatype Request = First(template: Template) | Replacement(replaced: Tx, category: Option<Category>)

  datatype Broadcast = Broadcast(tx: Tx, attempt: int, hash: Option<Hash>)

  datatype Receipt = Receipt(hash: Hash, status: bool)

  // ---------------------------------------------------------------- one broadcast

  ghost predicate NonceTaken(s: Setup, i: nat) {
    s.rpc.send(i).Refused? && Classify(s.rpc.send(i).error).NonceTooLow?
  }

  /** The number of polls of an accepted broadcast that finds no receipt: at least one. */
  function MaxPolls(s: Setup): nat {
    if s.pollingMaxAttempts > 1 then s.pollingMaxAttempts else 1
  }

  /** The first poll, from the k-th on, that finds a receipt. */
  ghost predicate FoundAt(s: Setup, i: nat, k: nat) {
    && s.rpc.send(i).Accepted?
    && k < MaxPolls(s) && s.rpc.poll(i, k).Some?
    && forall j :: 0 <= j < k ==> s.rpc.poll(i, j).None?
  }

  ghost predicate Found(s: Setup, i: nat, status: bool) {
    exists k: nat {:trigger FoundAt(s, i, k)} :: FoundAt(s, i, k) && s.rpc.poll(i, k) == Some(status)
  }

  ghost predicate Unseen(s: Setup, i: nat) {
    s.rpc.send(i).Accepted? && forall k :: 0 <= k < MaxPolls(s) ==> s.rpc.poll(i, k).None?
  }

  /** The broadcast is to be replaced: refused as underpriced or stuck, or polled in vain. */
  ghost predicate Replaceable(s: Setup, i: nat) {
    Unseen(s, i) || (s.rpc.send(i).Refused? && Classify(s.rpc.send(i).error) in {TransactionUnderpriced, Stuck})
  }

  function HashOf(a: SendAnswer): Option<Hash> {
    match a
    case Accepted(h) => Some(h)
    case Refused(_) => None
  }

  // ---------------------------------------------------------------- legal histories

  /** The template at a nonce. A template is fetched at the start and after each taken nonce. */
  function TemplateAt(s: Setup, nonce: nat, k: int): Outcome<Template> {
    match s.rpc.gas(k)
    case Err(e) => Err(e)
    case Ok(gas) => Ok(Template(nonce, gas, s.call))
  }

  function FreshTx(s: Setup, t: Outcome<Template>, i: nat): Outcome<Tx> {
    match t
    case Err(e) => Err(e)
    case Ok(template) => s.feeManager.populateTx(template, i)
  }

  /** The last permitted attempt is priced aggressively. */
  function CategoryFor(s: Setup, attempt: int): Option<Category> {
    if s.sendMaxAttempts == attempt then Some(AGGRESSIVE) else None
  }

  /** The transaction due as the i-th of a history, if one is. */
  ghost predicate DueAt(s: Setup, bs: seq<Broadcast>, i: nat, r: Outcome<Tx>)
    requires i <= |bs|
  {
    if i == 0 then s.rpc.count.Ok? && r == FreshTx(s, TemplateAt(s, s.rpc.count.value, 0), 0)
    else DueAfter(s, bs[0], bs[i - 1], i, r)
  }

  /** The transaction due after a history. */
  ghost predicate Due(s: Setup, bs: seq<Broadcast>, r: Outcome<Tx>) {
    DueAt(s, bs, |bs|, r)
  }

  /** After a taken nonce a fresh transaction at the next one; else a replacement of the last. */
  ghost predicate DueAfter(s: Setup, first: Broadcast, last: Broadcast, n: nat, r: Outcome<Tx>)
    requires n > 0
  {
    var nonce := last.tx.template.nonce + 1;
    || (NonceTaken(s, n - 1) && r == FreshTx(s, TemplateAt(s, nonce, nonce - first.tx.template.nonce), n))
    || (Replaceable(s, n - 1) && r == s.feeManager.populateReplacementTx(last.tx, CategoryFor(s, n + 1), n))
  }

  /** The i-th broadcast is numbered, bears the hash it was accepted under, and is the one due. */
  ghost predicate LegalAt(s: Setup, bs: seq<Broadcast>, i: nat)
    requires i < |bs|
  {
    && bs[i].attempt == i + 1
    && bs[i].hash == HashOf(s.rpc.send(i))
    && DueAt(s, bs, i, Ok(bs[i].tx))
  }

  ghost predicate History(s: Setup, bs: seq<Broadcast>) {
    forall i :: 0 <= i < |bs| ==> LegalAt(s, bs, i)
  }

  function Answer(s: Setup, q: Request, i: nat): Outcome<Tx> {
    match q
    case First(template) => s.feeManager.populateTx(template, i)
    case Replacement(replaced, category) => s.feeManager.populateReplacementTx(replaced, category, i)
  }

  /** How the i-th broadcast was priced: as a replacement exactly when the one right before it is to
      be replaced, then of that very transaction, and as AGGRESSIVE exactly at the last permitted
      attempt. */
  ghost predicate PricedAt(s: Setup, bs: seq<Broadcast>, qs: seq<Request>, i: nat)
    requires i < |bs|
  {
    && i < |qs| && Answer(s, qs[i], i) == Ok(bs[i].tx)
    && (qs[i].Replacement? <==> i > 0 && Replaceable(s, i - 1))
    && (qs[i].Replacement? ==>
          && qs[i].replaced == bs[i - 1].tx
          && qs[i].category == if i + 1 == s.sendMaxAttempts then Some(AGGRESSIVE) else None)
  }

  ghost predicate Priced(s: Setup, bs: seq<Broadcast>, qs: seq<Request>) {
    forall i :: 0 <= i < |bs| ==> PricedAt(s, bs, qs, i)
  }

  /** The polls made for the i-th broadcast, from the k-th on. */
  function PollsFrom(s: Setup, i: nat, k: nat): (n: nat)
    requires k < MaxPolls(s)
    ensures n <= MaxPolls(s) - k
    decreases MaxPolls(s) - k
  {
    if s.rpc.poll(i, k).Some? || k + 1 == MaxPolls(s) then 1 else 1 + PollsFrom(s, i, k + 1)
  }

  lemma PollsUpTo(s: Setup, i: nat, k: nat)
    requires k < MaxPolls(s) && forall j :: 0 <= j < k ==> s.rpc.poll(i, j).None?
    ensures PollsFrom(s, i, 0) == k + PollsFrom(s, i, k)
  {
    if k > 0 {
      PollsUpTo(s, i, k - 1);
    }
  }

  function PollsOf(s: Setup, i: nat): (n: nat)
    ensures n <= MaxPolls(s)
  {
    if s.rpc.send(i).Accepted? then PollsFrom(s, i, 0) else 0
  }

  function TotalPolls(s: Setup, n: nat): nat {
    if n == 0 then 0 else TotalPolls(s, n - 1) + PollsOf(s, n - 1)
  }

  /** A run stops only with a receipt of the last broadcast, at an error that asks for nothing
      more, when what is due cannot be had, or with no attempt left for what is due. */
  ghost predicate Stops(s: Setup, bs: seq<Broadcast>, r: Outcome<Receipt>) {
    var n := |bs|;
    match r
    case Ok(receipt) =>
      n > 0 && bs[n - 1].hash == Some(receipt.hash) && Found(s, n - 1, receipt.status)
    case Err(e) =>
      || (n == 0 && (s.rpc.count == Err(e) || Due(s, bs, Err(e))))
      || (n > 0 && s.rpc.send(n - 1).Refused? && Classify(s.rpc.send(n - 1).error).Other?)
      || (n > 0 && Due(s, bs, Err(e)))
      || (n >= s.sendMaxAttempts && exists tx :: Due(s, bs, Ok(tx)))
  }

  // ---------------------------------------------------------------- looking back

  /** The receipt found when looking back at one broadcast. */
  function LookBack(s: Setup, bs: seq<Broadcast>, i: nat): Option<Receipt>
    requires i < |bs|
  {
    if bs[i].hash.Some? && s.rpc.lookBack(i).Some? then Some(Receipt(bs[i].hash.value, s.rpc.lookBack(i).value))
    else None
  }

  function FirstSuccess(s: Setup, bs: seq<Broadcast>, i: nat): (r: Option<nat>)
    requires i <= |bs|
    ensures r.Some? ==> i <= r.value < |bs| && LookBack(s, bs, r.value).Some? && LookBack(s, bs, r.value).value.status
    ensures forall j :: i <= j < (if r.Some? then r.value else |bs|) ==>
              !(LookBack(s, bs, j).Some? && LookBack(s, bs, j).value.status)
    decreases |bs| - i
  {
    if i == |bs| then None
    else if LookBack(s, bs, i).Some? && LookBack(s, bs, i).value.status then Some(i)
    else FirstSuccess(s, bs, i + 1)
  }

  function LastFailure(s: Setup, bs: seq<Broadcast>, n: nat): (r: Option<nat>)
    requires n <= |bs|
    ensures r.Some? ==> r.value < n && LookBack(s, bs, r.value).Some? && !LookBack(s, bs, r.value).value.status
    ensures forall j :: (if r.Some? then r.value + 1 else 0) <= j < n ==>
              !(LookBack(s, bs, j).Some? && !LookBack(s, bs, j).value.status)
  {
    if n == 0 then None
    else if LookBack(s, bs, n - 1).Some? && !LookBack(s, bs, n - 1).value.status then Some(n - 1)
    else LastFailure(s, bs, n - 1)
  }

  /** The earliest success among all broadcasts but the last, else the latest failure, else the
      error that ended the run. */
  function Seek(s: Setup, all: seq<Broadcast>, error: string): Outcome<Receipt> {
    var bs := if all == [] then [] else all[..|all| - 1];
    var success := FirstSuccess(s, bs, 0);
    var failure := LastFailure(s, bs, |bs|);
    if success.Some? then Ok(LookBack(s, bs, success.value).value)
    else if failure.Some? then Ok(LookBack(s, bs, failure.value).value)
    else Err(error)
  }

  /** What a run that stops after these broadcasts returns. */
  ghost predicate Returns(s: Setup, bs: seq<Broadcast>, r: Outcome<Receipt>) {
    exists raw ::
      && Stops(s, bs, raw)
      && r == match raw
              case Ok(receipt) => Ok(receipt)
              case Err(e) => Seek(s, bs, e)
  }
}

module Broadcasting {
  import opened Common
  import opened FeeManager
  import opened BroadcastModel

  lemma HistoryExtends(s: Setup, bs: seq<Broadcast>, b: Broadcast)
    requires History(s, bs) && Due(s, bs, Ok(b.tx))
    requires b.attempt == |bs| + 1 && b.hash == HashOf(s.rpc.send(|bs|))
    ensures History(s, bs + [b])
  {
    forall i | 0 <= i < |bs| + 1
      ensures LegalAt(s, bs + [b], i)
    {
      if i < |bs| {
        assert LegalAt(s, bs, i);
      }
    }
  }

  lemma PricedExtends(s: Setup, bs: seq<Broadcast>, qs: seq<Request>, b: Broadcast)
    requires Priced(s, bs, qs) && PricedAt(s, bs + [b], qs, |bs|)
    ensures Priced(s, bs + [b], qs)
  {
    forall i | 0 <= i < |bs| + 1
      ensures PricedAt(s, bs + [b], qs, i)
    {
      if i < |bs| {
        assert PricedAt(s, bs, qs, i);
      }
    }
  }

  lemma PricedStays(s: Setup, bs: seq<Broadcast>, qs: seq<Request>, q: Request)
    requires Priced(s, bs, qs)
    ensures Priced(s, bs, qs + [q])
  {
    forall i | 0 <= i < |bs|
      ensures PricedAt(s, bs, qs + [q], i)
    {
      assert PricedAt(s, bs, qs, i);
    }
  }

  /** A broadcast that a continuation holds on to is given by its place in `broadcasts`. */
  class EvmTxBroadcaster {
    const setup: Setup
    var broadcasts: seq<Broadcast>
    // What has been asked of the fee manager, and how many receipts have been asked for by polling.
    var requests: seq<Request>
    var polls: nat

    constructor (setup: Setup)
      ensures this.setup == setup && broadcasts == [] && requests == [] && polls == 0
    {
      this.setup := setup;
      broadcasts, requests, polls := [], [], 0;
    }

    function SendsLeft(): nat
      reads this
    {
      if setup.sendMaxAttempts > |broadcasts| then setup.sendMaxAttempts - |broadcasts| else 0
    }

    ghost predicate Valid()
      reads this
    {
      && History(setup, broadcasts)
      && Priced(setup, broadcasts, requests)
      && polls == TotalPolls(setup, |broadcasts|)
      && (broadcasts != [] ==> |broadcasts| <= setup.sendMaxAttempts)
    }

    method BroadcastAndWait() returns (r: Outcome<Receipt>)
      requires broadcasts == [] && requests == [] && polls == 0
      modifies this
      ensures Valid()
      ensures Returns(setup, broadcasts, r)
    {
      if setup.rpc.count.Err? {
        assert Seek(setup, [], setup.rpc.count.error) == Err(setup.rpc.count.error);
        assert Stops(setup, broadcasts, Err(setup.rpc.count.error));
        return Err(setup.rpc.count.error);
      }
      var t := GetTransactionTemplate(setup.rpc.count.value, 0);
      if t.Err? {
        assert Seek(setup, [], t.error) == Err(t.error);
        assert Stops(setup, broadcasts, Err(t.error));
        return Err(t.error);
      }
      var raw := PushTransaction(t.value);
      match raw {
        case Ok(receipt) =>
          r := raw;
        case Err(e) =>
          r := Seek(setup, broadcasts, e);
      }
    }

    method GetTransactionTemplate(nonce: nat, k: int) returns (t: Outcome<Template>)
      ensures t == TemplateAt(setup, nonce, k)
    {
      var gas := setup.rpc.gas(k);
      match gas {
        case Err(e) => t := Err(e);
        case Ok(limit) => t := Ok(Template(nonce, limit, setup.call));
      }
    }

    method PushTransaction(t: Template) returns (r: Outcome<Receipt>)
      requires Valid() && |requests| == |broadcasts|
      requires broadcasts == [] || NonceTaken(setup, |broadcasts| - 1)
      requires Due(setup, broadcasts, FreshTx(setup, Ok(t), |broadcasts|))
      modifies this
      ensures Valid() && old(broadcasts) <= broadcasts && Stops(setup, broadcasts, r)
      decreases SendsLeft(), 1
    {
      var n := |broadcasts|;
      PricedStays(setup, broadcasts, requests, First(t));
      requests := requests + [First(t)];
      var tx := setup.feeManager.populateTx(t, n);
      if tx.Err? {
        return Err(tx.error);
      }
      r := InitiateBroadcast(tx.value);
    }

    method PushReplacementTransaction(i: nat) returns (r: Outcome<Receipt>)
      requires Valid() && |requests| == |broadcasts| == i + 1 && Replaceable(setup, i)
      modifies this
      ensures Valid() && old(broadcasts) <= broadcasts && Stops(setup, broadcasts, r)
      decreases SendsLeft(), 1
    {
      assert LegalAt(setup, broadcasts, i);
      var isLastAttempt := setup.sendMaxAttempts == broadcasts[i].attempt + 1;
      var category := if isLastAttempt then Some(AGGRESSIVE) else None;
      PricedStays(setup, broadcasts, requests, Replacement(broadcasts[i].tx, category));
      requests := requests + [Replacement(broadcasts[i].tx, category)];
      var tx := setup.feeManager.populateReplacementTx(broadcasts[i].tx, category, |requests| - 1);
      assert Due(setup, broadcasts, tx);
      if tx.Err? {
        return Err(tx.error);
      }
      r := InitiateBroadcast(tx.value);
    }

    method InitiateBroadcast(tx: Tx) returns (r: Outcome<Receipt>)
      requires Valid() && |requests| == |broadcasts| + 1
      requires Due(setup, broadcasts, Ok(tx))
      requires PricedAt(setup, broadcasts + [Broadcast(tx, |broadcasts| + 1, None)], requests, |broadcasts|)
      modifies this
      ensures Valid() && old(broadcasts) <= broadcasts && Stops(setup, broadcasts, r)
      decreases SendsLeft(), 0
    {
      var attempt := |broadcasts| + 1;
      if attempt > setup.sendMaxAttempts {
        return Err("reached max broadcast attempts");
      }
      ghost var before := broadcasts;
      var i := |broadcasts|;
      broadcasts := broadcasts + [Broadcast(tx, attempt, None)];
      var answer := SignAndBroadcast(i, before);
      PricedExtends(setup, before, requests, broadcasts[i]);
      match answer {
        case Accepted(hash) => r := HandleBroadcastSuccess(hash, i);
        case Refused(error) => r := HandleBroadcastRejection(error, i);
      }
    }

    /** Publishes a broadcast and notes its hash. */
    method SignAndBroadcast(i: nat, ghost before: seq<Broadcast>) returns (answer: SendAnswer)
      requires History(setup, before) && |before| == i && |broadcasts| == i + 1 && broadcasts[..i] == before
      requires broadcasts[i].attempt == i + 1 && broadcasts[i].hash.None? && Due(setup, before, Ok(broadcasts[i].tx))
      modifies this`broadcasts
      ensures answer == setup.rpc.send(i)
      ensures broadcasts == before + [old(broadcasts)[i].(hash := HashOf(answer))]
      ensures History(setup, broadcasts)
    {
      answer := setup.rpc.send(i);
      if answer.Accepted? {
        broadcasts := broadcasts[i := broadcasts[i].(hash := Some(answer.hash))];
      }
      assert broadcasts == before + [broadcasts[i]];
      HistoryExtends(setup, before, broadcasts[i]);
    }

    method HandleBroadcastSuccess(hash: Hash, i: nat) returns (r: Outcome<Receipt>)
      requires |broadcasts| == |requests| == i + 1 <= setup.sendMaxAttempts
      requires History(setup, broadcasts) && Priced(setup, broadcasts, requests)
      requires polls == TotalPolls(setup, i)
      requires setup.rpc.send(i) == Accepted(hash)
      modifies this
      ensures Valid() && old(broadcasts) <= broadcasts && Stops(setup, broadcasts, r)
      decreases SendsLeft(), 2
    {
      assert LegalAt(setup, broadcasts, i);
      var seen := Poll(i);
      if seen.Some? {
        r := Ok(Receipt(hash, seen.value));
      } else {
        r := PushReplacementTransaction(i);
      }
    }

    /** Polls for a receipt of a broadcast: once, and then until the attempts are used up. */
    method Poll(i: nat) returns (seen: Option<bool>)
      requires setup.rpc.send(i).Accepted? && polls == TotalPolls(setup, i)
      modifies this`polls
      ensures polls == TotalPolls(setup, i + 1)
      ensures seen.Some? ==> Found(setup, i, seen.value)
      ensures seen.None? ==> Unseen(setup, i)
    {
      var pollingAttempt := 0;
      while true
        invariant pollingAttempt < MaxPolls(setup)
        invariant forall j :: 0 <= j < pollingAttempt ==> setup.rpc.poll(i, j).None?
        invariant polls == TotalPolls(setup, i) + pollingAttempt
        decreases MaxPolls(setup) - pollingAttempt
      {
        PollsUpTo(setup, i, pollingAttempt);
        pollingAttempt := pollingAttempt + 1;
        polls := polls + 1;
        seen := setup.rpc.poll(i, pollingAttempt - 1);
        if seen.Some? {
          assert FoundAt(setup, i, pollingAttempt - 1);
          return;
        }
        if pollingAttempt >= setup.pollingMaxAttempts {
          return;
        }
      }
    }

    method HandleBroadcastRejection(error: Complaint, i: nat) returns (r: Outcome<Receipt>)
      requires Valid() && |broadcasts| == |requests| == i + 1 && setup.rpc.send(i) == Refused(error)
      modifies this
      ensures Valid() && old(broadcasts) <= broadcasts && Stops(setup, broadcasts, r)
      ensures |broadcasts| > i + 1 ==>
                && (error.tooLow || error.underpriced || error.notMined)
                && |requests| > i + 1 && (requests[i + 1].First? <==> error.tooLow && error.nonce)
      decreases SendsLeft(), 2
    {
      var code := Classify(error);
      if code.NonceTooLow? {
        var nonce := broadcasts[i].tx.template.nonce + 1;
        var t := GetTransactionTemplate(nonce, nonce - broadcasts[0].tx.template.nonce);
        if t.Err? {
          return Err(t.error);
        }
        r := PushTransaction(t.value);
        assert |broadcasts| > i + 1 ==> PricedAt(setup, broadcasts, requests, i + 1);
        return;
      }
      if code.TransactionUnderpriced? {
        r := PushReplacementTransaction(i);
        assert |broadcasts| > i + 1 ==> PricedAt(setup, broadcasts, requests, i + 1);
        return;
      }
      if code.Stuck? {
        r := PushReplacementTransaction(i);
        assert |broadcasts| > i + 1 ==> PricedAt(setup, broadcasts, requests, i + 1);
        return;
      }
      r := Err("rejected by the node");
    }
  }
}
