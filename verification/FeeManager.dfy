/** The fee manager: prices first sends and replacements, within the capped fee.
    Multipliers are in basis points. */
module FeeManager {
  import opened Common
  import PriorityFee

  datatype Category = PROJECTED | NORMAL | AGGRESSIVE

  datatype Options = Options(
    isEip1559: bool,
    legacyMultiplier: map<Category, nat>,
    legacyEnforceAggressive: bool,
    baseFeeMultiplier: map<Category, nat>,
    priorityFeeIncreaseBoundary: int,
    eip1559EnforceAggressive: bool,
    replaceBumperNormal: nat,
    replaceBumperAggressive: nat,
    replaceBumperEnforceAggressive: bool,
    overcappingAllowed: bool,
    overcappingAllowance: nat)

  ghost predicate Complete(o: Options) {
    forall c: Category :: c in o.legacyMultiplier && c in o.baseFeeMultiplier
  }

  /** What the node answers to a fee request: recent base fees and tips, and the gas price. */
  datatype Market = Market(baseFees: seq<nat>, tips: seq<nat>, gasPrice: nat)

  datatype Template = Template(nonce: nat, gas: nat, call: string)

  datatype Fee =
    | Legacy(gasPrice: nat)
    | Eip1559(maxFeePerGas: nat, maxPriorityFeePerGas: nat)
  {
    /** What a unit of gas can cost at most. */
    function Price(): nat {
      match this
      case Legacy(p) => p
      case Eip1559(m, _) => m
    }
  }

  datatype Tx = Tx(template: Template, fee: Fee)

  type Outcome<T> = Result<T, string>

  function Scale(x: nat, multiplier: nat): nat {
    x * multiplier / 10_000
  }

  function Max(a: nat, b: nat): nat {
    if a > b then a else b
  }

  /** PROJECTED is the enumeration's zero, so asking for it is asking for nothing. */
  function Effective(asked: Option<Category>, enforceAggressive: bool): (c: Category)
    ensures !c.PROJECTED?
    ensures asked == Some(NORMAL) ==> c.NORMAL?
    ensures asked == Some(AGGRESSIVE) ==> c.AGGRESSIVE?
    ensures asked.None? || asked == Some(PROJECTED) ==> (c.AGGRESSIVE? <==> enforceAggressive)
  {
    if asked.Some? && !asked.value.PROJECTED? then asked.value
    else if enforceAggressive then AGGRESSIVE
    else NORMAL
  }

  /** The target base fee, from the last two base fees known. */
  function BaseFee(o: Options, category: Category, market: Market): nat
    requires Complete(o)
  {
    var n := |market.baseFees|;
    Scale(PriorityFee.FindMax(if n > 2 then market.baseFees[n - 2..] else market.baseFees), o.baseFeeMultiplier[category])
  }

  function FetchFee(o: Options, category: Category, market: Market): Fee
    requires Complete(o)
  {
    var tip := PriorityFee.Estimate(market.tips, o.priorityFeeIncreaseBoundary);
    Eip1559(BaseFee(o, category, market) + tip, tip)
  }

  function FetchGasPrice(o: Options, category: Category, market: Market): nat
    requires Complete(o)
  {
    Scale(market.gasPrice, o.legacyMultiplier[category])
  }

  /** `estimate` is the gas estimate asked for when the transaction has no gas limit. */
  function CheckCapping(o: Options, gas: nat, price: nat, cappedFee: Option<int>, estimate: Outcome<nat>): Outcome<()> {
    if cappedFee.None? || cappedFee.value <= 0 then Ok(())
    else if gas == 0 && estimate.Err? then Err(estimate.error)
    else
      var txFee := price * if gas != 0 then gas else estimate.value;
      if txFee > cappedFee.value then
        if !o.overcappingAllowed then Err("Overcapping disabled")
        else if txFee > Scale(cappedFee.value, o.overcappingAllowance) then Err("Unable to populate pricing")
        else Ok(())
      else Ok(())
  }

  function CheckCappingAndPopulate(
    o: Options, t: Template, fee: Fee, cappedFee: Option<int>, estimate: Outcome<nat>): Outcome<Tx>
  {
    match CheckCapping(o, t.gas, fee.Price(), cappedFee, estimate)
    case Ok(_) => Ok(Tx(t, fee))
    case Err(e) => Err(e)
  }

  function PopulateTx(
    o: Options, t: Template, cappedFee: Option<int>, asked: Option<Category>,
    market: Outcome<Market>, estimate: Outcome<nat>): Outcome<Tx>
    requires Complete(o)
  {
    if market.Err? then Err(market.error)
    else
      var fee := if o.isEip1559 then FetchFee(o, Effective(asked, o.eip1559EnforceAggressive), market.value)
                 else Legacy(FetchGasPrice(o, Effective(asked, o.legacyEnforceAggressive), market.value));
      CheckCappingAndPopulate(o, t, fee, cappedFee, estimate)
  }

  function Bumper(o: Options): nat {
    if o.replaceBumperEnforceAggressive then o.replaceBumperAggressive else o.replaceBumperNormal
  }

  /** The price of a replacement: the market's, but no less than the replaced one's, bumped. */
  function ReplacementFee(o: Options, replaced: Fee, asked: Option<Category>, market: Market): Fee
    requires Complete(o) && replaced.Eip1559? == o.isEip1559
  {
    match replaced
    case Eip1559(oldMax, oldPriority) =>
      var category := Effective(asked, o.eip1559EnforceAggressive);
      var priority := Max(FetchFee(o, category, market).maxPriorityFeePerGas, Scale(oldPriority, Bumper(o)));
      Eip1559(Max(BaseFee(o, category, market) + priority, Scale(oldMax, Bumper(o))), priority)
    case Legacy(oldPrice) =>
      var category := Effective(asked, o.legacyEnforceAggressive);
      Legacy(Max(FetchGasPrice(o, category, market), Scale(oldPrice, Bumper(o))))
  }

  function PopulateReplacementTx(
    o: Options, replaced: Tx, cappedFee: Option<int>, asked: Option<Category>,
    market: Outcome<Market>, estimate: Outcome<nat>): Outcome<Tx>
    requires Complete(o)
  {
    if market.Err? then Err(market.error)
    else if replaced.fee.Eip1559? != o.isEip1559 then Err("cannot convert undefined to a bigint")
    else
      CheckCappingAndPopulate(o, replaced.template, ReplacementFee(o, replaced.fee, asked, market.value), cappedFee, estimate)
  }

  // ---------------------------------------------------------------- what the market asks

  /** Prices are scaled by basis points and rounded down. */
  lemma ScaleRoundsDown(x: nat, multiplier: nat)
    ensures Scale(x, multiplier) * 10_000 <= x * multiplier < (Scale(x, multiplier) + 1) * 10_000
  {
  }

  /** One of the last two base fees known, those of the latest block and the pending one. */
  ghost predicate IsCurrent(market: Market, fee: nat) {
    exists i :: 0 <= i < |market.baseFees| && |market.baseFees| - 2 <= i && market.baseFees[i] == fee
  }

  /** The EIP-1559 fee asked of the market: the estimated tip, on top of the greater of the current base
      fees, by the multiplier of the category. */
  lemma FetchedFee(o: Options, category: Category, market: Market)
    requires Complete(o)
    ensures var fee, multiplier := FetchFee(o, category, market), o.baseFeeMultiplier[category];
            var base := fee.maxFeePerGas - fee.maxPriorityFeePerGas;
            && fee.maxPriorityFeePerGas == PriorityFee.Estimate(market.tips, o.priorityFeeIncreaseBoundary)
            && (forall b: nat :: IsCurrent(market, b) ==> Scale(b, multiplier) <= base)
            && (base == 0 || exists b: nat :: IsCurrent(market, b) && base == Scale(b, multiplier))
  {
    var n := |market.baseFees|;
    var latest := if n > 2 then market.baseFees[n - 2..] else market.baseFees;
    var greatest, multiplier := PriorityFee.FindMax(latest), o.baseFeeMultiplier[category];
    forall b: nat | IsCurrent(market, b)
      ensures Scale(b, multiplier) <= Scale(greatest, multiplier)
    {
      var i :| 0 <= i < n && n - 2 <= i && market.baseFees[i] == b;
      assert latest[i - (n - |latest|)] == b;
      assert (b as int) in latest;
      ScaleMonotone(b, greatest, multiplier);
    }
    if greatest in latest {
      var j :| 0 <= j < |latest| && latest[j] == greatest;
      assert market.baseFees[j + (n - |latest|)] == greatest;
      assert IsCurrent(market, greatest);
    }
  }

  /** The legacy price asked of the market: its gas price, by the multiplier of the category. */
  lemma FetchedGasPrice(o: Options, category: Category, market: Market)
    requires Complete(o)
    ensures var p := FetchGasPrice(o, category, market);
            p * 10_000 <= market.gasPrice * o.legacyMultiplier[category] < (p + 1) * 10_000
  {
    ScaleRoundsDown(market.gasPrice, o.legacyMultiplier[category]);
  }

  // ---------------------------------------------------------------- capping

  /** The most a transaction may cost under a positive capped fee. */
  ghost function Limit(o: Options, cappedFee: nat): nat {
    if o.overcappingAllowed then Max(cappedFee, Scale(cappedFee, o.overcappingAllowance)) else cappedFee
  }

  /** The check passes exactly for the costs within the limit. */
  lemma CappingIff(o: Options, gas: nat, price: nat, cappedFee: int, estimate: Outcome<nat>)
    requires cappedFee > 0 && (gas != 0 || estimate.Ok?)
    ensures var limit := if gas != 0 then gas else estimate.value;
            CheckCapping(o, gas, price, Some(cappedFee), estimate).Ok? <==> price * limit <= Limit(o, cappedFee)
  {
  }

  /** The price can be paid for the gas: without a positive capped fee always, else if the gas is known
      or can be estimated, and the cost is within the limit. */
  ghost predicate Payable(o: Options, gas: nat, price: nat, cappedFee: Option<int>, estimate: Outcome<nat>) {
    cappedFee.Some? && cappedFee.value > 0 ==>
      && (gas != 0 || estimate.Ok?)
      && price * (if gas != 0 then gas else estimate.value) <= Limit(o, cappedFee.value)
  }

  lemma PayableIff(o: Options, gas: nat, price: nat, cappedFee: Option<int>, estimate: Outcome<nat>)
    ensures CheckCapping(o, gas, price, cappedFee, estimate).Ok? <==> Payable(o, gas, price, cappedFee, estimate)
  {
    if cappedFee.Some? && cappedFee.value > 0 && (gas != 0 || estimate.Ok?) {
      CappingIff(o, gas, price, cappedFee.value, estimate);
    }
  }

  /** A transaction fit to be signed: within the capped fee, and with the priority fee no greater
      than the whole fee. */
  ghost predicate Affordable(o: Options, cappedFee: Option<int>, tx: Tx) {
    && (cappedFee.Some? && cappedFee.value > 0 && tx.template.gas != 0 ==>
          tx.fee.Price() * tx.template.gas <= Limit(o, cappedFee.value))
    && tx.fee.Eip1559? == o.isEip1559
    && (tx.fee.Eip1559? ==> tx.fee.maxPriorityFeePerGas <= tx.fee.maxFeePerGas)
  }

  lemma PopulatedIsAffordable(
    o: Options, t: Template, cappedFee: Option<int>, asked: Option<Category>, market: Outcome<Market>, estimate: Outcome<nat>)
    requires Complete(o)
    ensures var r := PopulateTx(o, t, cappedFee, asked, market, estimate);
            r.Ok? ==> Affordable(o, cappedFee, r.value) && r.value.template == t
  {
  }

  // ---------------------------------------------------------------- the next block

  /** The base fee of a block from its parent's, as in the "Specification" section of EIP-1559:
      up by at most an eighth, and by at least one, when the parent used more than its target. */
  ghost function NextBaseFee(base: nat, target: nat, used: nat): int
    requires 0 < target
  {
    if used == target then base
    else if used > target then base + Max(Share(base, used - target, target) / 8, 1)
    else base - Share(base, target - used, target) / 8
  }

  ghost function Share(x: nat, part: nat, whole: nat): nat
    requires 0 < whole
  {
    x * part / whole
  }

  lemma ShareAtMost(x: nat, part: nat, whole: nat)
    requires 0 < whole && part <= whole
    ensures Share(x, part, whole) <= x
  {
    var q, r := x * part / whole, x * part % whole;
    ProductMonotone(part, whole, x);
    assert x * whole >= x * part == whole * q + r;
    assert whole * (q - x) == whole * q - whole * x;
    if q > x {
      Multiples(whole, q - x);
    }
  }

  lemma WholeShare(x: nat, whole: nat)
    requires 0 < whole
    ensures Share(x, whole, whole) == x
  {
    ShareAtMost(x, whole, whole);
    var q, r := x * whole / whole, x * whole % whole;
    assert x * whole == whole * q + r;
    assert whole * (x - q) == whole * x - whole * q;
    if q < x {
      Multiples(whole, x - q);
    }
  }

  lemma ProductMonotone(x: nat, y: nat, d: nat)
    requires x <= y
    ensures x * d <= y * d
  {
    assert y * d == x * d + (y - x) * d;
  }

  lemma FullBlockRaisesMost(base: nat, target: nat, used: nat)
    requires 0 < target && used <= 2 * target
    ensures NextBaseFee(base, target, used) <= NextBaseFee(base, target, 2 * target) == base + Max(base / 8, 1)
  {
    WholeShare(base, target);
    if used > target {
      ShareAtMost(base, used - target, target);
    }
  }

  /** The last two base fees known are those of the latest block and the pending one. */
  ghost function Pending(market: Market): nat {
    PriorityFee.FindMax(if |market.baseFees| > 2 then market.baseFees[|market.baseFees| - 2..] else market.baseFees)
  }

  /** With its default multiplier of an eighth on top, a transaction priced as AGGRESSIVE still
      pays its whole priority fee in the block after the pending one, however full that one gets:
      exactly when the base fee is at least 8. */
  lemma AggressiveCoversNextBlockIff(o: Options, market: Market, target: nat)
    requires Complete(o) && o.baseFeeMultiplier[AGGRESSIVE] == 11_250 && 0 < target
    ensures var fee := FetchFee(o, AGGRESSIVE, market);
            (forall used: nat :: used <= 2 * target ==>
               NextBaseFee(Pending(market), target, used) + fee.maxPriorityFeePerGas <= fee.maxFeePerGas)
            <==> Pending(market) >= 8
  {
    var base, fee := Pending(market), FetchFee(o, AGGRESSIVE, market);
    assert fee.maxFeePerGas == base * 11_250 / 10_000 + fee.maxPriorityFeePerGas;
    assert base * 11_250 / 10_000 == base + base / 8;
    FullBlockRaisesMost(base, target, 2 * target);
    if base >= 8 {
      forall used: nat | used <= 2 * target
        ensures NextBaseFee(base, target, used) + fee.maxPriorityFeePerGas <= fee.maxFeePerGas
      {
        FullBlockRaisesMost(base, target, used);
      }
    }
  }

  // ---------------------------------------------------------------- first sends

  /** Fee a is no dearer than fee b, field by field. */
  ghost predicate NoDearer(a: Fee, b: Fee) {
    match (a, b)
    case (Legacy(p), Legacy(q)) => p <= q
    case (Eip1559(m, t), Eip1559(n, u)) => m <= n && t <= u
    case _ => false
  }

  /** A fee for this category and market that the market takes: for EIP-1559 the priority fee asked,
      on top of the target base fee. */
  ghost predicate MeetsMarket(o: Options, category: Category, market: Market, fee: Fee)
    requires Complete(o)
  {
    match fee
    case Legacy(p) => FetchGasPrice(o, category, market) <= p
    case Eip1559(m, t) =>
      FetchFee(o, category, market).maxPriorityFeePerGas <= t && BaseFee(o, category, market) + t <= m
  }

  /** The least fee of its kind that meets the market. */
  ghost predicate IsLeastFee(o: Options, category: Category, market: Market, fee: Fee)
    requires Complete(o)
  {
    && fee.Eip1559? == o.isEip1559 && MeetsMarket(o, category, market, fee)
    && forall other: Fee :: other.Eip1559? == o.isEip1559 && MeetsMarket(o, category, market, other) ==> NoDearer(fee, other)
  }

  ghost function DefaultCategory(o: Options): Category {
    if (if o.isEip1559 then o.eip1559EnforceAggressive else o.legacyEnforceAggressive) then AGGRESSIVE else NORMAL
  }

  /** A first send costs the least that meets the market at the configured default. */
  lemma FirstSendIsLeast(
    o: Options, t: Template, cappedFee: Option<int>, market: Market, estimate: Outcome<nat>)
    requires Complete(o)
    ensures var r := PopulateTx(o, t, cappedFee, None, Ok(market), estimate);
            r.Ok? ==> r.value.template == t && IsLeastFee(o, DefaultCategory(o), market, r.value.fee)
  {
  }

  /** It is refused exactly if the market is not known or that cost cannot be paid. */
  lemma FirstSendIff(
    o: Options, t: Template, cappedFee: Option<int>, market: Outcome<Market>, estimate: Outcome<nat>, fee: Fee)
    requires Complete(o) && (market.Ok? ==> IsLeastFee(o, DefaultCategory(o), market.value, fee))
    ensures PopulateTx(o, t, cappedFee, None, market, estimate).Ok?
            <==> market.Ok? && Payable(o, t.gas, fee.Price(), cappedFee, estimate)
  {
    PayableIff(o, t.gas, fee.Price(), cappedFee, estimate);
    if market.Ok? {
      var category := DefaultCategory(o);
      var due := if o.isEip1559 then FetchFee(o, category, market.value) else Legacy(FetchGasPrice(o, category, market.value));
      assert MeetsMarket(o, category, market.value, due);
      assert NoDearer(fee, due);
    }
  }

  // ---------------------------------------------------------------- replacements

  /** Every fee field of the new fee is at least the old one's, bumped. */
  ghost predicate Bumped(multiplier: nat, old_: Fee, new_: Fee) {
    match (old_, new_)
    case (Legacy(p), Legacy(q)) => Scale(p, multiplier) <= q
    case (Eip1559(m, t), Eip1559(n, u)) => Scale(m, multiplier) <= n && Scale(t, multiplier) <= u
    case _ => false
  }

  lemma ReplacementIsBumped(
    o: Options, replaced: Tx, cappedFee: Option<int>, asked: Option<Category>, market: Outcome<Market>, estimate: Outcome<nat>)
    requires Complete(o)
    ensures var r := PopulateReplacementTx(o, replaced, cappedFee, asked, market, estimate);
            r.Ok? ==> Affordable(o, cappedFee, r.value) && r.value.template == replaced.template
                      && Bumped(Bumper(o), replaced.fee, r.value.fee)
  {
  }

  /** The price of a replacement is the least that meets the market and bumps what it replaces. */
  lemma ReplacementIsLeast(o: Options, replaced: Fee, asked: Option<Category>, market: Market, fee: Fee)
    requires Complete(o) && replaced.Eip1559? == o.isEip1559
    ensures var enforce := if o.isEip1559 then o.eip1559EnforceAggressive else o.legacyEnforceAggressive;
            var category, r := Effective(asked, enforce), ReplacementFee(o, replaced, asked, market);
            && MeetsMarket(o, category, market, r) && Bumped(Bumper(o), replaced, r)
            && (MeetsMarket(o, category, market, fee) && Bumped(Bumper(o), replaced, fee) ==> NoDearer(r, fee))
  {
  }

  /** A replacement is refused exactly if the market is not known, the transaction replaced was priced in
      the other way, or the cost cannot be paid. */
  lemma ReplacementIff(
    o: Options, replaced: Tx, cappedFee: Option<int>, asked: Option<Category>, market: Outcome<Market>, estimate: Outcome<nat>)
    requires Complete(o)
    ensures PopulateReplacementTx(o, replaced, cappedFee, asked, market, estimate).Ok? <==>
            && market.Ok? && replaced.fee.Eip1559? == o.isEip1559
            && Payable(o, replaced.template.gas, ReplacementFee(o, replaced.fee, asked, market.value).Price(), cappedFee, estimate)
  {
    if market.Ok? && replaced.fee.Eip1559? == o.isEip1559 {
      PayableIff(o, replaced.template.gas, ReplacementFee(o, replaced.fee, asked, market.value).Price(), cappedFee, estimate);
    }
  }

  /** The bumper is the aggressive one if that is enforced, and else the normal one. */
  lemma BumpedAsConfigured(o: Options, old_: Fee, new_: Fee)
    requires Bumped(Bumper(o), old_, new_)
    ensures o.replaceBumperEnforceAggressive ==> Bumped(o.replaceBumperAggressive, old_, new_)
    ensures !o.replaceBumperEnforceAggressive ==> Bumped(o.replaceBumperNormal, old_, new_)
  {
  }

  /** The manager as its users see it: prices for a template or for a replacement, at the i-th
      request. */
  datatype IEvmFeeManager = IEvmFeeManager(
    populateTx: (Template, nat) -> Outcome<Tx>,
    populateReplacementTx: (Tx, Option<Category>, nat) -> Outcome<Tx>)

  /** The manager in a market that answers each request as it likes. */
  function Manager(
    o: Options, cappedFee: Option<int>, market: nat -> Outcome<Market>, estimate: nat -> Outcome<nat>): IEvmFeeManager
    requires Complete(o)
  {
    IEvmFeeManager(
      (t: Template, i: nat) => PopulateTx(o, t, cappedFee, None, market(i), estimate(i)),
      (tx: Tx, asked: Option<Category>, i: nat) => PopulateReplacementTx(o, tx, cappedFee, asked, market(i), estimate(i)))
  }

  /** Whatever it is asked, the manager keeps the template, stays affordable, and bumps what it
      replaces. */
  ghost predicate Sound(m: IEvmFeeManager, o: Options, cappedFee: Option<int>) {
    && (forall t: Template, i: nat :: m.populateTx(t, i).Ok? ==>
          m.populateTx(t, i).value.template == t && Affordable(o, cappedFee, m.populateTx(t, i).value))
    && (forall tx: Tx, asked: Option<Category>, i: nat :: m.populateReplacementTx(tx, asked, i).Ok? ==>
          var r := m.populateReplacementTx(tx, asked, i).value;
          r.template == tx.template && Affordable(o, cappedFee, r) && Bumped(Bumper(o), tx.fee, r.fee))
  }

  lemma ManagerIsSound(
    o: Options, cappedFee: Option<int>, market: nat -> Outcome<Market>, estimate: nat -> Outcome<nat>)
    requires Complete(o)
    ensures Sound(Manager(o, cappedFee, market, estimate), o, cappedFee)
  {
    forall t: Template, i: nat {
      PopulatedIsAffordable(o, t, cappedFee, None, market(i), estimate(i));
    }
    forall tx: Tx, asked: Option<Category>, i: nat {
      ReplacementIsBumped(o, tx, cappedFee, asked, market(i), estimate(i));
    }
  }

  /** Rounding down eats a bump exactly when the raise is below one unit. */
  lemma BumpRaisesIff(x: nat, b: nat)
    requires b > 10_000
    ensures Scale(x, b) > x <==> x * (b - 10_000) >= 10_000
    ensures Scale(x, b) >= x
  {
    assert x * b == x * (b - 10_000) + x * 10_000;
  }

  /** From 11000 basis points on, a bump meets the ten per cent that nodes ask of a replacement. */
  lemma BumpMeetsTenPercent(x: nat, b: nat)
    requires b >= 11_000
    ensures Scale(x, b) >= x * 110 / 100
  {
    assert x * b == x * (b - 11_000) + x * 11_000;
    assert x * (b - 11_000) >= 0;
  }

  lemma ScaleMonotone(x: nat, y: nat, b: nat)
    requires x <= y
    ensures Scale(x, b) <= Scale(y, b)
  {
    assert y * b == x * b + (y - x) * b;
    assert (y - x) * b >= 0;
    QuotientMonotone(x * b, y * b);
  }

  lemma QuotientMonotone(a: nat, b: nat)
    requires a <= b
    ensures a / 10_000 <= b / 10_000
  {
  }
}
