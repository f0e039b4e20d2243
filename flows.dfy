/** The two buy-then-spray flows: a wizard (amount, recipients, breakdown, spraying, complete)
    that shows what the recipients will get after the fees, then either buys the asset through
    the onramp and sprays it, or sprays funds the wallet already holds. `BuyAndSpraayFlow` lets
    the user buy USDC or ETH; `SpraayFlow` is the USDC-only copy, with its own fee formula. */
module Flows {
  import opened Wrappers
  import opened Text
  import opened Amounts
  import opened Contracts
  import opened Errors
  import opened Recipients
  import opened SprayProtocol
  import opened SprayHook

  datatype Step = AmountStep | RecipientsStep | BreakdownStep | SprayingStep | CompleteStep

  datatype SplitMode = Even | Custom

  datatype BuyAsset = BuyUsdc | BuyEth

  /** Which of the two pages: `BuyAndSpraayFlow` (USDC or ETH) or `SpraayFlow` (USDC only). */
  datatype Variant = AnyAsset | UsdcOnly

  /** The asset's name, which is also the token passed to `executeSpray`. */
  function AssetName(a: BuyAsset): string {
    match a
    case BuyUsdc => "USDC"
    case BuyEth => "ETH"
  }

  // ---------------------------------------------------------------------------------------
  // The fee breakdown, over exact reals

  /** The protocol fee, 30 basis points, as a fraction. */
  const SpraayFeeRate: real := 30.0 / 10000.0

  /** The estimated network cost in dollars. */
  const NetworkFeeUsd: real := 0.05

  /** `getOnrampFeeRate`: Coinbase charges nothing for USDC on Base and about 1.5% for ETH. */
  function OnrampFeeRate(a: BuyAsset): real {
    if a == BuyUsdc then 0.0 else 0.015
  }

  function Max0(x: real): real {
    if x < 0.0 then 0.0 else x
  }

  datatype Breakdown = Breakdown(onrampFee: real, spraayFee: real, totalFees: real, distributable: real)

  /** The fees and what is left to distribute. The buy-any-asset page takes the protocol fee on
      what the onramp leaves; the USDC-only page takes it on the whole spend, with a zero onramp
      fee. */
  function FlowBreakdown(v: Variant, a: BuyAsset, totalSpend: real): Breakdown {
    match v
    case AnyAsset =>
      var onrampFee := totalSpend * OnrampFeeRate(a);
      var afterOnramp := totalSpend - onrampFee;
      var spraayFee := afterOnramp * SpraayFeeRate;
      var totalFees := onrampFee + spraayFee + NetworkFeeUsd;
      Breakdown(onrampFee, spraayFee, totalFees, Max0(totalSpend - totalFees))
    case UsdcOnly =>
      var spraayFee := totalSpend * SpraayFeeRate;
      var onrampFee := totalSpend * 0.0;
      var totalFees := spraayFee + onrampFee + NetworkFeeUsd;
      Breakdown(onrampFee, spraayFee, totalFees, Max0(totalSpend - totalFees))
  }

  /** What is left is never negative, never more than the spend, and otherwise the spend kept
      by the onramp, less 0.3%, less the network estimate. */
  lemma BreakdownBounds(v: Variant, a: BuyAsset, totalSpend: real)
    requires v == UsdcOnly ==> a == BuyUsdc
    ensures var b := FlowBreakdown(v, a, totalSpend);
            b.distributable >= 0.0 &&
            (totalSpend >= 0.0 ==> b.distributable <= totalSpend) &&
            b.distributable == Max0(totalSpend * (1.0 - OnrampFeeRate(a)) * (1.0 - SpraayFeeRate) - NetworkFeeUsd)
  {
  }

  /** On USDC the two pages agree: the protocol fee on what the onramp leaves is the fee on the
      whole spend, because the onramp takes nothing. */
  lemma UsdcPagesAgree(totalSpend: real)
    ensures FlowBreakdown(UsdcOnly, BuyUsdc, totalSpend) == FlowBreakdown(AnyAsset, BuyUsdc, totalSpend)
  {
  }

  /** Buying 100 USDC: a 0.30 protocol fee and 99.65 to distribute. */
  lemma HundredUsdc(v: Variant)
    ensures FlowBreakdown(v, BuyUsdc, 100.0) == Breakdown(0.0, 0.3, 0.35, 99.65)
  {
  }

  /** Buying 100 dollars of ETH: 1.50 to the onramp, 0.2955 protocol fee, 98.1545 left. */
  lemma HundredEth()
    ensures FlowBreakdown(AnyAsset, BuyEth, 100.0) == Breakdown(1.5, 0.2955, 1.8455, 98.1545)
  {
  }

  /** `evenSplitAmount`: the distributable amount over the recipients, 0 without any. */
  function EvenSplit(distributable: real, count: nat): real {
    if count > 0 then distributable / (count as real) else 0.0
  }

  /** Splitting evenly hands out exactly the distributable amount, and never divides by zero. */
  lemma EvenSplitTotal(distributable: real, count: nat)
    ensures count > 0 ==> EvenSplit(distributable, count) * (count as real) == distributable
    ensures count == 0 ==> EvenSplit(distributable, count) == 0.0
  {
  }

  /** `customTotal`: the amounts of all rows, valid address or not. */
  function CustomTotal(rows: seq<Recipient>, parseFloat: FloatParser): real {
    AmountSum(rows, parseFloat)
  }

  /** `canGoToRecipients`. */
  predicate CanGoToRecipients(totalSpend: real) {
    totalSpend >= 1.0
  }

  /** `canGoToBreakdown`: some valid recipient, and in custom mode amounts within budget. */
  predicate CanGoToBreakdown(validCount: nat, split: SplitMode, customTotal: real, distributable: real) {
    validCount >= 1 && (split == Even || customTotal <= distributable)
  }

  /** The budget check counts every row: a row whose address is not valid still adds its amount
      to the custom total, so it can block the breakdown although it will never be paid. */
  lemma InvalidRowCounts(rows: seq<Recipient>, extra: Recipient, isAddress: AddressCheck, parseFloat: FloatParser)
    requires !isAddress(extra.address)
    ensures ValidRecipients(rows + [extra], FlowRule, isAddress, parseFloat) == ValidRecipients(rows, FlowRule, isAddress, parseFloat)
    ensures CustomTotal(rows + [extra], parseFloat) == CustomTotal(rows, parseFloat) + FloatOrZero(parseFloat, extra.amount)
  {
    assert (rows + [extra])[..|rows|] == rows;
    ValidRecipientsConcat(rows, [extra], FlowRule, isAddress, parseFloat);
    assert [extra][1..] == [];
  }

  /** The rows that will be paid never ask for more than the custom total when no amount is
      negative: their amounts are a part of it. */
  lemma {:induction false} PaidWithinCustomTotal(rows: seq<Recipient>, isAddress: AddressCheck, parseFloat: FloatParser)
    requires forall k :: 0 <= k < |rows| ==> FloatOrZero(parseFloat, rows[k].amount) >= 0.0
    ensures AmountSum(ValidRecipients(rows, FlowRule, isAddress, parseFloat), parseFloat) <= CustomTotal(rows, parseFloat)
  {
    if rows != [] {
      var init, last := rows[..|rows| - 1], rows[|rows| - 1];
      assert init + [last] == rows;
      forall k | 0 <= k < |init|
        ensures FloatOrZero(parseFloat, init[k].amount) >= 0.0
      {
        assert init[k] == rows[k];
      }
      PaidWithinCustomTotal(init, isAddress, parseFloat);
      ValidRecipientsConcat(init, [last], FlowRule, isAddress, parseFloat);
      assert [last][1..] == [];
      var v := ValidRecipients(init, FlowRule, isAddress, parseFloat);
      if isAddress(last.address) {
        assert (v + [last])[..|v|] == v;
      } else {
        assert v + [] == v;
      }
    }
  }

  /** What passing the breakdown gate guarantees about the batch: at least one recipient; in an
      even split the shares add up to exactly the distributable amount; in a custom split the
      total typed is within it, and so, when no amount is negative, is what the recipients are
      paid. */
  lemma BreakdownGateMeaning(rows: seq<Recipient>, split: SplitMode, distributable: real, a: BuyAsset,
                             isAddress: AddressCheck, parseFloat: FloatParser)
    requires var valid := ValidRecipients(rows, FlowRule, isAddress, parseFloat);
             CanGoToBreakdown(|valid|, split, CustomTotal(rows, parseFloat), distributable)
    ensures var valid := ValidRecipients(rows, FlowRule, isAddress, parseFloat);
            var even := EvenSplit(distributable, |valid|);
            |FlowParams(valid, split, even, a, parseFloat).recipients| >= 1 &&
            (split == Even ==> even * (|valid| as real) == distributable) &&
            (split == Custom ==> CustomTotal(rows, parseFloat) <= distributable) &&
            (split == Custom && (forall k :: 0 <= k < |rows| ==> FloatOrZero(parseFloat, rows[k].amount) >= 0.0) ==>
               AmountSum(valid, parseFloat) <= distributable)
  {
    var valid := ValidRecipients(rows, FlowRule, isAddress, parseFloat);
    EvenSplitTotal(distributable, |valid|);
    if split == Custom && (forall k :: 0 <= k < |rows| ==> FloatOrZero(parseFloat, rows[k].amount) >= 0.0) {
      PaidWithinCustomTotal(rows, isAddress, parseFloat);
    }
  }

  // ---------------------------------------------------------------------------------------
  // The batch handed to the hook

  /** USDC amounts are written with six decimals, ETH amounts with eight. */
  function Digits(a: BuyAsset): nat {
    if a == BuyUsdc then 6 else 8
  }

  /** The parameters both handlers pass to `executeSpray`: every valid recipient with the even
      split or its own amount, formatted with `toFixed`, and the asset's name as the token. */
  function FlowParams(valid: seq<Recipient>, split: SplitMode, even: real, a: BuyAsset, parseFloat: FloatParser): (p: SprayParams)
    ensures |p.recipients| == |valid|
  {
    SprayParams(
      seq(|valid|, k requires 0 <= k < |valid| =>
        Input(valid[k].address,
              if split == Even then ToFixed(even, Digits(a)) else ToFixed(FloatOrZero(parseFloat, valid[k].amount), Digits(a)))),
      split == Even, ToFixed(even, Digits(a)), AssetName(a))
  }

  /** How the hook pays for the flow's asset: USDC as the registry token at six decimals, ETH
      as native ether. */
  function FlowAsset(a: BuyAsset): Asset {
    match a
    case BuyUsdc => Erc20(UsdcAddress, 6)
    case BuyEth => Native
  }

  lemma FlowAssetResolved(a: BuyAsset, r: Replies)
    ensures HookPayment(AssetName(a)).PayNative? <==> a == BuyEth
    ensures a == BuyUsdc ==> AssetOf(HookPayment(AssetName(a)), r) == FlowAsset(a)
  {
    if a == BuyUsdc {
      assert AssetName(a) == KeyName(USDC);
      KeyOfNameRoundTrip(USDC);
    }
  }

  /** The amount a flow sends each recipient, as the hook reads it: the figure rounded to the
      asset's digits, in the asset's smallest unit. On ETH this is the dollar figure taken as
      ether, since the flow does not convert. */
  function UnitsOf(x: real, a: BuyAsset): int {
    FixedUnits(x, Digits(a)) * Pow10(DecimalsOf(FlowAsset(a)) - Digits(a))
  }

  /** Whatever the amounts, the call for a flow's batch always builds: every `toFixed` string
      reads back at the asset's decimals, so an equal split pays each recipient the rounded even
      split and a custom split pays each its own rounded amount, in order. */
  lemma FlowPlanBuilds(valid: seq<Recipient>, split: SplitMode, even: real, a: BuyAsset, parseFloat: FloatParser)
    ensures var p := FlowParams(valid, split, even, a, parseFloat);
            var plan := PlanSpray(FlowAsset(a), BatchOf(p));
            plan.Ok? &&
            (split == Even ==> plan.value.call.EqualCall? && plan.value.call.amountPerRecipient == UnitsOf(even, a) &&
                               plan.value.call.recipients == Addresses(p.recipients)) &&
            (split == Custom ==>
               !plan.value.call.EqualCall? && |plan.value.call.transfers| == |valid| &&
               forall k :: 0 <= k < |valid| ==>
                 plan.value.call.transfers[k] == Transfer(valid[k].address, UnitsOf(FloatOrZero(parseFloat, valid[k].amount), a)))
  {
    if split == Even {
      EvenPlanPays(valid, even, a, parseFloat);
    } else {
      CustomPlanPays(valid, even, a, parseFloat);
    }
  }

  /** An even split's call pays every valid address the rounded even split. */
  lemma EvenPlanPays(valid: seq<Recipient>, even: real, a: BuyAsset, parseFloat: FloatParser)
    ensures var p := FlowParams(valid, Even, even, a, parseFloat);
            var plan := PlanSpray(FlowAsset(a), BatchOf(p));
            plan.Ok? && plan.value.call.EqualCall? && plan.value.call.amountPerRecipient == UnitsOf(even, a) &&
            plan.value.call.recipients == Addresses(p.recipients)
  {
    var p := FlowParams(valid, Even, even, a, parseFloat);
    ToFixedParses(even, Digits(a), DecimalsOf(FlowAsset(a)));
    PlanPaysInOrder(FlowAsset(a), BatchOf(p));
  }

  /** A custom split's call pays every valid address its own rounded amount, in order. */
  lemma CustomPlanPays(valid: seq<Recipient>, even: real, a: BuyAsset, parseFloat: FloatParser)
    ensures var p := FlowParams(valid, Custom, even, a, parseFloat);
            var plan := PlanSpray(FlowAsset(a), BatchOf(p));
            plan.Ok? && !plan.value.call.EqualCall? && |plan.value.call.transfers| == |valid| &&
            forall k :: 0 <= k < |valid| ==>
              plan.value.call.transfers[k] == Transfer(valid[k].address, UnitsOf(FloatOrZero(parseFloat, valid[k].amount), a))
  {
    var p := FlowParams(valid, Custom, even, a, parseFloat);
    var d := DecimalsOf(FlowAsset(a));
    forall k | 0 <= k < |valid|
      ensures ParseUnits(p.recipients[k].amount, d) == Ok(UnitsOf(FloatOrZero(parseFloat, valid[k].amount), a))
    {
      ToFixedParses(FloatOrZero(parseFloat, valid[k].amount), Digits(a), d);
    }
    ParseTransfersMeaning(p.recipients, d);
    PlanFails(FlowAsset(a), BatchOf(p));
    PlanPaysInOrder(FlowAsset(a), BatchOf(p));
  }

  /** The ETH buy path as written: 100 dollars of ETH for one recipient leaves 98.1545 dollars
      to distribute, and the batch sends that figure as ether, 98.1545 ether, since the flow
      never converts dollars to ether. */
  lemma EthBuySendsDollarsAsEther(r: Recipient, parseFloat: FloatParser)
    ensures var d := FlowBreakdown(AnyAsset, BuyEth, 100.0).distributable;
            var plan := PlanSpray(FlowAsset(BuyEth), BatchOf(FlowParams([r], Even, EvenSplit(d, 1), BuyEth, parseFloat)));
            plan.Ok? && plan.value.call.EqualCall? && plan.value.call.amountPerRecipient == 98_154_500_000_000_000_000
  {
    HundredEth();
    assert EvenSplit(98.1545, 1) == 98.1545;
    EvenPlanPays([r], 98.1545, BuyEth, parseFloat);
    EthShareUnits();
  }

  lemma EthShareUnits()
    ensures UnitsOf(98.1545, BuyEth) == 98_154_500_000_000_000_000
  {
    assert Pow10(8) == 100_000_000 by { assert Pow10(4) == 10_000; }
    assert Pow10(10) == 10_000_000_000 by { assert Pow10(5) == 100_000; }
    assert Abs(98.1545) * (Pow10(8) as real) == 9_815_450_000.0;
    assert Rounded(98.1545, 8) == 9_815_450_000;
  }

  /** A dollar figure in the asset the flow sends: ether at `ethUsd` dollars an ether. */
  function PricedShare(dollars: real, a: BuyAsset, ethUsd: real): real
    requires ethUsd > 0.0
  {
    if a == BuyEth then dollars / ethUsd else dollars
  }

  /** `parseFloat` followed by the conversion to the asset. */
  function PricedParser(parseFloat: FloatParser, a: BuyAsset, ethUsd: real): FloatParser
    requires ethUsd > 0.0
  {
    s => if parseFloat(s).Some? then Some(PricedShare(parseFloat(s).value, a, ethUsd)) else None
  }

  /** The batch the flows evidently mean to send: the even split and every custom amount,
      typed in dollars, converted to the asset before they are written with `toFixed`. */
  function PricedFlowParams(valid: seq<Recipient>, split: SplitMode, even: real, a: BuyAsset,
                            parseFloat: FloatParser, ethUsd: real): (p: SprayParams)
    requires ethUsd > 0.0
    ensures |p.recipients| == |valid|
  {
    FlowParams(valid, split, PricedShare(even, a, ethUsd), a, PricedParser(parseFloat, a, ethUsd))
  }

  lemma ScaleWithin(f: real, y: real, c: real)
    requires c > 0.0 && Abs(f - y) <= 0.5
    ensures Abs(f * c - y * c) <= 0.5 * c
  {
    var d := f - y;
    var g := f * c - y * c;
    assert g == d * c;
    if d < 0.0 {
      assert (-d) * c <= 0.5 * c;
      assert g == -((-d) * c) && g < 0.0;
    } else {
      assert d * c <= 0.5 * c;
      assert g >= 0.0;
    }
  }

  /** `units` hundred-millionths of an ether, at `ethUsd` dollars an ether, are worth `dollars`
      to within half a unit. */
  predicate WorthWithin(units: int, ethUsd: real, dollars: real) {
    Abs((units as real) * ethUsd - dollars * (Pow10(8) as real)) <= 0.5 * ethUsd
  }

  /** With the conversion, the ether each recipient of an even split is sent is worth the
      dollar share at the price, to within half a unit of the eighth digit. */
  lemma PricedEthShareWorth(valid: seq<Recipient>, even: real, parseFloat: FloatParser, ethUsd: real)
    requires ethUsd > 0.0
    ensures var plan := PlanSpray(FlowAsset(BuyEth), BatchOf(PricedFlowParams(valid, Even, even, BuyEth, parseFloat, ethUsd)));
            plan.Ok? && plan.value.call.EqualCall? &&
            plan.value.call.amountPerRecipient == UnitsOf(even / ethUsd, BuyEth) &&
            WorthWithin(FixedUnits(even / ethUsd, 8), ethUsd, even)
  {
    assert PricedShare(even, BuyEth, ethUsd) == even / ethUsd;
    EvenPlanPays(valid, even / ethUsd, BuyEth, PricedParser(parseFloat, BuyEth, ethUsd));
    PricedUnitsWorth(even, ethUsd);
  }

  lemma PricedUnitsWorth(even: real, ethUsd: real)
    requires ethUsd > 0.0
    ensures WorthWithin(FixedUnits(even / ethUsd, 8), ethUsd, even)
  {
    var e := even / ethUsd;
    FixedUnitsNearest(e, 8);
    assert e * ethUsd == even;
    CancelWithin(FixedUnits(e, 8) as real, e, ethUsd, even, Pow10(8) as real);
  }

  lemma CancelWithin(u: real, e: real, c: real, dollars: real, scale: real)
    requires c > 0.0 && e * c == dollars && Abs(u - e * scale) <= 0.5
    ensures Abs(u * c - dollars * scale) <= 0.5 * c
  {
    ScaleWithin(u, e * scale, c);
    assert (e * scale) * c == (e * c) * scale;
    var lhs := u * c - dollars * scale;
    assert lhs == u * c - (e * scale) * c;
  }

  /** The even split is written with `k` digits (`Digits` of the asset), rounded to the nearest
      last digit, so the recipients together get the distributable amount to within half a unit
      of that digit each: possibly a little more than there is. */
  lemma EvenSplitRounding(distributable: real, count: nat, k: nat)
    requires count > 0
    ensures WithinHalves((FixedUnits(EvenSplit(distributable, count), k) as real) * (count as real),
                         distributable * (Pow10(k) as real), count as real)
  {
    EvenSplitTotal(distributable, count);
    ShareRounding(EvenSplit(distributable, count), k, count, distributable);
  }

  /** Two dollars over three recipients, written with six digits: each share is 0.666667, and the
      three shares come to 2.000001, one unit more than there is to distribute. */
  lemma EvenSplitCanOverpay()
    ensures FixedUnits(EvenSplit(2.0, 3), 6) == 666667
    ensures FixedUnits(EvenSplit(2.0, 3), 6) * 3 > 2 * Pow10(6)
  {
    assert Pow10(6) == 1000000 by {
      assert Pow10(3) == 1000;
    }
    var share := EvenSplit(2.0, 3);
    assert share == 2.0 / 3.0;
    assert Abs(share) * (Pow10(6) as real) == 2000000.0 / 3.0;
    assert Rounded(share, 6) == RoundHalfUp(2000000.0 / 3.0);
    assert 666667.0 <= 2000000.0 / 3.0 + 0.5 < 666668.0;
  }

  /** `count` shares of `x`, each rounded to `k` digits, against the exact total `d`. */
  lemma ShareRounding(x: real, k: nat, count: nat, d: real)
    requires count > 0 && x * (count as real) == d
    ensures WithinHalves((FixedUnits(x, k) as real) * (count as real), d * (Pow10(k) as real), count as real)
  {
    FixedUnitsNearest(x, k);
    RoundingScales(FixedUnits(x, k) as real, x, Pow10(k) as real, count as real, d);
  }

  /** `paid` is within `n` halves of `target`. */
  predicate WithinHalves(paid: real, target: real, n: real) {
    paid - target <= 0.5 * n && target - paid <= 0.5 * n
  }

  /** Rounding each of `n` shares to within half a unit moves their total by at most `n` halves. */
  lemma RoundingScales(f: real, e: real, scale: real, n: real, d: real)
    requires n > 0.0 && Abs(f - e * scale) <= 0.5 && e * n == d
    ensures WithinHalves(f * n, d * scale, n)
  {
    var x := f - e * scale;
    assert -0.5 <= x <= 0.5;
    assert d * scale == (e * scale) * n;
    assert f * n - d * scale == x * n;
    assert (0.5 - x) * n >= 0.0;
    assert (0.5 + x) * n >= 0.0;
  }

  // ---------------------------------------------------------------------------------------
  // The two handlers, as state transitions of the hook and the wizard

  const OpeningOnramp: string := "Opening Coinbase Onramp…"
  const Preparing: string := "Preparing batch transaction…"
  const ConfirmInWallet: string := "Confirm in your wallet…"
  const WaitingPrefix: string := "Waiting for "
  const WaitingSuffix: string := " to arrive…"

  function WaitingFor(a: BuyAsset): string {
    WaitingPrefix + AssetName(a) + WaitingSuffix
  }

  /** Where a handler leaves the hook and the wizard. */
  datatype FlowEnd = FlowEnd(hook: HookState, step: Step)

  /** The end of either handler once `executeSpray` has run from `s`: complete with progress
      100 and the returned hash, or back at the breakdown with the classified error. */
  function SprayEnd(s: HookState, screen: Screen, t: Trace, native: bool): FlowEnd {
    var v := HookView(s, t.events, native);
    match t.result
    case Ok(h) => FlowEnd(v.(progress := 100, txHash := Some(h)), CompleteStep)
    case Err(f) => FlowEnd(v.(error := Some(ShownError(screen, f))), BreakdownStep)
  }

  /** `handleBuyAndSpray`: progress 5 while the onramp is open, then 30 while waiting for the
      funds, 50 while preparing, then the batch. A failing onramp ends the handler at once. */
  function BuyEnd(s: HookState, a: BuyAsset, onramp: Outcome<Failure>, t: Trace): FlowEnd {
    var shown := s.(progress := 5, statusMsg := OpeningOnramp);
    match onramp
    case Fail(f) => FlowEnd(shown.(error := Some(ShownError(BuyPath(AssetName(a)), f))), BreakdownStep)
    case Pass =>
      var waited := shown.(progress := 30, statusMsg := WaitingFor(a));
      SprayEnd(waited.(progress := 50, statusMsg := Preparing), BuyPath(AssetName(a)), t, a == BuyEth)
  }

  /** `handleDirectSpray`: progress 10 and the wallet prompt, then the batch. */
  function DirectEnd(s: HookState, a: BuyAsset, t: Trace): FlowEnd {
    SprayEnd(s.(progress := 10, statusMsg := ConfirmInWallet), DirectPath, t, a == BuyEth)
  }

  /** The trace `executeSpray` produces for the flow's parameters. */
  function FlowTrace(p: SprayParams, r: Replies): Trace {
    Execute(SprayHook.NoWallet, Ok(HookPayment(p.token)), BatchOf(p), r)
  }

  /** The progress values the buy path sets, in order. */
  function BuyTrail(onramp: Outcome<Failure>, t: Trace, native: bool): seq<int> {
    if onramp.Fail? then [5] else [5, 30, 50] + Collect(t.events, ProgressSet(native)) + (if t.result.Ok? then [100] else [])
  }

  predicate Increasing(xs: seq<int>) {
    forall i, j :: 0 <= i < j < |xs| ==> xs[i] < xs[j]
  }

  /** A strictly increasing run of prefixes stays increasing under a prefix. */
  lemma PrefixIncreasing(xs: seq<int>, ys: seq<int>)
    requires xs <= ys && Increasing(ys)
    ensures Increasing(xs)
  {
    forall i, j | 0 <= i < j < |xs| ensures xs[i] < xs[j] {
      assert xs[i] == ys[i] && xs[j] == ys[j];
    }
  }

  /** Two increasing runs, the first wholly below the second, make an increasing run. */
  lemma IncreasingConcat(a: seq<int>, b: seq<int>)
    requires Increasing(a) && Increasing(b)
    requires forall i, j :: 0 <= i < |a| && 0 <= j < |b| ==> a[i] < b[j]
    ensures Increasing(a + b)
  {
    forall i, j | 0 <= i < j < |a + b| ensures (a + b)[i] < (a + b)[j] {
      if j < |a| {
        assert (a + b)[i] == a[i] && (a + b)[j] == a[j];
      } else if i >= |a| {
        assert (a + b)[i] == b[i - |a|] && (a + b)[j] == b[j - |a|];
      } else {
        assert (a + b)[i] == a[i] && (a + b)[j] == b[j - |a|];
      }
    }
  }

  /** The progress bar of the buy path only moves forward: 5, 30, 50, then the hook's own
      steps, then 100. */
  lemma BuyProgressIncreasing(onramp: Outcome<Failure>, p: SprayParams, r: Replies)
    ensures Increasing(BuyTrail(onramp, FlowTrace(p, r), p.token == "ETH"))
  {
    HookProgressTrail(p, r);
    TrailIncreasing(onramp, [5, 30, 50], FlowTrace(p, r), p.token == "ETH");
  }

  /** The direct path: 10, then the hook's steps, then 100 on success. */
  function DirectTrail(t: Trace, native: bool): seq<int> {
    [10] + Collect(t.events, ProgressSet(native)) + (if t.result.Ok? then [100] else [])
  }

  /** The progress bar of the direct path only moves forward. */
  lemma DirectProgressIncreasing(p: SprayParams, r: Replies)
    ensures Increasing(DirectTrail(FlowTrace(p, r), p.token == "ETH"))
  {
    HookProgressTrail(p, r);
    TrailIncreasing(Pass, [10], FlowTrace(p, r), p.token == "ETH");
  }

  /** A trail is increasing whenever the handler's own steps stay below 60 and the hook's steps
      are a prefix of its ladder. */
  lemma TrailIncreasing(onramp: Outcome<Failure>, head: seq<int>, t: Trace, native: bool)
    requires Increasing(head) && forall k :: 0 <= k < |head| ==> head[k] < 60
    requires Collect(t.events, ProgressSet(native)) <= if native then [60, 80] else [60, 70, 85]
    ensures onramp.Pass? ==>
              Increasing(head + Collect(t.events, ProgressSet(native)) + (if t.result.Ok? then [100] else []))
  {
    if onramp.Pass? {
      var hook := Collect(t.events, ProgressSet(native));
      var full := if native then [60, 80] else [60, 70, 85];
      PrefixIncreasing(hook, full);
      assert forall k :: 0 <= k < |hook| ==> 60 <= hook[k] <= 85 by {
        forall k | 0 <= k < |hook| ensures 60 <= hook[k] <= 85 { assert hook[k] == full[k]; }
      }
      LadderIncreasing(head, hook, if t.result.Ok? then [100] else []);
    }
  }

  /** Steps below 60, then steps between 60 and 85, then possibly 100. */
  lemma LadderIncreasing(head: seq<int>, hook: seq<int>, tail: seq<int>)
    requires Increasing(head) && forall k :: 0 <= k < |head| ==> head[k] < 60
    requires Increasing(hook) && forall k :: 0 <= k < |hook| ==> 60 <= hook[k] <= 85
    requires tail == [] || tail == [100]
    ensures Increasing(head + hook + tail)
  {
    IncreasingConcat(head, hook);
    var a := head + hook;
    forall k | 0 <= k < |a| ensures a[k] <= 85 {
      if k < |head| { assert a[k] == head[k]; } else { assert a[k] == hook[k - |head|]; }
    }
    IncreasingConcat(a, tail);
  }

  /** The buy path completes exactly when the onramp resolved and the batch was mined; then the
      bar is full and the hash is the returned one. Otherwise it goes back to the breakdown with
      the classified error and keeps the progress it reached. */
  lemma BuyEndMeaning(s: HookState, a: BuyAsset, onramp: Outcome<Failure>, p: SprayParams, r: Replies)
    requires p.token == AssetName(a)
    ensures var t := FlowTrace(p, r);
            var e := BuyEnd(s, a, onramp, t);
            (e.step == CompleteStep <==> onramp.Pass? && t.result.Ok?) &&
            (e.step == CompleteStep ==>
               e.hook.progress == 100 && e.hook.txHash == Some(t.result.value) && e.hook.error == s.error) &&
            (e.step != CompleteStep ==>
               e.step == BreakdownStep && e.hook.progress > 0 &&
               e.hook.error == Some(ShownError(BuyPath(AssetName(a)), if onramp.Fail? then onramp.error else t.result.error)))
  {
    var t := FlowTrace(p, r);
    var native := a == BuyEth;
    if onramp.Pass? {
      var start := s.(progress := 5, statusMsg := OpeningOnramp).(progress := 30, statusMsg := WaitingFor(a)).(progress := 50, statusMsg := Preparing);
      HookViewKeepsError(start, t.events, native);
      HookViewProgress(start, t.events, native);
      TrailPositive(t.events, native);
    }
  }

  /** The direct path: the same, starting at 10, with no onramp. */
  lemma DirectEndMeaning(s: HookState, a: BuyAsset, p: SprayParams, r: Replies)
    requires p.token == AssetName(a)
    ensures var t := FlowTrace(p, r);
            var e := DirectEnd(s, a, t);
            (e.step == CompleteStep <==> t.result.Ok?) &&
            (e.step == CompleteStep ==>
               e.hook.progress == 100 && e.hook.txHash == Some(t.result.value) && e.hook.error == s.error) &&
            (e.step != CompleteStep ==>
               e.step == BreakdownStep && e.hook.progress > 0 &&
               e.hook.error == Some(ShownError(DirectPath, t.result.error)))
  {
    var t := FlowTrace(p, r);
    var start := s.(progress := 10, statusMsg := ConfirmInWallet);
    HookViewKeepsError(start, t.events, a == BuyEth);
    HookViewProgress(start, t.events, a == BuyEth);
    TrailPositive(t.events, a == BuyEth);
  }

  /** Every progress value the hook sets is positive. */
  lemma {:induction false} TrailPositive(es: seq<Event>, native: bool)
    ensures forall k :: 0 <= k < |Collect(es, ProgressSet(native))| ==> Collect(es, ProgressSet(native))[k] > 0
    decreases |es|
  {
    if es != [] {
      var init := es[..|es| - 1];
      TrailPositive(init, native);
      assert init + [es[|es| - 1]] == es;
      CollectConcat(init, [es[|es| - 1]], ProgressSet(native));
      CollectSingle(es[|es| - 1], ProgressSet(native));
    }
  }

  /** `parsed.some(r => r.amount)`. */
  predicate SomeAmount(rows: seq<Recipient>) {
    exists k :: 0 <= k < |rows| && rows[k].amount != []
  }

  /** A flow page: the wizard's state, its recipient list, and the hook it sprays through. */
  class FlowPage {
    const variant: Variant
    var step: Step
    var spendAmount: string
    var buyAsset: BuyAsset
    var splitMode: SplitMode
    const form: RecipientList
    const spray: SprayTransaction

    /** The USDC-only page has no asset picker. */
    predicate Valid()
      reads this, form
    {
      form.Valid() && (variant == UsdcOnly ==> buyAsset == BuyUsdc)
    }

    /** The page as first rendered: the amount step, USDC, an even split, one blank row. */
    constructor (variant: Variant)
      ensures Valid() && fresh(form) && fresh(spray) && this.variant == variant
      ensures step == AmountStep && spendAmount == "" && buyAsset == BuyUsdc && splitMode == Even
      ensures form.rows == BlankRows(1) && form.nextId == 2
      ensures spray.State() == HookState(0, "", None, None)
    {
      this.variant := variant;
      step, spendAmount, buyAsset, splitMode := AmountStep, "", BuyUsdc, Even;
      form := new RecipientList(1);
      spray := new SprayTransaction();
    }

    /** The breakdown the page shows for the amount typed. */
    function BreakdownOf(parseFloat: FloatParser): Breakdown
      reads this
    {
      FlowBreakdown(variant, buyAsset, FloatOrZero(parseFloat, spendAmount))
    }

    /** The parameters `executeSpray` gets from the page as it stands. */
    function ParamsOf(isAddress: AddressCheck, parseFloat: FloatParser): SprayParams
      reads this, form
    {
      var valid := ValidRecipients(form.rows, FlowRule, isAddress, parseFloat);
      FlowParams(valid, splitMode, EvenSplit(BreakdownOf(parseFloat).distributable, |valid|), buyAsset, parseFloat)
    }

    /** The amount field of the first step. */
    method SetSpendAmount(amount: string)
      modifies this`spendAmount
      ensures spendAmount == amount
    {
      spendAmount := amount;
    }

    /** The asset picker, which only the buy-any-asset page has. */
    method SetBuyAsset(a: BuyAsset)
      requires Valid() && variant == AnyAsset
      modifies this`buyAsset
      ensures Valid() && buyAsset == a
    {
      buyAsset := a;
    }

    method SetSplitMode(m: SplitMode)
      modifies this`splitMode
      ensures splitMode == m
    {
      splitMode := m;
    }

    /** `canGoToRecipients` for the amount typed. */
    predicate ReadyForRecipients(parseFloat: FloatParser)
      reads this
    {
      CanGoToRecipients(FloatOrZero(parseFloat, spendAmount))
    }

    /** `canGoToBreakdown` for the rows, split and amount as they stand. */
    predicate ReadyForBreakdown(isAddress: AddressCheck, parseFloat: FloatParser)
      reads this, form
    {
      CanGoToBreakdown(|ValidRecipients(form.rows, FlowRule, isAddress, parseFloat)|, splitMode,
                       CustomTotal(form.rows, parseFloat), BreakdownOf(parseFloat).distributable)
    }

    /** The amount step's continue button, which is disabled until `canGoToRecipients` holds. */
    method ContinueToRecipients(parseFloat: FloatParser)
      modifies this`step
      ensures step == if ReadyForRecipients(parseFloat) then RecipientsStep else old(step)
    {
      if ReadyForRecipients(parseFloat) {
        step := RecipientsStep;
      }
    }

    /** The recipients step's continue button, which is disabled until `canGoToBreakdown` holds;
        once on the breakdown, the batch has the guarantees of `BreakdownGateMeaning`. */
    method ContinueToBreakdown(isAddress: AddressCheck, parseFloat: FloatParser)
      modifies this`step
      ensures step == if ReadyForBreakdown(isAddress, parseFloat) then BreakdownStep else old(step)
      ensures step == BreakdownStep && old(step) != BreakdownStep ==>
                |ParamsOf(isAddress, parseFloat).recipients| >= 1 &&
                (splitMode == Custom ==> CustomTotal(form.rows, parseFloat) <= BreakdownOf(parseFloat).distributable)
    {
      if ReadyForBreakdown(isAddress, parseFloat) {
        BreakdownGateMeaning(form.rows, splitMode, BreakdownOf(parseFloat).distributable, buyAsset, isAddress, parseFloat);
        step := BreakdownStep;
      }
    }

    /** The wizard's back buttons. */
    method GoTo(s: Step)
      modifies this`step
      ensures step == s
    {
      step := s;
    }

    /** `addRecipient`: at 200 rows nothing happens; otherwise a blank row is appended. */
    method AddRecipient()
      requires Valid()
      modifies form
      ensures Valid()
      ensures |old(form.rows)| >= MaxRecipients ==> form.rows == old(form.rows) && form.nextId == old(form.nextId)
      ensures |old(form.rows)| < MaxRecipients ==>
                form.rows == old(form.rows) + [Recipient(old(form.nextId), "", "")] && form.nextId == old(form.nextId) + 1
    {
      var _ := form.Add("", "");
    }

    method RemoveRecipient(id: nat)
      requires Valid()
      modifies form
      ensures Valid()
      ensures form.rows == RemoveRow(old(form.rows), id) && form.nextId == old(form.nextId)
    {
      form.Remove(id);
    }

    method UpdateRecipient(id: nat, field: Field, value: string)
      requires Valid()
      modifies form
      ensures Valid()
      ensures form.rows == UpdateRows(old(form.rows), id, field, value) && form.nextId == old(form.nextId)
    {
      form.Update(id, field, value);
    }

    /** `handleCSV`: an import that reads no row changes nothing; otherwise the rows read replace
        the list, and any amount among them switches to a custom split. */
    method HandleCsv(text: string, isAddress: AddressCheck)
      requires Valid()
      modifies this`splitMode, form
      ensures Valid()
      ensures var parsed := NumberRows(CsvImport(text, isAddress), old(form.nextId));
              form.rows == AfterImport(old(form.rows), parsed, KeepOnEmpty) &&
              form.nextId == old(form.nextId) + |parsed| &&
              splitMode == (if parsed != [] && SomeAmount(parsed) then Custom else old(splitMode))
    {
      var parsed := form.ImportCsv(text, isAddress, KeepOnEmpty);
      assert this as object != form;
      splitMode := if parsed != [] && SomeAmount(parsed) then Custom else splitMode;
    }

    /** `handleBuyAndSpray`, with the onramp's outcome and the wallet's replies as parameters. */
    method HandleBuyAndSpray(isAddress: AddressCheck, parseFloat: FloatParser, onramp: Outcome<Failure>, r: Replies)
      requires Valid()
      modifies this`step, spray
      ensures Valid() && unchanged(form)
      ensures FlowEnd(spray.State(), step) ==
                BuyEnd(old(spray.State()), buyAsset, onramp, FlowTrace(old(ParamsOf(isAddress, parseFloat)), r))
      ensures buyAsset == old(buyAsset) && splitMode == old(splitMode) && spendAmount == old(spendAmount)
    {
      var p := ParamsOf(isAddress, parseFloat);
      step := SprayingStep;
      assert this as object != spray;
      spray.SetProgress(5);
      spray.SetStatusMsg(OpeningOnramp);
      match onramp {
        case Fail(f) =>
          spray.SetError(Some(ShownError(BuyPath(AssetName(buyAsset)), f)));
          step := BreakdownStep;
        case Pass =>
          spray.SetProgress(30);
          spray.SetStatusMsg(WaitingFor(buyAsset));
          spray.SetProgress(50);
          spray.SetStatusMsg(Preparing);
          FinishSpray(p, BuyPath(AssetName(buyAsset)), r);
      }
    }

    /** `handleDirectSpray`, with the wallet's replies as a parameter. */
    method HandleDirectSpray(isAddress: AddressCheck, parseFloat: FloatParser, r: Replies)
      requires Valid()
      modifies this`step, spray
      ensures Valid() && unchanged(form)
      ensures FlowEnd(spray.State(), step) ==
                DirectEnd(old(spray.State()), buyAsset, FlowTrace(old(ParamsOf(isAddress, parseFloat)), r))
      ensures buyAsset == old(buyAsset) && splitMode == old(splitMode) && spendAmount == old(spendAmount)
    {
      var p := ParamsOf(isAddress, parseFloat);
      step := SprayingStep;
      assert this as object != spray;
      spray.SetProgress(10);
      spray.SetStatusMsg(ConfirmInWallet);
      FinishSpray(p, DirectPath, r);
    }

    /** The part both handlers share: run the batch, then either fill the bar and record the
        hash before completing, or record the classified error and go back to the breakdown. */
    method FinishSpray(p: SprayParams, screen: Screen, r: Replies)
      requires p.token == AssetName(buyAsset)
      modifies this`step, spray
      ensures FlowEnd(spray.State(), step) == SprayEnd(old(spray.State()), screen, FlowTrace(p, r), buyAsset == BuyEth)
      ensures buyAsset == old(buyAsset) && splitMode == old(splitMode) && spendAmount == old(spendAmount)
    {
      assert this as object != spray;
      var result := spray.ExecuteSpray(p, r);
      match result {
        case Ok(h) =>
          spray.SetProgress(100);
          spray.SetTxHash(Some(h));
          step := CompleteStep;
        case Err(f) =>
          spray.SetError(Some(ShownError(screen, f)));
          step := BreakdownStep;
      }
    }

    /** `resetFlow`: the page as first rendered, hook included. */
    method ResetFlow()
      requires Valid()
      modifies this, form, spray
      ensures Valid()
      ensures step == AmountStep && spendAmount == "" && buyAsset == BuyUsdc && splitMode == Even
      ensures form.rows == BlankRows(1) && form.nextId == 2
      ensures spray.State() == HookState(0, "", None, None)
    {
      step, spendAmount, buyAsset, splitMode := AmountStep, "", BuyUsdc, Even;
      assert this as object != form && this as object != spray;
      form.Reset(1);
      spray.Reset();
    }
  }
}
