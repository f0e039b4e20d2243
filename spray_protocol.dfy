/** The batch transaction shared by the spray hook and the batch page: after the wallet
    handshake, build the batch contract call for native ether or an ERC-20 token, approve the
    batch contract for what the batch needs when its allowance is short, send the call and wait
    for it. The wallet's and the chain's answers are parameters; what the code sends and the
    points where the pages update their display are recorded as a trace of events. */
module SprayProtocol {
  import opened Wrappers
  import opened Seqs
  import opened Amounts
  import opened Contracts
  import opened Errors
  import Wallet

  /** One `{ address, amount }` pair handed to a batch; the amount is still a decimal string. */
  datatype Input = Input(address: string, amount: string)

  /** What to send: the pairs, and whether every recipient gets `equalAmount`. */
  datatype Batch = Batch(inputs: seq<Input>, isEqual: bool, equalAmount: string)

  /** A `{ recipient, amount }` tuple of the contract's ABI, the amount in base units. */
  datatype Transfer = Transfer(recipient: string, amount: int)

  /** A call of the batch contract with its `value` and `gasLimit` overrides. */
  datatype SprayCall =
    | EqualCall(token: string, recipients: seq<string>, amountPerRecipient: int, value: int, gasLimit: int)
    | EthCall(transfers: seq<Transfer>, value: int, gasLimit: int)
    | TokenCall(token: string, transfers: seq<Transfer>, gasLimit: int)

  function EntryOf(c: SprayCall): EntryPoint {
    match c
    case EqualCall(_, _, _, _, _) => SprayEqual
    case EthCall(_, _, _) => SprayETH
    case TokenCall(_, _, _) => SprayToken
  }

  /** The ether attached to the call; a token call attaches none. */
  function ValueOf(c: SprayCall): int {
    match c
    case EqualCall(_, _, _, v, _) => v
    case EthCall(_, v, _) => v
    case TokenCall(_, _, _) => 0
  }

  /** The sum of the tuples' amounts, in order. */
  function Sum(ts: seq<Transfer>): int {
    if ts == [] then 0 else Sum(ts[..|ts| - 1]) + ts[|ts| - 1].amount
  }

  /** `for (const t of tuples) total = total.add(t.amount)`. */
  method TotalOf(ts: seq<Transfer>) returns (total: int)
    ensures total == Sum(ts)
  {
    total := 0;
    var i := 0;
    while i < |ts|
      invariant 0 <= i <= |ts|
      invariant total == Sum(ts[..i])
    {
      assert ts[..i + 1][..i] == ts[..i];
      total := total + ts[i].amount;
      i := i + 1;
    }
    assert ts[..i] == ts;
  }

  /** A sum of non-negative amounts is at least each of them and never negative. */
  lemma {:induction false} SumBounds(ts: seq<Transfer>)
    requires forall k :: 0 <= k < |ts| ==> ts[k].amount >= 0
    ensures Sum(ts) >= 0
    ensures forall k :: 0 <= k < |ts| ==> ts[k].amount <= Sum(ts)
  {
    if ts != [] {
      var init := ts[..|ts| - 1];
      assert forall k :: 0 <= k < |init| ==> init[k] == ts[k];
      SumBounds(init);
    }
  }

  /** `recipients.map(r => r.address)`. */
  function Addresses(inputs: seq<Input>): (r: seq<string>)
    ensures |r| == |inputs|
  {
    seq(|inputs|, k requires 0 <= k < |inputs| => inputs[k].address)
  }

  /** `recipients.map(r => ({ recipient: r.address, amount: parseUnits(r.amount, decimals) }))`:
      the first amount that does not parse throws. */
  function ParseTransfers(inputs: seq<Input>, decimals: nat): (r: Result<seq<Transfer>, string>)
    ensures r.Ok? ==> |r.value| == |inputs|
  {
    match FirstIndex(inputs, (i: Input) => ParseUnits(i.amount, decimals).Err?)
    case Some(k) => Err(ParseUnits(inputs[k].amount, decimals).error)
    case None =>
      Ok(seq(|inputs|, k requires 0 <= k < |inputs| =>
             Transfer(inputs[k].address, ParseUnits(inputs[k].amount, decimals).value)))
  }

  /** The map succeeds exactly when every amount parses, and then keeps the recipients in order
      with their parsed amounts; otherwise it fails with the error of the first amount that does
      not parse. */
  lemma ParseTransfersMeaning(inputs: seq<Input>, decimals: nat)
    ensures ParseTransfers(inputs, decimals).Ok? <==>
              forall k :: 0 <= k < |inputs| ==> ParseUnits(inputs[k].amount, decimals).Ok?
    ensures ParseTransfers(inputs, decimals).Ok? ==> forall k :: 0 <= k < |inputs| ==>
              ParseTransfers(inputs, decimals).value[k].recipient == inputs[k].address &&
              ParseUnits(inputs[k].amount, decimals) == Ok(ParseTransfers(inputs, decimals).value[k].amount)
    ensures ParseTransfers(inputs, decimals).Err? ==>
              exists k :: 0 <= k < |inputs| && ParseUnits(inputs[k].amount, decimals).Err? &&
                (forall j :: 0 <= j < k ==> ParseUnits(inputs[j].amount, decimals).Ok?) &&
                ParseTransfers(inputs, decimals).error == ParseUnits(inputs[k].amount, decimals).error
  {
  }

  /** How the batch is paid: in native ether (18 decimals) or in an ERC-20 token. */
  datatype Asset = Native | Erc20(token: string, decimals: nat)

  function DecimalsOf(asset: Asset): nat {
    match asset
    case Native => 18
    case Erc20(_, d) => d
  }

  /** The contract call, and the amount the batch needs (the payout plus the protocol fee). */
  datatype Plan = Plan(call: SprayCall, needed: int)

  /** What the recipients receive in all. */
  function Payout(c: SprayCall): int {
    match c
    case EqualCall(_, rs, per, _, _) => per * |rs|
    case EthCall(ts, _, _) => Sum(ts)
    case TokenCall(_, ts, _) => Sum(ts)
  }

  /** A parse error as ethers throws it: the reason, repeated in the message. */
  function ParseFailure(e: string): Failure {
    Failure(e, e)
  }

  /** Builds the call: `sprayEqual` with the amount per recipient, or `sprayETH` / `sprayToken`
      with one tuple per recipient. Native batches attach the payout plus fee as `value` and
      use the zero address as the token; the gas limit grows with the recipient count. */
  function PlanSpray(asset: Asset, b: Batch): Result<Plan, Failure> {
    var gas := GasLimit(|b.inputs|);
    if b.isEqual then
      match ParseUnits(b.equalAmount, DecimalsOf(asset))
      case Err(e) => Err(ParseFailure(e))
      case Ok(per) =>
        var total := per * |b.inputs|;
        var call := match asset
          case Native => EqualCall(ZeroAddress, Addresses(b.inputs), per, Needed(total), gas)
          case Erc20(t, _) => EqualCall(t, Addresses(b.inputs), per, 0, gas);
        Ok(Plan(call, Needed(total)))
    else
      match ParseTransfers(b.inputs, DecimalsOf(asset))
      case Err(e) => Err(ParseFailure(e))
      case Ok(ts) =>
        var total := Sum(ts);
        var call := match asset
          case Native => EthCall(ts, Needed(total), gas)
          case Erc20(t, _) => TokenCall(t, ts, gas);
        Ok(Plan(call, Needed(total)))
  }

  /** The four entry points are chosen by the asset and the mode, and a batch needs its payout
      plus the fee; native batches attach exactly that, token batches nothing. */
  lemma PlanShape(asset: Asset, b: Batch)
    requires PlanSpray(asset, b).Ok?
    ensures var p := PlanSpray(asset, b).value;
            EntryOf(p.call) == (if b.isEqual then SprayEqual else if asset.Native? then SprayETH else SprayToken) &&
            p.needed == Needed(Payout(p.call)) &&
            ValueOf(p.call) == (if asset.Native? then p.needed else 0) &&
            p.call.gasLimit == 96000 + 48000 * |b.inputs|
  {
    GasLimitClosedForm(|b.inputs|);
  }

  /** The call pays the recipients in the order given: every recipient the amount per recipient,
      or its own amount read at the asset's decimals. */
  lemma PlanPaysInOrder(asset: Asset, b: Batch)
    requires PlanSpray(asset, b).Ok?
    ensures var c := PlanSpray(asset, b).value.call;
            (c.EqualCall? ==>
               c.recipients == Addresses(b.inputs) &&
               ParseUnits(b.equalAmount, DecimalsOf(asset)) == Ok(c.amountPerRecipient) &&
               c.token == (if asset.Native? then ZeroAddress else asset.token)) &&
            (!c.EqualCall? ==>
               |c.transfers| == |b.inputs| &&
               (c.TokenCall? ==> c.token == asset.token) &&
               forall k :: 0 <= k < |b.inputs| ==>
                 c.transfers[k].recipient == b.inputs[k].address &&
                 ParseUnits(b.inputs[k].amount, DecimalsOf(asset)) == Ok(c.transfers[k].amount))
  {
    ParseTransfersMeaning(b.inputs, DecimalsOf(asset));
  }

  /** Building fails exactly when an amount the mode reads is not a decimal ethers accepts. */
  lemma PlanFails(asset: Asset, b: Batch)
    ensures PlanSpray(asset, b).Err? <==>
              if b.isEqual then ParseUnits(b.equalAmount, DecimalsOf(asset)).Err?
              else exists k :: 0 <= k < |b.inputs| && ParseUnits(b.inputs[k].amount, DecimalsOf(asset)).Err?
  {
    ParseTransfersMeaning(b.inputs, DecimalsOf(asset));
  }

  /** ABI encoding refuses a `uint256` argument or a value outside 0 .. 2^256 - 1. */
  predicate Encodable(c: SprayCall) {
    match c
    case EqualCall(_, _, per, v, _) => IsUint256(per) && IsUint256(v)
    case EthCall(ts, v, _) => IsUint256(v) && forall k :: 0 <= k < |ts| ==> IsUint256(ts[k].amount)
    case TokenCall(_, ts, _) => forall k :: 0 <= k < |ts| ==> IsUint256(ts[k].amount)
  }

  /** A call that encodes is one the contract's ABI accepts: value only on a payable entry point. */
  lemma EncodableAccepted(asset: Asset, b: Batch)
    requires PlanSpray(asset, b).Ok? && Encodable(PlanSpray(asset, b).value.call)
    ensures var c := PlanSpray(asset, b).value.call;
            ValueOf(c) >= 0 && AcceptsValue(EntryOf(c), ValueOf(c))
  {
  }

  /** With amounts that are all non-negative the fee is at most 0.3% of the payout, so the batch
      never needs more than the payout plus that. */
  lemma NeededBound(asset: Asset, b: Batch)
    requires PlanSpray(asset, b).Ok? && Payout(PlanSpray(asset, b).value.call) >= 0
    ensures var p := PlanSpray(asset, b).value;
            Payout(p.call) <= p.needed && p.needed * BpsDenominator <= Payout(p.call) * (BpsDenominator + FeeBps)
  {
    var t := Payout(PlanSpray(asset, b).value.call);
    FeeIsFloor(t);
  }

  /** The error ethers throws when an argument does not encode. */
  const OutOfBounds: Failure := Failure("value out-of-bounds", "value out-of-bounds")

  /** A transaction the wallet is asked to sign. */
  datatype Tx = Approve(spender: string, amount: int) | Spray(call: SprayCall)

  /** What happens, in order: handshake requests, the handshake completed, the allowance found
      short, a transaction sent to the wallet, the batch call about to be prompted (token path),
      and the batch call accepted with its hash. */
  datatype Event =
    | Asked(request: Wallet.Request)
    | Ready
    | Approving
    | Sent(tx: Tx)
    | PromptSpray
    | Submitted(hash: string)

  datatype Trace = Trace(events: seq<Event>, result: Result<string, Failure>)

  /** The answers of the wallet and the chain to the calls the code makes, should it make them. */
  datatype Replies = Replies(
    wallet: Option<Wallet.Injected>,
    handshake: Wallet.Replies,
    decimals: Result<nat, Failure>,        // token.decimals() on a token outside the registry
    signer: Result<string, Failure>,       // signer.getAddress()
    allowance: Result<nat, Failure>,       // token.allowance(signer, batch contract)
    approveSent: Outcome<Failure>,         // token.approve(...) accepted by the wallet
    approveMined: Outcome<Failure>,        // appTx.wait()
    spraySent: Result<string, Failure>,    // the batch call accepted: its hash
    sprayMined: Outcome<Failure>)          // tx.wait()

  /** The token a batch pays in, as the caller resolved it: native ether, a token whose decimals
      are known, or a token whose decimals are read from the chain (18 when that read fails). */
  datatype Payment = PayNative | PayKnown(token: string, decimals: nat) | PayRead(token: string)

  function AssetOf(pay: Payment, r: Replies): Asset {
    match pay
    case PayNative => Native
    case PayKnown(t, d) => Erc20(t, d)
    case PayRead(t) => Erc20(t, match r.decimals case Ok(d) => d case Err(_) => 18)
  }

  /** Sends the batch call and waits for it. */
  function Submit(c: SprayCall, r: Replies): Trace {
    if !Encodable(c) then Trace([], Err(OutOfBounds))
    else
      match r.spraySent
      case Err(f) => Trace([Sent(Spray(c))], Err(f))
      case Ok(h) => Trace([Sent(Spray(c)), Submitted(h)], match r.sprayMined case Pass => Ok(h) case Fail(f) => Err(f))
  }

  /** The approval part of a token batch: nothing when the allowance covers what is needed, else
      an approval of the batch contract for exactly that amount, sent and waited for. */
  function Approval(allowance: nat, needed: int, r: Replies): (seq<Event>, Outcome<Failure>) {
    if allowance >= needed then ([], Pass)
    else if !IsUint256(needed) then ([Approving], Fail(OutOfBounds))
    else
      match r.approveSent
      case Fail(f) => ([Approving, Sent(Approve(SprayContractAddress, needed))], Fail(f))
      case Pass => ([Approving, Sent(Approve(SprayContractAddress, needed))], r.approveMined)
  }

  function Then(events: seq<Event>, t: Trace): Trace {
    Trace(events + t.events, t.result)
  }

  /** The token path: the signer's address, the call, the allowance, the approval, the call. */
  function TokenBody(asset: Asset, b: Batch, r: Replies): Trace {
    match r.signer
    case Err(f) => Trace([], Err(f))
    case Ok(_) =>
      match PlanSpray(asset, b)
      case Err(f) => Trace([], Err(f))
      case Ok(plan) =>
        match r.allowance
        case Err(f) => Trace([], Err(f))
        case Ok(a) =>
          var ap := Approval(a, plan.needed, r);
          match ap.1
          case Fail(f) => Trace(ap.0, Err(f))
          case Pass => Then(ap.0 + [PromptSpray], Submit(plan.call, r))
  }

  /** What follows the handshake for the resolved payment. */
  function Body(pay: Payment, b: Batch, r: Replies): Trace {
    match pay
    case PayNative =>
      (match PlanSpray(Native, b)
       case Err(f) => Trace([], Err(f))
       case Ok(plan) => Submit(plan.call, r))
    case _ => TokenBody(AssetOf(pay, r), b, r)
  }

  /** The handshake requests as events. */
  function Asks(requests: seq<Wallet.Request>): (es: seq<Event>)
    ensures |es| == |requests|
  {
    seq(|requests|, k requires 0 <= k < |requests| => Asked(requests[k]))
  }

  /** The whole batch transaction: no wallet, the handshake, the payment the caller resolved
      (or the error it raised), then the body. `noWallet` is the caller's message for a
      missing wallet. */
  function Execute(noWallet: string, payment: Result<Payment, Failure>, b: Batch, r: Replies): Trace {
    match Wallet.FindProvider(r.wallet, noWallet)
    case Err(f) => Trace([], Err(f))
    case Ok(_) =>
      var session := Wallet.Connect(r.handshake);
      var asked := Asks(session.requests);
      match session.outcome
      case Fail(f) => Trace(asked, Err(f))
      case Pass =>
        match payment
        case Err(f) => Trace(asked + [Ready], Err(f))
        case Ok(pay) => Then(asked + [Ready], Body(pay, b, r))
  }

  /** The concatenation of what `f` draws from each event, in order. */
  function Collect<U>(es: seq<Event>, f: Event -> seq<U>): seq<U> {
    if es == [] then [] else Collect(es[..|es| - 1], f) + f(es[|es| - 1])
  }

  lemma {:induction false} CollectConcat<U>(a: seq<Event>, b: seq<Event>, f: Event -> seq<U>)
    ensures Collect(a + b, f) == Collect(a, f) + Collect(b, f)
    decreases |b|
  {
    if b == [] {
      assert a + b == a;
    } else {
      var c := b[..|b| - 1];
      assert (a + b)[..|a + b| - 1] == a + c;
      CollectConcat(a, c, f);
    }
  }

  lemma CollectSingle<U>(e: Event, f: Event -> seq<U>)
    ensures Collect([e], f) == f(e)
  {
    assert [e][..0] == [];
  }

  /** Handshake requests contribute nothing to what `f` draws when `f` ignores them. */
  lemma {:induction false} CollectAsks<U>(requests: seq<Wallet.Request>, f: Event -> seq<U>)
    requires forall q :: f(Asked(q)) == []
    ensures Collect(Asks(requests), f) == []
    decreases |requests|
  {
    if requests != [] {
      var init := requests[..|requests| - 1];
      assert Asks(requests)[..|requests| - 1] == Asks(init);
      CollectAsks(init, f);
    }
  }

  function TxOf(e: Event): seq<Tx> {
    if e.Sent? then [e.tx] else []
  }

  /** The transactions the trace sends to the wallet, in order. */
  function TxsOf(es: seq<Event>): seq<Tx> {
    Collect(es, TxOf)
  }

  lemma TxsOfConcat(a: seq<Event>, b: seq<Event>)
    ensures TxsOf(a + b) == TxsOf(a) + TxsOf(b)
  {
    CollectConcat(a, b, TxOf);
  }

  lemma TxsOfSingle(e: Event)
    ensures TxsOf([e]) == TxOf(e)
  {
    CollectSingle(e, TxOf);
  }

  /** The call a batch sends, for the payment resolved and the decimals the chain reported. */
  function PlanOf(pay: Payment, b: Batch, r: Replies): Result<Plan, Failure> {
    PlanSpray(AssetOf(pay, r), b)
  }

  /** The code reaches the allowance check: the handshake completed, the token is resolved, the
      signer is known and the call could be built. */
  predicate ReachesAllowance(payment: Result<Payment, Failure>, b: Batch, r: Replies) {
    r.wallet.Some? && Wallet.Connect(r.handshake).outcome.Pass? &&
    payment.Ok? && !payment.value.PayNative? && r.signer.Ok? &&
    PlanOf(payment.value, b, r).Ok? && r.allowance.Ok?
  }

  /** An approval is due: the allowance is below what the batch needs. */
  predicate ApprovalDue(payment: Result<Payment, Failure>, b: Batch, r: Replies) {
    ReachesAllowance(payment, b, r) && r.allowance.value < PlanOf(payment.value, b, r).value.needed
  }

  /** The batch call is built and the code goes on to send it: on the native path right after
      the handshake, on the token path once any approval is mined. */
  predicate ReachesSpray(payment: Result<Payment, Failure>, b: Batch, r: Replies) {
    r.wallet.Some? && Wallet.Connect(r.handshake).outcome.Pass? && payment.Ok? &&
    PlanOf(payment.value, b, r).Ok? &&
    (!payment.value.PayNative? ==>
       ReachesAllowance(payment, b, r) &&
       (ApprovalDue(payment, b, r) ==>
          IsUint256(PlanOf(payment.value, b, r).value.needed) && r.approveSent.Pass? && r.approveMined.Pass?))
  }

  lemma SubmitTxs(c: SprayCall, r: Replies)
    ensures TxsOf(Submit(c, r).events) == if Encodable(c) then [Spray(c)] else []
  {
    if Encodable(c) {
      TxsOfSingle(Sent(Spray(c)));
      if r.spraySent.Ok? {
        assert Submit(c, r).events == [Sent(Spray(c))] + [Submitted(r.spraySent.value)];
        TxsOfConcat([Sent(Spray(c))], [Submitted(r.spraySent.value)]);
        TxsOfSingle(Submitted(r.spraySent.value));
      }
    }
  }

  lemma ApprovalTxs(a: nat, needed: int, r: Replies)
    ensures TxsOf(Approval(a, needed, r).0) ==
              if a < needed && IsUint256(needed) then [Approve(SprayContractAddress, needed)] else []
  {
    TxsOfSingle(Approving);
    if a < needed && IsUint256(needed) {
      var e := Sent(Approve(SprayContractAddress, needed));
      assert Approval(a, needed, r).0 == [Approving] + [e];
      TxsOfConcat([Approving], [e]);
      TxsOfSingle(e);
    }
  }

  lemma TokenBodyTxs(asset: Asset, b: Batch, r: Replies)
    requires r.signer.Ok? && PlanSpray(asset, b).Ok? && r.allowance.Ok?
    ensures var plan := PlanSpray(asset, b).value;
            var due := r.allowance.value < plan.needed;
            TxsOf(TokenBody(asset, b, r).events) ==
              (if due && IsUint256(plan.needed) then [Approve(SprayContractAddress, plan.needed)] else []) +
              (if (due ==> IsUint256(plan.needed) && r.approveSent.Pass? && r.approveMined.Pass?) && Encodable(plan.call)
               then [Spray(plan.call)] else [])
  {
    var plan := PlanSpray(asset, b).value;
    var ap := Approval(r.allowance.value, plan.needed, r);
    ApprovalTxs(r.allowance.value, plan.needed, r);
    if ap.1.Pass? {
      assert TokenBody(asset, b, r).events == ap.0 + [PromptSpray] + Submit(plan.call, r).events;
      TxsOfConcat(ap.0 + [PromptSpray], Submit(plan.call, r).events);
      TxsOfConcat(ap.0, [PromptSpray]);
      TxsOfSingle(PromptSpray);
      SubmitTxs(plan.call, r);
    } else {
      assert TokenBody(asset, b, r).events == ap.0;
    }
  }

  /** The transactions of the part after the handshake. */
  function BodyTxs(pay: Payment, b: Batch, r: Replies): seq<Tx> {
    var due := !pay.PayNative? && r.signer.Ok? && PlanOf(pay, b, r).Ok? && r.allowance.Ok? &&
               r.allowance.value < PlanOf(pay, b, r).value.needed;
    var sprays := PlanOf(pay, b, r).Ok? &&
                  (!pay.PayNative? ==>
                     (r.signer.Ok? && r.allowance.Ok? &&
                      (due ==> IsUint256(PlanOf(pay, b, r).value.needed) && r.approveSent.Pass? && r.approveMined.Pass?)));
    (if due && IsUint256(PlanOf(pay, b, r).value.needed)
     then [Approve(SprayContractAddress, PlanOf(pay, b, r).value.needed)] else []) +
    (if sprays && Encodable(PlanOf(pay, b, r).value.call) then [Spray(PlanOf(pay, b, r).value.call)] else [])
  }

  lemma BodyTxsHold(pay: Payment, b: Batch, r: Replies)
    ensures TxsOf(Body(pay, b, r).events) == BodyTxs(pay, b, r)
  {
    if pay.PayNative? {
      if PlanSpray(Native, b).Ok? {
        SubmitTxs(PlanSpray(Native, b).value.call, r);
      }
    } else if r.signer.Ok? && PlanOf(pay, b, r).Ok? && r.allowance.Ok? {
      TokenBodyTxs(AssetOf(pay, r), b, r);
    }
  }

  /** The transactions a batch sends: an approval of the batch contract for exactly what the
      batch needs, only when the allowance is short and always before the batch call; then the
      batch call, sent only once any approval is mined and only when its arguments encode. */
  lemma ExecuteTxs(noWallet: string, payment: Result<Payment, Failure>, b: Batch, r: Replies)
    ensures TxsOf(Execute(noWallet, payment, b, r).events) ==
              (if ApprovalDue(payment, b, r) && IsUint256(PlanOf(payment.value, b, r).value.needed)
               then [Approve(SprayContractAddress, PlanOf(payment.value, b, r).value.needed)] else []) +
              (if ReachesSpray(payment, b, r) && Encodable(PlanOf(payment.value, b, r).value.call)
               then [Spray(PlanOf(payment.value, b, r).value.call)] else [])
  {
    if r.wallet.Some? {
      var session := Wallet.Connect(r.handshake);
      var asked := Asks(session.requests);
      CollectAsks(session.requests, TxOf);
      if session.outcome.Pass? {
        TxsOfConcat(asked, [Ready]);
        TxsOfSingle(Ready);
        if payment.Ok? {
          TxsOfConcat(asked + [Ready], Body(payment.value, b, r).events);
          BodyTxsHold(payment.value, b, r);
        }
      }
    }
  }

  /** Without an injected wallet nothing is sent and the caller's message is thrown. */
  lemma ExecuteNoWallet(noWallet: string, payment: Result<Payment, Failure>, b: Batch, r: Replies)
    requires r.wallet.None?
    ensures Execute(noWallet, payment, b, r) == Trace([], Err(Failure("", noWallet)))
  {
  }

  /** The batch succeeds exactly when its call is sent and mined, and then returns the hash the
      wallet gave for that call, which is the last thing the trace records. */
  lemma ExecuteSucceeds(noWallet: string, payment: Result<Payment, Failure>, b: Batch, r: Replies)
    ensures var t := Execute(noWallet, payment, b, r);
            t.result.Ok? <==>
              ReachesSpray(payment, b, r) && Encodable(PlanOf(payment.value, b, r).value.call) &&
              r.spraySent.Ok? && r.sprayMined.Pass?
    ensures var t := Execute(noWallet, payment, b, r);
            t.result.Ok? ==>
              t.result.value == r.spraySent.value && |t.events| >= 2 &&
              t.events[|t.events| - 1] == Submitted(t.result.value) &&
              t.events[|t.events| - 2] == Sent(Spray(PlanOf(payment.value, b, r).value.call))
  {
    if r.wallet.Some? && Wallet.Connect(r.handshake).outcome.Pass? && payment.Ok? {
      var pay := payment.value;
      if !pay.PayNative? && r.signer.Ok? && PlanOf(pay, b, r).Ok? && r.allowance.Ok? {
        var plan := PlanOf(pay, b, r).value;
        var ap := Approval(r.allowance.value, plan.needed, r);
        if ap.1.Pass? {
          assert TokenBody(AssetOf(pay, r), b, r) == Then(ap.0 + [PromptSpray], Submit(plan.call, r));
        }
      }
    }
  }

  /** The events at which a page updates what it shows. */
  function MarkOf(e: Event): seq<Event> {
    if e.Asked? || e.Sent? then [] else [e]
  }

  /** The acceptance of the batch call, when the wallet accepts it. */
  function Accepted(r: Replies): seq<Event> {
    if r.spraySent.Ok? then [Submitted(r.spraySent.value)] else []
  }

  /** Everything a batch may show, in the order it shows it: the handshake done, the approval
      (when due), the prompt for the batch call (token path), the accepted call. */
  function ExpectedMarks(payment: Result<Payment, Failure>, b: Batch, r: Replies): seq<Event> {
    [Ready] + (if ApprovalDue(payment, b, r) then [Approving] else []) +
    (if payment.Ok? && !payment.value.PayNative? then [PromptSpray] else []) +
    Accepted(r)
  }

  lemma SubmitMarks(c: SprayCall, r: Replies)
    ensures Collect(Submit(c, r).events, MarkOf) ==
              if Encodable(c) && r.spraySent.Ok? then [Submitted(r.spraySent.value)] else []
  {
    if Encodable(c) {
      CollectSingle(Sent(Spray(c)), MarkOf);
      if r.spraySent.Ok? {
        assert Submit(c, r).events == [Sent(Spray(c))] + [Submitted(r.spraySent.value)];
        CollectConcat([Sent(Spray(c))], [Submitted(r.spraySent.value)], MarkOf);
        CollectSingle(Submitted(r.spraySent.value), MarkOf);
      }
    }
  }

  lemma ApprovalMarks(a: nat, needed: int, r: Replies)
    ensures Collect(Approval(a, needed, r).0, MarkOf) == if a < needed then [Approving] else []
  {
    CollectSingle(Approving, MarkOf);
    if a < needed && IsUint256(needed) {
      var e := Sent(Approve(SprayContractAddress, needed));
      assert Approval(a, needed, r).0 == [Approving] + [e];
      CollectConcat([Approving], [e], MarkOf);
      CollectSingle(e, MarkOf);
    }
  }

  lemma TokenBodyMarks(asset: Asset, b: Batch, r: Replies)
    ensures Collect(TokenBody(asset, b, r).events, MarkOf) <=
              (if r.signer.Ok? && PlanSpray(asset, b).Ok? && r.allowance.Ok? &&
                  r.allowance.value < PlanSpray(asset, b).value.needed then [Approving] else []) +
              [PromptSpray] + Accepted(r)
  {
    if r.signer.Ok? && PlanSpray(asset, b).Ok? && r.allowance.Ok? {
      var plan := PlanSpray(asset, b).value;
      var ap := Approval(r.allowance.value, plan.needed, r);
      ApprovalMarks(r.allowance.value, plan.needed, r);
      var due := if r.allowance.value < plan.needed then [Approving] else [];
      if ap.1.Pass? {
        assert TokenBody(asset, b, r).events == ap.0 + [PromptSpray] + Submit(plan.call, r).events;
        PromptedMarks(ap.0, due, plan.call, r);
      } else {
        assert TokenBody(asset, b, r).events == ap.0;
        assert due <= due + [PromptSpray] + Accepted(r);
      }
    }
  }

  /** The marks of an approval part, the prompt and the batch call. */
  lemma PromptedMarks(approval: seq<Event>, due: seq<Event>, c: SprayCall, r: Replies)
    requires Collect(approval, MarkOf) == due
    ensures Collect(approval + [PromptSpray] + Submit(c, r).events, MarkOf) <= due + [PromptSpray] + Accepted(r)
  {
    CollectConcat(approval + [PromptSpray], Submit(c, r).events, MarkOf);
    CollectConcat(approval, [PromptSpray], MarkOf);
    CollectSingle(PromptSpray, MarkOf);
    SubmitMarks(c, r);
  }

  /** What the part after the handshake may show. */
  function BodyMarks(pay: Payment, b: Batch, r: Replies): seq<Event> {
    (if !pay.PayNative? && r.signer.Ok? && PlanOf(pay, b, r).Ok? && r.allowance.Ok? &&
        r.allowance.value < PlanOf(pay, b, r).value.needed then [Approving] else []) +
    (if !pay.PayNative? then [PromptSpray] else []) +
    Accepted(r)
  }

  lemma BodyMarksBound(pay: Payment, b: Batch, r: Replies)
    ensures Collect(Body(pay, b, r).events, MarkOf) <= BodyMarks(pay, b, r)
  {
    if pay.PayNative? {
      if PlanSpray(Native, b).Ok? {
        SubmitMarks(PlanSpray(Native, b).value.call, r);
      }
    } else {
      TokenBodyMarks(AssetOf(pay, r), b, r);
    }
  }

  lemma ExpectedAfterReady(payment: Result<Payment, Failure>, b: Batch, r: Replies)
    requires r.wallet.Some? && Wallet.Connect(r.handshake).outcome.Pass? && payment.Ok?
    ensures ExpectedMarks(payment, b, r) == [Ready] + BodyMarks(payment.value, b, r)
  {
  }

  lemma PrefixCons<T>(x: T, a: seq<T>, b: seq<T>)
    requires a <= b
    ensures [x] + a <= [x] + b
  {
    assert ([x] + b)[..|a| + 1] == [x] + a;
  }

  /** What a batch shows is a prefix of everything it may show, in that order: a failure only
      cuts the sequence short. */
  lemma ExecuteMarks(noWallet: string, payment: Result<Payment, Failure>, b: Batch, r: Replies)
    ensures Collect(Execute(noWallet, payment, b, r).events, MarkOf) <= ExpectedMarks(payment, b, r)
  {
    if r.wallet.Some? {
      var session := Wallet.Connect(r.handshake);
      var asked := Asks(session.requests);
      CollectAsks(session.requests, MarkOf);
      if session.outcome.Pass? {
        if payment.Ok? {
          var pay := payment.value;
          BodyMarksBound(pay, b, r);
          ExpectedAfterReady(payment, b, r);
          ReadyThenBody(asked, Body(pay, b, r).events, BodyMarks(pay, b, r));
        } else {
          ReadyThenBody(asked, [], []);
        }
      }
    }
  }

  /** Handshake events, `Ready`, then a body whose marks are bounded by `bound`. */
  lemma ReadyThenBody(asked: seq<Event>, body: seq<Event>, bound: seq<Event>)
    requires Collect(asked, MarkOf) == [] && Collect(body, MarkOf) <= bound
    ensures Collect(asked + [Ready] + body, MarkOf) <= [Ready] + bound
    ensures Collect(asked + [Ready], MarkOf) == [Ready]
  {
    CollectConcat(asked, [Ready], MarkOf);
    CollectSingle(Ready, MarkOf);
    CollectConcat(asked + [Ready], body, MarkOf);
    PrefixCons(Ready, Collect(body, MarkOf), bound);
  }

  /** Drawing from a prefix gives a prefix. */
  lemma {:induction false} CollectPrefix<U>(a: seq<Event>, b: seq<Event>, f: Event -> seq<U>)
    requires a <= b
    ensures Collect(a, f) <= Collect(b, f)
  {
    assert b == a + b[|a|..];
    CollectConcat(a, b[|a|..], f);
  }

  /** What `f` draws from the marks is what it draws from all events, when `f` ignores the rest. */
  lemma {:induction false} CollectMarks<U>(es: seq<Event>, f: Event -> seq<U>)
    requires forall e :: MarkOf(e) == [] ==> f(e) == []
    ensures Collect(Collect(es, MarkOf), f) == Collect(es, f)
    decreases |es|
  {
    if es != [] {
      var init, e := es[..|es| - 1], es[|es| - 1];
      CollectMarks(init, f);
      CollectConcat(Collect(init, MarkOf), MarkOf(e), f);
      if MarkOf(e) != [] {
        CollectSingle(e, f);
      } else {
        assert Collect([], f) == [];
      }
    }
  }

  /** The imperative construction of the call: the same as `PlanSpray`, with the total summed by
      the loop of the source. */
  method MakePlan(asset: Asset, b: Batch) returns (plan: Result<Plan, Failure>)
    ensures plan == PlanSpray(asset, b)
  {
    var gas := GasLimit(|b.inputs|);
    var decimals := DecimalsOf(asset);
    if b.isEqual {
      var per := ParseUnits(b.equalAmount, decimals);
      if per.Err? {
        return Err(ParseFailure(per.error));
      }
      var total := per.value * |b.inputs|;
      var call := if asset.Native? then EqualCall(ZeroAddress, Addresses(b.inputs), per.value, Needed(total), gas)
                  else EqualCall(asset.token, Addresses(b.inputs), per.value, 0, gas);
      plan := Ok(Plan(call, Needed(total)));
    } else {
      var tuples := ParseTransfers(b.inputs, decimals);
      if tuples.Err? {
        return Err(ParseFailure(tuples.error));
      }
      var total := TotalOf(tuples.value);
      var call := if asset.Native? then EthCall(tuples.value, Needed(total), gas)
                  else TokenCall(asset.token, tuples.value, gas);
      plan := Ok(Plan(call, Needed(total)));
    }
  }

  /** The batch call sent and awaited, step by step. */
  method SendSpray(c: SprayCall, r: Replies) returns (issued: seq<Event>, result: Result<string, Failure>)
    ensures Trace(issued, result) == Submit(c, r)
  {
    issued := [];
    if !Encodable(c) {
      return issued, Err(OutOfBounds);
    }
    issued := issued + [Sent(Spray(c))];
    if r.spraySent.Err? {
      return issued, Err(r.spraySent.error);
    }
    var hash := r.spraySent.value;
    issued := issued + [Submitted(hash)];
    if r.sprayMined.Fail? {
      return issued, Err(r.sprayMined.error);
    }
    result := Ok(hash);
  }

  /** The allowance check, step by step: when it is short, approve exactly what is needed and
      wait for the approval. */
  method SendApproval(allowance: nat, needed: int, r: Replies) returns (issued: seq<Event>, outcome: Outcome<Failure>)
    ensures (issued, outcome) == Approval(allowance, needed, r)
  {
    issued, outcome := [], Pass;
    if allowance < needed {
      issued := [Approving];
      if !IsUint256(needed) {
        return issued, Fail(OutOfBounds);
      }
      issued := [Approving, Sent(Approve(SprayContractAddress, needed))];
      if r.approveSent.Fail? {
        return issued, r.approveSent;
      }
      outcome := r.approveMined;
    }
  }

  /** The token path, step by step: signer, call, allowance, approval, the call. */
  method SendToken(asset: Asset, b: Batch, r: Replies) returns (issued: seq<Event>, result: Result<string, Failure>)
    ensures Trace(issued, result) == TokenBody(asset, b, r)
  {
    issued := [];
    if r.signer.Err? {
      return issued, Err(r.signer.error);
    }
    var plan := MakePlan(asset, b);
    if plan.Err? {
      return issued, Err(plan.error);
    }
    if r.allowance.Err? {
      return issued, Err(r.allowance.error);
    }
    var approval, outcome := SendApproval(r.allowance.value, plan.value.needed, r);
    if outcome.Fail? {
      return approval, Err(outcome.error);
    }
    var rest;
    rest, result := SendSpray(plan.value.call, r);
    issued := approval + [PromptSpray] + rest;
  }

  /** The whole batch transaction, step by step, as the hook and the batch page run it. */
  method Run(noWallet: string, payment: Result<Payment, Failure>, b: Batch, r: Replies)
    returns (issued: seq<Event>, result: Result<string, Failure>)
    ensures Trace(issued, result) == Execute(noWallet, payment, b, r)
  {
    if r.wallet.None? {
      return [], Err(Failure("", noWallet));
    }
    var session := Wallet.Connect(r.handshake);
    issued := Asks(session.requests);
    if session.outcome.Fail? {
      return issued, Err(session.outcome.error);
    }
    issued := issued + [Ready];
    if payment.Err? {
      return issued, Err(payment.error);
    }
    var rest;
    match payment.value {
      case PayNative =>
        var plan := MakePlan(Native, b);
        if plan.Err? {
          return issued, Err(plan.error);
        }
        rest, result := SendSpray(plan.value.call, r);
      case _ =>
        rest, result := SendToken(AssetOf(payment.value, r), b, r);
    }
    issued := issued + rest;
  }
}
