/** The batch-send hook used by the two buy-then-spray flows: its progress, status line,
    transaction hash and error, and `executeSpray`, which resolves the token by name and runs
    the shared batch transaction while updating that state. */
module SprayHook {
  import opened Wrappers
  import opened Contracts
  import opened Errors
  import opened SprayProtocol

  const NoWallet: string := "No wallet found. Make sure your wallet is installed and unlocked."

  /** `executeSpray`'s parameters: `token` is `'ETH'`, a registry name, or a token address. */
  datatype SprayParams = SprayParams(recipients: seq<Input>, isEqual: bool, equalAmount: string, token: string)

  function BatchOf(p: SprayParams): Batch {
    Batch(p.recipients, p.isEqual, p.equalAmount)
  }

  /** `'ETH'` is native ether; a registry name takes the registry's address and decimals; any
      other string is used as the token address and its decimals are read from the chain. */
  function HookPayment(token: string): Payment {
    if token == "ETH" then PayNative
    else match KeyOfName(token)
      case Some(k) => PayKnown(Info(k).address, Info(k).decimals)
      case None => PayRead(token)
  }

  lemma HookPaymentMeaning(token: string)
    ensures HookPayment(token).PayNative? <==> token == "ETH"
    ensures forall k: TokenKey :: token == KeyName(k) ==> HookPayment(token) == PayKnown(Info(k).address, Info(k).decimals)
    ensures token != "ETH" && KeyOfName(token).None? ==> HookPayment(token) == PayRead(token)
  {
  }

  /** USDC batches are read at six decimals, DAI and WETH at eighteen. */
  lemma HookRegistryDecimals(k: TokenKey)
    ensures HookPayment(KeyName(k)).decimals == if k == USDC then 6 else 18
  {
    KeyOfNameRoundTrip(k);
  }

  datatype HookState = HookState(progress: int, statusMsg: string, txHash: Option<string>, error: Option<string>)

  const Confirming: string := "Confirming on Base…"

  /** How the hook's state changes at each event of a batch. */
  function HookStep(s: HookState, e: Event, native: bool): HookState {
    match e
    case Ready => s.(progress := 60, statusMsg := "Confirm in your wallet…")
    case Approving => s.(statusMsg := "Approving USDC… confirm in wallet")
    case PromptSpray => s.(progress := 70, statusMsg := "Confirm batch spray in wallet…")
    case Submitted(h) => s.(progress := if native then 80 else 85, statusMsg := Confirming, txHash := Some(h))
    case _ => s
  }

  /** The hook's state after the events `es`, from `s`. */
  function HookView(s: HookState, es: seq<Event>, native: bool): HookState {
    if es == [] then s else HookStep(HookView(s, es[..|es| - 1], native), es[|es| - 1], native)
  }

  /** The progress value an event sets, if any. */
  function ProgressSet(native: bool): Event -> seq<int> {
    (e: Event) =>
      match e
      case Ready => [60]
      case PromptSpray => [70]
      case Submitted(_) => [if native then 80 else 85]
      case _ => []
  }

  /** The progress shown is the last value set, or the one the caller left. */
  lemma {:induction false} HookViewProgress(s: HookState, es: seq<Event>, native: bool)
    ensures var trail := Collect(es, ProgressSet(native));
            HookView(s, es, native).progress == if trail == [] then s.progress else trail[|trail| - 1]
    decreases |es|
  {
    if es != [] {
      HookViewProgress(s, es[..|es| - 1], native);
    }
  }

  /** The error field is the caller's: the hook never sets it while sending. */
  lemma {:induction false} HookViewKeepsError(s: HookState, es: seq<Event>, native: bool)
    ensures HookView(s, es, native).error == s.error
    decreases |es|
  {
    if es != [] {
      HookViewKeepsError(s, es[..|es| - 1], native);
    }
  }

  /** The progress values set by the marks before the accepted call. */
  lemma MarksProgressHead(due: seq<Event>, prompt: seq<Event>, native: bool)
    requires due == [] || due == [Approving]
    requires prompt == (if native then [] else [PromptSpray])
    ensures Collect([Ready] + due + prompt, ProgressSet(native)) == if native then [60] else [60, 70]
  {
    var f := ProgressSet(native);
    CollectConcat([Ready] + due, prompt, f);
    CollectConcat([Ready], due, f);
    CollectSingle(Ready, f);
    if due != [] { CollectSingle(Approving, f); }
    if prompt != [] { CollectSingle(PromptSpray, f); }
  }

  /** The progress values set by a run of marks in the expected order. */
  lemma MarksProgress(due: seq<Event>, prompt: seq<Event>, last: seq<Event>, native: bool)
    requires due == [] || due == [Approving]
    requires prompt == (if native then [] else [PromptSpray])
    requires last == [] || (|last| == 1 && last[0].Submitted?)
    ensures Collect([Ready] + due + prompt + last, ProgressSet(native)) <=
              if native then [60, 80] else [60, 70, 85]
  {
    var f := ProgressSet(native);
    MarksProgressHead(due, prompt, native);
    CollectConcat([Ready] + due + prompt, last, f);
    if last != [] {
      assert last == [last[0]];
      CollectSingle(last[0], f);
    }
  }

  /** Events whose marks are a prefix of `expected` set a prefix of the progress `expected` sets. */
  lemma TrailPrefix(es: seq<Event>, expected: seq<Event>, native: bool)
    requires Collect(es, MarkOf) <= expected
    ensures Collect(es, ProgressSet(native)) <= Collect(expected, ProgressSet(native))
  {
    CollectMarks(es, ProgressSet(native));
    CollectPrefix(Collect(es, MarkOf), expected, ProgressSet(native));
  }

  /** The progress bar moves 60 then 80 for ether, 60, 70, 85 for a token, stopping early when
      a step fails: it never goes backwards. */
  lemma HookProgressTrail(p: SprayParams, r: Replies)
    ensures var native := p.token == "ETH";
            var t := Execute(NoWallet, Ok(HookPayment(p.token)), BatchOf(p), r);
            Collect(t.events, ProgressSet(native)) <= if native then [60, 80] else [60, 70, 85]
  {
    var native := p.token == "ETH";
    var payment := Ok(HookPayment(p.token));
    ExecuteMarks(NoWallet, payment, BatchOf(p), r);
    var expected := ExpectedMarks(payment, BatchOf(p), r);
    TrailPrefix(Execute(NoWallet, payment, BatchOf(p), r).events, expected, native);
    MarksProgress(if ApprovalDue(payment, BatchOf(p), r) then [Approving] else [],
                  if !native then [PromptSpray] else [],
                  Accepted(r), native);
  }

  /** After a successful batch the hook shows the hash it returns, the last progress step and
      the confirming message. */
  lemma HookSuccess(s: HookState, p: SprayParams, r: Replies)
    requires Execute(NoWallet, Ok(HookPayment(p.token)), BatchOf(p), r).result.Ok?
    ensures var t := Execute(NoWallet, Ok(HookPayment(p.token)), BatchOf(p), r);
            var v := HookView(s, t.events, p.token == "ETH");
            v.txHash == Some(t.result.value) && v.statusMsg == Confirming &&
            v.progress == if p.token == "ETH" then 80 else 85
  {
    ExecuteSucceeds(NoWallet, Ok(HookPayment(p.token)), BatchOf(p), r);
  }

  /** Without a wallet the hook throws its own message and leaves its state as it was. */
  lemma HookNoWallet(s: HookState, p: SprayParams, r: Replies)
    requires r.wallet.None?
    ensures var t := Execute(NoWallet, Ok(HookPayment(p.token)), BatchOf(p), r);
            t.result == Err(Failure("", NoWallet)) && HookView(s, t.events, p.token == "ETH") == s
  {
    ExecuteNoWallet(NoWallet, Ok(HookPayment(p.token)), BatchOf(p), r);
  }

  /** The hook's state. */
  class SprayTransaction {
    var progress: int
    var statusMsg: string
    var txHash: Option<string>
    var error: Option<string>

    function State(): HookState
      reads this
    {
      HookState(progress, statusMsg, txHash, error)
    }

    constructor ()
      ensures State() == HookState(0, "", None, None)
    {
      progress, statusMsg, txHash, error := 0, "", None, None;
    }

    method SetProgress(p: int)
      modifies this
      ensures State() == old(State()).(progress := p)
    {
      progress := p;
    }

    method SetStatusMsg(msg: string)
      modifies this
      ensures State() == old(State()).(statusMsg := msg)
    {
      statusMsg := msg;
    }

    method SetTxHash(h: Option<string>)
      modifies this
      ensures State() == old(State()).(txHash := h)
    {
      txHash := h;
    }

    method SetError(e: Option<string>)
      modifies this
      ensures State() == old(State()).(error := e)
    {
      error := e;
    }

    /** `reset`: back to the initial state. */
    method Reset()
      modifies this
      ensures State() == HookState(0, "", None, None)
    {
      progress, statusMsg, txHash, error := 0, "", None, None;
    }

    /** `executeSpray`: runs the batch and leaves the state the events produce; the result is
        the hash of the mined batch call, or the error thrown. */
    method ExecuteSpray(p: SprayParams, r: Replies) returns (result: Result<string, Failure>)
      modifies this
      ensures var t := Execute(NoWallet, Ok(HookPayment(p.token)), BatchOf(p), r);
              result == t.result && State() == HookView(old(State()), t.events, p.token == "ETH")
    {
      var issued;
      issued, result := Run(NoWallet, Ok(HookPayment(p.token)), BatchOf(p), r);
      var after := HookView(State(), issued, p.token == "ETH");
      HookViewKeepsError(State(), issued, p.token == "ETH");
      progress, statusMsg, txHash := after.progress, after.statusMsg, after.txHash;
    }
  }
}
