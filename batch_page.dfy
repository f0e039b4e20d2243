/** The batch page: its form (mode, equal-amount switch, token address, recipient rows), the
    values derived from the form, and `handleSend`, which runs the shared batch transaction on
    the valid rows and reports the outcome in the page's status line. */
module BatchPage {
  import opened Wrappers
  import opened Text
  import opened Amounts
  import opened Contracts
  import opened Errors
  import opened Recipients
  import opened SprayProtocol

  datatype Mode = EthMode | Erc20Mode

  datatype StatusKind = SuccessLine | ErrorLine | InfoLine

  /** `txStatus`: the line under the form. */
  datatype TxStatus = TxStatus(kind: StatusKind, msg: string)

  const NoWallet: string := "No wallet found. Make sure MetaMask is installed and unlocked."
  const InvalidToken: string := "Enter a valid token address."
  const TooMany: string := "Max 200 recipients per transaction."

  /** `s || '0'`: an empty amount is sent as zero. */
  function OrZero(s: string): (r: string)
    ensures r != []
    ensures s != [] ==> r == s
  {
    if s == [] then "0" else s
  }

  /** An empty amount is sent as zero and reads as zero units at any decimals. */
  lemma OrZeroEmpty(decimals: nat)
    ensures ParseUnits(OrZero(""), decimals) == Ok(0)
  {
    assert OrZero("") == FormatFixed(0, 0);
    FormatFixedParses(0, 0, decimals);
  }

  /** The payment the page sends in: native ether in ether mode; otherwise the trimmed token
      address, when it is `0x` and forty hex digits, with its decimals read from the chain. */
  function PagePayment(mode: Mode, tokenAddress: string): (r: Result<Payment, Failure>)
    ensures mode == EthMode ==> r == Ok(PayNative)
    ensures mode == Erc20Mode ==> (r.Ok? <==> IsHexAddress(Trim(tokenAddress)))
    ensures r.Ok? && mode == Erc20Mode ==> r.value == PayRead(Trim(tokenAddress))
    ensures r.Err? ==> r.error == Failure("", InvalidToken)
  {
    match mode
    case EthMode => Ok(PayNative)
    case Erc20Mode =>
      var t := Trim(tokenAddress);
      if IsHexAddress(t) then Ok(PayRead(t)) else Err(Failure("", InvalidToken))
  }

  /** The batch the page sends: the valid rows with empty amounts sent as zero. */
  function PageBatch(valid: seq<Recipient>, equalMode: bool, equalAmount: string): (b: Batch)
    ensures |b.inputs| == |valid| && b.isEqual == equalMode
  {
    Batch(seq(|valid|, k requires 0 <= k < |valid| => Input(valid[k].address, OrZero(valid[k].amount))),
          equalMode, OrZero(equalAmount))
  }

  /** The batch keeps the rows' order and addresses and never carries an empty amount. */
  lemma PageBatchMeaning(valid: seq<Recipient>, equalMode: bool, equalAmount: string)
    ensures var b := PageBatch(valid, equalMode, equalAmount);
            b.equalAmount != [] && (equalAmount != [] ==> b.equalAmount == equalAmount) &&
            forall k :: 0 <= k < |valid| ==>
              b.inputs[k].address == valid[k].address && b.inputs[k].amount != [] &&
              (valid[k].amount != [] ==> b.inputs[k].amount == valid[k].amount)
  {
  }

  /** The success line: the recipient count and a link to the transaction on BaseScan. */
  function SuccessMessage(count: nat, hash: string): string {
    SprayedTo + NatToString(count) + WalletsLink + hash + LinkEnd
  }

  const SprayedTo: string := "✅ Sprayed to "
  const WalletsLink: string := " wallets! <a href=\"https://basescan.org/tx/"
  const LinkEnd: string := "\" target=\"_blank\" class=\"underline\">View on BaseScan →</a>"

  /** The part of the page's state `handleSend` drives. */
  datatype SendState = SendState(txStatus: Option<TxStatus>, isSending: bool, isConfirming: bool, txHash: Option<string>)

  const ConfirmInWallet: string := "Confirm in your wallet…"
  const ApprovingToken: string := "Approving token… confirm in wallet."
  const ConfirmSpray: string := "Confirm spray in your wallet…"
  const Waiting: string := "Submitted! Waiting for confirmation…"

  /** How the page's state changes at each event of a batch. */
  function PageStep(s: SendState, e: Event): SendState {
    match e
    case Approving => s.(txStatus := Some(TxStatus(InfoLine, ApprovingToken)))
    case PromptSpray => s.(txStatus := Some(TxStatus(InfoLine, ConfirmSpray)))
    case Submitted(h) => SendState(Some(TxStatus(InfoLine, Waiting)), false, true, Some(h))
    case _ => s
  }

  function PageView(s: SendState, es: seq<Event>): SendState {
    if es == [] then s else PageStep(PageView(s, es[..|es| - 1]), es[|es| - 1])
  }

  function HashOf(e: Event): seq<string> {
    if e.Submitted? then [e.hash] else []
  }

  /** The hash shown is that of the last accepted call, or the one shown before. */
  lemma {:induction false} PageViewHash(s: SendState, es: seq<Event>)
    ensures var hs := Collect(es, HashOf);
            PageView(s, es).txHash == if hs == [] then s.txHash else Some(hs[|hs| - 1])
    decreases |es|
  {
    if es != [] {
      PageViewHash(s, es[..|es| - 1]);
    }
  }

  /** The state when `handleSend` begins: sending, the prompt shown, no hash. */
  function Sending(isConfirming: bool): SendState {
    SendState(Some(TxStatus(InfoLine, ConfirmInWallet)), true, isConfirming, None)
  }

  /** The state `handleSend` leaves: after the events, the success path (status of success, the
      form reset clears the hash) or the `catch` block (the classified error). */
  function SendOutcome(isConfirming: bool, t: Trace, count: nat): SendState {
    var v := PageView(Sending(isConfirming), t.events);
    match t.result
    case Ok(h) => SendState(Some(TxStatus(SuccessLine, SuccessMessage(count, h))), v.isSending, false, None)
    case Err(f) => SendState(Some(TxStatus(ErrorLine, ShownError(BatchPage, f))), false, false, v.txHash)
  }

  /** The page never sets `isSending` back to true after the call was accepted. */
  lemma {:induction false} PageViewSending(s: SendState, es: seq<Event>)
    ensures PageView(s, es).isSending ==> s.isSending && Collect(es, HashOf) == []
    decreases |es|
  {
    if es != [] {
      var init := es[..|es| - 1];
      PageViewSending(s, init);
      CollectConcat(init, [es[|es| - 1]], HashOf);
      assert init + [es[|es| - 1]] == es;
      CollectSingle(es[|es| - 1], HashOf);
    }
  }

  /** However a send ends, the page is neither sending nor confirming afterwards; the status
      line says success exactly when the batch was mined, with the count and hash, and otherwise
      shows the classified error. A success clears the hash; a failure keeps the hash of a call
      that was accepted but not mined, and no other. */
  lemma SendSettles(isConfirming: bool, payment: Result<Payment, Failure>, b: Batch, r: Replies)
    ensures var t := Execute(NoWallet, payment, b, r);
            var o := SendOutcome(isConfirming, t, |b.inputs|);
            !o.isSending && !o.isConfirming &&
            (o.txStatus.value.kind == SuccessLine <==> t.result.Ok?) &&
            (t.result.Ok? ==> o.txStatus.value.msg == SuccessMessage(|b.inputs|, r.spraySent.value) && o.txHash == None) &&
            (t.result.Err? ==> o.txStatus.value == TxStatus(ErrorLine, ShownError(BatchPage, t.result.error))) &&
            (o.txHash.Some? ==> r.spraySent.Ok? && o.txHash.value == r.spraySent.value)
  {
    var t := Execute(NoWallet, payment, b, r);
    ExecuteSucceeds(NoWallet, payment, b, r);
    if t.result.Err? { SubmittedHashes(payment, b, r); }
    TraceSettles(isConfirming, t, |b.inputs|, r.spraySent);
  }

  /** `SendSettles` for any trace that ends with its accepted call when it succeeds and accepts
      at most the wallet's one call otherwise. */
  lemma TraceSettles(isConfirming: bool, t: Trace, count: nat, sent: Result<string, Failure>)
    requires t.result.Ok? ==>
               sent.Ok? && t.result.value == sent.value && |t.events| >= 1 &&
               t.events[|t.events| - 1] == Submitted(t.result.value)
    requires t.result.Err? ==>
               var hs := Collect(t.events, HashOf);
               hs == [] || (sent.Ok? && hs == [sent.value])
    ensures var o := SendOutcome(isConfirming, t, count);
            !o.isSending && !o.isConfirming &&
            (o.txStatus.value.kind == SuccessLine <==> t.result.Ok?) &&
            (t.result.Ok? ==> o.txStatus.value.msg == SuccessMessage(count, sent.value) && o.txHash == None) &&
            (t.result.Err? ==> o.txStatus.value == TxStatus(ErrorLine, ShownError(BatchPage, t.result.error))) &&
            (o.txHash.Some? ==> sent.Ok? && o.txHash.value == sent.value)
  {
    PageViewHash(Sending(isConfirming), t.events);
    if t.result.Ok? {
      var es := t.events;
      PageViewSending(Sending(isConfirming), es);
      CollectConcat(es[..|es| - 1], [es[|es| - 1]], HashOf);
      assert es[..|es| - 1] + [es[|es| - 1]] == es;
      CollectSingle(es[|es| - 1], HashOf);
    }
  }

  lemma SubmittedHashes(payment: Result<Payment, Failure>, b: Batch, r: Replies)
    ensures var hs := Collect(Execute(NoWallet, payment, b, r).events, HashOf);
            hs == [] || (r.spraySent.Ok? && hs == [r.spraySent.value])
  {
    var es := Execute(NoWallet, payment, b, r).events;
    var expected := ExpectedMarks(payment, b, r);
    ExecuteMarks(NoWallet, payment, b, r);
    CollectMarks(es, HashOf);
    CollectPrefix(Collect(es, MarkOf), expected, HashOf);
    ExpectedHashes(payment, b, r);
  }

  lemma ExpectedHashes(payment: Result<Payment, Failure>, b: Batch, r: Replies)
    ensures Collect(ExpectedMarks(payment, b, r), HashOf) == if r.spraySent.Ok? then [r.spraySent.value] else []
  {
    var due := if ApprovalDue(payment, b, r) then [Approving] else [];
    var prompt := if payment.Ok? && !payment.value.PayNative? then [PromptSpray] else [];
    assert ExpectedMarks(payment, b, r) == [Ready] + due + prompt + Accepted(r);
    HeadHashes(due, prompt);
    CollectConcat([Ready] + due + prompt, Accepted(r), HashOf);
    if r.spraySent.Ok? {
      CollectSingle(Submitted(r.spraySent.value), HashOf);
    }
  }

  /** The marks before the accepted call carry no hash. */
  lemma HeadHashes(due: seq<Event>, prompt: seq<Event>)
    requires due == [] || due == [Approving]
    requires prompt == [] || prompt == [PromptSpray]
    ensures Collect([Ready] + due + prompt, HashOf) == []
  {
    CollectConcat([Ready] + due, prompt, HashOf);
    CollectConcat([Ready], due, HashOf);
    CollectSingle(Ready, HashOf);
    if due != [] { CollectSingle(Approving, HashOf); }
    if prompt != [] { CollectSingle(PromptSpray, HashOf); }
  }

  /** The symbol shown after the amounts: ETH in ether mode; the registry name of a registry
      address, compared lower-cased but untrimmed; else the fetched symbol, `…` while fetching,
      or `TKN`. */
  function DisplaySymbol(mode: Mode, tokenAddress: string, customSymbol: string, fetching: bool): (sym: string)
    ensures sym != []
  {
    if mode == EthMode then "ETH"
    else match LookupByAddress(ToLowerAscii(tokenAddress))
      case Some(k) => KeyName(k)
      case None => if customSymbol != [] then customSymbol else if fetching then "…" else "TKN"
  }

  /** The symbol effect's decision for the address in the field: a registry address (compared
      trimmed and lower-cased) or a malformed one clears the fetched symbol and fetches nothing;
      any other address is fetched. */
  predicate FetchesSymbol(mode: Mode, tokenAddress: string) {
    mode == Erc20Mode && LookupByAddress(ToLowerAscii(Trim(tokenAddress))).None? &&
    IsHexAddress(Trim(tokenAddress))
  }

  /** A registry address typed with a leading space: the effect treats it as a registry token
      and fetches nothing, the send trims it and pays in that token, yet the symbol shown is
      `TKN`, because the display compares the address untrimmed. */
  lemma PaddedRegistryAddressShowsTkn(k: TokenKey)
    ensures !FetchesSymbol(Erc20Mode, " " + Info(k).address)
    ensures PagePayment(Erc20Mode, " " + Info(k).address) == Ok(PayRead(Info(k).address))
    ensures DisplaySymbol(Erc20Mode, " " + Info(k).address, "", false) == "TKN"
  {
    var a := Info(k).address;
    RegistryAddressesHex(k);
    PaddedTrim(a);
    LookupByAddressUnique(k, ToLowerAscii(a));
    var padded := ToLowerAscii(" " + a);
    assert padded[0] == ' ';
    forall j: TokenKey ensures ToLowerAscii(Info(j).address) != padded {
      RegistryAddressesHex(j);
      assert ToLowerAscii(Info(j).address)[0] == '0';
    }
  }

  /** Trimming a leading space off a hex address gives the address back. */
  lemma PaddedTrim(a: string)
    requires IsHexAddress(a)
    ensures Trim(" " + a) == a
  {
    assert (" " + a)[1..] == a;
    HexNotWhitespace(a[0]);
    HexNotWhitespace(a[41]);
    assert TrimStart(a) == a;
    assert TrimStart(" " + a) == a;
    assert TrimEnd(a) == a;
  }

  lemma HexNotWhitespace(c: char)
    requires IsHexDigit(c)
    ensures !IsWhitespace(c)
  {
  }

  /** The intended display: the registry name of the trimmed address, like the effect and the
      send. */
  function DisplaySymbolTrimmed(mode: Mode, tokenAddress: string, customSymbol: string, fetching: bool): (sym: string)
    ensures sym != []
  {
    DisplaySymbol(mode, Trim(tokenAddress), customSymbol, fetching)
  }

  /** With the trimmed comparison, an address the send pays a registry token with is always
      shown with that token's name. */
  lemma TrimmedSymbolAgreesWithSend(k: TokenKey, tokenAddress: string, customSymbol: string, fetching: bool)
    requires Trim(tokenAddress) == Info(k).address
    ensures DisplaySymbolTrimmed(Erc20Mode, tokenAddress, customSymbol, fetching) == KeyName(k)
    ensures !FetchesSymbol(Erc20Mode, tokenAddress)
  {
    LookupByAddressUnique(k, ToLowerAscii(Info(k).address));
  }

  /** `modalRecipients`: each valid row with the amount it receives written to six decimals. */
  function ModalRecipients(valid: seq<Recipient>, equalMode: bool, equalAmount: string, parseFloat: FloatParser): (m: seq<Input>)
    ensures |m| == |valid|
  {
    seq(|valid|, k requires 0 <= k < |valid| =>
      Input(valid[k].address, ToFixed(FloatOrZero(parseFloat, if equalMode then equalAmount else valid[k].amount), 6)))
  }

  /** Every amount the confirmation shows reads back at six or more decimals as the displayed
      value rounded to six decimals. */
  lemma ModalAmountsParse(valid: seq<Recipient>, equalMode: bool, equalAmount: string, parseFloat: FloatParser, k: nat, decimals: nat)
    requires k < |valid| && 6 <= decimals
    ensures var x := FloatOrZero(parseFloat, if equalMode then equalAmount else valid[k].amount);
            ModalRecipients(valid, equalMode, equalAmount, parseFloat)[k].address == valid[k].address &&
            ParseUnits(ModalRecipients(valid, equalMode, equalAmount, parseFloat)[k].amount, decimals) ==
              Ok(FixedUnits(x, 6) * Pow10(decimals - 6))
  {
    var x := FloatOrZero(parseFloat, if equalMode then equalAmount else valid[k].amount);
    var m := ModalRecipients(valid, equalMode, equalAmount, parseFloat);
    assert m[k] == Input(valid[k].address, ToFixed(x, 6));
    FixedReads(m[k].amount, x, decimals);
  }

  lemma FixedReads(amount: string, x: real, decimals: nat)
    requires 6 <= decimals && amount == ToFixed(x, 6)
    ensures ParseUnits(amount, decimals) == Ok(FixedUnits(x, 6) * Pow10(decimals - 6))
  {
    ToFixedParses(x, 6, decimals);
  }

  /** The displayed total: the amount per recipient times the count, or the sum of the amounts. */
  function DisplayTotal(valid: seq<Recipient>, equalMode: bool, equalAmount: string, parseFloat: FloatParser): real {
    if equalMode then FloatOrZero(parseFloat, equalAmount) * (|valid| as real) else AmountSum(valid, parseFloat)
  }

  /** The fee shown: 0.3% of the total. */
  const FeeRate: real := 0.003

  /** `totalAmount`, `fee` and `grandTotal`, the total summed by the loop of the source. */
  method DisplayTotals(valid: seq<Recipient>, equalMode: bool, equalAmount: string, parseFloat: FloatParser)
    returns (totalAmount: real, fee: real, grandTotal: real)
    ensures totalAmount == DisplayTotal(valid, equalMode, equalAmount, parseFloat)
    ensures fee == totalAmount * FeeRate && grandTotal == totalAmount + fee
  {
    var total := 0.0;
    if equalMode {
      var per := FloatOrZero(parseFloat, equalAmount);
      total := per * (|valid| as real);
    } else {
      var i := 0;
      while i < |valid|
        invariant 0 <= i <= |valid|
        invariant total == AmountSum(valid[..i], parseFloat)
      {
        assert valid[..i + 1][..i] == valid[..i];
        total := total + FloatOrZero(parseFloat, valid[i].amount);
        i := i + 1;
      }
      assert valid[..i] == valid;
    }
    var f := total * FeeRate;
    totalAmount, fee, grandTotal := total, f, total + f;
  }

  /** `canSpray`: some valid row and a positive grand total. */
  predicate CanSpray(validCount: nat, grandTotal: real) {
    validCount > 0 && grandTotal > 0.0
  }

  /** In individual mode every valid row has a positive amount, so the page may send exactly
      when some row is valid; in equal mode it also needs a positive amount per recipient. */
  lemma CanSprayMeaning(rows: seq<Recipient>, equalMode: bool, equalAmount: string, isAddress: AddressCheck, parseFloat: FloatParser)
    ensures var valid := ValidRecipients(rows, BatchRule(equalMode), isAddress, parseFloat);
            var total := DisplayTotal(valid, equalMode, equalAmount, parseFloat);
            CanSpray(|valid|, total + total * FeeRate) <==>
              |valid| > 0 && (equalMode ==> FloatOrZero(parseFloat, equalAmount) > 0.0)
  {
    var valid := ValidRecipients(rows, BatchRule(equalMode), isAddress, parseFloat);
    if !equalMode {
      PositiveSum(valid, parseFloat);
    } else if |valid| > 0 {
      var per := FloatOrZero(parseFloat, equalAmount);
      assert per * (|valid| as real) > 0.0 <==> per > 0.0;
    }
  }

  const LoadedPrefix: string := "Loaded "
  const LoadedSuffix: string := " recipients from CSV."

  function LoadedMessage(count: nat): string {
    LoadedPrefix + NatToString(count) + LoadedSuffix
  }

  /** What `handleSend` does with the form as it stands: the valid rows, sent in the mode's
      payment. */
  function PageTrace(rows: seq<Recipient>, mode: Mode, equalMode: bool, equalAmount: string, tokenAddress: string,
                     isAddress: AddressCheck, parseFloat: FloatParser, r: Replies): Trace {
    var valid := ValidRecipients(rows, BatchRule(equalMode), isAddress, parseFloat);
    Execute(NoWallet, PagePayment(mode, tokenAddress), PageBatch(valid, equalMode, equalAmount), r)
  }

  /** Runs the batch `handleSend` builds from the form. */
  method SendForm(rows: seq<Recipient>, mode: Mode, equalMode: bool, equalAmount: string, tokenAddress: string,
                  isAddress: AddressCheck, parseFloat: FloatParser, r: Replies) returns (t: Trace)
    ensures t == PageTrace(rows, mode, equalMode, equalAmount, tokenAddress, isAddress, parseFloat, r)
  {
    var valid := ValidRecipients(rows, BatchRule(equalMode), isAddress, parseFloat);
    var issued, result := Run(NoWallet, PagePayment(mode, tokenAddress), PageBatch(valid, equalMode, equalAmount), r);
    t := Trace(issued, result);
  }

  /** The batch page. */
  class SprayPage {
    var mode: Mode
    var equalMode: bool
    var equalAmount: string
    var tokenAddress: string
    var activeTokenPick: Option<TokenKey>
    const form: RecipientList
    var showConfirm: bool
    var txStatus: Option<TxStatus>
    var isSending: bool
    var isConfirming: bool
    var txHash: Option<string>

    predicate Valid()
      reads form
    {
      form.Valid()
    }

    /** The page as first rendered: ether mode, three blank rows, counter at 4. */
    constructor ()
      ensures Valid() && fresh(form)
      ensures mode == EthMode && !equalMode && equalAmount == "" && tokenAddress == "" && activeTokenPick == None
      ensures form.rows == BlankRows(3) && form.nextId == 4
      ensures !showConfirm && txStatus == None && !isSending && !isConfirming && txHash == None
    {
      mode, equalMode, equalAmount, tokenAddress, activeTokenPick := EthMode, false, "", "", None;
      form := new RecipientList(3);
      showConfirm, txStatus, isSending, isConfirming, txHash := false, None, false, false, None;
    }

    function SendStateOf(): SendState
      reads this
    {
      SendState(txStatus, isSending, isConfirming, txHash)
    }

    /** `resetForm`: three blank rows, the counter at 4, no amount, no hash. */
    method ResetForm()
      requires Valid()
      modifies this`equalAmount, this`txHash, form
      ensures Valid()
      ensures form.rows == BlankRows(3) && form.nextId == 4 && equalAmount == "" && txHash == None
    {
      form.Reset(3);
      equalAmount := "";
      txHash := None;
    }

    /** `addRow`: at 200 rows the status line reports the limit; otherwise a row is appended. */
    method AddRow(address: string, amount: string)
      requires Valid()
      modifies this`txStatus, form
      ensures Valid()
      ensures |old(form.rows)| >= MaxRecipients ==>
                form.rows == old(form.rows) && form.nextId == old(form.nextId) && txStatus == Some(TxStatus(ErrorLine, TooMany))
      ensures |old(form.rows)| < MaxRecipients ==>
                form.rows == old(form.rows) + [Recipient(old(form.nextId), address, amount)] &&
                form.nextId == old(form.nextId) + 1 && txStatus == old(txStatus)
    {
      var added := form.Add(address, amount);
      assert this as object != form;
      if !added {
        txStatus := Some(TxStatus(ErrorLine, TooMany));
      }
    }

    method RemoveRow(id: nat)
      requires Valid()
      modifies form
      ensures Valid()
      ensures form.rows == Recipients.RemoveRow(old(form.rows), id) && form.nextId == old(form.nextId)
    {
      form.Remove(id);
    }

    method UpdateRow(id: nat, field: Field, value: string)
      requires Valid()
      modifies form
      ensures Valid()
      ensures form.rows == UpdateRows(old(form.rows), id, field, value) && form.nextId == old(form.nextId)
    {
      form.Update(id, field, value);
    }

    /** `pickToken`: fill in the registry address and mark the pick. */
    method PickToken(k: TokenKey)
      modifies this`tokenAddress, this`activeTokenPick
      ensures tokenAddress == Info(k).address && activeTokenPick == Some(k)
    {
      tokenAddress := Info(k).address;
      activeTokenPick := Some(k);
    }

    /** The ether and token tabs. */
    method SetMode(m: Mode)
      modifies this`mode
      ensures mode == m
    {
      mode := m;
    }

    /** The equal-amount switch. */
    method ToggleEqualMode()
      modifies this`equalMode
      ensures equalMode == !old(equalMode)
    {
      equalMode := !equalMode;
    }

    /** The amount-per-recipient field. */
    method SetEqualAmount(v: string)
      modifies this`equalAmount
      ensures equalAmount == v
    {
      equalAmount := v;
    }

    /** Typing a token address by hand drops the quick pick. */
    method SetTokenAddress(v: string)
      modifies this`tokenAddress, this`activeTokenPick
      ensures tokenAddress == v && activeTokenPick == None
    {
      tokenAddress := v;
      activeTokenPick := None;
    }

    /** `canSpray` for the form as it stands. */
    predicate ReadyToSpray(isAddress: AddressCheck, parseFloat: FloatParser)
      reads this, form
    {
      var valid := ValidRecipients(form.rows, BatchRule(equalMode), isAddress, parseFloat);
      var total := DisplayTotal(valid, equalMode, equalAmount, parseFloat);
      CanSpray(|valid|, total + total * FeeRate)
    }

    /** The spray button, disabled until `canSpray` holds: it clears the status line and opens
        the confirmation. */
    method OpenConfirm(isAddress: AddressCheck, parseFloat: FloatParser)
      modifies this`txStatus, this`showConfirm
      ensures ReadyToSpray(isAddress, parseFloat) ==> txStatus == None && showConfirm
      ensures !ReadyToSpray(isAddress, parseFloat) ==> txStatus == old(txStatus) && showConfirm == old(showConfirm)
    {
      if ReadyToSpray(isAddress, parseFloat) {
        txStatus := None;
        showConfirm := true;
      }
    }

    /** The confirmation's cancel button and its backdrop. */
    method CloseConfirm()
      modifies this`showConfirm
      ensures !showConfirm
    {
      showConfirm := false;
    }

    /** `handleCSV`: the rows read replace the list, even when none was read, and the status line
        gives their count. */
    method HandleCsv(text: string, isAddress: AddressCheck)
      requires Valid()
      modifies this`txStatus, form
      ensures Valid()
      ensures form.rows == NumberRows(CsvImport(text, isAddress), old(form.nextId))
      ensures form.nextId == old(form.nextId) + |form.rows|
      ensures txStatus == Some(TxStatus(InfoLine, LoadedMessage(|form.rows|)))
    {
      var parsed := form.ImportCsv(text, isAddress, ReplaceAlways);
      assert this as object != form;
      txStatus := Some(TxStatus(InfoLine, LoadedMessage(|parsed|)));
    }

    /** `handleSend`: mark the page as sending, run the batch on the valid rows, then settle. */
    method HandleSend(isAddress: AddressCheck, parseFloat: FloatParser, r: Replies)
      requires Valid()
      modifies this`txStatus, this`isSending, this`isConfirming, this`txHash, this`showConfirm, this`equalAmount, form
      ensures Valid()
      ensures var t := PageTrace(old(form.rows), old(mode), old(equalMode), old(equalAmount), old(tokenAddress), isAddress, parseFloat, r);
              SendStateOf() == SendOutcome(old(isConfirming), t, |ValidRecipients(old(form.rows), BatchRule(old(equalMode)), isAddress, parseFloat)|) &&
              (t.result.Ok? ==>
                 !showConfirm && form.rows == BlankRows(3) && form.nextId == 4 && equalAmount == "") &&
              (t.result.Err? ==>
                 showConfirm == old(showConfirm) && form.rows == old(form.rows) &&
                 form.nextId == old(form.nextId) && equalAmount == old(equalAmount))
    {
      var confirming := isConfirming;
      var sending := Sending(isConfirming);
      txStatus, isSending, txHash := sending.txStatus, sending.isSending, sending.txHash;
      var count := |ValidRecipients(form.rows, BatchRule(equalMode), isAddress, parseFloat)|;
      var t := SendForm(form.rows, mode, equalMode, equalAmount, tokenAddress, isAddress, parseFloat, r);
      Settle(t, count, confirming);
    }

    /** The rest of `handleSend`, once the batch has run: the states its events lead through, then
        either closing the confirmation, resetting the form and reporting success, or the `catch`
        block reporting the error. */
    method Settle(t: Trace, count: nat, confirming: bool)
      requires Valid() && SendStateOf() == Sending(confirming)
      modifies this`txStatus, this`isSending, this`isConfirming, this`txHash, this`showConfirm, this`equalAmount, form
      ensures Valid()
      ensures SendStateOf() == SendOutcome(confirming, t, count)
      ensures t.result.Ok? ==> !showConfirm && form.rows == BlankRows(3) && form.nextId == 4 && equalAmount == ""
      ensures t.result.Err? ==>
                showConfirm == old(showConfirm) && form.rows == old(form.rows) &&
                form.nextId == old(form.nextId) && equalAmount == old(equalAmount)
    {
      assert this as object != form;
      var v := PageView(SendStateOf(), t.events);
      var after: SendState;
      match t.result {
        case Ok(h) =>
          showConfirm := false;
          ResetForm();
          after := SendState(Some(TxStatus(SuccessLine, SuccessMessage(count, h))), v.isSending, false, None);
        case Err(f) =>
          after := SendState(Some(TxStatus(ErrorLine, ShownError(BatchPage, f))), false, false, v.txHash);
      }
      txStatus, isSending, isConfirming, txHash := after.txStatus, after.isSending, after.isConfirming, after.txHash;
    }
  }
}
