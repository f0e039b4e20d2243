/** The wallet handshake shared by the spray hook and the batch page: pick one injected
    provider, ask for the accounts, and make sure the wallet is on Base, switching to it or
    adding it first when needed. The wallet's replies are parameters. */
module Wallet {
  import opened Wrappers
  import opened Seqs
  import opened Errors

  /** The identity flags an EIP-1193 provider object carries. */
  datatype ProviderFlags = ProviderFlags(isMetaMask: bool, isOkxWallet: bool, isCoinbaseWallet: bool)

  /** `window.ethereum`: its own flags and its `providers` list (empty when it has none). */
  datatype Injected = Injected(flags: ProviderFlags, providers: seq<ProviderFlags>)

  /** The provider used: `window.ethereum` itself, or the entry of its `providers` list at `index`. */
  datatype Choice = Itself | Listed(index: nat)

  predicate PlainMetaMask(p: ProviderFlags) {
    p.isMetaMask && !p.isOkxWallet && !p.isCoinbaseWallet
  }

  predicate NotOkx(p: ProviderFlags) {
    !p.isOkxWallet
  }

  /** With a non-empty `providers` list the first genuine MetaMask (neither OKX nor Coinbase
      posing as it), else the first provider that is not OKX, else the first one; without a
      list the injected object itself. */
  function SelectProvider(w: Injected): (c: Choice)
    ensures c.Itself? <==> w.providers == []
    ensures c.Listed? ==> c.index < |w.providers|
  {
    if w.providers == [] then Itself
    else match FirstIndex(w.providers, PlainMetaMask)
      case Some(i) => Listed(i)
      case None =>
        match FirstIndex(w.providers, NotOkx)
        case Some(i) => Listed(i)
        case None => Listed(0)
  }

  /** The flags of the chosen provider. */
  function Chosen(w: Injected): ProviderFlags {
    match SelectProvider(w)
    case Itself => w.flags
    case Listed(i) => w.providers[i]
  }

  /** A genuine MetaMask in the list is always preferred, and the first one wins. */
  lemma SelectPrefersMetaMask(w: Injected, i: nat)
    requires i < |w.providers| && PlainMetaMask(w.providers[i])
    ensures SelectProvider(w).Listed? && SelectProvider(w).index <= i
    ensures PlainMetaMask(Chosen(w))
    ensures forall j :: 0 <= j < SelectProvider(w).index ==> !PlainMetaMask(w.providers[j])
  {
  }

  /** Without a genuine MetaMask, the first provider that is not OKX is used. */
  lemma SelectFallsBackToNonOkx(w: Injected, i: nat)
    requires forall j :: 0 <= j < |w.providers| ==> !PlainMetaMask(w.providers[j])
    requires i < |w.providers| && NotOkx(w.providers[i])
    ensures SelectProvider(w).Listed? && SelectProvider(w).index <= i
    ensures NotOkx(Chosen(w))
    ensures forall j :: 0 <= j < SelectProvider(w).index ==> w.providers[j].isOkxWallet
  {
  }

  /** An OKX provider is used only when the list holds nothing else, and then the first entry. */
  lemma SelectOkxOnlyAsLastResort(w: Injected)
    requires w.providers != [] && Chosen(w).isOkxWallet
    ensures SelectProvider(w) == Listed(0)
    ensures forall j :: 0 <= j < |w.providers| ==> w.providers[j].isOkxWallet
  {
  }

  /** `if (!window.ethereum) throw new Error(missing)`: the provider chosen, or the error raised
      when no wallet is injected. */
  function FindProvider(window: Option<Injected>, missing: string): (r: Result<Choice, Failure>)
    ensures r.Err? <==> window.None?
    ensures r.Err? ==> RawMessage(r.error) == missing || missing == []
    ensures r.Ok? ==> r.value == SelectProvider(window.value)
  {
    match window
    case None => Err(Failure("", missing))
    case Some(w) => Ok(SelectProvider(w))
  }

  /** Base mainnet, chain 8453. */
  const BaseChainId: string := "0x2105"

  /** The `wallet_addEthereumChain` parameters. */
  datatype ChainParams = ChainParams(
    chainId: string, chainName: string,
    currencyName: string, currencySymbol: string, currencyDecimals: nat,
    rpcUrls: seq<string>, blockExplorerUrls: seq<string>)

  const BaseChain: ChainParams := ChainParams(
    BaseChainId, "Base", "Ether", "ETH", 18, ["https://mainnet.base.org"], ["https://basescan.org"])

  /** The JSON-RPC requests sent to the wallet during the handshake. */
  datatype Request =
    | RequestAccounts                 // eth_requestAccounts
    | ChainIdQuery                    // eth_chainId
    | SwitchChain(chainId: string)    // wallet_switchEthereumChain
    | AddChain(params: ChainParams)   // wallet_addEthereumChain

  /** A rejected switch: the EIP-1193 error code (4902: chain unknown to the wallet) and the error. */
  datatype SwitchError = SwitchError(code: int, failure: Failure)

  /** What the wallet answers to each request, should it be sent. */
  datatype Replies = Replies(
    accounts: Outcome<Failure>,
    chainId: Result<string, Failure>,
    switched: Outcome<SwitchError>,
    added: Outcome<Failure>)

  /** The requests sent, in order, and whether the handshake completed or threw. */
  datatype Session = Session(requests: seq<Request>, outcome: Outcome<Failure>)

  /** The handshake: accounts, then the chain id; off Base, a switch, and when the wallet does not
      know Base (code 4902) an add-chain request; any other switch error is rethrown. */
  function Connect(r: Replies): (s: Session)
    ensures 1 <= |s.requests| <= 4 && s.requests[0] == RequestAccounts
  {
    match r.accounts
    case Fail(f) => Session([RequestAccounts], Fail(f))
    case Pass =>
      match r.chainId
      case Err(f) => Session([RequestAccounts, ChainIdQuery], Fail(f))
      case Ok(id) =>
        if id == BaseChainId then Session([RequestAccounts, ChainIdQuery], Pass)
        else
          match r.switched
          case Pass => Session([RequestAccounts, ChainIdQuery, SwitchChain(BaseChainId)], Pass)
          case Fail(e) =>
            if e.code == 4902 then
              Session([RequestAccounts, ChainIdQuery, SwitchChain(BaseChainId), AddChain(BaseChain)], r.added)
            else Session([RequestAccounts, ChainIdQuery, SwitchChain(BaseChainId)], Fail(e.failure))
  }

  /** The wallet was asked to leave its chain. */
  predicate AskedToSwitch(s: Session) {
    |s.requests| >= 3 && s.requests[2] == SwitchChain(BaseChainId)
  }

  /** The wallet was asked to add Base. */
  predicate AskedToAdd(s: Session) {
    |s.requests| == 4 && s.requests[3] == AddChain(BaseChain)
  }

  /** A switch is requested exactly when the wallet answered with a chain other than Base. */
  lemma SwitchOnlyOffBase(r: Replies)
    ensures AskedToSwitch(Connect(r)) <==> r.accounts.Pass? && r.chainId.Ok? && r.chainId.value != BaseChainId
    ensures !AskedToSwitch(Connect(r)) ==> |Connect(r).requests| <= 2
  {
  }

  /** Base is added exactly when the switch failed with code 4902, only after that switch, and
      with Base's chain parameters. */
  lemma AddOnlyOnUnknownChain(r: Replies)
    ensures AskedToAdd(Connect(r)) <==>
              AskedToSwitch(Connect(r)) && r.switched.Fail? && r.switched.error.code == 4902
    ensures AskedToAdd(Connect(r)) ==> Connect(r).requests[..3] == [RequestAccounts, ChainIdQuery, SwitchChain(BaseChainId)]
    ensures |Connect(r).requests| == 4 ==> AskedToAdd(Connect(r))
  {
  }

  /** The handshake completes exactly when the wallet ends up on Base: it already was, it
      switched, or it added the chain after reporting it unknown. */
  lemma ConnectSucceeds(r: Replies)
    ensures Connect(r).outcome.Pass? <==>
              r.accounts.Pass? && r.chainId.Ok? &&
              (r.chainId.value == BaseChainId || r.switched.Pass? ||
               (r.switched.error.code == 4902 && r.added.Pass?))
  {
  }

  /** A failed handshake throws the wallet's own error, unchanged: the one of the request that
      failed (for a switch refused with another code, the switch error). */
  lemma ConnectFailureIsTheWallets(r: Replies)
    requires Connect(r).outcome.Fail?
    ensures var f := Connect(r).outcome.error;
            (r.accounts == Fail(f) && |Connect(r).requests| == 1) ||
            (r.chainId == Err(f) && |Connect(r).requests| == 2) ||
            (r.switched.Fail? && r.switched.error.failure == f && r.switched.error.code != 4902) ||
            (r.added == Fail(f) && AskedToAdd(Connect(r)))
  {
  }
}
