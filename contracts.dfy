/** The batch contract's address, its entry points, and the registry of well-known ERC-20
    tokens on Base. */
module Contracts {
  import opened Wrappers
  import opened Text

  /** The batch contract on Base mainnet. */
  const SprayContractAddress: string := "0x1646452F98E36A3c9Cfc3eDD8868221E207B5eEC"

  /** `ethers.constants.AddressZero`, which `sprayEqual` takes as its token for native ether. */
  const ZeroAddress: string := "0x0000000000000000000000000000000000000000"

  datatype TokenKey = USDC | DAI | WETH

  datatype TokenInfo = TokenInfo(address: string, decimals: nat, symbol: string)

  /** The registry keys in declaration order, which is the order `Object.entries` visits them. */
  const Keys: seq<TokenKey> := [USDC, DAI, WETH]

  function KeyName(key: TokenKey): string {
    match key
    case USDC => "USDC"
    case DAI => "DAI"
    case WETH => "WETH"
  }

  const UsdcAddress: string := "0x833589fCD6eDb6E08f4c7C32D4f71b54bdA02913"
  const DaiAddress: string := "0x50c5725949A6F0c72E6C4a641F24049A917DB0Cb"
  const WethAddress: string := "0x4200000000000000000000000000000000000006"

  function Info(key: TokenKey): TokenInfo {
    match key
    case USDC => TokenInfo(UsdcAddress, 6, "USDC")
    case DAI => TokenInfo(DaiAddress, 18, "DAI")
    case WETH => TokenInfo(WethAddress, 18, "WETH")
  }

  /** The key a token name denotes, if it is one of the registry's keys (exact, case-sensitive). */
  function KeyOfName(name: string): (r: Option<TokenKey>)
    ensures r.Some? ==> KeyName(r.value) == name
    ensures r.None? ==> forall k: TokenKey :: KeyName(k) != name
  {
    if name == "USDC" then Some(USDC)
    else if name == "DAI" then Some(DAI)
    else if name == "WETH" then Some(WETH)
    else None
  }

  lemma KeyOfNameRoundTrip(k: TokenKey)
    ensures KeyOfName(KeyName(k)) == Some(k)
  {
  }

  /** Every key is listed once in `Keys`. */
  lemma KeysComplete(k: TokenKey)
    ensures k in Keys && multiset(Keys)[k] == 1
  {
  }

  /** Each registry entry carries the decimals the source lists and the symbol equal to its key. */
  lemma RegistryEntries(k: TokenKey)
    ensures Info(k).decimals == (if k == USDC then 6 else 18)
    ensures Info(k).symbol == KeyName(k)
  {
  }

  /** Every registry address, and the batch contract's, is `0x` followed by forty hex digits. */
  lemma RegistryAddressesHex(k: TokenKey)
    ensures IsHexAddress(Info(k).address)
  {
    match k
    case USDC => UsdcAddressHex();
    case DAI => DaiAddressHex();
    case WETH => WethAddressHex();
  }

  lemma UsdcAddressHex() ensures IsHexAddress(UsdcAddress) { }
  lemma DaiAddressHex() ensures IsHexAddress(DaiAddress) { }
  lemma WethAddressHex() ensures IsHexAddress(WethAddress) { }
  lemma ContractAddressHex() ensures IsHexAddress(SprayContractAddress) { }
  lemma ZeroAddressHex() ensures IsHexAddress(ZeroAddress) { }

  /** The third character (the first hex digit) of each address tells the entries apart. */
  lemma RegistryAddressesDistinct(j: TokenKey, k: TokenKey)
    requires j != k
    ensures ToLowerAscii(Info(j).address) != ToLowerAscii(Info(k).address)
  {
    assert UsdcAddress[2] == '8' && DaiAddress[2] == '5' && WethAddress[2] == '4';
    var a, b := ToLowerAscii(Info(j).address), ToLowerAscii(Info(k).address);
    assert a[2] == LowerAscii(Info(j).address[2]) && b[2] == LowerAscii(Info(k).address[2]);
  }

  /** `Object.entries` order: the first registry key whose lower-cased address equals `lowered`. */
  function LookupByAddress(lowered: string): (r: Option<TokenKey>)
    ensures r.Some? ==> ToLowerAscii(Info(r.value).address) == lowered
    ensures r.None? ==> forall k: TokenKey :: ToLowerAscii(Info(k).address) != lowered
  {
    if ToLowerAscii(UsdcAddress) == lowered then Some(USDC)
    else if ToLowerAscii(DaiAddress) == lowered then Some(DAI)
    else if ToLowerAscii(WethAddress) == lowered then Some(WETH)
    else None
  }

  /** Because lower-cased addresses are distinct, lookup by address returns the one key whose
      address it is, and no other. */
  lemma LookupByAddressUnique(k: TokenKey, lowered: string)
    ensures LookupByAddress(lowered) == Some(k) <==> ToLowerAscii(Info(k).address) == lowered
  {
    var r := LookupByAddress(lowered);
    if r.Some? && r.value != k {
      RegistryAddressesDistinct(r.value, k);
    }
  }

  /** The batch contract's entry points, with the signatures of its ethers ABI. */
  datatype EntryPoint =
    | SprayETH      // sprayETH(tuple(address recipient, uint256 amount)[] recipients) payable
    | SprayToken    // sprayToken(address token, tuple(address recipient, uint256 amount)[] recipients)
    | SprayEqual    // sprayEqual(address token, address[] recipients, uint256 amountPerRecipient) payable

  datatype Mutability = Payable | NonPayable

  function MutabilityOf(e: EntryPoint): Mutability {
    match e
    case SprayETH => Payable
    case SprayToken => NonPayable
    case SprayEqual => Payable
  }

  /** Only an entry point declared payable may carry a non-zero value. */
  predicate AcceptsValue(e: EntryPoint, value: nat) {
    value == 0 || MutabilityOf(e) == Payable
  }
}
