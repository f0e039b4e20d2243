# Spraay batch payments on Base: a Dafny model

Spraay sends one payment to many wallets in a single transaction on the Base network. This
project models the client side of that: how a page turns a list of recipients into a call of
the batch contract, and the state the page shows while the call runs. Three pages are covered:

- the batch page (`SprayApp`);
- the buy-then-spray wizard that buys USDC or ETH first (`BuyAndSpraayFlow`);
- the USDC-only version of that wizard (`SpraayFlow`).

Below the pages sit the hook they spray through (`useSprayTransaction`) and the contract
registry (`contracts.ts`).

The model is organised as follows.

- `SprayProtocol.Execute` is the batch transaction, as a pure function. The hook's
  `executeSpray` and the page's `handleSend` share it. It covers:
  - the wallet check and the Base handshake;
  - the gas ceiling and the choice of entry point (`sprayETH`, `sprayToken` or `sprayEqual`);
  - the fee of 30 basis points;
  - the ERC-20 allowance check and approval;
  - waiting for the receipt.

  It returns a `Trace`: the events in order, then the hash of the mined call or the error thrown.
  `SprayProtocol.Run` is the same transaction written step by step as methods, and is proved
  equal to `Execute`.
- Each page's state is a fold over the trace's events (`SprayHook.HookView` and
  `BatchPage.PageView`). The classes `SprayHook.SprayTransaction`, `BatchPage.SprayPage` and
  `Flows.FlowPage` hold the React state as fields. Their handlers are methods whose `ensures`
  give the new state as that fold.
- Everything the code awaits from outside is a parameter. That covers:
  - the injected wallet and its answers to the handshake (`Wallet.Replies`);
  - the signer, allowance and token decimals;
  - the acceptance and mining of each transaction (`SprayProtocol.Replies`);
  - the onramp's outcome.

  viem's `isAddress` and JavaScript's `parseFloat` are also parameters.
- Amounts use exact arithmetic:
  - ethers' `parseUnits` and `parseEther` produce unbounded integers;
  - `BigNumber.div` truncates;
  - `Number.prototype.toFixed` is modelled over exact reals, rounding half up on the magnitude.
- The two wizards are one class with a `variant` field. They differ in the asset picker, the
  order in which the fees are taken, and the decimals written (six for USDC, eight for ETH).

## Model

| member | source | states |
|---|---|---|
| Errors.RawMessage | src/components/SprayApp.tsx:399 | the message is the error's reason, else its message, else `Transaction failed`; never empty |
| Errors.RawMessagePrecedence | src/components/SprayApp.tsx:399 | the reason wins over the message; the fallback text appears exactly when both are empty (or one of them is that text) |
| Errors.AbridgeShape | src/components/SprayApp.tsx:402 | a message of at most 150 characters is kept; a longer one becomes its first 150 characters plus `…`; abridging twice changes nothing |
| Errors.RefusalWins | src/components/SprayApp.tsx:400 | a wallet refusal (`user rejected` / `User denied`) is reported as rejected on the batch page and as cancelled in the flows, whatever else the message says |
| Errors.UnrecognisedIsAbridged | src/components/BuyAndSpraayFlow.tsx:156-159 | a message no rule recognises is shown as its own abridgement, and unchanged when short |
| Errors.BalanceFailuresAgree | src/components/BuyAndSpraayFlow.tsx:158 | a message the batch page reports as `Insufficient ETH balance.` is one the buy path reports as a lack of the asset bought |
| Errors.DirectIsBuyWithoutBalanceRule | src/components/BuyAndSpraayFlow.tsx:191-193 | the direct path's classification equals the buy path's on every message without `insufficient` |
| Errors.AbridgedContains | src/components/SprayApp.tsx:402 | abridging creates no pattern that is free of the ellipsis |
| Errors.AbridgedInert | src/components/SprayApp.tsx:400-402 | an abridged unrecognised message stays unrecognised |
| Seqs.FirstIndex | src/hooks/useSprayTransaction.ts:56-60 | the index found satisfies the predicate and is the first that does; `None` exactly when no element does |
| Seqs.FilterMembership | src/components/SprayApp.tsx:129-133 | an element survives `filter` exactly when it is in the input and passes |
| Seqs.FilterConcat | src/components/SprayApp.tsx:129-133 | filtering distributes over concatenation |
| Seqs.FilterIdempotent | src/components/SprayApp.tsx:129-133 | filtering twice is filtering once |
| Seqs.FilterIsSubsequence | src/components/SprayApp.tsx:129-133 | `filter` keeps the relative order of what it keeps |
| Text.TrimShape | src/components/SprayApp.tsx:316 | `trim` yields a slice of the input with white space only around it, neither starting nor ending with white space |
| Text.SplitPiecesFree | src/components/SprayApp.tsx:184 | no piece of `split` contains a separator |
| Text.SplitJoin | src/components/SprayApp.tsx:184 | splitting on a character and joining with it gives back the text |
| Text.LinesJoin | src/components/SprayApp.tsx:184 | `text.split('\n')` joined by newlines is the text |
| Text.TokensShape | src/components/SprayApp.tsx:188 | `line.split(/[,\s]+/).filter(Boolean)` yields non-empty tokens free of commas and white space |
| Text.ContainsAt | src/components/SprayApp.tsx:400-401 | `includes` holds exactly when the pattern is a slice of the string |
| Text.ToLowerAscii | src/components/SprayApp.tsx:121 | lower-casing keeps the length and maps each character |
| Text.NatToStringValue | src/components/SprayApp.tsx:195 | the decimal numeral of a count denotes that count |
| Text.PaddedDigitsValue | src/components/SprayApp.tsx:411 | a number is its leading part followed by its last `width` digits, zero-padded |
| Wallet.SelectProvider | src/components/SprayApp.tsx:217-226 | `window.ethereum` itself exactly when it has no provider list; otherwise an index inside the list |
| Wallet.SelectPrefersMetaMask | src/components/SprayApp.tsx:219-220 | a genuine MetaMask in the list is chosen, the first one |
| Wallet.SelectFallsBackToNonOkx | src/components/SprayApp.tsx:221-222 | without a genuine MetaMask the first provider that is not OKX is chosen |
| Wallet.SelectOkxOnlyAsLastResort | src/components/SprayApp.tsx:223 | an OKX provider is chosen only when every listed provider is OKX, and then the first |
| Wallet.FindProvider | src/components/SprayApp.tsx:211-213 | the call throws the page's message exactly when no wallet is injected |
| Wallet.Connect | src/components/SprayApp.tsx:229-244 | the handshake sends one to four requests and always starts with `eth_requestAccounts` |
| Wallet.SwitchOnlyOffBase | src/components/SprayApp.tsx:232-235 | a chain switch is requested exactly when the wallet reported a chain other than `0x2105` |
| Wallet.AddOnlyOnUnknownChain | src/components/SprayApp.tsx:236-241 | Base is added exactly after a switch that failed with code 4902, with Base's parameters |
| Wallet.ConnectSucceeds | src/components/SprayApp.tsx:229-244 | the handshake completes exactly when the wallet was on Base, switched, or added Base after code 4902 |
| Wallet.ConnectFailureIsTheWallets | src/components/SprayApp.tsx:242 | a failed handshake rethrows the error of the request that failed |
| Amounts.StripTrailingZerosValue | src/components/SprayApp.tsx:329 | dropping the fraction's trailing zeros divides its value by the matching power of ten |
| Amounts.ParseUnits | src/components/SprayApp.tsx:329 | a parsed amount is a literal of `-?[0-9.]+`, non-negative without a minus sign and non-positive with one |
| Amounts.ParseUnitsUnsigned | src/components/SprayApp.tsx:329 | a literal starting with a digit is read by its unsigned part |
| Amounts.ParseTwoPieces | src/components/SprayApp.tsx:329 | `whole.fraction` with few enough significant fraction digits parses to the scaled value |
| Amounts.FormatFixedParses | src/components/SprayApp.tsx:411 | a fixed-point string with `k <= decimals` digits parses back to its value scaled to `decimals` |
| Amounts.ToFixedParses | src/components/BuyAndSpraayFlow.tsx:140-141 | a `toFixed(k)` string read at `decimals >= k` never fails and denotes the rounded figure |
| Amounts.NegativeLiteral | src/components/SprayApp.tsx:329 | a leading minus sign negates the parsed value |
| Amounts.RoundHalfUp | src/components/SprayApp.tsx:411 | the integer returned is within half a unit of the input |
| Amounts.FixedUnitsNearest | src/components/SprayApp.tsx:411 | the units `toFixed(k)` writes are within half a unit of the last digit of `x * 10^k` |
| Amounts.ToFixed | src/components/BuyAndSpraayFlow.tsx:140-141 | `x.toFixed(k)`: the magnitude rounded to `k` digits, half up, with a minus sign exactly when `x` is negative; never empty (what it denotes: `ToFixedParses`, `FixedUnitsNearest`) |
| Amounts.TruncDiv | src/hooks/useSprayTransaction.ts:105 | `BigNumber.div`: the quotient truncated toward zero (its meaning on fees: `FeeIsFloor`) |
| Amounts.Fee | src/hooks/useSprayTransaction.ts:105 | `total.mul(30).div(10000)`, the same expression at :127, :171 and :201 (bounds: `FeeIsFloor`) |
| Amounts.Needed | src/hooks/useSprayTransaction.ts:172 | `total.add(feeWei)`, the value attached or approved (bounds: `NeededMonotone`, `SprayProtocol.NeededBound`) |
| Amounts.GasLimit | src/hooks/useSprayTransaction.ts:94 | `Math.ceil((80000 + n * 40000) * 1.2)` over exact reals (closed form: `GasLimitClosedForm`) |
| Amounts.FeeIsFloor | src/components/SprayApp.tsx:261 | `total.mul(30).div(10000)` is the floor of 0.3% of a non-negative total, and never more than it |
| Amounts.NeededMonotone | src/components/SprayApp.tsx:295 | `total.add(feeWei)` never decreases as the total grows and is never below the total |
| Amounts.Ceil | src/components/SprayApp.tsx:253 | `Math.ceil` returns the least integer not below its argument |
| Amounts.GasLimitClosedForm | src/components/SprayApp.tsx:252-253 | the gas ceiling is exactly 96000 + 48000 per recipient |
| Amounts.GasLimitIncreasing | src/hooks/useSprayTransaction.ts:93-94 | more recipients give a strictly higher gas ceiling |
| Contracts.KeyOfName | src/hooks/useSprayTransaction.ts:147-155 | a name is resolved to the registry key of that exact name, or to none when no key has it |
| Contracts.KeyOfNameRoundTrip | src/lib/contracts.ts:110-116 | every registry key's name resolves back to that key |
| Contracts.KeysComplete | src/lib/contracts.ts:110-114 | every key occurs exactly once in the registry's order |
| Contracts.RegistryEntries | src/lib/contracts.ts:111-113 | USDC has 6 decimals, DAI and WETH 18, and each symbol is its key |
| Contracts.RegistryAddressesHex | src/lib/contracts.ts:111-113 | every registry address is `0x` and forty hex digits |
| Contracts.ContractAddressHex | src/lib/contracts.ts:2 | the batch contract's address is `0x` and forty hex digits |
| Contracts.RegistryAddressesDistinct | src/lib/contracts.ts:111-113 | no two registry addresses are equal once lower-cased |
| Contracts.LookupByAddress | src/components/SprayApp.tsx:122-124 | a key is found only when its lower-cased address matches; none is found only when none does |
| Contracts.LookupByAddressUnique | src/components/SprayApp.tsx:122-124 | lookup by address returns a key exactly when that key's lower-cased address matches |
| Recipients.PositiveSum | src/components/SprayApp.tsx:142-144 | amounts that are all positive add up to a positive total once there is one |
| Recipients.ValidRecipients | src/components/SprayApp.tsx:128-134 | the valid rows are an order-preserving selection of the rows, each one the rule keeps |
| Recipients.ValidRecipientsMembership | src/components/SprayApp.tsx:128-134 | a row is valid exactly when it is a row and has a valid address (and, on the batch page outside equal mode, a positive amount) |
| Recipients.ValidRecipientsIdempotent | src/components/SprayApp.tsx:128-134 | filtering the valid rows again changes nothing |
| Recipients.ValidRecipientsConcat | src/components/BuyAndSpraayFlow.tsx:68-70 | the filter works row by row over consecutive stretches of the list |
| Recipients.FlowRuleIgnoresAmounts | src/components/BuyAndSpraayFlow.tsx:68-70 | the flows' filter depends on addresses only, and equals the batch page's filter in equal mode |
| Recipients.BlankRowsWellNumbered | src/components/SprayApp.tsx:54-58 | the initial blank rows carry distinct ids below the starting counter, all fields empty |
| Recipients.AppendKeepsNumbering | src/components/SprayApp.tsx:168-169 | appending a row with the next id and bumping the counter keeps ids distinct and below the counter |
| Recipients.RemoveRow | src/components/SprayApp.tsx:159-161 | a list of at most one row is untouched; otherwise no row with the id survives, and order is kept |
| Recipients.RemoveRowMembership | src/components/SprayApp.tsx:160 | on two or more rows, exactly the rows with another id survive |
| Recipients.RemoveAbsentId | src/components/SprayApp.tsx:160 | removing an id no row carries changes nothing |
| Recipients.RemoveNeverEmpties | src/components/SprayApp.tsx:160 | removal never empties a list and drops at most one row |
| Recipients.RemoveKeepsNumbering | src/components/SprayApp.tsx:160 | removal keeps the numbering invariant |
| Recipients.UpdateRows | src/components/SprayApp.tsx:151-157 | an update keeps the length and every id, and leaves rows with another id untouched |
| Recipients.UpdateRowsEffect | src/components/BuyAndSpraayFlow.tsx:91-93 | the matching row gets the new value in the chosen field and keeps the other; numbering is kept |
| Recipients.UpdateRowsIdempotent | src/components/BuyAndSpraayFlow.tsx:92 | repeating an update changes nothing more |
| Recipients.KeptLinesSound | src/components/SprayApp.tsx:184 | every kept line is a trimmed input line that is not blank, a comment or a header |
| Recipients.KeptLinesComplete | src/components/SprayApp.tsx:184 | every trimmed input line the filter accepts is kept |
| Recipients.LineEntry | src/components/SprayApp.tsx:188-191 | a line yields a row only when its first token is an address |
| Recipients.CsvImport | src/components/SprayApp.tsx:186-187 | an import yields at most 200 rows |
| Recipients.CappedPrefix | src/components/SprayApp.tsx:187 | the cap keeps the first rows, and all of them when there are at most 200 |
| Recipients.CsvEntriesPrefix | src/components/SprayApp.tsx:186-193 | the rows of a prefix of the lines are a prefix of the rows |
| Recipients.CsvEntriesMembership | src/components/SprayApp.tsx:186-193 | a row is read exactly when some line reads as that row |
| Recipients.CsvImportAddresses | src/components/SprayApp.tsx:189 | every imported row carries an address `isAddress` accepts |
| Recipients.CsvImportOrigin | src/components/SprayApp.tsx:183-193 | each imported row comes from a kept line of the file; below the cap, every such line is imported |
| Recipients.NumberRowsShape | src/components/SprayApp.tsx:190-191 | imported rows keep their entries and get consecutive fresh ids from the counter |
| Recipients.ReadRows | src/components/SprayApp.tsx:186-193 | the import loop returns the capped entries of the lines, numbered from the counter |
| Recipients.ReadCsv | src/components/SprayApp.tsx:183-193 | one import returns the file's rows, numbered from the counter |
| Recipients.AfterImportWellNumbered | src/components/BuyAndSpraayFlow.tsx:111-114 | the list after an import, replaced or kept, satisfies the numbering invariant |
| Recipients.RecipientList.Add | src/components/BuyAndSpraayFlow.tsx:81-85 | a row is added exactly below 200 rows, with the next id; otherwise nothing changes |
| Recipients.RecipientList.Remove | src/components/BuyAndSpraayFlow.tsx:87-89 | the rows become `RemoveRow` of the old rows, and a non-empty list stays non-empty |
| Recipients.RecipientList.Update | src/components/BuyAndSpraayFlow.tsx:91-93 | the rows become `UpdateRows` of the old rows, counter unchanged |
| Recipients.RecipientList.ImportCsv | src/components/BuyAndSpraayFlow.tsx:95-118 | the counter advances by the rows read, and the list becomes the import under the page's policy |
| SprayProtocol.TotalOf | src/hooks/useSprayTransaction.ts:199-200 | the summing loop returns the sum of the tuples' amounts |
| SprayProtocol.SumBounds | src/hooks/useSprayTransaction.ts:199-200 | non-negative amounts sum to a non-negative total that bounds each of them |
| SprayProtocol.ParseTransfersMeaning | src/hooks/useSprayTransaction.ts:195-198 | the tuples build exactly when every amount parses; they keep the recipients in order; a failure is the first failing amount's error |
| SprayProtocol.PlanSpray | src/hooks/useSprayTransaction.ts:93-215 | the call `executeSpray` builds: `sprayEqual` with the parsed amount per recipient, or `sprayETH` / `sprayToken` with one tuple per recipient; ether attaches payout plus fee as value; a parse failure is the error thrown (properties: `PlanShape`, `PlanPaysInOrder`, `PlanFails`) |
| SprayProtocol.Submit | src/hooks/useSprayTransaction.ts:185-192 | the batch call is sent, then waited for; a rejected send or a failed receipt is the failure, else the hash (step by step: `SendSpray`) |
| SprayProtocol.Approval | src/hooks/useSprayTransaction.ts:174-180 | no approval when the allowance covers the need; otherwise an approval of exactly the need, sent and waited for (step by step: `SendApproval`) |
| SprayProtocol.TokenBody | src/hooks/useSprayTransaction.ts:163-223 | the token path: signer, call, allowance, approval, prompt, call (step by step: `SendToken`) |
| SprayProtocol.Body | src/hooks/useSprayTransaction.ts:99-223 | `'ETH'` builds and submits the ether call; anything else runs the token path at the resolved decimals |
| SprayProtocol.Execute | src/hooks/useSprayTransaction.ts:46-225 | one `executeSpray`: the wallet check, the handshake, then the body, as events and a result (properties: `ExecuteTxs`, `ExecuteSucceeds`, `ExecuteMarks`, `ExecuteNoWallet`; step by step: `Run`) |
| SprayProtocol.PlanShape | src/hooks/useSprayTransaction.ts:99-223 | the entry point follows the asset and the mode; the need is payout plus fee; value is attached only for ether; the gas is 96000 + 48000 per recipient |
| SprayProtocol.PlanPaysInOrder | src/hooks/useSprayTransaction.ts:101-140 | the call pays each recipient, in order, the parsed amount; sprayEqual takes the zero address for ether and the token's address otherwise |
| SprayProtocol.PlanFails | src/hooks/useSprayTransaction.ts:102-124 | building fails exactly when an amount the mode reads does not parse |
| SprayProtocol.EncodableAccepted | src/lib/contracts.ts:7-47 | an encodable call attaches value only to a payable entry point |
| SprayProtocol.NeededBound | src/hooks/useSprayTransaction.ts:170-172 | what a batch needs lies between the payout and the payout plus 0.3% |
| SprayProtocol.Asks | src/hooks/useSprayTransaction.ts:65-86 | each handshake request becomes one event |
| SprayProtocol.ExecuteTxs | src/hooks/useSprayTransaction.ts:166-192 | a batch sends, in order, an approval of exactly the need when the allowance is short, then the batch call when reached and encodable, and nothing else |
| SprayProtocol.ExecuteNoWallet | src/hooks/useSprayTransaction.ts:49-51 | without a wallet nothing happens and the caller's message is thrown |
| SprayProtocol.ExecuteSucceeds | src/hooks/useSprayTransaction.ts:185-192 | a batch succeeds exactly when its call is reached, encodes, is accepted and mined; it then returns that call's hash, and the trace ends with the call and its acceptance |
| SprayProtocol.ExecuteMarks | src/hooks/useSprayTransaction.ts:96-189 | the progress marks are a prefix of: ready, the approval when due, the prompt for a token, the acceptance |
| SprayProtocol.MakePlan | src/hooks/useSprayTransaction.ts:166-200 | the imperative construction of the call equals `PlanSpray` |
| SprayProtocol.SendSpray | src/hooks/useSprayTransaction.ts:185-192 | sending and awaiting the call step by step equals `Submit` |
| SprayProtocol.SendApproval | src/hooks/useSprayTransaction.ts:175-180 | the allowance check step by step equals `Approval` |
| SprayProtocol.SendToken | src/hooks/useSprayTransaction.ts:141-223 | the token path step by step equals `TokenBody` |
| SprayProtocol.Run | src/hooks/useSprayTransaction.ts:46-225 | the whole transaction step by step equals `Execute` |
| SprayHook.HookPaymentMeaning | src/hooks/useSprayTransaction.ts:99-161 | `'ETH'` pays natively exactly; a registry name pays with the registry token; anything else is a token address whose decimals are read |
| SprayHook.HookRegistryDecimals | src/hooks/useSprayTransaction.ts:147-155 | USDC batches are read at six decimals, DAI and WETH at eighteen |
| SprayHook.HookPayment | src/hooks/useSprayTransaction.ts:99-161 | `'ETH'` pays natively, the three registry names take the registry's address and decimals, any other string is a token address whose decimals are read (meaning: `HookPaymentMeaning`) |
| SprayHook.HookStep | src/hooks/useSprayTransaction.ts:96-189 | the state changes at each event: 60 and the wallet prompt when ready, the approval line, 70 and the batch prompt, then 80 (ether) or 85 (token) with `Confirming on Base…` and the hash once accepted |
| SprayHook.HookView | src/hooks/useSprayTransaction.ts:46-225 | the hook's state after a batch's events (properties: `HookViewProgress`, `HookViewKeepsError`, `HookProgressTrail`) |
| SprayHook.HookViewProgress | src/hooks/useSprayTransaction.ts:96-189 | the progress shown is the last value an event set, else the caller's |
| SprayHook.HookViewKeepsError | src/hooks/useSprayTransaction.ts:46-225 | the hook never sets its error field while sending |
| SprayHook.HookProgressTrail | src/hooks/useSprayTransaction.ts:96-189 | progress moves 60 then 80 for ether, or 60, 70, 85 for a token, stopping early on failure |
| SprayHook.HookSuccess | src/hooks/useSprayTransaction.ts:187-192 | after success the hook shows the hash returned, the final progress step and `Confirming on Base…` |
| SprayHook.HookNoWallet | src/hooks/useSprayTransaction.ts:49-51 | without a wallet the hook throws its message and leaves its state untouched |
| SprayHook.SprayTransaction.constructor | src/hooks/useSprayTransaction.ts:41-44 | progress 0, empty status, no hash, no error |
| SprayHook.SprayTransaction.Reset | src/hooks/useSprayTransaction.ts:227-232 | back to the initial state |
| SprayHook.SprayTransaction.SetProgress | src/hooks/useSprayTransaction.ts:236 | sets only the progress |
| SprayHook.SprayTransaction.SetStatusMsg | src/hooks/useSprayTransaction.ts:237 | sets only the status line |
| SprayHook.SprayTransaction.SetTxHash | src/hooks/useSprayTransaction.ts:238 | sets only the hash |
| SprayHook.SprayTransaction.SetError | src/hooks/useSprayTransaction.ts:239 | sets only the error |
| SprayHook.SprayTransaction.ExecuteSpray | src/hooks/useSprayTransaction.ts:46-225 | returns the trace's result and leaves the state the trace's events produce |
| BatchPage.OrZeroEmpty | src/components/SprayApp.tsx:258 | an empty amount is sent as `'0'`, which parses to zero at any decimals |
| BatchPage.PagePayment | src/components/SprayApp.tsx:314-325 | ether mode pays natively; ERC-20 mode pays the trimmed address exactly when it is `0x` and forty hex digits, and otherwise throws `Enter a valid token address.` |
| BatchPage.PageBatchMeaning | src/components/SprayApp.tsx:258-288 | the batch keeps the rows' order and addresses and never carries an empty amount |
| BatchPage.PageStep | src/components/SprayApp.tsx:337-350 | the page's state at each event: the approval and spray prompts, then on acceptance `Submitted!`, confirming with the hash, no longer sending (the ether path at :270-273 alike) |
| BatchPage.PageView | src/components/SprayApp.tsx:205-395 | the page's state after a batch's events (properties: `PageViewHash`, `PageViewSending`) |
| BatchPage.SuccessMessage | src/components/SprayApp.tsx:279-282 | the success line with the recipient count and the BaseScan link of the hash |
| BatchPage.SendOutcome | src/components/SprayApp.tsx:270-404 | success leaves the success line and clears the hash; the `catch` block leaves the classified error and the hash shown (properties: `SendSettles`) |
| BatchPage.PageTrace | src/components/SprayApp.tsx:205-395 | the batch `handleSend` runs: the valid rows in the mode's payment (step by step: `SendForm`) |
| BatchPage.PageViewHash | src/components/SprayApp.tsx:270 | the hash shown is that of the last accepted call |
| BatchPage.PageViewSending | src/components/SprayApp.tsx:271 | the page never returns to sending after a call was accepted |
| BatchPage.SendSettles | src/components/SprayApp.tsx:270-404 | however a send ends the page is neither sending nor confirming; success shows the count and link and clears the hash; failure shows the classified error; a hash shown is the accepted one |
| BatchPage.DisplaySymbol | src/components/SprayApp.tsx:119-126 | the symbol shown is never empty |
| BatchPage.PaddedRegistryAddressShowsTkn | src/components/SprayApp.tsx:119-126 | as written, a registry address typed with a leading space shows `TKN` while the send pays that address |
| BatchPage.DisplaySymbolTrimmed | src/components/SprayApp.tsx:84 | the corrected symbol is never empty |
| BatchPage.TrimmedSymbolAgreesWithSend | src/components/SprayApp.tsx:84-91 | with a trimmed comparison, an address the send pays a registry token with always shows that token's name |
| BatchPage.ModalRecipients | src/components/SprayApp.tsx:408-413 | the confirmation lists one line per valid row |
| BatchPage.ModalAmountsParse | src/components/SprayApp.tsx:411 | each confirmation line shows the row's address and an amount that reads back at six or more decimals as the figure rounded to six |
| BatchPage.DisplayTotals | src/components/SprayApp.tsx:136-148 | the totals loop returns the displayed total, the 0.3% fee and their sum |
| BatchPage.DisplayTotal | src/components/SprayApp.tsx:136-145 | the amount per recipient times the count in equal mode, else the sum of the valid rows' amounts (loop: `DisplayTotals`) |
| BatchPage.CanSpray | src/components/SprayApp.tsx:415 | a valid row and a positive grand total (meaning: `CanSprayMeaning`) |
| BatchPage.LoadedMessage | src/components/SprayApp.tsx:195 | `Loaded n recipients from CSV.` with the count read |
| BatchPage.CanSprayMeaning | src/components/SprayApp.tsx:415 | sending is offered exactly when some row is valid and, in equal mode, the amount is positive |
| BatchPage.SendForm | src/components/SprayApp.tsx:205-395 | runs the batch `handleSend` builds from the form, and returns its trace |
| BatchPage.SprayPage.constructor | src/components/SprayApp.tsx:49-66 | ether mode, three blank rows, the counter at 4, nothing shown |
| BatchPage.SprayPage.ResetForm | src/components/SprayApp.tsx:70-79 | three blank rows, the counter at 4, no equal amount, no hash |
| BatchPage.SprayPage.AddRow | src/components/SprayApp.tsx:163-170 | at 200 rows the limit is reported and nothing else changes; otherwise a row with the next id is appended |
| BatchPage.SprayPage.RemoveRow | src/components/SprayApp.tsx:159-161 | the rows become `RemoveRow` of the old rows |
| BatchPage.SprayPage.UpdateRow | src/components/SprayApp.tsx:151-157 | the rows become `UpdateRows` of the old rows |
| BatchPage.SprayPage.PickToken | src/components/SprayApp.tsx:172-176 | the token field gets the registry address and the pick is marked |
| BatchPage.SprayPage.SetMode | src/components/SprayApp.tsx:435-441 | the ether and token tabs set only the mode |
| BatchPage.SprayPage.ToggleEqualMode | src/components/SprayApp.tsx:489 | the switch flips equal mode and nothing else |
| BatchPage.SprayPage.SetEqualAmount | src/components/SprayApp.tsx:507 | the field sets only the amount per recipient |
| BatchPage.SprayPage.SetTokenAddress | src/components/SprayApp.tsx:457 | typing an address sets the field and drops the quick pick |
| BatchPage.SprayPage.ReadyToSpray | src/components/SprayApp.tsx:415 | `canSpray` for the form as it stands |
| BatchPage.SprayPage.OpenConfirm | src/components/SprayApp.tsx:590-592 | when `canSpray` holds, the status line is cleared and the confirmation opens; otherwise the disabled button does nothing |
| BatchPage.SprayPage.CloseConfirm | src/components/SprayApp.tsx:695 | cancel (and the backdrop at :628) closes the confirmation |
| BatchPage.SprayPage.HandleCsv | src/components/SprayApp.tsx:178-199 | the rows read replace the list even when none was read; the counter advances; the status reports the count |
| BatchPage.SprayPage.HandleSend | src/components/SprayApp.tsx:205-405 | the send state is the settled outcome of the form's trace; success closes the dialog and resets the form; failure leaves the form alone |
| BatchPage.SprayPage.Settle | src/components/SprayApp.tsx:270-311 | from the sending state, the state after the events and the ending |
| Flows.BreakdownBounds | src/components/BuyAndSpraayFlow.tsx:60-66 | what is left to distribute is never negative and never more than the spend, and is the spend less the onramp fee, the protocol fee and the network estimate |
| Flows.UsdcPagesAgree | src/components/SpraayFlow.tsx:53-57 | on USDC the two pages compute the same breakdown |
| Flows.HundredUsdc | src/components/SpraayFlow.tsx:53-57 | 100 USDC leaves a 0.30 fee and 99.65 to distribute |
| Flows.HundredEth | src/components/BuyAndSpraayFlow.tsx:37-66 | 100 dollars of ETH: 1.50 to the onramp, a protocol fee of 0.2955, 98.1545 left |
| Flows.OnrampFeeRate | src/components/BuyAndSpraayFlow.tsx:37-40 | nothing for USDC, 1.5% for ETH |
| Flows.FlowBreakdown | src/components/BuyAndSpraayFlow.tsx:60-66 | the onramp fee, the protocol fee on what the onramp leaves, the network estimate, and what is left, floored at 0; the USDC-only page (SpraayFlow.tsx:53-57) takes the protocol fee on the whole spend (bounds: `BreakdownBounds`) |
| Flows.EvenSplit | src/components/BuyAndSpraayFlow.tsx:72-74 | the distributable amount over the valid recipients, 0 without any (total: `EvenSplitTotal`) |
| Flows.CustomTotal | src/components/BuyAndSpraayFlow.tsx:76-78 | the sum of every row's amount, valid address or not (`InvalidRowCounts`, `PaidWithinCustomTotal`) |
| Flows.CanGoToRecipients | src/components/BuyAndSpraayFlow.tsx:212 | a spend of at least one dollar |
| Flows.EvenSplitTotal | src/components/BuyAndSpraayFlow.tsx:72-74 | the even shares add up to exactly what is distributable; without recipients the share is 0 |
| Flows.CanGoToBreakdown | src/components/BuyAndSpraayFlow.tsx:213-214 | a valid recipient and, in custom mode, a custom total within what is distributable (what it guarantees: `BreakdownGateMeaning`) |
| Flows.PaidWithinCustomTotal | src/components/BuyAndSpraayFlow.tsx:68-78 | with no negative amount, what the valid rows are paid is at most the custom total |
| Flows.BreakdownGateMeaning | src/components/BuyAndSpraayFlow.tsx:213-214 | past the gate the batch has a recipient; an even split hands out exactly the distributable amount; a custom total is within it, and so, with no negative amount, is what the recipients are paid |
| Flows.InvalidRowCounts | src/components/BuyAndSpraayFlow.tsx:76-78 | a row with an invalid address adds nothing to the recipients but its amount to the budget check |
| Flows.FlowParams | src/components/BuyAndSpraayFlow.tsx:137-149 | the hook is given one pair per valid recipient |
| Flows.FlowAssetResolved | src/components/BuyAndSpraayFlow.tsx:148 | the asset's name pays natively exactly for ETH, and USDC is paid as the registry token |
| Flows.FlowPlanBuilds | src/components/BuyAndSpraayFlow.tsx:137-149 | the call always builds: an even split pays each recipient the share rounded to the asset's digits; a custom split pays each its own amount, in order |
| Flows.EvenPlanPays | src/components/BuyAndSpraayFlow.tsx:139-147 | an even split's call is `sprayEqual` of the rounded share to every valid address |
| Flows.CustomPlanPays | src/components/BuyAndSpraayFlow.tsx:141-146 | a custom split's call pays every valid address its own rounded amount, in order |
| Flows.EthBuySendsDollarsAsEther | src/components/BuyAndSpraayFlow.tsx:137-149 | as written, buying 100 dollars of ETH for one recipient sends that recipient 98.1545 ether |
| Flows.EthShareUnits | src/components/BuyAndSpraayFlow.tsx:140 | 98.1545 written with eight digits reads back as 98154500000000000000 wei |
| Flows.PricedFlowParams | src/components/BuyAndSpraayFlow.tsx:137-149 | the corrected batch: every dollar figure converted to the asset before `toFixed`; one pair per valid recipient |
| Flows.PricedEthShareWorth | src/components/BuyAndSpraayFlow.tsx:137-149 | corrected, the ether each recipient of an even split is sent is worth the dollar share at the price, within half a unit of the eighth digit |
| Flows.PricedUnitsWorth | src/components/BuyAndSpraayFlow.tsx:140 | a dollar figure converted at a positive price and written with eight digits is worth that figure within half a unit |
| Flows.EvenSplitRounding | src/components/BuyAndSpraayFlow.tsx:140 | the rounded even shares total the distributable amount within half a unit per recipient |
| Flows.EvenSplitCanOverpay | src/components/BuyAndSpraayFlow.tsx:140 | two dollars over three recipients at six digits: each share is 0.666667 and the shares total one unit more than is distributable |
| Flows.BuyProgressIncreasing | src/components/BuyAndSpraayFlow.tsx:125-151 | the buy path's progress values strictly increase: 5, 30, 50, the hook's steps, then 100 |
| Flows.DirectProgressIncreasing | src/components/BuyAndSpraayFlow.tsx:170-187 | the direct path's progress values strictly increase: 10, the hook's steps, then 100 |
| Flows.BuyEndMeaning | src/components/BuyAndSpraayFlow.tsx:121-163 | completes exactly when the onramp resolved and the batch was mined, with progress 100 and the hash; otherwise back to the breakdown with the classified error |
| Flows.DirectEndMeaning | src/components/BuyAndSpraayFlow.tsx:166-197 | completes exactly when the batch was mined, with progress 100 and the hash; otherwise back to the breakdown with the classified error |
| Flows.TrailPositive | src/hooks/useSprayTransaction.ts:96-189 | every progress value the hook sets is positive |
| Flows.SprayEnd | src/components/BuyAndSpraayFlow.tsx:144-162 | after the batch: progress 100, the hash and the complete step, or the classified error and the breakdown step |
| Flows.BuyEnd | src/components/BuyAndSpraayFlow.tsx:121-163 | progress 5, then on a resolved onramp 30, 50 and the batch; a failing onramp goes straight to the error and the breakdown (meaning: `BuyEndMeaning`) |
| Flows.DirectEnd | src/components/BuyAndSpraayFlow.tsx:166-197 | progress 10 and the wallet prompt, then the batch (meaning: `DirectEndMeaning`) |
| Flows.FlowPage.constructor | src/components/BuyAndSpraayFlow.tsx:46-57 | the amount step, USDC, an even split, one blank row with the counter at 2, a fresh hook |
| Flows.FlowPage.SetSpendAmount | src/components/BuyAndSpraayFlow.tsx:238 | the amount field sets only the spend typed |
| Flows.FlowPage.SetBuyAsset | src/components/BuyAndSpraayFlow.tsx:48 | only the buy-any-asset page changes the asset |
| Flows.FlowPage.ReadyForRecipients | src/components/BuyAndSpraayFlow.tsx:212 | `canGoToRecipients` for the amount typed |
| Flows.FlowPage.ReadyForBreakdown | src/components/BuyAndSpraayFlow.tsx:213-214 | `canGoToBreakdown` for the rows, split and amount as they stand |
| Flows.FlowPage.ContinueToRecipients | src/components/BuyAndSpraayFlow.tsx:244-245 | the amount step moves on exactly when `canGoToRecipients` holds |
| Flows.FlowPage.ContinueToBreakdown | src/components/BuyAndSpraayFlow.tsx:265-267 | the recipients step moves on exactly when `canGoToBreakdown` holds, and the breakdown then has a recipient and a custom total within budget |
| Flows.FlowPage.SetSplitMode | src/components/BuyAndSpraayFlow.tsx:254 | the split switch sets only the split |
| Flows.FlowPage.GoTo | src/components/BuyAndSpraayFlow.tsx:266 | a back button sets only the step (the one at :283 alike) |
| Flows.FlowPage.AddRecipient | src/components/BuyAndSpraayFlow.tsx:81-85 | below 200 rows a blank row with the next id is appended; otherwise nothing changes |
| Flows.FlowPage.RemoveRecipient | src/components/BuyAndSpraayFlow.tsx:87-89 | the rows become `RemoveRow` of the old rows |
| Flows.FlowPage.UpdateRecipient | src/components/BuyAndSpraayFlow.tsx:91-93 | the rows become `UpdateRows` of the old rows |
| Flows.FlowPage.HandleCsv | src/components/BuyAndSpraayFlow.tsx:95-118 | an import that reads nothing changes nothing; otherwise the rows replace the list, and amounts switch to custom mode |
| Flows.FlowPage.HandleBuyAndSpray | src/components/BuyAndSpraayFlow.tsx:121-163 | the hook and the step end as `BuyEnd` of the page's parameters, the onramp's outcome and the batch; the form is untouched |
| Flows.FlowPage.HandleDirectSpray | src/components/BuyAndSpraayFlow.tsx:166-197 | the hook and the step end as `DirectEnd` of the page's parameters and the batch; the form is untouched |
| Flows.FlowPage.FinishSpray | src/components/BuyAndSpraayFlow.tsx:144-162 | runs the batch, then completes or records the error and returns to the breakdown |
| Flows.FlowPage.ResetFlow | src/components/BuyAndSpraayFlow.tsx:200-209 | the page as first rendered, hook included |

## Left out

- The JSX of every component is not modelled: layout, the confirmation modal's markup, fee
  tooltips and the wizard's step indicator. The handlers wired to inputs and buttons are
  methods: `SetMode`, `ToggleEqualMode`, `SetEqualAmount`, `SetTokenAddress`, `PickToken`,
  `OpenConfirm` and `CloseConfirm` on the batch page; `SetSpendAmount`, `SetBuyAsset`,
  `SetSplitMode`, `ContinueToRecipients`, `ContinueToBreakdown` and `GoTo` in the wizards. A
  button's `disabled` attribute becomes a guard in its method, so a click on a disabled button
  changes nothing.
- `isConnected` is not modelled: it comes from the wallet library. The batch page uses it to
  decide whether to show its spray button, and the wizards pass it to their step components.
- Flows.PricedFlowParams: the price of ether is a parameter, since `useEthPrice` is not part of
  this model.
- The `useOnramp` hook is not part of this model. The onramp's outcome is a parameter of
  `HandleBuyAndSpray`, and `onramp.reset()` in `resetFlow` is not modelled.
- The symbol effect's chain read of `symbol()`, its 400 ms debounce and its cancellation flag
  are not modelled. The fetched symbol and the fetching flag are parameters of `DisplaySymbol`.
- Timers are not modelled: the 3000 ms wait for funds and the 800 ms delay before the
  complete step. They become plain sequencing.
- React's batching of state updates, re-renders and stale closures are not modelled. Each
  handler reads the state it started with and writes its fields in order.
- `SprayProtocol.Execute`: every answer from the wallet or the chain is a parameter, fixed
  before the call. Concurrent sends are not modelled.
- IEEE-754 doubles are modelled as exact reals. `parseFloat`, the fee arithmetic and `toFixed`
  therefore do not reproduce binary rounding. `toFixed`'s exponent form for magnitudes of
  10^21 and above, and its rounding of a double's binary expansion, are not modelled.
- viem's `isAddress` is a parameter: its EIP-55 checksum needs Keccak-256, which is not
  modelled. `parseFloat` is a parameter too.
- Texts ethers produces on its own are modelled approximately. A parse failure's reason and
  message are the same string, and an out-of-range `uint256` fails with `value out-of-bounds`.
- Strings are sequences of code points, not UTF-16 code units. The 150-character cut of an
  error message therefore counts code points.
- `handleCSV`'s `if (!file) return` and `e.target.value = ''` are not modelled: they concern the
  file picker.
- The API route, `useEthPrice` and the rest of the repository are not part of this model.

## Notes on the source

- Each even share is written with `toFixed`, which rounds to the nearest digit. The shares can
  therefore total up to half a unit per recipient more than what is distributable
  (`Flows.EvenSplitRounding`, `Flows.EvenSplitCanOverpay`).
- After a failure the progress bar keeps its last value, which is positive
  (`Flows.BuyEndMeaning`).
- A failed or cancelled onramp goes through the same `catch` as any other failure and lands on
  the breakdown step (`Flows.BuyEnd`).
- `Amounts.GasLimit` is computed over exact reals, and that is the value the double
  arithmetic of `Math.ceil((80000 + n * 40000) * 1.2)` gives too. The double nearest 1.2 is
  1.2 less 2^-52/5, so the exact product of the integer 80000 + 40000n with it lies below the
  integer 96000 + 48000n by 2^-52/6 times that integer. That is under a third of the gap
  between neighbouring doubles around it. The gap just below it is the same, because
  96000 + 48000n = 48000(n + 2) is never a power of two. The product therefore rounds to that
  integer, and `Math.ceil` returns it unchanged, as long as the integer stays below 2^53.
- The hook shows `Approving USDC… confirm in wallet` before any token approval, for DAI, WETH
  and custom tokens too (`HookStep`).
- `customTotal` adds the amounts of every row, including rows whose address is not valid
  (`Flows.InvalidRowCounts`). A custom split can therefore be refused for rows that would not be
  paid.

## Findings

| source | as written | input that shows it | evidently intended | confidence | as-written member | corrected member |
|---|---|---|---|---|---|---|
| src/components/SprayApp.tsx:119-126 | the symbol memo compares `tokenAddress.toLowerCase()` with the registry without trimming, while the symbol effect and the send both trim the field | ERC-20 mode with the field `" 0x833589fCD6eDb6E08f4c7C32D4f71b54bdA02913"` (USDC with a leading space), no symbol fetched: the page shows `TKN`, and the send pays the USDC address | compare the trimmed address, as the effect does, so the registry name is shown | medium, not executed | BatchPage.PaddedRegistryAddressShowsTkn | BatchPage.TrimmedSymbolAgreesWithSend |
| src/components/BuyAndSpraayFlow.tsx:137-149 | the buy path writes the dollar figures (the even split or each typed amount) with eight digits and passes them with `token: 'ETH'`, so the hook reads each as an amount of ether; the onramp bought only the typed dollar spend of ETH | buy ETH for a spend of 100 with one recipient and an even split: 98.1545 dollars are distributable, and the batch sends 98.1545 ether (98154500000000000000 wei) | convert each dollar figure to ether at the price paid before writing it | high, not executed | Flows.EthBuySendsDollarsAsEther | Flows.PricedEthShareWorth |
