# NFT marketplace sagas — a Dafny model

This project models the NFT sagas of the Blockchain.com wallet frontend
(`packages/blockchain-wallet-v4-frontend/src/data/components/nfts/sagas.ts`).
These generator functions react to UI actions. They call the marketplace API,
the order SDK and the wallet, and dispatch actions into the store.

The sagas become one class, `Sagas.NftSagas`. Its fields are the parts of the
store that the sagas read and that the reducers of their actions update:

- the two page cursors;
- the collection list;
- `isSubmitting`;
- the offer to cancel;
- the order-flow step;
- `log`, the ordered record of every action dispatched and every tracked
  external call.

Each saga is a method. The result of every external call is a parameter,
either an `Outcome` (completed or threw with an error text) or a `Result`
carrying the returned value. The clock is the parameter `nowMs`
(milliseconds).

The pure parts are functions with lemmas, one module each:

- `Paging`: the `{page, atBound}` cursor.
- `Collections`: the collection filter and sort-selector parsing.
- `OrderTiming`: the listing and expiration time policy.
- `OfferMatching`: choosing the order to cancel.
- `OrderFlow`: what the seven terminal flows share.
  - They obtain a signer.
  - They raise `isSubmitting` and run steps until one throws.
  - They report success, or the error with "insufficient funds" remapped.
  - They lower `isSubmitting`.
- `Text`: the JavaScript string operations used.

Each terminal flow method is proved to append exactly
`Bracket(flow, before, after)` to the log. The lemmas about `Bracket` then
establish three things for every flow:

- the flag is cleared at the end;
- the flag is raised iff the pre-flag checks passed;
- success is reported iff every step completed, and the error otherwise.

Three details of the code that the model keeps:

- `fetchFees`, unlike the seven order flows, reports the raw error text,
  without the "insufficient funds" remap.
- A past listing time is replaced by `moment().add(10, 'minutes').unix()`.
  That is the clock floored to whole seconds plus 600, so it can be up to one
  second earlier than "now + 10 minutes"
  (`OrderTiming.ReplacedListingWindow`).
- `cancelOffer` displays the error before logging it. The other six flows
  log first, then display.

## Model

All source paths are `packages/blockchain-wallet-v4-frontend/src/data/components/nfts/sagas.ts`.

| member | source | states |
|---|---|---|
| Paging.Advance | packages/blockchain-wallet-v4-frontend/src/data/components/nfts/sagas.ts:56-70 | a cursor at the bound is left as it is; otherwise the bound is reached iff fewer than a page-limit of results came back, and the page advances by one iff a full page came back |
| Paging.FullPages | packages/blockchain-wallet-v4-frontend/src/data/components/nfts/sagas.ts:66 | the number of leading full pages: all before it are full, the one at it (if any) is short |
| Paging.BoundIsFinal | packages/blockchain-wallet-v4-frontend/src/data/components/nfts/sagas.ts:56 | once the bound is reached, any number of further fetches leaves the cursor unchanged and requests no page |
| Paging.ReplayCountsFullPages | packages/blockchain-wallet-v4-frontend/src/data/components/nfts/sagas.ts:53-77 | from an open cursor at page p, a series of fetches ends at p plus the number of full pages before the first short one, with the bound set iff a short page came back |
| Paging.RequestedPagesAreConsecutive | packages/blockchain-wallet-v4-frontend/src/data/components/nfts/sagas.ts:58-70 | the pages requested from page p are p, p+1, … — one per fetch up to and including the first short page, none after |
| Sagas.NftSagas.FetchNftAssets | packages/blockchain-wallet-v4-frontend/src/data/components/nfts/sagas.ts:53-77 | at the bound nothing is dispatched; otherwise loading is dispatched, then the failure for a missing address or failed call, or the page call, the bound or next-page action and the data; the cursor becomes `Advance` of the old one on success, unchanged otherwise |
| Sagas.NftSagas.FetchNftOffersMade | packages/blockchain-wallet-v4-frontend/src/data/components/nfts/sagas.ts:121-145 | the same paging contract for the list of offers the user made |
| Sagas.NftSagas.ClearAndRefetchAssets | packages/blockchain-wallet-v4-frontend/src/data/components/nfts/sagas.ts:43-46 | the assets cursor returns to the first page and a reset followed by a refetch is dispatched |
| Sagas.NftSagas.ClearAndRefetchOffersMade | packages/blockchain-wallet-v4-frontend/src/data/components/nfts/sagas.ts:48-51 | the offers-made cursor returns to the first page and a reset followed by a refetch is dispatched |
| Collections.Filter | packages/blockchain-wallet-v4-frontend/src/data/components/nfts/sagas.ts:113 | `Array.prototype.filter`: an element is kept iff it satisfies the predicate, every copy of a kept element is kept (equal multisets on the kept elements), and the input order is kept |
| Collections.Shown | packages/blockchain-wallet-v4-frontend/src/data/components/nfts/sagas.ts:105-113 | a collection is shown iff it is in the response, is not named CryptoPunks and has a truthy image URL; each such collection appears as often as in the response, in the response order |
| Collections.NotExcluded | packages/blockchain-wallet-v4-frontend/src/data/components/nfts/sagas.ts:106-108 | spec of Shown: `excludeCollections`, the name is not in the exclusion list |
| Collections.HasImageUrl | packages/blockchain-wallet-v4-frontend/src/data/components/nfts/sagas.ts:111 | spec of Shown: `hasImageUrl`, the image URL is truthy |
| Collections.SubsequenceTransitive | packages/blockchain-wallet-v4-frontend/src/data/components/nfts/sagas.ts:113 | a subsequence of a subsequence is a subsequence, so chained filters keep the response order |
| Collections.ShownIsSingleFilter | packages/blockchain-wallet-v4-frontend/src/data/components/nfts/sagas.ts:113 | the two chained filter passes give the same list as one filter by the conjunction |
| Collections.SortedRequestFetches | packages/blockchain-wallet-v4-frontend/src/data/components/nfts/sagas.ts:97-98 | the fetch is skipped iff the list is loaded and neither a sort field nor a direction is given |
| Collections.SkipFetch | packages/blockchain-wallet-v4-frontend/src/data/components/nfts/sagas.ts:97-98 | the skip guard: the list is loaded and neither the sort field nor the direction is truthy (characterised by SortedRequestFetches) |
| Sagas.NftSagas.FetchNftCollections | packages/blockchain-wallet-v4-frontend/src/data/components/nfts/sagas.ts:94-119 | a skipped fetch changes nothing; otherwise the list goes to loading and then to the shown collections of the response, or to the failure |
| Collections.SortBy | packages/blockchain-wallet-v4-frontend/src/data/components/nfts/sagas.ts:519 | `split('-')[0]`: the text of the selector before its first `-`, or the whole selector when it has none |
| Collections.SortDirection | packages/blockchain-wallet-v4-frontend/src/data/components/nfts/sagas.ts:518 | `split('-')[1]`: undefined iff the selector holds no `-`; otherwise the text after the first `-` up to the next `-` or the end |
| Collections.SortRoundTrip | packages/blockchain-wallet-v4-frontend/src/data/components/nfts/sagas.ts:515-520 | a selector written `field-direction` (neither holding `-`) is read back as that field and that direction |
| Sagas.NftSagas.FormChanged | packages/blockchain-wallet-v4-frontend/src/data/components/nfts/sagas.ts:513-529 | a sort change of the search form refetches the collections with the parsed field and direction; a collection change of the collection form selects it; any other change dispatches nothing |
| Text.ContainsIffOccurs | packages/blockchain-wallet-v4-frontend/src/data/components/nfts/sagas.ts:331 | `includes` holds iff the substring sits at some index |
| Text.Contains | packages/blockchain-wallet-v4-frontend/src/data/components/nfts/sagas.ts:331 | `includes`: a string includes only substrings no longer than itself (the predicate is defined by recursion on the string) |
| Text.ContainsHasChars | packages/blockchain-wallet-v4-frontend/src/data/components/nfts/sagas.ts:331 | a string includes a substring only if it has every character of it |
| Text.Lower | packages/blockchain-wallet-v4-frontend/src/data/components/nfts/sagas.ts:570 | `toLowerCase` keeps the length, maps each character and leaves no upper-case ASCII letter |
| Text.LowerIdempotent | packages/blockchain-wallet-v4-frontend/src/data/components/nfts/sagas.ts:570-572 | lower-casing twice equals lower-casing once |
| Text.StripHexPrefix | packages/blockchain-wallet-v4-frontend/src/data/components/nfts/sagas.ts:570 | `replace(/^0x/, '')` drops a leading `0x` and nothing else; other strings are unchanged |
| Text.Split | packages/blockchain-wallet-v4-frontend/src/data/components/nfts/sagas.ts:518-519 | `split` on one character gives at least one part, none holding the separator, and joining them back gives the input |
| Text.SplitJoin | packages/blockchain-wallet-v4-frontend/src/data/components/nfts/sagas.ts:518-519 | splitting the join of separator-free parts gives back those parts |
| Text.SinglePartIffNoSeparator | packages/blockchain-wallet-v4-frontend/src/data/components/nfts/sagas.ts:518 | `split` yields one part iff the separator does not occur |
| Text.SplitNoSeparator | packages/blockchain-wallet-v4-frontend/src/data/components/nfts/sagas.ts:518 | a string without the separator splits into itself alone |
| Text.SplitAfterPart | packages/blockchain-wallet-v4-frontend/src/data/components/nfts/sagas.ts:518-519 | splitting `part-sep-tail` gives `part` followed by the split of `tail` |
| Text.SplitFirstPart | packages/blockchain-wallet-v4-frontend/src/data/components/nfts/sagas.ts:518-519 | the first part of a split is the text before the first separator (the whole string without one), and the other parts are the split of what follows it |
| Text.SplitSecondPart | packages/blockchain-wallet-v4-frontend/src/data/components/nfts/sagas.ts:518 | the second part of a split, when present, runs from the first separator to the next one or the end |
| OrderTiming.UnixNow | packages/blockchain-wallet-v4-frontend/src/data/components/nfts/sagas.ts:272 | `moment().unix()` is the clock floored to whole seconds |
| OrderTiming.ListingTime | packages/blockchain-wallet-v4-frontend/src/data/components/nfts/sagas.ts:409-413 | no listing date stays unset; a date strictly after now is kept; any other date becomes floored now plus ten minutes; a set result is always after now |
| OrderTiming.Given | packages/blockchain-wallet-v4-frontend/src/data/components/nfts/sagas.ts:409-415 | spec of ListingTime and ExpirationTime: the form gave a date, which is what both the truthiness test and the `!== '' && !== undefined` test decide |
| OrderTiming.ExpirationTime | packages/blockchain-wallet-v4-frontend/src/data/components/nfts/sagas.ts:414-417 | a given expiration date is used as it is; a missing or empty one becomes floored now plus seven days |
| OrderTiming.OfferExpirationTime | packages/blockchain-wallet-v4-frontend/src/data/components/nfts/sagas.ts:348 | an offer always expires seven days from now (the default expiration), within the second before now plus seven days |
| OrderTiming.ListingTimeSettles | packages/blockchain-wallet-v4-frontend/src/data/components/nfts/sagas.ts:269-273 | a listing time the policy produced passes through the policy again unchanged |
| OrderTiming.ReplacedListingWindow | packages/blockchain-wallet-v4-frontend/src/data/components/nfts/sagas.ts:272 | a replaced listing time lies within the second before now plus ten minutes |
| OrderFlow.GetEthSigner | packages/blockchain-wallet-v4-frontend/src/data/components/nfts/sagas.ts:170-182 | getting the signer completes iff the wallet prompt completes; any failure becomes the fixed signer error |
| OrderFlow.InsufficientFundsMessage | packages/blockchain-wallet-v4-frontend/src/data/components/nfts/sagas.ts:330-332 | each flow's replacement text for an error that mentions insufficient funds (lines 332, 375, 399, 440, 463, 482, 505) |
| OrderFlow.SuccessMessage | packages/blockchain-wallet-v4-frontend/src/data/components/nfts/sagas.ts:328 | each flow's success alert text (lines 328, 371, 392-394, 436, 459, 478, 501) |
| OrderFlow.RemapError | packages/blockchain-wallet-v4-frontend/src/data/components/nfts/sagas.ts:329-332 | an error text including "insufficient funds" is shown as the flow's own message; any other text is shown unchanged |
| OrderFlow.ErrorReport | packages/blockchain-wallet-v4-frontend/src/data/components/nfts/sagas.ts:503-507 | the catch block dispatches exactly two actions, the display and the log of the remapped text; the display comes first only when cancelling an offer (506-507), otherwise the log does (333-334) |
| OrderFlow.SuccessEffects | packages/blockchain-wallet-v4-frontend/src/data/components/nfts/sagas.ts:324-328 | a completed flow closes all modals and ends with its success alert, and dispatches no error, log or flag action |
| OrderFlow.SuccessSteps | packages/blockchain-wallet-v4-frontend/src/data/components/nfts/sagas.ts:324-327 | the actions before the success alert close all modals and are otherwise only refetches and navigation |
| OrderFlow.SuccessRefetches | packages/blockchain-wallet-v4-frontend/src/data/components/nfts/sagas.ts:326-499 | accepting an offer, selling, transferring and cancelling a listing refetch the assets (lines 327, 434, 457, 476); creating or cancelling an offer refetch the offers made (368, 499); only creating an offer refetches the orders and opens the activity page (369-370); only creating an order opens the collection page, and it refetches nothing (389-395) |
| OrderFlow.StepsRefetch | packages/blockchain-wallet-v4-frontend/src/data/components/nfts/sagas.ts:326-499 | proof helper: the same refetch facts for the actions before the alert |
| OrderFlow.InSuccessEffects | packages/blockchain-wallet-v4-frontend/src/data/components/nfts/sagas.ts:324-328 | proof helper: an action other than the alert is a success effect iff it is among the actions before the alert |
| OrderFlow.NotRemappedWithout | packages/blockchain-wallet-v4-frontend/src/data/components/nfts/sagas.ts:331 | a text lacking any character of "insufficient funds" is shown unchanged |
| OrderFlow.SignerErrorLacksF | packages/blockchain-wallet-v4-frontend/src/data/components/nfts/sagas.ts:36 | proof helper: the signer error has no `f` |
| OrderFlow.NoOfferErrorLacksC | packages/blockchain-wallet-v4-frontend/src/data/components/nfts/sagas.ts:494 | proof helper: the missing-offer error has no `c` |
| OrderFlow.NoCoinErrorLacksU | packages/blockchain-wallet-v4-frontend/src/data/components/nfts/sagas.ts:344 | proof helper: the missing-coin error has no `u` |
| OrderFlow.Erc20ErrorLacksC | packages/blockchain-wallet-v4-frontend/src/data/components/nfts/sagas.ts:346 | proof helper: the ERC-20 error has no `c` |
| OrderFlow.OwnErrorsShownVerbatim | packages/blockchain-wallet-v4-frontend/src/data/components/nfts/sagas.ts:343-346 | none of the errors the sagas raise themselves is remapped, in any flow |
| OrderFlow.Run | packages/blockchain-wallet-v4-frontend/src/data/components/nfts/sagas.ts:321-328 | a try block records only external calls, at most one per step (which calls is stated by RunAllPass and RunEndsAtFirstFailure) |
| OrderFlow.Continue | packages/blockchain-wallet-v4-frontend/src/data/components/nfts/sagas.ts:321-328 | once a statement threw, the rest of the try block is skipped; otherwise the block ends as the remaining statements do |
| OrderFlow.ContinueStep | packages/blockchain-wallet-v4-frontend/src/data/components/nfts/sagas.ts:321-328 | proof helper: running the next statement moves it from the pending statements to the run so far without changing how the block ends |
| OrderFlow.RunStopsAtFirstError | packages/blockchain-wallet-v4-frontend/src/data/components/nfts/sagas.ts:321-329 | a try block completes iff every statement completes; otherwise it ends with the error of the first statement that threw, all earlier ones having completed |
| OrderFlow.RunSkipsAfterFailure | packages/blockchain-wallet-v4-frontend/src/data/components/nfts/sagas.ts:321-329 | statements after one that threw are never reached: appending steps to a failed run adds no call and keeps its error |
| OrderFlow.RunEndsAtFirstFailure | packages/blockchain-wallet-v4-frontend/src/data/components/nfts/sagas.ts:343-349 | when `steps[i]` is the first statement that throws, the try block records exactly the `Calls` of the statements up to and including it (a missing coin at line 344 skips the buy-order request at 349) and ends with its error |
| OrderFlow.Calls | packages/blockchain-wallet-v4-frontend/src/data/components/nfts/sagas.ts:321-328 | the requests a run of statements makes when each is reached: at most one call per statement, in order |
| OrderFlow.RunAllPass | packages/blockchain-wallet-v4-frontend/src/data/components/nfts/sagas.ts:321-328 | a try block in which no statement throws completes and records the call of every request it holds, in order |
| OrderFlow.Opening | packages/blockchain-wallet-v4-frontend/src/data/components/nfts/sagas.ts:471-476 | before its closing a flow dispatches only calls and the raised flag, and the flag is raised iff the steps before it completed |
| OrderFlow.SubmittingAfterAppend | packages/blockchain-wallet-v4-frontend/src/data/components/nfts/sagas.ts:322 | proof helper: the flag after two batches of actions is the flag after the second, starting from the flag after the first |
| OrderFlow.BracketClearsSubmitting | packages/blockchain-wallet-v4-frontend/src/data/components/nfts/sagas.ts:337 | whatever the flag was and however the flow ends, `isSubmitting` is false afterwards and the last action lowers it |
| OrderFlow.BracketRaisesFlagIff | packages/blockchain-wallet-v4-frontend/src/data/components/nfts/sagas.ts:491-498 | the flag is raised iff the checks made before it completed |
| OrderFlow.ClosingReports | packages/blockchain-wallet-v4-frontend/src/data/components/nfts/sagas.ts:324-334 | the closing holds the success alert iff the flow ended well, and otherwise displays and logs exactly the remapped error |
| OrderFlow.InFrame | packages/blockchain-wallet-v4-frontend/src/data/components/nfts/sagas.ts:320-338 | proof helper: an alert or a log entry is in the whole flow iff it is in its closing |
| OrderFlow.ReportsAfterOpening | packages/blockchain-wallet-v4-frontend/src/data/components/nfts/sagas.ts:320-338 | calls and flag changes around the closing do not change which alerts and log entries the flow dispatches |
| OrderFlow.BracketReports | packages/blockchain-wallet-v4-frontend/src/data/components/nfts/sagas.ts:320-338 | a flow shows its success alert iff every step completed; otherwise it displays and logs exactly the remapped first error and no success |
| OrderFlow.BracketRaisedFirst | packages/blockchain-wallet-v4-frontend/src/data/components/nfts/sagas.ts:320-338 | for a flow that raises the flag first: the raised flag, its calls, the closing for how they ended, the lowered flag |
| OrderFlow.BracketChecksFirst | packages/blockchain-wallet-v4-frontend/src/data/components/nfts/sagas.ts:471-488 | for a flow with checks before the flag: failed checks are reported without raising the flag; passed checks are followed by the raised flag, the calls and their closing |
| OrderFlow.Bracket | packages/blockchain-wallet-v4-frontend/src/data/components/nfts/sagas.ts:320-338 | the whole log of a terminal flow: the opening, the closing for how it settled, and the lowered flag; its properties are BracketClearsSubmitting, BracketRaisesFlagIff and BracketReports |
| OrderFlow.Settled | packages/blockchain-wallet-v4-frontend/src/data/components/nfts/sagas.ts:321-329 | spec of the terminal sagas: a flow ends with the first error of the statements before the flag is raised, else the first error of those after it, else normally |
| OrderFlow.Closing | packages/blockchain-wallet-v4-frontend/src/data/components/nfts/sagas.ts:324-335 | spec of the terminal sagas: after the try block, the success tail of lines 324-328 (and its six counterparts) when it completed, else the catch block of lines 329-335 with the remapped error |
| OrderFlow.SubmittingAfter | packages/blockchain-wallet-v4-frontend/src/data/components/nfts/sagas.ts:322-337 | spec of the store: the value of `isSubmitting` after the dispatched actions, the last `setOrderFlowIsSubmitting` deciding; BracketClearsSubmitting and BracketRaisesFlagIff are stated through it |
| Sagas.NftSagas.Put | packages/blockchain-wallet-v4-frontend/src/data/components/nfts/sagas.ts:322 | a `put` appends its action to the log |
| Sagas.NftSagas.SetSubmitting | packages/blockchain-wallet-v4-frontend/src/data/components/nfts/sagas.ts:322 | the flag takes the value and its action is logged |
| Sagas.NftSagas.Close | packages/blockchain-wallet-v4-frontend/src/data/components/nfts/sagas.ts:324-334 | logs the success effects or the error report for how the flow ended |
| Sagas.NftSagas.Attempt | packages/blockchain-wallet-v4-frontend/src/data/components/nfts/sagas.ts:321-328 | one try-block statement: skipped after an error, otherwise its call is logged and its outcome kept; how the block ends is unchanged |
| Sagas.NftSagas.AcceptOffer | packages/blockchain-wallet-v4-frontend/src/data/components/nfts/sagas.ts:320-338 | leaves `isSubmitting` false and logs the bracket of getting the signer and fulfilling the order |
| Sagas.NftSagas.CreateOffer | packages/blockchain-wallet-v4-frontend/src/data/components/nfts/sagas.ts:340-381 | leaves `isSubmitting` false and logs the bracket of signer, coin check, ERC-20 check, the buy-order request with a seven-day expiration and the amount or `'0'`, fee calculation, fulfilment and posting |
| Sagas.AmountOrZero | packages/blockchain-wallet-v4-frontend/src/data/components/nfts/sagas.ts:354 | `amount || '0'` (before `Number`): the offer amount sent is never empty, is the given amount whenever that is truthy and `'0'` otherwise |
| Sagas.NftSagas.CreateOrder | packages/blockchain-wallet-v4-frontend/src/data/components/nfts/sagas.ts:383-405 | leaves `isSubmitting` false and logs the bracket of getting the signer and fulfilling the order |
| Sagas.NftSagas.CreateSellOrder | packages/blockchain-wallet-v4-frontend/src/data/components/nfts/sagas.ts:407-446 | leaves `isSubmitting` false and logs the bracket of signer, the sell-order request carrying `ListingTime` and `ExpirationTime`, creation and posting |
| Sagas.NftSagas.CreateTransfer | packages/blockchain-wallet-v4-frontend/src/data/components/nfts/sagas.ts:448-469 | leaves `isSubmitting` false and logs the bracket of signer, transfer and posting |
| Sagas.NftSagas.CancelListing | packages/blockchain-wallet-v4-frontend/src/data/components/nfts/sagas.ts:471-488 | leaves `isSubmitting` false and logs the bracket whose signer step precedes the flag |
| Sagas.NftSagas.CancelOffer | packages/blockchain-wallet-v4-frontend/src/data/components/nfts/sagas.ts:491-511 | leaves `isSubmitting` false and logs the bracket whose missing-offer check and signer step precede the flag |
| Sagas.CoinSelected | packages/blockchain-wallet-v4-frontend/src/data/components/nfts/sagas.ts:344 | completes iff a coin is selected, otherwise throws the missing-coin error |
| Sagas.Erc20Check | packages/blockchain-wallet-v4-frontend/src/data/components/nfts/sagas.ts:345-346 | completes iff the coin lookup succeeded with a truthy ERC-20 address; a found coin without one throws the ERC-20 error; a failed lookup throws its own error |
| Sagas.OfferGiven | packages/blockchain-wallet-v4-frontend/src/data/components/nfts/sagas.ts:493-495 | completes iff an order is given, otherwise throws the missing-offer error |
| Sagas.PrepareThenGas | packages/blockchain-wallet-v4-frontend/src/data/components/nfts/sagas.ts:193-217 | a quote preceded by order building completes iff both the building and the fee calculation complete; a building error is the one reported, otherwise the fee calculation's error |
| Sagas.GasOnly | packages/blockchain-wallet-v4-frontend/src/data/components/nfts/sagas.ts:261-267 | a quote that only calculates fees completes iff the calculation does, and otherwise reports the calculation's error |
| Sagas.NftSagas.FetchFees | packages/blockchain-wallet-v4-frontend/src/data/components/nfts/sagas.ts:187-318 | logs loading, then a signer failure as the fixed signer error, or per operation the tracked order requests (the sell request carrying `ListingTime` and `ExpirationTime`) and the quote or the unremapped first error |
| Sagas.FeesOutcome | packages/blockchain-wallet-v4-frontend/src/data/components/nfts/sagas.ts:311-316 | spec of FetchFees: the quote when the fee calculation completed, else `fetchFeesFailure` with its error |
| Sagas.ResolveAsset | packages/blockchain-wallet-v4-frontend/src/data/components/nfts/sagas.ts:549-556 | a given asset overrides the payload's contract address and token id |
| Sagas.OpenOutcome | packages/blockchain-wallet-v4-frontend/src/data/components/nfts/sagas.ts:547-593 | opening fails with the order-lookup error when the user's own offer cannot be looked up; otherwise it completes iff an address and a token id are present, else fails with "No asset found" |
| Sagas.OwnOfferOpened | packages/blockchain-wallet-v4-frontend/src/data/components/nfts/sagas.ts:559-560 | the flow is opened on an offer whose maker equals the default address (or `''` without one) ignoring case |
| Sagas.OrEmpty | packages/blockchain-wallet-v4-frontend/src/data/components/nfts/sagas.ts:551 | proof helper: `getOrElse('')` of the default address |
| OfferMatching.FirstMention | packages/blockchain-wallet-v4-frontend/src/data/components/nfts/sagas.ts:571-573 | `findIndex`: the first order whose lower-cased calldata contains the user's address, none before it does; none iff no order does |
| OfferMatching.IsOwnOffer | packages/blockchain-wallet-v4-frontend/src/data/components/nfts/sagas.ts:560 | the offer's maker and the user's address are equal after lower-casing both |
| OfferMatching.MentionsMaker | packages/blockchain-wallet-v4-frontend/src/data/components/nfts/sagas.ts:570-572 | the lower-cased calldata includes the user's address with a leading `0x` dropped and lower-cased (characterised by MentionIgnoresCaseOfHex) |
| OfferMatching.OfferToCancel | packages/blockchain-wallet-v4-frontend/src/data/components/nfts/sagas.ts:570-573 | the first mentioning order, or undefined exactly when no order mentions the user |
| OfferMatching.MentionIgnoresCaseOfHex | packages/blockchain-wallet-v4-frontend/src/data/components/nfts/sagas.ts:570-572 | for an address with the `0x` prefix, an order mentions it iff the lower-cased calldata contains the lower-cased hex digits |
| OfferMatching.MentionSameForCaseVariants | packages/blockchain-wallet-v4-frontend/src/data/components/nfts/sagas.ts:570-572 | whether an order mentions the user does not depend on how the address's hex digits are cased |
| Sagas.NftSagas.LookUpOfferToCancel | packages/blockchain-wallet-v4-frontend/src/data/components/nfts/sagas.ts:561-576 | logs the order lookup; on success the offer to cancel becomes `OfferToCancel` of the orders and the step becomes cancel-offer; on failure both are unchanged and its error is returned |
| Sagas.OfferLookup | packages/blockchain-wallet-v4-frontend/src/data/components/nfts/sagas.ts:561-575 | spec of LookUpOfferToCancel: the active-orders request, then, when it answered, the offer to cancel and the cancel-offer step |
| Sagas.NftSagas.FetchOrderAsset | packages/blockchain-wallet-v4-frontend/src/data/components/nfts/sagas.ts:581-592 | logs loading, the asset call and the asset or the failure |
| Sagas.OrderAssetFetch | packages/blockchain-wallet-v4-frontend/src/data/components/nfts/sagas.ts:581-592 | spec of FetchOrderAsset: loading, the asset request, then the asset or the failure |
| Sagas.NftSagas.NftOrderFlowOpen | packages/blockchain-wallet-v4-frontend/src/data/components/nfts/sagas.ts:547-593 | shows the order modal first; for the user's own offer looks up the offer to cancel and stops on a lookup error; fails with "No asset found" without an address and a token id; otherwise fetches the asset |

## Left out

- Network, SDK and wallet calls are not executed. Each becomes a parameter
  carrying its result or its error text. The log records, as `Called`
  entries, only the seven calls whose arguments the model computes: the
  asset and offers-made pages, the collections, the sell and buy order
  requests, the active orders and the order asset. The signer, matching
  orders, fee calculation, fulfilment, cancellation, transfer and
  posting calls are untracked steps: only whether each completed or threw,
  and its error, is modelled.
- The wall clock becomes the parameter `nowMs`.
- OrderTiming.ListingTime: reads the clock once. The source reads it twice,
  once for the comparison and once for the replacement; the readings are
  taken as equal.
- OrderTiming.ExpirationTime and OrderTiming.OfferExpirationTime: assume a
  time zone without daylight-saving changes. `moment().add(7, 'day')` adds
  seven local calendar days, which is 604800 s plus or minus 3600 s across
  a daylight-saving change; the model always adds 604800 s.
- Dates are whole seconds. Parsing of date strings by `new Date` and
  sub-second listing dates are not modelled.
- Text.Lower: maps only the ASCII letters. `toLowerCase` also maps the
  other Unicode letters.
- Saga concurrency and the `takeLatest`/`takeEvery` wiring are not
  modelled. Each saga runs to completion on its own.
- The reducers of `slice.ts` are not part of this model. Their effects on
  the fields are assumed from the action names: cursor bounds and pages,
  the collection list, `isSubmitting`, the offer to cancel and the step.
- `errorHandler` is not part of this model. The error text is passed
  through unchanged.
- `NFT_ORDER_PAGE_LIMIT` is not part of this model. It is the constructor
  parameter `pageLimit`.
- Sagas.Erc20Check: a failure of the coin lookup itself is the step's
  error as given. The lookup table is not part of this model.
- `fetchOpenseaAsset`, `fetchOpenseaStatus` and `nftOrderFlowClose` are
  left out: single API calls with a loading/success/failure dispatch, or a
  modal close. The loading action `fetchOpenseaStatus` dispatches is
  `fetchNftOffersMadeLoading` (line 162), the same entry FetchNftOffersMade
  logs, so that entry has a second source the model does not produce.
- `fetchNftCollection` is left out: a single API call with a
  loading/success/failure dispatch that also resets the collection filter
  after a success.
- `searchNftAssetContract` is left out. It searches by text, or, for a
  contract address that `ethers.utils.isAddress` accepts, looks up the
  contract and changes the marketplace form's collection. On an error it
  stops the search form's submit and shows a fixed alert. Address
  validation belongs to a library that is not part of this model.
- Sagas.AmountOrZero: the amount stays text; its conversion by `Number`
  is not modelled.
- The testnet/mainnet choice, the contents of order payloads and the
  `console.log` calls are left out.
