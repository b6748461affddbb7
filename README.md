# ordinal-comparator, modelled in Dafny

ordinal-comparator checks two indexers of the same Bitcoin-family chain against
each other. It runs over a range of block heights. For each height it asks the
primary endpoint for the block hash and fetches the block's receipts from both
endpoints, retrying with exponential backoff. It then compares the two receipts
with a protocol-specific comparator and reports every discrepancy. There are two
protocols:

- **Ordinal**: receipts are compared as received.
- **BRC20**: invalid events and the free-text `msg` field are removed first.

A run compares one (blockchain, protocol) pair and has two phases:

- **Start-up** checks that both endpoints report the chain's network. It picks
  the comparator from a (blockchain, protocol) registry and fixes the block
  range. The start is the user's value or the protocol's activation height. The
  end is the user's value only when it lies below the lowest tip of the two
  endpoints.
- **The run** submits heights in order until the range is done or an interrupt
  sets the shutdown event.

The model is split into one module per source file, plus three modules the
others share:

| file | models |
|---|---|
| `blockchain.dfy` | the `Blockchain` enumeration, its activation heights and case-insensitive parsing |
| `protocol.dfy` | the `Protocol` enumeration and its parsing |
| `api_client.dfy` | URL construction, `rstrip('/')` of the base URL, `strip()` of the block hash, the `data` field of responses and the `mainnet` → `bitcoin` rename in `get_node_info` |
| `base_comparator.dfy` | the base comparator's identity normalisation and the verdict shared by both protocol comparators |
| `ordinal_comparator.dfy` | the Ordinal comparator |
| `brc20_comparator.dfy` | the BRC20 normalisation, as a specification function and as the imperative loops of the source, and the BRC20 comparator |
| `comparator_registry.dfy` | `COMPARATORS` and `get_comparator` |
| `indexer_comparator.dfy` | start-up configuration, `_fetch_with_retry`, and the `Comparator` class: signal handler, submission loop, `_process_block` |
| `json.dfy` | parsed JSON documents, Python truthiness, key lookup, and type-strict structural equality of documents (`Equiv`) |
| `json_diff.dfy` | a structural diff standing in for DeepDiff, with the proof that it is empty exactly when the documents are equal |
| `text.dfy` | the ASCII part of `str.upper`, `strip`, `rstrip` and `str(int)` |
| `wrappers.dfy` | `Option`, `Result` and `Outcome` |

Exceptions become `Failure` values. A network response enters the model as its
decoded JSON body or as the error the request raised. A response that is
retried enters as a function from attempt number to outcome. An interrupt
enters as the set of heights at which it arrives.

`_process_block` increments progress in a `finally` clause. In the model that
increment is a separate method, `Comparator.CountProcessed`, which
`ProcessBlock` calls after the work as the source does.

## Model

| member | source | states |
|---|---|---|
| Blockchain.FirstBrc20Height | ordinal_comparator/core/blockchain.py:12-24 | BRC20 activates at 779832 on Bitcoin and 21000 on Fractal |
| Blockchain.FirstInscriptionHeight | ordinal_comparator/core/blockchain.py:26-38 | inscriptions activate at 767430 on Bitcoin and 21000 on Fractal |
| Blockchain.InscriptionsNoLaterThanBrc20 | ordinal_comparator/core/blockchain.py:12-38 | inscriptions activate no later than BRC20 on each chain, at the same height only on Fractal (779832/767430 on Bitcoin, 21000/21000 on Fractal) |
| Blockchain.NetworkName | ordinal_comparator/core/comparator.py:120 | the expected network is the lower-cased member name: "bitcoin", "fractal" |
| Blockchain.FromString | ordinal_comparator/core/blockchain.py:40-58 | a success names a member whose upper-cased name equals the upper-cased input; a failure means no member matches |
| Blockchain.NamesAreUpperCase | ordinal_comparator/core/blockchain.py:5-10 | member names are upper-case, so upper-casing them changes nothing |
| Blockchain.FromStringAccepts | ordinal_comparator/core/blockchain.py:54-58 | exactly the inputs that upper-case to BITCOIN or FRACTAL are accepted, and each gives its member |
| Blockchain.FromStringRoundTrip | ordinal_comparator/core/blockchain.py:40-58 | parsing a member's name gives the member back |
| Blockchain.FromStringCaseInsensitive | ordinal_comparator/core/blockchain.py:54-58 | two inputs that differ only in letter case parse alike |
| Protocol.FromString | ordinal_comparator/core/protocol.py:12-30 | a success names a member matching the input up to case; a failure means no member matches |
| Protocol.NamesAreUpperCase | ordinal_comparator/core/protocol.py:5-10 | member names are upper-case |
| Protocol.FromStringAccepts | ordinal_comparator/core/protocol.py:26-30 | exactly the inputs that upper-case to ORDINAL or BRC20 are accepted, and each gives its member |
| Protocol.FromStringRoundTrip | ordinal_comparator/core/protocol.py:12-30 | parsing a member's name gives the member back |
| Protocol.FromStringCaseInsensitive | ordinal_comparator/core/protocol.py:26-30 | two inputs that differ only in letter case parse alike |
| Text.Upper | ordinal_comparator/core/protocol.py:26 | upper-casing keeps the length, turns each ASCII lower-case letter into its capital and keeps every other character |
| Text.Lower | ordinal_comparator/core/comparator.py:122 | lower-casing keeps the length, turns each ASCII capital into its lower-case letter and keeps every other character |
| Text.UpperIdempotent | ordinal_comparator/core/protocol.py:26-27 | upper-casing twice is upper-casing once |
| Text.FindByUpperName | ordinal_comparator/core/protocol.py:26-30 | the member found matches the input up to case; none found means none matches |
| Text.RStrip | ordinal_comparator/api/client.py:19 | the result is a prefix of the input, everything cut off is the stripped character, and the result does not end with it |
| Text.RStripIdempotent | ordinal_comparator/api/client.py:19 | stripping twice is stripping once |
| Text.Strip | ordinal_comparator/api/client.py:79 | the result is the input between its leading and trailing whitespace, and it neither starts nor ends with whitespace |
| Text.StripIdempotent | ordinal_comparator/api/client.py:79 | stripping twice is stripping once |
| Text.IntToString | ordinal_comparator/api/client.py:75 | `str(int)`: a minus sign exactly for a negative number, followed by the digits of its magnitude; no leading zero except in "0" itself |
| Text.ParseIntToString | ordinal_comparator/api/client.py:75 | the decimal form of an integer reads back as that integer |
| Text.IntToStringInjective | ordinal_comparator/api/client.py:75 | distinct integers have distinct decimal forms |
| ApiClient.NewClient | ordinal_comparator/api/client.py:12-19 | the stored URL is the given one without its trailing slashes: a prefix, nothing but '/' removed, and no '/' at its end |
| ApiClient.NewClientIdempotent | ordinal_comparator/api/client.py:19 | a client built from a stored base URL stores the same URL |
| ApiClient.TrailingSlashIgnored | ordinal_comparator/api/client.py:19 | a trailing slash on the configured URL makes no difference |
| ApiClient.NodeInfoUrl | ordinal_comparator/api/client.py:50 | the base URL followed by `/api/v1/node/info` |
| ApiClient.BlockHashUrl | ordinal_comparator/api/client.py:75 | the base URL and `/blockhash/`, followed by `str(height)`, which reads back as the height |
| ApiClient.ReceiptsUrl | ordinal_comparator/api/client.py:128-149 | the base URL, the protocol's path (`/api/v1/ord/block/` or `/api/v1/brc20/block/`), then the hash and `/events` |
| ApiClient.BlockHashUrlInjective | ordinal_comparator/api/client.py:75 | different heights are asked for at different URLs |
| ApiClient.ReceiptsUrlInjective | ordinal_comparator/api/client.py:114-150 | on one base URL, different hashes and different protocols never share a receipts URL |
| ApiClient.BlockHash | ordinal_comparator/api/client.py:79 | the hash is the response text between its leading and trailing whitespace, and neither starts nor ends with whitespace |
| ApiClient.BlockHashIsStripped | ordinal_comparator/api/client.py:79 | stripping the hash again changes nothing |
| ApiClient.DataField | ordinal_comparator/api/client.py:129 | `.get('data', {})`: the `data` member when present, `{}` when absent, an error when the body is not an object |
| ApiClient.FetchBlockReceipts | ordinal_comparator/api/client.py:114-129 | a request error is passed on; otherwise the result is the body's `data` field |
| ApiClient.RenameMainnet | ordinal_comparator/api/client.py:54-58 | a chainInfo.network of "mainnet" becomes "bitcoin"; any other info is returned unchanged; every other key and every other chainInfo key keeps its value |
| ApiClient.RenameMainnetIdempotent | ordinal_comparator/api/client.py:54-58 | renaming twice is renaming once |
| ApiClient.GetNodeInfo | ordinal_comparator/api/client.py:37-59 | succeeds exactly when the request does and the body is an object; the value is the renamed `data` field; a failed request passes its error on |
| Json.Truthy | ordinal_comparator/protocols/ordinal.py:35-41 | `not data` holds exactly for None, False, 0, "", [] and {} |
| Json.IndexOf | ordinal_comparator/protocols/brc20.py:73 | the position found holds the key, and no earlier field does; no position means no field holds the key |
| Json.Get | ordinal_comparator/protocols/brc20.py:73 | `d[k]` is present exactly when some field holds k, and is that field's value |
| Json.Member | ordinal_comparator/core/comparator.py:63-64 | on an object, the lookup of the key; on anything else, nothing |
| Json.RemoveKey | ordinal_comparator/protocols/brc20.py:79 | `del d[k]` leaves no field named k |
| Json.GetRemoveKey | ordinal_comparator/protocols/brc20.py:79 | deleting a key leaves every other key's lookup as it was |
| Json.RemoveAbsentKey | ordinal_comparator/protocols/brc20.py:78-79 | deleting an absent key changes nothing |
| Json.ArrayMember | ordinal_comparator/protocols/brc20.py:68 | the items of `j[k]` exactly when j is an object whose k is a list |
| Json.ArrayMemberSet | ordinal_comparator/protocols/brc20.py:74 | after the list at `j[k]` is replaced, `j[k]` holds the new list |
| Json.SetArrayMemberTwice | ordinal_comparator/protocols/brc20.py:74 | replacing the list twice is replacing it once with the last value |
| Json.MemberSetArrayMember | ordinal_comparator/protocols/brc20.py:74 | replacing `j[k]` leaves every other member as it was |
| Json.EquivReflexive | ordinal_comparator/protocols/ordinal.py:43-46 | every document equals itself |
| JsonDiff.Diff | ordinal_comparator/protocols/ordinal.py:43 | values of different types give one type change at their path; scalars of one type give one changed value when they differ and nothing when equal; with DiffEmptyIffEquiv, the diff is empty exactly when the documents are equal |
| JsonDiff.DiffEmptyIffEquiv | ordinal_comparator/protocols/ordinal.py:43-46 | the diff is empty exactly when the two documents are equal, key by key for objects and position by position for arrays |
| JsonDiff.DiffItemsEmptyIff | ordinal_comparator/protocols/ordinal.py:43-46 | no differences from position i on exactly when the arrays have equal length and equal items from i on |
| JsonDiff.DiffFieldsEmptyIff | ordinal_comparator/protocols/ordinal.py:43-46 | no removed or changed key from field i on exactly when each such key is present in the other object with an equal value |
| JsonDiff.AddedKeysEmptyIff | ordinal_comparator/protocols/ordinal.py:43-46 | no added key from field j on exactly when each such key of the second object is present in the first |
| JsonDiff.DiffSelfEmpty | ordinal_comparator/protocols/ordinal.py:43-46 | a document has no differences with itself |
| JsonDiff.PathText | ordinal_comparator/protocols/ordinal.py:52 | every rendered path starts at root |
| BaseComparator.NormalizeData | ordinal_comparator/protocols/comparator.py:34-45 | the default normalisation returns the receipt unchanged |
| BaseComparator.NormalizeDataIdempotent | ordinal_comparator/protocols/comparator.py:34-45 | normalising twice is normalising once |
| BaseComparator.Message | ordinal_comparator/protocols/ordinal.py:52 | every message starts with "<name> discrepancy: " |
| BaseComparator.Messages | ordinal_comparator/protocols/ordinal.py:49-52 | one message per diff entry, in order |
| BaseComparator.Judge | ordinal_comparator/protocols/ordinal.py:34-54 | matched exactly when there is no discrepancy; both receipts empty match; one empty gives the single missing-data message for that side; otherwise matched exactly when the receipts are type-strictly equal (`Equiv`), and message i is "<name> discrepancy: <kind> - <path>" built from the i-th difference |
| BaseComparator.JudgeSelf | ordinal_comparator/protocols/ordinal.py:43-46 | a receipt always matches itself |
| OrdinalComparator.CompareBlockReceipts | ordinal_comparator/protocols/ordinal.py:16-54 | the verdict of the shared comparison under the label "Ordinal", with each of its cases and one prefixed message per difference between the raw receipts, in order |
| OrdinalComparator.ComparesAsReceived | ordinal_comparator/protocols/ordinal.py:30-32 | the Ordinal verdict is the one drawn from the raw receipts |
| OrdinalComparator.CompareSelf | ordinal_comparator/protocols/ordinal.py:43-46 | any receipt matches itself |
| OrdinalComparator.CompareUnequal | ordinal_comparator/protocols/ordinal.py:43-54 | two non-empty receipts that differ give at least one discrepancy and no match |
| Brc20Comparator.FirstWithoutValid | ordinal_comparator/protocols/brc20.py:72-73 | the index of the first event that is not an object holding `valid`, every earlier one holding it; none means every event holds it |
| Brc20Comparator.KeepValid | ordinal_comparator/protocols/brc20.py:71-74 | keeping the valid events never lengthens the list |
| Brc20Comparator.KeepValidOnlyValid | ordinal_comparator/protocols/brc20.py:72-74 | every event kept is valid and comes from the input |
| Brc20Comparator.KeepValidExactly | ordinal_comparator/protocols/brc20.py:72-74 | each event is kept exactly as often as it occurs when valid, and not at all otherwise |
| Brc20Comparator.KeepValidAllValid | ordinal_comparator/protocols/brc20.py:72-74 | a list of valid events is kept whole |
| Brc20Comparator.KeepValidAppend | ordinal_comparator/protocols/brc20.py:72-74 | filtering distributes over concatenation |
| Brc20Comparator.KeepValidSnoc | ordinal_comparator/protocols/brc20.py:72-74 | one more event is kept when valid and dropped when not |
| Brc20Comparator.RemoveFirst | ordinal_comparator/protocols/brc20.py:74 | `list.remove` on an event present in the list, as it always is there, shortens the list by one |
| Brc20Comparator.RemoveFirstMultiset | ordinal_comparator/protocols/brc20.py:74 | `list.remove` on a present event takes away exactly one occurrence of it |
| Brc20Comparator.RemoveFirstAfter | ordinal_comparator/protocols/brc20.py:74 | removing an event that is not among the earlier ones removes the one at its own position |
| Brc20Comparator.RemoveInvalidStep | ordinal_comparator/protocols/brc20.py:72-74 | one step of the removal loop keeps the kept-so-far list equal to the filter of the events seen |
| Brc20Comparator.FirstWithoutValidAt | ordinal_comparator/protocols/brc20.py:72-73 | the first event lacking `valid`, found by position, is the one reported |
| Brc20Comparator.FirstWithoutValidNone | ordinal_comparator/protocols/brc20.py:72-73 | when every event holds `valid`, none is reported |
| Brc20Comparator.FirstFaultyEntry | ordinal_comparator/protocols/brc20.py:68-73 | the first block entry whose events cannot be read, every earlier one readable |
| Brc20Comparator.FirstFaultyEntryAt | ordinal_comparator/protocols/brc20.py:68-73 | the first unreadable entry found by position is the one reported |
| Brc20Comparator.FirstFaultyEntryNone | ordinal_comparator/protocols/brc20.py:68-73 | when every entry is readable, none is reported |
| Brc20Comparator.FirstFaultyEntrySame | ordinal_comparator/protocols/brc20.py:68-73 | two block lists whose entries fail alike report the same first fault |
| Brc20Comparator.StripMsg | ordinal_comparator/protocols/brc20.py:77-79 | the event no longer holds `msg`, and stays an object exactly when it was one |
| Brc20Comparator.StripMsgKeepsOthers | ordinal_comparator/protocols/brc20.py:77-79 | every key other than `msg` keeps its value |
| Brc20Comparator.StripMsgWithoutMsg | ordinal_comparator/protocols/brc20.py:77-79 | an event without `msg` is unchanged |
| Brc20Comparator.StripAll | ordinal_comparator/protocols/brc20.py:77-79 | one stripped event per event, in order |
| Brc20Comparator.KeepValidThenStrip | ordinal_comparator/protocols/brc20.py:68-79 | the two passes over an entry give its cleaned events |
| Brc20Comparator.CleanEntryEvents | ordinal_comparator/protocols/brc20.py:68-79 | a cleaned entry's events are the stripped valid events of the original |
| Brc20Comparator.RemoveInvalidEvents | ordinal_comparator/protocols/brc20.py:71-74 | the removal loop over one event list returns the filter of the list, or the first event lacking `valid` as the raised error |
| Brc20Comparator.RemoveInvalidEntries | ordinal_comparator/protocols/brc20.py:68-74 | the removal loop over all entries gives each entry with its kept events, or the first error |
| Brc20Comparator.DeleteMsgFields | ordinal_comparator/protocols/brc20.py:77-79 | the deletion loop strips `msg` from every event |
| Brc20Comparator.DeleteMsgEntries | ordinal_comparator/protocols/brc20.py:76-79 | the deletion loop strips `msg` from every event of every entry |
| Brc20Comparator.Normalized | ordinal_comparator/protocols/brc20.py:57-81 | a receipt without a `block` list is returned as it is; a normalised receipt keeps a `block` list of the same length |
| Brc20Comparator.NormalizeData | ordinal_comparator/protocols/brc20.py:57-81 | the imperative normalisation returns exactly the specified normalised data, or its error |
| Brc20Comparator.NormalizedFailsIff | ordinal_comparator/protocols/brc20.py:68-74 | normalisation fails exactly when some event of a listed entry is not an object holding `valid` |
| Brc20Comparator.NormalizedIsClean | ordinal_comparator/protocols/brc20.py:57-81 | after normalisation every event is valid and has no `msg` |
| Brc20Comparator.CleanIsFixed | ordinal_comparator/protocols/brc20.py:57-81 | clean data normalises to itself |
| Brc20Comparator.NormalizeIdempotent | ordinal_comparator/protocols/brc20.py:57-81 | normalising twice is normalising once |
| Brc20Comparator.NormalizedKeepsOtherKeys | ordinal_comparator/protocols/brc20.py:57-81 | every top-level key other than `block` keeps its value |
| Brc20Comparator.NormalizedEntry | ordinal_comparator/protocols/brc20.py:68-79 | every block entry keeps its position, and all keys other than `events` |
| Brc20Comparator.InvalidEventIgnored | ordinal_comparator/protocols/brc20.py:72-74 | inserting an invalid event anywhere in an event list changes neither the filter nor the error |
| Brc20Comparator.NormalizationIgnoresInvalidEvent | ordinal_comparator/protocols/brc20.py:68-79 | inserting an invalid event into any entry leaves the normalised data unchanged |
| Brc20Comparator.CompareBlockReceipts | ordinal_comparator/protocols/brc20.py:17-55 | fails exactly when a normalisation fails, with the primary's error first; otherwise it is the shared verdict on the two normalised receipts under the label "BRC20": the missing-data cases, and one prefixed message per difference between the normalised receipts, in order |
| Brc20Comparator.CompareSelf | ordinal_comparator/protocols/brc20.py:17-55 | readable data matches itself |
| Brc20Comparator.InvalidEventOnOneSide | ordinal_comparator/protocols/brc20.py:17-81 | an invalid event present on one side only never produces a discrepancy |
| ComparatorRegistry.GetComparatorFrom | ordinal_comparator/protocols/__init__.py:26-46 | a success exactly when the chain is registered and the protocol is under it, giving the registered comparator; otherwise the chain error or the protocol error, with the source's message |
| ComparatorRegistry.GetComparator | ordinal_comparator/protocols/__init__.py:26-46 | on the shipped registry the lookup always succeeds, with the BRC20 comparator exactly for BRC20 |
| ComparatorRegistry.GetComparatorTotal | ordinal_comparator/protocols/__init__.py:14-23 | on the shipped registry every lookup succeeds, the protocol alone decides the comparator, and both chains agree |
| ComparatorRegistry.Compare | ordinal_comparator/core/comparator.py:300 | the Ordinal kind gives the Ordinal verdict and never fails; the BRC20 kind gives the BRC20 comparator's result; any verdict matches exactly when it has no discrepancy |
| ComparatorRegistry.CompareSelf | ordinal_comparator/core/comparator.py:300 | every comparator matches readable data with itself |
| IndexerComparator.CreateApiClients | ordinal_comparator/core/comparator.py:87-105 | both clients are of one class, the BRC20 class exactly for BRC20, each built on its endpoint |
| IndexerComparator.ValidateNetworkCompatibility | ordinal_comparator/core/comparator.py:107-128 | passes exactly when both networks equal the chain's network name; a missing `network` raises first; with both present, a failure is the mismatch error carrying the expected and both reported values |
| IndexerComparator.DetermineStartBlock | ordinal_comparator/core/comparator.py:130-149 | the user's start if given, else the inscription height for Ordinal or the BRC20 height for BRC20 |
| IndexerComparator.Min | ordinal_comparator/core/comparator.py:74 | `min`: no larger than either, and one of them |
| IndexerComparator.DetermineEndBlock | ordinal_comparator/core/comparator.py:151-168 | never above the common tip; the user's end when given and below it, else the tip |
| IndexerComparator.ChainInfo | ordinal_comparator/core/comparator.py:63-64 | succeeds exactly when node info is read and holds `chainInfo`, giving that member; a failed request gives its error, a missing key the `chainInfo` key error |
| IndexerComparator.MinLatestBlock | ordinal_comparator/core/comparator.py:72-74 | succeeds exactly when both `ordBlockHeight` values are present integers, and gives the smaller; a missing one is a key error; with both present, a failure is the non-integer error carrying both values |
| IndexerComparator.ResolveFromChainInfo | ordinal_comparator/core/comparator.py:65-82 | the errors come in the source's order: the network check's error, then the latest-height error; past both, it succeeds exactly when the determined start is no later than the determined end, and otherwise fails with that end and start; a success holds the chain, protocol, clients, the protocol's comparator, the determined start and end |
| IndexerComparator.ResolveConfig | ordinal_comparator/core/comparator.py:32-82 | the primary's chain info is read first and its error wins; then the secondary's; then the configuration is resolved from both; a success has start no later than end |
| IndexerComparator.MainnetAccepted | ordinal_comparator/api/client.py:54-58 | endpoints reporting "mainnet" pass the Bitcoin network check |
| IndexerComparator.UserRangeHonoured | ordinal_comparator/core/comparator.py:162-167 | a user range below both tips, on compatible endpoints, is used as given |
| IndexerComparator.DefaultRangeResolved | ordinal_comparator/core/comparator.py:65-82 | with no user bounds, compatible endpoints and a common tip at or above the activation height, the run starts at the protocol's activation height and ends at the lower tip |
| IndexerComparator.Backoffs | ordinal_comparator/core/comparator.py:360-361 | the k-th delay is 2^k seconds |
| IndexerComparator.BackoffsDouble | ordinal_comparator/core/comparator.py:360-361 | the delays start at one second and double |
| IndexerComparator.FirstSuccess | ordinal_comparator/core/comparator.py:351-353 | the first attempt that succeeds, every earlier one failing; none means all failed |
| IndexerComparator.FirstSuccessAt | ordinal_comparator/core/comparator.py:351-353 | an attempt that succeeds after only failures is the first success |
| IndexerComparator.RetryOutcome | ordinal_comparator/core/comparator.py:348-365 | with no attempts allowed, the generic error; otherwise a success exactly when some attempt succeeds, with the first success's value, and else the last attempt's error |
| IndexerComparator.FetchWithRetry | ordinal_comparator/core/comparator.py:333-365 | with no attempts allowed, no call and the generic error; after a first success at attempt k, k+1 calls, the delays 1, 2, … 2^(k-1) and that attempt's value; when every attempt fails, that many calls, one sleep fewer, and the last error raised |
| IndexerComparator.AlwaysFailing | ordinal_comparator/core/comparator.py:351-365 | a fetch that always fails is called max_retries times and its last error is raised |
| IndexerComparator.SucceedsAt | ordinal_comparator/core/comparator.py:351-353 | a fetch first succeeding at attempt k is called k+1 times and its value returned |
| IndexerComparator.Heights | ordinal_comparator/core/comparator.py:202 | the consecutive heights of a range, in order |
| IndexerComparator.FirstInterrupt | ordinal_comparator/core/comparator.py:202-205 | the first height of the range at which an interrupt arrives, no interrupt before it, or one past the end |
| IndexerComparator.StopHeight | ordinal_comparator/core/comparator.py:202-205 | the loop stops at once when shutdown is already set; otherwise at the first height of the range at which an interrupt arrives, none arriving before it, or one past the end |
| IndexerComparator.CompareResultShape | ordinal_comparator/core/comparator.py:289-300 | a verdict is filed under the block's hash; only the BRC20 comparator can fail to normalise |
| IndexerComparator.FetchAndCompare | ordinal_comparator/core/comparator.py:288-300 | both receipts fetched with retries, primary first, then compared; the outcome and the number of requests are those specified |
| IndexerComparator.BlockResult | ordinal_comparator/core/comparator.py:280-300 | the block ends in a hash-lookup failure exactly when the lookup fails, carrying its error; a verdict is filed under the stripped hash |
| IndexerComparator.HandleBlock | ordinal_comparator/core/comparator.py:280-300 | a failed hash lookup ends the block with no receipt request; otherwise fetch and compare on the stripped hash |
| IndexerComparator.Comparator.constructor | ordinal_comparator/core/comparator.py:52-57 | a fresh comparator holds the configuration, with neither the event nor the handled flag set and no progress |
| IndexerComparator.Comparator.Create | ordinal_comparator/core/comparator.py:32-82 | construction succeeds exactly when the configuration resolves, and the comparator holds it |
| IndexerComparator.Comparator.SignalHandler | ordinal_comparator/core/comparator.py:177-184 | afterwards the event and the flag are set; a repeated interrupt changes nothing |
| IndexerComparator.Comparator.Run | ordinal_comparator/core/comparator.py:199-208 | the heights submitted are exactly start up to the stop height, in order; the event is set exactly when the loop stopped early |
| IndexerComparator.Comparator.CountProcessed | ordinal_comparator/core/comparator.py:316-318 | progress advances by one unless shutdown is set |
| IndexerComparator.Comparator.ProcessBlock | ordinal_comparator/core/comparator.py:267-318 | the outcome and requests of the block are those specified; progress advances by one on every path unless shutdown is set; the shutdown state is untouched |

## Left out

- HTTP, timeouts, TLS and `response.json()` decoding are left out. A response is its decoded body or the error the request raised.
- `time.sleep`/`gevent.sleep` is left out. `FetchWithRetry` returns the delays it would sleep.
- Logging, `tqdm` and `_log_completion_metrics` are left out: they are output only.
- The thread pool, `gevent.joinall`, tasks interleaving in the pool, `GreenletExit` and `_perform_graceful_shutdown` are left out. `Run` returns the heights it submits, and each block is processed through `ProcessBlock`.
- The `KeyboardInterrupt` and `except Exception` paths of `run` are left out.
- `signal.signal` registration is left out. An interrupt is modelled as arriving at a height, just before that height's shutdown check.
- `_is_block_eligible` always returns True, so its skip branch cannot run and is not modelled.
- DeepDiff itself is left out. `JsonDiff.Diff` stands in for it with DeepDiff's report category names and root-based paths. Entries come in traversal order, not grouped by category.
- JsonDiff.Diff: lists are aligned by position. DeepDiff 8 aligns lists of hashable items with difflib, so `[1,2,3]` against `[2,3]` gives one removal at `root[0]` there and two changed values plus one removal here. The entries therefore differ from DeepDiff's report on such lists.
- JsonDiff.Diff: equality is type-strict everywhere, so `true` and `1` always differ. DeepDiff is type-strict outside lists of scalars, but inside such a list difflib matches items by Python's `==`, where `true == 1`. `{"a": [1]}` against `{"a": [true]}` is therefore a mismatch in the model and may be a match in the source. The model promises `matched` only for type-strict equality.
- Floating-point numbers in JSON are left out; numbers are integers. A non-integer `ordBlockHeight` is rejected as `HeightNotAnInteger`, where Python would compare whatever it got.
- jsonpath's treatment of a non-list `block` or `events` as a one-element list is left out. Only lists are traversed; anything else is left as it is.
- Duplicate keys in a JSON object are left out: lookup takes the first occurrence. Decoded JSON has distinct keys, so this does not arise.
- Unicode case mapping and Unicode whitespace are left out. Only ASCII letters are case-mapped and only ASCII whitespace is stripped.
- The text of the network-mismatch and range errors is left out of the contracts. The error values carry the numbers and names the messages are made from.
- `argparse.ArgumentTypeError` versus `ValueError` is not distinguished; both are string failures.
- The command-line front end and the logging set-up are not part of this model.
- In-place mutation of the parsed receipt is modelled on values. The BRC20 loops rebuild lists that the source changes in place, so aliasing between the caller's object and the normalised one is not captured.
- Brc20Comparator.RemoveInvalidEvents: `list.remove` is modelled with structural equality. Python's `==` on parsed JSON ignores key order, but every event before the one removed is valid and was kept, so the first equal event is the one at hand in either reading.
- IndexerComparator.Comparator.Run: an interrupt arriving while a block is being processed is not modelled; `Run` and `ProcessBlock` are separate calls.
