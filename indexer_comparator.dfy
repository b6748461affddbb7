/** The orchestration of a comparison run: the run configuration resolved at
    start-up, the retrying fetch, and the comparator object that submits
    block heights, reacts to interrupts and processes each block. */
module IndexerComparator {
  import opened Wrappers
  import opened Json
  import Text
  import Chain = Blockchain
  import Proto = Protocol
  import ApiClient
  import BaseComparator
  import Brc20Comparator
  import Registry = ComparatorRegistry

  // Run configuration

  /** Why the comparator could not be constructed. */
  datatype ConfigError =
    | NodeInfoUnavailable(reason: string)
    | MissingKey(key: string)
    | NetworkMismatch(expected: string, primary: Json, secondary: Json)
    | UnsupportedComparator(message: string)
    | HeightNotAnInteger(primaryHeight: Json, secondaryHeight: Json)
    | EndBeforeStart(endBlock: int, startBlock: int)

  /** Everything __init__ settles before a run. */
  datatype Config = Config(
    blockchain: Chain.Blockchain,
    protocol: Proto.Protocol,
    primaryClient: ApiClient.Client,
    secondaryClient: ApiClient.Client,
    comparator: Registry.ComparatorKind,
    startBlock: int,
    endBlock: int)

  /** The client class each protocol talks to. */
  function ClientKindFor(p: Proto.Protocol): ApiClient.ClientKind {
    match p
    case Brc20 => ApiClient.Brc20Client
    case Ordinal => ApiClient.OrdinalClient
  }

  /** _create_api_clients: two clients of the protocol's class. */
  function CreateApiClients(p: Proto.Protocol, primaryEndpoint: string, secondaryEndpoint: string)
    : (r: (ApiClient.Client, ApiClient.Client))
    ensures r.0.kind == r.1.kind
    ensures r.0.kind == ApiClient.Brc20Client <==> p == Proto.Brc20
    ensures r.0 == ApiClient.NewClient(r.0.kind, primaryEndpoint)
    ensures r.1 == ApiClient.NewClient(r.1.kind, secondaryEndpoint)
  {
    (ApiClient.NewClient(ClientKindFor(p), primaryEndpoint), ApiClient.NewClient(ClientKindFor(p), secondaryEndpoint))
  }

  /** _validate_network_compatibility. Both `network` keys are read first
      (a missing one raises), then both must equal the chain's network name. */
  function ValidateNetworkCompatibility(b: Chain.Blockchain, primaryInfo: Json, secondaryInfo: Json)
    : (r: Outcome<ConfigError>)
    ensures r.Pass? <==>
              && Member(primaryInfo, "network") == Some(JStr(Chain.NetworkName(b)))
              && Member(secondaryInfo, "network") == Some(JStr(Chain.NetworkName(b)))
    ensures Member(primaryInfo, "network").None? || Member(secondaryInfo, "network").None? ==>
              r == Fail(MissingKey("network"))
    ensures Member(primaryInfo, "network").Some? && Member(secondaryInfo, "network").Some? && r.Fail? ==>
              r.error == NetworkMismatch(Chain.NetworkName(b), Member(primaryInfo, "network").value,
                                         Member(secondaryInfo, "network").value)
    ensures r.Fail? && r.error.NetworkMismatch? ==>
              && r.error.expected == Chain.NetworkName(b)
              && Member(primaryInfo, "network") == Some(r.error.primary)
              && Member(secondaryInfo, "network") == Some(r.error.secondary)
  {
    match (Member(primaryInfo, "network"), Member(secondaryInfo, "network"))
    case (None, _) => Fail(MissingKey("network"))
    case (_, None) => Fail(MissingKey("network"))
    case (Some(pn), Some(sn)) =>
      var expected := Chain.NetworkName(b);
      if pn != JStr(expected) || sn != JStr(expected) then Fail(NetworkMismatch(expected, pn, sn))
      else Pass
  }

  /** _determine_start_block: the user's start, else the protocol's
      activation height on the chain. */
  function DetermineStartBlock(b: Chain.Blockchain, p: Proto.Protocol, startBlock: Option<int>): (r: int)
    ensures startBlock.Some? ==> r == startBlock.value
    ensures startBlock.None? && p == Proto.Ordinal ==> r == Chain.FirstInscriptionHeight(b)
    ensures startBlock.None? && p == Proto.Brc20 ==> r == Chain.FirstBrc20Height(b)
  {
    match startBlock
    case Some(s) => s
    case None =>
      match p
      case Ordinal => Chain.FirstInscriptionHeight(b)
      case Brc20 => Chain.FirstBrc20Height(b)
  }

  function Min(a: int, b: int): (m: int)
    ensures m <= a && m <= b && (m == a || m == b)
  {
    if a <= b then a else b
  }

  /** _determine_end_block: the user's end only when it lies strictly below
      the latest block both endpoints have. */
  function DetermineEndBlock(endBlock: Option<int>, minLatestBlock: int): (r: int)
    ensures r <= minLatestBlock
    ensures endBlock.Some? ==> r == Min(endBlock.value, minLatestBlock)
    ensures endBlock.None? ==> r == minLatestBlock
    ensures r != minLatestBlock ==> endBlock == Some(r)
  {
    if endBlock.Some? && endBlock.value < minLatestBlock then endBlock.value else minLatestBlock
  }

  /** get_node_info()['chainInfo']. */
  function ChainInfo(nodeInfoResponse: Result<Json, string>): (r: Result<Json, ConfigError>)
    ensures r.Success? <==>
              ApiClient.GetNodeInfo(nodeInfoResponse).Success? &&
              Member(ApiClient.GetNodeInfo(nodeInfoResponse).value, "chainInfo").Some?
    ensures r.Success? ==> Member(ApiClient.GetNodeInfo(nodeInfoResponse).value, "chainInfo") == Some(r.value)
    ensures ApiClient.GetNodeInfo(nodeInfoResponse).Failure? ==>
              r == Failure(NodeInfoUnavailable(ApiClient.GetNodeInfo(nodeInfoResponse).error))
    ensures ApiClient.GetNodeInfo(nodeInfoResponse).Success? &&
            Member(ApiClient.GetNodeInfo(nodeInfoResponse).value, "chainInfo").None? ==>
              r == Failure(MissingKey("chainInfo"))
  {
    match ApiClient.GetNodeInfo(nodeInfoResponse)
    case Failure(e) => Failure(NodeInfoUnavailable(e))
    case Success(info) =>
      match Member(info, "chainInfo")
      case None => Failure(MissingKey("chainInfo"))
      case Some(ci) => Success(ci)
  }

  /** The latest block of both endpoints: both `ordBlockHeight` keys are read,
      then the smaller is taken. */
  function MinLatestBlock(primaryInfo: Json, secondaryInfo: Json): (r: Result<int, ConfigError>)
    ensures r.Success? <==>
              && Member(primaryInfo, "ordBlockHeight").Some? && Member(primaryInfo, "ordBlockHeight").value.JNum?
              && Member(secondaryInfo, "ordBlockHeight").Some? && Member(secondaryInfo, "ordBlockHeight").value.JNum?
    ensures r.Success? ==>
              r.value == Min(Member(primaryInfo, "ordBlockHeight").value.n, Member(secondaryInfo, "ordBlockHeight").value.n)
    ensures Member(primaryInfo, "ordBlockHeight").None? || Member(secondaryInfo, "ordBlockHeight").None? ==>
              r == Failure(MissingKey("ordBlockHeight"))
    ensures Member(primaryInfo, "ordBlockHeight").Some? && Member(secondaryInfo, "ordBlockHeight").Some? && r.Failure? ==>
              r.error == HeightNotAnInteger(Member(primaryInfo, "ordBlockHeight").value, Member(secondaryInfo, "ordBlockHeight").value)
    ensures r.Failure? && !r.error.MissingKey? ==>
              r.error == HeightNotAnInteger(Member(primaryInfo, "ordBlockHeight").value, Member(secondaryInfo, "ordBlockHeight").value)
  {
    match (Member(primaryInfo, "ordBlockHeight"), Member(secondaryInfo, "ordBlockHeight"))
    case (None, _) => Failure(MissingKey("ordBlockHeight"))
    case (_, None) => Failure(MissingKey("ordBlockHeight"))
    case (Some(JNum(a)), Some(JNum(c))) => Success(Min(a, c))
    case (Some(a), Some(c)) => Failure(HeightNotAnInteger(a, c))
  }

  /** __init__ from the two chain-info objects on: network check, comparator
      lookup, start block, latest heights, end block, range check. */
  function ResolveFromChainInfo(
    b: Chain.Blockchain, p: Proto.Protocol, clients: (ApiClient.Client, ApiClient.Client),
    startBlock: Option<int>, endBlock: Option<int>, primaryInfo: Json, secondaryInfo: Json)
    : (r: Result<Config, ConfigError>)
    ensures r.Success? ==> r.value.startBlock <= r.value.endBlock
    ensures r.Success? ==> r.value.startBlock == DetermineStartBlock(b, p, startBlock)
    ensures r.Success? ==> r.value.comparator == Registry.KindFor(p)
    ensures r.Success? ==> ValidateNetworkCompatibility(b, primaryInfo, secondaryInfo).Pass?
    ensures r.Success? ==>
              && MinLatestBlock(primaryInfo, secondaryInfo).Success?
              && r.value.endBlock == DetermineEndBlock(endBlock, MinLatestBlock(primaryInfo, secondaryInfo).value)
    ensures r.Success? ==>
              && r.value.blockchain == b && r.value.protocol == p
              && r.value.primaryClient == clients.0 && r.value.secondaryClient == clients.1
    ensures r.Failure? && r.error.EndBeforeStart? ==>
              r.error.endBlock < r.error.startBlock && r.error.startBlock == DetermineStartBlock(b, p, startBlock)
    ensures ValidateNetworkCompatibility(b, primaryInfo, secondaryInfo).Fail? ==>
              r == Failure(ValidateNetworkCompatibility(b, primaryInfo, secondaryInfo).error)
    ensures ValidateNetworkCompatibility(b, primaryInfo, secondaryInfo).Pass? &&
            MinLatestBlock(primaryInfo, secondaryInfo).Failure? ==>
              r == Failure(MinLatestBlock(primaryInfo, secondaryInfo).error)
    ensures ValidateNetworkCompatibility(b, primaryInfo, secondaryInfo).Pass? &&
            MinLatestBlock(primaryInfo, secondaryInfo).Success? ==>
              var start := DetermineStartBlock(b, p, startBlock);
              var end := DetermineEndBlock(endBlock, MinLatestBlock(primaryInfo, secondaryInfo).value);
              && (r.Success? <==> start <= end)
              && (end < start ==> r == Failure(EndBeforeStart(end, start)))
  {
    match ValidateNetworkCompatibility(b, primaryInfo, secondaryInfo)
    case Fail(e) => Failure(e)
    case Pass =>
      Registry.GetComparatorTotal(b, p);
      match Registry.GetComparator(b, p)
      case Failure(msg) => Failure(UnsupportedComparator(msg))
      case Success(comparator) =>
        var start := DetermineStartBlock(b, p, startBlock);
        var minLatest :- MinLatestBlock(primaryInfo, secondaryInfo);
        var end := DetermineEndBlock(endBlock, minLatest);
        if end < start then Failure(EndBeforeStart(end, start))
        else Success(Config(b, p, clients.0, clients.1, comparator, start, end))
  }

  /** __init__: both chain infos are read (primary first), then the rest. */
  function ResolveConfig(
    b: Chain.Blockchain, p: Proto.Protocol, primaryEndpoint: string, secondaryEndpoint: string,
    startBlock: Option<int>, endBlock: Option<int>,
    primaryNodeInfo: Result<Json, string>, secondaryNodeInfo: Result<Json, string>)
    : (r: Result<Config, ConfigError>)
    ensures ChainInfo(primaryNodeInfo).Failure? ==> r == Failure(ChainInfo(primaryNodeInfo).error)
    ensures ChainInfo(primaryNodeInfo).Success? && ChainInfo(secondaryNodeInfo).Failure? ==>
              r == Failure(ChainInfo(secondaryNodeInfo).error)
    ensures ChainInfo(primaryNodeInfo).Success? && ChainInfo(secondaryNodeInfo).Success? ==>
              r == ResolveFromChainInfo(b, p, CreateApiClients(p, primaryEndpoint, secondaryEndpoint),
                                        startBlock, endBlock, ChainInfo(primaryNodeInfo).value, ChainInfo(secondaryNodeInfo).value)
    ensures r.Success? ==> r.value.startBlock <= r.value.endBlock
  {
    var primaryInfo :- ChainInfo(primaryNodeInfo);
    var secondaryInfo :- ChainInfo(secondaryNodeInfo);
    ResolveFromChainInfo(b, p, CreateApiClients(p, primaryEndpoint, secondaryEndpoint),
                         startBlock, endBlock, primaryInfo, secondaryInfo)
  }

  /** A Bitcoin endpoint reporting "mainnet" passes the network check: the
      client renames it before validation sees it. */
  lemma MainnetAccepted(primaryBody: Json, secondaryBody: Json)
    requires primaryBody.JObj? && secondaryBody.JObj?
    requires ApiClient.NetworkOf(ApiClient.DataField(primaryBody).value) == Some(JStr("mainnet"))
    requires ApiClient.NetworkOf(ApiClient.DataField(secondaryBody).value) == Some(JStr("mainnet"))
    ensures ChainInfo(Success(primaryBody)).Success? && ChainInfo(Success(secondaryBody)).Success?
    ensures ValidateNetworkCompatibility(Chain.Bitcoin, ChainInfo(Success(primaryBody)).value,
                                         ChainInfo(Success(secondaryBody)).value) == Pass
  {
    var pi := ApiClient.GetNodeInfo(Success(primaryBody)).value;
    var si := ApiClient.GetNodeInfo(Success(secondaryBody)).value;
    assert ApiClient.NetworkOf(pi) == Some(JStr("bitcoin"));
    assert ApiClient.NetworkOf(si) == Some(JStr("bitcoin"));
  }

  /** Any range the user gives that fits below both endpoints' tips is used
      as given. */
  lemma UserRangeHonoured(
    b: Chain.Blockchain, p: Proto.Protocol, primaryEndpoint: string, secondaryEndpoint: string,
    start: int, end: int, primaryNodeInfo: Result<Json, string>, secondaryNodeInfo: Result<Json, string>)
    requires ChainInfo(primaryNodeInfo).Success? && ChainInfo(secondaryNodeInfo).Success?
    requires ValidateNetworkCompatibility(b, ChainInfo(primaryNodeInfo).value, ChainInfo(secondaryNodeInfo).value).Pass?
    requires MinLatestBlock(ChainInfo(primaryNodeInfo).value, ChainInfo(secondaryNodeInfo).value).Success?
    requires start <= end < MinLatestBlock(ChainInfo(primaryNodeInfo).value, ChainInfo(secondaryNodeInfo).value).value
    ensures var r := ResolveConfig(b, p, primaryEndpoint, secondaryEndpoint, Some(start), Some(end), primaryNodeInfo, secondaryNodeInfo);
      r.Success? && r.value.startBlock == start && r.value.endBlock == end
  {
    Registry.GetComparatorTotal(b, p);
  }

  /** With neither bound given, on compatible endpoints with integer tips at
      or above the activation height, the run starts at the protocol's
      activation height and ends at the lower of the two tips. */
  lemma DefaultRangeResolved(
    b: Chain.Blockchain, p: Proto.Protocol, primaryEndpoint: string, secondaryEndpoint: string,
    primaryNodeInfo: Result<Json, string>, secondaryNodeInfo: Result<Json, string>)
    requires ChainInfo(primaryNodeInfo).Success? && ChainInfo(secondaryNodeInfo).Success?
    requires ValidateNetworkCompatibility(b, ChainInfo(primaryNodeInfo).value, ChainInfo(secondaryNodeInfo).value).Pass?
    requires MinLatestBlock(ChainInfo(primaryNodeInfo).value, ChainInfo(secondaryNodeInfo).value).Success?
    requires DetermineStartBlock(b, p, None)
               <= MinLatestBlock(ChainInfo(primaryNodeInfo).value, ChainInfo(secondaryNodeInfo).value).value
    ensures var r := ResolveConfig(b, p, primaryEndpoint, secondaryEndpoint, None, None, primaryNodeInfo, secondaryNodeInfo);
      && r.Success?
      && r.value.startBlock == (if p == Proto.Ordinal then Chain.FirstInscriptionHeight(b) else Chain.FirstBrc20Height(b))
      && r.value.endBlock == MinLatestBlock(ChainInfo(primaryNodeInfo).value, ChainInfo(secondaryNodeInfo).value).value
      && r.value.comparator == Registry.KindFor(p)
  {
    Registry.GetComparatorTotal(b, p);
  }

  // Retrying fetch

  const MaxRetries := 5

  function Pow2(n: nat): (r: nat)
    ensures r >= 1
  {
    if n == 0 then 1 else 2 * Pow2(n - 1)
  }

  /** The first n backoff delays in seconds: 1, 2, 4, ... */
  function Backoffs(n: nat): (r: seq<nat>)
    ensures |r| == n
    ensures forall i :: 0 <= i < n ==> r[i] == Pow2(i)
  {
    seq(n, i requires 0 <= i < n => Pow2(i))
  }

  /** The delays start at one second and double each time. */
  lemma BackoffsDouble(n: nat)
    ensures n > 0 ==> Backoffs(n)[0] == 1
    ensures forall i :: 0 < i < n ==> Backoffs(n)[i] == 2 * Backoffs(n)[i - 1]
  {
  }

  /** The first of the first n attempts that succeeds. */
  function FirstSuccess(fetch: nat -> Result<Json, string>, n: int): (r: Option<nat>)
    ensures r.Some? ==> r.value < n && fetch(r.value).Success?
    ensures r.Some? ==> forall k: nat :: k < r.value ==> fetch(k).Failure?
    ensures r.None? ==> forall k: nat :: k < n ==> fetch(k).Failure?
    decreases n
  {
    if n <= 0 then None
    else match FirstSuccess(fetch, n - 1)
      case Some(k) => Some(k)
      case None => if fetch(n - 1).Success? then Some(n - 1) else None
  }

  function RetryExhaustedMessage(description: string, maxRetries: int): string {
    "Failed to fetch " + description + " after " + Text.IntToString(maxRetries) + " attempts"
  }

  /** What _fetch_with_retry returns or raises. */
  function RetryOutcome(fetch: nat -> Result<Json, string>, description: string, maxRetries: int): (r: Result<Json, string>)
    ensures maxRetries <= 0 ==> r == Failure(RetryExhaustedMessage(description, maxRetries))
    ensures maxRetries > 0 ==> (r.Success? <==> FirstSuccess(fetch, maxRetries).Some?)
    ensures r.Success? ==> r == fetch(FirstSuccess(fetch, maxRetries).value)
    ensures maxRetries > 0 && r.Failure? ==> r == fetch(maxRetries - 1)
  {
    if maxRetries <= 0 then Failure(RetryExhaustedMessage(description, maxRetries))
    else match FirstSuccess(fetch, maxRetries)
      case Some(k) => fetch(k)
      case None => fetch(maxRetries - 1)
  }

  /** How many times _fetch_with_retry calls the fetch. */
  function RetryCalls(fetch: nat -> Result<Json, string>, maxRetries: int): nat {
    if maxRetries <= 0 then 0
    else match FirstSuccess(fetch, maxRetries)
      case Some(k) => k + 1
      case None => maxRetries
  }

  /** _fetch_with_retry. Attempt k (from 0) gets fetch(k); after a failed
      attempt that is not the last, the loop sleeps 2^(k) seconds. Returns the
      outcome, the number of calls and the requested sleeps. */
  method FetchWithRetry(fetch: nat -> Result<Json, string>, description: string, maxRetries: int)
    returns (r: Result<Json, string>, calls: nat, sleeps: seq<nat>)
    ensures maxRetries <= 0 ==>
              calls == 0 && sleeps == [] && r == Failure(RetryExhaustedMessage(description, maxRetries))
    ensures FirstSuccess(fetch, maxRetries).Some? ==>
              var k := FirstSuccess(fetch, maxRetries).value;
              calls == k + 1 && sleeps == Backoffs(k) && r == fetch(k)
    ensures maxRetries > 0 && FirstSuccess(fetch, maxRetries).None? ==>
              calls == maxRetries && sleeps == Backoffs(maxRetries - 1) && r == fetch(maxRetries - 1) && r.Failure?
    ensures r == RetryOutcome(fetch, description, maxRetries) && calls == RetryCalls(fetch, maxRetries)
  {
    var retryCount := 0;
    var lastError: Option<string> := None;
    calls := 0;
    sleeps := [];
    while retryCount < maxRetries
      invariant 0 <= retryCount && (maxRetries > 0 ==> retryCount <= maxRetries)
      invariant maxRetries <= 0 ==> retryCount == 0
      invariant calls == retryCount
      invariant forall k: nat :: k < retryCount ==> fetch(k).Failure?
      invariant sleeps == Backoffs(if retryCount < maxRetries || retryCount == 0 then retryCount else retryCount - 1)
      invariant retryCount == 0 ==> lastError.None?
      invariant retryCount > 0 ==> lastError == Some(fetch(retryCount - 1).error)
    {
      var attempt := fetch(retryCount);
      calls := calls + 1;
      if attempt.Success? {
        FirstSuccessAt(fetch, maxRetries, retryCount);
        return attempt, calls, sleeps;
      }
      retryCount := retryCount + 1;
      lastError := Some(attempt.error);
      if retryCount < maxRetries {
        sleeps := sleeps + [Pow2(retryCount - 1)];
      }
    }
    if lastError.Some? {
      r := Failure(lastError.value);
    } else {
      r := Failure(RetryExhaustedMessage(description, maxRetries));
    }
  }

  lemma FirstSuccessAt(fetch: nat -> Result<Json, string>, n: int, k: nat)
    requires k < n && fetch(k).Success?
    requires forall j: nat :: j < k ==> fetch(j).Failure?
    ensures FirstSuccess(fetch, n) == Some(k)
  {
  }

  /** With a fetch that always fails: exactly maxRetries calls, one sleep
      fewer, and the last error is raised. */
  lemma AlwaysFailing(fetch: nat -> Result<Json, string>, description: string, maxRetries: int)
    requires forall k: nat :: fetch(k).Failure?
    requires maxRetries > 0
    ensures RetryCalls(fetch, maxRetries) == maxRetries
    ensures RetryOutcome(fetch, description, maxRetries) == fetch(maxRetries - 1)
  {
  }

  /** A fetch that succeeds first on attempt k is called k+1 times and its
      value is returned unchanged. */
  lemma SucceedsAt(fetch: nat -> Result<Json, string>, description: string, maxRetries: int, k: nat)
    requires k < maxRetries && fetch(k).Success?
    requires forall j: nat :: j < k ==> fetch(j).Failure?
    ensures RetryCalls(fetch, maxRetries) == k + 1
    ensures RetryOutcome(fetch, description, maxRetries) == fetch(k)
  {
    FirstSuccessAt(fetch, maxRetries, k);
  }

  // Submission and shutdown

  /** The consecutive heights lo, lo+1, ..., hi-1. */
  function Heights(lo: int, hi: int): (r: seq<int>)
    requires lo <= hi
    ensures |r| == hi - lo
    ensures forall i :: 0 <= i < |r| ==> r[i] == lo + i
  {
    seq(hi - lo, i requires 0 <= i < hi - lo => lo + i)
  }

  /** The first height in [h, end] at which an interrupt arrives, or end+1. */
  function FirstInterrupt(h: int, end: int, interrupts: set<int>): (r: int)
    requires h <= end + 1
    ensures h <= r <= end + 1
    ensures forall k :: h <= k < r ==> k !in interrupts
    ensures r <= end ==> r in interrupts
    decreases end + 1 - h
  {
    if h > end then h
    else if h in interrupts then h
    else FirstInterrupt(h + 1, end, interrupts)
  }

  /** The height at which the submission loop stops: at once when the flag is
      already set, else at the first interrupt. */
  function StopHeight(flagSet: bool, start: int, end: int, interrupts: set<int>): (r: int)
    requires start <= end + 1
    ensures start <= r <= end + 1
    ensures flagSet ==> r == start
    ensures !flagSet ==> (forall k :: start <= k < r ==> k !in interrupts) && (r <= end ==> r in interrupts)
  {
    if flagSet then start else FirstInterrupt(start, end, interrupts)
  }

  /** What happened to one block. */
  datatype BlockOutcome =
    | HashLookupFailed(reason: string)
    | FetchFailed(reason: string)
    | NormalizationFailed(error: Brc20Comparator.NormError)
    | Compared(blockHash: string, verdict: BaseComparator.Verdict)

  function FetchDescription(side: string, p: Proto.Protocol, height: int): string {
    side + " " + Proto.Name(p) + " block " + Text.IntToString(height)
  }

  /** The receipts client.fetch_block_receipts returns on each attempt. */
  function ReceiptAttempts(responses: nat -> Result<Json, string>): nat -> Result<Json, string> {
    (k: nat) => ApiClient.FetchBlockReceipts(responses(k))
  }

  /** Fetch both receipts (primary first, each with retries) and compare. */
  function CompareResult(
    cfg: Config, height: int, hash: string,
    primaryResponses: nat -> Result<Json, string>, secondaryResponses: nat -> Result<Json, string>)
    : BlockOutcome
  {
    match RetryOutcome(ReceiptAttempts(primaryResponses), FetchDescription("primary", cfg.protocol, height), MaxRetries)
    case Failure(e) => FetchFailed(e)
    case Success(primaryData) =>
      match RetryOutcome(ReceiptAttempts(secondaryResponses), FetchDescription("secondary", cfg.protocol, height), MaxRetries)
      case Failure(e) => FetchFailed(e)
      case Success(secondaryData) =>
        match Registry.Compare(cfg.comparator, primaryData, secondaryData)
        case Failure(e) => NormalizationFailed(e)
        case Success(v) => Compared(hash, v)
  }

  /** A verdict is filed under the block's hash, and only the BRC20
      comparator can fail to normalize. */
  lemma CompareResultShape(
    cfg: Config, height: int, hash: string,
    primaryResponses: nat -> Result<Json, string>, secondaryResponses: nat -> Result<Json, string>)
    ensures var o := CompareResult(cfg, height, hash, primaryResponses, secondaryResponses);
      && (o.Compared? ==> o.blockHash == hash)
      && (cfg.comparator == Registry.OrdinalKind ==> !o.NormalizationFailed?)
  {
  }

  /** The receipt requests made for a block whose hash was found: the
      secondary is asked only once the primary has answered. */
  function ReceiptCalls(
    cfg: Config, height: int,
    primaryResponses: nat -> Result<Json, string>, secondaryResponses: nat -> Result<Json, string>)
    : nat
  {
    var p := ReceiptAttempts(primaryResponses);
    RetryCalls(p, MaxRetries) +
      (if RetryOutcome(p, FetchDescription("primary", cfg.protocol, height), MaxRetries).Success?
       then RetryCalls(ReceiptAttempts(secondaryResponses), MaxRetries) else 0)
  }

  /** What _process_block does with one block, given the hash response and
      the per-attempt receipt responses of both endpoints. */
  function BlockResult(
    cfg: Config, height: int, hashResponse: Result<string, string>,
    primaryResponses: nat -> Result<Json, string>, secondaryResponses: nat -> Result<Json, string>)
    : (o: BlockOutcome)
    ensures hashResponse.Failure? <==> o.HashLookupFailed?
    ensures hashResponse.Failure? ==> o == HashLookupFailed(hashResponse.error)
    ensures o.Compared? ==> o.blockHash == ApiClient.BlockHash(hashResponse.value)
  {
    match hashResponse
    case Failure(e) => HashLookupFailed(e)
    case Success(text) =>
      CompareResultShape(cfg, height, ApiClient.BlockHash(text), primaryResponses, secondaryResponses);
      CompareResult(cfg, height, ApiClient.BlockHash(text), primaryResponses, secondaryResponses)
  }

  /** The body of _process_block once the hash is known. A failed fetch
      ends the block; the comparison draws the verdict. */
  method FetchAndCompare(
    cfg: Config, height: int, hash: string,
    primaryResponses: nat -> Result<Json, string>, secondaryResponses: nat -> Result<Json, string>)
    returns (outcome: BlockOutcome, receiptCalls: nat)
    ensures outcome == CompareResult(cfg, height, hash, primaryResponses, secondaryResponses)
    ensures receiptCalls == ReceiptCalls(cfg, height, primaryResponses, secondaryResponses)
  {
    var primaryData, primaryCalls, _ :=
      FetchWithRetry(ReceiptAttempts(primaryResponses), FetchDescription("primary", cfg.protocol, height), MaxRetries);
    receiptCalls := primaryCalls;
    if primaryData.Failure? {
      return FetchFailed(primaryData.error), receiptCalls;
    }
    var secondaryData, secondaryCalls, _ :=
      FetchWithRetry(ReceiptAttempts(secondaryResponses), FetchDescription("secondary", cfg.protocol, height), MaxRetries);
    receiptCalls := receiptCalls + secondaryCalls;
    if secondaryData.Failure? {
      return FetchFailed(secondaryData.error), receiptCalls;
    }
    var verdict := Registry.Compare(cfg.comparator, primaryData.value, secondaryData.value);
    if verdict.Failure? {
      outcome := NormalizationFailed(verdict.error);
    } else {
      outcome := Compared(hash, verdict.value);
    }
  }

  /** The receipt requests made for a block: none when the hash lookup failed. */
  function BlockReceiptCalls(
    cfg: Config, height: int, hashResponse: Result<string, string>,
    primaryResponses: nat -> Result<Json, string>, secondaryResponses: nat -> Result<Json, string>)
    : nat
  {
    if hashResponse.Failure? then 0 else ReceiptCalls(cfg, height, primaryResponses, secondaryResponses)
  }

  /** The try block of _process_block: look the hash up, then fetch and
      compare. */
  method HandleBlock(
    cfg: Config, height: int, hashResponse: Result<string, string>,
    primaryResponses: nat -> Result<Json, string>, secondaryResponses: nat -> Result<Json, string>)
    returns (outcome: BlockOutcome, receiptCalls: nat)
    ensures outcome == BlockResult(cfg, height, hashResponse, primaryResponses, secondaryResponses)
    ensures receiptCalls == BlockReceiptCalls(cfg, height, hashResponse, primaryResponses, secondaryResponses)
  {
    if hashResponse.Failure? {
      return HashLookupFailed(hashResponse.error), 0;
    }
    var hash := ApiClient.BlockHash(hashResponse.value);
    outcome, receiptCalls := FetchAndCompare(cfg, height, hash, primaryResponses, secondaryResponses);
  }

  /** The comparator object, past __init__: its configuration, the shutdown
      event, the flag the signal handler keeps, and the progress counter. */
  class Comparator {
    const config: Config
    var shutdownEvent: bool
    var isShutdownHandled: bool
    var progress: nat

    ghost predicate Valid()
      reads this
    {
      && config.startBlock <= config.endBlock
      && (isShutdownHandled ==> shutdownEvent)
    }

    constructor(cfg: Config)
      requires cfg.startBlock <= cfg.endBlock
      ensures Valid()
      ensures config == cfg && !shutdownEvent && !isShutdownHandled && progress == 0
    {
      config := cfg;
      shutdownEvent := false;
      isShutdownHandled := false;
      progress := 0;
    }

    /** __init__ from the user's arguments and the two node-info responses. */
    static method Create(
      b: Chain.Blockchain, p: Proto.Protocol, primaryEndpoint: string, secondaryEndpoint: string,
      startBlock: Option<int>, endBlock: Option<int>,
      primaryNodeInfo: Result<Json, string>, secondaryNodeInfo: Result<Json, string>)
      returns (r: Result<Comparator, ConfigError>)
      ensures var cfg := ResolveConfig(b, p, primaryEndpoint, secondaryEndpoint, startBlock, endBlock, primaryNodeInfo, secondaryNodeInfo);
        && (r.Success? <==> cfg.Success?)
        && (r.Failure? ==> r.error == cfg.error)
        && (r.Success? ==> fresh(r.value) && r.value.Valid() && r.value.config == cfg.value
                           && !r.value.shutdownEvent && r.value.progress == 0)
    {
      var cfg := ResolveConfig(b, p, primaryEndpoint, secondaryEndpoint, startBlock, endBlock, primaryNodeInfo, secondaryNodeInfo);
      if cfg.Failure? {
        return Failure(cfg.error);
      }
      var c := new Comparator(cfg.value);
      return Success(c);
    }

    /** signal_handler: the first interrupt sets the event; later ones do
        nothing. */
    method SignalHandler()
      modifies this
      requires Valid()
      ensures Valid()
      ensures shutdownEvent && isShutdownHandled
      ensures old(isShutdownHandled) ==> shutdownEvent == old(shutdownEvent)
      ensures progress == old(progress)
    {
      if isShutdownHandled {
        return;
      }
      isShutdownHandled := true;
      shutdownEvent := true;
    }

    /** The submission loop of run. An interrupt at a height in `interrupts`
        arrives just before that height's shutdown check. Returns the
        heights handed to the pool, in order. */
    method Run(interrupts: set<int>) returns (submitted: seq<int>)
      modifies this
      requires Valid()
      ensures Valid()
      ensures var stop := StopHeight(old(shutdownEvent), config.startBlock, config.endBlock, interrupts);
        && submitted == Heights(config.startBlock, stop)
        && (shutdownEvent <==> stop <= config.endBlock)
        && (isShutdownHandled <==> old(isShutdownHandled) || (stop <= config.endBlock && stop in interrupts))
      ensures old(shutdownEvent) ==> shutdownEvent
      ensures progress == old(progress)
    {
      var start := config.startBlock;
      var end := config.endBlock;
      ghost var stop := StopHeight(shutdownEvent, start, end, interrupts);
      ghost var handled0 := isShutdownHandled;
      submitted := [];
      var height := start;
      while height <= end
        invariant start <= height <= stop
        invariant submitted == Heights(start, height)
        invariant Valid()
        invariant height > start ==> !shutdownEvent && isShutdownHandled == handled0
        invariant height == start ==> shutdownEvent == old(shutdownEvent) && isShutdownHandled == handled0
        invariant progress == old(progress)
      {
        if height in interrupts {
          SignalHandler();
        }
        if shutdownEvent {
          break;
        }
        submitted := submitted + [height];
        height := height + 1;
      }
    }

    /** The finally clause of _process_block: one more block done, unless
        shutdown has been requested. */
    method CountProcessed()
      modifies this
      requires Valid()
      ensures Valid()
      ensures shutdownEvent == old(shutdownEvent) && isShutdownHandled == old(isShutdownHandled)
      ensures progress == old(progress) + (if shutdownEvent then 0 else 1)
    {
      if !shutdownEvent {
        progress := progress + 1;
      }
    }

    /** _process_block. The hash comes from the primary endpoint; a failed
        lookup skips both fetches and the comparison. The progress counter
        moves by one on every path unless shutdown is set. Returns what
        happened and how many receipt requests were made. */
    method ProcessBlock(
      height: int, hashResponse: Result<string, string>,
      primaryResponses: nat -> Result<Json, string>, secondaryResponses: nat -> Result<Json, string>)
      returns (outcome: BlockOutcome, receiptCalls: nat)
      modifies this
      requires Valid()
      ensures Valid()
      ensures shutdownEvent == old(shutdownEvent) && isShutdownHandled == old(isShutdownHandled)
      ensures progress == old(progress) + (if shutdownEvent then 0 else 1)
      ensures outcome == BlockResult(config, height, hashResponse, primaryResponses, secondaryResponses)
      ensures receiptCalls == BlockReceiptCalls(config, height, hashResponse, primaryResponses, secondaryResponses)
    {
      outcome, receiptCalls := HandleBlock(config, height, hashResponse, primaryResponses, secondaryResponses);
      CountProcessed();
    }
  }
}
