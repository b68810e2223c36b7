/** Winner lookup for a finished round (lib/upstream/util.js): one attempt
    asks the wallet node who forged the block at a height, over either the
    Bitcoin-like JSON-RPC protocol or the Burst-like query-string protocol,
    and turns every failure into "no answer"; the retry loop repeats the
    attempt until it gets an answer or runs out of retries.

    The node is an oracle: `node(i)` is what it would answer, during the
    i-th attempt (counting from 0), to each call an attempt can make. */
module UpstreamUtil {
  import opened JsValues

  /** Retries after the first attempt; so at most 25 attempts in all. */
  const MaxRetries: nat := 24
  const MaxAttempts: nat := MaxRetries + 1
  /** The wait before each retry, in seconds. */
  const RetryDelaySeconds: nat := 5
  const DefaultEndpoint: string := "burst"

  datatype RpcParam = ParamInt(n: int) | ParamString(s: string) | ParamNull
  datatype QueryValue = QueryInt(n: int) | QueryString(s: string)

  /** A call made to the node: a JSON-RPC post, or a GET of `path` with a query. */
  datatype Request =
    | BitcoinRpc(url: string, rpcMethod: string, params: seq<RpcParam>)
    | BurstGet(path: string, query: map<string, QueryValue>)

  /** What one call yields: an error (transport, status or parse), a JSON
      `null`/missing result, or a parsed body. */
  datatype Reply<T> = Failure | NullResult | Result(body: T)

  /** A field of a parsed JSON object. */
  datatype Field<T> = Missing | NullField | Present(value: T)

  /** JSONbig gives an id either as a (big) number or as a string. */
  datatype PlotterId = NumericId(n: nat) | TextId(s: string)

  datatype BitcoinBlock = BitcoinBlock(plotterId: Field<PlotterId>)
  datatype BurstBlock = BurstBlock(generator: Field<string>)

  /** The node's answers, in one attempt, to `getblockhash`, to `getblock`
      and to the Burst `getBlock` query. */
  datatype NodeAnswers = NodeAnswers(
    blockHash: Reply<string>,
    bitcoinBlock: Reply<BitcoinBlock>,
    burstBlock: Reply<BurstBlock>)

  /** The arguments of `getBlockWinnerAccountId`; `endpoint` absent is `undefined`. */
  datatype WinnerQuery = WinnerQuery(url: string, isBitcoinLike: bool, height: nat, endpoint: Option<string>)

  /** One attempt's outcome and the calls it made, in order. */
  datatype Attempt = Attempt(winner: Option<string>, calls: seq<Request>)

  /** How the retry loop ended: its answer and how many attempts it made. */
  datatype Resolution = Resolution(winner: Option<string>, attempts: nat)

  /** The query of `doBurstApiCall`: `requestType` first, then every key of
      `params` in order, each assignment overwriting an earlier one. */
  function QueryOf(requestType: string, params: seq<(string, QueryValue)>): map<string, QueryValue> {
    if params == [] then map["requestType" := QueryString(requestType)]
    else
      var last := params[|params| - 1];
      QueryOf(requestType, params[..|params| - 1])[last.0 := last.1]
  }

  /** The query's keys are `requestType` and the keys of `params`. */
  lemma {:induction false} QueryOfKeys(requestType: string, params: seq<(string, QueryValue)>, k: string)
    ensures k in QueryOf(requestType, params) <==> k == "requestType" || exists i :: 0 <= i < |params| && params[i].0 == k
  {
    if params != [] {
      var prefix := params[..|params| - 1];
      QueryOfKeys(requestType, prefix, k);
      if exists i :: 0 <= i < |params| && params[i].0 == k {
        var i :| 0 <= i < |params| && params[i].0 == k;
        if i < |prefix| { assert prefix[i].0 == k; }
      }
    }
  }

  /** A key of `params` carries its last value in `params`: a key named
      `requestType` overwrites the method. */
  lemma {:induction false} QueryOfParamValue(requestType: string, params: seq<(string, QueryValue)>, i: nat)
    requires i < |params|
    requires forall j :: i < j < |params| ==> params[j].0 != params[i].0
    ensures params[i].0 in QueryOf(requestType, params) && QueryOf(requestType, params)[params[i].0] == params[i].1
  {
    if i < |params| - 1 {
      var prefix := params[..|params| - 1];
      QueryOfParamValue(requestType, prefix, i);
    }
  }

  /** Unless a key of `params` overwrites it, `requestType` is the method. */
  lemma {:induction false} QueryOfRequestType(requestType: string, params: seq<(string, QueryValue)>)
    requires forall i :: 0 <= i < |params| ==> params[i].0 != "requestType"
    ensures "requestType" in QueryOf(requestType, params)
    ensures QueryOf(requestType, params)["requestType"] == QueryString(requestType)
  {
    if params != [] {
      QueryOfRequestType(requestType, params[..|params| - 1]);
    }
  }

  function EndpointOrDefault(endpoint: Option<string>): string {
    if endpoint.Some? then endpoint.value else DefaultEndpoint
  }

  /** `doBurstApiCall`: copies the keys of `params` over a query that starts
      with `requestType`, and requests `url/endpoint` with it. */
  method DoBurstApiCall(url: string, requestType: string, params: seq<(string, QueryValue)>, endpoint: Option<string>)
    returns (request: Request)
    ensures request == BurstGet(url + "/" + EndpointOrDefault(endpoint), QueryOf(requestType, params))
    ensures endpoint.None? ==> request.path == url + "/burst"
  {
    var queryParams := map["requestType" := QueryString(requestType)];
    for k := 0 to |params|
      invariant queryParams == QueryOf(requestType, params[..k])
    {
      assert params[..k + 1][..k] == params[..k];
      queryParams := queryParams[params[k].0 := params[k].1];
    }
    assert params[..|params|] == params;
    request := BurstGet(url + "/" + EndpointOrDefault(endpoint), queryParams);
  }

  function HashParam(blockHash: Reply<string>): RpcParam {
    if blockHash.Result? then ParamString(blockHash.body) else ParamNull
  }

  /** `plotterId.toString()`. */
  function PlotterIdText(id: PlotterId): string {
    match id
    case NumericId(n) => Decimal(n)
    case TextId(s) => s
  }

  /** Lines 42-46: `getblockhash`, then `getblock` on the hash it answered;
      the winner is the block's `plotterId` rendered as text. A failed call
      or a null block or field throws, and the catch makes that null. */
  function BitcoinAttempt(q: WinnerQuery, node: NodeAnswers): (a: Attempt)
    ensures |a.calls| >= 1 && a.calls[0] == BitcoinRpc(q.url, "getblockhash", [ParamInt(q.height)])
    ensures node.blockHash.Failure? <==> |a.calls| == 1
    ensures !node.blockHash.Failure? ==> a.calls == a.calls[..1] + [BitcoinRpc(q.url, "getblock", [HashParam(node.blockHash)])]
    ensures a.winner.Some? <==> !node.blockHash.Failure? && node.bitcoinBlock.Result? && node.bitcoinBlock.body.plotterId.Present?
    ensures a.winner.Some? ==> a.winner.value == PlotterIdText(node.bitcoinBlock.body.plotterId.value)
  {
    var hashCall := BitcoinRpc(q.url, "getblockhash", [ParamInt(q.height)]);
    if node.blockHash.Failure? then Attempt(None, [hashCall])
    else
      var blockCall := BitcoinRpc(q.url, "getblock", [HashParam(node.blockHash)]);
      var block := node.bitcoinBlock;
      // `block.plotterId.toString()` throws on a null block and on a missing or null field
      var winner := if block.Result? && block.body.plotterId.Present? then Some(PlotterIdText(block.body.plotterId.value)) else None;
      Attempt(winner, [hashCall, blockCall])
  }

  /** Lines 47-55: one `getBlock` call at the height; the winner is the
      block's `generator` when it is truthy. A failed call or a null block
      throws, and the catch makes that null. */
  function BurstAttempt(q: WinnerQuery, node: NodeAnswers): (a: Attempt)
    ensures a.calls == [BurstGet(q.url + "/" + EndpointOrDefault(q.endpoint), QueryOf("getBlock", [("height", QueryInt(q.height))]))]
    ensures a.winner.Some? <==> node.burstBlock.Result? && node.burstBlock.body.generator.Present? && node.burstBlock.body.generator.value != ""
    ensures a.winner.Some? ==> a.winner.value == node.burstBlock.body.generator.value
  {
    var call := BurstGet(q.url + "/" + EndpointOrDefault(q.endpoint), QueryOf("getBlock", [("height", QueryInt(q.height))]));
    var block := node.burstBlock;
    // `block.generator` throws on a null block; a falsy generator means "no winner yet"
    var winner := if block.Result? && block.body.generator.Present? && block.body.generator.value != ""
                  then Some(block.body.generator.value) else None;
    Attempt(winner, [call])
  }

  /** `getBlockWinnerAccountIdOrNull`: one attempt over the protocol the
      flag selects; a failed or null reply is caught and becomes null. */
  function WinnerAttempt(q: WinnerQuery, node: NodeAnswers): (a: Attempt)
    ensures 1 <= |a.calls| <= 2
    ensures a.calls[0].BitcoinRpc? <==> q.isBitcoinLike
    ensures q.isBitcoinLike && (node.blockHash.Failure? || !node.bitcoinBlock.Result?) ==> a.winner.None?
    ensures !q.isBitcoinLike && !node.burstBlock.Result? ==> a.winner.None?
  {
    if q.isBitcoinLike then BitcoinAttempt(q, node) else BurstAttempt(q, node)
  }

  function WinnerAt(q: WinnerQuery, node: nat -> NodeAnswers, i: nat): Option<string> {
    WinnerAttempt(q, node(i)).winner
  }

  /** The retry loop from attempt `i` on. */
  function ResolveFrom(q: WinnerQuery, node: nat -> NodeAnswers, i: nat): (r: Resolution)
    requires i < MaxAttempts
    ensures i < r.attempts <= MaxAttempts
    ensures r.winner == WinnerAt(q, node, r.attempts - 1)
    ensures forall j :: i <= j < r.attempts - 1 ==> WinnerAt(q, node, j).None?
    ensures r.winner.None? ==> r.attempts == MaxAttempts
    decreases MaxAttempts - i
  {
    var winner := WinnerAt(q, node, i);
    if winner.Some? || i == MaxAttempts - 1 then Resolution(winner, i + 1)
    else ResolveFrom(q, node, i + 1)
  }

  function Resolve(q: WinnerQuery, node: nat -> NodeAnswers): Resolution {
    ResolveFrom(q, node, 0)
  }

  /** The loop's answer is absent exactly when all 25 attempts were. */
  lemma ResolveNoneIff(q: WinnerQuery, node: nat -> NodeAnswers)
    ensures Resolve(q, node).winner.None? <==> forall i :: 0 <= i < MaxAttempts ==> WinnerAt(q, node, i).None?
  {
    var r := Resolve(q, node);
    if r.winner.None? {
      forall i | 0 <= i < MaxAttempts ensures WinnerAt(q, node, i).None? {
        if i < r.attempts - 1 { } else { assert i == r.attempts - 1; }
      }
    }
  }

  /** The loop looks at no answer after the first one it gets: two nodes that
      agree on the attempts the loop made give the same resolution. */
  lemma {:induction false} ResolveFromUsesOnlyAttemptsMade(q: WinnerQuery, node: nat -> NodeAnswers, other: nat -> NodeAnswers, i: nat, n: nat)
    requires i < MaxAttempts && ResolveFrom(q, node, i).attempts <= n
    requires forall j :: i <= j < n ==> other(j) == node(j)
    ensures ResolveFrom(q, other, i) == ResolveFrom(q, node, i)
    decreases MaxAttempts - i
  {
    assert other(i) == node(i);
    var winner := WinnerAt(q, node, i);
    assert WinnerAt(q, other, i) == winner;
    if winner.None? && i < MaxAttempts - 1 {
      ResolveFromUsesOnlyAttemptsMade(q, node, other, i + 1, n);
    }
  }

  lemma ResolveFromContinues(q: WinnerQuery, node: nat -> NodeAnswers, i: nat)
    requires i < MaxAttempts - 1 && WinnerAt(q, node, i).None?
    ensures ResolveFrom(q, node, i) == ResolveFrom(q, node, i + 1)
  {
  }

  lemma ResolveFromStops(q: WinnerQuery, node: nat -> NodeAnswers, i: nat)
    requires i < MaxAttempts && (WinnerAt(q, node, i).Some? || i == MaxAttempts - 1)
    ensures ResolveFrom(q, node, i) == Resolution(WinnerAt(q, node, i), i + 1)
  {
  }

  /** `getBlockWinnerAccountId`: the first attempt, then up to 24 retries,
      each after a wait, while the answer is null. */
  method GetBlockWinnerAccountId(q: WinnerQuery, node: nat -> NodeAnswers)
    returns (accountId: Option<string>, attempts: nat, waits: nat)
    ensures Resolution(accountId, attempts) == Resolve(q, node)
    ensures 1 <= attempts <= MaxAttempts && waits == attempts - 1 && waits <= MaxRetries
    ensures accountId == WinnerAt(q, node, attempts - 1)
    ensures forall i :: 0 <= i < attempts - 1 ==> WinnerAt(q, node, i).None?
  {
    accountId := WinnerAttempt(q, node(0)).winner;
    var retries := 0;
    waits := 0;
    while accountId.None? && retries < MaxRetries
      invariant retries <= MaxRetries && waits == retries
      invariant accountId == WinnerAt(q, node, retries)
      invariant Resolve(q, node) == ResolveFrom(q, node, retries)
    {
      ResolveFromContinues(q, node, retries);
      waits := waits + 1;  // the five-second wait before a retry
      accountId := WinnerAttempt(q, node(retries + 1)).winner;
      retries := retries + 1;
    }
    ResolveFromStops(q, node, retries);
    attempts := retries + 1;
  }
}
