/**
  The provider client of app/whale_service.py: the endpoint URL, the
  `alchemy_getAssetTransfers` request, and the loop that turns the provider's raw
  transfer records into `WhaleTransfer`s. The HTTP exchange itself is a parameter:
  a function from the request sent to the provider's answer.
*/
module WhaleService {
  import opened Wrappers
  import opened Numerals
  import opened Schemas

  const AlchemyBaseUrl: string := "https://eth-mainnet.g.alchemy.com/v2/"

  /** Transfers below this many units of the asset are not whales; fixed, whatever the caller asks for. */
  const WhaleThreshold: real := 100.0

  /** The exceptions that escape `fetch_whale_transfers_from_provider`. */
  datatype FetchError =
    | MissingApiKey                      // RuntimeError: no API key configured
    | MalformedBlockNumber(text: string) // ValueError from int(blockNum, 16)
    | NullField                          // ValidationError: a JSON null where a str is required

  /** The endpoint, or the error raised when the key is unset or empty. */
  function AlchemyUrl(apiKey: Option<string>): (r: Result<string, FetchError>)
    ensures r.Success? <==> apiKey.Some? && apiKey.value != ""
    ensures r.Failure? ==> r.error == MissingApiKey
  {
    match apiKey
    case Some(key) => if key == "" then Failure(MissingApiKey) else Success(AlchemyBaseUrl + key)
    case None => Failure(MissingApiKey)
  }

  /** A successful URL is the fixed endpoint followed by exactly the key, so different keys give different URLs. */
  lemma AlchemyUrlCarriesKey(key: string, other: string)
    requires key != "" && other != ""
    ensures var url := AlchemyUrl(Some(key));
      && url.Success?
      && |url.value| == |AlchemyBaseUrl| + |key|
      && url.value[..|AlchemyBaseUrl|] == AlchemyBaseUrl
      && url.value[|AlchemyBaseUrl|..] == key
    ensures key != other ==> AlchemyUrl(Some(key)) != AlchemyUrl(Some(other))
  {
    var u, v := AlchemyUrl(Some(key)).value, AlchemyUrl(Some(other)).value;
    assert u[|AlchemyBaseUrl|..] == key;
    assert v[|AlchemyBaseUrl|..] == other;
  }

  /** The JSON-RPC body posted to the provider, with the URL it is posted to. */
  datatype Request = Request(
    url: string,
    jsonrpc: string,
    id: int,
    rpcMethod: string,
    fromBlock: string,
    toBlock: string,
    category: seq<string>,
    withMetadata: bool,
    maxCount: string)

  /** The request for the native-asset transfers of the whole chain, at most `limit` of them. */
  function BuildRequest(url: string, limit: int): (r: Request)
    ensures r.url == url
    ensures r.jsonrpc == "2.0" && r.id == 1 && r.rpcMethod == "alchemy_getAssetTransfers"
    ensures r.maxCount == Hex(limit) && IntFromHex(r.maxCount) == Some(limit)
    ensures r.fromBlock == "0x0" && r.toBlock == "latest" && r.category == ["external"] && r.withMetadata
  {
    HexRoundTrip(limit);
    Request(url, "2.0", 1, "alchemy_getAssetTransfers", "0x0", "latest", ["external"], true, Hex(limit))
  }

  /** A string-valued key of a raw record: missing, JSON null, or a string. */
  datatype Field = Absent | Null | Text(s: string)

  /** `item.get(key, default)`: the default only for a missing key; a JSON null reads as None. */
  function Get(f: Field, default: string): Option<string> {
    match f
    case Absent => Some(default)
    case Null => None
    case Text(s) => Some(s)
  }

  /**
    One record of the provider's `result.transfers` list. `value` is the JSON number
    (None when missing or null); `fromAddr` and `toAddr` are the keys `from` and `to`.
  */
  datatype RawTransfer = RawTransfer(
    value: Option<real>,
    blockNum: Field,
    hash: Field,
    fromAddr: Field,
    toAddr: Field,
    asset: Field)

  /** What the provider answered: a transport or HTTP-status error, or the raw records. */
  datatype ProviderResponse = HttpError | Delivered(transfers: seq<RawTransfer>)

  /** Python truthiness of a JSON number: None and zero are false. */
  predicate IsTruthy(value: Option<real>) {
    value.Some? && value.value != 0.0
  }

  /** `int(blockNum, 16) if blockNum else None`. */
  function BlockNumber(f: Field): Result<Option<int>, FetchError> {
    match f
    case Text(s) =>
      if s == "" then Success(None)
      else (
        match IntFromHex(s)
        case Some(n) => Success(Some(n))
        case None => Failure(MalformedBlockNumber(s)))
    case Absent => Success(None)
    case Null => Success(None)
  }

  /** What one pass of the loop body does with one record. */
  datatype Step = Skip | Keep(transfer: WhaleTransfer) | Raise(error: FetchError)

  function Normalize(item: RawTransfer, now: Timestamp): Step {
    if !IsTruthy(item.value) then Skip
    else if item.value.value < WhaleThreshold then Skip
    else
      match BlockNumber(item.blockNum)
      case Failure(e) => Raise(e)
      case Success(block) =>
        var hash, sender, recipient, symbol :=
          Get(item.hash, ""), Get(item.fromAddr, ""), Get(item.toAddr, ""), Get(item.asset, "ETH");
        if hash.None? || sender.None? || recipient.None? || symbol.None? then Raise(NullField)
        else
          Keep(WhaleTransfer(hash.value, sender.value, recipient.value, symbol.value, None,
                             item.value.value, None, "eth", block, None, Some(now)))
  }

  /**
    The list the loop builds from `raw`, or the exception that stops it: records are
    taken in order, skipped ones contribute nothing, and the first record whose
    conversion raises ends the whole call.
  */
  function ConvertTransfers(raw: seq<RawTransfer>, now: Timestamp): Result<seq<WhaleTransfer>, FetchError>
    decreases |raw|
  {
    if raw == [] then Success([])
    else
      match ConvertTransfers(raw[..|raw| - 1], now)
      case Failure(e) => Failure(e)
      case Success(done) =>
        match Normalize(raw[|raw| - 1], now)
        case Skip => Success(done)
        case Keep(t) => Success(done + [t])
        case Raise(e) => Failure(e)
  }

  /** Converting a concatenation: the first part's error wins, then the second part's; otherwise the lists concatenate. */
  lemma {:induction false} ConvertAppend(a: seq<RawTransfer>, b: seq<RawTransfer>, now: Timestamp)
    ensures ConvertTransfers(a + b, now) ==
      match ConvertTransfers(a, now)
      case Failure(e) => Failure(e)
      case Success(ta) =>
        match ConvertTransfers(b, now)
        case Failure(e) => Failure(e)
        case Success(tb) => Success(ta + tb)
    decreases |b|
  {
    if b == [] {
      assert a + b == a;
      if ConvertTransfers(a, now).Success? {
        var ta := ConvertTransfers(a, now).value;
        assert ta + [] == ta;
      }
    } else {
      var init, last := b[..|b| - 1], b[|b| - 1];
      ConvertAppend(a, init, now);
      assert (a + b)[..|a + b| - 1] == a + init;
      assert (a + b)[|a + b| - 1] == last;
      match ConvertTransfers(a, now)
      case Failure(e) =>
      case Success(ta) =>
        match ConvertTransfers(init, now)
        case Failure(e) =>
        case Success(ti) =>
          match Normalize(last, now)
          case Skip =>
          case Raise(e) =>
          case Keep(t) => assert ta + (ti + [t]) == (ta + ti) + [t];
    }
  }

  /** Once a prefix raises, the whole input raises the same error. */
  lemma ConvertFailureIsFinal(raw: seq<RawTransfer>, k: nat, now: Timestamp)
    requires k <= |raw| && ConvertTransfers(raw[..k], now).Failure?
    ensures ConvertTransfers(raw, now) == ConvertTransfers(raw[..k], now)
  {
    assert raw == raw[..k] + raw[k..];
    ConvertAppend(raw[..k], raw[k..], now);
  }

  /** A record is skipped exactly when its value is missing, zero or below the threshold; it raises exactly when it passes those checks but its block number is malformed or a required string is null. */
  lemma NormalizeDecision(item: RawTransfer, now: Timestamp)
    ensures Normalize(item, now).Skip? <==> !IsTruthy(item.value) || item.value.value < WhaleThreshold
    ensures Normalize(item, now).Raise? <==>
      && IsTruthy(item.value) && item.value.value >= WhaleThreshold
      && (|| BlockNumber(item.blockNum).Failure?
          || item.hash == Null || item.fromAddr == Null || item.toAddr == Null || item.asset == Null)
  {
  }

  /** The fields of a kept record: constants, the value itself, and each string looked up with its default. */
  lemma KeptTransferFields(item: RawTransfer, now: Timestamp)
    requires Normalize(item, now).Keep?
    ensures var t := Normalize(item, now).transfer;
      && item.value == Some(t.amount) && t.amount >= WhaleThreshold
      && t.chain == "eth" && t.tokenAddress == None && t.usdValue == None && t.timestamp == None
      && t.observedAt == Some(now)
      && (item.hash == Text(t.txHash) || (item.hash == Absent && t.txHash == ""))
      && (item.fromAddr == Text(t.fromAddress) || (item.fromAddr == Absent && t.fromAddress == ""))
      && (item.toAddr == Text(t.toAddress) || (item.toAddr == Absent && t.toAddress == ""))
      && (item.asset == Text(t.tokenSymbol) || (item.asset == Absent && t.tokenSymbol == "ETH"))
      && (if item.blockNum.Text? && item.blockNum.s != ""
          then t.blockNumber.Some? && IntFromHex(item.blockNum.s) == t.blockNumber
          else t.blockNumber == None)
  {
  }

  /** A skipped record contributes nothing, wherever it stands. */
  lemma SkippedRecordContributesNothing(a: seq<RawTransfer>, item: RawTransfer, b: seq<RawTransfer>, now: Timestamp)
    requires !IsTruthy(item.value) || item.value.value < WhaleThreshold
    ensures ConvertTransfers(a + [item] + b, now) == ConvertTransfers(a + b, now)
  {
    assert [item][..0] == [];
    assert ConvertTransfers([item], now) == Success([]);
    ConvertAppend(a, [item], now);
    if ConvertTransfers(a, now).Success? {
      var ta := ConvertTransfers(a, now).value;
      assert ta + [] == ta;
    }
    ConvertAppend(a + [item], b, now);
    ConvertAppend(a, b, now);
  }

  /**
    When the loop finishes, its result is the kept records' transfers in input order:
    the `k`-th output comes from input `idx[k]`, the indices increase, and every kept
    input appears. So the output is never longer than the input.
  */
  lemma {:induction false} ConvertIsOrderedSubsequence(raw: seq<RawTransfer>, now: Timestamp) returns (idx: seq<nat>)
    requires ConvertTransfers(raw, now).Success?
    ensures var ts := ConvertTransfers(raw, now).value;
      && |idx| == |ts| <= |raw|
      && (forall k :: 0 <= k < |idx| ==> idx[k] < |raw| && Normalize(raw[idx[k]], now) == Keep(ts[k]))
      && (forall j, k :: 0 <= j < k < |idx| ==> idx[j] < idx[k])
      && (forall i :: 0 <= i < |raw| && Normalize(raw[i], now).Keep? ==> i in idx)
    decreases |raw|
  {
    if raw == [] {
      idx := [];
    } else {
      var n := |raw| - 1;
      var init := raw[..n];
      var prev := ConvertIsOrderedSubsequence(init, now);
      assert forall i :: 0 <= i < n ==> init[i] == raw[i];
      if Normalize(raw[n], now).Keep? {
        idx := prev + [n];
      } else {
        idx := prev;
      }
    }
  }

  /** Every transfer returned is a whale (at least 100 units) and carries the constant fields. */
  lemma EveryResultIsAWhale(raw: seq<RawTransfer>, now: Timestamp)
    requires ConvertTransfers(raw, now).Success?
    ensures forall t :: t in ConvertTransfers(raw, now).value ==>
      && t.amount >= WhaleThreshold
      && t.chain == "eth" && t.tokenAddress == None && t.usdValue == None && t.timestamp == None
      && t.observedAt == Some(now)
  {
    var ts := ConvertTransfers(raw, now).value;
    var idx := ConvertIsOrderedSubsequence(raw, now);
    forall t | t in ts
      ensures t.amount >= WhaleThreshold && t.chain == "eth" && t.tokenAddress == None
      ensures t.usdValue == None && t.timestamp == None && t.observedAt == Some(now)
    {
      var k :| 0 <= k < |ts| && ts[k] == t;
      KeptTransferFields(raw[idx[k]], now);
    }
  }

  /**
    The call raises exactly when some record raises, and then with the error of the
    first such record.
  */
  lemma {:induction false} ConvertFailsIff(raw: seq<RawTransfer>, now: Timestamp)
    ensures ConvertTransfers(raw, now).Failure? <==>
            exists i :: 0 <= i < |raw| && Normalize(raw[i], now).Raise?
    ensures ConvertTransfers(raw, now).Failure? ==>
            exists i :: && 0 <= i < |raw|
                        && Normalize(raw[i], now) == Raise(ConvertTransfers(raw, now).error)
                        && forall j :: 0 <= j < i ==> !Normalize(raw[j], now).Raise?
    decreases |raw|
  {
    if raw != [] {
      var n := |raw| - 1;
      var init := raw[..n];
      ConvertFailsIff(init, now);
      assert forall i :: 0 <= i < n ==> init[i] == raw[i];
      if ConvertTransfers(init, now).Success? && Normalize(raw[n], now).Raise? {
        assert forall j :: 0 <= j < n ==> !Normalize(raw[j], now).Raise?;
      }
    }
  }

  /** The loop of `fetch_whale_transfers_from_provider` over the provider's records. */
  method ConvertRawTransfers(raw: seq<RawTransfer>, now: Timestamp)
    returns (result: Result<seq<WhaleTransfer>, FetchError>)
    ensures result == ConvertTransfers(raw, now)
  {
    var transfers: seq<WhaleTransfer> := [];
    for i := 0 to |raw|
      invariant ConvertTransfers(raw[..i], now) == Success(transfers)
    {
      assert raw[..i + 1][..i] == raw[..i];
      var item := raw[i];
      if !IsTruthy(item.value) {
        continue;
      }
      var amount := item.value.value;
      if amount < WhaleThreshold {
        continue;
      }
      var block := BlockNumber(item.blockNum);
      if block.Failure? {
        ConvertFailureIsFinal(raw, i + 1, now);
        return Failure(block.error);
      }
      var hash, sender, recipient, symbol :=
        Get(item.hash, ""), Get(item.fromAddr, ""), Get(item.toAddr, ""), Get(item.asset, "ETH");
      if hash.None? || sender.None? || recipient.None? || symbol.None? {
        ConvertFailureIsFinal(raw, i + 1, now);
        return Failure(NullField);
      }
      var wt := WhaleTransfer(hash.value, sender.value, recipient.value, symbol.value, None,
                              amount, None, "eth", block.value, None, Some(now));
      transfers := transfers + [wt];
    }
    assert raw[..|raw|] == raw;
    return Success(transfers);
  }

  /**
    `fetch_whale_transfers_from_provider`. `minUsdValue` is accepted and ignored, as in
    the source; `now` is the clock reading stamped into `observed_at`. `sent` is the
    request handed to the provider, None when none is made.
  */
  method FetchWhaleTransfersFromProvider(
    apiKey: Option<string>, minUsdValue: real, limit: int,
    provider: Request -> ProviderResponse, now: Timestamp)
    returns (result: Result<seq<WhaleTransfer>, FetchError>, sent: Option<Request>)
    ensures AlchemyUrl(apiKey).Failure? ==> result == Failure(MissingApiKey) && sent == None
    ensures AlchemyUrl(apiKey).Success? ==> sent == Some(BuildRequest(AlchemyUrl(apiKey).value, limit))
    ensures sent.Some? && provider(sent.value).HttpError? ==> result == Success([])
    ensures sent.Some? && provider(sent.value).Delivered? ==>
              result == ConvertTransfers(provider(sent.value).transfers, now)
  {
    var url := AlchemyUrl(apiKey);
    if url.Failure? {
      return Failure(MissingApiKey), None;
    }
    var request := BuildRequest(url.value, limit);
    sent := Some(request);
    var response := provider(request);
    if response.HttpError? {
      return Success([]), sent;
    }
    result := ConvertRawTransfers(response.transfers, now);
  }
}
