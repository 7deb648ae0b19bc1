/** The public market-data source of altmarkets_api_order_book_data_source.py:
    the REST helpers (trading pairs, last prices, depth snapshots), the two
    websocket listeners with their frame routing, and the snapshot refresher. */
module OrderBookDataSource {
  import opened Wrappers
  import opened Text
  import opened Json
  import opened AltmarketsConstants
  import opened AltmarketsUtils
  import opened Endpoints
  import opened WsSession

  /** What the order-book message builders are given: the JSON content and
      the `trading_pair` metadata. The builders themselves are not part of
      this model. */
  datatype OrderBookMessage =
    | TradeMessage(content: Json, tradingPair: string)
    | DiffMessage(content: Json, tradingPair: string)
    | SnapshotMessage(content: Json, tradingPair: string)

  /** The outcome of `generic_api_request("get", path)` for each path. */
  type Requester = string -> Result<Json, Raised>

  /** A `get_snapshot` for each pair: the depth body or what it raises. */
  type SnapshotFetch = string -> Result<Json, Raised>

  // ---------------------------------------------------------------------------
  // Frame routing

  /** `list(msg.keys())[0].split(".")[0]`: `None` where Python raises. */
  function PairOfFirstKey(msg: Json): (r: Option<string>)
    ensures r.Some? <==> msg.Obj? && |msg.fields| > 0
    ensures r.Some? ==> r.value <= msg.fields[0].0 && '.' !in r.value
  {
    match FirstKey(msg)
    case None => None
    case Some(k) => Some(BeforeFirst(k, '.'))
  }

  /** `listen_for_trades`' handling of one raw frame: parse, then test the
      raw text for `ping`, `subscribed` and `.trades`, in that order. */
  function ClassifyTrade(f: Frame): (r: FrameAction<OrderBookMessage>)
    ensures f.parsed.None? ==> r.Raise?
    ensures Contains(f.raw, "ping") ==> r.Reply? || r.Raise?
    ensures r.Ignore? <==> f.parsed.Some? && !Contains(f.raw, "ping") && Contains(f.raw, "subscribed")
    ensures r.Unrecognized? <==> f.parsed.Some? && !Contains(f.raw, "ping") && !Contains(f.raw, "subscribed") &&
                                 !Contains(f.raw, TradesUpdate)
    ensures r.Emit? ==> !Contains(f.raw, "ping") && !Contains(f.raw, "subscribed") && Contains(f.raw, TradesUpdate) &&
                        forall i :: 0 <= i < |r.msgs| ==> (r.msgs[i].TradeMessage? &&
                                                          Some(r.msgs[i].tradingPair) == PairOfFirstKey(f.parsed.value))
  {
    match f.parsed
    case None => Raise
    case Some(msg) =>
      if Contains(f.raw, "ping") then AnswerPing(msg)
      else if Contains(f.raw, "subscribed") then Ignore
      else if Contains(f.raw, TradesUpdate) then
        match PairOfFirstKey(msg)
        case None => Raise
        case Some(pair) =>
          match Get(msg, pair + TradesUpdate)
          case None => Raise
          case Some(update) =>
            match Get(update, "trades")
            case None => Raise
            case Some(trades) =>
              match Iterate(trades)
              case None => Raise
              case Some(items) => Emit(seq(|items|, i requires 0 <= i < |items| => TradeMessage(items[i], pair)))
      else Unrecognized
  }

  /** A `.trades` frame enqueues one trade message per entry of
      `msg[pair + ".trades"]["trades"]`, in order, for the pair named by the
      first key. */
  lemma TradesFrameEmitsEachTrade(f: Frame, pair: string, items: seq<Json>)
    requires f.parsed.Some? && !Contains(f.raw, "ping") && !Contains(f.raw, "subscribed") && Contains(f.raw, TradesUpdate)
    requires PairOfFirstKey(f.parsed.value) == Some(pair)
    requires Get(f.parsed.value, pair + TradesUpdate).Some? &&
             Get(Get(f.parsed.value, pair + TradesUpdate).value, "trades") == Some(Arr(items))
    ensures ClassifyTrade(f).Emit?
    ensures var msgs := ClassifyTrade(f).msgs;
            |msgs| == |items| && forall i :: 0 <= i < |items| ==> msgs[i] == TradeMessage(items[i], pair)
  {
  }

  /** `listen_for_order_book_diffs`' handling of one raw frame: `.ob-inc` is
      tested before `.ob-snap`, and each enqueues exactly one message. */
  function ClassifyDiff(f: Frame): (r: FrameAction<OrderBookMessage>)
    ensures f.parsed.None? ==> r.Raise?
    ensures Contains(f.raw, "ping") ==> r.Reply? || r.Raise?
    ensures r.Ignore? <==> f.parsed.Some? && !Contains(f.raw, "ping") && Contains(f.raw, "subscribed")
    ensures r.Unrecognized? <==> f.parsed.Some? && !Contains(f.raw, "ping") && !Contains(f.raw, "subscribed") &&
                                 !Contains(f.raw, OrdersUpdate) && !Contains(f.raw, OrdersSnapshot)
    ensures r.Emit? ==> !Contains(f.raw, "ping") && !Contains(f.raw, "subscribed") && |r.msgs| == 1 &&
                        Some(r.msgs[0].tradingPair) == PairOfFirstKey(f.parsed.value) &&
                        (r.msgs[0].DiffMessage? <==> Contains(f.raw, OrdersUpdate)) &&
                        (r.msgs[0].SnapshotMessage? <==> !Contains(f.raw, OrdersUpdate) && Contains(f.raw, OrdersSnapshot))
  {
    match f.parsed
    case None => Raise
    case Some(msg) =>
      if Contains(f.raw, "ping") then AnswerPing(msg)
      else if Contains(f.raw, "subscribed") then Ignore
      else if Contains(f.raw, OrdersUpdate) then
        match PairOfFirstKey(msg)
        case None => Raise
        case Some(pair) =>
          match Get(msg, pair + OrdersUpdate)
          case None => Raise
          case Some(content) => Emit([DiffMessage(content, pair)])
      else if Contains(f.raw, OrdersSnapshot) then
        match PairOfFirstKey(msg)
        case None => Raise
        case Some(pair) =>
          match Get(msg, pair + OrdersSnapshot)
          case None => Raise
          case Some(content) => Emit([SnapshotMessage(content, pair)])
      else Unrecognized
  }

  /** A ping frame is answered with the pong echoing its value, before any
      other test, and enqueues nothing. */
  lemma PingFrameAnswered(f: Frame, v: Json)
    requires f.parsed.Some? && Contains(f.raw, "ping") && Get(f.parsed.value, "ping") == Some(v)
    ensures ClassifyTrade(f) == Reply(PongReply(v)) && ClassifyDiff(f) == Reply(PongReply(v))
  {
  }

  // ---------------------------------------------------------------------------
  // Subscriptions

  function FormatAll(templates: seq<Template>, pair: string): (r: seq<string>)
    ensures |r| == |templates|
  {
    seq(|templates|, j requires 0 <= j < |templates| => Format(templates[j], pair))
  }

  /** The subscribe frame of each configured pair, in order. */
  function Subscriptions(event: string, templates: seq<Template>, pairs: seq<string>): (r: seq<Outgoing>)
    ensures |r| == |pairs|
    ensures forall i :: 0 <= i < |pairs| ==> r[i].Subscribe? && r[i].event == event && |r[i].streams| == |templates|
  {
    seq(|pairs|, i requires 0 <= i < |pairs| =>
      Subscribe(event, FormatAll(templates, ConvertToExchangeTradingPair(pairs[i]))))
  }

  /** Each subscribe frame names its own pair's wire form in every stream
      whose template has a `{trading_pair}` field. */
  lemma SubscriptionsNamePairs(event: string, templates: seq<Template>, pairs: seq<string>, i: nat, j: nat)
    requires i < |pairs| && j < |templates| && PairSlot in templates[j]
    ensures Contains(Subscriptions(event, templates, pairs)[i].streams[j], ConvertToExchangeTradingPair(pairs[i]))
  {
    FormatNamesPair(templates[j], ConvertToExchangeTradingPair(pairs[i]));
  }

  // ---------------------------------------------------------------------------
  // REST helpers

  /** What one product adds to the comprehension: nothing when it is not
      enabled, its name with `/` replaced by `-` when it is, `None` where a
      lookup raises. */
  function ProductName(p: Json): (r: Option<seq<string>>)
    ensures r.Some? ==> |r.value| <= 1 && forall i :: 0 <= i < |r.value| ==> '/' !in r.value[i]
    ensures r.Some? && |r.value| == 1 <==> Get(p, "state") == Some(Str("enabled")) && Get(p, "name").Some? &&
                                           Get(p, "name").value.Str?
    ensures r.None? <==> Get(p, "state").None? ||
                         (Get(p, "state") == Some(Str("enabled")) && (Get(p, "name").None? || !Get(p, "name").value.Str?))
  {
    match Get(p, "state")
    case None => None
    case Some(state) =>
      if state != Str("enabled") then Some([])
      else match Get(p, "name")
        case Some(Str(name)) =>
          var n := ReplaceChar(name, '/', '-');
          assert '/' !in n;
          Some([n])
        case _ => None
  }

  /** Two parts of the comprehension together; one that raises makes the whole raise. */
  function Both(x: Option<seq<string>>, y: Option<seq<string>>): Option<seq<string>>
  {
    if x.Some? && y.Some? then Some(x.value + y.value) else None
  }

  /** The names of the enabled products, in order; `None` where a lookup raises. */
  function EnabledNames(products: seq<Json>): (r: Option<seq<string>>)
    ensures r.Some? ==> |r.value| <= |products| && forall i :: 0 <= i < |r.value| ==> '/' !in r.value[i]
    ensures r.None? <==> exists i :: 0 <= i < |products| && ProductName(products[i]).None?
  {
    if products == [] then Some([]) else Both(ProductName(products[0]), EnabledNames(products[1..]))
  }

  /** An enabled product contributes its renamed name, and the others nothing. */
  lemma EnabledNamesOne(p: Json)
    ensures Get(p, "state").Some? && Get(p, "state") != Some(Str("enabled")) ==> EnabledNames([p]) == Some([])
    ensures Get(p, "state") == Some(Str("enabled")) && Get(p, "name").Some? && Get(p, "name").value.Str? ==>
              EnabledNames([p]) == Some([ReplaceChar(Get(p, "name").value.s, '/', '-')])
  {
    assert [p][1..] == [];
    var x := ProductName(p);
    if x.Some? {
      assert x.value + [] == x.value;
    }
  }

  /** The names of a concatenation are the concatenation of the names: the
      comprehension keeps the products' order. */
  lemma {:induction false} EnabledNamesAppend(a: seq<Json>, b: seq<Json>)
    ensures EnabledNames(a + b) == Both(EnabledNames(a), EnabledNames(b))
  {
    if a == [] {
      assert a + b == b;
      if EnabledNames(b).Some? {
        assert [] + EnabledNames(b).value == EnabledNames(b).value;
      }
    } else {
      assert (a + b)[0] == a[0] && (a + b)[1..] == a[1..] + b;
      EnabledNamesAppend(a[1..], b);
      BothAssociative(ProductName(a[0]), EnabledNames(a[1..]), EnabledNames(b));
    }
  }

  lemma BothAssociative(x: Option<seq<string>>, y: Option<seq<string>>, z: Option<seq<string>>)
    ensures Both(x, Both(y, z)) == Both(Both(x, y), z)
  {
    if x.Some? && y.Some? && z.Some? {
      assert x.value + (y.value + z.value) == (x.value + y.value) + z.value;
    }
  }

  /** `fetch_trading_pairs`: the names of the enabled products of a list
      answer, or `[]` on any failure: a failed request, an answer that is not
      a list, or a product whose lookups raise. */
  function FetchTradingPairs(config: Config, request: Requester): (r: seq<string>)
    ensures request(config.symbolsUri).Failure? ==> r == []
    ensures forall i :: 0 <= i < |r| ==> '/' !in r[i]
    ensures var answer := request(config.symbolsUri);
            answer.Success? && answer.value.Arr? &&
            (forall i :: 0 <= i < |answer.value.items| ==> ProductName(answer.value.items[i]).Some?) ==>
              EnabledNames(answer.value.items).Some? && r == EnabledNames(answer.value.items).value
    ensures var answer := request(config.symbolsUri);
            answer.Success? && answer.value.Arr? &&
            (exists i :: 0 <= i < |answer.value.items| && ProductName(answer.value.items[i]).None?) ==>
              r == []
    ensures request(config.symbolsUri).Success? && !request(config.symbolsUri).value.Arr? ==> r == []
  {
    match request(config.symbolsUri)
    case Failure(_) => []
    case Success(products) =>
      match Iterate(products)
      case None => []
      case Some(items) =>
        match EnabledNames(items)
        case None => []
        case Some(names) => names
  }

  /** `Decimal(str(v['ticker']['last']))` */
  function LastPrice(v: Json, decimal: string -> Option<real>): (r: Result<real, Raised>)
    ensures r.Success? <==> Get(v, "ticker").Some? && Get(Get(v, "ticker").value, "last").Some? &&
                            decimal(PyStr(Get(Get(v, "ticker").value, "last").value)).Some?
  {
    match Get(v, "ticker")
    case None => Failure(LookupError)
    case Some(ticker) =>
      match Get(ticker, "last")
      case None => Failure(LookupError)
      case Some(last) =>
        match decimal(PyStr(last))
        case None => Failure(ConversionError)
        case Some(x) => Success(x)
  }

  /** The batch ticker's entry for one display pair, under its wire name. */
  function BatchPrice(resp: Json, pair: string, decimal: string -> Option<real>): Result<real, Raised>
  {
    match Get(resp, ConvertToExchangeTradingPair(pair))
    case None => Failure(LookupError)
    case Some(entry) => LastPrice(entry, decimal)
  }

  /** `get_last_traded_prices`: one request either way, the single-ticker
      endpoint for exactly one pair and the batch endpoint otherwise; on
      success the keys are exactly the given pairs. */
  method GetLastTradedPrices(config: Config, request: Requester, decimal: string -> Option<real>, pairs: seq<string>)
    returns (r: Result<map<string, real>, Raised>, path: string)
    ensures |pairs| == 1 ==> path == Format(config.tickerSingleUri, ConvertToExchangeTradingPair(pairs[0]))
    ensures |pairs| != 1 ==> path == config.tickerUri
    ensures request(path).Failure? ==> r == Failure(request(path).error)
    ensures r.Success? ==> r.value.Keys == set p | p in pairs
    ensures r.Success? && |pairs| == 1 ==> LastPrice(request(path).value, decimal) == Success(r.value[pairs[0]])
    ensures r.Success? && |pairs| != 1 ==>
              forall p :: p in pairs ==> BatchPrice(request(path).value, p, decimal) == Success(r.value[p])
    ensures request(path).Success? && |pairs| != 1 ==>
              (r.Failure? <==> exists p :: p in pairs && BatchPrice(request(path).value, p, decimal).Failure?)
    ensures request(path).Success? && |pairs| == 1 ==>
              (r.Failure? <==> LastPrice(request(path).value, decimal).Failure?)
  {
    if |pairs| == 1 {
      path := Format(config.tickerSingleUri, ConvertToExchangeTradingPair(pairs[0]));
      match request(path) {
        case Failure(e) =>
          r := Failure(e);
        case Success(resp) =>
          match LastPrice(resp, decimal) {
            case Failure(e) => r := Failure(e);
            case Success(x) => r := Success(map[pairs[0] := x]);
          }
      }
    } else {
      path := config.tickerUri;
      match request(path) {
        case Failure(e) =>
          r := Failure(e);
        case Success(resp) =>
          var results: map<string, real> := map[];
          var i := 0;
          var failed: Option<Raised> := None;
          while i < |pairs| && failed.None?
            invariant 0 <= i <= |pairs|
            invariant failed.None? ==> results.Keys == set p | p in pairs[..i]
            invariant failed.None? ==> forall p :: p in pairs[..i] ==> BatchPrice(resp, p, decimal) == Success(results[p])
            invariant failed.Some? ==> 0 < i && BatchPrice(resp, pairs[i - 1], decimal).Failure?
          {
            match BatchPrice(resp, pairs[i], decimal) {
              case Failure(e) => failed := Some(e);
              case Success(x) => results := results[pairs[i] := x];
            }
            assert pairs[..i + 1] == pairs[..i] + [pairs[i]];
            i := i + 1;
          }
          if failed.Some? {
            r := Failure(failed.value);
          } else {
            assert pairs[..i] == pairs;
            r := Success(results);
          }
      }
    }
  }

  /** Every keyword `generic_api_request` accepts. */
  const GenericApiRequestKeywords: set<string> := {"method", "path_url", "params", "client", "try_count"}

  /** A call of `generic_api_request` with the given keyword arguments:
      Python rejects an unknown keyword with TypeError before the body runs. */
  function CallGenericApiRequest(request: Requester, path: string, keywords: set<string>): (r: Result<Json, Raised>)
    ensures keywords <= GenericApiRequestKeywords ==> r == request(path)
    ensures !(keywords <= GenericApiRequestKeywords) ==> r == Failure(TypeError)
  {
    if keywords <= GenericApiRequestKeywords then request(path) else Failure(TypeError)
  }

  function SnapshotError(pair: string): string
  {
    "Error fetching Altmarkets market snapshot for " + pair + "."
  }

  function DepthPath(config: Config, pair: string): string
  {
    Format(config.depthUri, ConvertToExchangeTradingPair(pair))
  }

  /** `get_snapshot` as written: the depth request passes `shared_client=`,
      and any failure becomes an IOError naming the pair. */
  function GetSnapshotAsWritten(config: Config, request: Requester, pair: string): Result<Json, Raised>
  {
    match CallGenericApiRequest(request, DepthPath(config, pair), {"shared_client"})
    case Success(data) => Success(data)
    case Failure(_) => Failure(IOError(SnapshotError(pair)))
  }

  /** As written, no snapshot can be fetched: the unknown keyword raises
      before any request is made, whatever the exchange answers. */
  lemma GetSnapshotAsWrittenAlwaysFails(config: Config, request: Requester, pair: string)
    ensures GetSnapshotAsWritten(config, request, pair) == Failure(IOError(SnapshotError(pair)))
  {
    assert "shared_client" !in GenericApiRequestKeywords;
  }

  /** `get_snapshot` with the keyword `generic_api_request` declares
      (`client=`): the depth body on success, otherwise an IOError naming the pair. */
  function GetSnapshot(config: Config, request: Requester, pair: string): (r: Result<Json, Raised>)
    ensures r.Success? <==> request(DepthPath(config, pair)).Success?
    ensures r.Success? ==> r.value == request(DepthPath(config, pair)).value
    ensures r.Failure? ==> r.error.IOError? && Contains(r.error.message, pair)
  {
    match CallGenericApiRequest(request, DepthPath(config, pair), {"client"})
    case Success(data) => Success(data)
    case Failure(_) =>
      var prefix := "Error fetching Altmarkets market snapshot for ";
      assert SnapshotError(pair)[|prefix|..|prefix| + |pair|] == pair;
      ContainsAt(SnapshotError(pair), pair, |prefix|);
      Failure(IOError(SnapshotError(pair)))
  }

  /** The order book `order_book_create_function` makes; it records the
      snapshots applied to it. */
  class OrderBook {
    var applied: seq<OrderBookMessage>

    constructor ()
      ensures applied == []
    {
      applied := [];
    }

    method ApplySnapshot(msg: OrderBookMessage)
      modifies this
      ensures applied == old(applied) + [msg]
    {
      applied := applied + [msg];
    }
  }

  /** The snapshot messages one refresher pass enqueues: one per pair whose
      fetch succeeds, in the configured order. */
  function SnapshotsOf(pairs: seq<string>, fetch: SnapshotFetch): (r: seq<OrderBookMessage>)
    ensures |r| <= |pairs|
    ensures forall i :: 0 <= i < |r| ==> r[i].SnapshotMessage? && r[i].tradingPair in pairs
  {
    if pairs == [] then []
    else
      var here := match fetch(pairs[0]) case Success(d) => [SnapshotMessage(d, pairs[0])] case Failure(_) => [];
      here + SnapshotsOf(pairs[1..], fetch)
  }

  /** A pass one pair further. */
  lemma SnapshotsOfStep(pairs: seq<string>, i: nat, fetch: SnapshotFetch)
    requires i < |pairs|
    ensures SnapshotsOf(pairs[..i + 1], fetch) == SnapshotsOf(pairs[..i], fetch) +
              match fetch(pairs[i]) case Success(d) => [SnapshotMessage(d, pairs[i])] case Failure(_) => []
  {
    assert pairs[..i + 1] == pairs[..i] + [pairs[i]];
    SnapshotsOfAppend(pairs[..i], [pairs[i]], fetch);
    assert [pairs[i]][1..] == [];
  }

  /** A pass over `a + b` is a pass over `a`, then a pass over `b`; a failing
      pair enqueues nothing and the pass goes on. */
  lemma {:induction false} SnapshotsOfAppend(a: seq<string>, b: seq<string>, fetch: SnapshotFetch)
    ensures SnapshotsOf(a + b, fetch) == SnapshotsOf(a, fetch) + SnapshotsOf(b, fetch)
  {
    if a == [] {
      assert a + b == b;
    } else {
      assert (a + b)[0] == a[0] && (a + b)[1..] == a[1..] + b;
      SnapshotsOfAppend(a[1..], b, fetch);
    }
  }

  /** A pass whose every fetch fails enqueues nothing. */
  lemma {:induction false} SnapshotsOfFailing(pairs: seq<string>, fetch: SnapshotFetch)
    requires forall p :: p in pairs ==> fetch(p).Failure?
    ensures SnapshotsOf(pairs, fetch) == []
  {
    if pairs != [] {
      assert pairs[0] in pairs;
      SnapshotsOfFailing(pairs[1..], fetch);
    }
  }

  /** With `get_snapshot` as written a refresher pass enqueues nothing. */
  lemma {:induction false} RefresherAsWrittenEnqueuesNothing(config: Config, request: Requester, pairs: seq<string>)
    ensures SnapshotsOf(pairs, p => GetSnapshotAsWritten(config, request, p)) == []
  {
    if pairs != [] {
      GetSnapshotAsWrittenAlwaysFails(config, request, pairs[0]);
      RefresherAsWrittenEnqueuesNothing(config, request, pairs[1..]);
    }
  }

  class AltmarketsAPIOrderBookDataSource {
    const tradingPairs: seq<string>
    const config: Config

    constructor (tradingPairs: seq<string>, config: Config)
      ensures this.tradingPairs == tradingPairs && this.config == config
    {
      this.tradingPairs := tradingPairs;
      this.config := config;
    }

    function TradeSubscriptions(): (r: seq<Outgoing>)
    {
      Subscriptions(config.pusherSubscribeEvent, config.tradeStreams, tradingPairs)
    }

    function DiffSubscriptions(): (r: seq<Outgoing>)
    {
      Subscriptions("subscribe", config.orderBookStreams, tradingPairs)
    }

    /** `listen_for_trades` over its connection attempts. */
    method ListenForTrades(attempts: seq<ConnectAttempt>, output: MessageQueue<OrderBookMessage>)
      returns (connections: seq<seq<Outgoing>>, naps: seq<real>, cancelled: bool)
      modifies output
      ensures var r := Listen(attempts, TradeSubscriptions(), ClassifyTrade);
              connections == r.connections && naps == r.naps && cancelled == r.cancelled &&
              output.items == old(output.items) + r.emitted
    {
      connections, naps, cancelled := RunListener(attempts, TradeSubscriptions(), output, ClassifyTrade);
    }

    /** `listen_for_order_book_diffs` over its connection attempts. */
    method ListenForOrderBookDiffs(attempts: seq<ConnectAttempt>, output: MessageQueue<OrderBookMessage>)
      returns (connections: seq<seq<Outgoing>>, naps: seq<real>, cancelled: bool)
      modifies output
      ensures var r := Listen(attempts, DiffSubscriptions(), ClassifyDiff);
              connections == r.connections && naps == r.naps && cancelled == r.cancelled &&
              output.items == old(output.items) + r.emitted
    {
      connections, naps, cancelled := RunListener(attempts, DiffSubscriptions(), output, ClassifyDiff);
    }

    /** One pass of `listen_for_order_book_snapshots` over the configured
        pairs with the snapshot call `fetch` (`get_snapshot` as written, or
        corrected): fetch, enqueue on success, and sleep 5 seconds either way. */
    method RefreshSnapshots(fetch: SnapshotFetch, output: MessageQueue<OrderBookMessage>)
      returns (naps: seq<real>)
      modifies output
      ensures output.items == old(output.items) + SnapshotsOf(tradingPairs, fetch)
      ensures |naps| == |tradingPairs| && forall k :: 0 <= k < |naps| ==> naps[k] == 5.0
    {
      naps := [];
      var i := 0;
      while i < |tradingPairs|
        invariant 0 <= i <= |tradingPairs|
        invariant output.items == old(output.items) + SnapshotsOf(tradingPairs[..i], fetch)
        invariant |naps| == i && forall k :: 0 <= k < i ==> naps[k] == 5.0
      {
        var pair := tradingPairs[i];
        SnapshotsOfStep(tradingPairs, i, fetch);
        match fetch(pair) {
          case Success(snapshot) =>
            output.PutNowait(SnapshotMessage(snapshot, pair));
          case Failure(_) =>
        }
        naps := naps + [5.0];
        i := i + 1;
      }
      assert tradingPairs[..i] == tradingPairs;
    }

    /** The refresher with `get_snapshot` as written: every pair's fetch
        raises, so a pass enqueues nothing and only sleeps. */
    method RefreshSnapshotsAsWritten(request: Requester, output: MessageQueue<OrderBookMessage>)
      returns (naps: seq<real>)
      modifies output
      ensures output.items == old(output.items)
      ensures |naps| == |tradingPairs| && forall k :: 0 <= k < |naps| ==> naps[k] == 5.0
    {
      var fetch: SnapshotFetch := p => GetSnapshotAsWritten(config, request, p);
      naps := RefreshSnapshots(fetch, output);
      forall p | p in tradingPairs
        ensures fetch(p).Failure?
      {
        GetSnapshotAsWrittenAlwaysFails(config, request, p);
      }
      SnapshotsOfFailing(tradingPairs, fetch);
      assert old(output.items) + [] == old(output.items);
    }

    /** `get_new_order_book` with the snapshot call `fetch`: a new book with
        the pair's snapshot applied, or the snapshot's error. */
    method GetNewOrderBook(fetch: SnapshotFetch, pair: string) returns (r: Result<OrderBook, Raised>)
      ensures fetch(pair).Failure? ==> r == Failure(fetch(pair).error)
      ensures fetch(pair).Success? ==>
                r.Success? && fresh(r.value) && r.value.applied == [SnapshotMessage(fetch(pair).value, pair)]
    {
      match fetch(pair) {
        case Failure(e) =>
          r := Failure(e);
        case Success(snapshot) =>
          var book := new OrderBook();
          book.ApplySnapshot(SnapshotMessage(snapshot, pair));
          r := Success(book);
      }
    }

    /** `get_new_order_book` with `get_snapshot` as written: it always raises
        the IOError naming the pair, and no book is made. */
    method GetNewOrderBookAsWritten(request: Requester, pair: string) returns (r: Result<OrderBook, Raised>)
      ensures r == Failure(IOError(SnapshotError(pair)))
    {
      GetSnapshotAsWrittenAlwaysFails(config, request, pair);
      r := GetNewOrderBook(p => GetSnapshotAsWritten(config, request, p), pair);
    }
  }
}
