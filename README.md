# Altmarkets / Peatio connector core in Dafny

This project models the sequential core of the Altmarkets connector of a
hummingbot fork, together with the Peatio request signer, the market-indicator
data feed and the random-loop-trade configuration validators. It proves
properties of that model.

- **Trading pairs and REST retries** (`AltmarketsUtils`, `AltmarketsConstants`).
  - Display `BASE-QUOTE` and wire `basequote` forms, with the quote-suffix
    splitter and its uniqueness.
  - The retry delay, kept exact with the jitter as an integer 1..10.
  - `generic_api_request` as a loop over a sequence of attempt outcomes. The
    loop is proved equal to the recursive definition.
- **Websocket connections** (`WsSession`).
  - `_inner_messages`: receive with a timeout, ping on silence, stop on a pong
    timeout or a closed connection, close on every exit.
  - The consumer's frame routing.
  - The reconnecting `while True` loop, over a finite sequence of connection
    attempts. Each successful connect carries the sequence of what its receive
    calls observed.
- **Public data source** (`OrderBookDataSource`).
  - The trade and diff routing by substring tests on the raw text.
  - Pair recovery from the first key.
  - The subscriptions.
  - `fetch_trading_pairs`, `get_last_traded_prices` and `get_snapshot`.
  - The snapshot refresher.
- **Private data source** (`UserStreamDataSource`).
  - Per attempt: fresh signed headers, the identical subscribe requests, and
    whole-frame forwarding of order and trade frames.
  - `_last_recv_time`.
- **Request signers** (`AltmarketsAuthentication`, `PeatioAuthentication`,
  `Encoding`).
  - The millisecond nonce, the payload `nonce + api_key` and the headers.
  - The nonce and signature fields of the Altmarkets signer.
  - The Latin-1 and UTF-8 encodings the two signers apply before the HMAC.
    Latin-1 raises on a character above U+00FF.
- **Market indicator feed** (`MarketIndicator`).
  - Constructor normalisation.
  - The field-by-field `fetch_trend` update, which is partial when the price
    raises.
  - The expiring tri-state trend queries, and the polling task replaced by
    `start_network`.
- **Strategy config** (`RandomLoopTradeConfig`): `str2bool`, the order-type
  validator, the `required_if` rule of the limit-order keys, and the trading
  pair prompt.

Inputs of the model, taken as parameters:
- HMAC-SHA256, as an uninterpreted function of key bytes and message bytes.
- The clock, as microsecond and second readings.
- `Decimal(str)`, as a partial function.
- The REST outcome per path.
- JSON parsing, as a parsed value kept beside the raw text.
- Peatio's `USER_AGENT`.

The data sources read many names from `Constants` that altmarkets_constants.py
does not define:
- EXCHANGE_ROOT_API, SYMBOLS_URI, TICKER_URI and TICKER_SINGLE_URI;
- DEPTH_URI, EXCHANGE_WS_URI and EXCHANGE_WS_AUTH_URI;
- WS_TRADE_SUBSCRIBE_STREAMS, WS_OB_SUBSCRIBE_STREAMS and WS_USER_SUBSCRIBE_STREAMS;
- WS_PUSHER_SUBSCRIBE_EVENT.

As written, each of these reads would raise AttributeError. The model takes
them as a configuration record (`Endpoints.Config`), with `{trading_pair}`
templates.

## Model

| member | source | states |
|---|---|---|
| AltmarketsConstants.QuotesSuffixFree | hummingbot/connector/exchange/altmarkets/altmarkets_constants.py:67 | no listed quote ends another listed quote |
| AltmarketsConstants.OpenAndDoneDisjoint | hummingbot/connector/exchange/altmarkets/altmarkets_constants.py:43-45 | the OPEN states and the DONE states are disjoint |
| AltmarketsConstants.CancelStatesAreDone | hummingbot/connector/exchange/altmarkets/altmarkets_constants.py:43-46 | CANCEL is a subset of DONE, and `cancel` is a FAIL state |
| AltmarketsUtils.RetryLimitIsApiMaxRetries | hummingbot/connector/exchange/altmarkets/altmarkets_constants.py:54 | the literal retry bound 4 of the request equals API_MAX_RETRIES |
| AltmarketsUtils.QuotesAreLowerCase | hummingbot/connector/exchange/altmarkets/altmarkets_constants.py:67 | every listed quote is non-empty lower-case ASCII |
| AltmarketsUtils.WithoutFinalNewline | hummingbot/connector/exchange/altmarkets/altmarkets_constants.py:67 | `$` sees the symbol without at most one trailing newline, and exactly one is dropped when the symbol ends in one |
| AltmarketsUtils.SplitSearch | hummingbot/connector/exchange/altmarkets/altmarkets_utils.py:31-37 | the backtracking search returns a split point where the base is word characters and the rest a listed quote, or there is none up to the bound |
| AltmarketsUtils.SplitUnique | hummingbot/connector/exchange/altmarkets/altmarkets_constants.py:67 | a symbol splits into base and listed quote in at most one place |
| AltmarketsUtils.SplitTradingPairSpec | hummingbot/connector/exchange/altmarkets/altmarkets_utils.py:31-37 | `split_trading_pair(s)` is `(base, quote)` if and only if `s`, less a final newline, is a non-empty `\w` base followed by a listed quote |
| AltmarketsUtils.ConvertFromExchangeTradingPair | hummingbot/connector/exchange/altmarkets/altmarkets_utils.py:40-45 | `None` exactly when the splitter fails, otherwise the upper-cased base, `-`, and the upper-cased quote of a valid split |
| AltmarketsUtils.ConvertToExchangeTradingPair | hummingbot/connector/exchange/altmarkets/altmarkets_utils.py:48-50 | the wire form has no `-` and no upper-case ASCII letter |
| AltmarketsUtils.ConvertToExchangeAppend | hummingbot/connector/exchange/altmarkets/altmarkets_utils.py:48-50 | for any texts, the wire form of a concatenation is the concatenation of the wire forms |
| AltmarketsUtils.ConvertToExchangeChar | hummingbot/connector/exchange/altmarkets/altmarkets_utils.py:48-50 | a `-` has the empty wire form, and any other character its lower-case form; with the previous row this fixes the wire form of every text |
| AltmarketsUtils.ConvertToExchangeDropsSeparators | hummingbot/connector/exchange/altmarkets/altmarkets_utils.py:48-50 | the wire form of `a-b` is the wire form of `a` followed by that of `b`, and a text without `-` is only lower-cased |
| AltmarketsUtils.WireFormOfDisplayPair | hummingbot/connector/exchange/altmarkets/altmarkets_utils.py:48-50 | the wire form of `BASE-QUOTE` is the lower-cased base followed by the listed quote |
| AltmarketsUtils.ConvertRoundTrip | hummingbot/connector/exchange/altmarkets/altmarkets_utils.py:40-50 | display to wire to display is the identity on a base of upper-case ASCII letters, digits and `_` with an upper-cased listed quote |
| AltmarketsUtils.RetrySleepTime | hummingbot/connector/exchange/altmarkets/altmarkets_utils.py:53-56 | the delay lies between 5 + 1.01·(1 + n^n) and 5 + 1.10·(1 + n^n) |
| AltmarketsUtils.Truncated | hummingbot/connector/exchange/altmarkets/altmarkets_utils.py:79-81 | a text of at most 100 characters is kept; a longer one becomes its first 100 characters and ` ... (truncated)` |
| AltmarketsUtils.AttemptSucceeded | hummingbot/connector/exchange/altmarkets/altmarkets_utils.py:72-89 | an attempt succeeds if and only if nothing raised, the body parsed as JSON, the status is 200 or 201 and the body is not null |
| AltmarketsUtils.GenericApiRequest | hummingbot/connector/exchange/altmarkets/altmarkets_utils.py:59-101 | the loop returns the result, the delays and the number of requests of the recursive definition; every request is the same verb, URL, content type, params and timeout |
| AltmarketsUtils.RetryBounds | hummingbot/connector/exchange/altmarkets/altmarkets_utils.py:89-97 | at most 5 attempts, one delay fewer than attempts, and the delay before retry k is `retry_sleep_time(k)` with the k-th draw |
| AltmarketsUtils.RetrySuccess | hummingbot/connector/exchange/altmarkets/altmarkets_utils.py:72-97 | the request succeeds if and only if some allowed attempt succeeds; it then returns the body of the first successful attempt, and every earlier attempt failed |
| AltmarketsUtils.RetryFailure | hummingbot/connector/exchange/altmarkets/altmarkets_utils.py:98-101 | an exhausted request made 5 attempts and raises AltmarketsAPIError with `{"error": <last parsed response>}` |
| AltmarketsUtils.ThreeServerErrorsThenOk | hummingbot/connector/exchange/altmarkets/altmarkets_utils.py:59-102 | three 500 answers and then a 200 give the body after 4 attempts and 3 delays |
| Endpoints.FormatNamesPair | hummingbot/connector/exchange/altmarkets/altmarkets_api_order_book_data_source.py:144 | a stream template with a `{trading_pair}` field, once formatted, contains the pair |
| WsSession.PongReply | hummingbot/connector/exchange/altmarkets/altmarkets_api_order_book_data_source.py:152 | the reply is the pong prefix, then `str` of the ping value unquoted, then `}` |
| WsSession.PongEchoesIntegerPing | hummingbot/connector/exchange/altmarkets/altmarkets_api_order_book_data_source.py:152 | an integer ping reads back from the reply's timestamp field |
| WsSession.AnswerPing | hummingbot/connector/exchange/altmarkets/altmarkets_api_order_book_data_source.py:151-152 | a frame with a `ping` member is answered with its pong; without the member the consumer raises |
| WsSession.Stamp | hummingbot/connector/exchange/altmarkets/altmarkets_api_user_stream_data_source.py:101-107 | a time is recorded for every received frame and for every ping that went out, and for nothing else |
| WsSession.SessionStopsAtFirstEnd | hummingbot/connector/exchange/altmarkets/altmarkets_api_order_book_data_source.py:119-133 | a connection handles events up to and including its first ending event, and ends the way that event says; it stays open only if no event ends it |
| WsSession.SessionEmitsHandledFrames | hummingbot/connector/exchange/altmarkets/altmarkets_api_order_book_data_source.py:148-165 | a message is enqueued if and only if the routing of a handled frame emits it |
| WsSession.SessionPingsOncePerTimeout | hummingbot/connector/exchange/altmarkets/altmarkets_api_order_book_data_source.py:124-126 | the pings sent are exactly one per handled receive timeout whose ping went out |
| WsSession.SessionLastRecv | hummingbot/connector/exchange/altmarkets/altmarkets_api_user_stream_data_source.py:101-107 | the time a connection leaves is the last one recorded among the events it handled |
| WsSession.HandleEvent | hummingbot/connector/exchange/altmarkets/altmarkets_api_order_book_data_source.py:119-133 | one receive turn sends the reply or the ping, enqueues the routed messages and stops as the turn's outcome says |
| WsSession.RunConnection | hummingbot/connector/exchange/altmarkets/altmarkets_api_order_book_data_source.py:116-133 | the loop sends, enqueues and ends as the recursive definition of a connection does, and the socket is closed afterwards |
| WsSession.RunAttempt | hummingbot/connector/exchange/altmarkets/altmarkets_api_order_book_data_source.py:136-171 | one attempt opens a socket, sends the subscriptions first, runs the connection, and sleeps MESSAGE_TIMEOUT after a failure |
| WsSession.RunListener | hummingbot/connector/exchange/altmarkets/altmarkets_api_order_book_data_source.py:135-171 | the reconnect loop's sockets, delays, enqueued messages and re-raised cancellation are those of the recursive definition |
| WsSession.ListenNapsAndSubscriptions | hummingbot/connector/exchange/altmarkets/altmarkets_api_order_book_data_source.py:139-171 | every delay is MESSAGE_TIMEOUT, with at most one per attempt, and every socket first sends the subscriptions |
| WsSession.ListenStopsOnlyOnCancellation | hummingbot/connector/exchange/altmarkets/altmarkets_api_order_book_data_source.py:166-171 | a cancellation is re-raised only for a cancelled attempt; without cancellations and open connections, every attempt runs and one socket is opened per connect |
| WsSession.ListenEmitsFromConnections | hummingbot/connector/exchange/altmarkets/altmarkets_api_order_book_data_source.py:148-162 | every message a listener enqueues was enqueued by one of its connections |
| WsSession.ListenLastRecvFromConnection | hummingbot/connector/exchange/altmarkets/altmarkets_api_user_stream_data_source.py:101-107 | the time a listener leaves is one that some connection it made left |
| WsSession.ListenNeverConnecting | hummingbot/connector/exchange/altmarkets/altmarkets_api_user_stream_data_source.py:83-88 | a listener whose connects all raise runs every attempt, enqueues nothing, records no time and sleeps after each attempt |
| WsSession.ListenWithoutConnecting | hummingbot/connector/exchange/altmarkets/altmarkets_api_order_book_data_source.py:166-171 | a listener none of whose attempts connects enqueues nothing; it is cancelled exactly when some attempt is, at the first such, after one MESSAGE_TIMEOUT sleep per earlier attempt; otherwise it runs every attempt and sleeps after each |
| OrderBookDataSource.PairOfFirstKey | hummingbot/connector/exchange/altmarkets/altmarkets_api_order_book_data_source.py:156 | a pair exists exactly for a non-empty object; it is a prefix of the first key and contains no `.` |
| OrderBookDataSource.ClassifyTrade | hummingbot/connector/exchange/altmarkets/altmarkets_api_order_book_data_source.py:148-165 | tests `ping`, then `subscribed`, then `.trades` on the raw text; Ignore and Unrecognized hold exactly when their tests say so; emitted messages are trade messages of the first key's pair |
| OrderBookDataSource.TradesFrameEmitsEachTrade | hummingbot/connector/exchange/altmarkets/altmarkets_api_order_book_data_source.py:155-162 | a `.trades` frame enqueues one trade message per entry of `msg[pair + ".trades"]["trades"]`, in order |
| OrderBookDataSource.ClassifyDiff | hummingbot/connector/exchange/altmarkets/altmarkets_api_order_book_data_source.py:186-211 | `.ob-inc` is tested before `.ob-snap`; each enqueues exactly one message of the first key's pair; unrecognised frames enqueue nothing |
| OrderBookDataSource.PingFrameAnswered | hummingbot/connector/exchange/altmarkets/altmarkets_api_order_book_data_source.py:151-154 | a ping frame gets its pong from both listeners before any other test |
| OrderBookDataSource.Subscriptions | hummingbot/connector/exchange/altmarkets/altmarkets_api_order_book_data_source.py:141-146 | one subscribe frame per configured pair, in order, with the event and one stream per template |
| OrderBookDataSource.SubscriptionsNamePairs | hummingbot/connector/exchange/altmarkets/altmarkets_api_order_book_data_source.py:141-146 | each pair's frame names that pair's wire form in every templated stream |
| OrderBookDataSource.ProductName | hummingbot/connector/exchange/altmarkets/altmarkets_api_order_book_data_source.py:82-85 | a product adds one name exactly when it is enabled with a string name; names contain no `/`; the lookups raise exactly when `state` is missing, or when it is `enabled` and `name` is missing or not a string |
| OrderBookDataSource.EnabledNames | hummingbot/connector/exchange/altmarkets/altmarkets_api_order_book_data_source.py:82-85 | at most one name per product, none containing `/`; the comprehension raises exactly when some product's lookups raise |
| OrderBookDataSource.EnabledNamesOne | hummingbot/connector/exchange/altmarkets/altmarkets_api_order_book_data_source.py:82-85 | an enabled product contributes its name with `/` replaced by `-`; a product that is not enabled contributes nothing |
| OrderBookDataSource.EnabledNamesAppend | hummingbot/connector/exchange/altmarkets/altmarkets_api_order_book_data_source.py:82-85 | the names of a concatenation are the concatenated names, so product order is kept |
| OrderBookDataSource.FetchTradingPairs | hummingbot/connector/exchange/altmarkets/altmarkets_api_order_book_data_source.py:79-91 | a list answer whose products all look up gives exactly their enabled names; `[]` when the request fails, when the answer is not a list, or when some product's lookups raise; no returned name contains `/` |
| OrderBookDataSource.LastPrice | hummingbot/connector/exchange/altmarkets/altmarkets_api_order_book_data_source.py:53 | the price exists exactly when `ticker`, then `last`, exist and `Decimal` accepts the text |
| OrderBookDataSource.GetLastTradedPrices | hummingbot/connector/exchange/altmarkets/altmarkets_api_order_book_data_source.py:46-59 | single-ticker path for one pair and batch path otherwise; the keys are exactly the pairs; each value is that pair's price; it raises exactly when the request or some pair's lookup fails |
| OrderBookDataSource.CallGenericApiRequest | hummingbot/connector/exchange/altmarkets/altmarkets_utils.py:59-63 | a call with only declared keywords is the request; an unknown keyword raises TypeError |
| OrderBookDataSource.GetSnapshotAsWrittenAlwaysFails | hummingbot/connector/exchange/altmarkets/altmarkets_api_order_book_data_source.py:98-103 | with `shared_client=`, every snapshot fetch fails with the IOError naming the pair |
| OrderBookDataSource.GetSnapshot | hummingbot/connector/exchange/altmarkets/altmarkets_api_order_book_data_source.py:94-103 | succeeds exactly when the depth request does, with its body; any failure is an IOError whose message names the pair |
| OrderBookDataSource.SnapshotsOf | hummingbot/connector/exchange/altmarkets/altmarkets_api_order_book_data_source.py:224-238 | at most one snapshot message per pair, each for a configured pair |
| OrderBookDataSource.SnapshotsOfAppend | hummingbot/connector/exchange/altmarkets/altmarkets_api_order_book_data_source.py:224-238 | a pass over `a + b` is a pass over `a` and then one over `b`; a failing pair adds nothing and the pass goes on |
| OrderBookDataSource.RefresherAsWrittenEnqueuesNothing | hummingbot/connector/exchange/altmarkets/altmarkets_api_order_book_data_source.py:219-238 | with `get_snapshot` as written, a refresher pass enqueues nothing |
| OrderBookDataSource.AltmarketsAPIOrderBookDataSource.constructor | hummingbot/connector/exchange/altmarkets/altmarkets_api_order_book_data_source.py:42-43 | keeps the given pairs and configuration |
| OrderBookDataSource.AltmarketsAPIOrderBookDataSource.ListenForTrades | hummingbot/connector/exchange/altmarkets/altmarkets_api_order_book_data_source.py:135-171 | the trade listener is the reconnect loop with the trade subscriptions and routing |
| OrderBookDataSource.AltmarketsAPIOrderBookDataSource.ListenForOrderBookDiffs | hummingbot/connector/exchange/altmarkets/altmarkets_api_order_book_data_source.py:173-217 | the diff listener is the reconnect loop with the `subscribe` event, the order-book streams and the diff routing |
| OrderBookDataSource.SnapshotsOfFailing | hummingbot/connector/exchange/altmarkets/altmarkets_api_order_book_data_source.py:224-238 | a pass whose every fetch fails enqueues nothing |
| OrderBookDataSource.AltmarketsAPIOrderBookDataSource.RefreshSnapshots | hummingbot/connector/exchange/altmarkets/altmarkets_api_order_book_data_source.py:219-238 | for the `get_snapshot` it is given (as written, or the corrected `client=` call `GetSnapshot`), one pass enqueues exactly the snapshots of the pairs that fetch, in order, and sleeps 5 s per pair |
| OrderBookDataSource.AltmarketsAPIOrderBookDataSource.RefreshSnapshotsAsWritten | hummingbot/connector/exchange/altmarkets/altmarkets_api_order_book_data_source.py:219-238 | with `get_snapshot` as written, a pass leaves the queue as it was and sleeps 5 s per pair |
| OrderBookDataSource.AltmarketsAPIOrderBookDataSource.GetNewOrderBook | hummingbot/connector/exchange/altmarkets/altmarkets_api_order_book_data_source.py:105-114 | for the `get_snapshot` it is given (as written, or the corrected `client=` call `GetSnapshot`), raises the snapshot's error, or returns a new book with exactly that pair's snapshot applied |
| OrderBookDataSource.AltmarketsAPIOrderBookDataSource.GetNewOrderBookAsWritten | hummingbot/connector/exchange/altmarkets/altmarkets_api_order_book_data_source.py:98-114 | with `get_snapshot` as written, it always raises the IOError naming the pair |
| UserStreamDataSource.ClassifyUser | hummingbot/connector/exchange/altmarkets/altmarkets_api_user_stream_data_source.py:70-82 | tests `ping`, `subscribed`, then `order` or `trade`; each outcome holds if and only if its tests say so; a forwarded frame is the parsed frame, whole |
| UserStreamDataSource.UserMessagesAreOrderOrTradeFrames | hummingbot/connector/exchange/altmarkets/altmarkets_api_user_stream_data_source.py:74-79 | everything enqueued is a handled frame, whole, whose raw text names an order or a trade |
| UserStreamDataSource.UserAttempts | hummingbot/connector/exchange/altmarkets/altmarkets_api_user_stream_data_source.py:53-88 | where signing raises, no attempt connects: a cancelled attempt stays cancelled (the cancellation arrives in the 30 s sleep) and every other one fails |
| UserStreamDataSource.HeadersAt | hummingbot/connector/exchange/altmarkets/altmarkets_api_user_stream_data_source.py:53 | one header set per attempt, each `get_headers` at that attempt's clock reading |
| UserStreamDataSource.AltmarketsAPIUserStreamDataSource.constructor | hummingbot/connector/exchange/altmarkets/altmarkets_api_user_stream_data_source.py:32-38 | keeps the signer and pairs; `_last_recv_time` starts at 0 |
| UserStreamDataSource.AltmarketsAPIUserStreamDataSource.UserSubscriptions | hummingbot/connector/exchange/altmarkets/altmarkets_api_user_stream_data_source.py:64-69 | one identical subscribe frame per configured pair, so none for no pairs |
| UserStreamDataSource.AltmarketsAPIUserStreamDataSource.InnerMessages | hummingbot/connector/exchange/altmarkets/altmarkets_api_user_stream_data_source.py:90-117 | the connection as defined, closed afterwards, with `_last_recv_time` the last recorded time, or unchanged if none |
| UserStreamDataSource.AltmarketsAPIUserStreamDataSource.RunUserAttempt | hummingbot/connector/exchange/altmarkets/altmarkets_api_user_stream_data_source.py:54-88 | one signed attempt subscribes, runs the connection and sleeps 30 s after a failure |
| UserStreamDataSource.AltmarketsAPIUserStreamDataSource.SignAndRun | hummingbot/connector/exchange/altmarkets/altmarkets_api_user_stream_data_source.py:52-88 | fresh headers are signed before connecting, and the signer's nonce is that reading's; where signing raises the attempt does not connect, and only a cancellation stops it |
| UserStreamDataSource.AltmarketsAPIUserStreamDataSource.ListenForUserStream | hummingbot/connector/exchange/altmarkets/altmarkets_api_user_stream_data_source.py:44-88 | sockets, delays, enqueued frames, cancellation and `_last_recv_time` are those of the reconnect definition; exactly one header set is signed per attempt made, at its reading |
| UserStreamDataSource.UnsignableKeysNeverConnect | hummingbot/connector/exchange/altmarkets/altmarkets_api_user_stream_data_source.py:51-88 | with a key that is not Latin-1 the stream never connects and enqueues nothing; it re-raises a cancellation exactly when one arrives, at the first one, after a 30 s sleep per earlier attempt, and otherwise sleeps 30 s after every attempt |
| Encoding.Latin1 | hummingbot/connector/exchange/altmarkets/altmarkets_auth.py:32-33 | encoding succeeds if and only if every character is at most U+00FF, one byte per character, with the character's code |
| Encoding.Latin1RoundTrip | hummingbot/connector/exchange/altmarkets/altmarkets_auth.py:32-33 | decoding inverts encoding, both ways |
| Encoding.Latin1Append | hummingbot/connector/exchange/altmarkets/altmarkets_auth.py:33 | a concatenation encodes if and only if both parts do, to the concatenated bytes |
| Encoding.Utf8Char | hummingbot/connector/exchange/peatio/peatio_auth.py:25-26 | 1 to 4 bytes per character, with the UTF-8 lead-byte ranges and continuation bytes |
| Encoding.Utf8 | hummingbot/connector/exchange/peatio/peatio_auth.py:25-26 | never fails, and has at least one byte per character |
| Encoding.Utf8OfAscii | hummingbot/connector/exchange/peatio/peatio_auth.py:25-26 | on ASCII text UTF-8 and Latin-1 agree; any other text takes more UTF-8 bytes than characters |
| AltmarketsAuthentication.NonceMillis | hummingbot/connector/exchange/altmarkets/altmarkets_auth.py:26-27 | the milliseconds are the microseconds divided by 1000, rounded down |
| AltmarketsAuthentication.NonceReadsBack | hummingbot/connector/exchange/altmarkets/altmarkets_auth.py:28 | the nonce is ASCII and reads back as the milliseconds |
| AltmarketsAuthentication.NonceMonotone | hummingbot/connector/exchange/altmarkets/altmarkets_auth.py:26-28 | a later reading never gives a smaller nonce, and one within the same millisecond gives the same nonce |
| AltmarketsAuthentication.Signature | hummingbot/connector/exchange/altmarkets/altmarkets_auth.py:29-34 | the signature exists if and only if the secret and `nonce + api_key` are Latin-1 text |
| AltmarketsAuthentication.HeadersAuthentic | hummingbot/connector/exchange/altmarkets/altmarkets_auth.py:38-45 | headers exist if and only if both keys are Latin-1; they are exactly the four names, with the key, the reading's nonce and the content type, and the signature verifies |
| AltmarketsAuthentication.HeadersRepeatWithinMillisecond | hummingbot/connector/exchange/altmarkets/altmarkets_auth.py:26-45 | two signings within one millisecond give the same headers |
| AltmarketsAuthentication.AltmarketsAuth.constructor | hummingbot/connector/exchange/altmarkets/altmarkets_auth.py:12-16 | keeps the keys; no signature or nonce yet |
| AltmarketsAuthentication.AltmarketsAuth.GenerateSignature | hummingbot/connector/exchange/altmarkets/altmarkets_auth.py:20-36 | the nonce is stored first; it returns True with the stored signature of `nonce + api_key`, or raises and leaves the old signature |
| AltmarketsAuthentication.AltmarketsAuth.GetHeaders | hummingbot/connector/exchange/altmarkets/altmarkets_auth.py:38-45 | the headers of that reading; afterwards the nonce and signature fields equal the header values |
| PeatioAuthentication.PeatioAuth.GetHeaders | hummingbot/connector/exchange/peatio/peatio_auth.py:29-46 | exactly five headers: the key, the content type and the user agent as given, plus the nonce and its signature |
| PeatioAuthentication.PeatioHeadersAuthentic | hummingbot/connector/exchange/peatio/peatio_auth.py:35-46 | the signature header signs the nonce header followed by the key, and the nonce reads back as that reading's milliseconds |
| PeatioAuthentication.SignersAgreeOnAscii | hummingbot/connector/exchange/peatio/peatio_auth.py:19-46 | with ASCII keys the Altmarkets headers are the Peatio headers without `User-Agent` |
| MarketIndicator.TruncToInt | hummingbot/data_feed/market_indicator_data_feed.py:136 | `int` of a float truncates toward zero |
| MarketIndicator.UpdateInterval | hummingbot/data_feed/market_indicator_data_feed.py:38 | 30.0 when the interval is missing or below 1, otherwise the given interval |
| MarketIndicator.ExpireSeconds | hummingbot/data_feed/market_indicator_data_feed.py:45 | 300 s when the expiry is missing or below 1, otherwise 60 times the given minutes |
| MarketIndicator.TimeKey | hummingbot/data_feed/market_indicator_data_feed.py:131-135 | `timestamp` before `time`, and neither without `use_indicator_time`, as both directions of each case |
| MarketIndicator.FetchFailureChangesNothing | hummingbot/data_feed/market_indicator_data_feed.py:117-121 | a failed request, a non-200 status or a body that is not an object raises with no field changed |
| MarketIndicator.FetchWithoutIndicator | hummingbot/data_feed/market_indicator_data_feed.py:121-122 | without `market_indicator` nothing changes, ready is not set and nothing raises |
| MarketIndicator.FetchWithIndicator | hummingbot/data_feed/market_indicator_data_feed.py:122-142 | `up` sets the trend up, the up price to the price and the down price to 0; any other value gives the mirror image; both set ready and the check time |
| MarketIndicator.FetchPriceFailure | hummingbot/data_feed/market_indicator_data_feed.py:122-130 | a missing or unconvertible price raises after the trend (and, for a down indicator, the zero up price) is written |
| MarketIndicator.CheckTimeChoice | hummingbot/data_feed/market_indicator_data_feed.py:131-141 | the check time is the clock's, unless `use_indicator_time` and an integer-convertible `timestamp` (or, without one, `time`) |
| MarketIndicator.FetchAllKeepsReady | hummingbot/data_feed/market_indicator_data_feed.py:97-108 | once ready the feed stays ready, and once trended it keeps a trend |
| MarketIndicator.MarketIndicatorDataFeed.constructor | hummingbot/data_feed/market_indicator_data_feed.py:22-46 | normalised interval and expiry; no trend, check time 0, zero prices, not ready, no task |
| MarketIndicator.MarketIndicatorDataFeed.TrendIsUp | hummingbot/data_feed/market_indicator_data_feed.py:71-76 | `None` exactly once expired; otherwise true if and only if the trend is up |
| MarketIndicator.MarketIndicatorDataFeed.TrendIsDown | hummingbot/data_feed/market_indicator_data_feed.py:78-83 | `None` exactly once expired; otherwise true if and only if the trend is down |
| MarketIndicator.MarketIndicatorDataFeed.TrendQueriesAgree | hummingbot/data_feed/market_indicator_data_feed.py:71-83 | the two queries expire together, are never both true, and with a known trend exactly one holds |
| MarketIndicator.MarketIndicatorDataFeed.ExpiryWindow | hummingbot/data_feed/market_indicator_data_feed.py:72 | without expiry checks the queries answer; with them and a clock at least `expire` s past the epoch, a check less than `expire` s old answers and one a second older has expired |
| MarketIndicator.MarketIndicatorDataFeed.FetchTrend | hummingbot/data_feed/market_indicator_data_feed.py:110-144 | the new fields and whether it raised are those of the field-by-field update |
| MarketIndicator.MarketIndicatorDataFeed.FetchTrendLoop | hummingbot/data_feed/market_indicator_data_feed.py:97-108 | the polls are folded in order with exceptions swallowed, each followed by a sleep of the update interval |
| MarketIndicator.MarketIndicatorDataFeed.StopNetwork | hummingbot/data_feed/market_indicator_data_feed.py:150-153 | a running task is cancelled and forgotten; the feed state is unchanged |
| MarketIndicator.MarketIndicatorDataFeed.StartNetwork | hummingbot/data_feed/market_indicator_data_feed.py:146-148 | any previous task is cancelled, and a new uncancelled task replaces it |
| RandomLoopTradeConfig.Str2BoolAccepts | hummingbot/strategy/random_loop_trade/random_loop_trade_config_map.py:23-24 | `str2bool(s)` holds if and only if `s` is `yes`, `true`, `t` or `1` in any mix of case |
| RandomLoopTradeConfig.Str2BoolIgnoresCase | hummingbot/strategy/random_loop_trade/random_loop_trade_config_map.py:24 | upper-casing the input does not change the result |
| RandomLoopTradeConfig.Str2BoolOfValues | hummingbot/strategy/random_loop_trade/random_loop_trade_config_map.py:24 | `True` and `1` read as true; `False` and `0` read as false |
| RandomLoopTradeConfig.ValidateOrderType | hummingbot/strategy/random_loop_trade/random_loop_trade_config_map.py:53 | no error exactly for `limit`, `market` and the empty answer; otherwise `Invalid order type.` |
| RandomLoopTradeConfig.RequiredIf | hummingbot/strategy/random_loop_trade/random_loop_trade_config_map.py:100-121 | the four limit-order keys have a rule, and it holds if and only if the order type is `limit` |
| RandomLoopTradeConfig.LimitKeysTogether | hummingbot/strategy/random_loop_trade/random_loop_trade_config_map.py:54-121 | the four keys are required together: all for the default `limit`, none for another accepted type or an unset one |
| RandomLoopTradeConfig.TradingPairPromptShape | hummingbot/strategy/random_loop_trade/random_loop_trade_config_map.py:16-20 | the prompt names the market after its head; it is longer than the bare prompt if and only if a non-empty example exists, which then follows the market |

## Left out

- Transport and concurrency are abstract event and outcome sequences:
  - websocket I/O and RFC 6455 control frames;
  - aiohttp sessions and the request itself;
  - `asyncio.wait_for` and sleep timing;
  - task scheduling.
- A delay is recorded as a value, not waited.
- The snapshot refresher's hourly alignment (altmarkets_api_order_book_data_source.py:239-242) is left out. It reads the wall clock through pandas, and the model covers one pass over the pairs.
- The locally created `aiohttp.ClientSession` of the REST request is never closed; the model does not claim otherwise.
- HMAC-SHA256 is an uninterpreted function.
- JSON and ujson parsing, `json.dumps` of the subscribe requests, and floating-point JSON numbers are left out. A frame carries its parsed value. `str` of nested values does not escape quotes.
- `Decimal` is a partial function parameter. `int(text)` accepts an optional sign and ASCII digits only, without Python's whitespace, underscores or other Unicode digits.
- `\w` is ASCII letters, digits and `_`; `str.lower`/`str.upper` are ASCII-only.
- The order-book message builders and `OrderBook.apply_snapshot` are not part of this model. A message records its content and pair, and a book records the snapshots applied to it.
- Logging, `print`, the feed's `name`, `check_network`, `_http_client` and the request URL and params of `fetch_trend` are left out.
- EXAMPLE_PAIRS, ConfigVar, validate_exchange, validate_decimal and validate_market_trading_pair are left out. The example pairs are a parameter.
- The config keys without `required_if` follow ConfigVar's default, which is not part of this model.
- altmarkets_user_stream_tracker.py, start.py, peatio_order_book_tracker_entry.py, the_money_pit and the tests are wiring, containers or live-network tests.
- UserStreamDataSource.AltmarketsAPIUserStreamDataSource.ListenForUserStream: it does not state the signer's `nonce` field after the run; SignAndRun and GetHeaders state it per signing.
- The user stream sleeps a literal 30.0 after a failure, which equals MESSAGE_TIMEOUT; the user stream uses the shared listener definition on that basis.
- Encoding.Utf8: never fails, because a Dafny `char` is a Unicode scalar value; a Python `str` can hold a lone surrogate (from a JSON `\ud800`, say), on which `.encode('utf-8')` in peatio_auth.py:25-26 raises, and that case is not modelled.
- The two encodings are modelled although the HMAC is not: Latin-1 raises on characters above U+00FF, which decides whether the Altmarkets signer returns at all. `generate_signature` returns True whenever it returns.
- MarketIndicator.MarketIndicatorDataFeed.Expired and the trend queries use the clock value as an exact real; float rounding of `time.time() - expire` is left out.

## Findings

| source | as written | input that shows it | evidently intended | confidence | as-written member | corrected member |
|---|---|---|---|---|---|---|
| hummingbot/connector/exchange/altmarkets/altmarkets_api_order_book_data_source.py:100 | `generic_api_request("get", depth_url, shared_client=client)`, but the function's keyword is `client` | any pair, any exchange answer: the call raises TypeError, so `get_snapshot` always raises IOError, `get_new_order_book` always raises it too, and the refresher enqueues nothing | pass the session as `client=client` | high, not executed | OrderBookDataSource.GetSnapshotAsWrittenAlwaysFails | OrderBookDataSource.GetSnapshot |
