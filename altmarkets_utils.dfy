/** Trading-pair conversion between the display form `BASE-QUOTE` and the
    exchange's wire form `basequote`, the retry delay, and the retrying REST
    request of altmarkets_utils.py. */
module AltmarketsUtils {
  import opened Wrappers
  import opened Text
  import opened Json
  import opened AltmarketsConstants

  /** The exceptions that leave the connector's REST helpers and listeners. */
  datatype Raised =
    | AltmarketsAPIError(payload: Json)  // the exhausted REST retry, `{"error": <last parsed response>}`
    | IOError(message: string)
    | TypeError                          // e.g. a call with an unknown keyword argument
    | LookupError                        // a missing key, or indexing a value that is not a dict
    | ConversionError                    // Decimal(...) or int(...) refused its text

  // ---------------------------------------------------------------------------
  // Trading pairs

  /** Python's `$` also matches just before a final newline, so the pattern
      sees the symbol without one trailing "\n". */
  function WithoutFinalNewline(s: string): (t: string)
    ensures t <= s && |s| - 1 <= |t|
    ensures |t| < |s| <==> |s| > 0 && s[|s| - 1] == '\n'
  {
    if |s| > 0 && s[|s| - 1] == '\n' then s[..|s| - 1] else s
  }

  /** The splitter's groups can be `t[..k]` and `t[k..]`: a non-empty run of
      word characters followed by exactly one listed quote. */
  predicate SplitsAt(t: string, k: nat)
  {
    0 < k <= |t| && AllWordChars(t[..k]) && t[k..] in Quotes
  }

  /** The backtracking order of the greedy `\w+`: the longest base first. */
  function SplitSearch(t: string, k: nat): (r: Option<(string, string)>)
    requires k <= |t|
    ensures r.Some? ==> exists j :: 0 < j <= k && SplitsAt(t, j) && r.value == (t[..j], t[j..])
    ensures r.None? ==> forall j :: 0 < j <= k ==> !SplitsAt(t, j)
    decreases k
  {
    if k == 0 then None
    else if SplitsAt(t, k) then Some((t[..k], t[k..]))
    else SplitSearch(t, k - 1)
  }

  /** `split_trading_pair`: the two groups of the splitter's match, or `None`
      where `match` fails (and `m.group` raises). */
  function SplitTradingPair(s: string): Option<(string, string)>
  {
    var t := WithoutFinalNewline(s);
    SplitSearch(t, |t|)
  }

  /** A string splits in at most one place. */
  lemma SplitUnique(t: string, j1: nat, j2: nat)
    requires SplitsAt(t, j1) && SplitsAt(t, j2)
    ensures j1 == j2
  {
    QuotesSuffixFree();
    assert j1 < j2 ==> IsSuffix(t[j2..], t[j1..]) by {
      if j1 < j2 {
        assert t[j1..][|t[j1..]| - |t[j2..]|..] == t[j2..];
      }
    }
    assert j2 < j1 ==> IsSuffix(t[j1..], t[j2..]) by {
      if j2 < j1 {
        assert t[j2..][|t[j2..]| - |t[j1..]|..] == t[j1..];
      }
    }
  }

  /** The splitter's match, both ways: `s` splits into `(base, quote)` exactly
      when, without a final newline, it is a non-empty word-character base
      followed by a listed quote. */
  lemma {:induction false} SplitTradingPairSpec(s: string, base: string, quote: string)
    ensures SplitTradingPair(s) == Some((base, quote)) <==>
            (WithoutFinalNewline(s) == base + quote && |base| > 0 && AllWordChars(base) && quote in Quotes)
  {
    var t := WithoutFinalNewline(s);
    if WithoutFinalNewline(s) == base + quote && |base| > 0 && AllWordChars(base) && quote in Quotes {
      assert t[..|base|] == base && t[|base|..] == quote;
      assert SplitsAt(t, |base|);
      var r := SplitSearch(t, |t|);
      if r.Some? {
        var j :| 0 < j <= |t| && SplitsAt(t, j) && r.value == (t[..j], t[j..]);
        SplitUnique(t, j, |base|);
      }
    }
    if SplitTradingPair(s) == Some((base, quote)) {
      var j :| 0 < j <= |t| && SplitsAt(t, j) && (base, quote) == (t[..j], t[j..]);
      assert t == t[..j] + t[j..];
    }
  }

  /** `convert_from_exchange_trading_pair`: `BASE-QUOTE` in upper case, or
      `None` when the splitter does not match. */
  function ConvertFromExchangeTradingPair(exchangePair: string): (r: Option<string>)
    ensures r.None? <==> forall k :: !SplitsAt(WithoutFinalNewline(exchangePair), k)
    ensures r.Some? ==> exists k: nat :: SplitsAt(WithoutFinalNewline(exchangePair), k) &&
                          var t := WithoutFinalNewline(exchangePair);
                          r.value == Upper(t[..k]) + "-" + Upper(t[k..])
  {
    match SplitTradingPair(exchangePair)
    case None => None
    case Some((base, quote)) => Some(Upper(base) + "-" + Upper(quote))
  }

  /** `convert_to_exchange_trading_pair`: every `-` removed, then lower case. */
  function ConvertToExchangeTradingPair(pair: string): (r: string)
    ensures forall i :: 0 <= i < |r| ==> r[i] != '-' && !IsUpperAscii(r[i])
  {
    Lower(RemoveChar(pair, '-'))
  }

  predicate IsDisplayBase(base: string)
  {
    |base| > 0 && forall i :: 0 <= i < |base| ==> IsUpperAscii(base[i]) || IsDigit(base[i]) || base[i] == '_'
  }

  predicate AllLowerAscii(s: string)
  {
    forall i :: 0 <= i < |s| ==> IsLowerAscii(s[i])
  }

  lemma QuotesAreLowerCase()
    ensures forall q :: q in Quotes ==> |q| > 0 && AllLowerAscii(q)
  {
    assert AllLowerAscii("btc") && AllLowerAscii("ltc") && AllLowerAscii("altm") && AllLowerAscii("doge");
    assert AllLowerAscii("eth") && AllLowerAscii("bnb") && AllLowerAscii("usdt") && AllLowerAscii("usdc");
    assert AllLowerAscii("usds") && AllLowerAscii("tusd") && AllLowerAscii("cro") && AllLowerAscii("roger");
  }

  /** Removing `-` from `base-QUOTE` leaves `baseQUOTE` when neither part has one. */
  lemma RemoveSeparator(base: string, quoteUpper: string)
    requires forall i :: 0 <= i < |base| ==> base[i] != '-'
    requires forall i :: 0 <= i < |quoteUpper| ==> quoteUpper[i] != '-'
    ensures RemoveChar(base + "-" + quoteUpper, '-') == base + quoteUpper
  {
    var rest := "-" + quoteUpper;
    assert base + "-" + quoteUpper == base + rest;
    assert rest[0] == '-' && rest[1..] == quoteUpper;
    RemoveCharAbsent(quoteUpper, '-');
    assert RemoveChar(rest, '-') == quoteUpper;
    RemoveCharAppend(base, rest, '-');
    RemoveCharAbsent(base, '-');
  }

  lemma LowerOfUpperQuote(quote: string)
    requires AllLowerAscii(quote)
    ensures Lower(Upper(quote)) == quote
    ensures forall i :: 0 <= i < |Upper(quote)| ==> IsUpperAscii(Upper(quote)[i])
  {
  }

  lemma LowerAppend(a: string, b: string)
    ensures Lower(a + b) == Lower(a) + Lower(b)
  {
  }

  /** The wire form is taken character by character: it distributes over
      concatenation, a `-` vanishes and any other character is lower-cased. */
  lemma ConvertToExchangeAppend(a: string, b: string)
    ensures ConvertToExchangeTradingPair(a + b) == ConvertToExchangeTradingPair(a) + ConvertToExchangeTradingPair(b)
  {
    RemoveCharAppend(a, b, '-');
    LowerAppend(RemoveChar(a, '-'), RemoveChar(b, '-'));
  }

  lemma ConvertToExchangeChar(c: char)
    ensures ConvertToExchangeTradingPair([c]) == if c == '-' then "" else [LowerChar(c)]
  {
    assert [c][1..] == [];
  }

  /** Every `-` is dropped: the wire form of `a-b` is the wire forms of `a`
      and `b` side by side, and a text without `-` is only lower-cased. */
  lemma ConvertToExchangeDropsSeparators(a: string, b: string)
    ensures ConvertToExchangeTradingPair(a + "-" + b) == ConvertToExchangeTradingPair(a) + ConvertToExchangeTradingPair(b)
    ensures (forall i :: 0 <= i < |a| ==> a[i] != '-') ==> ConvertToExchangeTradingPair(a) == Lower(a)
  {
    ConvertToExchangeAppend(a + "-", b);
    ConvertToExchangeAppend(a, "-");
    ConvertToExchangeChar('-');
    assert ConvertToExchangeTradingPair(a) + "" == ConvertToExchangeTradingPair(a);
    if forall i :: 0 <= i < |a| ==> a[i] != '-' {
      RemoveCharAbsent(a, '-');
    }
  }

  /** The wire form of a display pair is the lower-case base followed by the quote. */
  lemma WireFormOfDisplayPair(base: string, quote: string)
    requires IsDisplayBase(base) && quote in Quotes
    ensures ConvertToExchangeTradingPair(base + "-" + Upper(quote)) == Lower(base) + quote
  {
    QuotesAreLowerCase();
    LowerOfUpperQuote(quote);
    RemoveSeparator(base, Upper(quote));
    LowerAppend(base, Upper(quote));
  }

  lemma UpperOfLowerDisplayBase(base: string)
    requires IsDisplayBase(base)
    ensures Upper(Lower(base)) == base && |Lower(base)| > 0 && AllWordChars(Lower(base))
  {
  }

  /** Display form to wire form and back is the identity on `BASE-QUOTE` with
      a base of upper-case ASCII letters, digits and `_` and a listed quote. */
  lemma ConvertRoundTrip(base: string, quote: string)
    requires IsDisplayBase(base) && quote in Quotes
    ensures ConvertFromExchangeTradingPair(ConvertToExchangeTradingPair(base + "-" + Upper(quote)))
            == Some(base + "-" + Upper(quote))
  {
    WireFormOfDisplayPair(base, quote);
    UpperOfLowerDisplayBase(base);
    QuotesAreLowerCase();
    var lb := Lower(base);
    var wire := lb + quote;
    assert WithoutFinalNewline(wire) == wire by {
      assert wire[|wire| - 1] == quote[|quote| - 1];
      assert IsLowerAscii(quote[|quote| - 1]);
    }
    SplitTradingPairSpec(wire, lb, quote);
  }

  // ---------------------------------------------------------------------------
  // Retry delay

  function Pow(b: nat, e: nat): nat
  {
    if e == 0 then 1 else b * Pow(b, e - 1)
  }

  /** `retry_sleep_time(try_count)` with the draw of `random.randint(1, 10)`
      given as `jitter`: `5 + (1 + jitter/100) * (1 + try_count ** try_count)`
      seconds, so between 1.01 and 1.10 times the base term, plus 5. */
  function RetrySleepTime(tryCount: nat, jitter: int): (t: real)
    requires 1 <= jitter <= 10
    ensures var base := (1 + Pow(tryCount, tryCount)) as real;
            5.0 + 1.01 * base <= t <= 5.0 + 1.10 * base
  {
    var base := (1 + Pow(tryCount, tryCount)) as real;
    var factor := 1.0 + jitter as real / 100.0;
    assert 1.01 <= factor <= 1.10;
    assert 1.01 * base <= factor * base <= 1.10 * base by {
      assert base >= 0.0;
    }
    5.0 + factor * base
  }

  // ---------------------------------------------------------------------------
  // The retrying REST request

  /** The retry bound written in `generic_api_request`. */
  const RetryLimit: nat := 4

  lemma RetryLimitIsApiMaxRetries()
    ensures RetryLimit == ApiMaxRetries
  {
  }

  /** What one call of the HTTP client yields: an exception before any
      response, or a status with a body that `response.json()` parsed or not
      (then the text `str(await response.read())`, absent if reading raised). */
  datatype Body = JsonBody(value: Json) | Unparsable(text: Option<string>)
  datatype AttemptOutcome = Raises | Responds(status: int, body: Body)

  /** The three locals after one attempt: `request_errors`, `http_status`, `parsed_response`. */
  datatype Observation = Observation(requestErrors: bool, httpStatus: Option<int>, parsed: Json)

  /** The request one attempt issues. */
  datatype HttpRequest = HttpRequest(verb: string, url: string, contentType: string,
                                     params: Option<Json>, timeout: real, newSession: bool)

  /** The result of the request: the body, the attempts made and the delays slept in between. */
  datatype RetryRun = RetryRun(outcome: Result<Json, Raised>, attempts: nat, sleeps: seq<real>)

  const TruncationMark := " ... (truncated)"

  /** An unparsable body longer than 100 characters keeps its first 100 and a mark. */
  function Truncated(text: string): (r: string)
    ensures |r| <= 100 + |TruncationMark|
    ensures |text| <= 100 ==> r == text
    ensures |text| > 100 ==> text[..100] <= r && r[100..] == TruncationMark
  {
    if |text| > 100 then text[..100] + TruncationMark else text
  }

  function Observe(a: AttemptOutcome): Observation
  {
    match a
    case Raises => Observation(true, None, Null)
    case Responds(status, body) =>
      var parsed := match body
                    case JsonBody(v) => v
                    case Unparsable(text) => if text.Some? then Str(Truncated(text.value)) else Null;
      var bad := status !in {200, 201} || parsed == Null;
      Observation(body.Unparsable? || bad, if bad then Some(status) else None, parsed)
  }

  /** An attempt ends the request exactly when nothing raised, the body
      parsed as JSON, the status is 200 or 201 and the body is not `null`. */
  function AttemptSucceeded(a: AttemptOutcome): (ok: bool)
    ensures ok <==> a.Responds? && a.status in {200, 201} && a.body.JsonBody? && a.body.value != Null
  {
    var o := Observe(a);
    !(o.requestErrors || o.parsed == Null)
  }

  function RequestFor(root: string, verb: string, path: string, params: Option<Json>, clientGiven: bool): HttpRequest
  {
    HttpRequest(Upper(verb), root + path,
                if verb == "post" then "application/json" else "application/x-www-form-urlencoded",
                params, ApiCallTimeout, !clientGiven)
  }

  predicate ValidJitters(jitters: seq<int>)
  {
    RetryLimit <= |jitters| && forall k :: 0 <= k < |jitters| ==> 1 <= jitters[k] <= 10
  }

  /** The recursive definition of `generic_api_request` from `try_count`
      onwards: attempt `try_count` is `outcomes[try_count]`, and the delay
      before retry `try_count + 1` draws `jitters[try_count]`. */
  function RetryFrom(outcomes: seq<AttemptOutcome>, jitters: seq<int>, tryCount: nat): RetryRun
    requires tryCount <= RetryLimit < |outcomes| && ValidJitters(jitters)
    decreases RetryLimit - tryCount
  {
    var o := Observe(outcomes[tryCount]);
    if !(o.requestErrors || o.parsed == Null) then RetryRun(Success(o.parsed), tryCount + 1, [])
    else if tryCount < RetryLimit then
      var rest := RetryFrom(outcomes, jitters, tryCount + 1);
      RetryRun(rest.outcome, rest.attempts, [RetrySleepTime(tryCount + 1, jitters[tryCount])] + rest.sleeps)
    else RetryRun(Failure(AltmarketsAPIError(Obj([("error", o.parsed)]))), tryCount + 1, [])
  }

  /** One retry step of the recursive definition. */
  lemma RetryStep(outcomes: seq<AttemptOutcome>, jitters: seq<int>, tryCount: nat)
    requires tryCount < RetryLimit < |outcomes| && ValidJitters(jitters)
    requires !AttemptSucceeded(outcomes[tryCount])
    ensures var here, next := RetryFrom(outcomes, jitters, tryCount), RetryFrom(outcomes, jitters, tryCount + 1);
            here.outcome == next.outcome && here.attempts == next.attempts &&
            here.sleeps == [RetrySleepTime(tryCount + 1, jitters[tryCount])] + next.sleeps
  {
  }

  /** The loop invariant of `GenericApiRequest`: the request ahead from
      `tryCount` on, after the delays already slept, is the whole request. */
  ghost predicate Retrying(outcomes: seq<AttemptOutcome>, jitters: seq<int>, spec: RetryRun, tryCount: nat, sleeps: seq<real>)
  {
    tryCount <= RetryLimit < |outcomes| && ValidJitters(jitters) &&
    var ahead := RetryFrom(outcomes, jitters, tryCount);
    spec.outcome == ahead.outcome && spec.attempts == ahead.attempts && spec.sleeps == sleeps + ahead.sleeps
  }

  lemma RetryAdvance(outcomes: seq<AttemptOutcome>, jitters: seq<int>, spec: RetryRun, tryCount: nat, sleeps: seq<real>)
    requires Retrying(outcomes, jitters, spec, tryCount, sleeps)
    requires tryCount < RetryLimit && !AttemptSucceeded(outcomes[tryCount])
    ensures 1 <= jitters[tryCount] <= 10
    ensures Retrying(outcomes, jitters, spec, tryCount + 1, sleeps + [RetrySleepTime(tryCount + 1, jitters[tryCount])])
  {
    RetryStep(outcomes, jitters, tryCount);
    var d := RetrySleepTime(tryCount + 1, jitters[tryCount]);
    assert sleeps + ([d] + RetryFrom(outcomes, jitters, tryCount + 1).sleeps)
        == (sleeps + [d]) + RetryFrom(outcomes, jitters, tryCount + 1).sleeps;
  }

  /** The last attempt: the first successful one, or the one after the last retry. */
  lemma RetryEnd(outcomes: seq<AttemptOutcome>, jitters: seq<int>, tryCount: nat)
    requires tryCount <= RetryLimit < |outcomes| && ValidJitters(jitters)
    requires AttemptSucceeded(outcomes[tryCount]) || tryCount == RetryLimit
    ensures var parsed, r := Observe(outcomes[tryCount]).parsed, RetryFrom(outcomes, jitters, tryCount);
            r.attempts == tryCount + 1 && r.sleeps == [] &&
            r.outcome == if AttemptSucceeded(outcomes[tryCount]) then Success(parsed)
                         else Failure(AltmarketsAPIError(Obj([("error", parsed)])))
  {
  }

  /** `generic_api_request`, with the recursive retry written as a loop. It
      returns the parsed body or raises, the requests it issued and the delays
      it slept. */
  method GenericApiRequest(root: string, verb: string, path: string, params: Option<Json>, clientGiven: bool,
                           outcomes: seq<AttemptOutcome>, jitters: seq<int>)
    returns (r: Result<Json, Raised>, issued: seq<HttpRequest>, sleeps: seq<real>)
    requires RetryLimit < |outcomes| && ValidJitters(jitters)
    ensures r == RetryFrom(outcomes, jitters, 0).outcome
    ensures sleeps == RetryFrom(outcomes, jitters, 0).sleeps
    ensures |issued| == RetryFrom(outcomes, jitters, 0).attempts
    ensures forall k :: 0 <= k < |issued| ==> issued[k] == RequestFor(root, verb, path, params, clientGiven)
  {
    ghost var spec := RetryFrom(outcomes, jitters, 0);
    var request := RequestFor(root, verb, path, params, clientGiven);
    var tryCount := 0;
    issued, sleeps := [request], [];
    var ok := AttemptSucceeded(outcomes[0]);
    while !ok && tryCount < RetryLimit
      invariant Retrying(outcomes, jitters, spec, tryCount, sleeps)
      invariant ok == AttemptSucceeded(outcomes[tryCount])
      invariant |issued| == tryCount + 1 && forall k :: 0 <= k < |issued| ==> issued[k] == request
      decreases RetryLimit - tryCount
    {
      RetryAdvance(outcomes, jitters, spec, tryCount, sleeps);
      sleeps := sleeps + [RetrySleepTime(tryCount + 1, jitters[tryCount])];
      tryCount := tryCount + 1;
      issued := issued + [request];
      ok := AttemptSucceeded(outcomes[tryCount]);
    }
    RetryEnd(outcomes, jitters, tryCount);
    var parsed := Observe(outcomes[tryCount]).parsed;
    if ok {
      r := Success(parsed);
    } else {
      r := Failure(AltmarketsAPIError(Obj([("error", parsed)])));
    }
  }

  /** At most `RetryLimit + 1` attempts; the delay before retry `k` is
      `retry_sleep_time(k)` with the `k`-th draw. */
  lemma {:induction false} RetryBounds(outcomes: seq<AttemptOutcome>, jitters: seq<int>, tryCount: nat)
    requires tryCount <= RetryLimit < |outcomes| && ValidJitters(jitters)
    ensures var r := RetryFrom(outcomes, jitters, tryCount);
            tryCount < r.attempts <= RetryLimit + 1 &&
            |r.sleeps| == r.attempts - 1 - tryCount &&
            forall k :: 0 <= k < |r.sleeps| ==> r.sleeps[k] == RetrySleepTime(tryCount + k + 1, jitters[tryCount + k])
    decreases RetryLimit - tryCount
  {
    var o := Observe(outcomes[tryCount]);
    if (o.requestErrors || o.parsed == Null) && tryCount < RetryLimit {
      RetryBounds(outcomes, jitters, tryCount + 1);
    }
  }

  /** The request succeeds exactly when one of the attempts it may make
      succeeds, and then returns the body of the first successful one. */
  lemma {:induction false} RetrySuccess(outcomes: seq<AttemptOutcome>, jitters: seq<int>, tryCount: nat)
    requires tryCount <= RetryLimit < |outcomes| && ValidJitters(jitters)
    ensures var r := RetryFrom(outcomes, jitters, tryCount);
            (r.outcome.Success? <==> exists k :: tryCount <= k <= RetryLimit && AttemptSucceeded(outcomes[k])) &&
            (r.outcome.Success? ==>
               tryCount < r.attempts && AttemptSucceeded(outcomes[r.attempts - 1]) &&
               r.outcome.value == outcomes[r.attempts - 1].body.value &&
               forall k :: tryCount <= k < r.attempts - 1 ==> !AttemptSucceeded(outcomes[k]))
    decreases RetryLimit - tryCount
  {
    var o := Observe(outcomes[tryCount]);
    if (o.requestErrors || o.parsed == Null) && tryCount < RetryLimit {
      RetrySuccess(outcomes, jitters, tryCount + 1);
    }
  }

  /** An exhausted request has made every attempt and raises with the last
      parsed response as its payload. */
  lemma {:induction false} RetryFailure(outcomes: seq<AttemptOutcome>, jitters: seq<int>, tryCount: nat)
    requires tryCount <= RetryLimit < |outcomes| && ValidJitters(jitters)
    ensures var r := RetryFrom(outcomes, jitters, tryCount);
            r.outcome.Failure? ==>
              r.attempts == RetryLimit + 1 &&
              r.outcome.error == AltmarketsAPIError(Obj([("error", Observe(outcomes[RetryLimit]).parsed)]))
    decreases RetryLimit - tryCount
  {
    var o := Observe(outcomes[tryCount]);
    if (o.requestErrors || o.parsed == Null) && tryCount < RetryLimit {
      RetryFailure(outcomes, jitters, tryCount + 1);
    }
  }

  /** Three server errors and then a 200 response: the body comes back after
      four attempts and three delays. */
  lemma ThreeServerErrorsThenOk(body: Json, last: AttemptOutcome, jitters: seq<int>)
    requires body != Null && ValidJitters(jitters)
    ensures var outcomes := [Responds(500, JsonBody(Obj([]))), Responds(500, JsonBody(Obj([]))),
                             Responds(500, JsonBody(Obj([]))), Responds(200, JsonBody(body)), last];
            var r := RetryFrom(outcomes, jitters, 0);
            r.outcome == Success(body) && r.attempts == 4 && |r.sleeps| == 3
  {
  }
}
