/** The market-indicator feed of market_indicator_data_feed.py: it polls an
    HTTP endpoint for an `up`/other trend indicator and a price, keeps the
    latest trend, prices and check time, and answers tri-state
    "trend is up / down" queries that expire. The HTTP request, the clock
    and `Decimal` are inputs of the model. */
module MarketIndicator {
  import opened Wrappers
  import opened Text
  import opened Json

  /** `int(x)` on a float: truncation toward zero. */
  function TruncToInt(x: real): (r: int)
    ensures 0.0 <= x ==> r as real <= x < r as real + 1.0
    ensures x < 0.0 ==> r as real - 1.0 < x <= r as real
  {
    if 0.0 <= x then x.Floor else -((-x).Floor)
  }

  /** `30.0 if (update_interval is None or update_interval < 1) else update_interval` */
  function UpdateInterval(given: Option<real>): (r: real)
    ensures given.Some? && given.value >= 1.0 ==> r == given.value
    ensures given.None? || given.value < 1.0 ==> r == 30.0
    ensures r >= 1.0
  {
    if given.None? || given.value < 1.0 then 30.0 else given.value
  }

  /** `300 if (expire_time is None or expire_time < 1) else (expire_time * 60)`:
      the argument is in minutes, the default already in seconds. */
  function ExpireSeconds(given: Option<int>): (r: int)
    ensures given.Some? && given.value >= 1 ==> r == given.value * 60
    ensures given.None? || given.value < 1 ==> r == 300
    ensures r >= 60
  {
    if given.None? || given.value < 1 then 300 else given.value * 60
  }

  /** The fields `fetch_trend` writes: `_market_trend` (None, True or False),
      `_last_check`, `_last_price_up`, `_last_price_down` and whether
      `_ready_event` is set. */
  datatype FeedState = FeedState(trend: Option<bool>, lastCheck: int, priceUp: real, priceDown: real, ready: bool)

  /** What the GET of the indicator URL did: it raised, or it answered with
      a status and a body that `resp.json()` parses (`None` where it raises). */
  datatype FeedResponse = RequestRaises | Answered(status: int, body: Option<Json>)

  /** The key `_last_check` is read from: `timestamp` before `time`, and
      neither unless `use_indicator_time` is set. */
  function TimeKey(rjson: Json, useIndicatorTime: bool): (r: Option<string>)
    ensures r == Some("timestamp") <==> useIndicatorTime && HasKey(rjson, "timestamp")
    ensures r == Some("time") <==> useIndicatorTime && !HasKey(rjson, "timestamp") && HasKey(rjson, "time")
    ensures r.None? <==> !useIndicatorTime || (!HasKey(rjson, "timestamp") && !HasKey(rjson, "time"))
  {
    if HasKey(rjson, "timestamp") && useIndicatorTime then Some("timestamp")
    else if HasKey(rjson, "time") && useIndicatorTime then Some("time")
    else None
  }

  /** `_last_check`: `int(time.time())`, replaced by `int(rjson[time_key])`
      when there is a time key and the conversion does not raise. */
  function CheckTime(rjson: Json, useIndicatorTime: bool, now: real): int
  {
    match TimeKey(rjson, useIndicatorTime)
    case None => TruncToInt(now)
    case Some(k) =>
      match PyInt(Get(rjson, k).value)
      case Some(t) => t
      case None => TruncToInt(now)
  }

  /** One `fetch_trend` call from state `s`: the new state, and whether it
      raised. The fields are assigned one after another, so a price that
      is missing or does not convert raises after the trend (and, for a
      down indicator, the up price) has already been written. */
  function Fetch(s: FeedState, resp: FeedResponse, now: real, useIndicatorTime: bool,
                 decimal: string -> Option<real>): (r: (FeedState, bool))
  {
    if resp.RequestRaises? || resp.status != 200 || resp.body.None? || !resp.body.value.Obj? then (s, true)
    else
      var rjson := resp.body.value;
      if !HasKey(rjson, "market_indicator") then (s, false)
      else
        var up := Get(rjson, "market_indicator").value == Str("up");
        var s1 := if up then s.(trend := Some(true)) else s.(trend := Some(false), priceUp := 0.0);
        var price := match Get(rjson, "price") case None => None case Some(p) => decimal(PyStr(p));
        match price
        case None => (s1, true)
        case Some(x) =>
          var s2 := if up then s1.(priceUp := x, priceDown := 0.0) else s1.(priceDown := x);
          (s2.(lastCheck := CheckTime(rjson, useIndicatorTime, now), ready := true), false)
  }

  /** A failed request, a status other than 200, or a body that is not a
      JSON object raises before any field changes. */
  lemma FetchFailureChangesNothing(s: FeedState, resp: FeedResponse, now: real, useIndicatorTime: bool,
                                   decimal: string -> Option<real>)
    requires resp.RequestRaises? || resp.status != 200 || resp.body.None? || !resp.body.value.Obj?
    ensures Fetch(s, resp, now, useIndicatorTime, decimal) == (s, true)
  {
  }

  /** A response without `market_indicator` changes nothing, does not set
      ready, and does not raise. */
  lemma FetchWithoutIndicator(s: FeedState, rjson: Json, now: real, useIndicatorTime: bool,
                              decimal: string -> Option<real>)
    requires rjson.Obj? && !HasKey(rjson, "market_indicator")
    ensures Fetch(s, Answered(200, Some(rjson)), now, useIndicatorTime, decimal) == (s, false)
  {
  }

  /** An `up` indicator with a price makes the trend up, the up price that
      price and the down price 0; any other indicator value the mirror
      image. Either sets ready and records the check time. */
  lemma FetchWithIndicator(s: FeedState, rjson: Json, now: real, useIndicatorTime: bool,
                           decimal: string -> Option<real>, x: real)
    requires rjson.Obj? && HasKey(rjson, "market_indicator") && Get(rjson, "price").Some?
    requires decimal(PyStr(Get(rjson, "price").value)) == Some(x)
    ensures var up := Get(rjson, "market_indicator").value == Str("up");
            var (t, raised) := Fetch(s, Answered(200, Some(rjson)), now, useIndicatorTime, decimal);
            !raised && t.ready && t.trend == Some(up) &&
            (up ==> t.priceUp == x && t.priceDown == 0.0) && (!up ==> t.priceUp == 0.0 && t.priceDown == x) &&
            t.lastCheck == CheckTime(rjson, useIndicatorTime, now)
  {
  }

  /** A missing or unconvertible price raises with the trend already
      written and the rest of the state as it was (apart from the up price
      of a down indicator). */
  lemma FetchPriceFailure(s: FeedState, rjson: Json, now: real, useIndicatorTime: bool,
                          decimal: string -> Option<real>)
    requires rjson.Obj? && HasKey(rjson, "market_indicator")
    requires Get(rjson, "price").None? || decimal(PyStr(Get(rjson, "price").value)).None?
    ensures var up := Get(rjson, "market_indicator").value == Str("up");
            var (t, raised) := Fetch(s, Answered(200, Some(rjson)), now, useIndicatorTime, decimal);
            raised && t.trend == Some(up) && t.lastCheck == s.lastCheck && t.ready == s.ready &&
            t.priceDown == s.priceDown && t.priceUp == (if up then s.priceUp else 0.0)
  {
  }

  /** The check time is the clock's, except that with `use_indicator_time`
      an integer `timestamp` wins, and `time` is read only when there is no
      `timestamp` key at all (an unconvertible `timestamp` falls back to the
      clock, not to `time`). */
  lemma CheckTimeChoice(rjson: Json, useIndicatorTime: bool, now: real)
    ensures !useIndicatorTime ==> CheckTime(rjson, useIndicatorTime, now) == TruncToInt(now)
    ensures useIndicatorTime && HasKey(rjson, "timestamp") ==>
              CheckTime(rjson, useIndicatorTime, now) ==
              (match PyInt(Get(rjson, "timestamp").value) case Some(t) => t case None => TruncToInt(now))
    ensures useIndicatorTime && !HasKey(rjson, "timestamp") && HasKey(rjson, "time") ==>
              CheckTime(rjson, useIndicatorTime, now) ==
              (match PyInt(Get(rjson, "time").value) case Some(t) => t case None => TruncToInt(now))
    ensures !HasKey(rjson, "timestamp") && !HasKey(rjson, "time") ==>
              CheckTime(rjson, useIndicatorTime, now) == TruncToInt(now)
  {
  }

  /** `fetch_trend_loop` over a sequence of polls: `fetch_trend` each time,
      exceptions logged and swallowed. */
  function FetchAll(s: FeedState, resps: seq<FeedResponse>, nows: seq<real>, useIndicatorTime: bool,
                    decimal: string -> Option<real>): FeedState
    requires |nows| == |resps|
    decreases |resps|
  {
    if resps == [] then s
    else FetchAll(Fetch(s, resps[0], nows[0], useIndicatorTime, decimal).0, resps[1..], nows[1..],
                  useIndicatorTime, decimal)
  }

  /** Once ready, the feed stays ready, and once it has a trend it keeps one. */
  lemma {:induction false} FetchAllKeepsReady(s: FeedState, resps: seq<FeedResponse>, nows: seq<real>,
                                              useIndicatorTime: bool, decimal: string -> Option<real>)
    requires |nows| == |resps|
    ensures s.ready ==> FetchAll(s, resps, nows, useIndicatorTime, decimal).ready
    ensures s.trend.Some? ==> FetchAll(s, resps, nows, useIndicatorTime, decimal).trend.Some?
    decreases |resps|
  {
    if resps != [] {
      FetchAllKeepsReady(Fetch(s, resps[0], nows[0], useIndicatorTime, decimal).0, resps[1..], nows[1..],
                         useIndicatorTime, decimal);
    }
  }

  /** `fetch_trend_loop`'s task as `start_network` schedules it. */
  class Task {
    var cancelled: bool

    constructor ()
      ensures !cancelled
    {
      cancelled := false;
    }

    method Cancel()
      modifies this
      ensures cancelled
    {
      cancelled := true;
    }
  }

  class MarketIndicatorDataFeed {
    const apiUrl: string
    const apiKey: string
    const updateInterval: real
    const checkExpiry: bool
    const expireSeconds: int
    const useIndicatorTime: bool
    var marketTrend: Option<bool>
    var lastCheck: int
    var lastPriceUp: real
    var lastPriceDown: real
    var ready: bool
    var fetchTrendTask: Task?

    constructor (apiUrl: string, apiKey: string, updateInterval: Option<real>, checkExpiry: bool,
                 expireTime: Option<int>, useIndicatorTime: bool)
      ensures this.apiUrl == apiUrl && this.apiKey == apiKey && this.checkExpiry == checkExpiry &&
              this.useIndicatorTime == useIndicatorTime
      ensures this.updateInterval == UpdateInterval(updateInterval) && expireSeconds == ExpireSeconds(expireTime)
      ensures State() == FeedState(None, 0, 0.0, 0.0, false) && fetchTrendTask == null
    {
      this.apiUrl := apiUrl;
      this.apiKey := apiKey;
      this.updateInterval := UpdateInterval(updateInterval);
      this.checkExpiry := checkExpiry;
      expireSeconds := ExpireSeconds(expireTime);
      this.useIndicatorTime := useIndicatorTime;
      marketTrend := None;
      lastCheck := 0;
      lastPriceUp := 0.0;
      lastPriceDown := 0.0;
      ready := false;
      fetchTrendTask := null;
    }

    function State(): FeedState
      reads this
    {
      FeedState(marketTrend, lastCheck, lastPriceUp, lastPriceDown, ready)
    }

    /** The indicator has expired: expiry is checked and the last check is
        not after `int(now - expire)`. */
    predicate Expired(now: real)
      reads this
    {
      checkExpiry && lastCheck <= TruncToInt(now - expireSeconds as real)
    }

    /** `trend_is_up()` at clock reading `now`; `None` once expired. */
    function TrendIsUp(now: real): (r: Option<bool>)
      reads this
      ensures r.None? <==> Expired(now)
      ensures r.Some? ==> (r.value <==> marketTrend == Some(true))
    {
      if !Expired(now) then Some(marketTrend == Some(true)) else None
    }

    /** `trend_is_down()` at clock reading `now`; `None` once expired. */
    function TrendIsDown(now: real): (r: Option<bool>)
      reads this
      ensures r.None? <==> Expired(now)
      ensures r.Some? ==> (r.value <==> marketTrend == Some(false))
    {
      if !Expired(now) then Some(marketTrend == Some(false)) else None
    }

    /** The two queries expire together, are never both true, and with a
        known trend exactly one of them holds until it expires. */
    lemma TrendQueriesAgree(now: real)
      ensures TrendIsUp(now).None? <==> TrendIsDown(now).None?
      ensures !(TrendIsUp(now) == Some(true) && TrendIsDown(now) == Some(true))
      ensures marketTrend.Some? && !Expired(now) ==> (TrendIsUp(now) == Some(true)) != (TrendIsDown(now) == Some(true))
    {
      if marketTrend.Some? && !Expired(now) {
        var b := marketTrend.value;
        assert TrendIsUp(now).Some? && TrendIsUp(now).value == (marketTrend == Some(true));
        assert (marketTrend == Some(true)) == b;
        assert TrendIsUp(now) == Some(b);
        assert TrendIsDown(now) == Some(!b);
      }
    }

    /** Without expiry checking the queries never expire. With it, and a
        clock at least `expire` seconds past the epoch, a check made less
        than `expire` seconds ago keeps them answering and one made a second
        or more before that has expired. */
    lemma ExpiryWindow(now: real)
      ensures !checkExpiry ==> TrendIsUp(now).Some?
      ensures checkExpiry && now >= expireSeconds as real ==>
                (lastCheck as real > now - expireSeconds as real ==> TrendIsUp(now).Some?) &&
                (lastCheck as real <= now - expireSeconds as real - 1.0 ==> TrendIsUp(now).None?)
    {
    }

    /** `fetch_trend()` with the response `resp` at clock reading `now`. */
    method FetchTrend(resp: FeedResponse, now: real, decimal: string -> Option<real>) returns (raised: bool)
      modifies this
      ensures (State(), raised) == Fetch(old(State()), resp, now, useIndicatorTime, decimal)
      ensures fetchTrendTask == old(fetchTrendTask)
    {
      if resp.RequestRaises? || resp.status != 200 || resp.body.None? || !resp.body.value.Obj? {
        return true;
      }
      var rjson := resp.body.value;
      if !HasKey(rjson, "market_indicator") {
        return false;
      }
      var up := Get(rjson, "market_indicator").value == Str("up");
      var price := match Get(rjson, "price") case None => None case Some(p) => decimal(PyStr(p));
      if up {
        marketTrend := Some(true);
        if price.None? {
          return true;
        }
        lastPriceUp := price.value;
        lastPriceDown := 0.0;
      } else {
        marketTrend := Some(false);
        lastPriceUp := 0.0;
        if price.None? {
          return true;
        }
        lastPriceDown := price.value;
      }
      lastCheck := TruncToInt(now);
      var timeKey := TimeKey(rjson, useIndicatorTime);
      if timeKey.Some? {
        var t := PyInt(Get(rjson, timeKey.value).value);
        if t.Some? {
          lastCheck := t.value;
        }
      }
      ready := true;
      raised := false;
    }

    /** `fetch_trend_loop` over a sequence of polls, the `k`-th answered by
        `resps[k]` at clock reading `nows[k]`: every exception is swallowed
        and each poll is followed by a sleep of the update interval. */
    method FetchTrendLoop(resps: seq<FeedResponse>, nows: seq<real>, decimal: string -> Option<real>)
      returns (naps: seq<real>)
      requires |nows| == |resps|
      modifies this
      ensures State() == FetchAll(old(State()), resps, nows, useIndicatorTime, decimal)
      ensures |naps| == |resps| && forall k :: 0 <= k < |naps| ==> naps[k] == updateInterval
      ensures fetchTrendTask == old(fetchTrendTask)
    {
      naps := [];
      var i := 0;
      while i < |resps|
        invariant 0 <= i <= |resps|
        invariant FetchAll(old(State()), resps, nows, useIndicatorTime, decimal) ==
                  FetchAll(State(), resps[i..], nows[i..], useIndicatorTime, decimal)
        invariant |naps| == i && forall k :: 0 <= k < i ==> naps[k] == updateInterval
        invariant fetchTrendTask == old(fetchTrendTask)
      {
        assert resps[i..][1..] == resps[i + 1..] && nows[i..][1..] == nows[i + 1..];
        var _ := FetchTrend(resps[i], nows[i], decimal);
        naps := naps + [updateInterval];
        i := i + 1;
      }
    }

    /** `stop_network()`: cancel and forget the running task, if any. */
    method StopNetwork()
      modifies this, fetchTrendTask
      ensures fetchTrendTask == null
      ensures old(fetchTrendTask) != null ==> old(fetchTrendTask).cancelled
      ensures State() == old(State())
    {
      if fetchTrendTask != null {
        fetchTrendTask.Cancel();
        fetchTrendTask := null;
      }
    }

    /** `start_network()`: stop any previous task, then start a new one. */
    method StartNetwork()
      modifies this, fetchTrendTask
      ensures fetchTrendTask != null && fresh(fetchTrendTask) && !fetchTrendTask.cancelled
      ensures old(fetchTrendTask) != null ==> old(fetchTrendTask).cancelled
      ensures State() == old(State())
    {
      StopNetwork();
      fetchTrendTask := new Task();
    }
  }
}
