/** The private stream of altmarkets_api_user_stream_data_source.py: per
    connection attempt it signs fresh authentication headers, connects to
    the authenticated endpoint, sends one subscribe request per configured
    pair, and enqueues every order or trade frame as parsed; its receive
    loop records the time of the last frame received or ping sent. */
module UserStreamDataSource {
  import opened Wrappers
  import opened Text
  import opened Json
  import opened AltmarketsConstants
  import opened Endpoints
  import opened Encoding
  import opened WsSession
  import opened AltmarketsAuthentication

  /** The consumer's handling of one raw frame: `ujson.loads` first, then the
      raw text is tested for `ping`, `subscribed`, then `order` or `trade`. */
  function ClassifyUser(f: Frame): (r: FrameAction<Json>)
    ensures f.parsed.None? ==> r.Raise?
    ensures r.Reply? <==> f.parsed.Some? && Contains(f.raw, "ping") && Get(f.parsed.value, "ping").Some?
    ensures r.Reply? ==> r.text == PongReply(Get(f.parsed.value, "ping").value)
    ensures r.Ignore? <==> f.parsed.Some? && !Contains(f.raw, "ping") && Contains(f.raw, "subscribed")
    ensures r.Emit? <==> f.parsed.Some? && !Contains(f.raw, "ping") && !Contains(f.raw, "subscribed") &&
                         (Contains(f.raw, UserOrders) || Contains(f.raw, UserTrades))
    ensures r.Emit? ==> r.msgs == [f.parsed.value]
    ensures r.Unrecognized? <==> f.parsed.Some? && !Contains(f.raw, "ping") && !Contains(f.raw, "subscribed") &&
                                 !Contains(f.raw, UserOrders) && !Contains(f.raw, UserTrades)
  {
    match f.parsed
    case None => Raise
    case Some(msg) =>
      if Contains(f.raw, "ping") then AnswerPing(msg)
      else if Contains(f.raw, "subscribed") then Ignore
      else if Contains(f.raw, UserOrders) || Contains(f.raw, UserTrades) then Emit([msg])
      else Unrecognized
  }

  /** Everything the user stream enqueues is a whole parsed frame whose raw
      text names an order or a trade, among the frames the connection
      handled. */
  lemma UserMessagesAreOrderOrTradeFrames(events: seq<WsEvent>)
    ensures var s := Session(events, ClassifyUser);
            forall m :: m in s.emitted ==>
              exists i :: 0 <= i < s.consumed && events[i].Message? && events[i].frame.parsed == Some(m) &&
                          (Contains(events[i].frame.raw, UserOrders) || Contains(events[i].frame.raw, UserTrades))
  {
    SessionEmitsHandledFrames(events, ClassifyUser);
    var s := Session(events, ClassifyUser);
    forall m | m in s.emitted
      ensures exists i :: 0 <= i < s.consumed && events[i].Message? && events[i].frame.parsed == Some(m) &&
                          (Contains(events[i].frame.raw, UserOrders) || Contains(events[i].frame.raw, UserTrades))
    {
      var i :| i < s.consumed && EmittedBy(events, i, m, ClassifyUser);
    }
  }

  /** The attempts as the listener sees them: where signing raises, no
      attempt connects, and each fails or is cancelled during its sleep. */
  function UserAttempts(attempts: seq<ConnectAttempt>, signs: bool): (r: seq<ConnectAttempt>)
    ensures |r| == |attempts|
    ensures forall k :: 0 <= k < |r| ==> r[k] == Signed(attempts[k], signs)
    ensures !signs ==> forall k :: 0 <= k < |r| ==> !r[k].Connects? && (r[k].ConnectCancelled? <==> attempts[k].ConnectCancelled?)
  {
    if signs then attempts else seq(|attempts|, k requires 0 <= k < |attempts| => Signed(attempts[k], false))
  }

  /** One attempt as the listener sees it. Where `get_headers` raises, the
      handler's 30-second sleep is the attempt's only wait: a cancellation
      arriving there (`ConnectCancelled`) is re-raised, and any other
      attempt becomes a failure before connecting. */
  function Signed(a: ConnectAttempt, signs: bool): ConnectAttempt
  {
    if signs || a.ConnectCancelled? then a else ConnectRaises
  }

  /** What `get_headers` returns at each of the clock readings, in order. */
  function HeadersAt(apiKey: string, secretKey: string, readings: seq<int>, hmac: Hmac): (r: seq<Option<map<string, string>>>)
    ensures |r| == |readings|
    ensures forall k :: 0 <= k < |r| ==> r[k] == Headers(apiKey, secretKey, readings[k], hmac)
  {
    if readings == [] then []
    else HeadersAt(apiKey, secretKey, readings[..|readings| - 1], hmac) + [Headers(apiKey, secretKey, readings[|readings| - 1], hmac)]
  }

  lemma HeadersAtSnoc(apiKey: string, secretKey: string, clock: seq<int>, i: nat, hmac: Hmac)
    requires i < |clock|
    ensures HeadersAt(apiKey, secretKey, clock[..i + 1], hmac)
            == HeadersAt(apiKey, secretKey, clock[..i], hmac) + [Headers(apiKey, secretKey, clock[i], hmac)]
  {
    assert clock[..i + 1][..i] == clock[..i];
  }

  class AltmarketsAPIUserStreamDataSource {
    const auth: AltmarketsAuth
    const tradingPairs: seq<string>
    const config: Config
    var lastRecvTime: real

    constructor (auth: AltmarketsAuth, tradingPairs: seq<string>, config: Config)
      ensures this.auth == auth && this.tradingPairs == tradingPairs && this.config == config
      ensures lastRecvTime == 0.0
    {
      this.auth := auth;
      this.tradingPairs := tradingPairs;
      this.config := config;
      lastRecvTime := 0.0;
    }

    /** One identical subscribe request per configured pair. */
    function UserSubscriptions(): (r: seq<Outgoing>)
      ensures |r| == |tradingPairs|
      ensures forall o :: o in r ==> o == Subscribe(config.pusherSubscribeEvent, config.userStreams)
    {
      seq(|tradingPairs|, _ => Subscribe(config.pusherSubscribeEvent, config.userStreams))
    }

    /** `_inner_messages` with the consumer over one open connection: as for
        the public listeners, and every received frame and every ping sent
        also stores its time in `_last_recv_time`. */
    method InnerMessages(ws: WebSocket, output: MessageQueue<Json>, events: seq<WsEvent>) returns (end: SessionEnd)
      modifies this, ws, output
      ensures var s := Session(events, ClassifyUser);
              ws.sent == old(ws.sent) + s.sent && output.items == old(output.items) + s.emitted &&
              ws.closed && end == s.end && lastRecvTime == After(old(lastRecvTime), s.lastRecv)
    {
      ghost var spec := Session(events, ClassifyUser);
      var i := 0;
      while i < |events|
        invariant 0 <= i <= |events|
        invariant SessionFollowing(events, i, ClassifyUser, spec, old(ws.sent), ws.sent, old(output.items), output.items,
                                   old(lastRecvTime), lastRecvTime)
        invariant ws.closed == old(ws.closed)
        decreases |events| - i
      {
        SessionProgress(events, i, ClassifyUser, spec, old(ws.sent), ws.sent, old(output.items), output.items,
                        old(lastRecvTime), lastRecvTime);
        lastRecvTime := After(lastRecvTime, Stamp(events[i]));
        var stop := HandleEvent(ws, output, events[i], ClassifyUser);
        i := i + 1;
        if stop.Some? {
          ws.Close();
          return stop.value;
        }
      }
      end := StillOpen;
      ws.Close();
    }

    /** One pass of the `while True` once the headers are signed: connect,
        subscribe, run the connection, and sleep 30 seconds after a failure. */
    method RunUserAttempt(a: ConnectAttempt, output: MessageQueue<Json>)
      returns (connections: seq<seq<Outgoing>>, naps: seq<real>, stop: Option<bool>)
      modifies this, output
      ensures var st := AttemptOf(a, UserSubscriptions(), ClassifyUser);
              connections == st.connections && naps == st.naps && stop == st.stop &&
              output.items == old(output.items) + st.emitted && lastRecvTime == After(old(lastRecvTime), st.lastRecv)
    {
      match a {
        case ConnectCancelled =>
          connections, naps, stop := [], [], Some(true);
        case ConnectRaises =>
          connections, naps, stop := [], [30.0], None;
        case Connects(events) =>
          var ws := new WebSocket();
          SendAll(ws, UserSubscriptions());
          assert ws.sent == UserSubscriptions();
          var end := InnerMessages(ws, output, events);
          assert ws.sent == UserSubscriptions() + Session(events, ClassifyUser).sent;
          connections := [ws.sent];
          naps := if end == FrameRaised then [30.0] else [];
          stop := if end == Cancelled then Some(true) else if end == StillOpen then Some(false) else None;
      }
    }

    /** One pass of the `while True`: sign the headers, then run the attempt,
        which fails before connecting, or is cancelled during its sleep,
        where signing raises. */
    method SignAndRun(a: ConnectAttempt, micros: int, hmac: Hmac, output: MessageQueue<Json>)
      returns (connections: seq<seq<Outgoing>>, naps: seq<real>, stop: Option<bool>, h: Option<map<string, string>>)
      modifies this, auth, output
      ensures h == Headers(auth.apiKey, auth.secretKey, micros, hmac)
      ensures h.Some? <==> IsLatin1(auth.apiKey) && IsLatin1(auth.secretKey)
      ensures auth.nonce == Some(Nonce(micros))
      ensures var st := AttemptOf(Signed(a, IsLatin1(auth.apiKey) && IsLatin1(auth.secretKey)), UserSubscriptions(), ClassifyUser);
              connections == st.connections && naps == st.naps && stop == st.stop &&
              output.items == old(output.items) + st.emitted && lastRecvTime == After(old(lastRecvTime), st.lastRecv)
    {
      HeadersAuthentic(auth.apiKey, auth.secretKey, micros, hmac);
      h := auth.GetHeaders(micros, hmac);
      connections, naps, stop := RunUserAttempt(Signed(a, h.Some?), output);
    }

    /** `listen_for_user_stream` over its connection attempts, the `k`-th of
        which signs its headers at clock reading `clock[k]`. Where a key is
        not Latin-1 text, every signing raises and no attempt connects. It
        returns what each socket sent, the delays slept, whether the
        cancellation was re-raised, and the headers each attempt signed. */
    method ListenForUserStream(attempts: seq<ConnectAttempt>, clock: seq<int>, hmac: Hmac, output: MessageQueue<Json>)
      returns (connections: seq<seq<Outgoing>>, naps: seq<real>, cancelled: bool,
               headers: seq<Option<map<string, string>>>)
      requires |clock| == |attempts|
      modifies this, auth, output
      ensures var r := Listen(UserAttempts(attempts, IsLatin1(auth.apiKey) && IsLatin1(auth.secretKey)),
                              UserSubscriptions(), ClassifyUser);
              connections == r.connections && naps == r.naps && cancelled == r.cancelled &&
              output.items == old(output.items) + r.emitted && lastRecvTime == After(old(lastRecvTime), r.lastRecv) &&
              headers == HeadersAt(auth.apiKey, auth.secretKey, clock[..r.consumed], hmac)
    {
      var signed := IsLatin1(auth.apiKey) && IsLatin1(auth.secretKey);
      ghost var effective := UserAttempts(attempts, signed);
      ghost var spec := Listen(effective, UserSubscriptions(), ClassifyUser);
      connections, naps, cancelled, headers := [], [], false, [];
      var i := 0;
      while i < |attempts|
        invariant 0 <= i <= |attempts|
        invariant Following(effective, i, UserSubscriptions(), ClassifyUser, spec, connections, naps,
                            old(output.items), output.items, old(lastRecvTime), lastRecvTime)
        invariant !cancelled
        invariant headers == HeadersAt(auth.apiKey, auth.secretKey, clock[..i], hmac)
        decreases |attempts| - i
      {
        ListenProgress(effective, i, UserSubscriptions(), ClassifyUser, spec, connections, naps,
                       old(output.items), output.items, old(lastRecvTime), lastRecvTime);
        var c, n, stop, h := SignAndRun(attempts[i], clock[i], hmac, output);
        HeadersAtSnoc(auth.apiKey, auth.secretKey, clock, i, hmac);
        headers := headers + [h];
        connections, naps := connections + c, naps + n;
        i := i + 1;
        if stop.Some? {
          cancelled := stop.value;
          return;
        }
      }
    }
  }

  /** With keys that are not Latin-1 text the user stream never connects
      and enqueues nothing. It re-raises a cancellation exactly when one
      arrives, at the first cancelled attempt, after one 30-second sleep per
      attempt before it; otherwise it sleeps 30 seconds after every attempt. */
  lemma UnsignableKeysNeverConnect(attempts: seq<ConnectAttempt>, subscribes: seq<Outgoing>)
    ensures var r := Listen(UserAttempts(attempts, false), subscribes, ClassifyUser);
            r.connections == [] && r.emitted == [] && r.lastRecv.None? &&
            (r.cancelled <==> exists k :: 0 <= k < |attempts| && attempts[k].ConnectCancelled?) &&
            (forall k :: 0 <= k < r.consumed - 1 ==> !attempts[k].ConnectCancelled?) &&
            (r.cancelled ==> 0 < r.consumed && attempts[r.consumed - 1].ConnectCancelled? && |r.naps| == r.consumed - 1) &&
            (!r.cancelled ==> r.consumed == |attempts| && |r.naps| == |attempts|) &&
            forall k :: 0 <= k < |r.naps| ==> r.naps[k] == 30.0
  {
    var effective := UserAttempts(attempts, false);
    ListenWithoutConnecting(effective, subscribes, ClassifyUser);
    var r := Listen(effective, subscribes, ClassifyUser);
    if r.cancelled {
      var k :| 0 <= k < |effective| && effective[k].ConnectCancelled?;
      assert attempts[k].ConnectCancelled?;
    }
    if exists k :: 0 <= k < |attempts| && attempts[k].ConnectCancelled? {
      var k :| 0 <= k < |attempts| && attempts[k].ConnectCancelled?;
      assert effective[k].ConnectCancelled?;
    }
  }
}
