/** What one websocket connection of a data source does: the receive loop
    of `_inner_messages` (receive with a timeout, ping on silence, stop on a
    pong timeout or a closed connection, close the socket on every exit) and
    the consumer that routes each received frame, plus the reconnecting
    `while True` loop of the listeners around it.

    The transport is an input: a connection is the finite sequence of what
    its receive calls observed, and a listener run is the sequence of its
    connection attempts. */
module WsSession {
  import opened Wrappers
  import opened Text
  import opened Json
  import opened AltmarketsConstants

  /** A received text frame: its raw text, and what `json.loads` (or
      `ujson.loads`) makes of it, `None` where the parse raises. */
  datatype Frame = Frame(raw: string, parsed: Option<Json>)

  /** After a receive timeout: `ws.ping()` raised ConnectionClosed, or the
      ping went out and then the pong came, did not come within
      PING_TIMEOUT, or the connection closed while waiting. */
  datatype PingResult = PingRefused | Pong | PongTimedOut | PongClosed

  /** One turn of the receive loop. `at` is the clock reading right after
      the receive returned or the ping was sent. */
  datatype WsEvent =
    | Message(frame: Frame, at: real)   // `recv()` returned within MESSAGE_TIMEOUT
    | Silence(ping: PingResult, at: real) // `recv()` timed out
    | Closed                            // `recv()` raised ConnectionClosed
    | Cancel                            // the listener task was cancelled while waiting

  /** What goes out on the socket: a subscribe request, a text frame, a ping control frame. */
  datatype Outgoing = Subscribe(event: string, streams: seq<string>) | TextFrame(text: string) | PingControl

  /** What the consumer does with one frame. */
  datatype FrameAction<M> =
    | Reply(text: string)    // the pong answer to a ping frame
    | Ignore                 // a subscription acknowledgement
    | Emit(msgs: seq<M>)     // `output.put_nowait` of each message, in order
    | Unrecognized           // only logged
    | Raise                  // an exception escapes the consumer

  /** How a connection ended; `StillOpen` when the observed events ran out first. */
  datatype SessionEnd = PingTimedOut | ConnectionClosed | FrameRaised | Cancelled | StillOpen

  /** The effect of one event: what it sends, what it enqueues, the time it
      records and, when it ends the connection, how. */
  datatype Step<M> = Step(sent: seq<Outgoing>, emitted: seq<M>, stamp: Option<real>, stop: Option<SessionEnd>)

  datatype SessionRun<M> = SessionRun(sent: seq<Outgoing>, emitted: seq<M>, lastRecv: Option<real>,
                                      end: SessionEnd, consumed: nat)

  const PongPrefix := "{\"op\":\"pong\",\"timestamp\": "

  /** `f'{{"op":"pong","timestamp": {str(msg["ping"])}}}'`: the ping value
      echoed with `str`, so a string value appears unquoted. */
  function PongReply(ping: Json): (r: string)
    ensures PongPrefix <= r && r[|r| - 1] == '}'
    ensures r[|PongPrefix|..|r| - 1] == PyStr(ping)
  {
    var r := PongPrefix + PyStr(ping) + "}";
    assert r[|PongPrefix|..|r| - 1] == PyStr(ping);
    r
  }

  /** An integer ping comes back as its own decimal text. */
  lemma PongEchoesIntegerPing(n: int)
    ensures var r := PongReply(Int(n));
            ParseInt(r[|PongPrefix|..|r| - 1]) == Some(n)
  {
    IntToDecimalRoundTrip(n);
  }

  /** `await ws.send(f'{{"op":"pong","timestamp": {str(msg["ping"])}}}')`,
      which raises when the parsed frame has no `ping` member. */
  function AnswerPing<M>(msg: Json): (r: FrameAction<M>)
    ensures r.Reply? <==> Get(msg, "ping").Some?
    ensures r.Reply? ==> r.text == PongReply(Get(msg, "ping").value)
    ensures !r.Reply? ==> r.Raise?
  {
    match Get(msg, "ping")
    case None => Raise
    case Some(v) => Reply(PongReply(v))
  }

  /** The time an event records in `_last_recv_time`: every received frame,
      and every ping that was sent. */
  function Stamp(e: WsEvent): (r: Option<real>)
    ensures r.Some? <==> e.Message? || (e.Silence? && e.ping != PingRefused)
  {
    match e
    case Message(_, at) => Some(at)
    case Silence(ping, at) => if ping == PingRefused then None else Some(at)
    case _ => None
  }

  function StepOf<M>(e: WsEvent, classify: Frame -> FrameAction<M>): Step<M>
  {
    match e
    case Message(frame, at) =>
      (match classify(frame)
       case Reply(text) => Step([TextFrame(text)], [], Some(at), None)
       case Emit(msgs) => Step([], msgs, Some(at), None)
       case Raise => Step([], [], Some(at), Some(FrameRaised))
       case _ => Step([], [], Some(at), None))
    case Silence(ping, at) =>
      (match ping
       case PingRefused => Step([], [], None, Some(ConnectionClosed))
       case Pong => Step([PingControl], [], Some(at), None)
       case PongTimedOut => Step([PingControl], [], Some(at), Some(PingTimedOut))
       case PongClosed => Step([PingControl], [], Some(at), Some(ConnectionClosed)))
    case Closed => Step([], [], None, Some(ConnectionClosed))
    case Cancel => Step([], [], None, Some(Cancelled))
  }

  function Latest(earlier: Option<real>, later: Option<real>): Option<real>
  {
    if later.Some? then later else earlier
  }

  /** The recursive definition of one connection: events are handled in
      order until the first one that ends it. */
  function Session<M>(events: seq<WsEvent>, classify: Frame -> FrameAction<M>): (s: SessionRun<M>)
    ensures s.consumed <= |events|
    decreases |events|
  {
    if events == [] then SessionRun([], [], None, StillOpen, 0)
    else
      var st := StepOf(events[0], classify);
      if st.stop.Some? then SessionRun(st.sent, st.emitted, st.stamp, st.stop.value, 1)
      else
        var rest := Session(events[1..], classify);
        SessionRun(st.sent + rest.sent, st.emitted + rest.emitted, Latest(st.stamp, rest.lastRecv),
                   rest.end, rest.consumed + 1)
  }

  /** A connection stops at its first ending event, with that event's ending;
      it is still open only when no observed event ends it. */
  lemma {:induction false} SessionStopsAtFirstEnd<M>(events: seq<WsEvent>, classify: Frame -> FrameAction<M>)
    ensures var s := Session(events, classify);
            (forall i :: 0 <= i < s.consumed - 1 ==> StepOf(events[i], classify).stop.None?) &&
            (s.end == StillOpen <==> forall i :: 0 <= i < |events| ==> StepOf(events[i], classify).stop.None?) &&
            (s.end == StillOpen ==> s.consumed == |events|) &&
            (s.end != StillOpen ==> 0 < s.consumed && StepOf(events[s.consumed - 1], classify).stop == Some(s.end))
    decreases |events|
  {
    if events != [] {
      var st := StepOf(events[0], classify);
      if st.stop.None? {
        SessionStopsAtFirstEnd(events[1..], classify);
        var rest := Session(events[1..], classify);
        assert forall i :: 0 < i < |events| ==> events[i] == events[1..][i - 1];
        if rest.end == StillOpen {
          assert forall i :: 0 <= i < |events| ==> StepOf(events[i], classify).stop.None? by {
            forall i | 0 <= i < |events| ensures StepOf(events[i], classify).stop.None? {
              if i > 0 {
                assert StepOf(events[1..][i - 1], classify).stop.None?;
              }
            }
          }
        } else {
          var j :| 0 <= j < |events[1..]| && StepOf(events[1..][j], classify).stop.Some?;
          assert StepOf(events[j + 1], classify).stop.Some?;
        }
      }
    }
  }

  /** The frame of a handled event whose message list holds `m`. */
  ghost predicate EmittedBy<M>(events: seq<WsEvent>, i: int, m: M, classify: Frame -> FrameAction<M>)
  {
    0 <= i < |events| && events[i].Message? && classify(events[i].frame).Emit? && m in classify(events[i].frame).msgs
  }

  /** Every enqueued message was produced from a frame the connection
      handled, and every message of a handled frame is enqueued. */
  lemma {:induction false} SessionEmitsHandledFrames<M>(events: seq<WsEvent>, classify: Frame -> FrameAction<M>)
    ensures forall m :: m in Session(events, classify).emitted ==>
              exists i :: i < Session(events, classify).consumed && EmittedBy(events, i, m, classify)
    ensures forall i, m :: i < Session(events, classify).consumed && EmittedBy(events, i, m, classify) ==>
              m in Session(events, classify).emitted
    decreases |events|
  {
    if events != [] {
      var st := StepOf(events[0], classify);
      if st.stop.None? {
        SessionEmitsHandledFrames(events[1..], classify);
        var s, rest := Session(events, classify), Session(events[1..], classify);
        assert s.emitted == st.emitted + rest.emitted && s.consumed == rest.consumed + 1;
        forall m | m in s.emitted
          ensures exists i :: i < s.consumed && EmittedBy(events, i, m, classify)
        {
          if m in st.emitted {
            assert EmittedBy(events, 0, m, classify);
          } else {
            assert m in rest.emitted;
            var j :| j < rest.consumed && EmittedBy(events[1..], j, m, classify);
            assert events[j + 1] == events[1..][j];
            assert EmittedBy(events, j + 1, m, classify);
          }
        }
        forall i, m | i < s.consumed && EmittedBy(events, i, m, classify)
          ensures m in s.emitted
        {
          if i > 0 {
            assert events[1..][i - 1] == events[i];
            assert EmittedBy(events[1..], i - 1, m, classify);
          }
        }
      }
    }
  }

  function PingsIn(sent: seq<Outgoing>): nat
  {
    if sent == [] then 0 else (if sent[0] == PingControl then 1 else 0) + PingsIn(sent[1..])
  }

  lemma {:induction false} PingsInAppend(a: seq<Outgoing>, b: seq<Outgoing>)
    ensures PingsIn(a + b) == PingsIn(a) + PingsIn(b)
  {
    if a != [] {
      assert (a + b)[1..] == a[1..] + b;
      PingsInAppend(a[1..], b);
    } else {
      assert a + b == b;
    }
  }

  /** The receive timeouts whose ping went out. */
  function PingsSent(events: seq<WsEvent>): nat
  {
    if events == [] then 0
    else (if events[0].Silence? && events[0].ping != PingRefused then 1 else 0) + PingsSent(events[1..])
  }

  /** Each receive timeout sends one ping, and nothing else sends one. */
  lemma {:induction false} SessionPingsOncePerTimeout<M>(events: seq<WsEvent>, classify: Frame -> FrameAction<M>)
    ensures var s := Session(events, classify);
            PingsIn(s.sent) == PingsSent(events[..s.consumed])
    decreases |events|
  {
    var s := Session(events, classify);
    if events != [] {
      var st := StepOf(events[0], classify);
      StepPings(events[0], classify);
      var pre := events[..s.consumed];
      assert pre[0] == events[0];
      assert PingsSent(pre) == PingsIn(st.sent) + PingsSent(pre[1..]);
      if st.stop.None? {
        SessionPingsOncePerTimeout(events[1..], classify);
        var rest := Session(events[1..], classify);
        assert s.sent == st.sent + rest.sent;
        PingsInAppend(st.sent, rest.sent);
        assert pre[1..] == events[1..][..rest.consumed];
      } else {
        assert s.sent == st.sent;
        assert pre[1..] == [];
      }
    }
  }

  lemma StepPings<M>(e: WsEvent, classify: Frame -> FrameAction<M>)
    ensures PingsIn(StepOf(e, classify).sent) == (if e.Silence? && e.ping != PingRefused then 1 else 0)
  {
    var sent := StepOf(e, classify).sent;
    assert |sent| <= 1;
    if sent != [] { assert sent[1..] == []; }
  }

  /** The latest recorded time among `events`, found from the end. */
  function LastStamp(events: seq<WsEvent>): Option<real>
    decreases |events|
  {
    if events == [] then None
    else if Stamp(events[|events| - 1]).Some? then Stamp(events[|events| - 1])
    else LastStamp(events[..|events| - 1])
  }

  lemma {:induction false} LastStampCons(e: WsEvent, events: seq<WsEvent>)
    ensures LastStamp([e] + events) == Latest(Stamp(e), LastStamp(events))
    decreases |events|
  {
    if events != [] {
      var all := [e] + events;
      assert all[|all| - 1] == events[|events| - 1];
      assert all[..|all| - 1] == [e] + events[..|events| - 1];
      LastStampCons(e, events[..|events| - 1]);
    } else {
      assert [e] + events == [e];
      assert [e][..0] == [];
    }
  }

  lemma StepStamp<M>(e: WsEvent, classify: Frame -> FrameAction<M>)
    ensures StepOf(e, classify).stamp == Stamp(e)
  {
  }

  /** The time a connection leaves behind is that of the last frame received
      or ping sent among the events it handled. */
  lemma {:induction false} SessionLastRecv<M>(events: seq<WsEvent>, classify: Frame -> FrameAction<M>)
    ensures var s := Session(events, classify);
            s.lastRecv == LastStamp(events[..s.consumed])
    decreases |events|
  {
    var s := Session(events, classify);
    if events != [] {
      var st := StepOf(events[0], classify);
      StepStamp(events[0], classify);
      if st.stop.None? {
        SessionLastRecv(events[1..], classify);
        var rest := Session(events[1..], classify);
        assert events[..s.consumed] == [events[0]] + events[1..][..rest.consumed];
        LastStampCons(events[0], events[1..][..rest.consumed]);
      } else {
        assert events[..1] == [events[0]] + [];
        LastStampCons(events[0], []);
      }
    }
  }

  /** The socket of one connection: what was sent on it and whether it is closed. */
  class WebSocket {
    var sent: seq<Outgoing>
    var closed: bool

    constructor ()
      ensures sent == [] && !closed
    {
      sent := [];
      closed := false;
    }

    method Send(o: Outgoing)
      modifies this
      ensures sent == old(sent) + [o] && closed == old(closed)
    {
      sent := sent + [o];
    }

    method Close()
      modifies this
      ensures closed && sent == old(sent)
    {
      closed := true;
    }
  }

  /** The listener's output, an `asyncio.Queue` that is only appended to. */
  class MessageQueue<T> {
    var items: seq<T>

    constructor ()
      ensures items == []
    {
      items := [];
    }

    method PutNowait(x: T)
      modifies this
      ensures items == old(items) + [x]
    {
      items := items + [x];
    }
  }

  /** `Session` one step at a time. */
  lemma SessionUnfold<M>(events: seq<WsEvent>, i: nat, classify: Frame -> FrameAction<M>)
    requires i < |events|
    ensures var st, here := StepOf(events[i], classify), Session(events[i..], classify);
            if st.stop.Some? then here == SessionRun(st.sent, st.emitted, st.stamp, st.stop.value, 1)
            else var rest := Session(events[i + 1..], classify);
                 here == SessionRun(st.sent + rest.sent, st.emitted + rest.emitted, Latest(st.stamp, rest.lastRecv),
                                    rest.end, rest.consumed + 1)
  {
    assert events[i..][0] == events[i];
    assert events[i..][1..] == events[i + 1..];
  }

  /** `output.put_nowait` of each message in turn. */
  method EnqueueAll<M>(output: MessageQueue<M>, msgs: seq<M>)
    modifies output
    ensures output.items == old(output.items) + msgs
  {
    var k := 0;
    while k < |msgs|
      invariant 0 <= k <= |msgs|
      invariant output.items == old(output.items) + msgs[..k]
    {
      output.PutNowait(msgs[k]);
      k := k + 1;
    }
    assert msgs[..k] == msgs;
  }

  /** One turn of the receive loop with the consumer's handling of what it
      yielded: the pong reply or the ping goes out, the routed messages are
      enqueued, and the turn reports whether the stream ends. */
  method HandleEvent<M>(ws: WebSocket, output: MessageQueue<M>, e: WsEvent, classify: Frame -> FrameAction<M>)
    returns (stop: Option<SessionEnd>)
    modifies ws, output
    ensures var st := StepOf(e, classify);
            ws.sent == old(ws.sent) + st.sent && output.items == old(output.items) + st.emitted &&
            stop == st.stop && ws.closed == old(ws.closed)
  {
    stop := None;
    match e {
      case Message(frame, _) =>
        var action := classify(frame);
        match action {
          case Reply(text) =>
            ws.Send(TextFrame(text));
          case Emit(msgs) =>
            EnqueueAll(output, msgs);
          case Raise =>
            stop := Some(FrameRaised);
          case _ =>
        }
      case Silence(ping, _) =>
        if ping == PingRefused {
          stop := Some(ConnectionClosed);
        } else {
          ws.Send(PingControl);
          if ping == PongTimedOut {
            stop := Some(PingTimedOut);
          } else if ping == PongClosed {
            stop := Some(ConnectionClosed);
          }
        }
      case Closed =>
        stop := Some(ConnectionClosed);
      case Cancel =>
        stop := Some(Cancelled);
    }
  }

  /** `_last_recv_time` after a recorded time, if any. */
  function After(t: real, stamp: Option<real>): real
  {
    if stamp.Some? then stamp.value else t
  }

  /** A connection part-way through `events`: what has been sent, enqueued
      and recorded so far and what `Session` says the remaining events do
      add up to the whole connection. */
  ghost predicate SessionFollowing<M>(events: seq<WsEvent>, i: nat, classify: Frame -> FrameAction<M>,
                                      spec: SessionRun<M>, sent0: seq<Outgoing>, sent: seq<Outgoing>,
                                      items0: seq<M>, items: seq<M>, t0: real, t: real)
    requires i <= |events|
  {
    var rest := Session(events[i..], classify);
    sent0 + spec.sent == sent + rest.sent && items0 + spec.emitted == items + rest.emitted &&
    spec.end == rest.end && After(t0, spec.lastRecv) == After(t, rest.lastRecv)
  }

  /** One event further: either the connection ends there, complete, or it
      is followed from the next event. */
  lemma SessionProgress<M>(events: seq<WsEvent>, i: nat, classify: Frame -> FrameAction<M>,
                           spec: SessionRun<M>, sent0: seq<Outgoing>, sent: seq<Outgoing>,
                           items0: seq<M>, items: seq<M>, t0: real, t: real)
    requires i < |events|
    requires SessionFollowing(events, i, classify, spec, sent0, sent, items0, items, t0, t)
    ensures var st := StepOf(events[i], classify);
            if st.stop.Some? then
              sent + st.sent == sent0 + spec.sent && items + st.emitted == items0 + spec.emitted &&
              spec.end == st.stop.value && After(t, Stamp(events[i])) == After(t0, spec.lastRecv)
            else
              SessionFollowing(events, i + 1, classify, spec, sent0, sent + st.sent, items0, items + st.emitted,
                               t0, After(t, Stamp(events[i])))
  {
    SessionUnfold(events, i, classify);
    StepStamp(events[i], classify);
    var st := StepOf(events[i], classify);
    if st.stop.None? {
      var rest := Session(events[i + 1..], classify);
      assert sent + (st.sent + rest.sent) == (sent + st.sent) + rest.sent;
      assert items + (st.emitted + rest.emitted) == (items + st.emitted) + rest.emitted;
    }
  }

  /** The public listeners' receive loop and consumer for one open
      connection: it sends the pong replies and pings, enqueues the routed
      messages, and closes the socket however it ends. */
  method RunConnection<M>(ws: WebSocket, output: MessageQueue<M>, events: seq<WsEvent>,
                          classify: Frame -> FrameAction<M>)
    returns (end: SessionEnd)
    modifies ws, output
    ensures var s := Session(events, classify);
            ws.sent == old(ws.sent) + s.sent && output.items == old(output.items) + s.emitted &&
            ws.closed && end == s.end
  {
    ghost var spec := Session(events, classify);
    ghost var t := 0.0;
    var i := 0;
    while i < |events|
      invariant 0 <= i <= |events|
      invariant SessionFollowing(events, i, classify, spec, old(ws.sent), ws.sent, old(output.items), output.items, 0.0, t)
      decreases |events| - i
    {
      SessionProgress(events, i, classify, spec, old(ws.sent), ws.sent, old(output.items), output.items, 0.0, t);
      t := After(t, Stamp(events[i]));
      var stop := HandleEvent(ws, output, events[i], classify);
      i := i + 1;
      if stop.Some? {
        ws.Close();
        return stop.value;
      }
    }
    end := StillOpen;
    ws.Close();
  }

  // ---------------------------------------------------------------------------
  // The reconnecting listener

  /** One pass of a listener's `while True`: connecting raised, the listener task was
      cancelled while connecting, or the connection opened and then observed
      `events`. */
  datatype ConnectAttempt = ConnectRaises | ConnectCancelled | Connects(events: seq<WsEvent>)

  /** A listener run: what each opened connection sent (subscriptions
      first), the messages enqueued, the delays slept after failures,
      whether the cancellation was re-raised, the last time a connection
      recorded, and how many attempts were made. */
  datatype ListenRun<M> = ListenRun(connections: seq<seq<Outgoing>>, emitted: seq<M>, naps: seq<real>, cancelled: bool,
                                    lastRecv: Option<real>, consumed: nat)

  /** The recursive definition of a listener over its connection attempts.
      A connection that ends by a pong timeout or a closed connection is
      reopened at once; a failure sleeps MESSAGE_TIMEOUT first; a
      cancellation ends the listener; an open connection keeps it. */
  function Listen<M>(attempts: seq<ConnectAttempt>, subscribes: seq<Outgoing>,
                     classify: Frame -> FrameAction<M>): (r: ListenRun<M>)
    ensures r.consumed <= |attempts|
    decreases |attempts|
  {
    if attempts == [] then ListenRun([], [], [], false, None, 0)
    else
      var st := AttemptOf(attempts[0], subscribes, classify);
      if st.stop.Some? then ListenRun(st.connections, st.emitted, st.naps, st.stop.value, st.lastRecv, 1)
      else
        var rest := Listen(attempts[1..], subscribes, classify);
        ListenRun(st.connections + rest.connections, st.emitted + rest.emitted, st.naps + rest.naps, rest.cancelled,
                  Latest(st.lastRecv, rest.lastRecv), rest.consumed + 1)
  }

  /** The effect of one attempt; `stop` is `Some(true)` for a re-raised
      cancellation and `Some(false)` for a connection still open. */
  datatype AttemptStep<M> = AttemptStep(connections: seq<seq<Outgoing>>, emitted: seq<M>, naps: seq<real>,
                                        lastRecv: Option<real>, stop: Option<bool>)

  function AttemptOf<M>(a: ConnectAttempt, subscribes: seq<Outgoing>, classify: Frame -> FrameAction<M>): AttemptStep<M>
  {
    match a
    case ConnectCancelled => AttemptStep([], [], [], None, Some(true))
    case ConnectRaises => AttemptStep([], [], [MessageTimeout], None, None)
    case Connects(events) =>
      var s := Session(events, classify);
      AttemptStep([subscribes + s.sent], s.emitted, if s.end == FrameRaised then [MessageTimeout] else [], s.lastRecv,
                  if s.end == Cancelled then Some(true) else if s.end == StillOpen then Some(false) else None)
  }

  /** `Listen` one attempt at a time. */
  lemma ListenUnfold<M>(attempts: seq<ConnectAttempt>, i: nat, subscribes: seq<Outgoing>,
                        classify: Frame -> FrameAction<M>)
    requires i < |attempts|
    ensures var st, here := AttemptOf(attempts[i], subscribes, classify), Listen(attempts[i..], subscribes, classify);
            if st.stop.Some? then here == ListenRun(st.connections, st.emitted, st.naps, st.stop.value, st.lastRecv, 1)
            else var rest := Listen(attempts[i + 1..], subscribes, classify);
                 here == ListenRun(st.connections + rest.connections, st.emitted + rest.emitted,
                                   st.naps + rest.naps, rest.cancelled, Latest(st.lastRecv, rest.lastRecv),
                                   rest.consumed + 1)
  {
    assert attempts[i..][0] == attempts[i];
    assert attempts[i..][1..] == attempts[i + 1..];
  }

  /** One pass of the listener's loop: connect, subscribe, run the
      connection, and sleep after a failure. */
  method RunAttempt<M>(a: ConnectAttempt, subscribes: seq<Outgoing>, output: MessageQueue<M>,
                       classify: Frame -> FrameAction<M>)
    returns (connections: seq<seq<Outgoing>>, naps: seq<real>, stop: Option<bool>)
    modifies output
    ensures var st := AttemptOf(a, subscribes, classify);
            connections == st.connections && naps == st.naps && stop == st.stop &&
            output.items == old(output.items) + st.emitted
  {
    match a {
      case ConnectCancelled =>
        connections, naps, stop := [], [], Some(true);
      case ConnectRaises =>
        connections, naps, stop := [], [MessageTimeout], None;
      case Connects(events) =>
        var ws := new WebSocket();
        SendAll(ws, subscribes);
        assert ws.sent == subscribes;
        var end := RunConnection(ws, output, events, classify);
        assert ws.sent == subscribes + Session(events, classify).sent;
        connections := [ws.sent];
        naps := if end == FrameRaised then [MessageTimeout] else [];
        stop := if end == Cancelled then Some(true) else if end == StillOpen then Some(false) else None;
    }
  }

  /** The subscribe requests, one `ws.send` each, in order. */
  method SendAll(ws: WebSocket, frames: seq<Outgoing>)
    modifies ws
    ensures ws.sent == old(ws.sent) + frames && ws.closed == old(ws.closed)
  {
    var k := 0;
    while k < |frames|
      invariant 0 <= k <= |frames|
      invariant ws.sent == old(ws.sent) + frames[..k] && ws.closed == old(ws.closed)
    {
      ws.Send(frames[k]);
      k := k + 1;
    }
    assert frames[..k] == frames;
  }

  /** A listener part-way through `attempts`: what it has done so far and
      what `Listen` says the remaining attempts do add up to the whole run. */
  ghost predicate Following<M>(attempts: seq<ConnectAttempt>, i: nat, subscribes: seq<Outgoing>,
                               classify: Frame -> FrameAction<M>, spec: ListenRun<M>,
                               connections: seq<seq<Outgoing>>, naps: seq<real>, items0: seq<M>, items: seq<M>,
                               t0: real, t: real)
    requires i <= |attempts|
  {
    var rest := Listen(attempts[i..], subscribes, classify);
    spec.connections == connections + rest.connections && spec.naps == naps + rest.naps &&
    spec.cancelled == rest.cancelled && items0 + spec.emitted == items + rest.emitted &&
    After(t0, spec.lastRecv) == After(t, rest.lastRecv) && spec.consumed == i + rest.consumed
  }

  /** One attempt further: either the run is over and complete, or the
      listener follows it from the next attempt. */
  lemma ListenProgress<M>(attempts: seq<ConnectAttempt>, i: nat, subscribes: seq<Outgoing>,
                          classify: Frame -> FrameAction<M>, spec: ListenRun<M>,
                          connections: seq<seq<Outgoing>>, naps: seq<real>, items0: seq<M>, items: seq<M>,
                          t0: real, t: real)
    requires i < |attempts|
    requires Following(attempts, i, subscribes, classify, spec, connections, naps, items0, items, t0, t)
    ensures var st := AttemptOf(attempts[i], subscribes, classify);
            if st.stop.Some? then
              spec.connections == connections + st.connections && spec.naps == naps + st.naps &&
              spec.cancelled == st.stop.value && items + st.emitted == items0 + spec.emitted &&
              After(t, st.lastRecv) == After(t0, spec.lastRecv) && spec.consumed == i + 1
            else
              Following(attempts, i + 1, subscribes, classify, spec, connections + st.connections, naps + st.naps,
                        items0, items + st.emitted, t0, After(t, st.lastRecv))
  {
    ListenUnfold(attempts, i, subscribes, classify);
    var st := AttemptOf(attempts[i], subscribes, classify);
    if st.stop.None? {
      var rest := Listen(attempts[i + 1..], subscribes, classify);
      assert connections + (st.connections + rest.connections) == (connections + st.connections) + rest.connections;
      assert naps + (st.naps + rest.naps) == (naps + st.naps) + rest.naps;
      assert items + (st.emitted + rest.emitted) == (items + st.emitted) + rest.emitted;
    }
  }

  /** The `while True` of a public listener: per attempt, open a socket,
      send the subscriptions, run the connection; sleep MESSAGE_TIMEOUT after
      a failure; re-raise a cancellation. It returns what each socket sent
      and the delays slept. */
  method RunListener<M>(attempts: seq<ConnectAttempt>, subscribes: seq<Outgoing>, output: MessageQueue<M>,
                        classify: Frame -> FrameAction<M>)
    returns (connections: seq<seq<Outgoing>>, naps: seq<real>, cancelled: bool)
    modifies output
    ensures var r := Listen(attempts, subscribes, classify);
            connections == r.connections && naps == r.naps && cancelled == r.cancelled &&
            output.items == old(output.items) + r.emitted
  {
    ghost var spec := Listen(attempts, subscribes, classify);
    ghost var t := 0.0;
    connections, naps, cancelled := [], [], false;
    var i := 0;
    while i < |attempts|
      invariant 0 <= i <= |attempts|
      invariant Following(attempts, i, subscribes, classify, spec, connections, naps, old(output.items), output.items, 0.0, t)
      invariant !cancelled
      decreases |attempts| - i
    {
      ListenProgress(attempts, i, subscribes, classify, spec, connections, naps, old(output.items), output.items, 0.0, t);
      t := After(t, AttemptOf(attempts[i], subscribes, classify).lastRecv);
      var c, n, stop := RunAttempt(attempts[i], subscribes, output, classify);
      connections, naps := connections + c, naps + n;
      i := i + 1;
      if stop.Some? {
        cancelled := stop.value;
        return;
      }
    }
  }

  predicate IsCancellation<M>(a: ConnectAttempt, classify: Frame -> FrameAction<M>)
  {
    a.ConnectCancelled? || (a.Connects? && Session(a.events, classify).end == Cancelled)
  }

  /** Every delay is MESSAGE_TIMEOUT, there is at most one per attempt, and
      every opened connection first sends the subscriptions. */
  lemma {:induction false} ListenNapsAndSubscriptions<M>(attempts: seq<ConnectAttempt>, subscribes: seq<Outgoing>,
                                                          classify: Frame -> FrameAction<M>)
    ensures var r := Listen(attempts, subscribes, classify);
            |r.naps| <= |attempts| && (forall k :: 0 <= k < |r.naps| ==> r.naps[k] == MessageTimeout) &&
            |r.connections| <= |attempts| && (forall c :: c in r.connections ==> subscribes <= c)
    decreases |attempts|
  {
    if attempts != [] {
      ListenNapsAndSubscriptions(attempts[1..], subscribes, classify);
    }
  }

  function ConnectionsOpened(attempts: seq<ConnectAttempt>): nat
  {
    if attempts == [] then 0 else (if attempts[0].Connects? then 1 else 0) + ConnectionsOpened(attempts[1..])
  }

  /** The listener re-raises a cancellation only when one of its attempts
      is cancelled; without one, and with every connection ending, it goes
      through all its attempts, opening one connection per successful connect. */
  lemma {:induction false} ListenStopsOnlyOnCancellation<M>(attempts: seq<ConnectAttempt>, subscribes: seq<Outgoing>,
                                                             classify: Frame -> FrameAction<M>)
    ensures var r := Listen(attempts, subscribes, classify);
            (r.cancelled ==> exists i :: 0 <= i < |attempts| && IsCancellation(attempts[i], classify)) &&
            ((forall i :: 0 <= i < |attempts| ==> !IsCancellation(attempts[i], classify) &&
                                                  !(attempts[i].Connects? && Session(attempts[i].events, classify).end == StillOpen))
             ==> !r.cancelled && |r.connections| == ConnectionsOpened(attempts))
    decreases |attempts|
  {
    if attempts != [] {
      ListenStopsOnlyOnCancellation(attempts[1..], subscribes, classify);
      var r := Listen(attempts, subscribes, classify);
      assert forall i :: 0 <= i < |attempts[1..]| ==> attempts[1..][i] == attempts[i + 1];
      if r.cancelled && !IsCancellation(attempts[0], classify) {
        var j :| 0 <= j < |attempts[1..]| && IsCancellation(attempts[1..][j], classify);
      }
    }
  }

  ghost predicate ConnectionEmitted<M>(attempts: seq<ConnectAttempt>, i: int, m: M, classify: Frame -> FrameAction<M>)
  {
    0 <= i < |attempts| && attempts[i].Connects? && m in Session(attempts[i].events, classify).emitted
  }

  /** Every message a listener enqueues was enqueued by one of its connections. */
  lemma {:induction false} ListenEmitsFromConnections<M>(attempts: seq<ConnectAttempt>, subscribes: seq<Outgoing>,
                                                          classify: Frame -> FrameAction<M>)
    ensures forall m :: m in Listen(attempts, subscribes, classify).emitted ==>
              exists i :: ConnectionEmitted(attempts, i, m, classify)
    decreases |attempts|
  {
    if attempts != [] {
      ListenEmitsFromConnections(attempts[1..], subscribes, classify);
      var r := Listen(attempts, subscribes, classify);
      forall m | m in r.emitted
        ensures exists i :: ConnectionEmitted(attempts, i, m, classify)
      {
        if !ConnectionEmitted(attempts, 0, m, classify) {
          assert m in Listen(attempts[1..], subscribes, classify).emitted;
          var j :| ConnectionEmitted(attempts[1..], j, m, classify);
          assert attempts[j + 1] == attempts[1..][j];
          assert ConnectionEmitted(attempts, j + 1, m, classify);
        }
      }
    }
  }

  /** The time a listener leaves behind is the one some connection it made left behind. */
  lemma {:induction false} ListenLastRecvFromConnection<M>(attempts: seq<ConnectAttempt>, subscribes: seq<Outgoing>,
                                                            classify: Frame -> FrameAction<M>)
    ensures var r := Listen(attempts, subscribes, classify);
            r.lastRecv.Some? ==> exists i :: 0 <= i < r.consumed && attempts[i].Connects? &&
                                            Session(attempts[i].events, classify).lastRecv == r.lastRecv
    decreases |attempts|
  {
    var r := Listen(attempts, subscribes, classify);
    if attempts != [] && r.lastRecv.Some? {
      var st := AttemptOf(attempts[0], subscribes, classify);
      if st.lastRecv != r.lastRecv {
        ListenLastRecvFromConnection(attempts[1..], subscribes, classify);
        var rest := Listen(attempts[1..], subscribes, classify);
        var j :| 0 <= j < rest.consumed && attempts[1..][j].Connects? &&
                 Session(attempts[1..][j].events, classify).lastRecv == rest.lastRecv;
        assert attempts[j + 1] == attempts[1..][j];
      }
    }
  }

  /** `n` attempts that all fail to connect. */
  function Failures(n: nat): (r: seq<ConnectAttempt>)
    ensures |r| == n && forall k :: 0 <= k < n ==> r[k] == ConnectRaises
  {
    seq(n, _ => ConnectRaises)
  }

  /** A listener that never connects goes through every attempt, enqueues
      nothing and sleeps MESSAGE_TIMEOUT after each. */
  lemma {:induction false} ListenNeverConnecting<M>(n: nat, subscribes: seq<Outgoing>, classify: Frame -> FrameAction<M>)
    ensures var r := Listen(Failures(n), subscribes, classify);
            r.connections == [] && r.emitted == [] && !r.cancelled && r.lastRecv.None? && r.consumed == n &&
            |r.naps| == n && forall k :: 0 <= k < n ==> r.naps[k] == MessageTimeout
  {
    if n > 0 {
      assert Failures(n)[1..] == Failures(n - 1);
      ListenNeverConnecting(n - 1, subscribes, classify);
    }
  }

  /** A listener none of whose attempts connects, though one may be
      cancelled: it enqueues nothing, and it re-raises a cancellation exactly
      when some attempt is cancelled, at the first such attempt, after one
      MESSAGE_TIMEOUT sleep per failed attempt before it; without one it goes
      through every attempt, sleeping after each. */
  lemma {:induction false} ListenWithoutConnecting<M>(attempts: seq<ConnectAttempt>, subscribes: seq<Outgoing>,
                                                      classify: Frame -> FrameAction<M>)
    requires forall k :: 0 <= k < |attempts| ==> !attempts[k].Connects?
    ensures var r := Listen(attempts, subscribes, classify);
            r.connections == [] && r.emitted == [] && r.lastRecv.None? &&
            (r.cancelled <==> exists k :: 0 <= k < |attempts| && attempts[k].ConnectCancelled?) &&
            (forall k :: 0 <= k < r.consumed - 1 ==> attempts[k].ConnectRaises?) &&
            (r.cancelled ==> 0 < r.consumed && attempts[r.consumed - 1].ConnectCancelled? && |r.naps| == r.consumed - 1) &&
            (!r.cancelled ==> r.consumed == |attempts| && |r.naps| == |attempts|) &&
            forall k :: 0 <= k < |r.naps| ==> r.naps[k] == MessageTimeout
    decreases |attempts|
  {
    if attempts != [] {
      if !attempts[0].ConnectCancelled? {
        var rest := Listen(attempts[1..], subscribes, classify);
        ListenWithoutConnecting(attempts[1..], subscribes, classify);
        if rest.cancelled {
          var k :| 0 <= k < |attempts[1..]| && attempts[1..][k].ConnectCancelled?;
          assert attempts[k + 1].ConnectCancelled?;
        }
        if exists k :: 0 <= k < |attempts| && attempts[k].ConnectCancelled? {
          var k :| 0 <= k < |attempts| && attempts[k].ConnectCancelled?;
          assert attempts[1..][k - 1].ConnectCancelled?;
        }
        var r := Listen(attempts, subscribes, classify);
        assert r.naps == [MessageTimeout] + rest.naps;
        forall k | 0 <= k < r.consumed - 1
          ensures attempts[k].ConnectRaises?
        {
          if k > 0 { assert attempts[k] == attempts[1..][k - 1]; }
        }
      }
    }
  }
}
