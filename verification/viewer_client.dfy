/**
 The browser side of viewer presence: the `useViewerCount` hook of
 client/src/hooks/useViewerCount.ts, as a transition function over the hook's
 refs and state and the sockets it has created.

 A socket is numbered by its position in `sockets` and remembers the stream id
 its handlers closed over (`stream`), its ready state, and what the server
 last heard from it (`joined`: set by a `join_stream`, cleared by a
 `leave_stream` or by the socket closing). React's side is two events: a
 render with a new `streamId` (which runs the previous effect's cleanup, then
 the effect) and unmount (which runs the cleanup). The browser's side is the
 socket events and the firing of reconnect timers. Time and the heartbeat
 interval's sends are not modelled.

 The source's close handler acts on the hook's refs whatever socket closed,
 and its cleanup leaves reconnect timers armed. `NextAsWritten` models that;
 `Next` is the corrected hook, whose close handler ignores a socket that is
 no longer the hook's current one and whose cleanup cancels pending
 reconnects.
 */
module ViewerClient {
  import opened Common

  datatype ReadyState = Connecting | Open | Closing | Closed

  datatype Outbound = JoinStream(streamId: string) | LeaveStream

  datatype Socket = Socket(stream: string, state: ReadyState, joined: Option<string>)

  /** A reconnect timer: the stream its `connect` closure was made for, and its delay. */
  datatype Reconnect = Reconnect(stream: string, delay: nat)

  /** Whether the hook has rendered, is rendered with a stream id, or is gone. */
  datatype Phase = Fresh | Mounted(streamId: string) | Unmounted

  datatype Client = Client(
    phase: Phase,
    sockets: seq<Socket>,
    wsRef: Option<nat>,
    heartbeat: Option<nat>,      // the socket whose heartbeat interval `hbRef` holds
    retry: nat,
    manualClose: bool,
    joinedRef: Option<string>,
    viewerCount: int,
    isConnected: bool,
    isLoading: bool,
    pending: seq<Reconnect>,
    sent: seq<(nat, Outbound)>)

  const Init := Client(Fresh, [], None, None, 0, false, None, 0, false, true, [], [])

  /** An incoming frame: unparseable, or a JSON object's `type`, `streamId` (when a
      string) and `viewerCount` (when a number). */
  datatype Incoming = Unparseable | Parsed(kind: string, streamId: Option<string>, viewerCount: Option<int>)

  datatype Event =
    | Render(streamId: string)
    | Unmount
    | Opened(socket: nat)
    | Received(socket: nat, msg: Incoming)
    | Errored(socket: nat)
    | Dropped(socket: nat)
    | ReconnectFired(index: nat)

  // ---------------------------------------------------------------------------
  // Pieces shared by both versions
  // ---------------------------------------------------------------------------

  /** `Math.min(3000 * (retry + 1), 10000)`. */
  function ReconnectDelay(retry: nat): (d: nat) {
    if 3000 * (retry + 1) < 10000 then 3000 * (retry + 1) else 10000
  }

  /** The back-off is linear and capped: between 3 and 10 seconds, never shorter for a
      later retry, and at the cap from the third retry on. */
  lemma ReconnectDelayBounds(retry: nat, later: nat)
    requires retry <= later
    ensures 3000 <= ReconnectDelay(retry) <= 10000
    ensures ReconnectDelay(retry) <= ReconnectDelay(later)
    ensures retry >= 3 ==> ReconnectDelay(retry) == 10000
  {
  }

  function Live(sk: Socket): bool {
    sk.state == Connecting || sk.state == Open
  }

  /** `ws.send(msg)` on socket `i`; the server records the join or the leave. */
  function Send(c: Client, i: nat, m: Outbound): (r: Client)
    requires i < |c.sockets|
    ensures |r.sockets| == |c.sockets| && r.sent == c.sent + [(i, m)]
  {
    var sk := c.sockets[i];
    var joined := if m.JoinStream? then Some(m.streamId) else None;
    c.(sockets := c.sockets[i := sk.(joined := joined)], sent := c.sent + [(i, m)])
  }

  /** `ws.close()`: a connecting or open socket starts closing; otherwise nothing. */
  function CloseSocket(c: Client, i: nat): (r: Client)
    requires i < |c.sockets|
    ensures |r.sockets| == |c.sockets|
    ensures !Live(c.sockets[i]) ==> r == c
  {
    if Live(c.sockets[i]) then c.(sockets := c.sockets[i := c.sockets[i].(state := Closing)]) else c
  }

  /** `connect` of an effect for stream `s`: nothing while the current socket is not
      closed; otherwise a new socket for `s` becomes current. */
  function Connect(c: Client, s: string): (r: Client)
    requires c.wsRef.Some? ==> c.wsRef.value < |c.sockets|
    ensures c.wsRef.Some? && c.sockets[c.wsRef.value].state != Closed ==> r == c
    ensures !(c.wsRef.Some? && c.sockets[c.wsRef.value].state != Closed) ==>
              r == c.(sockets := c.sockets + [Socket(s, Connecting, None)], wsRef := Some(|c.sockets|))
  {
    if c.wsRef.Some? && c.sockets[c.wsRef.value].state != Closed then c
    else c.(sockets := c.sockets + [Socket(s, Connecting, None)], wsRef := Some(|c.sockets|))
  }

  /** The effect's body for a non-empty stream id `s`: re-use of an open current socket
      (leaving a different stream first), then `connect`. */
  function RunEffect(c: Client, s: string): (r: Client)
    requires c.wsRef.Some? ==> c.wsRef.value < |c.sockets|
    ensures RefOk(r) && r.wsRef.Some? && !r.manualClose && r.phase == c.phase && r.pending == c.pending
    ensures |c.sockets| <= |r.sockets|
    ensures forall j :: 0 <= j < |c.sockets| ==> r.sockets[j].stream == c.sockets[j].stream && r.sockets[j].state == c.sockets[j].state
    ensures !(c.wsRef.Some? && c.sockets[c.wsRef.value].state != Closed) ==>
              && r.wsRef == Some(|c.sockets|) && |r.sockets| == |c.sockets| + 1
              && r.sockets[|c.sockets|] == Socket(s, Connecting, None) && r.sent == c.sent
    ensures c.wsRef.Some? && c.sockets[c.wsRef.value].state == Open ==>
              r.wsRef == c.wsRef && r.joinedRef == Some(s) && !r.isLoading && |r.sockets| == |c.sockets|
    ensures c.wsRef.Some? && c.sockets[c.wsRef.value].state in {Connecting, Closing} ==>
              r == c.(manualClose := false, isLoading := true)
  {
    var c1 := c.(manualClose := false, isLoading := true);
    var c2 := if c1.wsRef.Some? && c1.sockets[c1.wsRef.value].state == Open then Rejoin(c1, s) else c1;
    Connect(c2, s)
  }

  /** The effect's re-use of the open current socket: `leave_stream` first when the hook
      had joined a different stream, then `join_stream` for `s`. Only what the server
      heard from that socket changes among the sockets. */
  function Rejoin(c: Client, s: string): (r: Client)
    requires c.wsRef.Some? && c.wsRef.value < |c.sockets| && c.sockets[c.wsRef.value].state == Open
    ensures r.wsRef == c.wsRef && |r.sockets| == |c.sockets| && r.joinedRef == Some(s) && !r.isLoading
    ensures r.phase == c.phase && r.pending == c.pending && r.manualClose == c.manualClose
    ensures forall j :: 0 <= j < |c.sockets| ==> r.sockets[j].stream == c.sockets[j].stream && r.sockets[j].state == c.sockets[j].state
  {
    var i := c.wsRef.value;
    var c3 := if c.joinedRef.Some? && c.joinedRef.value != s then Send(c, i, LeaveStream).(joinedRef := None) else c;
    Send(c3, i, JoinStream(s)).(joinedRef := Some(s), isLoading := false)
  }

  /** On an open current socket the effect sends `leave_stream` exactly when the hook had
      joined a different stream, and then `join_stream` for the new one. */
  lemma RunEffectOnOpenSocket(c: Client, s: string)
    requires c.wsRef.Some? && c.wsRef.value < |c.sockets| && c.sockets[c.wsRef.value].state == Open
    ensures var i := c.wsRef.value;
            var r := RunEffect(c, s);
            && (c.joinedRef.Some? && c.joinedRef.value != s ==> r.sent == c.sent + [(i, LeaveStream), (i, JoinStream(s))])
            && (!(c.joinedRef.Some? && c.joinedRef.value != s) ==> r.sent == c.sent + [(i, JoinStream(s))])
            && r.joinedRef == Some(s) && r.wsRef == c.wsRef && r.sockets[i].joined == Some(s)
  {
  }

  /** `onopen` of socket `i`: connected, retries reset, `join_stream` for the socket's
      stream, and a heartbeat interval. */
  function OnOpen(c: Client, i: nat): (r: Client)
    requires i < |c.sockets| && c.sockets[i].state == Connecting
    ensures |r.sockets| == |c.sockets| && r.retry == 0 && r.isConnected && !r.isLoading
    ensures r.joinedRef == Some(c.sockets[i].stream) && r.sockets[i].joined == Some(c.sockets[i].stream)
    ensures r.sent == c.sent + [(i, JoinStream(c.sockets[i].stream))]
  {
    var c1 := c.(sockets := c.sockets[i := c.sockets[i].(state := Open)], isConnected := true, isLoading := false, retry := 0);
    Send(c1, i, JoinStream(c.sockets[i].stream)).(joinedRef := Some(c.sockets[i].stream), heartbeat := Some(i))
  }

  /** `onmessage` of socket `i`: only a `joined_stream` or `viewer_count_update` for the
      socket's own stream with a numeric count changes the count. */
  function OnMessage(c: Client, i: nat, m: Incoming): (r: Client)
    requires i < |c.sockets|
    ensures r == c.(viewerCount := r.viewerCount)
    ensures m.Unparseable? ==> r == c
  {
    match m
    case Unparseable => c
    case Parsed(kind, sid, count) =>
      if (kind == "joined_stream" || kind == "viewer_count_update") && sid == Some(c.sockets[i].stream) && count.Some?
      then c.(viewerCount := count.value)
      else c
  }

  /** The count filter, both ways: the count changes to `n` exactly for a count message
      of the socket's stream carrying `n`, and nothing else changes. */
  lemma OnMessageFilter(c: Client, i: nat, m: Incoming)
    requires i < |c.sockets|
    ensures var r := OnMessage(c, i, m);
            && r == c.(viewerCount := r.viewerCount)
            && (r.viewerCount != c.viewerCount ==>
                  m.Parsed? && (m.kind == "joined_stream" || m.kind == "viewer_count_update")
                  && m.streamId == Some(c.sockets[i].stream) && m.viewerCount == Some(r.viewerCount))
            && (m.Parsed? && (m.kind == "joined_stream" || m.kind == "viewer_count_update")
                && m.streamId == Some(c.sockets[i].stream) && m.viewerCount.Some? ==>
                  r.viewerCount == m.viewerCount.value)
  {
  }

  /** The socket's own share of its close event: it is closed, and the server drops what
      it had joined. */
  function MarkClosed(c: Client, i: nat): (r: Client)
    requires i < |c.sockets|
    ensures |r.sockets| == |c.sockets|
  {
    c.(sockets := c.sockets[i := c.sockets[i].(state := Closed, joined := None)])
  }

  /** `onclose`'s work on the hook's refs for a socket of stream `s`: disconnected, no
      heartbeat, no current socket, and, unless the close was planned, a reconnect for
      `s` after the back-off delay, counted in `retry`. */
  function ResetAfterClose(c: Client, s: string): (r: Client)
    ensures r.wsRef.None? && r.joinedRef.None? && !r.isConnected
    ensures c.manualClose ==> r.pending == c.pending && r.retry == c.retry
    ensures !c.manualClose ==> r.pending == c.pending + [Reconnect(s, ReconnectDelay(c.retry))] && r.retry == c.retry + 1
  {
    var c1 := c.(isConnected := false, heartbeat := None, wsRef := None, joinedRef := None);
    if c1.manualClose then c1
    else c1.(pending := c1.pending + [Reconnect(s, ReconnectDelay(c1.retry))], retry := c1.retry + 1)
  }

  /** The cleanup's work common to both versions: planned close, `leave_stream` if the
      current socket is open and joined, the socket closed, refs and count reset. */
  function CleanupCommon(c: Client): (r: Client)
    requires c.wsRef.Some? ==> c.wsRef.value < |c.sockets|
    ensures r.manualClose && r.wsRef.None? && r.joinedRef.None? && r.viewerCount == 0 && r.isLoading && !r.isConnected
    ensures |r.sockets| == |c.sockets| && r.pending == c.pending
    ensures c.wsRef.Some? && c.sockets[c.wsRef.value].state == Open && c.joinedRef.Some? ==>
              r.sent == c.sent + [(c.wsRef.value, LeaveStream)]
    ensures !(c.wsRef.Some? && c.sockets[c.wsRef.value].state == Open && c.joinedRef.Some?) ==> r.sent == c.sent
  {
    var c1 := c.(manualClose := true, isConnected := false);
    var c2 :=
      if c1.wsRef.Some? then
        var i := c1.wsRef.value;
        var c3 := if c1.sockets[i].state == Open && c1.joinedRef.Some? then Send(c1, i, LeaveStream) else c1;
        CloseSocket(c3, i)
      else c1;
    c2.(joinedRef := None, wsRef := None, heartbeat := None, isLoading := true, viewerCount := 0)
  }

  /** Whether the close handler of a socket may run (it has not run yet), and the other
      socket events may be delivered. */
  predicate Deliverable(c: Client, e: Event) {
    match e
    case Opened(i) => i < |c.sockets| && c.sockets[i].state == Connecting
    case Received(i, _) => i < |c.sockets| && c.sockets[i].state == Open
    case Errored(i) => i < |c.sockets| && c.sockets[i].state != Closed
    case Dropped(i) => i < |c.sockets| && c.sockets[i].state != Closed
    case ReconnectFired(k) => k < |c.pending|
    case _ => true
  }

  /** `wsRef` names a socket. */
  predicate RefOk(c: Client) {
    c.wsRef.Some? ==> c.wsRef.value < |c.sockets|
  }

  // ---------------------------------------------------------------------------
  // The hook as written
  // ---------------------------------------------------------------------------

  function CleanupAsWritten(c: Client): (r: Client)
    requires RefOk(c)
    ensures RefOk(r)
  {
    CleanupCommon(c)
  }

  /** `onclose` as written: every socket's close resets the hook's refs. */
  function OnCloseAsWritten(c: Client, i: nat): (r: Client)
    requires i < |c.sockets|
    ensures RefOk(r)
  {
    ResetAfterClose(MarkClosed(c, i), c.sockets[i].stream)
  }

  /** One event of the hook as written. */
  function NextAsWritten(c: Client, e: Event): (r: Client)
    requires RefOk(c)
    ensures RefOk(r)
    ensures !Deliverable(c, e) ==> r == c
    ensures c.phase == Unmounted ==> r.phase == Unmounted
    ensures e.Unmount? ==> r.phase == Unmounted
    ensures e.Render? && c.phase != Unmounted ==> r.phase == Mounted(e.streamId)
    ensures !e.Render? && !e.Unmount? ==> r.phase == c.phase
    ensures e.Received? ==> r == c.(viewerCount := r.viewerCount)
  {
    if !Deliverable(c, e) then c
    else match e
      case Render(s) =>
        if c.phase == Mounted(s) || c.phase == Unmounted then c
        else
          var c1 := if c.phase.Mounted? && c.phase.streamId != "" then CleanupAsWritten(c) else c;
          var c2 := c1.(phase := Mounted(s));
          if s == "" then c2 else RunEffect(c2, s)
      case Unmount =>
        var c1 := if c.phase.Mounted? && c.phase.streamId != "" then CleanupAsWritten(c) else c;
        c1.(phase := Unmounted)
      case Opened(i) => OnOpen(c, i)
      case Received(i, m) => OnMessage(c, i, m)
      case Errored(i) => CloseSocket(c, i)
      case Dropped(i) => OnCloseAsWritten(c, i)
      case ReconnectFired(k) =>
        var t := c.pending[k];
        Connect(c.(pending := c.pending[..k] + c.pending[k + 1..]), t.stream)
  }

  function RunAsWritten(c: Client, events: seq<Event>): (r: Client)
    requires RefOk(c)
    ensures RefOk(r)
    decreases |events|
  {
    if |events| == 0 then c else RunAsWritten(NextAsWritten(c, events[0]), events[1..])
  }

  /** The hook as written never schedules a reconnect while the close was planned, and
      resets the retry counter whenever a socket opens. */
  lemma AsWrittenCloseAndOpen(c: Client, i: nat)
    requires RefOk(c) && i < |c.sockets|
    ensures c.sockets[i].state != Closed && c.manualClose ==>
              NextAsWritten(c, Dropped(i)).pending == c.pending
    ensures c.sockets[i].state == Connecting ==> NextAsWritten(c, Opened(i)).retry == 0
  {
  }

  /** The part of the hook's state that decides what later events do. */
  predicate Core(c: Client, phase: Phase, sockets: seq<Socket>, wsRef: Option<nat>, joinedRef: Option<string>,
                 manualClose: bool, pending: seq<Reconnect>, retry: nat)
  {
    && c.phase == phase && c.sockets == sockets && c.wsRef == wsRef && c.joinedRef == joinedRef
    && c.manualClose == manualClose && c.pending == pending && c.retry == retry
  }

  /** A switch from stream `a` to stream `b`; the old socket's close arrives after the
      new socket opened, and the reconnect it schedules fires. */
  function SwitchTrace(): seq<Event> { [Render("a"), Opened(0), Render("b"), Opened(1), Dropped(0), ReconnectFired(0), Opened(2)] }

  lemma SwitchFirstHalf(c1: Client, c2: Client, c3: Client)
    requires c1 == NextAsWritten(Init, Render("a")) && c2 == NextAsWritten(c1, Opened(0))
    requires c3 == NextAsWritten(c2, Render("b"))
    ensures Core(c3, Mounted("b"), [Socket("a", Closing, None), Socket("b", Connecting, None)], Some(1), None, false, [], 0)
  {
    assert Core(c1, Mounted("a"), [Socket("a", Connecting, None)], Some(0), None, false, [], 0);
    assert Core(c2, Mounted("a"), [Socket("a", Open, Some("a"))], Some(0), Some("a"), false, [], 0);
  }

  lemma SwitchSecondHalf(c3: Client, c4: Client, c5: Client, c6: Client, c7: Client)
    requires Core(c3, Mounted("b"), [Socket("a", Closing, None), Socket("b", Connecting, None)], Some(1), None, false, [], 0)
    requires RefOk(c3)
    requires c4 == NextAsWritten(c3, Opened(1)) && c5 == NextAsWritten(c4, Dropped(0))
    requires c6 == NextAsWritten(c5, ReconnectFired(0)) && c7 == NextAsWritten(c6, Opened(2))
    ensures Core(c7, Mounted("b"), [Socket("a", Closed, None), Socket("b", Open, Some("b")), Socket("a", Open, Some("a"))],
                         Some(2), Some("a"), false, [], 0)
  {
    assert Core(c4, Mounted("b"), [Socket("a", Closing, None), Socket("b", Open, Some("b"))], Some(1), Some("b"), false, [], 0);
    assert Core(c5, Mounted("b"), [Socket("a", Closed, None), Socket("b", Open, Some("b"))], None, None, false, [Reconnect("a", 3000)], 1);
    assert Core(c6, Mounted("b"), [Socket("a", Closed, None), Socket("b", Open, Some("b")), Socket("a", Connecting, None)],
                        Some(2), None, false, [], 1);
  }

  /** As written, the old socket's late close drops the new socket from the hook and
      reconnects to the old stream: while showing `b`, the page holds a socket joined to
      `a`, and the socket joined to `b` is no longer the hook's, so no cleanup will close it. */
  lemma StaleCloseRejoinsOldStreamAsWritten()
    ensures var c := RunAsWritten(Init, SwitchTrace());
            && c.phase == Mounted("b")
            && |c.sockets| == 3
            && c.sockets[2] == Socket("a", Open, Some("a"))
            && c.sockets[1] == Socket("b", Open, Some("b"))
            && c.wsRef == Some(2)
  {
    var c1 := NextAsWritten(Init, Render("a"));
    var c2 := NextAsWritten(c1, Opened(0));
    var c3 := NextAsWritten(c2, Render("b"));
    SwitchFirstHalf(c1, c2, c3);
    var c4 := NextAsWritten(c3, Opened(1));
    var c5 := NextAsWritten(c4, Dropped(0));
    var c6 := NextAsWritten(c5, ReconnectFired(0));
    var c7 := NextAsWritten(c6, Opened(2));
    SwitchSecondHalf(c3, c4, c5, c6, c7);
    SwitchRun(c1, c2, c3, c4, c5, c6, c7);
  }

  /** Running the switch trace visits exactly the states of the two halves. */
  lemma SwitchRun(c1: Client, c2: Client, c3: Client, c4: Client, c5: Client, c6: Client, c7: Client)
    requires c1 == NextAsWritten(Init, Render("a")) && c2 == NextAsWritten(c1, Opened(0))
    requires c3 == NextAsWritten(c2, Render("b")) && c4 == NextAsWritten(c3, Opened(1))
    requires c5 == NextAsWritten(c4, Dropped(0)) && c6 == NextAsWritten(c5, ReconnectFired(0))
    requires c7 == NextAsWritten(c6, Opened(2))
    ensures RunAsWritten(Init, SwitchTrace()) == c7
  {
    assert RunAsWritten(c6, SwitchTrace()[6..]) == c7;
    assert RunAsWritten(c5, SwitchTrace()[5..]) == c7;
    assert RunAsWritten(c4, SwitchTrace()[4..]) == c7;
    assert RunAsWritten(c3, SwitchTrace()[3..]) == c7;
    assert RunAsWritten(c2, SwitchTrace()[2..]) == c7;
    assert RunAsWritten(c1, SwitchTrace()[1..]) == c7;
  }

  /** A socket drops, the page unmounts during the back-off, and the reconnect fires. */
  function UnmountTrace(): seq<Event> { [Render("a"), Opened(0), Dropped(0), Unmount, ReconnectFired(0), Opened(1)] }

  lemma UnmountFirstHalf(c1: Client, c2: Client, c3: Client)
    requires c1 == NextAsWritten(Init, Render("a")) && c2 == NextAsWritten(c1, Opened(0))
    requires c3 == NextAsWritten(c2, Dropped(0))
    ensures Core(c3, Mounted("a"), [Socket("a", Closed, None)], None, None, false, [Reconnect("a", 3000)], 1)
  {
    assert Core(c1, Mounted("a"), [Socket("a", Connecting, None)], Some(0), None, false, [], 0);
    assert Core(c2, Mounted("a"), [Socket("a", Open, Some("a"))], Some(0), Some("a"), false, [], 0);
  }

  lemma UnmountSecondHalf(c3: Client, c4: Client, c5: Client, c6: Client)
    requires Core(c3, Mounted("a"), [Socket("a", Closed, None)], None, None, false, [Reconnect("a", 3000)], 1)
    requires RefOk(c3)
    requires c4 == NextAsWritten(c3, Unmount) && c5 == NextAsWritten(c4, ReconnectFired(0))
    requires c6 == NextAsWritten(c5, Opened(1))
    ensures Core(c6, Unmounted, [Socket("a", Closed, None), Socket("a", Open, Some("a"))], Some(1), Some("a"), true, [], 0)
  {
    assert Core(c4, Unmounted, [Socket("a", Closed, None)], None, None, true, [Reconnect("a", 3000)], 1);
    assert Core(c5, Unmounted, [Socket("a", Closed, None), Socket("a", Connecting, None)], Some(1), None, true, [], 1);
  }

  /** As written, a reconnect armed before unmount still connects afterwards and joins
      the stream: a viewer is counted for a page that is gone, on a socket nothing closes. */
  lemma ReconnectAfterUnmountAsWritten()
    ensures var c := RunAsWritten(Init, UnmountTrace());
            && c.phase == Unmounted
            && |c.sockets| == 2
            && c.sockets[1] == Socket("a", Open, Some("a"))
  {
    var c1 := NextAsWritten(Init, Render("a"));
    var c2 := NextAsWritten(c1, Opened(0));
    var c3 := NextAsWritten(c2, Dropped(0));
    UnmountFirstHalf(c1, c2, c3);
    var c4 := NextAsWritten(c3, Unmount);
    var c5 := NextAsWritten(c4, ReconnectFired(0));
    var c6 := NextAsWritten(c5, Opened(1));
    UnmountSecondHalf(c3, c4, c5, c6);
    assert RunAsWritten(c5, UnmountTrace()[5..]) == c6;
    assert RunAsWritten(c4, UnmountTrace()[4..]) == c6;
    assert RunAsWritten(c3, UnmountTrace()[3..]) == c6;
    assert RunAsWritten(c2, UnmountTrace()[2..]) == c6;
    assert RunAsWritten(c1, UnmountTrace()[1..]) == c6;
  }

  // ---------------------------------------------------------------------------
  // The corrected hook
  // ---------------------------------------------------------------------------

  /** The corrected cleanup also cancels pending reconnects. */
  function Cleanup(c: Client): (r: Client)
    requires RefOk(c)
    ensures RefOk(r) && r.pending == []
  {
    CleanupCommon(c).(pending := [])
  }

  /** The corrected `onclose`: only the hook's current socket resets the refs; the close
      of an earlier socket changes nothing but that socket. */
  function OnClose(c: Client, i: nat): (r: Client)
    requires RefOk(c) && i < |c.sockets|
    ensures RefOk(r)
    ensures c.wsRef != Some(i) ==>
              r == c.(sockets := r.sockets) && |r.sockets| == |c.sockets| && r.sockets[i].state == Closed
              && forall j :: 0 <= j < |c.sockets| && j != i ==> r.sockets[j] == c.sockets[j]
  {
    if c.wsRef == Some(i) then ResetAfterClose(MarkClosed(c, i), c.sockets[i].stream)
    else MarkClosed(c, i)
  }

  /** One event of the corrected hook. */
  function Next(c: Client, e: Event): (r: Client)
    requires RefOk(c)
    ensures RefOk(r)
    ensures !Deliverable(c, e) ==> r == c
    ensures c.phase == Unmounted ==> r.phase == Unmounted
    ensures e.Unmount? ==> r.phase == Unmounted
    ensures e.Render? && c.phase != Unmounted ==> r.phase == Mounted(e.streamId)
    ensures !e.Render? && !e.Unmount? ==> r.phase == c.phase
    ensures e.Received? ==> r == c.(viewerCount := r.viewerCount)
    ensures e.Unmount? && c.phase.Mounted? && c.phase.streamId != "" ==> r.pending == []
  {
    if !Deliverable(c, e) then c
    else match e
      case Render(s) =>
        if c.phase == Mounted(s) || c.phase == Unmounted then c
        else
          var c1 := if c.phase.Mounted? && c.phase.streamId != "" then Cleanup(c) else c;
          var c2 := c1.(phase := Mounted(s));
          if s == "" then c2 else RunEffect(c2, s)
      case Unmount =>
        var c1 := if c.phase.Mounted? && c.phase.streamId != "" then Cleanup(c) else c;
        c1.(phase := Unmounted)
      case Opened(i) => OnOpen(c, i)
      case Received(i, m) => OnMessage(c, i, m)
      case Errored(i) => CloseSocket(c, i)
      case Dropped(i) => OnClose(c, i)
      case ReconnectFired(k) =>
        var t := c.pending[k];
        Connect(c.(pending := c.pending[..k] + c.pending[k + 1..]), t.stream)
  }

  function Run(c: Client, events: seq<Event>): (r: Client)
    requires RefOk(c)
    ensures RefOk(r)
    decreases |events|
  {
    if |events| == 0 then c else Run(Next(c, events[0]), events[1..])
  }

  /** The stream the hook is showing, when it has one. */
  function Showing(c: Client): Option<string> {
    if c.phase.Mounted? && c.phase.streamId != "" then Some(c.phase.streamId) else None
  }

  /** The corrected hook's invariant: every connecting or open socket is the current one
      and serves the stream shown; the current socket is not closed and serves the stream
      shown; every pending reconnect is for the stream shown; the hook has joined only
      through a current socket; what the server heard from a socket is the socket's own
      stream. */
  ghost predicate Inv(c: Client) {
    && RefOk(c)
    && (forall i :: 0 <= i < |c.sockets| && Live(c.sockets[i]) ==> c.wsRef == Some(i))
    && (c.wsRef.Some? ==>
          Showing(c) == Some(c.sockets[c.wsRef.value].stream) && c.sockets[c.wsRef.value].state != Closed)
    && (forall k :: 0 <= k < |c.pending| ==> Showing(c) == Some(c.pending[k].stream))
    && (Showing(c).None? ==> c.pending == [])
    && (c.joinedRef.Some? ==> c.wsRef.Some?)
    && (forall i :: 0 <= i < |c.sockets| && c.sockets[i].joined.Some? ==>
          c.sockets[i].joined.value == c.sockets[i].stream && c.sockets[i].state != Closed)
  }

  lemma InitInv()
    ensures Inv(Init)
  {
  }

  lemma CleanupInv(c: Client)
    requires Inv(c)
    ensures var r := Cleanup(c);
            && RefOk(r) && r.wsRef.None? && r.pending == []
            && (forall i :: 0 <= i < |r.sockets| ==> !Live(r.sockets[i]))
            && (forall i :: 0 <= i < |r.sockets| && r.sockets[i].joined.Some? ==>
                  r.sockets[i].joined.value == r.sockets[i].stream && r.sockets[i].state != Closed)
            && r.sockets[..] == r.sockets && |r.sockets| == |c.sockets|
            && (forall i :: 0 <= i < |r.sockets| ==> r.sockets[i].stream == c.sockets[i].stream)
  {
  }

  /** No socket is current, live or awaited, and what the server heard from a socket is
      its own stream. */
  ghost predicate Quiet(c: Client) {
    && RefOk(c) && c.wsRef.None? && c.joinedRef.None? && c.pending == []
    && (forall i :: 0 <= i < |c.sockets| ==> !Live(c.sockets[i]))
    && (forall i :: 0 <= i < |c.sockets| && c.sockets[i].joined.Some? ==>
          c.sockets[i].joined.value == c.sockets[i].stream && c.sockets[i].state != Closed)
  }

  /** Mounting a stream on a quiet hook keeps the invariant. */
  lemma MountQuietInv(c: Client, s: string)
    requires Quiet(c)
    ensures var c2 := c.(phase := Mounted(s));
            Inv(if s == "" then c2 else RunEffect(c2, s))
  {
    var c2 := c.(phase := Mounted(s));
    if s != "" {
      assert Connect(c2.(manualClose := false, isLoading := true), s) == RunEffect(c2, s);
    }
  }

  lemma {:induction false} RenderPreservesInv(c: Client, s: string)
    requires Inv(c)
    ensures Inv(Next(c, Render(s)))
  {
    if !(c.phase == Mounted(s) || c.phase == Unmounted) {
      var c1 := if c.phase.Mounted? && c.phase.streamId != "" then Cleanup(c) else c;
      if c.phase.Mounted? && c.phase.streamId != "" {
        CleanupInv(c);
      }
      assert Quiet(c1);
      MountQuietInv(c1, s);
    }
  }


  /** In the corrected hook a render with a new stream id never re-uses a socket: the
      effect always finds no current socket, so it opens a new one for the new stream
      and sends nothing on it before it opens. */
  lemma RenderConnectsAfresh(c: Client, s: string)
    requires Inv(c) && s != "" && c.phase != Mounted(s) && c.phase != Unmounted
    ensures var r := Next(c, Render(s));
            && r.phase == Mounted(s)
            && |r.sockets| == |c.sockets| + 1 && r.sockets[|c.sockets|] == Socket(s, Connecting, None)
            && r.wsRef == Some(|c.sockets|) && r.joinedRef.None? && !r.manualClose
            && |r.sent| <= |c.sent| + 1
  {
    if c.phase.Mounted? && c.phase.streamId != "" {
      CleanupInv(c);
    }
  }

  lemma {:induction false} UnmountPreservesInv(c: Client)
    requires Inv(c)
    ensures Inv(Next(c, Unmount))
  {
    if c.phase.Mounted? && c.phase.streamId != "" {
      CleanupInv(c);
    }
  }

  lemma {:induction false} ClosedPreservesInv(c: Client, i: nat)
    requires Inv(c) && i < |c.sockets| && c.sockets[i].state != Closed
    ensures Inv(Next(c, Dropped(i)))
  {
    assert Next(c, Dropped(i)) == OnClose(c, i);
    if c.wsRef == Some(i) {
      CurrentClosedInv(c, i);
    } else {
      StaleClosedInv(c, i);
    }
  }

  /** The close of the current socket leaves no socket current and arms a reconnect for
      the stream shown. */
  lemma CurrentClosedInv(c: Client, i: nat)
    requires Inv(c) && i < |c.sockets| && c.wsRef == Some(i)
    ensures Inv(OnClose(c, i))
  {
    var m := MarkClosed(c, i);
    assert Showing(c) == Some(c.sockets[i].stream);
    assert forall j :: 0 <= j < |m.sockets| ==> !Live(m.sockets[j]);
    assert OnClose(c, i) == ResetAfterClose(m, c.sockets[i].stream);
  }

  /** The close of an earlier socket closes only that socket. */
  lemma StaleClosedInv(c: Client, i: nat)
    requires Inv(c) && i < |c.sockets| && c.wsRef != Some(i)
    ensures Inv(OnClose(c, i))
  {
    var r := OnClose(c, i);
    assert r == MarkClosed(c, i);
    assert forall j :: 0 <= j < |c.sockets| && j != i ==> r.sockets[j] == c.sockets[j];
  }

  lemma {:induction false} ReconnectPreservesInv(c: Client, k: nat)
    requires Inv(c) && k < |c.pending|
    ensures Inv(Next(c, ReconnectFired(k)))
  {
    var t := c.pending[k];
    assert Showing(c) == Some(t.stream);
    var c1 := c.(pending := c.pending[..k] + c.pending[k + 1..]);
    assert forall j :: 0 <= j < |c1.pending| ==> c1.pending[j] in c.pending;
  }

  /** Every event keeps the corrected hook's invariant. */
  lemma {:induction false} NextPreservesInv(c: Client, e: Event)
    requires Inv(c)
    ensures Inv(Next(c, e))
  {
    if Deliverable(c, e) {
      match e
      case Render(s) => RenderPreservesInv(c, s);
      case Unmount => UnmountPreservesInv(c);
      case Opened(i) => {}
      case Received(i, m) => {}
      case Errored(i) => {}
      case Dropped(i) => ClosedPreservesInv(c, i);
      case ReconnectFired(k) => ReconnectPreservesInv(c, k);
    }
  }

  /** Every sequence of renders, unmounts, socket events and reconnect firings keeps the
      corrected hook's invariant. This is the client's own fold over `Run`; the presence
      and on-demand modules each have theirs. */
  lemma {:induction false} RunPreservesInv(c: Client, events: seq<Event>)
    requires Inv(c)
    ensures Inv(Run(c, events))
    decreases |events|
  {
    if |events| > 0 {
      NextPreservesInv(c, events[0]);
      RunPreservesInv(Next(c, events[0]), events[1..]);
    }
  }

  /** In the corrected hook an open socket the server counts as a viewer is counted for
      the stream the page shows; a page that shows nothing holds no connecting or open
      socket and no pending reconnect; at most one socket is connecting or open. */
  lemma NoStrayViewers(events: seq<Event>)
    ensures var c := Run(Init, events);
            && (forall i :: 0 <= i < |c.sockets| && c.sockets[i].state == Open && c.sockets[i].joined.Some? ==>
                  Showing(c) == c.sockets[i].joined)
            && (Showing(c).None? ==> c.pending == [] && forall i :: 0 <= i < |c.sockets| ==> !Live(c.sockets[i]))
            && (forall i, j :: 0 <= i < |c.sockets| && 0 <= j < |c.sockets| && Live(c.sockets[i]) && Live(c.sockets[j]) ==> i == j)
  {
    InitInv();
    RunPreservesInv(Init, events);
  }
}
