/**
 Viewer presence and the on-demand stop timers of the WebSocket handler in
 server/routes.ts, as a pure transition function over an immutable state.

 - `conns` holds every open socket and its `current` viewer connection
   (`None` for `null`); a `Membership` carries the joined stream, the user id
   and the `countedStreams` set.
 - `viewers` is `streamViewers`: per stream, the sockets whose current entry is
   in that stream's set (each socket has at most one entry object in any set,
   so the socket stands for its entry).
 - `visits` is `totalVisits`.
 - `timers` is `onDemandTimers`: per stream, the last stop timer stored for it
   (an entry stays after its timer fired, as in the source); `outstanding`
   holds the timers that are armed (neither fired nor cleared) and the stream
   each one was scheduled for; `nextTimer` numbers new timers.

 Time is abstracted away: a timer fires when the environment delivers
 `Fire(t)`. Everything the handler does outside this state (sending to
 sockets, `broadcastViewerUpdate`, `ensureStreamRunning`, stopping the
 transcoder) is returned as a list of effects in the order the handler
 starts them.
 */
module Presence {
  import opened Common

  type StreamId = string
  type ConnId = nat
  type TimerId = nat

  /** The stop-timer delay. */
  const GraceMs := 15000

  /** A socket's `current` viewer connection (the connect time is not modelled). */
  datatype Membership = Membership(streamId: StreamId, userId: string, counted: set<StreamId>)

  datatype State = State(
    conns: map<ConnId, Option<Membership>>,
    viewers: map<StreamId, set<ConnId>>,
    visits: map<StreamId, nat>,
    timers: map<StreamId, TimerId>,
    outstanding: map<TimerId, StreamId>,
    nextTimer: TimerId)

  const Init := State(map[], map[], map[], map[], map[], 0)

  /** A parsed inbound message; `Invalid` stands for a payload whose handling throws
      (unparseable JSON, or JSON without a `type` to read). */
  datatype Message =
    | JoinStream(streamId: Option<string>, userId: Option<string>)
    | LeaveStream
    | Heartbeat
    | OtherType
    | Invalid

  datatype Event =
    | Connected(conn: ConnId)
    | Received(conn: ConnId, msg: Message)
    | Closed(conn: ConnId)
    | Fire(timer: TimerId)

  /** What the handler sends back to one socket. */
  datatype Reply =
    | JoinedStream(streamId: StreamId, viewerCount: nat, totalVisits: nat)
    | HeartbeatResponse
    | InvalidMessage

  datatype Effect =
    | Send(conn: ConnId, reply: Reply)
    /** `broadcastViewerUpdate`: the count, the visits and the sockets it goes to. */
    | Broadcast(streamId: StreamId, viewerCount: nat, totalVisits: nat, recipients: set<ConnId>)
    | EnsureRunning(streamId: StreamId)
    /** The timer's stop: `stopStream` and the catalog write of idle status. */
    | StopTranscoder(streamId: StreamId)

  datatype Step = Step(state: State, effects: seq<Effect>)

  // ---------------------------------------------------------------------------
  // Reads
  // ---------------------------------------------------------------------------

  /** The sockets in a stream's viewer set (none when the set is absent). */
  function Members(st: State, s: StreamId): set<ConnId> {
    if s in st.viewers then st.viewers[s] else {}
  }

  /** `set ? set.size : 0`. */
  function ViewerCount(st: State, s: StreamId): nat {
    |Members(st, s)|
  }

  /** `totalVisits.get(s) ?? 0`. */
  function Visits(st: State, s: StreamId): nat {
    if s in st.visits then st.visits[s] else 0
  }

  /** `GET /api/viewers/:streamId`: set size (0 if absent) and visits (0 if absent). */
  function ViewerInfo(st: State, s: StreamId): (r: (nat, nat))
    ensures s !in st.viewers ==> r.0 == 0
    ensures s in st.viewers ==> r.0 == |st.viewers[s]|
    ensures s !in st.visits ==> r.1 == 0
    ensures s in st.visits ==> r.1 == st.visits[s]
  {
    (ViewerCount(st, s), Visits(st, s))
  }

  /** The broadcast `broadcastViewerUpdate(s)` starts in state `st`. */
  function BroadcastOf(st: State, s: StreamId): Effect {
    Broadcast(s, ViewerCount(st, s), Visits(st, s), Members(st, s))
  }

  /** The sockets whose current viewer connection is in stream `s`. */
  ghost function JoinedTo(st: State, s: StreamId): set<ConnId> {
    set c | c in st.conns && st.conns[c].Some? && st.conns[c].value.streamId == s
  }

  /** The armed stop timers of stream `s`. */
  ghost function ArmedFor(st: State, s: StreamId): set<TimerId> {
    set t | t in st.outstanding && st.outstanding[t] == s
  }

  // ---------------------------------------------------------------------------
  // Timers
  // ---------------------------------------------------------------------------

  /** `scheduleStopIfIdle`: clears the timer stored for the stream, arms a new one and
      stores it. */
  function ScheduleStop(st: State, s: StreamId): (r: State)
    ensures r.conns == st.conns && r.viewers == st.viewers && r.visits == st.visits
    ensures r.timers == st.timers[s := st.nextTimer] && r.nextTimer == st.nextTimer + 1
    ensures r.outstanding.Keys <= st.outstanding.Keys + {st.nextTimer}
  {
    var cleared := if s in st.timers then st.outstanding - {st.timers[s]} else st.outstanding;
    st.(timers := st.timers[s := st.nextTimer],
        outstanding := cleared[st.nextTimer := s],
        nextTimer := st.nextTimer + 1)
  }

  /** A join that finds the set empty clears and deletes the stored timer. */
  function CancelStop(st: State, s: StreamId): (r: State)
    ensures r.conns == st.conns && r.viewers == st.viewers && r.visits == st.visits
    ensures r.nextTimer == st.nextTimer
    ensures s !in r.timers
  {
    if s in st.timers then
      st.(timers := st.timers - {s}, outstanding := st.outstanding - {st.timers[s]})
    else st
  }

  // ---------------------------------------------------------------------------
  // Transitions
  // ---------------------------------------------------------------------------

  /** Removes socket `c` from stream `s`'s set, starts the broadcast for `s`, and
      schedules a stop when the set is left empty (the common part of a switch, a leave
      and a close). */
  function Detach(st: State, c: ConnId, s: StreamId): (r: Step)
    ensures r.state.conns == st.conns && r.state.visits == st.visits && r.state.nextTimer >= st.nextTimer
    ensures Members(r.state, s) == Members(st, s) - {c}
    ensures forall x :: x != s ==> Members(r.state, x) == Members(st, x)
    ensures r.effects == [Broadcast(s, ViewerCount(r.state, s), Visits(r.state, s), Members(r.state, s))]
  {
    var st1 := if s in st.viewers then st.(viewers := st.viewers[s := st.viewers[s] - {c}]) else st;
    var st2 := if Members(st1, s) == {} then ScheduleStop(st1, s) else st1;
    Step(st2, [BroadcastOf(st1, s)])
  }

  /** The second half of a join: socket `c` enters stream `s`'s set with the visits set
      `counted`, one visit is added unless `s` was already counted, and a stop stored for
      `s` is cancelled when the set was empty. */
  function Attach(st: State, c: ConnId, s: StreamId, u: string, counted: set<StreamId>): (r: State)
    ensures r.conns == st.conns[c := Some(Membership(s, u, counted + {s}))]
    ensures Members(r, s) == Members(st, s) + {c}
    ensures forall x :: x != s ==> Members(r, x) == Members(st, x)
    ensures forall x :: Visits(r, x) == Visits(st, x) + (if x == s && s !in counted then 1 else 0)
    ensures r.nextTimer == st.nextTimer
  {
    var st2 := st.(
      conns := st.conns[c := Some(Membership(s, u, counted + {s}))],
      viewers := st.viewers[s := Members(st, s) + {c}],
      visits := if s !in counted then st.visits[s := Visits(st, s) + 1] else st.visits);
    if Members(st, s) == {} then CancelStop(st2, s) else st2
  }

  /** `join_stream` with a stream id and a user id, from an open socket: the socket leaves
      the stream it was in and joins `s` under user `u`, keeping its counted streams plus
      `s`. */
  function Join(st: State, c: ConnId, s: StreamId, u: string): (r: Step)
    requires c in st.conns
    ensures r.state.conns == st.conns[c := Some(Membership(s, u, CountedBefore(st, c) + {s}))]
    ensures r.state.conns.Keys == st.conns.Keys
    ensures c in Members(r.state, s)
    ensures st.conns[c].Some? && st.conns[c].value.streamId != s ==> c !in Members(r.state, st.conns[c].value.streamId)
    ensures forall x :: Visits(r.state, x) >= Visits(st, x)
    ensures r.state.nextTimer >= st.nextTimer
  {
    var left := LeaveCurrent(st, c);
    assert forall x :: Visits(left.state, x) == Visits(st, x);
    Enter(left, c, s, u, CountedBefore(st, c))
  }

  /** The visits set a join starts from: the socket's current one, or none. */
  function CountedBefore(st: State, c: ConnId): set<StreamId>
    requires c in st.conns
  {
    if st.conns[c].Some? then st.conns[c].value.counted else {}
  }

  /** The first half of a join: a socket in a stream detaches from it; a socket in none
      changes nothing. */
  function LeaveCurrent(st: State, c: ConnId): (r: Step)
    requires c in st.conns
    ensures r.state.conns == st.conns && r.state.visits == st.visits && r.state.nextTimer >= st.nextTimer
    ensures st.conns[c].Some? ==>
              Members(r.state, st.conns[c].value.streamId) == Members(st, st.conns[c].value.streamId) - {c}
    ensures forall x :: (st.conns[c].None? || x != st.conns[c].value.streamId) ==> Members(r.state, x) == Members(st, x)
    ensures forall i :: 0 <= i < |r.effects| ==> r.effects[i].Broadcast?
  {
    if st.conns[c].Some? then Detach(st, c, st.conns[c].value.streamId) else Step(st, [])
  }

  /** The part of a join after the socket has left its old stream (`left` holds the
      state and the effects so far): the socket attaches to `s`, the transcoder is asked
      to run when the set was empty, and the socket is told its new counts before they
      are broadcast. */
  function Enter(left: Step, c: ConnId, s: StreamId, u: string, counted: set<StreamId>): (r: Step)
    ensures r.state.conns == left.state.conns[c := Some(Membership(s, u, counted + {s}))]
    ensures Members(r.state, s) == Members(left.state, s) + {c}
    ensures forall x :: x != s ==> Members(r.state, x) == Members(left.state, x)
    ensures forall x :: Visits(r.state, x) >= Visits(left.state, x)
    ensures r.state.nextTimer == left.state.nextTimer
  {
    var st3 := Attach(left.state, c, s, u, counted);
    Step(st3, left.effects
              + (if Members(left.state, s) == {} then [EnsureRunning(s)] else [])
              + [Send(c, JoinedStream(s, ViewerCount(st3, s), Visits(st3, s))), BroadcastOf(st3, s)])
  }

  /** `leave_stream`: detaches the socket and sets its `current` to `null`. A joined socket
      leaves its stream's set, which alone changes, and the stream's new count is
      broadcast; visits are kept. A socket in no stream changes nothing. */
  function Leave(st: State, c: ConnId): (r: Step)
    requires c in st.conns
    ensures r.state.conns == st.conns[c := None] && r.state.visits == st.visits
    ensures r.state.nextTimer >= st.nextTimer
    ensures st.conns[c].None? ==> r == Step(st, [])
    ensures st.conns[c].Some? ==>
              var s := st.conns[c].value.streamId;
              && Members(r.state, s) == Members(st, s) - {c}
              && (forall x :: x != s ==> Members(r.state, x) == Members(st, x))
              && r.effects == [Broadcast(s, ViewerCount(r.state, s), Visits(r.state, s), Members(r.state, s))]
  {
    match st.conns[c]
    case None => Step(st, [])
    case Some(m) =>
      var d := Detach(st, c, m.streamId);
      Step(d.state.(conns := d.state.conns[c := None]), d.effects)
  }

  /** The socket's `close` event: detaches it; the socket then receives nothing more.
      Visits are kept; only the set of the stream it was in changes. */
  function Close(st: State, c: ConnId): (r: Step)
    requires c in st.conns
    ensures r.state.conns == st.conns - {c} && r.state.visits == st.visits
    ensures r.state.nextTimer >= st.nextTimer
    ensures st.conns[c].None? ==> r.effects == [] && r.state.viewers == st.viewers
    ensures st.conns[c].Some? ==>
              var s := st.conns[c].value.streamId;
              && Members(r.state, s) == Members(st, s) - {c}
              && (forall x :: x != s ==> Members(r.state, x) == Members(st, x))
              && r.effects == [Broadcast(s, ViewerCount(r.state, s), Visits(r.state, s), Members(r.state, s))]
  {
    var d := match st.conns[c]
      case None => Step(st, [])
      case Some(m) => Detach(st, c, m.streamId);
    Step(d.state.(conns := d.state.conns - {c}), d.effects)
  }

  /** A stop timer fires: it is no longer armed, and only if the stream's set is absent
      or empty does the stop happen. */
  function FireTimer(st: State, t: TimerId): (r: Step)
    ensures r.state == st.(outstanding := st.outstanding - {t})
    ensures r.effects == [] || (t in st.outstanding && r.effects == [StopTranscoder(st.outstanding[t])])
    ensures r.effects != [] <==> t in st.outstanding && Members(st, st.outstanding[t]) == {}
  {
    if t !in st.outstanding then Step(st, [])
    else
      var s := st.outstanding[t];
      var st1 := st.(outstanding := st.outstanding - {t});
      if Members(st1, s) == {} then Step(st1, [StopTranscoder(s)]) else Step(st1, [])
  }

  /** The `message` handler of an open socket: no socket opens or closes and no visit
      count drops; a heartbeat or an unreadable payload is answered to the sender alone;
      a join without a non-empty stream and user id, or an unknown type, is ignored. */
  function OnMessage(st: State, c: ConnId, msg: Message): (r: Step)
    requires c in st.conns
    ensures r.state.conns.Keys == st.conns.Keys
    ensures forall x :: Visits(r.state, x) >= Visits(st, x)
    ensures r.state.nextTimer >= st.nextTimer
    ensures msg.Heartbeat? ==> r == Step(st, [Send(c, HeartbeatResponse)])
    ensures msg.Invalid? ==> r == Step(st, [Send(c, InvalidMessage)])
    ensures msg.OtherType? || (msg.JoinStream? && !(Truthy(msg.streamId) && Truthy(msg.userId))) ==> r == Step(st, [])
  {
    match msg
    case JoinStream(sid, uid) =>
      if !Truthy(sid) || !Truthy(uid) then Step(st, [])
      else Join(st, c, sid.value, uid.value)
    case LeaveStream => Leave(st, c)
    case Heartbeat => Step(st, [Send(c, HeartbeatResponse)])
    case OtherType => Step(st, [])
    case Invalid => Step(st, [Send(c, InvalidMessage)])
  }

  /** One event of the handler. Events of sockets that are not open are dropped. No event
      lowers a visit count or reuses a timer number; a connection opens a socket with no
      stream and a close removes it. */
  function Next(st: State, e: Event): (r: Step)
    ensures forall x :: Visits(r.state, x) >= Visits(st, x)
    ensures r.state.nextTimer >= st.nextTimer
    ensures e.Connected? ==> r.effects == [] && r.state.conns.Keys == st.conns.Keys + {e.conn}
    ensures e.Connected? && e.conn !in st.conns ==> r.state.conns[e.conn] == None
    ensures e.Closed? ==> e.conn !in r.state.conns
    ensures (e.Received? || e.Closed?) && e.conn !in st.conns ==> r == Step(st, [])
  {
    match e
    case Connected(c) =>
      if c in st.conns then Step(st, []) else Step(st.(conns := st.conns[c := None]), [])
    case Received(c, msg) =>
      if c !in st.conns then Step(st, [])
      else OnMessage(st, c, msg)
    case Closed(c) =>
      if c !in st.conns then Step(st, []) else Close(st, c)
    case Fire(t) => FireTimer(st, t)
  }

  /** Runs a sequence of events, concatenating their effects. */
  function Run(st: State, events: seq<Event>): Step
    decreases |events|
  {
    if |events| == 0 then Step(st, [])
    else
      var first := Next(st, events[0]);
      var rest := Run(first.state, events[1..]);
      Step(rest.state, first.effects + rest.effects)
  }

  // ---------------------------------------------------------------------------
  // The invariant
  // ---------------------------------------------------------------------------

  /** A socket in a stream's set is open and its current entry names that stream. */
  ghost predicate MembersJoined(st: State) {
    forall s, c :: s in st.viewers && c in st.viewers[s] ==>
      c in st.conns && st.conns[c].Some? && st.conns[c].value.streamId == s
  }

  /** A socket with a current entry is in the set of the entry's stream. */
  ghost predicate JoinedMembers(st: State) {
    forall c :: c in st.conns && st.conns[c].Some? ==>
      st.conns[c].value.streamId in st.viewers && c in st.viewers[st.conns[c].value.streamId]
  }

  /** A joined socket has counted a visit to its stream. */
  ghost predicate CountedCurrent(st: State) {
    forall c :: c in st.conns && st.conns[c].Some? ==> st.conns[c].value.streamId in st.conns[c].value.counted
  }

  /** An armed timer is the one stored for its stream, and every stored timer is older
      than `nextTimer`. */
  ghost predicate TimersStored(st: State) {
    && (forall t :: t in st.outstanding ==>
          t < st.nextTimer && st.outstanding[t] in st.timers && st.timers[st.outstanding[t]] == t)
    && (forall s :: s in st.timers ==>
          st.timers[s] < st.nextTimer && (st.timers[s] in st.outstanding ==> st.outstanding[st.timers[s]] == s))
  }

  /** A stop timer is armed only for a stream nobody is watching. */
  ghost predicate ArmedOnlyWhenIdle(st: State) {
    forall t :: t in st.outstanding ==> Members(st, st.outstanding[t]) == {}
  }

  /** The invariant of the handler's state. */
  ghost predicate Inv(st: State) {
    MembersJoined(st) && JoinedMembers(st) && CountedCurrent(st) && TimersStored(st) && ArmedOnlyWhenIdle(st)
  }

  /** `Inv` with socket `c` in no set while its entry still names a stream: the middle
      of a stream switch, a leave or a close. */
  ghost predicate InvDetached(st: State, c: ConnId) {
    && MembersJoined(st)
    && (forall c' :: c' != c && c' in st.conns && st.conns[c'].Some? ==>
          st.conns[c'].value.streamId in st.viewers && c' in st.viewers[st.conns[c'].value.streamId])
    && (forall s :: s in st.viewers ==> c !in st.viewers[s])
    && CountedCurrent(st) && TimersStored(st) && ArmedOnlyWhenIdle(st)
  }
}
