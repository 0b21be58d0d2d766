/**
 Properties of the viewer-presence handler of server/routes.ts: the state
 invariant every event preserves, what the viewer count and the visit counter
 mean, and how joins, leaves, closes and timer firings drive the on-demand
 start and stop of a stream.
 */
module PresenceProps {
  import opened Common
  import opened Presence

  // ---------------------------------------------------------------------------
  // Timer bookkeeping
  // ---------------------------------------------------------------------------

  /** Scheduling leaves exactly one armed timer for the stream, a fresh one, and does not
      touch the armed timers of other streams. */
  lemma ScheduleStopFacts(st: State, s: StreamId)
    requires TimersStored(st)
    ensures var r := ScheduleStop(st, s);
            && TimersStored(r)
            && ArmedFor(r, s) == {st.nextTimer}
            && (forall t :: t in r.outstanding ==>
                  (t == st.nextTimer && r.outstanding[t] == s) || (t in st.outstanding && r.outstanding[t] == st.outstanding[t] && r.outstanding[t] != s))
  {
  }

  /** Cancelling leaves no armed timer for the stream and keeps the others. */
  lemma CancelStopFacts(st: State, s: StreamId)
    requires TimersStored(st)
    ensures var r := CancelStop(st, s);
            && TimersStored(r)
            && ArmedFor(r, s) == {}
            && (forall t :: t in r.outstanding ==> t in st.outstanding && r.outstanding[t] == st.outstanding[t])
  {
  }

  /** A stream has at most one armed stop timer. */
  lemma AtMostOneArmedTimer(st: State, s: StreamId)
    requires TimersStored(st)
    ensures |ArmedFor(st, s)| <= 1
  {
    if ArmedFor(st, s) != {} {
      var t :| t in ArmedFor(st, s);
      assert ArmedFor(st, s) == {t};
    }
  }

  // ---------------------------------------------------------------------------
  // Preservation of the invariant
  // ---------------------------------------------------------------------------

  lemma InitInv()
    ensures Inv(Init)
  {
  }

  /** Detaching a joined socket from its stream. */
  lemma DetachFacts(st: State, c: ConnId, s: StreamId)
    requires Inv(st) && c in st.conns && st.conns[c].Some? && st.conns[c].value.streamId == s
    ensures var d := Detach(st, c, s);
            && InvDetached(d.state, c)
            && d.state.conns == st.conns && d.state.visits == st.visits
            && s in st.viewers && d.state.viewers == st.viewers[s := st.viewers[s] - {c}]
            && d.effects == [Broadcast(s, |Members(st, s) - {c}|, Visits(st, s), Members(st, s) - {c})]
            && (Members(st, s) - {c} == {} ==> ArmedFor(d.state, s) == {st.nextTimer} && d.state.nextTimer == st.nextTimer + 1)
            && (Members(st, s) - {c} != {} ==> d.state.timers == st.timers && d.state.outstanding == st.outstanding && d.state.nextTimer == st.nextTimer)
  {
    var st1 := st.(viewers := st.viewers[s := st.viewers[s] - {c}]);
    assert Members(st1, s) == Members(st, s) - {c};
    assert InvDetached(st1, c);
    if Members(st1, s) == {} {
      ScheduleStopFacts(st1, s);
    }
  }

  lemma {:induction false} LeavePreservesInv(st: State, c: ConnId)
    requires Inv(st) && c in st.conns
    ensures Inv(Leave(st, c).state)
  {
    if st.conns[c].Some? {
      DetachFacts(st, c, st.conns[c].value.streamId);
    }
  }

  lemma {:induction false} ClosePreservesInv(st: State, c: ConnId)
    requires Inv(st) && c in st.conns
    ensures Inv(Close(st, c).state)
  {
    if st.conns[c].Some? {
      DetachFacts(st, c, st.conns[c].value.streamId);
    }
  }

  /** The attach half of a join preserves the invariant. */
  lemma AttachPreservesInv(st1: State, c: ConnId, s: StreamId, u: string, counted: set<StreamId>)
    requires InvDetached(st1, c) && c in st1.conns
    ensures Inv(Attach(st1, c, s, u, counted))
    ensures ArmedFor(Attach(st1, c, s, u, counted), s) == {}
  {
    var st2 := st1.(
      conns := st1.conns[c := Some(Membership(s, u, counted + {s}))],
      viewers := st1.viewers[s := Members(st1, s) + {c}],
      visits := if s !in counted then st1.visits[s := Visits(st1, s) + 1] else st1.visits);
    assert MembersJoined(st2);
    assert JoinedMembers(st2);
    assert CountedCurrent(st2);
    assert TimersStored(st2);
    if Members(st1, s) == {} {
      CancelStopFacts(st2, s);
      var st3 := CancelStop(st2, s);
      assert ArmedOnlyWhenIdle(st3) by {
        forall t | t in st3.outstanding ensures Members(st3, st3.outstanding[t]) == {} {
          assert t !in ArmedFor(st3, s);
        }
      }
    } else {
      assert ArmedFor(st1, s) == {};
      assert ArmedOnlyWhenIdle(st2) by {
        forall t | t in st2.outstanding ensures Members(st2, st2.outstanding[t]) == {} {
          assert t !in ArmedFor(st1, s);
        }
      }
      assert ArmedFor(st2, s) == ArmedFor(st1, s);
    }
  }

  /** The effects of a join's second half: those of the leave, then a start exactly when
      the set was empty, then the reply and the broadcast; none of them is a stop. */
  lemma EnterEffects(left: Step, c: ConnId, s: StreamId, u: string, counted: set<StreamId>)
    ensures var r := Enter(left, c, s, u, counted);
            && |r.effects| >= |left.effects| + 2 && r.effects[..|left.effects|] == left.effects
            && ((r.effects[|left.effects|] == EnsureRunning(s)) <==> Members(left.state, s) == {})
            && (forall i :: |left.effects| < i < |r.effects| ==> r.effects[i] != EnsureRunning(s))
            && (forall i :: |left.effects| <= i < |r.effects| ==> !r.effects[i].StopTranscoder?)
            && r.effects[|r.effects| - 2] == Send(c, JoinedStream(s, ViewerCount(r.state, s), Visits(r.state, s)))
            && r.effects[|r.effects| - 1] == BroadcastOf(r.state, s)
  {
  }

  /** A join's state is the attach applied to the state its leave leaves. */
  lemma JoinState(st: State, c: ConnId, s: StreamId, u: string)
    requires c in st.conns
    ensures Join(st, c, s, u).state == Attach(LeaveCurrent(st, c).state, c, s, u, CountedBefore(st, c))
  {
    assert Join(st, c, s, u) == Enter(LeaveCurrent(st, c), c, s, u, CountedBefore(st, c));
  }

  lemma {:induction false} JoinPreservesInv(st: State, c: ConnId, s: StreamId, u: string)
    requires Inv(st) && c in st.conns
    ensures Inv(Join(st, c, s, u).state)
  {
    JoinLeftMembers(st, c, s);
    JoinState(st, c, s, u);
    AttachPreservesInv(LeaveCurrent(st, c).state, c, s, u, CountedBefore(st, c));
  }

  lemma {:induction false} FirePreservesInv(st: State, t: TimerId)
    requires Inv(st)
    ensures Inv(FireTimer(st, t).state)
  {
  }

  /** Every event preserves the invariant. */
  lemma {:induction false} NextPreservesInv(st: State, e: Event)
    requires Inv(st)
    ensures Inv(Next(st, e).state)
  {
    match e
    case Connected(c) => {}
    case Received(c, msg) => {
      if c in st.conns {
        match msg
        case JoinStream(sid, uid) => {
          if Truthy(sid) && Truthy(uid) {
            JoinPreservesInv(st, c, sid.value, uid.value);
          }
        }
        case LeaveStream => LeavePreservesInv(st, c);
        case Heartbeat => {}
        case OtherType => {}
        case Invalid => {}
      }
    }
    case Closed(c) => {
      if c in st.conns {
        ClosePreservesInv(st, c);
      }
    }
    case Fire(t) => FirePreservesInv(st, t);
  }

  /** Every sequence of connections, messages, closes and timer firings keeps the presence
      invariant. This is the server's own fold over `Run`; the on-demand and client modules
      each have theirs. */
  lemma {:induction false} RunPreservesInv(st: State, events: seq<Event>)
    requires Inv(st)
    ensures Inv(Run(st, events).state)
    decreases |events|
  {
    if |events| > 0 {
      NextPreservesInv(st, events[0]);
      RunPreservesInv(Next(st, events[0]).state, events[1..]);
    }
  }

  // ---------------------------------------------------------------------------
  // Membership and the viewer count
  // ---------------------------------------------------------------------------

  /** A stream's viewer count is the number of sockets currently joined to it. */
  lemma CountIsJoinedSockets(st: State, s: StreamId)
    requires Inv(st)
    ensures Members(st, s) == JoinedTo(st, s)
    ensures ViewerCount(st, s) == |JoinedTo(st, s)|
  {
  }

  /** A socket is in at most one stream's set. */
  lemma OneStreamPerSocket(st: State, c: ConnId, s1: StreamId, s2: StreamId)
    requires Inv(st)
    requires c in Members(st, s1) && c in Members(st, s2)
    ensures s1 == s2
  {
    assert st.conns[c].value.streamId == s1;
  }

  /** A join moves the socket: it is in the joined stream's set and in no other. */
  lemma JoinMoves(st: State, c: ConnId, s: StreamId, u: string)
    requires Inv(st) && c in st.conns
    ensures var r := Join(st, c, s, u).state;
            && Members(r, s) == Members(st, s) + {c}
            && (forall x :: x != s ==> Members(r, x) == Members(st, x) - {c})
            && r.conns.Keys == st.conns.Keys
  {
    var left := LeaveCurrent(st, c);
    var r := Join(st, c, s, u);
    assert r == Enter(left, c, s, u, CountedBefore(st, c));
    LeftMembers(st, c, s);
    forall x | x != s
      ensures Members(r.state, x) == Members(st, x) - {c}
    {
      if c in Members(st, x) {
        assert st.conns[c].Some? && st.conns[c].value.streamId == x;
      }
    }
  }

  // ---------------------------------------------------------------------------
  // Visits
  // ---------------------------------------------------------------------------

  /** A join adds one visit to its stream exactly when the stream is not in the socket's
      visits set, and carries the set forward with the stream added. */
  lemma JoinCountsVisit(st: State, c: ConnId, s: StreamId, u: string, x: StreamId)
    requires c in st.conns
    ensures var r := Join(st, c, s, u).state;
            && Visits(r, x) == Visits(st, x) + (if x == s && s !in CountedBefore(st, c) then 1 else 0)
            && c in r.conns && r.conns[c] == Some(Membership(s, u, CountedBefore(st, c) + {s}))
  {
  }

  /** No event lowers a stream's visit count. */
  lemma VisitsMonotone(st: State, e: Event, x: StreamId)
    ensures Visits(st, x) <= Visits(Next(st, e).state, x)
  {
    match e
    case Received(c, msg) =>
      if c in st.conns && msg.JoinStream? && Truthy(msg.streamId) && Truthy(msg.userId) {
        JoinCountsVisit(st, c, msg.streamId.value, msg.userId.value, x);
      }
    case _ =>
  }

  /** Joining again a stream the socket is joined to counts no visit. */
  lemma RejoinNotCounted(st: State, c: ConnId, u: string, x: StreamId)
    requires Inv(st) && c in st.conns && st.conns[c].Some?
    ensures Visits(Join(st, c, st.conns[c].value.streamId, u).state, x) == Visits(st, x)
  {
    JoinCountsVisit(st, c, st.conns[c].value.streamId, u, x);
  }

  /** Switching from `a` to `b` and back to `a` on one socket counts one visit to each. */
  lemma SwitchBackCountsOnce(st: State, c: ConnId, a: StreamId, b: StreamId, u: string)
    requires c in st.conns && st.conns[c].None? && a != b
    ensures var r := Join(Join(Join(st, c, a, u).state, c, b, u).state, c, a, u).state;
            && Visits(r, a) == Visits(st, a) + 1
            && Visits(r, b) == Visits(st, b) + 1
  {
    var r1 := Join(st, c, a, u).state;
    JoinCountsVisit(st, c, a, u, a);
    JoinCountsVisit(st, c, a, u, b);
    var r2 := Join(r1, c, b, u).state;
    JoinCountsVisit(r1, c, b, u, a);
    JoinCountsVisit(r1, c, b, u, b);
    JoinCountsVisit(r2, c, a, u, a);
    JoinCountsVisit(r2, c, a, u, b);
  }

  /** A leave forgets the socket's visits set, so joining the same stream again counts. */
  lemma LeaveThenRejoinCounts(st: State, c: ConnId, u: string)
    requires Inv(st) && c in st.conns && st.conns[c].Some?
    ensures var s := st.conns[c].value.streamId;
            var r := Join(Leave(st, c).state, c, s, u).state;
            Visits(r, s) == Visits(st, s) + 1
  {
    var s := st.conns[c].value.streamId;
    DetachFacts(st, c, s);
    var l := Leave(st, c).state;
    JoinCountsVisit(l, c, s, u, s);
  }

  // ---------------------------------------------------------------------------
  // Starting and stopping on demand
  // ---------------------------------------------------------------------------

  /** The set a join finds for its stream, once the socket has left its old one. */
  lemma JoinLeftMembers(st: State, c: ConnId, s: StreamId)
    requires Inv(st) && c in st.conns
    ensures Members(LeaveCurrent(st, c).state, s) == Members(st, s) - {c}
    ensures InvDetached(LeaveCurrent(st, c).state, c)
  {
    var cur := st.conns[c];
    if cur.Some? {
      DetachFacts(st, c, cur.value.streamId);
    }
    LeftMembers(st, c, s);
  }

  /** A join's last two effects are the reply to the socket and the broadcast to the
      stream, both carrying the count and visits after the join. */
  lemma JoinReplies(st: State, c: ConnId, s: StreamId, u: string)
    requires c in st.conns
    ensures var r := Join(st, c, s, u);
            && |r.effects| >= 2
            && r.effects[|r.effects| - 2] == Send(c, JoinedStream(s, ViewerCount(r.state, s), Visits(r.state, s)))
            && r.effects[|r.effects| - 1] == Broadcast(s, ViewerCount(r.state, s), Visits(r.state, s), Members(r.state, s))
  {
    assert Join(st, c, s, u) == Enter(LeaveCurrent(st, c), c, s, u, CountedBefore(st, c));
    EnterEffects(LeaveCurrent(st, c), c, s, u, CountedBefore(st, c));
  }

  /** The set a join's stream has once the socket has left its old one: the old set
      without the socket. */
  lemma LeftMembers(st: State, c: ConnId, s: StreamId)
    requires Inv(st) && c in st.conns
    ensures Members(LeaveCurrent(st, c).state, s) == Members(st, s) - {c}
  {
    if c in Members(st, s) {
      assert st.conns[c].Some? && st.conns[c].value.streamId == s;
    }
  }

  /** A join's second half asks for a start exactly when the stream's set was empty,
      provided the leave before it only broadcast. */
  lemma EnterStarts(left: Step, c: ConnId, s: StreamId, u: string, counted: set<StreamId>)
    requires forall i :: 0 <= i < |left.effects| ==> left.effects[i].Broadcast?
    ensures EnsureRunning(s) in Enter(left, c, s, u, counted).effects <==> Members(left.state, s) == {}
  {
    var r := Enter(left, c, s, u, counted);
    EnterEffects(left, c, s, u, counted);
    if EnsureRunning(s) in r.effects {
      var i :| 0 <= i < |r.effects| && r.effects[i] == EnsureRunning(s);
      if i < |left.effects| {
        assert r.effects[i] == left.effects[i];
      }
    }
  }

  /** A join asks for the transcoder exactly when nobody else is watching the stream. */
  lemma JoinStarts(st: State, c: ConnId, s: StreamId, u: string)
    requires Inv(st) && c in st.conns
    ensures EnsureRunning(s) in Join(st, c, s, u).effects <==> Members(st, s) <= {c}
  {
    var left := LeaveCurrent(st, c);
    LeftMembers(st, c, s);
    assert Join(st, c, s, u) == Enter(left, c, s, u, CountedBefore(st, c));
    EnterStarts(left, c, s, u, CountedBefore(st, c));
    assert Members(left.state, s) == {} <==> Members(st, s) <= {c};
  }

  /** A join never stops a transcoder: it asks for at most a start. */
  lemma JoinNeverStops(st: State, c: ConnId, s: StreamId, u: string)
    requires c in st.conns
    ensures forall e :: e in Join(st, c, s, u).effects ==> !e.StopTranscoder?
  {
    var left := LeaveCurrent(st, c);
    var r := Join(st, c, s, u);
    assert r == Enter(left, c, s, u, CountedBefore(st, c));
    EnterEffects(left, c, s, u, CountedBefore(st, c));
    forall e | e in r.effects
      ensures !e.StopTranscoder?
    {
      var i :| 0 <= i < |r.effects| && r.effects[i] == e;
      if i < |left.effects| {
        assert r.effects[i] == left.effects[i];
      }
    }
  }

  /** A join starts the transcoder exactly when nobody else is watching the stream, and
      leaves no stop timer armed for it. */
  lemma JoinStartsIffAlone(st: State, c: ConnId, s: StreamId, u: string)
    requires Inv(st) && c in st.conns
    ensures EnsureRunning(s) in Join(st, c, s, u).effects <==> Members(st, s) <= {c}
    ensures ArmedFor(Join(st, c, s, u).state, s) == {}
  {
    JoinStarts(st, c, s, u);
    JoinLeftMembers(st, c, s);
    JoinState(st, c, s, u);
    AttachPreservesInv(LeaveCurrent(st, c).state, c, s, u, CountedBefore(st, c));
  }

  /** A leave that empties the stream's set arms exactly one stop timer for it, a fresh
      one; a leave that does not arms none. */
  lemma LeaveArmsStopIffLast(st: State, c: ConnId)
    requires Inv(st) && c in st.conns && st.conns[c].Some?
    ensures var s := st.conns[c].value.streamId;
            var r := Leave(st, c).state;
            && (Members(st, s) == {c} ==> ArmedFor(r, s) == {st.nextTimer})
            && (Members(st, s) != {c} ==> ArmedFor(r, s) == {} && r.outstanding == st.outstanding)
  {
    var s := st.conns[c].value.streamId;
    DetachFacts(st, c, s);
    assert c in Members(st, s);
    assert Members(st, s) != {} ==> ArmedFor(st, s) == {};
  }

  /** The same for a socket that closes. */
  lemma CloseArmsStopIffLast(st: State, c: ConnId)
    requires Inv(st) && c in st.conns && st.conns[c].Some?
    ensures var s := st.conns[c].value.streamId;
            var r := Close(st, c).state;
            && (Members(st, s) == {c} ==> ArmedFor(r, s) == {st.nextTimer})
            && (Members(st, s) != {c} ==> ArmedFor(r, s) == {} && r.outstanding == st.outstanding)
  {
    var s := st.conns[c].value.streamId;
    DetachFacts(st, c, s);
    assert c in Members(st, s);
    assert Members(st, s) != {} ==> ArmedFor(st, s) == {};
  }

  /** A firing timer stops its stream exactly when it is still armed for it, and is
      disarmed by firing. */
  lemma FireStopsIffArmed(st: State, t: TimerId, s: StreamId)
    requires Inv(st)
    ensures StopTranscoder(s) in FireTimer(st, t).effects <==> t in ArmedFor(st, s)
    ensures ArmedFor(FireTimer(st, t).state, s) == ArmedFor(st, s) - {t}
  {
  }

  /** One scheduled stop stops the stream at most once: after it fires, no timer firing
      stops the stream until a new stop is scheduled. */
  lemma NoSecondStop(st: State, t: TimerId, t2: TimerId, s: StreamId)
    requires Inv(st) && t in ArmedFor(st, s)
    ensures StopTranscoder(s) !in FireTimer(FireTimer(st, t).state, t2).effects
  {
    AtMostOneArmedTimer(st, s);
    assert ArmedFor(st, s) == {t};
    FireStopsIffArmed(st, t, s);
    FirePreservesInv(st, t);
    FireStopsIffArmed(FireTimer(st, t).state, t2, s);
  }

  /** The grace period absorbs a quick return: after the last viewer leaves and someone
      joins again, no timer firing stops the stream. */
  lemma GraceAbsorbsRejoin(st: State, c: ConnId, c2: ConnId, u: string, t: TimerId)
    requires Inv(st) && c in st.conns && st.conns[c].Some? && c2 in st.conns
    ensures var s := st.conns[c].value.streamId;
            var l := Leave(st, c).state;
            StopTranscoder(s) !in FireTimer(Join(l, c2, s, u).state, t).effects
  {
    var s := st.conns[c].value.streamId;
    LeavePreservesInv(st, c);
    var l := Leave(st, c).state;
    JoinStartsIffAlone(l, c2, s, u);
    JoinPreservesInv(l, c2, s, u);
    FireStopsIffArmed(Join(l, c2, s, u).state, t, s);
  }

  // ---------------------------------------------------------------------------
  // Messages that change nothing
  // ---------------------------------------------------------------------------

  /** A join without a truthy stream id and user id, a heartbeat, a message of another
      type and an unparseable one change no state; they answer at most the sender. */
  lemma InertMessages(st: State, c: ConnId, msg: Message)
    requires c in st.conns
    requires !msg.LeaveStream?
    requires msg.JoinStream? ==> !(Truthy(msg.streamId) && Truthy(msg.userId))
    ensures OnMessage(st, c, msg).state == st
    ensures forall e :: e in OnMessage(st, c, msg).effects ==> e.Send? && e.conn == c
  {
  }
}
