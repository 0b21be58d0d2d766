/**
 The transcoder bookkeeping of server/services/ffmpeg.ts (`FFmpegService`).

 The service keeps two maps: `processes` (stream id to the child process
 currently registered for it) and `info` (stream id to its last reported
 `StreamInfo`). Every `processStream` call that does not find the stream
 already streaming launches a new child; a launch is numbered by its position
 in `launches`, which also records what its closure knows (`hasStarted`), how
 its promise settled, and whether it was sent SIGTERM or has exited.

 Process spawning, stderr text and the file system are abstracted into the
 events a launch can produce: a first progress marker, a ready playlist, a
 spawn error, process exit and the 20-second start timeout.

 The source's event handlers act on whatever is registered under the stream
 id, not on the process that raised the event. `OnEventAsWritten` models that;
 `OnEvent` is the corrected handler that ignores events of a process that is
 no longer the registered one, and is the one the rest of the model uses.
 */
module Transcoder {
  import opened Common

  datatype Status = Idle | Processing | Streaming | Error

  datatype StreamInfo = StreamInfo(bitrate: string, fps: string, quality: string, status: Status)

  datatype Failure = SpawnFailed | StartTimedOut

  /** The state of the promise `processStream` returned for one launch. */
  datatype Settlement = Pending | Resolved(url: string) | Rejected(why: Failure)

  /** One spawned child and its closure's state. */
  datatype Launch = Launch(
    streamId: string,
    started: bool,        // `hasStarted`
    promise: Settlement,
    killed: bool,         // sent SIGTERM by `stopStream`
    exited: bool)

  datatype Service = Service(
    processes: map<string, nat>,
    info: map<string, StreamInfo>,
    launches: seq<Launch>)

  const StartTimeoutMs := 20000

  const Empty := Service(map[], map[], [])

  /** The playlist URL the service hands out for a stream. */
  function PlaylistUrl(streamId: string): (url: string)
    ensures |url| == |streamId| + 31
    ensures url[..13] == "/api/streams/" && url[13..13 + |streamId|] == streamId
  {
    "/api/streams/" + streamId + "/hls/playlist.m3u8"
  }

  /** Distinct streams get distinct playlist URLs. */
  lemma PlaylistUrlInjective(a: string, b: string)
    requires PlaylistUrl(a) == PlaylistUrl(b)
    ensures a == b
  {
    assert |a| == |b|;
    assert a == PlaylistUrl(a)[13..13 + |a|];
  }

  /** `getStreamInfo`. */
  function GetStreamInfo(svc: Service, streamId: string): (r: Option<StreamInfo>)
    ensures r.Some? <==> streamId in svc.info
    ensures r.Some? ==> r.value == svc.info[streamId]
  {
    if streamId in svc.info then Some(svc.info[streamId]) else None
  }

  /** `updateStreamInfo(id, { status })`: changes an existing entry only. */
  function SetStatus(svc: Service, streamId: string, status: Status): (r: Service)
    ensures streamId !in svc.info ==> r == svc
    ensures streamId in svc.info ==> r.info == svc.info[streamId := svc.info[streamId].(status := status)]
    ensures r.processes == svc.processes && r.launches == svc.launches
  {
    if streamId in svc.info then svc.(info := svc.info[streamId := svc.info[streamId].(status := status)])
    else svc
  }

  /** The process registered for `streamId`, when there is one. */
  predicate IsCurrent(svc: Service, l: nat) {
    l < |svc.launches| && svc.launches[l].streamId in svc.processes
    && svc.processes[svc.launches[l].streamId] == l
  }

  /** `stopStream`: with a registered process, kill it, unregister it and report idle;
      with none, change nothing. */
  function Stop(svc: Service, streamId: string): (r: Service)
    ensures streamId !in svc.processes ==> r == svc
    ensures streamId in svc.processes ==>
              && r.processes == svc.processes - {streamId}
              && (streamId in svc.info ==> r.info == svc.info[streamId := svc.info[streamId].(status := Idle)])
              && (streamId !in svc.info ==> r.info == svc.info)
    ensures |r.launches| == |svc.launches|
  {
    if streamId !in svc.processes then svc
    else
      var p := svc.processes[streamId];
      var launches := if p < |svc.launches| then svc.launches[p := svc.launches[p].(killed := true)] else svc.launches;
      SetStatus(Service(svc.processes - {streamId}, svc.info, launches), streamId, Idle)
  }

  /** What `processStream` does before any child event arrives. */
  datatype StartResult = AlreadyStreaming(url: string) | Spawned(launch: nat)

  /** Whether the transcoder reports the stream streaming. */
  predicate IsStreaming(svc: Service, streamId: string) {
    streamId in svc.info && svc.info[streamId].status == Streaming
  }

  /** The part of `processStream` that runs before its first `await`: a streaming stream
      resolves at once with its playlist URL (`Some`) and is not touched; otherwise any
      registered process is stopped and the call goes on to clear the output directory
      (`None`). */
  function BeginStart(svc: Service, streamId: string): (r: (Service, Option<string>))
    ensures IsStreaming(svc, streamId) ==> r == (svc, Some(PlaylistUrl(streamId)))
    ensures !IsStreaming(svc, streamId) ==> r.1.None? && r.0 == Stop(svc, streamId) && streamId !in r.0.processes
  {
    if IsStreaming(svc, streamId) then (svc, Some(PlaylistUrl(streamId)))
    else (Stop(svc, streamId), None)
  }

  /** The part of `processStream` after the `fs.rm`/`fs.mkdir` awaits, as written: the child
      is spawned and `processes.set` registers it, replacing (without stopping) whatever
      another call registered for the stream in the meantime. */
  function SpawnAsWritten(svc: Service, streamId: string, quality: string): (r: (Service, nat))
    ensures r.1 == |svc.launches|
    ensures r.0.processes == svc.processes[streamId := r.1]
    ensures r.0.info == svc.info[streamId := StreamInfo("0 kbps", "0", quality, Processing)]
    ensures r.0.launches == svc.launches + [Launch(streamId, false, Pending, false, false)]
  {
    var l := |svc.launches|;
    (Service(svc.processes[streamId := l],
             svc.info[streamId := StreamInfo("0 kbps", "0", quality, Processing)],
             svc.launches + [Launch(streamId, false, Pending, false, false)]),
     l)
  }

  /** The corrected spawn: a process registered for the stream while this call awaited the
      file system is stopped before the new child is registered. When nothing is
      registered it is the spawn as written. */
  function Spawn(svc: Service, streamId: string, quality: string): (r: (Service, nat))
    ensures r.1 == |svc.launches|
    ensures r.0.processes == svc.processes[streamId := r.1]
    ensures r.0.info == svc.info[streamId := StreamInfo("0 kbps", "0", quality, Processing)]
    ensures r.0.launches == Stop(svc, streamId).launches + [Launch(streamId, false, Pending, false, false)]
    ensures streamId !in svc.processes ==> r == SpawnAsWritten(svc, streamId, quality)
  {
    SpawnAsWritten(Stop(svc, streamId), streamId, quality)
  }

  /** `processStream` when nothing else runs during its awaits: a streaming stream resolves
      at once with its playlist URL and is not touched; otherwise any registered process is
      stopped, and a new one is registered with status `processing`. */
  function ProcessStream(svc: Service, streamId: string, quality: string): (r: (Service, StartResult))
    ensures IsStreaming(svc, streamId) ==> r == (svc, AlreadyStreaming(PlaylistUrl(streamId)))
    ensures !IsStreaming(svc, streamId) ==>
              && r.1 == Spawned(|svc.launches|)
              && r.0.processes == svc.processes[streamId := |svc.launches|]
              && r.0.info == svc.info[streamId := StreamInfo("0 kbps", "0", quality, Processing)]
              && r.0.launches == Stop(svc, streamId).launches + [Launch(streamId, false, Pending, false, false)]
  {
    var (svc1, url) := BeginStart(svc, streamId);
    match url
    case Some(u) => (svc1, AlreadyStreaming(u))
    case None =>
      var (svc2, l) := Spawn(svc1, streamId, quality);
      (svc2, Spawned(l))
  }

  /** A promise settles once; later `resolve`/`reject` calls are ignored. */
  function Settle(p: Settlement, outcome: Settlement): (r: Settlement)
    ensures p.Pending? ==> r == outcome
    ensures !p.Pending? ==> r == p
  {
    if p.Pending? then outcome else p
  }

  /** Once a promise has settled, no later settlement changes it, whichever comes first. */
  lemma SettleOnce(p: Settlement, a: Settlement, b: Settlement)
    requires !a.Pending?
    ensures !Settle(p, a).Pending?
    ensures Settle(Settle(p, a), b) == Settle(p, a)
    ensures p.Pending? ==> Settle(Settle(p, a), b) == a
  {
  }

  /** What a launched child (or its start timer) reports. */
  datatype Event =
    | Progress(launch: nat)       // first stderr chunk with a start marker
    | PlaylistReady(launch: nat)  // the playlist poll finds segments
    | SpawnError(launch: nat)     // the child's `error` event
    | Exit(launch: nat)           // the child's `exit` event
    | StartTimeout(launch: nat)   // the 20-second timer

  /** Replaces launch `l`. */
  function WithLaunch(svc: Service, l: nat, x: Launch): (r: Service)
    requires l < |svc.launches|
    ensures r.processes == svc.processes && r.info == svc.info
    ensures r.launches == svc.launches[l := x]
  {
    svc.(launches := svc.launches[l := x])
  }

  /** The handlers as the source writes them: status and registration are changed for
      whatever is registered under the launch's stream id. Stderr data and the `error`
      event may still arrive after `exit` (stdio can close after the process exits); the
      child exits once. */
  function OnEventAsWritten(svc: Service, e: Event): (r: Service)
    ensures |r.launches| == |svc.launches|
    ensures r.processes.Keys <= svc.processes.Keys && r.info.Keys == svc.info.Keys
  {
    var l := e.launch;
    if l >= |svc.launches| then svc
    else
      var x := svc.launches[l];
      var s := x.streamId;
      match e
      case Progress(_) =>
        if x.started then svc
        else SetStatus(WithLaunch(svc, l, x.(started := true)), s, Streaming)
      case PlaylistReady(_) =>
        if !x.started then svc
        else WithLaunch(svc, l, x.(promise := Settle(x.promise, Resolved(PlaylistUrl(s)))))
      case SpawnError(_) =>
        var x' := if x.started then x else x.(promise := Settle(x.promise, Rejected(SpawnFailed)));
        SetStatus(WithLaunch(svc, l, x'), s, Error)
      case Exit(_) =>
        if x.exited then svc
        else
          var svc1 := WithLaunch(svc, l, x.(exited := true));
          SetStatus(svc1.(processes := svc1.processes - {s}), s, Idle)
      case StartTimeout(_) =>
        if x.started then svc
        else
          var stopped := Stop(svc, s);
          var x' := stopped.launches[l];
          WithLaunch(stopped, l, x'.(promise := Settle(x'.promise, Rejected(StartTimedOut))))
  }

  /** The corrected handlers: a launch's own closure state (`hasStarted`, its promise, its
      exit) is updated as before, but the stream's registration and status are touched only
      when the launch is the process registered for its stream. An event of a launch that
      is not registered leaves registrations and statuses alone, and no event registers
      anything. */
  function OnEvent(svc: Service, e: Event): (r: Service)
    ensures |r.launches| == |svc.launches|
    ensures r.processes.Keys <= svc.processes.Keys && r.info.Keys == svc.info.Keys
    ensures !IsCurrent(svc, e.launch) ==> r.processes == svc.processes && r.info == svc.info
  {
    var l := e.launch;
    if l >= |svc.launches| then svc
    else
      var x := svc.launches[l];
      var s := x.streamId;
      var current := IsCurrent(svc, l);
      match e
      case Progress(_) =>
        if x.started then svc
        else
          var svc1 := WithLaunch(svc, l, x.(started := true));
          if current then SetStatus(svc1, s, Streaming) else svc1
      case PlaylistReady(_) =>
        if !x.started then svc
        else WithLaunch(svc, l, x.(promise := Settle(x.promise, Resolved(PlaylistUrl(s)))))
      case SpawnError(_) =>
        var x' := if x.started then x else x.(promise := Settle(x.promise, Rejected(SpawnFailed)));
        var svc1 := WithLaunch(svc, l, x');
        if current then SetStatus(svc1, s, Error) else svc1
      case Exit(_) =>
        if x.exited then svc
        else
          var svc1 := WithLaunch(svc, l, x.(exited := true));
          if current then SetStatus(svc1.(processes := svc1.processes - {s}), s, Idle) else svc1
      case StartTimeout(_) =>
        if x.started then svc
        else
          var stopped := if current then Stop(svc, s) else svc;
          var x' := stopped.launches[l];
          WithLaunch(stopped, l, x'.(promise := Settle(x'.promise, Rejected(StartTimedOut))))
  }

  /** The `updateStreamInfo` call (stream and status) a corrected handler makes for an event
      and that reaches an existing entry, so that `streamInfoUpdated` is emitted; `None`
      when the handler reports nothing. */
  function Report(svc: Service, e: Event): (r: Option<(string, Status)>)
    ensures r.Some? ==> IsCurrent(svc, e.launch) && r.value.0 == svc.launches[e.launch].streamId && r.value.0 in svc.info
    ensures r.Some? ==> OnEvent(svc, e).info == svc.info[r.value.0 := svc.info[r.value.0].(status := r.value.1)]
    ensures r.None? ==> OnEvent(svc, e).info == svc.info
  {
    var l := e.launch;
    if !IsCurrent(svc, l) then None
    else
      var x := svc.launches[l];
      var s := x.streamId;
      if s !in svc.info then None
      else match e
        case Progress(_) => if x.started then None else Some((s, Streaming))
        case PlaylistReady(_) => None
        case SpawnError(_) => Some((s, Error))
        case Exit(_) => if x.exited then None else Some((s, Idle))
        case StartTimeout(_) => if x.started then None else Some((s, Idle))
  }

  /** A registered process is a launch for that stream that is still running. */
  ghost predicate RegisteredRunning(svc: Service) {
    forall s :: s in svc.processes ==>
      && svc.processes[s] < |svc.launches|
      && svc.launches[svc.processes[s]].streamId == s
      && !svc.launches[svc.processes[s]].killed
      && !svc.launches[svc.processes[s]].exited
  }

  /** No orphans: a launch neither killed nor exited is the one registered for its stream. */
  ghost predicate NoOrphans(svc: Service) {
    forall l :: 0 <= l < |svc.launches| && !svc.launches[l].killed && !svc.launches[l].exited ==>
      IsCurrent(svc, l)
  }

  /** A registered stream has an info entry, and one reported busy has a registered
      process; one reported streaming is served by a process that has started. */
  ghost predicate StatusTruthful(svc: Service) {
    && (forall s :: s in svc.processes ==> s in svc.info)
    && (forall s :: s in svc.info && svc.info[s].status in {Processing, Streaming} ==> s in svc.processes)
    && (forall s :: s in svc.info && svc.info[s].status == Streaming ==>
          s in svc.processes && svc.processes[s] < |svc.launches| && svc.launches[svc.processes[s]].started)
  }

  /** A launch's promise resolves only with its playlist URL, and only once started. */
  ghost predicate PromisesHonest(svc: Service) {
    forall l :: 0 <= l < |svc.launches| && svc.launches[l].promise.Resolved? ==>
      svc.launches[l].started && svc.launches[l].promise.url == PlaylistUrl(svc.launches[l].streamId)
  }

  /** The bookkeeping invariant of the service. */
  ghost predicate Valid(svc: Service) {
    RegisteredRunning(svc) && NoOrphans(svc) && StatusTruthful(svc) && PromisesHonest(svc)
  }

  lemma EmptyValid()
    ensures Valid(Empty)
  {
  }

  lemma {:induction false} StopPreservesValid(svc: Service, s: string)
    requires Valid(svc)
    ensures Valid(Stop(svc, s))
  {
    if s in svc.processes {
      var r := Stop(svc, s);
      var p := svc.processes[s];
      forall l | 0 <= l < |r.launches| && !r.launches[l].killed && !r.launches[l].exited
        ensures IsCurrent(r, l)
      {
        assert l != p;
        assert IsCurrent(svc, l);
      }
    }
  }

  /** The corrected spawn keeps the invariant whatever is registered when it runs. */
  lemma {:induction false} SpawnPreservesValid(svc: Service, s: string, quality: string)
    requires Valid(svc)
    ensures Valid(Spawn(svc, s, quality).0)
  {
    StopPreservesValid(svc, s);
    var stopped := Stop(svc, s);
    var r := Spawn(svc, s, quality).0;
    var n := |stopped.launches|;
    forall l | 0 <= l < |r.launches| && !r.launches[l].killed && !r.launches[l].exited
      ensures IsCurrent(r, l)
    {
      if l < n {
        assert IsCurrent(stopped, l);
        assert stopped.launches[l].streamId != s;
      }
    }
  }

  lemma {:induction false} ProcessStreamPreservesValid(svc: Service, s: string, quality: string)
    requires Valid(svc)
    ensures Valid(ProcessStream(svc, s, quality).0)
  {
    if !IsStreaming(svc, s) {
      StopPreservesValid(svc, s);
      SpawnPreservesValid(Stop(svc, s), s, quality);
    }
  }

  /** As written, a second start whose spawn runs while the first one's child is
      registered leaves that child running, unregistered and out of reach of `stopStream`;
      the corrected spawn stops it first. */
  lemma OverlappingSpawnOrphansAsWritten(svc: Service, s: string, quality: string)
    requires Valid(svc) && s in svc.processes
    ensures var r := SpawnAsWritten(svc, s, quality).0;
            var first := svc.processes[s];
            && !r.launches[first].killed && !r.launches[first].exited && !IsCurrent(r, first)
            && !NoOrphans(r)
    ensures Valid(Spawn(svc, s, quality).0)
  {
    SpawnPreservesValid(svc, s, quality);
    var r := SpawnAsWritten(svc, s, quality).0;
    var first := svc.processes[s];
    assert r.launches[first] == svc.launches[first];
    assert !IsCurrent(r, first);
  }

  lemma {:induction false} ProgressPreservesValid(svc: Service, l: nat)
    requires Valid(svc)
    ensures Valid(OnEvent(svc, Progress(l)))
  {
    if l < |svc.launches| && !svc.launches[l].started {
      var x := svc.launches[l];
      var svc1 := WithLaunch(svc, l, x.(started := true));
      StartedValid(svc, l);
      if IsCurrent(svc, l) {
        assert OnEvent(svc, Progress(l)) == SetStatus(svc1, x.streamId, Streaming);
        assert IsCurrent(svc1, l);
        StreamingValid(svc1, l);
      } else {
        assert OnEvent(svc, Progress(l)) == svc1;
      }
    }
  }

  /** Marking a launch started keeps the invariant. */
  lemma StartedValid(svc: Service, l: nat)
    requires Valid(svc) && l < |svc.launches|
    ensures Valid(WithLaunch(svc, l, svc.launches[l].(started := true)))
  {
    var r := WithLaunch(svc, l, svc.launches[l].(started := true));
    forall l' | 0 <= l' < |r.launches| && !r.launches[l'].killed && !r.launches[l'].exited
      ensures IsCurrent(r, l')
    {
      assert IsCurrent(svc, l');
    }
  }

  /** Reporting streaming the stream of a registered launch that has started keeps the
      invariant. */
  lemma StreamingValid(svc: Service, l: nat)
    requires Valid(svc) && IsCurrent(svc, l) && svc.launches[l].started
    ensures Valid(SetStatus(svc, svc.launches[l].streamId, Streaming))
  {
    var r := SetStatus(svc, svc.launches[l].streamId, Streaming);
    forall l' | 0 <= l' < |r.launches| && !r.launches[l'].killed && !r.launches[l'].exited
      ensures IsCurrent(r, l')
    {
      assert IsCurrent(svc, l');
    }
  }

  lemma {:induction false} PlaylistReadyPreservesValid(svc: Service, l: nat)
    requires Valid(svc)
    ensures Valid(OnEvent(svc, PlaylistReady(l)))
  {
    if l < |svc.launches| && svc.launches[l].started {
      var r := OnEvent(svc, PlaylistReady(l));
      forall l' | 0 <= l' < |r.launches| && !r.launches[l'].killed && !r.launches[l'].exited
        ensures IsCurrent(r, l')
      {
        assert IsCurrent(svc, l');
      }
    }
  }

  lemma {:induction false} SpawnErrorPreservesValid(svc: Service, l: nat)
    requires Valid(svc)
    ensures Valid(OnEvent(svc, SpawnError(l)))
  {
    if l < |svc.launches| {
      var r := OnEvent(svc, SpawnError(l));
      assert r.processes == svc.processes;
      assert forall l' :: 0 <= l' < |r.launches| && l' != l ==> r.launches[l'] == svc.launches[l'];
      assert r.launches[l].streamId == svc.launches[l].streamId && r.launches[l].started == svc.launches[l].started;
      assert r.launches[l].killed == svc.launches[l].killed && r.launches[l].exited == svc.launches[l].exited;
      assert r.launches[l].promise.Resolved? ==> r.launches[l].promise == svc.launches[l].promise;
      assert forall s :: s in r.info ==> r.info[s].status == svc.info[s].status || r.info[s].status == Error;
      KeepsValid(svc, r);
    }
  }

  /** A step that keeps the registrations and every launch's stream and flags, settles
      no promise as resolved, and moves no stream into `processing` or `streaming`, keeps
      the invariant. */
  lemma KeepsValid(svc: Service, r: Service)
    requires Valid(svc)
    requires r.processes == svc.processes && |r.launches| == |svc.launches| && r.info.Keys == svc.info.Keys
    requires forall l :: 0 <= l < |r.launches| ==>
               && r.launches[l].streamId == svc.launches[l].streamId
               && r.launches[l].started == svc.launches[l].started
               && r.launches[l].killed == svc.launches[l].killed
               && r.launches[l].exited == svc.launches[l].exited
               && (r.launches[l].promise.Resolved? ==> r.launches[l].promise == svc.launches[l].promise)
    requires forall s :: s in r.info ==> r.info[s].status == svc.info[s].status || r.info[s].status !in {Processing, Streaming}
    ensures Valid(r)
  {
    forall l | 0 <= l < |r.launches| && !r.launches[l].killed && !r.launches[l].exited
      ensures IsCurrent(r, l)
    {
      assert IsCurrent(svc, l);
    }
  }

  lemma {:induction false} ExitPreservesValid(svc: Service, l: nat)
    requires Valid(svc)
    ensures Valid(OnEvent(svc, Exit(l)))
  {
    if l < |svc.launches| && !svc.launches[l].exited {
      var x := svc.launches[l];
      var svc1 := WithLaunch(svc, l, x.(exited := true));
      if IsCurrent(svc, l) {
        assert OnEvent(svc, Exit(l)) == SetStatus(svc1.(processes := svc1.processes - {x.streamId}), x.streamId, Idle);
        ExitCurrentValid(svc, l);
      } else {
        assert OnEvent(svc, Exit(l)) == svc1;
        ExitOtherValid(svc, l);
      }
    }
  }

  /** The registered launch exiting: it is unregistered and its stream reported idle. */
  lemma ExitCurrentValid(svc: Service, l: nat)
    requires Valid(svc) && IsCurrent(svc, l)
    ensures var svc1 := WithLaunch(svc, l, svc.launches[l].(exited := true));
            var s := svc.launches[l].streamId;
            Valid(SetStatus(svc1.(processes := svc1.processes - {s}), s, Idle))
  {
    var s := svc.launches[l].streamId;
    var svc1 := WithLaunch(svc, l, svc.launches[l].(exited := true));
    var r := SetStatus(svc1.(processes := svc1.processes - {s}), s, Idle);
    forall l' | 0 <= l' < |r.launches| && !r.launches[l'].killed && !r.launches[l'].exited
      ensures IsCurrent(r, l')
    {
      assert l' != l;
      assert IsCurrent(svc, l');
    }
  }

  /** A launch that is not registered exiting: only its own flag changes. */
  lemma ExitOtherValid(svc: Service, l: nat)
    requires Valid(svc) && l < |svc.launches| && !IsCurrent(svc, l)
    ensures Valid(WithLaunch(svc, l, svc.launches[l].(exited := true)))
  {
    var r := WithLaunch(svc, l, svc.launches[l].(exited := true));
    forall l' | 0 <= l' < |r.launches| && !r.launches[l'].killed && !r.launches[l'].exited
      ensures IsCurrent(r, l')
    {
      assert IsCurrent(svc, l');
    }
  }

  lemma {:induction false} StartTimeoutPreservesValid(svc: Service, l: nat)
    requires Valid(svc)
    ensures Valid(OnEvent(svc, StartTimeout(l)))
  {
    if l < |svc.launches| && !svc.launches[l].started {
      var s := svc.launches[l].streamId;
      if IsCurrent(svc, l) {
        StopPreservesValid(svc, s);
        var stopped := Stop(svc, s);
        var x' := stopped.launches[l];
        assert OnEvent(svc, StartTimeout(l)) == WithLaunch(stopped, l, x'.(promise := Settle(x'.promise, Rejected(StartTimedOut))));
        RejectKeepsValid(stopped, l, StartTimedOut);
      } else {
        var x := svc.launches[l];
        assert OnEvent(svc, StartTimeout(l)) == WithLaunch(svc, l, x.(promise := Settle(x.promise, Rejected(StartTimedOut))));
        RejectKeepsValid(svc, l, StartTimedOut);
      }
    }
  }

  /** Rejecting a launch's promise keeps the invariant: a settled promise stays as it was. */
  lemma RejectKeepsValid(svc: Service, l: nat, why: Failure)
    requires Valid(svc) && l < |svc.launches|
    ensures var x := svc.launches[l];
            Valid(WithLaunch(svc, l, x.(promise := Settle(x.promise, Rejected(why)))))
  {
    var x := svc.launches[l];
    var r := WithLaunch(svc, l, x.(promise := Settle(x.promise, Rejected(why))));
    assert forall l' :: 0 <= l' < |r.launches| && l' != l ==> r.launches[l'] == svc.launches[l'];
    KeepsValid(svc, r);
  }

  lemma OnEventPreservesValid(svc: Service, e: Event)
    requires Valid(svc)
    ensures Valid(OnEvent(svc, e))
  {
    match e
    case Progress(l) => ProgressPreservesValid(svc, l);
    case PlaylistReady(l) => PlaylistReadyPreservesValid(svc, l);
    case SpawnError(l) => SpawnErrorPreservesValid(svc, l);
    case Exit(l) => ExitPreservesValid(svc, l);
    case StartTimeout(l) => StartTimeoutPreservesValid(svc, l);
  }

  /** The info map once the streams in `done` have been stopped. */
  function IdleAfter(svc: Service, done: set<string>): map<string, StreamInfo> {
    map s | s in svc.info :: if s in done then svc.info[s].(status := Idle) else svc.info[s]
  }

  /** The info map after every registered process has been stopped. */
  function IdleRegistered(svc: Service): map<string, StreamInfo> {
    IdleAfter(svc, svc.processes.Keys)
  }

  /** Part way through `cleanup`: the invariant holds, the streams in `todo` are still
      registered and every other registered stream has been stopped. */
  ghost predicate CleanupPartial(svc: Service, r: Service, todo: set<string>) {
    && Valid(r)
    && r.processes.Keys == todo && todo <= svc.processes.Keys
    && r.info == IdleAfter(svc, svc.processes.Keys - todo)
  }

  /** Stopping one more stream keeps `cleanup` on track. */
  lemma CleanupAdvances(svc: Service, r: Service, todo: set<string>, s: string)
    requires CleanupPartial(svc, r, todo) && s in todo
    ensures CleanupPartial(svc, Stop(r, s), todo - {s})
  {
    StopStep(r, s);
    var done := svc.processes.Keys - todo;
    assert svc.processes.Keys - (todo - {s}) == done + {s};
    assert IdleAfter(svc, done + {s}) == IdleAfter(svc, done)[s := svc.info[s].(status := Idle)];
  }

  /** `cleanup`: stops every registered process. */
  method Cleanup(svc: Service) returns (r: Service)
    requires Valid(svc)
    ensures Valid(r)
    ensures r.processes == map[]
    ensures r.info == IdleRegistered(svc)
    ensures forall l :: 0 <= l < |r.launches| ==> r.launches[l].killed || r.launches[l].exited
  {
    r := svc;
    var todo := svc.processes.Keys;
    assert IdleAfter(svc, {}) == svc.info;
    assert svc.processes.Keys - todo == {};
    while todo != {}
      invariant CleanupPartial(svc, r, todo)
      decreases todo
    {
      var s :| s in todo;
      CleanupAdvances(svc, r, todo, s);
      r := Stop(r, s);
      todo := todo - {s};
    }
    assert r.processes == map[];
  }

  /** One step of `cleanup`: stopping a registered stream keeps the invariant,
      unregisters just that stream and marks just it idle. */
  lemma StopStep(svc: Service, s: string)
    requires Valid(svc) && s in svc.processes
    ensures Valid(Stop(svc, s))
    ensures Stop(svc, s).processes.Keys == svc.processes.Keys - {s}
    ensures s in svc.info && Stop(svc, s).info == svc.info[s := svc.info[s].(status := Idle)]
  {
    StopPreservesValid(svc, s);
  }

  /** `stopStream` is idempotent. */
  lemma StopIdempotent(svc: Service, s: string)
    ensures Stop(Stop(svc, s), s) == Stop(svc, s)
  {
  }

  /** The first progress marker of the registered launch reports streaming; any later
      marker of the same launch changes nothing (`hasStarted`). */
  lemma ProgressOnce(svc: Service, l: nat)
    requires Valid(svc) && IsCurrent(svc, l) && !svc.launches[l].started
    ensures var r := OnEvent(svc, Progress(l));
            && r.info[svc.launches[l].streamId].status == Streaming
            && r.launches[l].started
            && OnEvent(r, Progress(l)) == r
  {
  }

  /** The exit of the registered process unregisters it and reports idle. */
  lemma ExitOfCurrent(svc: Service, l: nat)
    requires Valid(svc) && IsCurrent(svc, l)
    ensures var s := svc.launches[l].streamId;
            var r := OnEvent(svc, Exit(l));
            s !in r.processes && r.info[s].status == Idle
  {
  }

  /** A spawn error of the registered process reports `error` and keeps it registered; it
      rejects the start only when the process has not yet started, and only if the start is
      still pending, so a started stream's outcome is never changed. */
  lemma SpawnErrorOfCurrent(svc: Service, l: nat)
    requires Valid(svc) && IsCurrent(svc, l)
    ensures var s := svc.launches[l].streamId;
            var r := OnEvent(svc, SpawnError(l));
            && r.info[s].status == Error && r.processes == svc.processes
            && (svc.launches[l].started ==> r.launches[l].promise == svc.launches[l].promise)
            && (!svc.launches[l].started && svc.launches[l].promise.Pending? ==>
                  r.launches[l].promise == Rejected(SpawnFailed))
  {
  }

  /** A start timeout of a launch that has not started stops it and rejects its promise
      (if the promise is still pending). */
  lemma TimeoutOfCurrent(svc: Service, l: nat)
    requires Valid(svc) && IsCurrent(svc, l) && !svc.launches[l].started
    ensures var s := svc.launches[l].streamId;
            var r := OnEvent(svc, StartTimeout(l));
            && s !in r.processes && r.info[s].status == Idle && r.launches[l].killed
            && (svc.launches[l].promise.Pending? ==> r.launches[l].promise == Rejected(StartTimedOut))
  {
  }

  /** A replacement launched after a stop, for the counterexamples below. */
  function RestartTrace(): (svc: Service)
  {
    var s1 := ProcessStream(Empty, "x", "1080p").0;
    var s2 := Stop(s1, "x");
    ProcessStream(s2, "x", "1080p").0
  }

  lemma RestartTraceFacts()
    ensures RestartTrace().processes == map["x" := 1]
    ensures |RestartTrace().launches| == 2
    ensures RestartTrace().launches[0].killed && !RestartTrace().launches[0].exited
    ensures !RestartTrace().launches[1].killed && !RestartTrace().launches[1].exited
    ensures Valid(RestartTrace())
  {
    EmptyValid();
    ProcessStreamPreservesValid(Empty, "x", "1080p");
    StopPreservesValid(ProcessStream(Empty, "x", "1080p").0, "x");
    ProcessStreamPreservesValid(Stop(ProcessStream(Empty, "x", "1080p").0, "x"), "x", "1080p");
  }

  /** As written: the late exit of a process that was already stopped unregisters its
      replacement, which is left running with no handle, so `stopStream` can no longer
      reach it. The corrected handler keeps the replacement registered. */
  lemma StaleExitOrphansReplacementAsWritten()
    ensures var r := OnEventAsWritten(RestartTrace(), Exit(0));
            && "x" !in r.processes
            && !r.launches[1].killed && !r.launches[1].exited
            && !NoOrphans(r)
            && Stop(r, "x") == r
    ensures var r := OnEvent(RestartTrace(), Exit(0));
            r.processes == map["x" := 1] && Valid(r)
  {
    RestartTraceFacts();
    OnEventPreservesValid(RestartTrace(), Exit(0));
    var r := OnEventAsWritten(RestartTrace(), Exit(0));
    assert !IsCurrent(r, 1);
  }

  /** As written: the start timer of a stopped launch that never started kills the
      replacement that has just been spawned for the same stream. The corrected handler
      only rejects the stale launch's promise. */
  lemma StaleTimeoutKillsReplacementAsWritten()
    ensures var r := OnEventAsWritten(RestartTrace(), StartTimeout(0));
            "x" !in r.processes && r.launches[1].killed
    ensures var r := OnEvent(RestartTrace(), StartTimeout(0));
            r.processes == map["x" := 1] && !r.launches[1].killed
            && r.launches[0].promise == Rejected(StartTimedOut)
  {
    RestartTraceFacts();
  }

  /** As written: stderr output that arrives after the child has exited reports the stream
      streaming although no process is registered, and it stays so, since no process is
      left to exit or be stopped. The corrected handler leaves it idle. */
  lemma LateProgressAfterExitAsWritten()
    ensures var s1 := ProcessStream(Empty, "x", "1080p").0;
            var r := OnEventAsWritten(OnEventAsWritten(s1, Exit(0)), Progress(0));
            && "x" !in r.processes && r.info["x"].status == Streaming && !StatusTruthful(r)
            && Stop(r, "x") == r
  {
  }

  /** The corrected handlers on the same trace: the late marker is ignored and the stream
      stays idle. */
  lemma LateProgressAfterExit()
    ensures var s1 := ProcessStream(Empty, "x", "1080p").0;
            var r := OnEvent(OnEvent(s1, Exit(0)), Progress(0));
            "x" !in r.processes && r.info["x"].status == Idle && Valid(r)
  {
    var s1 := ProcessStream(Empty, "x", "1080p").0;
    var s2 := OnEvent(s1, Exit(0));
    assert "x" !in s2.processes && s2.info["x"].status == Idle;
    assert Valid(OnEvent(s2, Progress(0))) by {
      EmptyValid();
      ProcessStreamPreservesValid(Empty, "x", "1080p");
      OnEventPreservesValid(s1, Exit(0));
      OnEventPreservesValid(s2, Progress(0));
    }
  }
}
