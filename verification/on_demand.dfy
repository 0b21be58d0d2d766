/**
 The on-demand lifecycle of server/routes.ts seen from the transcoder and the
 catalog: what `ensureStreamRunning`, the stop timer's callback,
 `broadcastViewerUpdate` and the transcoder's own events do to them. Together
 with `Presence` (which decides when these run) this is the whole path from a
 viewer joining to a transcoder starting, and from the last viewer leaving to
 the transcoder stopping.

 `ensureStreamRunning` is not atomic. After its guard it awaits
 `storage.getStream`, and inside `processStream` it awaits `fs.rm` and
 `fs.mkdir` before the child is spawned and registered. Each call in flight is
 kept in `starts` with the await it is parked at; the events `StreamFetched`
 and `DirectoryReady` resume it, and any other event may come in between.

 Every status report of the transcoder runs the `streamInfoUpdated` listener of
 server/index.ts; the listener's catalog write is applied in the same step as
 the report. A rejected start is swallowed, as in the source.

 As written, the guard only looks at the transcoder's status, which is set
 when the child is registered, so a second call made while the first is
 parked at an await passes it too, and the second registration replaces the
 first child without stopping it (`DoubleLaunchAsWritten`). The corrected
 guard also skips a stream whose start is already in flight, and is the one
 `Next` uses.
 */
module OnDemand {
  import opened Common
  import opened Storage
  import Transcoder
  import opened StatusSync
  import Presence
  import PresenceProps

  /** Where a begun `ensureStreamRunning` call is parked. */
  datatype Stage =
    /** At `await storage.getStream`. */
    | AwaitingCatalog
    /** Inside `processStream`, at the `fs.rm`/`fs.mkdir` awaits, with the child's input
        and quality. */
    | AwaitingFiles(source: string, quality: string)

  datatype PendingStart = PendingStart(streamId: string, stage: Stage)

  /** The transcoder service, the catalog, and the `ensureStreamRunning` calls in flight,
      numbered in the order they began. */
  datatype Sys = Sys(svc: Transcoder.Service, cat: Catalog, starts: map<nat, PendingStart>, nextStart: nat)

  /** Whether the transcoder reports the stream starting or streaming. */
  predicate Busy(svc: Transcoder.Service, s: string) {
    s in svc.info && svc.info[s].status in {Transcoder.Streaming, Transcoder.Processing}
  }

  /** Whether an `ensureStreamRunning` call for `s` is in flight. */
  predicate Starting(sys: Sys, s: string) {
    exists k :: k in sys.starts && sys.starts[k].streamId == s
  }

  /** `stopStream` with its status report mirrored into the catalog: a registered process
      is stopped and reported idle, which the listener writes as `live`. */
  function StopWithSync(sys: Sys, s: string): (r: Sys)
    requires Storage.Valid(sys.cat)
    ensures Storage.Valid(r.cat)
    ensures r.svc == Transcoder.Stop(sys.svc, s) && r.starts == sys.starts && r.nextStart == sys.nextStart
    ensures r.cat.streams.Keys == sys.cat.streams.Keys
    ensures s in sys.svc.processes && s in sys.svc.info && s in sys.cat.streams ==>
              r.cat.streams[s].status == Live && r.cat.streams[s].processedUrl == None
    ensures !(s in sys.svc.processes && s in sys.svc.info) ==> r.cat == sys.cat
  {
    var cat := if s in sys.svc.processes && s in sys.svc.info then OnInfoUpdated(sys.cat, s, Transcoder.Idle) else sys.cat;
    sys.(svc := Transcoder.Stop(sys.svc, s), cat := cat)
  }

  // ---------------------------------------------------------------------------
  // ensureStreamRunning
  // ---------------------------------------------------------------------------

  /** A call for `s` begins and parks at `await storage.getStream`. */
  function Begin(sys: Sys, s: string): (r: Sys)
    ensures r.svc == sys.svc && r.cat == sys.cat && r.nextStart == sys.nextStart + 1
    ensures r.starts == sys.starts[sys.nextStart := PendingStart(s, AwaitingCatalog)]
  {
    sys.(starts := sys.starts[sys.nextStart := PendingStart(s, AwaitingCatalog)], nextStart := sys.nextStart + 1)
  }

  /** `ensureStreamRunning` as written, up to its first await: it begins exactly when the
      transcoder does not report the stream starting or streaming, whatever calls for the
      stream are already in flight. Returns whether it began. */
  function EnsureStreamRunningAsWritten(sys: Sys, s: string): (r: (Sys, bool))
    ensures r.1 <==> !Busy(sys.svc, s)
    ensures !r.1 ==> r.0 == sys
    ensures r.1 ==> r.0 == Begin(sys, s)
  {
    if Busy(sys.svc, s) then (sys, false) else (Begin(sys, s), true)
  }

  /** The corrected guard: a call begins exactly when the transcoder does not report the
      stream starting or streaming and no call for it is in flight. Afterwards the stream
      is busy or starting either way. */
  function EnsureStreamRunning(sys: Sys, s: string): (r: (Sys, bool))
    ensures r.1 <==> !Busy(sys.svc, s) && !Starting(sys, s)
    ensures !r.1 ==> r.0 == sys
    ensures r.1 ==> r.0 == Begin(sys, s)
    ensures Busy(r.0.svc, s) || Starting(r.0, s)
  {
    if Busy(sys.svc, s) || Starting(sys, s) then (sys, false)
    else
      var r := Begin(sys, s);
      assert r.starts[sys.nextStart].streamId == s;
      (r, true)
  }

  /** A second call right after one that began begins nothing. */
  lemma EnsureStreamRunningOnce(sys: Sys, s: string)
    requires EnsureStreamRunning(sys, s).1
    ensures !EnsureStreamRunning(EnsureStreamRunning(sys, s).0, s).1
  {
  }

  /** The write `ensureStreamRunning` makes once the start promise settles: a resolved
      start marks the entry `processing` with the returned URL; a rejection changes
      nothing. */
  function OnStartSettled(sys: Sys, s: string, p: Transcoder.Settlement): (r: Sys)
    requires Storage.Valid(sys.cat)
    ensures Storage.Valid(r.cat) && r.svc == sys.svc && r.starts == sys.starts && r.nextStart == sys.nextStart
    ensures r.cat.streams.Keys == sys.cat.streams.Keys
    ensures !p.Resolved? || s !in sys.cat.streams ==> r == sys
    ensures p.Resolved? && s in sys.cat.streams ==>
              r.cat.streams[s] == sys.cat.streams[s].(status := Processing, processedUrl := Some(p.url))
  {
    match p
    case Resolved(url) =>
      sys.(cat := UpdateStream(sys.cat, s, EmptyPatch.(status := Some(Processing), processedUrl := Some(Some(url)))).0)
    case _ => sys
  }

  /** Call `k` resumed after `await storage.getStream`. An unknown stream ends it. A
      stream the transcoder now reports streaming resolves at once, and the entry is
      written `processing` with the playlist URL. Otherwise `processStream` stops the
      registered process (whose idle report the listener mirrors) and parks at the
      file-system awaits with the entry's resolved source and quality. */
  function CatalogFetched(sys: Sys, k: nat): (r: Sys)
    requires Storage.Valid(sys.cat)
    requires k in sys.starts && sys.starts[k].stage == AwaitingCatalog
    ensures Storage.Valid(r.cat) && r.cat.streams.Keys == sys.cat.streams.Keys && r.nextStart == sys.nextStart
    ensures var s := sys.starts[k].streamId;
            && (s !in sys.cat.streams ==> r == sys.(starts := sys.starts - {k}))
            && (s in sys.cat.streams && Transcoder.IsStreaming(sys.svc, s) ==>
                  && r.svc == sys.svc && r.starts == sys.starts - {k}
                  && r.cat.streams[s].status == Processing
                  && r.cat.streams[s].processedUrl == Some(Transcoder.PlaylistUrl(s)))
            && (s in sys.cat.streams && !Transcoder.IsStreaming(sys.svc, s) ==>
                  && r.svc == Transcoder.Stop(sys.svc, s) && s !in r.svc.processes
                  && r.starts == sys.starts[k := PendingStart(s, AwaitingFiles(SecureSourceUrl(sys.cat.streams[s].sourceUrl),
                                                                               sys.cat.streams[s].quality))])
  {
    var s := sys.starts[k].streamId;
    match GetStream(sys.cat, s)
    case None => sys.(starts := sys.starts - {k})
    case Some(entry) =>
      match Transcoder.BeginStart(sys.svc, s).1
      case Some(url) => OnStartSettled(sys.(starts := sys.starts - {k}), s, Transcoder.Resolved(url))
      case None =>
        StopWithSync(sys, s).(starts := sys.starts[k := PendingStart(s, AwaitingFiles(SecureSourceUrl(entry.sourceUrl), entry.quality))])
  }

  /** Call `k` resumed after the file-system awaits, as written: the child is spawned and
      `processes.set` replaces whatever is registered for the stream. The call then waits
      on the child's promise, which `OnTranscoderEvent` settles. */
  function FilesReadyAsWritten(sys: Sys, k: nat): (r: Sys)
    requires k in sys.starts && sys.starts[k].stage.AwaitingFiles?
    ensures r.svc == Transcoder.SpawnAsWritten(sys.svc, sys.starts[k].streamId, sys.starts[k].stage.quality).0
    ensures r.starts == sys.starts - {k} && r.cat == sys.cat && r.nextStart == sys.nextStart
  {
    var p := sys.starts[k];
    sys.(svc := Transcoder.SpawnAsWritten(sys.svc, p.streamId, p.stage.quality).0, starts := sys.starts - {k})
  }

  /** Call `k` resumed after the file-system awaits, with the corrected spawn. */
  function FilesReady(sys: Sys, k: nat): (r: Sys)
    requires k in sys.starts && sys.starts[k].stage.AwaitingFiles?
    ensures r.svc == Transcoder.Spawn(sys.svc, sys.starts[k].streamId, sys.starts[k].stage.quality).0
    ensures r.starts == sys.starts - {k} && r.cat == sys.cat && r.nextStart == sys.nextStart
  {
    var p := sys.starts[k];
    sys.(svc := Transcoder.Spawn(sys.svc, p.streamId, p.stage.quality).0, starts := sys.starts - {k})
  }

  // ---------------------------------------------------------------------------
  // Transcoder events
  // ---------------------------------------------------------------------------

  /** Whether event `e` resolves a promise that was pending. */
  predicate ResolvesNow(svc: Transcoder.Service, e: Transcoder.Event) {
    e.launch < |svc.launches| && svc.launches[e.launch].promise.Pending?
    && Transcoder.OnEvent(svc, e).launches[e.launch].promise.Resolved?
  }

  /** A child event handled by the corrected handlers. The listener writes the handler's
      status report into the catalog; when the event resolves the start's promise,
      `ensureStreamRunning` writes `processing` and the playlist URL. */
  function OnTranscoderEvent(sys: Sys, e: Transcoder.Event): (r: Sys)
    requires Storage.Valid(sys.cat)
    ensures Storage.Valid(r.cat) && r.cat.streams.Keys == sys.cat.streams.Keys
    ensures r.svc == Transcoder.OnEvent(sys.svc, e) && r.starts == sys.starts && r.nextStart == sys.nextStart
    ensures Transcoder.Report(sys.svc, e).Some? && Transcoder.Report(sys.svc, e).value.0 in sys.cat.streams ==>
              && r.cat.streams[Transcoder.Report(sys.svc, e).value.0].status == MapStatus(Transcoder.Report(sys.svc, e).value.1)
              && r.cat.streams[Transcoder.Report(sys.svc, e).value.0].processedUrl
                 == ProcessedUrlFor(Transcoder.Report(sys.svc, e).value.0, Transcoder.Report(sys.svc, e).value.1)
    ensures Transcoder.Report(sys.svc, e).None? && !ResolvesNow(sys.svc, e) ==> r.cat == sys.cat
    ensures ResolvesNow(sys.svc, e) && sys.svc.launches[e.launch].streamId in sys.cat.streams ==>
              && r.cat.streams[sys.svc.launches[e.launch].streamId].status == Processing
              && r.cat.streams[sys.svc.launches[e.launch].streamId].processedUrl
                 == Some(Transcoder.PlaylistUrl(sys.svc.launches[e.launch].streamId))
  {
    var reported := Reported(sys, e);
    if ResolvesNow(sys.svc, e) then
      ResolvesOnPlaylist(sys.svc, e);
      OnStartSettled(reported, sys.svc.launches[e.launch].streamId, reported.svc.launches[e.launch].promise)
    else reported
  }

  /** The listener's half of a child event: the handler runs and its status report, if
      any, is written into the catalog. */
  function Reported(sys: Sys, e: Transcoder.Event): (r: Sys)
    requires Storage.Valid(sys.cat)
    ensures Storage.Valid(r.cat) && r.cat.streams.Keys == sys.cat.streams.Keys
    ensures r.svc == Transcoder.OnEvent(sys.svc, e) && r.starts == sys.starts && r.nextStart == sys.nextStart
    ensures Transcoder.Report(sys.svc, e).Some? && Transcoder.Report(sys.svc, e).value.0 in sys.cat.streams ==>
              && r.cat.streams[Transcoder.Report(sys.svc, e).value.0].status == MapStatus(Transcoder.Report(sys.svc, e).value.1)
              && r.cat.streams[Transcoder.Report(sys.svc, e).value.0].processedUrl
                 == ProcessedUrlFor(Transcoder.Report(sys.svc, e).value.0, Transcoder.Report(sys.svc, e).value.1)
    ensures Transcoder.Report(sys.svc, e).None? ==> r.cat == sys.cat
  {
    var cat := match Transcoder.Report(sys.svc, e)
      case Some(rep) => OnInfoUpdated(sys.cat, rep.0, rep.1)
      case None => sys.cat;
    sys.(svc := Transcoder.OnEvent(sys.svc, e), cat := cat)
  }

  /** Only a playlist event resolves a start's promise, with the stream's playlist URL,
      and it reports no status. */
  lemma ResolvesOnPlaylist(svc: Transcoder.Service, e: Transcoder.Event)
    requires ResolvesNow(svc, e)
    ensures e.PlaylistReady? && Transcoder.Report(svc, e).None?
    ensures Transcoder.OnEvent(svc, e).launches[e.launch].promise == Transcoder.Resolved(Transcoder.PlaylistUrl(svc.launches[e.launch].streamId))
  {
  }

  // ---------------------------------------------------------------------------
  // The stop timer and the viewer broadcast
  // ---------------------------------------------------------------------------

  /** The fields the stop timer writes. */
  const IdlePatch := EmptyPatch.(status := Some(Idle), processedUrl := Some(None))

  /** The stop timer's callback once it finds the stream idle: `stopStream` (whose status
      report the listener writes), then `{ status: "idle", processedUrl: null }`. */
  function TimerStop(sys: Sys, s: string): (r: Sys)
    requires Storage.Valid(sys.cat)
    ensures Storage.Valid(r.cat)
    ensures r.svc == Transcoder.Stop(sys.svc, s) && r.starts == sys.starts && r.nextStart == sys.nextStart
  {
    var stopped := StopWithSync(sys, s);
    stopped.(cat := UpdateStream(stopped.cat, s, IdlePatch).0)
  }

  /** After the stop timer's callback the transcoder runs nothing for the stream and its
      entry reads `idle` with no processed URL; the listener's intermediate `live` write
      leaves no trace, and no other entry changes. */
  lemma TimerStopLeavesIdle(sys: Sys, s: string)
    requires Storage.Valid(sys.cat)
    ensures var r := TimerStop(sys, s);
            && s !in r.svc.processes
            && r.cat.streams.Keys == sys.cat.streams.Keys && r.cat.order == sys.cat.order
            && (s in sys.cat.streams ==> r.cat.streams[s] == sys.cat.streams[s].(status := Idle, processedUrl := None))
            && (forall k :: k in sys.cat.streams && k != s ==> r.cat.streams[k] == sys.cat.streams[k])
  {
  }

  /** `broadcastViewerUpdate`'s catalog write: the viewer count, and the visit count merged
      into the entry's metadata (an empty object when it has none). */
  function RecordViewers(cat: Catalog, s: string, count: nat, visits: nat): (r: Catalog)
    requires Storage.Valid(cat)
    ensures Storage.Valid(r)
    ensures r.streams.Keys == cat.streams.Keys && r.order == cat.order && r.chats == cat.chats
    ensures forall k :: k in cat.streams && k != s ==> r.streams[k] == cat.streams[k]
  {
    var prev := if s in cat.streams && cat.streams[s].metadata.Some? then cat.streams[s].metadata.value
                else Metadata(None, None, None, None);
    UpdateStream(cat, s, EmptyPatch.(viewers := Some(Some(count)), metadata := Some(Some(prev.(totalVisits := Some(visits)))))).0
  }

  /** The snapshot row of a broadcast stream shows the broadcast's counts; the entry's
      status and other metadata are untouched. */
  lemma SnapshotShowsBroadcast(cat: Catalog, info: Option<Transcoder.StreamInfo>, s: string, count: nat, visits: nat)
    requires Storage.Valid(cat) && s in cat.streams
    ensures var e := RecordViewers(cat, s, count, visits).streams[s];
            && RowOf(info, e).viewers == count && RowOf(info, e).visits == visits
            && RowOf(info, e).chan == RowOf(info, cat.streams[s]).chan
            && e.status == cat.streams[s].status && e.processedUrl == cat.streams[s].processedUrl
            && (cat.streams[s].metadata.Some? ==>
                  && e.metadata.value.channel == cat.streams[s].metadata.value.channel
                  && e.metadata.value.region == cat.streams[s].metadata.value.region
                  && e.metadata.value.language == cat.streams[s].metadata.value.language)
  {
  }

  // ---------------------------------------------------------------------------
  // The system's events
  // ---------------------------------------------------------------------------

  /** What one effect of the presence handler does. Sends to sockets touch nothing here. */
  function Perform(sys: Sys, e: Presence.Effect): (r: Sys)
    requires Storage.Valid(sys.cat)
    ensures Storage.Valid(r.cat) && r.cat.streams.Keys == sys.cat.streams.Keys
    ensures r.nextStart >= sys.nextStart
  {
    match e
    case Send(_, _) => sys
    case Broadcast(s, count, visits, _) => sys.(cat := RecordViewers(sys.cat, s, count, visits))
    case EnsureRunning(s) => EnsureStreamRunning(sys, s).0
    case StopTranscoder(s) => TimerStop(sys, s)
  }

  /** Performs a list of effects in order. */
  function PerformAll(sys: Sys, effects: seq<Presence.Effect>): (r: Sys)
    requires Storage.Valid(sys.cat)
    ensures Storage.Valid(r.cat) && r.cat.streams.Keys == sys.cat.streams.Keys
    decreases |effects|
  {
    if |effects| == 0 then sys else PerformAll(Perform(sys, effects[0]), effects[1..])
  }

  datatype Event =
    /** An effect of the presence handler. */
    | Effect(effect: Presence.Effect)
    /** `await storage.getStream` of call `call` completes. */
    | StreamFetched(call: nat)
    /** The file-system awaits of call `call` complete. */
    | DirectoryReady(call: nat)
    /** An event of a transcoder child or its start timer. */
    | Child(e: Transcoder.Event)

  /** A resumption can happen only to a call parked at that await. */
  predicate Enabled(sys: Sys, ev: Event) {
    match ev
    case StreamFetched(k) => k in sys.starts && sys.starts[k].stage == AwaitingCatalog
    case DirectoryReady(k) => k in sys.starts && sys.starts[k].stage.AwaitingFiles?
    case _ => true
  }

  /** One event of the system, with the corrected guard, spawn and handlers. An event that
      cannot happen now changes nothing. */
  function Next(sys: Sys, ev: Event): (r: Sys)
    requires Storage.Valid(sys.cat)
    ensures Storage.Valid(r.cat) && r.cat.streams.Keys == sys.cat.streams.Keys
  {
    if !Enabled(sys, ev) then sys
    else match ev
      case Effect(e) => Perform(sys, e)
      case StreamFetched(k) => CatalogFetched(sys, k)
      case DirectoryReady(k) => FilesReady(sys, k)
      case Child(e) => OnTranscoderEvent(sys, e)
  }

  function Run(sys: Sys, events: seq<Event>): (r: Sys)
    requires Storage.Valid(sys.cat)
    ensures Storage.Valid(r.cat) && r.cat.streams.Keys == sys.cat.streams.Keys
    decreases |events|
  {
    if |events| == 0 then sys else Run(Next(sys, events[0]), events[1..])
  }

  // ---------------------------------------------------------------------------
  // The invariant
  // ---------------------------------------------------------------------------

  /** Every call in flight was numbered before `nextStart`. */
  ghost predicate StartsNumbered(sys: Sys) {
    forall k :: k in sys.starts ==> k < sys.nextStart
  }

  /** At most one call per stream is in flight. */
  ghost predicate OneStartPerStream(sys: Sys) {
    forall a, b :: a in sys.starts && b in sys.starts && a != b ==> sys.starts[a].streamId != sys.starts[b].streamId
  }

  /** A call about to spawn finds no process registered for its stream. */
  ghost predicate PreparedUnregistered(sys: Sys) {
    forall k :: k in sys.starts && sys.starts[k].stage.AwaitingFiles? ==> sys.starts[k].streamId !in sys.svc.processes
  }

  /** The invariant of the corrected system: the transcoder's bookkeeping invariant, a
      valid catalog, and at most one transcoder registered or on its way per stream. */
  ghost predicate Inv(sys: Sys) {
    && Transcoder.Valid(sys.svc) && Storage.Valid(sys.cat)
    && StartsNumbered(sys) && OneStartPerStream(sys) && PreparedUnregistered(sys)
  }

  lemma InitInv(cat: Catalog)
    requires Storage.Valid(cat)
    ensures Inv(Sys(Transcoder.Empty, cat, map[], 0))
  {
    Transcoder.EmptyValid();
  }

  lemma {:induction false} EnsureRunningPreservesInv(sys: Sys, s: string)
    requires Inv(sys)
    ensures Inv(EnsureStreamRunning(sys, s).0)
  {
    if EnsureStreamRunning(sys, s).1 {
      var r := Begin(sys, s);
      forall a, b | a in r.starts && b in r.starts && a != b
        ensures r.starts[a].streamId != r.starts[b].streamId
      {
        if a == sys.nextStart {
          assert b in sys.starts;
        } else if b == sys.nextStart {
          assert a in sys.starts;
        }
      }
    }
  }

  lemma {:induction false} PerformPreservesInv(sys: Sys, e: Presence.Effect)
    requires Inv(sys)
    ensures Inv(Perform(sys, e))
  {
    match e
    case EnsureRunning(s) => EnsureRunningPreservesInv(sys, s);
    case StopTranscoder(s) => Transcoder.StopPreservesValid(sys.svc, s);
    case _ =>
  }

  lemma {:induction false} CatalogFetchedPreservesInv(sys: Sys, k: nat)
    requires Inv(sys) && k in sys.starts && sys.starts[k].stage == AwaitingCatalog
    ensures Inv(CatalogFetched(sys, k))
  {
    var s := sys.starts[k].streamId;
    if s in sys.cat.streams && !Transcoder.IsStreaming(sys.svc, s) {
      Transcoder.StopPreservesValid(sys.svc, s);
      var r := CatalogFetched(sys, k);
      forall j | j in r.starts && r.starts[j].stage.AwaitingFiles?
        ensures r.starts[j].streamId !in r.svc.processes
      {
        if j != k {
          assert sys.starts[j].streamId != s;
        }
      }
    }
  }

  lemma {:induction false} FilesReadyPreservesInv(sys: Sys, k: nat)
    requires Inv(sys) && k in sys.starts && sys.starts[k].stage.AwaitingFiles?
    ensures Inv(FilesReady(sys, k))
  {
    var s := sys.starts[k].streamId;
    Transcoder.SpawnPreservesValid(sys.svc, s, sys.starts[k].stage.quality);
    var r := FilesReady(sys, k);
    forall j | j in r.starts && r.starts[j].stage.AwaitingFiles?
      ensures r.starts[j].streamId !in r.svc.processes
    {
      assert sys.starts[j].streamId != s;
    }
  }

  lemma {:induction false} ChildPreservesInv(sys: Sys, e: Transcoder.Event)
    requires Inv(sys)
    ensures Inv(OnTranscoderEvent(sys, e))
  {
    Transcoder.OnEventPreservesValid(sys.svc, e);
  }

  /** Every event keeps the invariant. */
  lemma {:induction false} NextPreservesInv(sys: Sys, ev: Event)
    requires Inv(sys)
    ensures Inv(Next(sys, ev))
  {
    if Enabled(sys, ev) {
      match ev
      case Effect(e) => PerformPreservesInv(sys, e);
      case StreamFetched(k) => CatalogFetchedPreservesInv(sys, k);
      case DirectoryReady(k) => FilesReadyPreservesInv(sys, k);
      case Child(e) => ChildPreservesInv(sys, e);
    }
  }

  /** Every interleaving of presence events, resumed starts and child events keeps the
      composed invariant, so `Transcoder.NoOrphans` holds after any run. This is the
      system's own fold over `Run`; the presence and client modules each have theirs. */
  lemma {:induction false} RunPreservesInv(sys: Sys, events: seq<Event>)
    requires Inv(sys)
    ensures Inv(Run(sys, events))
    decreases |events|
  {
    if |events| > 0 {
      NextPreservesInv(sys, events[0]);
      RunPreservesInv(Next(sys, events[0]), events[1..]);
    }
  }

  /** Under the corrected guard the spawn as written is already safe: a call about to
      spawn finds nothing registered, so the as-written and corrected spawns coincide and
      no child is orphaned. */
  lemma GuardMakesSpawnSafe(sys: Sys, k: nat)
    requires Inv(sys) && k in sys.starts && sys.starts[k].stage.AwaitingFiles?
    ensures FilesReadyAsWritten(sys, k) == FilesReady(sys, k)
    ensures Transcoder.NoOrphans(FilesReadyAsWritten(sys, k).svc)
  {
    FilesReadyPreservesInv(sys, k);
  }

  /** A call for a catalogued stream the transcoder is not streaming, resumed at both
      awaits, leaves a new child registered for the stream with status `processing`, and
      no other call for the stream in flight. */
  lemma StartCompletes(sys: Sys, k: nat)
    requires Inv(sys) && k in sys.starts && sys.starts[k].stage == AwaitingCatalog
    requires sys.starts[k].streamId in sys.cat.streams && !Transcoder.IsStreaming(sys.svc, sys.starts[k].streamId)
    ensures var s := sys.starts[k].streamId;
            var r := Next(Next(sys, StreamFetched(k)), DirectoryReady(k));
            && Inv(r)
            && s in r.svc.processes && r.svc.processes[s] == |sys.svc.launches|
            && r.svc.info[s].status == Transcoder.Processing && Busy(r.svc, s)
            && !Starting(r, s)
  {
    var s := sys.starts[k].streamId;
    NextPreservesInv(sys, StreamFetched(k));
    var mid := Next(sys, StreamFetched(k));
    assert Enabled(mid, DirectoryReady(k));
    NextPreservesInv(mid, DirectoryReady(k));
  }

  // ---------------------------------------------------------------------------
  // Effects of the presence handler
  // ---------------------------------------------------------------------------

  /** A transcoder is registered for `s`, or a call to start one is in flight. */
  predicate Active(sys: Sys, s: string) {
    s in sys.svc.processes || Starting(sys, s)
  }

  /** An effect other than stopping `s` keeps `s` active. */
  lemma PerformKeepsActive(sys: Sys, e: Presence.Effect, s: string)
    requires Inv(sys) && Active(sys, s) && e != Presence.StopTranscoder(s)
    ensures Active(Perform(sys, e), s)
  {
    if Starting(sys, s) {
      var k :| k in sys.starts && sys.starts[k].streamId == s;
      assert k in Perform(sys, e).starts;
    }
  }

  lemma {:induction false} PerformAllPreservesInv(sys: Sys, effects: seq<Presence.Effect>)
    requires Inv(sys)
    ensures Inv(PerformAll(sys, effects))
    decreases |effects|
  {
    if |effects| > 0 {
      PerformPreservesInv(sys, effects[0]);
      PerformAllPreservesInv(Perform(sys, effects[0]), effects[1..]);
    }
  }

  lemma {:induction false} PerformAllKeepsActive(sys: Sys, effects: seq<Presence.Effect>, s: string)
    requires Inv(sys) && Active(sys, s)
    requires Presence.StopTranscoder(s) !in effects
    ensures Inv(PerformAll(sys, effects)) && Active(PerformAll(sys, effects), s)
    decreases |effects|
  {
    if |effects| > 0 {
      PerformPreservesInv(sys, effects[0]);
      assert effects[0] != Presence.StopTranscoder(s);
      PerformKeepsActive(sys, effects[0], s);
      PerformAllKeepsActive(Perform(sys, effects[0]), effects[1..], s);
    }
  }

  /** Carrying out a list of effects that asks for `s` to run and never to stop leaves `s`
      active. */
  lemma {:induction false} PerformAllStarts(sys: Sys, effects: seq<Presence.Effect>, s: string)
    requires Inv(sys)
    requires Presence.EnsureRunning(s) in effects && Presence.StopTranscoder(s) !in effects
    ensures Active(PerformAll(sys, effects), s)
    decreases |effects|
  {
    PerformPreservesInv(sys, effects[0]);
    var next := Perform(sys, effects[0]);
    assert effects[0] != Presence.StopTranscoder(s);
    if effects[0] == Presence.EnsureRunning(s) {
      assert Busy(next.svc, s) || Starting(next, s);
      PerformAllKeepsActive(next, effects[1..], s);
    } else {
      PerformAllStarts(next, effects[1..], s);
    }
  }

  /** A viewer joining a stream nobody else watches leaves a transcoder registered for it,
      or a call starting one in flight, once the join's effects are carried out. */
  lemma JoinStartsTranscoder(st: Presence.State, c: Presence.ConnId, s: string, u: string, sys: Sys)
    requires Presence.Inv(st) && c in st.conns && Presence.Members(st, s) <= {c}
    requires Inv(sys)
    ensures Active(PerformAll(sys, Presence.Join(st, c, s, u).effects), s)
  {
    PresenceProps.JoinStartsIffAlone(st, c, s, u);
    PresenceProps.JoinNeverStops(st, c, s, u);
    var effs := Presence.Join(st, c, s, u).effects;
    PerformAllStarts(sys, effs, s);
  }

  /** A stop timer that is still armed when it fires stops the transcoder and leaves the
      catalog entry idle with no processed URL. */
  lemma FireStopsTranscoder(st: Presence.State, t: Presence.TimerId, s: string, sys: Sys)
    requires Presence.Inv(st) && t in Presence.ArmedFor(st, s)
    requires Storage.Valid(sys.cat)
    ensures var r := PerformAll(sys, Presence.FireTimer(st, t).effects);
            && s !in r.svc.processes
            && (s in sys.cat.streams ==> r.cat.streams[s].status == Idle && r.cat.streams[s].processedUrl == None)
  {
    assert Presence.FireTimer(st, t).effects == [Presence.StopTranscoder(s)];
    TimerStopLeavesIdle(sys, s);
  }

  // ---------------------------------------------------------------------------
  // Two overlapping starts, as written
  // ---------------------------------------------------------------------------

  /** A catalog holding one stream `x`. */
  function TraceCatalog(): Catalog { Catalog(["x"], map["x" := Stream("x", "X", "src", None, "720p", None, Live, None, None)], map[]) }

  /** Two `ensureStreamRunning` calls for `x` (a viewer joins, leaves and joins again
      before the first call spawned), both resumed at their awaits, as written. */
  function DoubleStartTrace(): (r: Sys)
  {
    var d := BothFetched();
    FilesReadyAsWritten(FilesReadyAsWritten(d, 0), 1)
  }

  /** As written, both calls pass the guard and spawn: the first child runs on,
      unregistered, and no stop can reach it. The corrected guard refuses the second
      call. */
  lemma DoubleLaunchAsWritten()
    ensures var r := DoubleStartTrace();
            && |r.svc.launches| == 2 && r.svc.processes == map["x" := 1]
            && !r.svc.launches[0].killed && !r.svc.launches[0].exited
            && !Transcoder.NoOrphans(r.svc)
    ensures var sys0 := Sys(Transcoder.Empty, TraceCatalog(), map[], 0);
            var a := EnsureStreamRunning(sys0, "x");
            a.1 && !EnsureStreamRunning(a.0, "x").1
  {
    var d := BothFetched();
    var e := FilesReadyAsWritten(d, 0);
    assert e.svc.processes == map["x" := 0];
    assert e.svc.launches == [Transcoder.Launch("x", false, Transcoder.Pending, false, false)];
    var r := FilesReadyAsWritten(e, 1);
    assert r == DoubleStartTrace();
    assert r.svc.launches[0] == e.svc.launches[0];
    assert !Transcoder.IsCurrent(r.svc, 0);
    SecondCallRefused();
  }

  /** The trace of `DoubleStartTrace` once both calls have fetched the catalog: nothing
      spawned yet, and both wait for their files with the entry's source and quality. */
  function BothFetched(): (r: Sys)
    ensures r.svc == Transcoder.Empty
    ensures r.starts == map[0 := PendingStart("x", AwaitingFiles("src", "720p")), 1 := PendingStart("x", AwaitingFiles("src", "720p"))]
  {
    var sys0 := Sys(Transcoder.Empty, TraceCatalog(), map[], 0);
    var a := EnsureStreamRunningAsWritten(sys0, "x").0;
    var b := EnsureStreamRunningAsWritten(a, "x").0;
    assert b.starts == map[0 := PendingStart("x", AwaitingCatalog), 1 := PendingStart("x", AwaitingCatalog)];
    var c := CatalogFetched(b, 0);
    assert c.svc == Transcoder.Empty;
    CatalogFetched(c, 1)
  }

  /** Under the corrected guard, a second call while the first is pending is refused. */
  lemma SecondCallRefused()
    ensures var sys0 := Sys(Transcoder.Empty, TraceCatalog(), map[], 0);
            var a := EnsureStreamRunning(sys0, "x");
            a.1 && !EnsureStreamRunning(a.0, "x").1
  {
    var sys0 := Sys(Transcoder.Empty, TraceCatalog(), map[], 0);
    var a' := EnsureStreamRunning(sys0, "x").0;
    assert a'.starts[0].streamId == "x";
  }
}
