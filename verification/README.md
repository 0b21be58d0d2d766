# BarrileteWeb streaming core in Dafny

This project models the stateful core of a small live-streaming server and the
browser hook that reports its viewer counts. It also proves properties of the
model.

- **Presence** (`server/routes.ts`). The WebSocket handler keeps, for every
  stream, the set of sockets watching it and a cumulative visit count. When a
  stream gains its first viewer, the handler starts the stream's transcoder on
  demand. When a stream loses its last viewer, the handler arms a 15-second
  stop timer.
- **Transcoder** (`server/services/ffmpeg.ts`). The transcoder service tracks
  the child process registered for each stream and the stream's last reported
  status (idle, processing, streaming, error).
- **Status sync and snapshot** (`server/index.ts`). The server's listener
  copies transcoder statuses into the stream catalog. A periodic console
  snapshot de-duplicates streams by title and is printed only when its hash
  changes.
- **Catalog** (`server/storage.ts`). The catalog stores streams, chat lists
  and like counters. Internal source ids are resolved to secure URLs.
- **Chat posting** (`server/routes.ts`). `POST /api/chat` decides a message's
  role (user or admin) before storing it.
- **Security** (`server/services/security.ts`). This covers the rate limiter,
  the rotating key cache, the key and session sweeps, the IP allow-list,
  token extraction and the path-gating middleware.
- **Viewer client** (`client/src/hooks/useViewerCount.ts`). The browser hook
  joins a stream over a socket, filters count messages, and reconnects with a
  capped linear back-off.

Every operation is a pure function over immutable datatypes. Time is an
integer parameter. Timers, child processes and sockets are explicit ids. Their
callbacks are events. Effects the handlers trigger (sends, transcoder starts
and stops, catalog writes) are returned as values and applied by `OnDemand`.

`ensureStreamRunning` is not atomic: it awaits `storage.getStream`, and
`processStream` then awaits `fs.rm` and `fs.mkdir` before it registers the
child. `OnDemand` keeps each call in flight with the await it is parked at, and
resuming it is an event of its own, so any other event can come in between.
Where the source misbehaves, the model keeps both halves: a member named
`...AsWritten` for the code as it stands, and a corrected member that the rest
of the model uses.

| module | file | models |
|---|---|---|
| `Common` | common.dfy | optional values, `startsWith`, `includes`, `split(sep)[0]`, `String(n)`, ASCII lower-casing |
| `Storage` | storage.dfy | `getSecureSourceUrl`, `MemStorage`, the likes store |
| `Transcoder` | transcoder.dfy | `FFmpegService`, as written and corrected |
| `Presence`, `PresenceProps` | presence.dfy, presence_props.dfy | the WebSocket presence handler and its invariant |
| `OnDemand` | on_demand.dfy | `ensureStreamRunning` with its awaits as separate steps, the stop timer's callback, `broadcastViewerUpdate`'s catalog write, and child events with the listener's writes |
| `StatusSync` | status_sync.dfy | the `streamInfoUpdated` listener and the console snapshot |
| `ChatPost` | chat_post.dfy | `POST /api/chat` |
| `Security` | security.dfy | `SecurityService` |
| `ViewerClient` | viewer_client.dfy | `useViewerCount`, as written and corrected |

## Model

| member | source | states |
|---|---|---|
| Common.NatToStringRoundTrip | server/index.ts:109-110 | `String(n)` of a non-negative integer reads back as `n` (the hash's length prefix loses nothing) |
| Common.NatToStringInjective | server/index.ts:109-110 | different lengths give different `String(n)` prefixes |
| Common.BeforeFirstConcat | server/index.ts:109-112 | the text before the first separator of `a`, the separator, then `b` is `a` when `a` holds no separator (how the hash's length prefix is read back) |
| Storage.SecureSourceUrl | server/storage.ts:11-27 | a known internal id maps to its secure URL; any other argument comes back unchanged |
| Storage.SecureSourceUrlIdempotent | server/storage.ts:25-27 | resolving an already resolved source changes nothing |
| Storage.MergeLaws | server/storage.ts:209 | the object spread `{...current, ...updates}`: an empty patch is the identity, a patch applied twice equals it applied once, and two patches compose into one |
| Storage.GetStream | server/storage.ts:177-179 | present exactly for catalogued ids, with the stored entry |
| Storage.Put | server/storage.ts:198 | `Map.set` keeps the catalog valid; a new key goes to the end of insertion order and an existing key keeps its place |
| Storage.Without | server/storage.ts:215 | `Map.delete` removes exactly that key from insertion order and keeps the order free of duplicates |
| Storage.CreateStream | server/storage.ts:186-201 | uses the given id or the fresh one, with no `processedUrl`, status `offline` when omitted, other fields copied, and an empty chat list only when none exists |
| Storage.UpdateStream | server/storage.ts:203-212 | an unknown id returns nothing and changes nothing; otherwise the merged entry replaces the old one and is returned |
| Storage.DeleteStream | server/storage.ts:214-218 | returns whether the stream existed, removes it, and removes its chat list exactly when it existed |
| Storage.VisibleIn | server/storage.ts:182-183 | every entry returned is catalogued and has a visible id; every catalogued entry listed in `order` with a visible id is returned |
| Storage.VisibleInIndexed | server/storage.ts:183 | the filter keeps `order`'s order: its `j`-th entry sits at the `j`-th shown position, the positions strictly increase, and a position is listed exactly when its entry is shown |
| Storage.GetAllStreams | server/storage.ts:181-184 | a stream is returned iff it is catalogued and its id is `espn-premium-hd` or `tnt-sports-hd` |
| Storage.GetAllStreamsInOrder | server/storage.ts:181-184 | each shown entry comes once and in insertion order: strictly increasing positions of `order`, distinct keys, and every shown key at its position |
| Storage.GetChatMessages | server/storage.ts:220-222 | a stream's chat list, empty when it has none |
| Storage.CreateChatMessage | server/storage.ts:224-236 | the message (role `user` when omitted) is appended to the end of its stream's list; other lists and the streams are unchanged |
| Storage.DefaultStreams | server/storage.ts:68-169 | the eight defaults in their order, each `live` at `1080p` with no processed URL or viewers |
| Storage.InternalIdsSecure | server/storage.ts:11-26 | every default's internal id is a key of the secure-source table, and `getSecureSourceUrl` maps it to a different URL |
| Storage.DefaultSourcesResolve | server/storage.ts:69-85 | every default source is either the non-empty value of an environment variable or an internal id that the secure-source table resolves to a different URL |
| Storage.DefaultSourcesWithoutEnv | server/storage.ts:69-85 | with no variable set, every default source is an internal id that `getSecureSourceUrl` replaces with a URL from the table |
| Storage.RegisterOne | server/storage.ts:171-174 | one turn of the loop: `streams.set` stores the entry (a new key goes last in order), and a chat list is added only when the id has none |
| Storage.Register | server/storage.ts:171-174 | the loop keeps the catalog valid, gives every default an entry and a chat list, and loses no key |
| Storage.RegisterKeys | server/storage.ts:171-174 | afterwards the keys are exactly the old ones and the defaults' ids |
| Storage.RegisterStoresLast | server/storage.ts:171-172 | the last default with an id is the entry stored under it |
| Storage.RegisterKeepsOthers | server/storage.ts:171-172 | an entry whose key no default uses is kept |
| Storage.RegisterLastWins | server/storage.ts:171-172 | for each id the last default with it wins, and other entries are kept |
| Storage.RegisterKeepsChats | server/storage.ts:173 | an existing chat list keeps its messages |
| Storage.RegisterNewChats | server/storage.ts:173 | a default whose id had no chat list gets an empty one |
| Storage.RegisterKeepsOrder | server/storage.ts:171-174 | the old insertion order is a prefix of the new one |
| Storage.RegisterDistinctStores | server/storage.ts:171-172 | defaults with distinct ids are each stored under their own id |
| Storage.RegisterFreshOrder | server/storage.ts:171-174 | defaults with distinct new ids go after the old keys, in their own order |
| Storage.InitialCatalog | server/storage.ts:68-175 | given the defaults the constructor builds (their ids are the eight default ids, as `DefaultStreams` states), the catalog is valid; its order is the eight default ids, each stored with its default entry, and exactly those ids have a chat list, which is empty |
| Storage.GetLikeCount | server/storage.ts:243-245 | 0 for a stream never liked, never negative |
| Storage.ApplyLike | server/storage.ts:247-251 | stores and returns the previous count plus one |
| Storage.ApplyUnlike | server/storage.ts:253-257 | stores and returns the previous count minus one, floored at 0 |
| Storage.UnlikeUndoesLike | server/storage.ts:247-257 | an unlike right after a like restores the count |
| Transcoder.PlaylistUrl | server/services/ffmpeg.ts:25 | the URL is `/api/streams/`, the id, then the playlist suffix |
| Transcoder.PlaylistUrlInjective | server/services/ffmpeg.ts:40 | different streams get different playlist URLs |
| Transcoder.GetStreamInfo | server/services/ffmpeg.ts:163-165 | present exactly for streams with info |
| Transcoder.SetStatus | server/services/ffmpeg.ts:167-173 | `updateStreamInfo` changes only an existing entry's status; an unknown stream stays absent |
| Transcoder.Stop | server/services/ffmpeg.ts:152-161 | with a registered process, it is unregistered and the status becomes idle; with none, nothing changes |
| Transcoder.StopIdempotent | server/services/ffmpeg.ts:152-161 | stopping twice equals stopping once |
| Transcoder.BeginStart | server/services/ffmpeg.ts:23-30 | before the first await: a streaming stream resolves at once with its playlist URL and is not touched; otherwise the registered process is stopped and none stays registered |
| Transcoder.SpawnAsWritten | server/services/ffmpeg.ts:78-86 | as written: the new launch is registered under the stream, replacing any registration without stopping it, with status `processing` and the call's quality |
| Transcoder.Spawn | server/services/ffmpeg.ts:78-86 | corrected: a process registered during the awaits is stopped first; with nothing registered it is the spawn as written |
| Transcoder.SpawnPreservesValid | server/services/ffmpeg.ts:30-86 | the corrected spawn keeps the invariant |
| Transcoder.OverlappingSpawnOrphansAsWritten | server/services/ffmpeg.ts:30-79 | as written, a spawn while another launch of the stream is registered leaves that launch running and unregistered, so a child is orphaned; the corrected spawn keeps the invariant |
| Transcoder.ProcessStream | server/services/ffmpeg.ts:23-86 | when nothing else runs during its awaits: a streaming stream resolves at once with its playlist URL and nothing changes; otherwise the old process is stopped and a new launch is registered with status `processing` |
| Transcoder.SettleOnce | server/services/ffmpeg.ts:107-148 | once a promise has settled, later `resolve`/`reject` calls change nothing, and a pending promise keeps its first settlement |
| Transcoder.OnEventAsWritten | server/services/ffmpeg.ts:88-148 | as written: no handler adds a launch, registers a process or creates a status entry |
| Transcoder.OnEvent | server/services/ffmpeg.ts:88-148 | corrected: no handler adds a launch, registers a process or creates a status entry, and an event of a launch that is not registered leaves registrations and statuses alone |
| Transcoder.Report | server/services/ffmpeg.ts:98-148 | a handler reports a status to the listener only for the registered launch's stream when it has info, and the report is exactly the status change it makes; without a report no status changes |
| Transcoder.ProcessStreamPreservesValid | server/services/ffmpeg.ts:17-150 | a start keeps the invariant: every registered process is a running launch of that stream, no running launch is unregistered, statuses match registrations, and a promise resolves only for a started launch |
| Transcoder.StopPreservesValid | server/services/ffmpeg.ts:152-161 | a stop keeps the invariant |
| Transcoder.OnEventPreservesValid | server/services/ffmpeg.ts:88-148 | every process event keeps the invariant (corrected handlers) |
| Transcoder.ProgressOnce | server/services/ffmpeg.ts:98-104 | the first progress marker of the registered launch sets `streaming` and `hasStarted`; a second marker changes nothing |
| Transcoder.ExitOfCurrent | server/services/ffmpeg.ts:135-140 | the exit of the registered process unregisters it and sets the status to idle |
| Transcoder.SpawnErrorOfCurrent | server/services/ffmpeg.ts:128-132 | a spawn error of the registered process sets the status to error and keeps it registered; it rejects a pending start with the spawn failure only when the process has not started, and leaves a started process's outcome alone |
| Transcoder.TimeoutOfCurrent | server/services/ffmpeg.ts:142-148 | an unstarted registered launch is stopped at the timeout and its pending promise rejected |
| Transcoder.Cleanup | server/services/ffmpeg.ts:175-178 | stops every registered process: none stays registered, each registered stream becomes idle, every launch is killed or exited |
| Transcoder.RestartTraceFacts | server/services/ffmpeg.ts:30-79 | a start, a stop and a restart of one stream leave the replacement registered and the first launch killed but not yet exited |
| Transcoder.StaleExitOrphansReplacementAsWritten | server/services/ffmpeg.ts:135-140 | as written, the late exit of the stopped process unregisters the running replacement, which no stop can reach; the corrected handler keeps it registered |
| Transcoder.StaleTimeoutKillsReplacementAsWritten | server/services/ffmpeg.ts:142-148 | as written, the stopped launch's start timer kills the replacement; the corrected handler only rejects the stale promise |
| Transcoder.LateProgressAfterExitAsWritten | server/services/ffmpeg.ts:98-104 | as written, stderr output that arrives after the child exited reports the stream `streaming` with no process registered, and no stop can clear it |
| Transcoder.LateProgressAfterExit | server/services/ffmpeg.ts:98-104 | on the same trace the corrected handler ignores the late output: the stream stays idle, unregistered, and the invariant holds |
| Presence.ViewerInfo | server/routes.ts:211-217 | the viewers endpoint reports the set size (0 if absent) and the visits (0 if absent) |
| Presence.ScheduleStop | server/routes.ts:242-259 | arms a fresh timer for the stream and replaces the stored one; membership and visits are untouched |
| Presence.CancelStop | server/routes.ts:331-333 | removes the stream's stored timer; membership and visits are untouched |
| Presence.Detach | server/routes.ts:303-369 | the socket leaves exactly its stream's set; other streams and visits are unchanged; the new count is broadcast |
| Presence.Attach | server/routes.ts:310-333 | the socket joins exactly the new stream's set and its counted set gains the stream; the visit count rises by one exactly when the stream was not yet counted |
| Presence.Join | server/routes.ts:299-345 | the socket's `current` becomes the new stream with its counted streams carried over; it is in the new set and out of its old one; no socket opens or closes and no visit count drops |
| Presence.LeaveCurrent | server/routes.ts:303-308 | a socket in a stream leaves that stream's set and no other, with connections and visits kept and only broadcasts emitted; a socket in no stream changes nothing |
| Presence.Enter | server/routes.ts:310-344 | the socket's entry names the new stream; it joins that set and no other set changes; no visit count drops and the timer counter is unchanged |
| Presence.Leave | server/routes.ts:346-354 | `current` becomes null and visits are kept; a joined socket leaves its stream's set, which alone changes, and the new count is broadcast; an unjoined socket changes nothing |
| Presence.Close | server/routes.ts:364-371 | the socket is dropped and visits are kept; a joined socket leaves its stream's set, which alone changes, and the new count is broadcast; an unjoined one broadcasts nothing |
| Presence.FireTimer | server/routes.ts:246-257 | the timer is no longer armed and nothing else changes; it stops a transcoder exactly when it was armed and its stream's set is empty, and then only that stream's |
| Presence.OnMessage | server/routes.ts:295-361 | no socket opens or closes and no visit count drops; a heartbeat or an unreadable payload only replies to the sender; an unknown type or a join without stream and user id does nothing |
| Presence.Next | server/routes.ts:292-371 | no event lowers a visit count; a connection adds a socket with no stream; a close removes it; events of sockets that are gone change nothing |
| PresenceProps.ScheduleStopFacts | server/routes.ts:242-259 | after scheduling, the only armed timer of the stream is the fresh one |
| PresenceProps.CancelStopFacts | server/routes.ts:331-333 | after cancelling, the stream has no armed timer |
| PresenceProps.AtMostOneArmedTimer | server/routes.ts:242-259 | at most one stop timer per stream is armed |
| PresenceProps.DetachFacts | server/routes.ts:303-308 | removing a socket broadcasts the smaller count and arms a stop iff the set became empty |
| PresenceProps.InitInv | server/routes.ts:209-220 | the empty state satisfies the presence invariant |
| PresenceProps.NextPreservesInv | server/routes.ts:292-371 | every message, close and timer firing keeps the invariant: sets and `current` agree, a socket is in at most one set, its counted set holds its stream, and timers are armed only for empty streams |
| PresenceProps.RunPreservesInv | server/routes.ts:292-371 | every sequence of events keeps the invariant |
| PresenceProps.JoinPreservesInv | server/routes.ts:299-345 | a join keeps the invariant |
| PresenceProps.LeavePreservesInv | server/routes.ts:346-354 | a leave keeps the invariant |
| PresenceProps.ClosePreservesInv | server/routes.ts:364-371 | a close keeps the invariant |
| PresenceProps.FirePreservesInv | server/routes.ts:246-257 | a timer firing keeps the invariant |
| PresenceProps.CountIsJoinedSockets | server/routes.ts:303-323 | a stream's reported count is the number of sockets whose `current` is that stream |
| PresenceProps.OneStreamPerSocket | server/routes.ts:293-323 | a socket is in at most one stream's set |
| PresenceProps.JoinMoves | server/routes.ts:303-322 | a join removes the socket from every other stream and adds it to the new one |
| PresenceProps.JoinCountsVisit | server/routes.ts:316-328 | a join adds one visit exactly when the stream was not in the carried-over counted set |
| PresenceProps.VisitsMonotone | server/routes.ts:325-328 | no event lowers a visit count |
| PresenceProps.RejoinNotCounted | server/routes.ts:316-325 | rejoining the current stream adds no visit |
| PresenceProps.SwitchBackCountsOnce | server/routes.ts:316-328 | switching A to B and back to A counts one visit for each |
| PresenceProps.LeaveThenRejoinCounts | server/routes.ts:316-352 | a leave discards the counted set, so rejoining counts again |
| PresenceProps.JoinLeftMembers | server/routes.ts:303-308 | once a joining socket has left its old stream, the new stream's set is the old one without the socket, and the invariant holds with the socket in no set |
| PresenceProps.EnterEffects | server/routes.ts:331-344 | the second half of a join emits the leave's effects, then a start exactly when the stream's set was empty, then the reply and the broadcast with the new counts; none is a stop |
| PresenceProps.JoinNeverStops | server/routes.ts:299-345 | no effect of a join stops a transcoder |
| PresenceProps.JoinReplies | server/routes.ts:337-343 | a join ends by replying `joined_stream` to the socket and broadcasting to the stream, both with the count and visits after the join |
| PresenceProps.JoinStarts | server/routes.ts:319-335 | a join asks for the transcoder iff nobody else is watching the stream |
| PresenceProps.JoinStartsIffAlone | server/routes.ts:321-335 | a join asks for the transcoder iff the stream had no other viewer, and leaves no stop timer armed for it |
| PresenceProps.LeaveArmsStopIffLast | server/routes.ts:347-352 | a leave arms a stop iff the socket was the stream's last viewer |
| PresenceProps.CloseArmsStopIffLast | server/routes.ts:364-371 | a close arms a stop iff the socket was the stream's last viewer |
| PresenceProps.FireStopsIffArmed | server/routes.ts:246-257 | a timer firing stops a stream's transcoder iff the timer was armed for that stream |
| PresenceProps.NoSecondStop | server/routes.ts:246-257 | once a stop has fired, no further firing stops the stream again |
| PresenceProps.GraceAbsorbsRejoin | server/routes.ts:246-333 | a viewer arriving within the grace period prevents the stop |
| PresenceProps.InertMessages | server/routes.ts:296-361 | a join without stream or user id, a heartbeat and an unparseable message change no state and only reply to the sender |
| OnDemand.StopWithSync | server/services/ffmpeg.ts:152-161 | a stop with its status report copied into the catalog: a registered process's entry reads `live` with no URL; with none the catalog is unchanged |
| OnDemand.EnsureStreamRunningAsWritten | server/routes.ts:223-227 | as written: a call begins, parked at `getStream`, iff the transcoder does not report the stream processing or streaming, whatever calls are already in flight; otherwise nothing changes |
| OnDemand.EnsureStreamRunning | server/routes.ts:223-227 | corrected: a call begins iff the transcoder does not report the stream processing or streaming and no call for it is in flight; afterwards the stream is busy or starting |
| OnDemand.EnsureStreamRunningOnce | server/routes.ts:223-227 | corrected: a second call right after one that began begins nothing |
| OnDemand.CatalogFetched | server/routes.ts:227-235 | after `getStream`: an unknown stream ends the call; a stream now streaming resolves at once and its entry is written `processing` with the playlist URL; otherwise the registered process is stopped and the call parks at the file-system awaits with the resolved secure source and the entry's quality |
| OnDemand.FilesReadyAsWritten | server/services/ffmpeg.ts:34-86 | as written: after the awaits the call spawns with the spawn as written and leaves the set of calls in flight |
| OnDemand.FilesReady | server/services/ffmpeg.ts:34-86 | corrected: the same with the corrected spawn |
| OnDemand.OnStartSettled | server/routes.ts:236-239 | a resolved start writes `processing` and the URL into the entry; a rejected start is swallowed and changes nothing |
| OnDemand.OnTranscoderEvent | server/index.ts:51-74 | a child event goes through the corrected handlers; the listener writes the reported status, mapped, and its URL into the entry; a resolved start then writes `processing` and the playlist URL; with neither, the catalog is unchanged |
| OnDemand.TimerStop | server/routes.ts:251-253 | the stop timer's callback stops the transcoder |
| OnDemand.TimerStopLeavesIdle | server/routes.ts:251-253 | after the stop timer, the process is gone and the entry reads `idle` with no `processedUrl`; other entries are unchanged |
| OnDemand.RecordViewers | server/routes.ts:267-274 | the broadcast's catalog write touches only that stream's entry |
| OnDemand.SnapshotShowsBroadcast | server/routes.ts:271-274 | after the broadcast write, the snapshot row shows the broadcast count and visits; status, URL and other metadata are kept |
| OnDemand.InitInv | server/routes.ts:220-240 | with no transcoder running and no call in flight, the invariant holds |
| OnDemand.EnsureRunningPreservesInv | server/routes.ts:223-227 | the corrected guard keeps the invariant |
| OnDemand.CatalogFetchedPreservesInv | server/routes.ts:227-235 | resuming a call after `getStream` keeps the invariant |
| OnDemand.FilesReadyPreservesInv | server/services/ffmpeg.ts:34-86 | resuming a call after the file-system awaits keeps the invariant |
| OnDemand.ChildPreservesInv | server/services/ffmpeg.ts:88-148 | a child event with the listener's writes keeps the invariant |
| OnDemand.PerformPreservesInv | server/routes.ts:223-290 | every handler effect keeps the invariant: the transcoder invariant, a valid catalog, at most one call per stream in flight, and none about to spawn over a registered process |
| OnDemand.PerformAllPreservesInv | server/routes.ts:223-290 | a list of effects keeps the invariant |
| OnDemand.NextPreservesInv | server/routes.ts:223-290 | every event keeps the invariant, whatever the interleaving of effects, resumed awaits and child events, so no child is ever orphaned |
| OnDemand.RunPreservesInv | server/routes.ts:223-290 | every sequence of events keeps the invariant |
| OnDemand.GuardMakesSpawnSafe | server/routes.ts:223-240 | under the corrected guard a call about to spawn finds nothing registered, so the spawn as written and the corrected one coincide and orphan nothing |
| OnDemand.StartCompletes | server/routes.ts:223-236 | a call for a catalogued stream that is not streaming, resumed at both awaits, leaves a new child registered with status `processing` and no call in flight |
| OnDemand.PerformKeepsActive | server/routes.ts:223-290 | an effect other than stopping the stream keeps it registered or starting |
| OnDemand.PerformAllKeepsActive | server/routes.ts:223-290 | a list of effects with no stop for the stream keeps it registered or starting |
| OnDemand.PerformAllStarts | server/routes.ts:331-335 | effects that ask for a stream's transcoder and never stop it leave it registered or starting |
| OnDemand.JoinStartsTranscoder | server/routes.ts:331-335 | the first viewer of a stream leaves its transcoder registered or starting |
| OnDemand.FireStopsTranscoder | server/routes.ts:246-257 | an armed timer's firing leaves the stream with no process and the catalog entry idle |
| OnDemand.DoubleLaunchAsWritten | server/routes.ts:223-240 | as written, two overlapping calls for an idle stream both spawn: the second child is registered and the first runs on with no handle; the corrected guard refuses the second call |
| StatusSync.MapStatus | server/index.ts:53-60 | the written status can be read back, so no two transcoder statuses are written alike, and it is `streaming` or `processing` iff the transcoder's is |
| StatusSync.MapStatusRoundTrip | server/index.ts:53-60 | the status mapping is injective and `streaming`/`processing` map to the two "on" statuses exactly |
| StatusSync.ProcessedUrlFor | server/index.ts:62-65 | a URL is written iff the status is `streaming`, and it is the playlist URL |
| StatusSync.OnInfoUpdated | server/index.ts:51-74 | only that entry's status and URL change; an unknown stream changes nothing |
| StatusSync.OnInfoUpdatedLastWins | server/index.ts:51-74 | of two reports for a stream, the last one decides the entry |
| StatusSync.FirstPerTitleTitles | server/index.ts:85-86 | the de-duplicated list has distinct titles and the same set of titles |
| StatusSync.FirstIsKept | server/index.ts:85-86 | the first stream of each title is kept |
| StatusSync.KeptIsFirst | server/index.ts:85-86 | every kept stream is the first of its title |
| StatusSync.DedupByTitle | server/index.ts:85-86 | the loop computes exactly the first stream per title, in order |
| StatusSync.RowOf | server/index.ts:91-102 | `chan` is ON iff the catalog status is `streaming` or `processing`; `ffmpeg` is ON iff the transcoder reports `streaming`, a missing report reading as idle; viewers and visits default to 0 |
| StatusSync.Rows | server/index.ts:91-103 | one row per unique stream, in order, with those column rules applied to the transcoder's info for its id |
| StatusSync.ColumnsAgreeAfterSync | server/index.ts:92-99 | after the listener has run, `chan` is ON iff the transcoder is processing or streaming, `ffmpeg` is ON iff it is streaming, and `ffmpeg` ON implies `chan` ON |
| StatusSync.Hash | server/index.ts:109-112 | the hash starts with the pretty-printed length and a colon |
| StatusSync.HashSeparatesLengths | server/index.ts:109-112 | snapshots of different lengths hash differently |
| StatusSync.Publish | server/index.ts:113-117 | prints iff the hash differs from the last one, and then remembers it |
| StatusSync.PublishOnce | server/index.ts:113-117 | an unchanged snapshot prints at most once, and never if it was the last printed |
| ChatPost.ExpectedKey | server/routes.ts:96 | `VITE_ADMIN_KEY` when it is non-empty, else `ADMIN_KEY` |
| ChatPost.IsOwner | server/routes.ts:93 | owner iff the username is a string lower-casing to the owner's name; a non-string username throws |
| ChatPost.DecideRoleAsWritten | server/routes.ts:89-101 | as written: throws iff the user name is not a string; admin iff the owner, or `admin` requested with a token strictly equal to the expected key, which an absent token is when no key is configured; user iff neither owner nor `admin` requested |
| ChatPost.DecideRole | server/routes.ts:89-101 | corrected: throws and decides `user` in the same cases; whenever it does not refuse, it decides as written |
| ChatPost.DecideRoleAdminIff | server/routes.ts:90-101 | corrected: admin iff the owner, or `admin` was requested with a configured non-empty key that the token equals; refused iff admin was requested otherwise |
| ChatPost.DecideRoleAgreesWhenConfigured | server/routes.ts:95-101 | with a key configured, the corrected decision equals the source's |
| ChatPost.AdminWithoutKeyAsWritten | server/routes.ts:95-100 | as written, with no key configured, a request for `admin` without a token is stored as an admin message; the corrected route answers 403 |
| ChatPost.ParseMessage | server/routes.ts:103-106 | parsing succeeds iff stream id, username and message are non-empty strings, and then carries the decided role |
| ChatPost.Post | server/routes.ts:97-112 | given the decision: 403 iff refused; 201 iff decided and the body parses, appending the message with that role to its stream's list alone; otherwise 400; only a 201 changes the catalog |
| ChatPost.PostChatAsWritten | server/routes.ts:87-113 | as written: 403 iff the source's decision refuses; a 201 carries the role it decided; every other outcome leaves the catalog unchanged |
| ChatPost.PostChat | server/routes.ts:87-113 | corrected: 403 iff the corrected decision refuses; a 201 appends the message with the decided role; every other outcome leaves the catalog unchanged; any answer but 403 is the source's answer |
| Security.CeilDiv1000 | server/services/security.ts:102 | `Math.ceil(x / 1000)` |
| Security.NextWindow | server/services/security.ts:90-97 | a missing or elapsed window restarts at count 1; otherwise the count increments |
| Security.CheckRateLimit | server/services/security.ts:85-107 | stores the new window; allowed iff its count is within the limit; when denied, `retryAfter` is the ceiling of the seconds left |
| Security.RetryAfterBounded | server/services/security.ts:88-103 | windows never end more than a minute ahead, so `retryAfter` lies in [0, 60] |
| Security.AllowedWithinWindow | server/services/security.ts:92-101 | within one window, exactly the requests up to the limit are allowed |
| Security.AtMostMaxPerWindow | server/services/security.ts:85-107 | a fresh window admits at most the limit |
| Security.GetRotatingKey | server/services/security.ts:161-174 | an unexpired key is returned unchanged; otherwise the new key is stored with a five-minute expiry |
| Security.KeyStableForTtl | server/services/security.ts:161-174 | a new key is returned for the TTL and replaced after it |
| Security.SweepKeys | server/services/security.ts:278-287 | keeps exactly the keys not yet expired, unchanged |
| Security.SweepKeysCompose | server/services/security.ts:278-287 | two sweeps equal one at the later time |
| Security.SweepUnobservable | server/services/security.ts:161-287 | sweeping never changes which key a later request gets |
| Security.CleanupSessions | server/services/security.ts:289-298 | keeps exactly the sessions idle for at most an hour, unchanged |
| Security.CleanupSessionsCompose | server/services/security.ts:289-298 | two cleanups equal one at the later time |
| Security.ClientIp | server/services/security.ts:267-272 | the first `X-Forwarded-For` entry when non-empty, else a non-empty `X-Real-IP`, else a non-empty socket address, else `unknown`; never empty |
| Security.ClientId | server/services/security.ts:274-276 | the client's IP, a dash, then the user agent, or `unknown` when it is missing or empty |
| Security.ValidateIp | server/services/security.ts:152-159 | every client passes when the list is absent or empty; otherwise iff its IP is listed |
| Security.ExtractToken | server/services/security.ts:259-265 | the text after `Bearer ` when that prefix is present, else the query token if non-empty, else nothing |
| Security.ExtractTokenBearerRoundTrip | server/services/security.ts:259-263 | a `Bearer` header built from a token yields that token |
| Security.AnyReferrerMatchesIff | server/services/security.ts:122-124 | a referrer matches iff some allowed entry occurs in it |
| Security.ValidateReferrer | server/services/security.ts:109-131 | without a referrer: a browser or an empty allow-list passes; with one: it passes iff it matches an allowed entry |
| Security.ValidateUserAgent | server/services/security.ts:133-150 | passes iff not blocked and, when patterns are configured, allowed |
| Security.ValidateSessionToken | server/services/security.ts:57-83 | valid only with a non-empty token that verifies, a matching fingerprint and a known session, whose last access is then updated; an invalid token changes nothing |
| Security.ValidateSessionTokenAccepts | server/services/security.ts:64-79 | the converse: a non-empty token that verifies with the request's fingerprint for a known session is valid, and only that session's last access changes |
| Security.EmptyBearerRefused | server/services/security.ts:59-62 | an empty bearer token is refused with "No token provided" before verification, whatever the verifier would say |
| Security.Middleware | server/services/security.ts:176-180 | paths without `/key`, `/hls/` or `/auth/` pass through untouched |
| Security.KeyRequiresSession | server/services/security.ts:198-243 | a `/key` request whose path does not contain `/auth/session` reaches `next()` only through the rate limit, IP and agent checks and with a valid session token; a path containing `/auth/session` is the exception |
| Security.AuthSessionRateLimitedOnly | server/services/security.ts:186-196 | a gated `/auth/session` request, even one whose path also names `/key`, gets through iff the rate limit allows it, with no session, and never touches the sessions |
| Security.GatedRequestCounted | server/services/security.ts:186-205 | every gated request except a playlist is counted by the rate limiter, and only a `/key` request that passes touches sessions |
| Security.PlaylistPassesThrough | server/services/security.ts:182-184 | a playlist path without `/key` passes untouched |
| ViewerClient.ReconnectDelayBounds | client/src/hooks/useViewerCount.ts:112 | the back-off lies in [3000, 10000] ms, does not decrease with `retry`, and is capped from the third retry |
| ViewerClient.Connect | client/src/hooks/useViewerCount.ts:57-62 | a no-op while the current socket is not CLOSED; otherwise a new socket for the effect's stream becomes current |
| ViewerClient.RunEffect | client/src/hooks/useViewerCount.ts:33-125 | the effect clears `manualClose` and keeps every existing socket; with no live current socket a new connecting socket for the stream becomes current and nothing is sent; on an open one the socket is kept and the stream joined; on a connecting or closing one only the flags change |
| ViewerClient.RunEffectOnOpenSocket | client/src/hooks/useViewerCount.ts:40-50 | on an open socket, `leave_stream` precedes the join iff the hook had joined a different stream |
| ViewerClient.OnOpen | client/src/hooks/useViewerCount.ts:64-81 | on open: connected, retries reset to 0, `join_stream` for the socket's stream sent and remembered |
| ViewerClient.OnMessage | client/src/hooks/useViewerCount.ts:83-99 | a message changes nothing but the count; an unparseable one changes nothing |
| ViewerClient.OnMessageFilter | client/src/hooks/useViewerCount.ts:83-99 | the count changes only for a `joined_stream` or `viewer_count_update` of the socket's stream with a numeric count, and then to that count; unparseable frames are ignored |
| ViewerClient.ResetAfterClose | client/src/hooks/useViewerCount.ts:101-116 | on close the refs are reset; an unplanned close schedules a reconnect after the back-off and increments `retry`, a planned one does neither |
| ViewerClient.CleanupCommon | client/src/hooks/useViewerCount.ts:127-155 | cleanup sends `leave_stream` iff the socket is open and joined, then resets the refs, the loading flag and the count |
| ViewerClient.NextAsWritten | client/src/hooks/useViewerCount.ts:33-156 | as written: an event that cannot be delivered changes nothing; an unmounted hook stays unmounted; a render of a mounted hook shows its stream; other events keep the phase; a message changes only the count |
| ViewerClient.AsWrittenCloseAndOpen | client/src/hooks/useViewerCount.ts:67-129 | no reconnect is scheduled once the close was planned; opening resets `retry` |
| ViewerClient.StaleCloseRejoinsOldStreamAsWritten | client/src/hooks/useViewerCount.ts:101-116 | as written, after a switch from `a` to `b`, the old socket's close drops the new socket and reconnects to `a` while `b` is shown |
| ViewerClient.ReconnectAfterUnmountAsWritten | client/src/hooks/useViewerCount.ts:114-155 | as written, a reconnect armed before unmount joins the stream after unmount |
| ViewerClient.Cleanup | client/src/hooks/useViewerCount.ts:127-155 | corrected cleanup also cancels pending reconnects |
| ViewerClient.OnClose | client/src/hooks/useViewerCount.ts:101-116 | corrected: the close of a socket that is not current changes only that socket |
| ViewerClient.Next | client/src/hooks/useViewerCount.ts:33-156 | corrected: the same phase and message facts as the hook as written, and unmounting a hook that showed a stream leaves no reconnect pending |
| ViewerClient.RenderConnectsAfresh | client/src/hooks/useViewerCount.ts:33-146 | corrected: a new stream id always gets a new socket, with nothing joined until it opens |
| ViewerClient.NextPreservesInv | client/src/hooks/useViewerCount.ts:33-156 | corrected: every event keeps the invariant that live sockets and pending reconnects belong to the shown stream |
| ViewerClient.RunPreservesInv | client/src/hooks/useViewerCount.ts:33-156 | corrected: every event sequence keeps the invariant |
| ViewerClient.NoStrayViewers | client/src/hooks/useViewerCount.ts:33-156 | corrected: an open socket counted as a viewer is counted for the shown stream; nothing is live or pending once nothing is shown; at most one socket is live |

## Left out

- I/O: sockets, HTTP, the console, the file system and child processes are replaced by events and returned effects.
- Express, helmet and CORS setup; static and HLS file serving; the likes, `/start` and `/stop` HTTP wrappers. The stores and operations behind these wrappers are modelled.
- Regular expressions. Browser detection and the blocked and allowed user-agent patterns are boolean facts of a request.
- JWT signing and verification. Verification is a function parameter; a token it refuses stands for `jwt.verify` throwing.
- SHA-256 fingerprints and random key bytes. These are request fields or parameters.
- `localeCompare` sorting of the snapshot (server/index.ts:87-88). The model builds and hashes the rows in de-duplicated order. The source sorts them by title first. The print-once property does not depend on the order.
- The snapshot's timestamp and pretty-printing. `Hash` takes the pretty length as a parameter.
- `broadcastViewerUpdate` reads `totalVisits` after an `await`; the model snapshots the count and visits when the effect is emitted.
- `broadcastViewerUpdate` takes the stream's live `viewers` set before its awaits (server/routes.ts:263) and iterates it after them (server/routes.ts:279-286). A socket that joins in between gets the older `viewerCount`, and one that leaves in between gets nothing. The model fixes the recipients when the effect is emitted.
- JSON message fields and query parameters are modelled as strings only. `Presence.Message.JoinStream` holds `Option<string>` fields, but the source only casts `msg.streamId` with `as string` (server/routes.ts:300-310), so a truthy number passes its check. `Security.Request.queryToken` is a string, but Express gives an array for `?token=a&token=b` (server/services/security.ts:264). Neither case can be written in the model.
- The awaits inside the listener and after a start resolves: their catalog writes are applied in the same step as the report or the resolve.
- The playlist poll's retries: one `PlaylistReady` event stands for the poll that finds segments.
- OnDemand.TimerStop: the stop timer does not look at calls in flight, as in the source; no property is stated about a timer that fires while a start is parked at an await.
- Transcoder.ProcessStream: states the start as if nothing ran during its awaits; the interleaved start is `OnDemand.CatalogFetched` followed by `OnDemand.FilesReady`.
- The client's heartbeat interval (client/src/hooks/useViewerCount.ts:76-80): its `heartbeat` sends are not modelled. The server's `heartbeat_response` reply is modelled by `Presence.OnMessage`. The client ignores that reply, as it ignores every kind other than `joined_stream` and `viewer_count_update` (`ViewerClient.OnMessageFilter`).
- The hook's `isLoading` and `isConnected` flags. They are modelled as state, but no property is stated about them.
- Presence.Close: removes the socket from the connection map. In the source, `current` stays in a dead closure that receives no further events.
- Common.AsciiLower: lower-cases ASCII letters only. For the owner check this matches `toLowerCase()`. The only non-ASCII characters whose lower case contains an ASCII letter are the Kelvin sign U+212A (to `k`) and U+0130 (to `i` plus a combining dot). The owner's name contains neither `k` nor `i`.
- Storage.CreateChatMessage: the timestamp and fresh id are parameters, as they come from the clock and `randomUUID`.

## Findings

| source | as written | input that shows it | evidently intended | confidence | as-written member | corrected member |
|---|---|---|---|---|---|---|
| server/services/ffmpeg.ts:135-148 | the exit and start-timeout handlers act on whatever process is registered under the stream id | start stream `x`, stop it, start it again; then the first process exits (or its 20 s timer fires) | a handler affects only the process that raised the event | medium, not executed | Transcoder.StaleExitOrphansReplacementAsWritten | Transcoder.OnEventPreservesValid |
| server/services/ffmpeg.ts:98-104 | the stderr handler sets `streaming` for the stream id even after the child has exited | start stream `x`; the child exits and a last stderr chunk with `frame=` is delivered after `exit` | only the registered, running process reports the stream streaming | low, not executed | Transcoder.LateProgressAfterExitAsWritten | Transcoder.OnEventPreservesValid |
| server/services/ffmpeg.ts:30-79 | `stopStream` runs before the `fs.rm`/`fs.mkdir` awaits, and `processes.set` after them replaces whatever another call registered meanwhile | two `processStream` calls for `x` whose awaits overlap | a registered child is stopped before another is registered for the stream | medium, not executed | Transcoder.OverlappingSpawnOrphansAsWritten | Transcoder.SpawnPreservesValid |
| server/routes.ts:223-240 | the guard reads only the transcoder's status, which is set after `getStream`, `fs.rm` and `fs.mkdir` have been awaited | a viewer joins idle stream `x`, leaves and joins again before the first start spawns | one transcoder per stream | medium, not executed | OnDemand.DoubleLaunchAsWritten | OnDemand.GuardMakesSpawnSafe |
| server/routes.ts:95-100 | `token !== expectedKey` passes when no admin key is configured and no token is sent (`undefined === undefined`) | no `VITE_ADMIN_KEY` or `ADMIN_KEY`; body `{role: "admin", username: "guest", token: undefined}` | admin requires a configured, non-empty key | high, not executed | ChatPost.AdminWithoutKeyAsWritten | ChatPost.DecideRoleAdminIff |
| client/src/hooks/useViewerCount.ts:101-155 | `onclose` of any socket nulls `wsRef` and reconnects with its own stream; cleanup leaves reconnect timers armed | switch from `a` to `b`, and the old socket's close arrives after the new socket opened; or unmount during a back-off | only the current socket's close resets the hook, and cleanup cancels reconnects | medium, not executed | ViewerClient.StaleCloseRejoinsOldStreamAsWritten | ViewerClient.NoStrayViewers |
