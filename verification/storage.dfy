/**
 The in-memory catalog of server/storage.ts: streams keyed by id (kept in the
 insertion order of a JavaScript `Map`), per-stream chat lists, the like
 counter, and the table that resolves internal source ids to upstream URLs.

 Fresh ids (`randomUUID()`) and timestamps (`new Date()`) are parameters.
 */
module Storage {
  import opened Common

  // ---------------------------------------------------------------------------
  // Source-id indirection
  // ---------------------------------------------------------------------------

  /** The fixed table of internal source ids and the upstream URLs they stand for. */
  function SecureSources(): map<string, string> {
    map[
    "internal://protected-source-001" := "http://xxx.xx.xxx.xxx:8500/play/a09v",
    "internal://protected-source-003" := "http://xxx.xx.xxx.xxx:8500/play/a08j",
    "internal://protected-source-101" := "http://xxx.xx.xxx.xxx:8888/play/a0co/index.m3u8",
    "internal://protected-source-102" := "http://xxx.xx.xxx.xxx:8888/play/a0jb/index.m3u8",
    "internal://protected-source-103" := "http://xxx.xx.xxx.xxx:8500/play/a013",
    "internal://protected-source-104" := "http://xxx.xx.xxx.xxx:8500/play/a012",
    "internal://protected-source-105" := "http://xxx.xx.xxx.xxx:8500/play/a03x",
    "internal://protected-source-106" := "http://xxx.xx.xxx.xxx:8500/play/a014"
  ]
  }

  /** `getSecureSourceUrl`: the mapped URL for a known internal id, else the argument itself. */
  function SecureSourceUrl(sourceIdOrUrl: string): (url: string)
    ensures sourceIdOrUrl in SecureSources() ==> url == SecureSources()[sourceIdOrUrl]
    ensures sourceIdOrUrl !in SecureSources() ==> url == sourceIdOrUrl
  {
    if sourceIdOrUrl in SecureSources() && SecureSources()[sourceIdOrUrl] != "" then SecureSources()[sourceIdOrUrl]
    else sourceIdOrUrl
  }

  /** No upstream URL is itself an internal id, so resolving twice is resolving once
      (the transcoder resolves the URL the route already resolved). */
  lemma SecureSourceUrlIdempotent(x: string)
    ensures SecureSourceUrl(SecureSourceUrl(x)) == SecureSourceUrl(x)
  {
    if x in SecureSources() {
      assert x in {"internal://protected-source-001", "internal://protected-source-003",
                   "internal://protected-source-101", "internal://protected-source-102",
                   "internal://protected-source-103", "internal://protected-source-104",
                   "internal://protected-source-105", "internal://protected-source-106"};
    }
  }

  // ---------------------------------------------------------------------------
  // Streams and chat messages
  // ---------------------------------------------------------------------------

  /** The `status` values a catalog entry takes, from the schema and the server's writes. */
  datatype CatalogStatus = Live | Offline | Starting | Streaming | Processing | Idle

  /** Stream metadata; `totalVisits` is written by the viewer broadcast. */
  datatype Metadata = Metadata(
    channel: Option<string>,
    region: Option<string>,
    language: Option<string>,
    totalVisits: Option<nat>)

  /** A catalog entry; `viewers` is the extra field the viewer broadcast writes. */
  datatype Stream = Stream(
    id: string,
    title: string,
    sourceUrl: string,
    processedUrl: Option<string>,
    quality: string,
    audioQuality: Option<string>,
    status: CatalogStatus,
    metadata: Option<Metadata>,
    viewers: Option<nat>)

  /** A `Partial<Stream>`: `Some(v)` for each field the update object carries. */
  datatype StreamPatch = StreamPatch(
    id: Option<string>,
    title: Option<string>,
    sourceUrl: Option<string>,
    processedUrl: Option<Option<string>>,
    quality: Option<string>,
    audioQuality: Option<Option<string>>,
    status: Option<CatalogStatus>,
    metadata: Option<Option<Metadata>>,
    viewers: Option<Option<nat>>)

  const EmptyPatch := StreamPatch(None, None, None, None, None, None, None, None, None)

  /** `{ ...current, ...updates }`. */
  function Merge(s: Stream, p: StreamPatch): Stream {
    Stream(
      p.id.GetOr(s.id),
      p.title.GetOr(s.title),
      p.sourceUrl.GetOr(s.sourceUrl),
      p.processedUrl.GetOr(s.processedUrl),
      p.quality.GetOr(s.quality),
      p.audioQuality.GetOr(s.audioQuality),
      p.status.GetOr(s.status),
      p.metadata.GetOr(s.metadata),
      p.viewers.GetOr(s.viewers))
  }

  /** The patch equivalent to applying `p` and then `q`. */
  function Then(p: StreamPatch, q: StreamPatch): StreamPatch {
    StreamPatch(
      if q.id.Some? then q.id else p.id,
      if q.title.Some? then q.title else p.title,
      if q.sourceUrl.Some? then q.sourceUrl else p.sourceUrl,
      if q.processedUrl.Some? then q.processedUrl else p.processedUrl,
      if q.quality.Some? then q.quality else p.quality,
      if q.audioQuality.Some? then q.audioQuality else p.audioQuality,
      if q.status.Some? then q.status else p.status,
      if q.metadata.Some? then q.metadata else p.metadata,
      if q.viewers.Some? then q.viewers else p.viewers)
  }

  /** Merging the empty patch changes nothing; merging twice is merging once;
      two merges in a row are one merge of the combined patch. */
  lemma MergeLaws(s: Stream, p: StreamPatch, q: StreamPatch)
    ensures Merge(s, EmptyPatch) == s
    ensures Merge(Merge(s, p), p) == Merge(s, p)
    ensures Merge(Merge(s, p), q) == Merge(s, Then(p, q))
  {
  }

  datatype Role = User | Admin

  datatype ChatMessage = ChatMessage(
    id: string,
    streamId: string,
    username: string,
    message: string,
    role: Role,
    createdAt: string)

  /** The body accepted by `createStream` (the insert schema). */
  datatype InsertStream = InsertStream(
    id: Option<string>,
    title: string,
    sourceUrl: string,
    quality: string,
    audioQuality: Option<string>,
    status: Option<CatalogStatus>,
    metadata: Option<Metadata>)

  /** The insert schema's constraints: non-empty title, source and quality, and a
      status, when given, among live/offline/starting. */
  predicate ValidInsertStream(ins: InsertStream) {
    && ins.title != ""
    && ins.sourceUrl != ""
    && ins.quality != ""
    && (ins.status.Some? ==> ins.status.value in {Live, Offline, Starting})
  }

  datatype InsertChatMessage = InsertChatMessage(
    streamId: string,
    username: string,
    message: string,
    role: Option<Role>)

  /** The chat insert schema: stream id, user name and text all non-empty. */
  predicate ValidInsertChatMessage(ins: InsertChatMessage) {
    ins.streamId != "" && ins.username != "" && ins.message != ""
  }

  // ---------------------------------------------------------------------------
  // The catalog (`MemStorage`)
  // ---------------------------------------------------------------------------

  /** `order` lists the stream keys in `Map` insertion order. */
  datatype Catalog = Catalog(
    order: seq<string>,
    streams: map<string, Stream>,
    chats: map<string, seq<ChatMessage>>)

  /** No key is listed twice. */
  ghost predicate Distinct(order: seq<string>) {
    forall i, j :: 0 <= i < j < |order| ==> order[i] != order[j]
  }

  /** `order` holds every key of `streams` exactly once. */
  ghost predicate Valid(cat: Catalog) {
    && Distinct(cat.order)
    && (forall k :: k in cat.streams <==> k in cat.order)
  }

  /** `getStream`. */
  function GetStream(cat: Catalog, id: string): (r: Option<Stream>)
    ensures r.Some? <==> id in cat.streams
    ensures r.Some? ==> r.value == cat.streams[id]
  {
    if id in cat.streams then Some(cat.streams[id]) else None
  }

  /** `Map.set`: a new key goes last, an existing key keeps its place. */
  function Put(cat: Catalog, id: string, s: Stream): (r: Catalog)
    requires Valid(cat)
    ensures Valid(r)
    ensures r.streams == cat.streams[id := s] && r.chats == cat.chats
    ensures id in cat.streams ==> r.order == cat.order
    ensures id !in cat.streams ==> r.order == cat.order + [id]
  {
    if id in cat.streams then cat.(streams := cat.streams[id := s])
    else cat.(order := cat.order + [id], streams := cat.streams[id := s])
  }

  /** `order` without `id`. */
  function Without(order: seq<string>, id: string): (r: seq<string>)
    ensures forall k :: k in r <==> k in order && k != id
    ensures Distinct(order) ==> Distinct(r)
  {
    if |order| == 0 then []
    else
      assert Distinct(order) ==> Distinct(order[1..]) && order[0] !in order[1..];
      if order[0] == id then Without(order[1..], id)
      else [order[0]] + Without(order[1..], id)
  }

  /** `createStream`: stores the entry under the given id or `freshId`, with no processed
      URL and status `offline` when none is given; a chat list is created only if missing. */
  function CreateStream(cat: Catalog, ins: InsertStream, freshId: string): (r: (Catalog, Stream))
    requires Valid(cat)
    requires ValidInsertStream(ins)
    ensures Valid(r.0)
    ensures r.1.id == ins.id.GetOr(freshId)
    ensures r.1.processedUrl == None && r.1.viewers == None
    ensures r.1.status == ins.status.GetOr(Offline)
    ensures r.1.title == ins.title && r.1.sourceUrl == ins.sourceUrl && r.1.quality == ins.quality
    ensures r.1.audioQuality == ins.audioQuality && r.1.metadata == ins.metadata
    ensures r.0.streams == cat.streams[r.1.id := r.1]
    ensures r.1.id in cat.chats ==> r.0.chats == cat.chats
    ensures r.1.id !in cat.chats ==> r.0.chats == cat.chats[r.1.id := []]
  {
    var id := ins.id.GetOr(freshId);
    var s := Stream(id, ins.title, ins.sourceUrl, None, ins.quality, ins.audioQuality,
                    ins.status.GetOr(Offline), ins.metadata, None);
    var c := Put(cat, id, s);
    (if id in c.chats then c else c.(chats := c.chats[id := []]), s)
  }

  /** `updateStream`: `None` and no change for an unknown id; otherwise the merged entry,
      stored in place. */
  function UpdateStream(cat: Catalog, id: string, p: StreamPatch): (r: (Catalog, Option<Stream>))
    requires Valid(cat)
    ensures Valid(r.0)
    ensures id !in cat.streams ==> r.0 == cat && r.1 == None
    ensures id in cat.streams ==>
              r.1 == Some(Merge(cat.streams[id], p)) && r.0 == cat.(streams := cat.streams[id := r.1.value])
  {
    if id !in cat.streams then (cat, None)
    else
      var next := Merge(cat.streams[id], p);
      (cat.(streams := cat.streams[id := next]), Some(next))
  }

  /** `deleteStream`: reports whether the entry existed; only then is its chat list dropped. */
  function DeleteStream(cat: Catalog, id: string): (r: (Catalog, bool))
    requires Valid(cat)
    ensures Valid(r.0)
    ensures r.1 <==> id in cat.streams
    ensures r.0.streams == cat.streams - {id}
    ensures r.1 ==> r.0.chats == cat.chats - {id}
    ensures !r.1 ==> r.0 == cat
  {
    if id !in cat.streams then (cat, false)
    else (Catalog(Without(cat.order, id), cat.streams - {id}, cat.chats - {id}), true)
  }

  /** The stream ids `getAllStreams` shows. */
  function VisibleIds(): set<string> { {"espn-premium-hd", "tnt-sports-hd"} }

  /** The entries listed by `order` whose own `id` field is visible, in that order. */
  function VisibleIn(order: seq<string>, streams: map<string, Stream>): (r: seq<Stream>)
    ensures forall i :: 0 <= i < |r| ==> r[i].id in VisibleIds() && r[i] in streams.Values
    ensures forall k :: k in order && k in streams && streams[k].id in VisibleIds() ==> streams[k] in r
    ensures |r| <= |order|
  {
    if |order| == 0 then []
    else
      var rest := VisibleIn(order[1..], streams);
      var k := order[0];
      if k in streams && streams[k].id in VisibleIds() then [streams[k]] + rest else rest
  }

  /** `getAllStreams`: exactly the catalog entries whose id is one of the two visible ids. */
  function GetAllStreams(cat: Catalog): (r: seq<Stream>)
    requires Valid(cat)
    ensures forall s :: s in r <==> s in cat.streams.Values && s.id in VisibleIds()
  {
    var r := VisibleIn(cat.order, cat.streams);
    assert forall s :: s in cat.streams.Values && s.id in VisibleIds() ==> s in r by {
      forall s | s in cat.streams.Values && s.id in VisibleIds() ensures s in r {
        var k :| k in cat.streams && cat.streams[k] == s;
        assert k in cat.order;
      }
    }
    r
  }

  /** Whether the entry under key `k` is one `getAllStreams` shows. */
  predicate ShownKey(streams: map<string, Stream>, k: string) {
    k in streams && streams[k].id in VisibleIds()
  }

  /** The positions from `i` on in `order` whose entries are shown, ascending. */
  ghost function VisibleIdx(order: seq<string>, streams: map<string, Stream>, i: nat): (idx: seq<nat>)
    decreases |order| - i
  {
    if i >= |order| then []
    else (if ShownKey(streams, order[i]) then [i] else []) + VisibleIdx(order, streams, i + 1)
  }

  /** The shown positions from `i` on lie in `[i, |order|)` and hold shown entries. */
  lemma {:induction false} VisibleIdxRange(order: seq<string>, streams: map<string, Stream>, i: nat)
    ensures forall j :: 0 <= j < |VisibleIdx(order, streams, i)| ==>
              i <= VisibleIdx(order, streams, i)[j] < |order| && ShownKey(streams, order[VisibleIdx(order, streams, i)[j]])
    decreases |order| - i
  {
    if i < |order| {
      VisibleIdxRange(order, streams, i + 1);
      var idx := VisibleIdx(order, streams, i);
      var tail := VisibleIdx(order, streams, i + 1);
      var head: seq<nat> := if ShownKey(streams, order[i]) then [i] else [];
      assert idx == head + tail;
      forall j | 0 <= j < |idx| ensures i <= idx[j] < |order| && ShownKey(streams, order[idx[j]]) {
        if j < |head| {
          assert idx[j] == head[j] == i;
        } else {
          assert idx[j] == tail[j - |head|];
        }
      }
    }
  }

  /** The shown positions strictly increase. */
  lemma {:induction false} VisibleIdxSorted(order: seq<string>, streams: map<string, Stream>, i: nat)
    ensures forall a, b :: 0 <= a < b < |VisibleIdx(order, streams, i)| ==>
              VisibleIdx(order, streams, i)[a] < VisibleIdx(order, streams, i)[b]
    decreases |order| - i
  {
    if i < |order| {
      VisibleIdxSorted(order, streams, i + 1);
      VisibleIdxRange(order, streams, i + 1);
      var idx := VisibleIdx(order, streams, i);
      var tail := VisibleIdx(order, streams, i + 1);
      var head: seq<nat> := if ShownKey(streams, order[i]) then [i] else [];
      assert idx == head + tail;
      forall a, b | 0 <= a < b < |idx| ensures idx[a] < idx[b] {
        assert idx[b] == tail[b - |head|];
        if a < |head| {
          assert idx[a] == head[a] == i;
        } else {
          assert idx[a] == tail[a - |head|];
        }
      }
    }
  }

  /** A position from `i` on is listed exactly when its entry is shown. */
  lemma {:induction false} VisibleIdxMembers(order: seq<string>, streams: map<string, Stream>, i: nat)
    ensures forall p :: i <= p < |order| ==> (p in VisibleIdx(order, streams, i) <==> ShownKey(streams, order[p]))
    decreases |order| - i
  {
    if i < |order| {
      VisibleIdxMembers(order, streams, i + 1);
      VisibleIdxRange(order, streams, i + 1);
    }
  }

  /** The `j`-th entry `VisibleIn` returns is the entry under the `j`-th shown position. */
  lemma {:induction false} VisibleInAt(order: seq<string>, streams: map<string, Stream>, i: nat)
    requires i <= |order|
    ensures |VisibleIdx(order, streams, i)| == |VisibleIn(order[i..], streams)|
    ensures forall j :: 0 <= j < |VisibleIdx(order, streams, i)| ==>
              && VisibleIdx(order, streams, i)[j] < |order|
              && order[VisibleIdx(order, streams, i)[j]] in streams
              && VisibleIn(order[i..], streams)[j] == streams[order[VisibleIdx(order, streams, i)[j]]]
    decreases |order| - i
  {
    VisibleIdxRange(order, streams, i);
    if i < |order| {
      VisibleInAt(order, streams, i + 1);
      var idx := VisibleIdx(order, streams, i);
      var tail := VisibleIdx(order, streams, i + 1);
      var rest := VisibleIn(order[i + 1..], streams);
      assert order[i..][1..] == order[i + 1..];
      assert order[i..][0] == order[i];
      var r := VisibleIn(order[i..], streams);
      if ShownKey(streams, order[i]) {
        assert idx == [i] + tail;
        assert r == [streams[order[i]]] + rest;
        forall j | 0 <= j < |idx| ensures r[j] == streams[order[idx[j]]] {
          if j > 0 {
            assert idx[j] == tail[j - 1] && r[j] == rest[j - 1];
          }
        }
      } else {
        assert idx == tail;
        assert r == rest;
      }
    }
  }

  /** `VisibleIn` is the filter of `order` in its own order: its `j`-th entry is the
      entry under the `j`-th shown position, the positions strictly increase, and a
      position is listed exactly when its entry is shown. */
  lemma VisibleInIndexed(order: seq<string>, streams: map<string, Stream>, i: nat)
    requires i <= |order|
    ensures var r := VisibleIn(order[i..], streams);
            var idx := VisibleIdx(order, streams, i);
            && |idx| == |r|
            && (forall j :: 0 <= j < |idx| ==> i <= idx[j] < |order| && order[idx[j]] in streams && r[j] == streams[order[idx[j]]])
            && (forall a, b :: 0 <= a < b < |idx| ==> idx[a] < idx[b])
            && (forall p :: i <= p < |order| ==> (p in idx <==> ShownKey(streams, order[p])))
  {
    VisibleIdxRange(order, streams, i);
    VisibleInAt(order, streams, i);
    VisibleIdxSorted(order, streams, i);
    VisibleIdxMembers(order, streams, i);
  }

  /** `getAllStreams` lists each shown entry of a valid catalog once, in insertion order:
      the entries sit at strictly increasing positions of `order`, under distinct keys,
      and every shown key has its position. */
  lemma GetAllStreamsInOrder(cat: Catalog)
    requires Valid(cat)
    ensures var r := GetAllStreams(cat);
            var idx := VisibleIdx(cat.order, cat.streams, 0);
            && |idx| == |r|
            && (forall j :: 0 <= j < |idx| ==> idx[j] < |cat.order| && r[j] == cat.streams[cat.order[idx[j]]])
            && (forall a, b :: 0 <= a < b < |idx| ==> idx[a] < idx[b] && cat.order[idx[a]] != cat.order[idx[b]])
            && (forall i :: 0 <= i < |cat.order| ==> (i in idx <==> ShownKey(cat.streams, cat.order[i])))
  {
    VisibleInIndexed(cat.order, cat.streams, 0);
    assert cat.order[0..] == cat.order;
  }

  /** `getChatMessages`: the stream's list, or empty. */
  function GetChatMessages(cat: Catalog, streamId: string): (r: seq<ChatMessage>)
    ensures streamId !in cat.chats ==> r == []
    ensures streamId in cat.chats ==> r == cat.chats[streamId]
  {
    if streamId in cat.chats then cat.chats[streamId] else []
  }

  /** `createChatMessage`: appends to the end of the stream's list (made if missing);
      the stored role defaults to `user`. */
  function CreateChatMessage(cat: Catalog, ins: InsertChatMessage, freshId: string, now: string): (r: (Catalog, ChatMessage))
    requires ValidInsertChatMessage(ins)
    ensures r.1 == ChatMessage(freshId, ins.streamId, ins.username, ins.message, ins.role.GetOr(User), now)
    ensures GetChatMessages(r.0, ins.streamId) == GetChatMessages(cat, ins.streamId) + [r.1]
    ensures forall sid :: sid != ins.streamId ==> GetChatMessages(r.0, sid) == GetChatMessages(cat, sid)
    ensures r.0.streams == cat.streams && r.0.order == cat.order
  {
    var m := ChatMessage(freshId, ins.streamId, ins.username, ins.message, ins.role.GetOr(User), now);
    var list := GetChatMessages(cat, ins.streamId);
    (cat.(chats := cat.chats[ins.streamId := list + [m]]), m)
  }

  // ---------------------------------------------------------------------------
  // Default streams
  // ---------------------------------------------------------------------------

  /** `process.env[name] || fallback`. */
  function EnvOr(env: map<string, string>, name: string, fallback: string): string {
    if name in env && env[name] != "" then env[name] else fallback
  }

  function DefaultStream(id: string, title: string, source: string, channel: string, region: string): Stream {
    Stream(id, title, source, None, "1080p", Some("high"), Live,
           Some(Metadata(Some(channel), Some(region), Some("Spanish"), None)), None)
  }

  /** The ids of a list of entries, in order. */
  function Ids(ss: seq<Stream>): (r: seq<string>)
    ensures |r| == |ss| && forall i :: 0 <= i < |ss| ==> r[i] == ss[i].id
  {
    seq(|ss|, i requires 0 <= i < |ss| => ss[i].id)
  }

  /** An id of a non-empty list is its head's or one of its tail's. */
  lemma IdsCons(ds: seq<Stream>)
    requires |ds| > 0
    ensures forall k :: k in Ids(ds) <==> k == ds[0].id || k in Ids(ds[1..])
  {
    assert Ids(ds) == [ds[0].id] + Ids(ds[1..]);
  }

  /** The ids of the default streams, in registration order. */
  function DefaultIds(): seq<string> {
    ["espn-premium-hd", "tnt-sports-hd", "directv-sport", "directv-plus",
                       "espn-hd", "espn2-hd", "espn3-hd", "fox-sports-hd"]
  }

  /** The default ids are pairwise distinct. */
  lemma DefaultIdsDistinct()
    ensures Distinct(DefaultIds())
  {
  }

  /** What the constructor writes for one default stream: its id and title, the
      environment variable its source comes from and the internal id used when that is
      unset or empty, and its channel and region. */
  datatype DefaultSpec = DefaultSpec(id: string, title: string, envVar: string, internalId: string,
                                     channel: string, region: string)

  /** The eight defaults, in registration order. */
  function DefaultSpecs(): seq<DefaultSpec> {
    [ DefaultSpec("espn-premium-hd", "ESPN Premium HD AR", "ESPN_PREMIUM_STREAM_URL",
        "internal://protected-source-001", "ESPN Premium", "Argentina"),
      DefaultSpec("tnt-sports-hd", "TNT Sports HD AR", "TNT_STREAM_URL",
        "internal://protected-source-003", "TNT Sports", "Argentina"),
      DefaultSpec("directv-sport", "DirecTV SPORT", "DIRECTV_SPORT_STREAM_URL",
        "internal://protected-source-101", "DirecTV SPORT", "LatAm"),
      DefaultSpec("directv-plus", "DirecTV+", "DIRECTV_PLUS_STREAM_URL",
        "internal://protected-source-102", "DirecTV+", "LatAm"),
      DefaultSpec("espn-hd", "ESPN HD (81w) AR", "ESPN_HD_STREAM_URL",
        "internal://protected-source-103", "ESPN", "Argentina"),
      DefaultSpec("espn2-hd", "ESPN 2 HD (81w) AR", "ESPN2_HD_STREAM_URL",
        "internal://protected-source-104", "ESPN 2", "Argentina"),
      DefaultSpec("espn3-hd", "ESPN 3 HD (81w) AR", "ESPN3_HD_STREAM_URL",
        "internal://protected-source-106", "ESPN 3", "Argentina"),
      DefaultSpec("fox-sports-hd", "Fox Sports HD (81w) AR", "FOX_SPORTS_HD_STREAM_URL",
        "internal://protected-source-105", "Fox Sports", "Argentina") ]
  }

  /** The entry the constructor builds from one default. */
  function FromSpec(env: map<string, string>, d: DefaultSpec): Stream {
    DefaultStream(d.id, d.title, EnvOr(env, d.envVar, d.internalId), d.channel, d.region)
  }

  /** The eight streams the constructor registers, in registration order: distinct ids,
      all `live` at 1080p with no processed URL, each source taken from its environment
      variable when that is non-empty. */
  function DefaultStreams(env: map<string, string>): (r: seq<Stream>)
    ensures Ids(r) == DefaultIds()
    ensures forall i :: 0 <= i < |r| ==> r[i].status == Live && r[i].processedUrl == None && r[i].quality == "1080p" && r[i].viewers == None
  {
    var specs := DefaultSpecs();
    var r := seq(|specs|, i requires 0 <= i < |specs| => FromSpec(env, specs[i]));
    assert Ids(r) == DefaultIds();
    r
  }

  /** Every internal id of a default is a key of the secure-source table, which maps it to
      a different URL. */
  lemma InternalIdsSecure()
    ensures forall i :: 0 <= i < |DefaultSpecs()| ==>
              && DefaultSpecs()[i].internalId in SecureSources()
              && SecureSourceUrl(DefaultSpecs()[i].internalId) != DefaultSpecs()[i].internalId
  {
  }

  /** Every default source is either the non-empty value of its environment variable or
      an internal id that the secure-source table resolves to a different URL. */
  lemma DefaultSourcesResolve(env: map<string, string>)
    ensures forall i :: 0 <= i < |DefaultStreams(env)| ==>
              || (DefaultStreams(env)[i].sourceUrl in SecureSources()
                  && SecureSourceUrl(DefaultStreams(env)[i].sourceUrl) != DefaultStreams(env)[i].sourceUrl)
              || (DefaultStreams(env)[i].sourceUrl != "" && DefaultStreams(env)[i].sourceUrl in env.Values)
  {
    InternalIdsSecure();
    var r := DefaultStreams(env);
    forall i | 0 <= i < |r|
      ensures || (r[i].sourceUrl in SecureSources() && SecureSourceUrl(r[i].sourceUrl) != r[i].sourceUrl)
              || (r[i].sourceUrl != "" && r[i].sourceUrl in env.Values)
    {
      var d := DefaultSpecs()[i];
      assert r[i].sourceUrl == EnvOr(env, d.envVar, d.internalId);
      if d.envVar in env && env[d.envVar] != "" {
        assert env[d.envVar] in env.Values;
      }
    }
  }

  /** With no variable set, every default source is an internal id, and
      `getSecureSourceUrl` replaces it with a different URL from the table. */
  lemma DefaultSourcesWithoutEnv()
    ensures forall i :: 0 <= i < |DefaultStreams(map[])| ==>
              && DefaultStreams(map[])[i].sourceUrl in SecureSources()
              && SecureSourceUrl(DefaultStreams(map[])[i].sourceUrl) != DefaultStreams(map[])[i].sourceUrl
  {
    InternalIdsSecure();
    var r := DefaultStreams(map[]);
    forall i | 0 <= i < |r|
      ensures r[i].sourceUrl in SecureSources() && SecureSourceUrl(r[i].sourceUrl) != r[i].sourceUrl
    {
      assert r[i].sourceUrl == DefaultSpecs()[i].internalId;
    }
  }

  /** One turn of the constructor's loop: `streams.set(s.id, s)`, then an empty chat list
      if the id has none. */
  function RegisterOne(cat: Catalog, s: Stream): (r: Catalog)
    requires Valid(cat)
    ensures Valid(r)
    ensures r.streams == cat.streams[s.id := s]
    ensures s.id in cat.chats ==> r.chats == cat.chats
    ensures s.id !in cat.chats ==> r.chats == cat.chats[s.id := []]
    ensures s.id in cat.streams ==> r.order == cat.order
    ensures s.id !in cat.streams ==> r.order == cat.order + [s.id]
  {
    var c := Put(cat, s.id, s);
    if s.id in c.chats then c else c.(chats := c.chats[s.id := []])
  }

  /** The constructor's loop: registers `defaults` in order. */
  function Register(cat: Catalog, defaults: seq<Stream>): (r: Catalog)
    requires Valid(cat)
    ensures Valid(r)
    ensures forall i :: 0 <= i < |defaults| ==> defaults[i].id in r.streams && defaults[i].id in r.chats
    ensures forall k :: k in cat.streams ==> k in r.streams
    ensures forall k :: k in cat.chats ==> k in r.chats
    decreases |defaults|
  {
    if |defaults| == 0 then cat else Register(RegisterOne(cat, defaults[0]), defaults[1..])
  }

  /** Only the catalog's own keys and the defaults' ids end up as keys. */
  lemma {:induction false} RegisterKeys(cat: Catalog, defaults: seq<Stream>)
    requires Valid(cat)
    ensures forall k :: k in Register(cat, defaults).streams <==> k in cat.streams || k in Ids(defaults)
    ensures forall k :: k in Register(cat, defaults).chats <==> k in cat.chats || k in Ids(defaults)
    decreases |defaults|
  {
    if |defaults| > 0 {
      RegisterKeys(RegisterOne(cat, defaults[0]), defaults[1..]);
      IdsCons(defaults);
    }
  }

  /** No later default has the same id as `defaults[i]`. */
  predicate LastOfId(defaults: seq<Stream>, i: nat)
    requires i < |defaults|
  {
    forall j :: i < j < |defaults| ==> defaults[j].id != defaults[i].id
  }

  /** An entry whose key no default uses is kept. */
  lemma {:induction false} RegisterKeepsOthers(cat: Catalog, defaults: seq<Stream>)
    requires Valid(cat)
    ensures forall k :: k in cat.streams && k !in Ids(defaults) ==> Register(cat, defaults).streams[k] == cat.streams[k]
    decreases |defaults|
  {
    if |defaults| > 0 {
      RegisterKeepsOthers(RegisterOne(cat, defaults[0]), defaults[1..]);
      IdsCons(defaults);
    }
  }

  /** The last default with an id is the entry stored under it. */
  lemma {:induction false} RegisterStoresLast(cat: Catalog, defaults: seq<Stream>, i: nat)
    requires Valid(cat) && i < |defaults| && LastOfId(defaults, i)
    ensures Register(cat, defaults).streams[defaults[i].id] == defaults[i]
    decreases |defaults|
  {
    var c := RegisterOne(cat, defaults[0]);
    if i == 0 {
      RegisterKeepsOthers(c, defaults[1..]);
      assert defaults[0].id !in Ids(defaults[1..]);
    } else {
      assert LastOfId(defaults[1..], i - 1) by {
        forall j | i - 1 < j < |defaults| - 1 ensures defaults[1..][j].id != defaults[1..][i - 1].id {
          assert defaults[1..][j] == defaults[j + 1];
        }
      }
      RegisterStoresLast(c, defaults[1..], i - 1);
    }
  }

  /** The last default with an id is the entry stored under it; an entry whose key no
      default uses is kept. */
  lemma RegisterLastWins(cat: Catalog, defaults: seq<Stream>)
    requires Valid(cat)
    ensures var r := Register(cat, defaults);
            && (forall i :: 0 <= i < |defaults| && LastOfId(defaults, i) ==> r.streams[defaults[i].id] == defaults[i])
            && (forall k :: k in cat.streams && k !in Ids(defaults) ==> r.streams[k] == cat.streams[k])
  {
    forall i | 0 <= i < |defaults| && LastOfId(defaults, i)
      ensures Register(cat, defaults).streams[defaults[i].id] == defaults[i]
    {
      RegisterStoresLast(cat, defaults, i);
    }
    RegisterKeepsOthers(cat, defaults);
  }

  /** Existing chat lists keep their messages. */
  lemma {:induction false} RegisterKeepsChats(cat: Catalog, defaults: seq<Stream>)
    requires Valid(cat)
    ensures forall k :: k in cat.chats ==> Register(cat, defaults).chats[k] == cat.chats[k]
    decreases |defaults|
  {
    if |defaults| > 0 {
      RegisterKeepsChats(RegisterOne(cat, defaults[0]), defaults[1..]);
    }
  }

  /** A default without a chat list gets an empty one. */
  lemma {:induction false} RegisterNewChats(cat: Catalog, defaults: seq<Stream>)
    requires Valid(cat)
    ensures forall k :: k in Ids(defaults) && k !in cat.chats ==> Register(cat, defaults).chats[k] == []
    decreases |defaults|
  {
    if |defaults| > 0 {
      var c := RegisterOne(cat, defaults[0]);
      RegisterNewChats(c, defaults[1..]);
      RegisterKeepsChats(c, defaults[1..]);
      IdsCons(defaults);
    }
  }

  /** `a` is a prefix of `b`. */
  predicate PrefixOf(a: seq<string>, b: seq<string>) {
    |a| <= |b| && b[..|a|] == a
  }

  /** A prefix of a prefix is a prefix. */
  lemma PrefixTrans(a: seq<string>, b: seq<string>, c: seq<string>)
    requires PrefixOf(a, b) && PrefixOf(b, c)
    ensures PrefixOf(a, c)
  {
    assert c[..|a|] == c[..|b|][..|a|];
  }

  /** New keys go after the old ones. */
  lemma {:induction false} RegisterKeepsOrder(cat: Catalog, defaults: seq<Stream>)
    requires Valid(cat)
    ensures |cat.order| <= |Register(cat, defaults).order| && Register(cat, defaults).order[..|cat.order|] == cat.order
    decreases |defaults|
  {
    if |defaults| > 0 {
      var c := RegisterOne(cat, defaults[0]);
      RegisterKeepsOrder(c, defaults[1..]);
      assert PrefixOf(cat.order, c.order);
      PrefixTrans(cat.order, c.order, Register(cat, defaults).order);
    } else {
      assert Register(cat, defaults).order[..|cat.order|] == cat.order;
    }
  }

  /** The tail of a list without repeats has none, and lacks the head. */
  lemma DistinctTail(ids: seq<string>)
    requires |ids| > 0 && Distinct(ids)
    ensures Distinct(ids[1..]) && ids[0] !in ids[1..]
  {
  }

  /** Appending a list is appending its head, then its tail. */
  lemma AppendHead(a: seq<string>, b: seq<string>)
    requires |b| > 0
    ensures a + b == (a + [b[0]]) + b[1..]
  {
    assert b == [b[0]] + b[1..];
  }

  /** Defaults with distinct ids none of which is catalogued yet go after the old keys,
      in their own order. */
  lemma {:induction false} RegisterFreshOrder(cat: Catalog, defaults: seq<Stream>)
    requires Valid(cat)
    requires forall k :: k in Ids(defaults) ==> k !in cat.streams
    requires Distinct(Ids(defaults))
    ensures Register(cat, defaults).order == cat.order + Ids(defaults)
    decreases |defaults|
  {
    if |defaults| > 0 {
      var ids := Ids(defaults);
      assert Ids(defaults[1..]) == ids[1..];
      assert ids[0] in ids;
      DistinctTail(ids);
      var c := RegisterOne(cat, defaults[0]);
      assert c.order == cat.order + [ids[0]];
      assert forall k :: k in ids[1..] ==> k in ids;
      RegisterFreshOrder(c, defaults[1..]);
      AppendHead(cat.order, ids);
    }
  }

  /** With distinct ids every default is the last with its id. */
  lemma DistinctIdIsLast(ds: seq<Stream>, i: nat)
    requires Distinct(Ids(ds)) && i < |ds|
    ensures LastOfId(ds, i)
  {
    forall j | i < j < |ds| ensures ds[j].id != ds[i].id {
      assert Ids(ds)[j] != Ids(ds)[i];
    }
  }

  /** The catalog before any stream is registered. */
  const EmptyCatalog := Catalog([], map[], map[])

  /** Registering defaults with distinct ids stores each under its id. */
  lemma RegisterDistinctStores(cat: Catalog, ds: seq<Stream>)
    requires Valid(cat) && Distinct(Ids(ds))
    ensures forall i :: 0 <= i < |ds| ==>
              ds[i].id in Register(cat, ds).streams && Register(cat, ds).streams[ds[i].id] == ds[i]
  {
    forall i | 0 <= i < |ds|
      ensures ds[i].id in Register(cat, ds).streams && Register(cat, ds).streams[ds[i].id] == ds[i]
    {
      DistinctIdIsLast(ds, i);
      RegisterStoresLast(cat, ds, i);
    }
  }

  /** Registering into an empty catalog gives exactly the defaults' ids an empty chat list. */
  lemma RegisterFreshChats(ds: seq<Stream>)
    ensures var r := Register(EmptyCatalog, ds);
            && (forall k :: k in r.chats <==> k in Ids(ds))
            && (forall k :: k in r.chats ==> r.chats[k] == [])
  {
    RegisterKeys(EmptyCatalog, ds);
    RegisterNewChats(EmptyCatalog, ds);
  }

  /** The catalog as the constructor leaves it, given the default entries it builds
      (`DefaultStreams(env)` for the process environment `env`): the eight default ids in
      registration order, each storing its entry, and exactly those ids with a chat list,
      which is empty. */
  function InitialCatalog(d: seq<Stream>): (r: Catalog)
    requires Ids(d) == DefaultIds()
    ensures Valid(r)
    ensures r.order == DefaultIds()
    ensures forall i :: 0 <= i < |DefaultIds()| ==> DefaultIds()[i] in r.streams && r.streams[DefaultIds()[i]] == d[i]
    ensures forall k :: k in r.chats <==> k in DefaultIds()
    ensures forall k :: k in r.chats ==> r.chats[k] == []
  {
    var r := Register(EmptyCatalog, d);
    DefaultIdsDistinct();
    assert r.order == DefaultIds() by {
      RegisterFreshOrder(EmptyCatalog, d);
    }
    assert forall i :: 0 <= i < |DefaultIds()| ==> DefaultIds()[i] in r.streams && r.streams[DefaultIds()[i]] == d[i] by {
      RegisterDistinctStores(EmptyCatalog, d);
    }
    assert (forall k :: k in r.chats <==> k in DefaultIds()) && (forall k :: k in r.chats ==> r.chats[k] == []) by {
      RegisterFreshChats(d);
    }
    r
  }

  // ---------------------------------------------------------------------------
  // Likes
  // ---------------------------------------------------------------------------

  /** The module-level like counters. */
  type Likes = map<string, int>

  /** Every stored counter is non-negative. */
  ghost predicate LikesValid(likes: Likes) {
    forall k :: k in likes ==> likes[k] >= 0
  }

  /** `getLikeCount`: the stored count, 0 when absent. */
  function GetLikeCount(likes: Likes, streamId: string): (n: int)
    ensures streamId !in likes ==> n == 0
    ensures LikesValid(likes) ==> n >= 0
  {
    if streamId in likes then likes[streamId] else 0
  }

  /** `applyLike`: one more than before; returns and stores the new count. */
  function ApplyLike(likes: Likes, streamId: string): (r: (Likes, int))
    ensures r.1 == GetLikeCount(likes, streamId) + 1
    ensures r.0 == likes[streamId := r.1]
    ensures LikesValid(likes) ==> LikesValid(r.0) && r.1 >= 1
  {
    var next := GetLikeCount(likes, streamId) + 1;
    (likes[streamId := next], next)
  }

  /** `applyUnlike`: one fewer than before but never below 0. */
  function ApplyUnlike(likes: Likes, streamId: string): (r: (Likes, int))
    ensures r.1 >= 0 && r.1 >= GetLikeCount(likes, streamId) - 1
    ensures r.1 == 0 || r.1 == GetLikeCount(likes, streamId) - 1
    ensures r.0 == likes[streamId := r.1]
    ensures LikesValid(likes) ==> LikesValid(r.0)
  {
    var prev := GetLikeCount(likes, streamId);
    var next := if prev - 1 > 0 then prev - 1 else 0;
    (likes[streamId := next], next)
  }

  /** An unlike right after a like restores the previous count, and leaves the store
      as it was except that an absent counter is now an explicit 0. */
  lemma UnlikeUndoesLike(likes: Likes, streamId: string)
    requires LikesValid(likes)
    ensures var (l1, _) := ApplyLike(likes, streamId);
            var (l2, n) := ApplyUnlike(l1, streamId);
            n == GetLikeCount(likes, streamId)
            && l2 == likes[streamId := GetLikeCount(likes, streamId)]
  {
  }
}
