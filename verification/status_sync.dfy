/**
 The glue of server/index.ts between the transcoder and the catalog: the
 `streamInfoUpdated` listener that mirrors a transcoder status into the
 catalog entry, and the console snapshot, which keeps the first catalog entry
 of each title, derives the ON/OFF columns, and is printed only when its
 change-detection hash differs from the last one printed.
 */
module StatusSync {
  import opened Common
  import opened Storage
  import Transcoder

  // ---------------------------------------------------------------------------
  // The streamInfoUpdated listener
  // ---------------------------------------------------------------------------

  /** The catalog status the listener writes for a transcoder status. */
  function MapStatus(st: Transcoder.Status): (c: CatalogStatus)
    ensures UnmapStatus(c) == Some(st)
    ensures c in {Streaming, Processing} <==> st in {Transcoder.Streaming, Transcoder.Processing}
  {
    match st
    case Streaming => Streaming
    case Processing => Processing
    case Idle => Live
    case Error => Offline
  }

  /** The transcoder status a written catalog status came from, if any. */
  function UnmapStatus(c: CatalogStatus): (r: Option<Transcoder.Status>) {
    match c
    case Streaming => Some(Transcoder.Streaming)
    case Processing => Some(Transcoder.Processing)
    case Live => Some(Transcoder.Idle)
    case Offline => Some(Transcoder.Error)
    case _ => None
  }

  /** No two transcoder statuses are written as the same catalog status: the written
      status can be read back; and a catalog entry is "on air" for the listener exactly
      when the transcoder is starting or streaming. */
  lemma MapStatusRoundTrip(st: Transcoder.Status)
    ensures UnmapStatus(MapStatus(st)) == Some(st)
    ensures MapStatus(st) in {Streaming, Processing} <==> st in {Transcoder.Streaming, Transcoder.Processing}
    ensures MapStatus(st) != Idle && MapStatus(st) != Starting
  {
  }

  /** The listener's processed URL: the playlist exactly while streaming. */
  function ProcessedUrlFor(streamId: string, st: Transcoder.Status): (r: Option<string>)
    ensures r.Some? <==> st == Transcoder.Streaming
    ensures r.Some? ==> r.value == Transcoder.PlaylistUrl(streamId)
  {
    if st == Transcoder.Streaming then Some(Transcoder.PlaylistUrl(streamId)) else None
  }

  /** The update object the listener passes to `updateStream`. */
  function InfoPatch(streamId: string, st: Transcoder.Status): StreamPatch {
    EmptyPatch.(status := Some(MapStatus(st)), processedUrl := Some(ProcessedUrlFor(streamId, st)))
  }

  /** The listener: a known catalog entry takes the mapped status and processed URL and
      keeps every other field; an unknown id changes nothing. */
  function OnInfoUpdated(cat: Catalog, streamId: string, st: Transcoder.Status): (r: Catalog)
    requires Valid(cat)
    ensures Valid(r)
    ensures streamId !in cat.streams ==> r == cat
    ensures streamId in cat.streams ==>
              && r.streams.Keys == cat.streams.Keys && r.order == cat.order && r.chats == cat.chats
              && (forall k :: k in cat.streams && k != streamId ==> r.streams[k] == cat.streams[k])
              && r.streams[streamId].status == MapStatus(st)
              && r.streams[streamId].processedUrl == ProcessedUrlFor(streamId, st)
              && r.streams[streamId] == cat.streams[streamId].(status := MapStatus(st), processedUrl := ProcessedUrlFor(streamId, st))
  {
    UpdateStream(cat, streamId, InfoPatch(streamId, st)).0
  }

  /** Only the last status report matters: two reports in a row leave the entry as the
      second alone would. */
  lemma OnInfoUpdatedLastWins(cat: Catalog, streamId: string, st1: Transcoder.Status, st2: Transcoder.Status)
    requires Valid(cat)
    ensures OnInfoUpdated(OnInfoUpdated(cat, streamId, st1), streamId, st2) == OnInfoUpdated(cat, streamId, st2)
  {
  }

  // ---------------------------------------------------------------------------
  // The console snapshot
  // ---------------------------------------------------------------------------

  /** The titles of a list of entries. */
  function Titles(ss: seq<Stream>): (r: set<string>)
    ensures forall i :: 0 <= i < |ss| ==> ss[i].title in r
  {
    set s | s in ss :: s.title
  }

  /** The reference for the title de-duplication: for each title, the first entry with
      that title, in order of first appearance. */
  function FirstPerTitle(all: seq<Stream>): (r: seq<Stream>)
    decreases |all|
  {
    if |all| == 0 then []
    else
      var u := FirstPerTitle(all[..|all| - 1]);
      if all[|all| - 1].title in Titles(u) then u else u + [all[|all| - 1]]
  }

  /** Entry `k` of `all` is the first one with its title. */
  predicate FirstOfTitle(all: seq<Stream>, k: int)
    requires 0 <= k < |all|
  {
    forall j :: 0 <= j < k ==> all[j].title != all[k].title
  }

  /** The de-duplicated list has distinct titles and covers every title of the input. */
  lemma {:induction false} FirstPerTitleTitles(all: seq<Stream>)
    ensures var r := FirstPerTitle(all);
            && (forall i, j :: 0 <= i < j < |r| ==> r[i].title != r[j].title)
            && Titles(r) == Titles(all)
    decreases |all|
  {
    if |all| > 0 {
      var pre := all[..|all| - 1];
      var last := all[|all| - 1];
      FirstPerTitleTitles(pre);
      assert all == pre + [last];
      assert Titles(all) == Titles(pre) + {last.title};
    }
  }

  /** Every entry that is the first of its title is kept. */
  lemma {:induction false} FirstIsKept(all: seq<Stream>, k: nat)
    requires k < |all| && FirstOfTitle(all, k)
    ensures all[k] in FirstPerTitle(all)
    decreases |all|
  {
    var pre := all[..|all| - 1];
    var u := FirstPerTitle(pre);
    if k == |all| - 1 {
      FirstPerTitleTitles(pre);
    } else {
      assert FirstOfTitle(pre, k) by {
        forall j | 0 <= j < k ensures pre[j].title != pre[k].title {
          assert all[j].title != all[k].title;
        }
      }
      FirstIsKept(pre, k);
    }
  }

  /** Every kept entry is the first of its title; `k` is where it occurs. */
  lemma {:induction false} KeptIsFirst(all: seq<Stream>, x: Stream) returns (k: nat)
    requires x in FirstPerTitle(all)
    ensures k < |all| && all[k] == x && FirstOfTitle(all, k)
    decreases |all|
  {
    var pre := all[..|all| - 1];
    var u := FirstPerTitle(pre);
    if x in u {
      k := KeptIsFirst(pre, x);
      assert FirstOfTitle(all, k) by {
        forall j | 0 <= j < k ensures all[j].title != all[k].title {
          assert pre[j].title != pre[k].title;
        }
      }
    } else {
      k := |all| - 1;
      FirstPerTitleTitles(pre);
      forall j | 0 <= j < k ensures all[j].title != all[k].title {
        assert pre[j].title in Titles(pre);
      }
    }
  }

  /** The snapshot's de-duplication loop: a stream is kept when its title is not yet in
      the `byTitle` map; the map's values come out in insertion order. */
  method DedupByTitle(all: seq<Stream>) returns (unique: seq<Stream>)
    ensures unique == FirstPerTitle(all)
  {
    var seen: set<string> := {};
    unique := [];
    var i := 0;
    while i < |all|
      invariant 0 <= i <= |all|
      invariant unique == FirstPerTitle(all[..i])
      invariant seen == Titles(unique)
    {
      assert all[..i + 1][..i] == all[..i];
      if all[i].title !in seen {
        unique := unique + [all[i]];
        seen := seen + {all[i].title};
      }
      i := i + 1;
    }
    assert all[..|all|] == all;
  }

  /** One line of the snapshot. */
  datatype Row = Row(id: string, title: string, chan: bool, ffmpeg: bool, viewers: nat, visits: nat)

  /** The row of a catalog entry, given the transcoder's report for it. */
  function RowOf(info: Option<Transcoder.StreamInfo>, s: Stream): (r: Row)
    ensures r.id == s.id && r.title == s.title
    ensures r.chan <==> s.status in {Streaming, Processing}
    ensures r.ffmpeg <==> info.Some? && info.value.status == Transcoder.Streaming
    ensures s.viewers.Some? ==> r.viewers == s.viewers.value
    ensures s.viewers.None? ==> r.viewers == 0
    ensures s.metadata.Some? && s.metadata.value.totalVisits.Some? ==> r.visits == s.metadata.value.totalVisits.value
    ensures !(s.metadata.Some? && s.metadata.value.totalVisits.Some?) ==> r.visits == 0
  {
    var ff := if info.Some? then info.value.status else Transcoder.Idle;
    Row(s.id, s.title,
        s.status == Streaming || s.status == Processing,
        ff == Transcoder.Streaming,
        s.viewers.GetOr(0),
        if s.metadata.Some? then s.metadata.value.totalVisits.GetOr(0) else 0)
  }

  /** The rows of the snapshot before sorting. */
  function Rows(svc: Transcoder.Service, unique: seq<Stream>): (r: seq<Row>)
    ensures |r| == |unique|
    ensures forall i :: 0 <= i < |r| ==> r[i] == RowOf(Transcoder.GetStreamInfo(svc, unique[i].id), unique[i])
    ensures forall i :: 0 <= i < |r| ==>
              && r[i].id == unique[i].id && r[i].title == unique[i].title
              && (r[i].chan <==> unique[i].status in {Streaming, Processing})
              && (r[i].ffmpeg <==> unique[i].id in svc.info && svc.info[unique[i].id].status == Transcoder.Streaming)
  {
    if |unique| == 0 then []
    else [RowOf(Transcoder.GetStreamInfo(svc, unique[0].id), unique[0])] + Rows(svc, unique[1..])
  }

  /** Once the listener has mirrored the transcoder's status into an entry, the two
      columns agree: the channel is ON exactly while the transcoder starts or streams,
      and ffmpeg ON implies channel ON. A missing report reads as idle, so ffmpeg is OFF. */
  lemma ColumnsAgreeAfterSync(cat: Catalog, svc: Transcoder.Service, id: string)
    requires Valid(cat) && id in cat.streams && id in svc.info
    ensures var row := RowOf(Transcoder.GetStreamInfo(svc, id), OnInfoUpdated(cat, id, svc.info[id].status).streams[id]);
            && (row.chan <==> svc.info[id].status in {Transcoder.Streaming, Transcoder.Processing})
            && (row.ffmpeg <==> svc.info[id].status == Transcoder.Streaming)
            && (row.ffmpeg ==> row.chan)
  {
  }

  /** `"ON"` or `"OFF"`. */
  function OnOff(b: bool): string {
    if b then "ON" else "OFF"
  }

  /** The text one row contributes to the hash. */
  function RowKey(r: Row): string {
    r.title + OnOff(r.chan) + OnOff(r.ffmpeg) + NatToString(r.viewers) + NatToString(r.visits)
  }

  /** `rows.map(RowKey).join("|")`. */
  function JoinRows(rows: seq<Row>): string
    decreases |rows|
  {
    if |rows| == 0 then ""
    else if |rows| == 1 then RowKey(rows[0])
    else RowKey(rows[0]) + "|" + JoinRows(rows[1..])
  }

  /** The change-detection hash: the length of the printed text, a colon, and the joined
      row keys. The printed text's length is a parameter (its timestamp and JSON layout
      are not modelled). */
  function Hash(prettyLength: nat, rows: seq<Row>): (h: string)
    ensures BeforeFirst(h, ':') == NatToString(prettyLength)
  {
    var digits := NatToString(prettyLength);
    assert ':' !in digits;
    BeforeFirstConcat(digits, ':', JoinRows(rows));
    digits + ":" + JoinRows(rows)
  }

  /** Snapshots whose printed text differs in length never share a hash, so each of them
      is printed. */
  lemma HashSeparatesLengths(n1: nat, rows1: seq<Row>, n2: nat, rows2: seq<Row>)
    requires n1 != n2
    ensures Hash(n1, rows1) != Hash(n2, rows2)
  {
    if Hash(n1, rows1) == Hash(n2, rows2) {
      NatToStringInjective(n1, n2);
    }
  }

  /** A snapshot is printed only when its hash differs from the last printed one, which it
      then replaces. Returns the new `lastHash` and whether the snapshot is printed. */
  function Publish(lastHash: string, hash: string): (r: (string, bool))
    ensures r.0 == hash
    ensures r.1 <==> hash != lastHash
  {
    if hash == lastHash then (lastHash, false) else (hash, true)
  }

  /** An unchanged snapshot is printed at most once, however often it is taken. */
  lemma {:induction false} PublishOnce(lastHash: string, hashes: seq<string>, h: string)
    requires forall i :: 0 <= i < |hashes| ==> hashes[i] == h
    ensures PrintCount(lastHash, hashes) <= 1
    ensures lastHash == h ==> PrintCount(lastHash, hashes) == 0
    decreases |hashes|
  {
    if |hashes| > 0 {
      PublishOnce(Publish(lastHash, hashes[0]).0, hashes[1..], h);
    }
  }

  /** How many of a run of snapshots with the given hashes are printed. */
  function PrintCount(lastHash: string, hashes: seq<string>): nat
    decreases |hashes|
  {
    if |hashes| == 0 then 0
    else
      var p := Publish(lastHash, hashes[0]);
      (if p.1 then 1 else 0) + PrintCount(p.0, hashes[1..])
  }
}
