/** One file per level, written in a single pass over the live corpus; the delta a client
    fetches over it; and the sentinel that skips a pass over an unmoved corpus. */
module Snapshots {
  import opened Base
  import opened AccessLevels
  import opened Entitlement
  import opened Frames
  import opened KeysetPaging
  import opened SyncCursor

  const SNAPSHOT_FORMAT_VERSION := 2

  datatype FileLevel = PublicFile | MemberFile | ApiFile | FullFile

  const LEVELS: seq<FileLevel> := [PublicFile, MemberFile, ApiFile, FullFile]

  /** `Cut` is a line cut short: an object's text that ends early is not JSON. */
  datatype Line = Header(version: int, generatedAt: nat) | ObjectLine(frame: Frame) | Eof(count: nat) | Cut

  /** A row as the corpus scan yields it. */
  datatype Stored = Stored(uid: Uid, row: Row)

  function Projection(row: Row, level: FileLevel): Option<Dict> {
    match level
    case PublicFile => row.pub
    case MemberFile => row.mem
    case ApiFile => row.api
    case FullFile => Some(row.full)
  }

  function FileOf(level: Level): FileLevel {
    match level
    case Public => PublicFile
    case Member => MemberFile
    case Full => FullFile
  }

  /** The object lines of a level: rows without a projection there are skipped. */
  function Body(rows: seq<Stored>, level: FileLevel): seq<Frame> {
    if rows == [] then []
    else
      var n := |rows| - 1;
      var p := Projection(rows[n].row, level);
      Body(rows[..n], level) + if p.Some? then [Frame(rows[n].uid, p.value)] else []
  }

  function ObjectLines(frames: seq<Frame>): seq<Line> {
    seq(|frames|, i requires 0 <= i < |frames| => ObjectLine(frames[i]))
  }

  /** The file a pass over `rows` leaves. */
  function WholeFile(rows: seq<Stored>, level: FileLevel, generatedAt: nat): seq<Line> {
    [Header(SNAPSHOT_FORMAT_VERSION, generatedAt)] + ObjectLines(Body(rows, level)) + [Eof(|Body(rows, level)|)]
  }

  lemma {:induction false} BodyHolds(rows: seq<Stored>, level: FileLevel)
    ensures forall i :: 0 <= i < |rows| && Projection(rows[i].row, level).Some? ==>
              Frame(rows[i].uid, Projection(rows[i].row, level).value) in Body(rows, level)
    ensures forall f :: f in Body(rows, level) ==>
              exists i :: 0 <= i < |rows| && f.uid == rows[i].uid && Projection(rows[i].row, level) == Some(f.payload)
  {
    if rows != [] {
      BodyHolds(rows[..|rows| - 1], level);
    }
  }

  /** `rows` are the live rows of a table, in any order. */
  ghost predicate LiveRows(rows: seq<Stored>, table: Table) {
    && (forall i :: 0 <= i < |rows| ==>
          rows[i].uid in table && !table[rows[i].uid].deleted && rows[i].row == table[rows[i].uid])
    && (forall i, j :: 0 <= i < j < |rows| ==> rows[i].uid != rows[j].uid)
    && (forall u :: u in table && !table[u].deleted ==> Stored(u, table[u]) in rows)
  }

  // ---- Writing ----------------------------------------------------------------------

  class SnapshotWriter {
    var writers: map<FileLevel, seq<Line>>
    var counts: map<FileLevel, nat>

    /** The open file of a level holds the header and the lines of the rows written so far. */
    ghost predicate WroteLevel(l: FileLevel, rows: seq<Stored>, generatedAt: nat)
      reads this
    {
      && l in writers && l in counts
      && writers[l] == [Header(SNAPSHOT_FORMAT_VERSION, generatedAt)] + ObjectLines(Body(rows, l))
      && counts[l] == |Body(rows, l)|
    }

    ghost predicate Wrote(rows: seq<Stored>, generatedAt: nat)
      reads this
    {
      forall j :: 0 <= j < |LEVELS| ==> WroteLevel(LEVELS[j], rows, generatedAt)
    }

    constructor (generatedAt: nat)
      ensures Wrote([], generatedAt)
    {
      var header := [Header(SNAPSHOT_FORMAT_VERSION, generatedAt)];
      writers := map[PublicFile := header, MemberFile := header, ApiFile := header, FullFile := header];
      counts := map[PublicFile := 0, MemberFile := 0, ApiFile := 0, FullFile := 0];
      new;
      assert header + ObjectLines([]) == header;
    }

    method WriteLine(level: FileLevel, stored: Stored, ghost before: seq<Stored>, ghost generatedAt: nat)
      requires WroteLevel(level, before, generatedAt)
      modifies this
      ensures WroteLevel(level, before + [stored], generatedAt)
      ensures writers == old(writers)[level := writers[level]] && counts == old(counts)[level := counts[level]]
    {
      assert (before + [stored])[..|before|] == before;
      var projection := Projection(stored.row, level);
      if projection.Some? {
        var frame := Frame(stored.uid, projection.value);
        assert ObjectLines(Body(before, level) + [frame]) == ObjectLines(Body(before, level)) + [ObjectLine(frame)];
        writers := writers[level := writers[level] + [ObjectLine(frame)]];
        counts := counts[level := counts[level] + 1];
      }
    }

    method WriteRow(stored: Stored, ghost before: seq<Stored>, ghost generatedAt: nat)
      requires Wrote(before, generatedAt)
      modifies this
      ensures Wrote(before + [stored], generatedAt)
    {
      for i := 0 to |LEVELS|
        invariant forall j :: 0 <= j < i ==> WroteLevel(LEVELS[j], before + [stored], generatedAt)
        invariant forall j :: i <= j < |LEVELS| ==> WroteLevel(LEVELS[j], before, generatedAt)
      {
        WriteLine(LEVELS[i], stored, before, generatedAt);
      }
    }

    method WriteRows(rows: seq<Stored>, ghost before: seq<Stored>, ghost generatedAt: nat)
      requires Wrote(before, generatedAt)
      modifies this
      ensures Wrote(before + rows, generatedAt)
    {
      assert before + rows[..0] == before;
      for i := 0 to |rows|
        invariant Wrote(before + rows[..i], generatedAt)
      {
        WriteRow(rows[i], before + rows[..i], generatedAt);
        assert before + rows[..i] + [rows[i]] == before + rows[..i + 1];
      }
      assert rows[..|rows|] == rows;
    }
  }

  // ---- Reading ----------------------------------------------------------------------

  datatype Ingest = Ingest(objects: seq<Frame>, versioned: bool, sawEof: bool, failed: bool)

  /** The client's handling of one line. */
  function HandleLine(state: Ingest, line: Line): Ingest {
    match line
    case Header(version, _) =>
      if version == SNAPSHOT_FORMAT_VERSION then state.(versioned := true) else state.(failed := true)
    case ObjectLine(frame) => state.(objects := state.objects + [frame])
    case Eof(count) => if count == |state.objects| then state.(sawEof := true) else state.(failed := true)
    case Cut => state.(failed := true)
  }

  function HandleLines(file: seq<Line>): Ingest {
    if file == [] then Ingest([], false, false, false)
    else HandleLine(HandleLines(file[..|file| - 1]), file[|file| - 1])
  }

  /** A file without its trailer, with the wrong count, or with a line that does not parse is
      refused. */
  function Load(file: seq<Line>): Option<seq<Frame>> {
    var state := HandleLines(file);
    if state.failed || !state.sawEof then None else Some(state.objects)
  }

  lemma {:induction false} IngestPrefix(rows: seq<Stored>, level: FileLevel, g: nat, k: nat)
    requires k <= |Body(rows, level)|
    ensures HandleLines(WholeFile(rows, level, g)[..k + 1]) == Ingest(Body(rows, level)[..k], true, false, false)
  {
    var prefix := WholeFile(rows, level, g)[..k + 1];
    assert prefix[..k] == WholeFile(rows, level, g)[..k];
    if k == 0 {
      assert HandleLines(prefix[..0]) == Ingest([], false, false, false);
    } else {
      IngestPrefix(rows, level, g, k - 1);
      assert prefix[k] == ObjectLine(Body(rows, level)[k - 1]);
    }
  }

  lemma CutLineFails(lines: seq<Line>)
    ensures Load(lines + [Cut]).None?
  {
    assert (lines + [Cut])[..|lines|] == lines;
  }

  /** The trailer is load-bearing: a published file loads to exactly its object lines, and
      cut short anywhere, between two lines or inside one, it loads to nothing. */
  lemma OnlyWholeFilesLoad(rows: seq<Stored>, level: FileLevel, g: nat)
    ensures Load(WholeFile(rows, level, g)) == Some(Body(rows, level))
    ensures forall k :: 0 <= k < |WholeFile(rows, level, g)| ==>
              && Load(WholeFile(rows, level, g)[..k]).None?
              && Load(WholeFile(rows, level, g)[..k] + [Cut]).None?
  {
    var file := WholeFile(rows, level, g);
    var n := |Body(rows, level)|;
    IngestPrefix(rows, level, g, n);
    assert file[..|file| - 1] == file[..n + 1];
    assert Body(rows, level)[..n] == Body(rows, level);
    forall k | 0 <= k < |file| ensures Load(file[..k]).None? && Load(file[..k] + [Cut]).None? {
      if k > 0 {
        IngestPrefix(rows, level, g, k - 1);
      }
      CutLineFails(file[..k]);
    }
  }

  /** The rows are as some saves left them. */
  ghost predicate SavedFrom(rows: seq<Stored>, data: seq<Dict>) {
    |rows| == |data|
    && forall i :: 0 <= i < |rows| ==> rows[i].row == Project(rows[i].row.ty, data[i], rows[i].row.stamp)
  }

  /** What each published file loads to: of every object its projection for the file's readers, and
      nothing else; the API's file has the API's projections. */
  lemma FilesHoldTheProjections(rows: seq<Stored>, data: seq<Dict>, level: FileLevel, g: nat, f: Frame)
    requires SavedFrom(rows, data)
    ensures Load(WholeFile(rows, level, g)).Some?
    ensures f in Load(WholeFile(rows, level, g)).value
       <==> exists i :: 0 <= i < |rows| && rows[i].uid == f.uid
                        && match level
                           case PublicFile => ComputePublic(rows[i].row.ty, data[i]) == Some(f.payload)
                           case MemberFile => ComputeMember(rows[i].row.ty, data[i]) == Some(f.payload)
                           case ApiFile => ComputeApi(rows[i].row.ty, data[i]) == Some(f.payload)
                           case FullFile => ComputeFull(rows[i].row.ty, data[i]) == f.payload
  {
    OnlyWholeFilesLoad(rows, level, g);
    BodyHolds(rows, level);
  }

  // ---- Snapshot plus delta ----------------------------------------------------------

  /** The table at the anchor, when the corpus was read, and when the client fetched its
      delta, with nothing hard-deleted in between. */
  ghost predicate Timeline(anchor: Table, read: Table, now: Table, g: nat) {
    && (forall u :: u in anchor ==> anchor[u].stamp <= g)
    && Later(anchor, read, g) && Later(read, now, g)
    && forall u :: u in now ==> Sound(now[u])
  }

  ghost predicate Reads(store: Store, level: Level, table: Table) {
    forall u :: Get(store, u) == if u in table then ShownColumn(Column(table[u], level)) else None
  }

  /** A file row the delta will not mention: its public projection has gone since. */
  ghost predicate Lingers(read: Table, now: Table, level: Level, g: nat, u: Uid) {
    && u in read && !read[u].deleted && Column(read[u], level).Some?
    && u in now && g < now[u].stamp && !Streams(level, now[u])
  }

  lemma {:induction false} LoadedShows(read: Table, rows: seq<Stored>, level: Level, u: Uid)
    requires LiveRows(rows, read) && (u in read ==> Sound(read[u]))
    ensures Get(ApplyAll(map[], Body(rows, FileOf(level))), u)
         == if u in read && !read[u].deleted then ShownColumn(Column(read[u], level)) else None
  {
    var body := Body(rows, FileOf(level));
    BodyHolds(rows, FileOf(level));
    if u in read && !read[u].deleted && Column(read[u], level).Some? {
      var i :| 0 <= i < |rows| && rows[i] == Stored(u, read[u]);
      Mentioned(map[], body, u, Column(read[u], level).value);
    } else {
      Unmentioned(map[], body, u);
    }
  }

  lemma SnapshotDeltaAt(anchor: Table, read: Table, now: Table, g: nat, rows: seq<Stored>, level: Level,
                        delta: seq<Frame>, u: Uid)
    requires Timeline(anchor, read, now, g) && LiveRows(rows, read)
    requires forall w :: w in read ==> Sound(read[w])
    requires CarriesDelta(delta, level, now, Some(g))
    ensures Get(ApplyAll(ApplyAll(map[], Body(rows, FileOf(level))), delta), u)
         == if Lingers(read, now, level, g, u) then ShownColumn(Column(read[u], level))
            else if u in now then ShownColumn(Column(now[u], level)) else None
    ensures Lingers(read, now, level, g, u) ==>
              ShownColumn(Column(read[u], level)).Some? && ShownColumn(Column(now[u], level)).None?
  {
    LoadedShows(read, rows, level, u);
    var loaded := ApplyAll(map[], Body(rows, FileOf(level)));
    if u in now && g < now[u].stamp && Streams(level, now[u]) {
      Mentioned(loaded, delta, u, StreamedPayload(level, u, now[u]));
    } else {
      Unmentioned(loaded, delta, u);
    }
  }

  /** A file anchored at `g` with the rows modified after `g` laid over it is exactly the
      current live projections if and only if no object of the file has since been written
      out of the level unannounced. */
  lemma SnapshotPlusDelta(anchor: Table, read: Table, now: Table, g: nat, rows: seq<Stored>, level: Level,
                          delta: seq<Frame>)
    requires Timeline(anchor, read, now, g) && LiveRows(rows, read)
    requires forall u :: u in read ==> Sound(read[u])
    requires CarriesDelta(delta, level, now, Some(g))
    ensures Reads(ApplyAll(ApplyAll(map[], Body(rows, FileOf(level))), delta), level, now)
       <==> forall u :: !Lingers(read, now, level, g, u)
    ensures level != Public ==> Reads(ApplyAll(ApplyAll(map[], Body(rows, FileOf(level))), delta), level, now)
  {
    var store := ApplyAll(ApplyAll(map[], Body(rows, FileOf(level))), delta);
    forall u
      ensures Lingers(read, now, level, g, u)
         <==> Get(store, u) != if u in now then ShownColumn(Column(now[u], level)) else None
    {
      SnapshotDeltaAt(anchor, read, now, g, rows, level, delta, u);
    }
    if level != Public {
      forall u | u in now ensures Streams(level, now[u]) {
        StreamedAbovePublic(level, now[u]);
      }
    }
  }

  lemma RowLingers(u: Uid, before: Row, after: Row, read: Table, now: Table)
    requires Sound(before) && before.stamp == 1 && !before.deleted && before.pub.Some? && read == map[u := before]
    requires Sound(after) && after.stamp == 2 && after.pub.None? && after.ty == USER && now == map[u := after]
    ensures Timeline(read, read, now, 1) && CarriesDelta([], Public, now, Some(1))
    ensures Lingers(read, now, Public, 1, u) && LiveRows([Stored(u, before)], read)
  {
    var rows := [Stored(u, before)];
    assert rows[0] == Stored(u, read[u]);
  }

  lemma ProjectedIsSound(ty: ObjectType, data: Dict, stamp: nat)
    requires Declared(ty, data)
    ensures Sound(Project(ty, data, stamp))
  {
    var row := Project(ty, data, stamp);
    assert row == Project(row.ty, data, row.stamp);
    SavedIsSound(row);
  }

  /** Such an object occurs: an NC in the file who has since lost the role, and with it the
      public projection. The delta says nothing, and the public goes on reading them. */
  lemma LostRoleLingers(before: Dict, after: Dict, u: Uid, read: Table, now: Table)
    requires Declared(USER, before) && "NC" in StringsField(before, "roles") && !IsDeleted(before)
    requires Declared(USER, after) && StringsField(after, "roles") == {} && !NonEmptyList(after, "community_links")
    requires read == map[u := Project(USER, before, 1)] && now == map[u := Project(USER, after, 2)]
    ensures Timeline(read, read, now, 1) && CarriesDelta([], Public, now, Some(1))
    ensures Lingers(read, now, Public, 1, u)
    ensures !Reads(ApplyAll(ApplyAll(map[], Body([Stored(u, read[u])], PublicFile)), []), Public, now)
  {
    ProjectedIsSound(USER, before, 1);
    ProjectedIsSound(USER, after, 2);
    RowLingers(u, read[u], now[u], read, now);
    SnapshotPlusDelta(read, read, now, 1, [Stored(u, read[u])], Public, []);
  }
}
