/** The periodic snapshot pass, and the corpus sentinel that lets it skip. */
module SnapshotJobs {
  import opened Base
  import opened AccessLevels
  import opened Entitlement
  import opened Frames
  import opened KeysetPaging
  import opened SyncCursor
  import opened Snapshots
  import opened Replication

  /** The corpus fingerprint: how many rows, and the newest `modified_at`. */
  datatype Sentinel = Sentinel(count: nat, newest: Option<nat>)

  ghost predicate IsSentinel(s: Sentinel, table: Table) {
    && s.count == |table|
    && (s.newest.None? <==> table == map[])
    && (s.newest.Some? ==>
          (exists u :: u in table && table[u].stamp == s.newest.value)
          && forall u :: u in table ==> table[u].stamp <= s.newest.value)
  }

  method ReadSentinel(table: Table) returns (s: Sentinel)
    ensures IsSentinel(s, table)
  {
    var newest: Option<nat> := None;
    var left := table.Keys;
    while left != {}
      invariant left <= table.Keys
      invariant newest.None? <==> left == table.Keys
      invariant newest.Some? ==>
                  (exists u :: u in table && table[u].stamp == newest.value)
                  && forall u :: u in table && u !in left ==> table[u].stamp <= newest.value
      decreases left
    {
      var u :| u in left;
      left := left - {u};
      assert u !in left;
      if newest.None? || newest.value < table[u].stamp {
        newest := Some(table[u].stamp);
      }
    }
    s := Sentinel(|table|, newest);
  }

  /** The unordered scan of the live corpus. */
  method ScanCorpus(table: Table) returns (rows: seq<Stored>)
    ensures LiveRows(rows, table)
  {
    rows := [];
    var left := table.Keys;
    while left != {}
      invariant left <= table.Keys
      invariant forall i :: 0 <= i < |rows| ==>
                  && rows[i].uid in table && rows[i].uid !in left
                  && !table[rows[i].uid].deleted && rows[i].row == table[rows[i].uid]
      invariant forall i, j :: 0 <= i < j < |rows| ==> rows[i].uid != rows[j].uid
      invariant forall u :: u in table && u !in left && !table[u].deleted ==> Stored(u, table[u]) in rows
      decreases left
    {
      var u :| u in left;
      left := left - {u};
      if !table[u].deleted {
        rows := rows + [Stored(u, table[u])];
      }
    }
  }

  /** The files are whole and hold the rows. */
  ghost predicate Holds(files: map<FileLevel, seq<Line>>, rows: seq<Stored>, generatedAt: nat) {
    forall j :: 0 <= j < |LEVELS| ==>
      LEVELS[j] in files && files[LEVELS[j]] == WholeFile(rows, LEVELS[j], generatedAt)
  }

  class SnapshotJob {
    var builtFrom: Option<Sentinel>
    var builtCounts: map<FileLevel, nat>
    var files: map<FileLevel, seq<Line>>

    constructor ()
      ensures builtFrom == None && files == map[]
    {
      builtFrom, builtCounts, files := None, map[], map[];
    }

    predicate Published()
      reads this
    {
      forall j :: 0 <= j < |LEVELS| ==> LEVELS[j] in files
    }

    /** One generation. The anchor and the sentinel are read from `anchor`, the rows later,
        from `corpus`, `batch` at a time; `fails` says the pass raises before publishing.
        A skip and a failure both leave the published files in place. */
    method Generate(anchor: Table, generatedAt: nat, corpus: Table, batch: nat, fails: bool)
      returns (skipped: bool, sentinel: Sentinel, ghost rows: seq<Stored>)
      requires 0 < batch
      modifies this
      ensures IsSentinel(sentinel, anchor)
      ensures skipped == (old(builtFrom) == Some(sentinel) && old(Published()))
      ensures skipped || fails ==> builtFrom == old(builtFrom) && builtCounts == old(builtCounts) && files == old(files)
      ensures !skipped && !fails ==>
                && builtFrom == Some(sentinel) && LiveRows(rows, corpus) && Holds(files, rows, generatedAt)
                && forall j :: 0 <= j < |LEVELS| ==>
                     LEVELS[j] in builtCounts && builtCounts[LEVELS[j]] == |Body(rows, LEVELS[j])|
    {
      rows := [];
      sentinel := ReadSentinel(anchor);
      skipped := builtFrom == Some(sentinel) && Published();
      if skipped {
        return;
      }
      var scanned := ScanCorpus(corpus);
      rows := scanned;
      var writer := new SnapshotWriter(generatedAt);
      var i := 0;
      assert scanned[..0] == [];
      while i < |scanned|
        invariant i <= |scanned| && writer.Wrote(scanned[..i], generatedAt)
        modifies writer
      {
        var next := if i + batch < |scanned| then i + batch else |scanned|;
        writer.WriteRows(scanned[i..next], scanned[..i], generatedAt);
        assert scanned[..i] + scanned[i..next] == scanned[..next];
        i := next;
      }
      if fails {
        return;
      }
      assert scanned[..i] == scanned;
      Publish(writer, rows, generatedAt);
      builtFrom, builtCounts := Some(sentinel), writer.counts;
    }

    /** Close each file with its trailer and rename it into place. */
    method Publish(writer: SnapshotWriter, ghost rows: seq<Stored>, ghost generatedAt: nat)
      requires writer.Wrote(rows, generatedAt)
      modifies this`files
      ensures Holds(files, rows, generatedAt)
    {
      for i := 0 to |LEVELS|
        invariant forall j :: 0 <= j < i ==>
                    LEVELS[j] in files && files[LEVELS[j]] == WholeFile(rows, LEVELS[j], generatedAt)
      {
        assert writer.WroteLevel(LEVELS[i], rows, generatedAt);
        files := files[LEVELS[i] := writer.writers[LEVELS[i]] + [Eof(writer.counts[LEVELS[i]])]];
      }
    }
  }

  // ---- The sentinel over whole runs -------------------------------------------------

  /** The table, the clock its stamps come from, and when each deleted row was marked. */
  datatype Corpus = Corpus(table: Table, clock: nat, marked: map<Uid, nat>)

  /** The mark a save leaves: the time a row was first saved as deleted. */
  function Marked(a: Corpus, u: Uid, row: Row): map<Uid, nat> {
    if row.deleted && u in a.table && a.table[u].deleted && u in a.marked then a.marked
    else a.marked[u := row.stamp]
  }

  ghost predicate Upsert(a: Corpus, b: Corpus, u: Uid, row: Row) {
    a.clock < row.stamp && b == Corpus(a.table[u := row], row.stamp, Marked(a, u, row))
  }

  /** A write stamps its row above every earlier stamp; hard deletes and the passing of time
      leave the other rows as they are. */
  ghost predicate Moves(a: Corpus, b: Corpus) {
    || (exists u, row :: Upsert(a, b, u, row))
    || (exists gone: set<Uid> :: b == a.(table := a.table - gone))
    || (a.clock <= b.clock && b == a.(clock := b.clock))
  }

  ghost predicate CorpusRun(run: seq<Corpus>) {
    && run != [] && (forall u :: u in run[0].table ==> run[0].table[u].stamp <= run[0].clock)
    && forall i, j :: 0 <= i && j == i + 1 && j < |run| ==> Moves(run[i], run[j])
  }

  /** Rows stamped up to an earlier clock reading are the rows of that time. */
  lemma {:induction false} SinceThen(run: seq<Corpus>, i: nat, j: nat)
    requires CorpusRun(run) && i <= j < |run|
    ensures run[i].clock <= run[j].clock
    ensures forall u :: u in run[j].table ==>
              run[j].table[u].stamp <= run[j].clock
              && (run[j].table[u].stamp <= run[i].clock ==> u in run[i].table && run[i].table[u] == run[j].table[u])
    decreases j
  {
    if i < j {
      SinceThen(run, i, j - 1);
      assert Moves(run[j - 1], run[j]);
    } else if 0 < j {
      SinceThen(run, i - 1, j - 1);
      assert Moves(run[j - 1], run[j]);
    }
  }

  /** Equal row counts and newest stamps at two times of a run of upserts and hard deletes
      mean identical corpora: same rows, same contents. */
  lemma EqualSentinelsEqualCorpora(run: seq<Corpus>, i: nat, j: nat, s: Sentinel)
    requires CorpusRun(run) && i <= j < |run|
    requires IsSentinel(s, run[i].table) && IsSentinel(s, run[j].table)
    ensures run[i].table == run[j].table
  {
    SinceThen(run, i, i);
    SinceThen(run, i, j);
    var a, b := run[i].table, run[j].table;
    assert b.Keys <= a.Keys;
    assert |b.Keys| == |b| && |a.Keys| == |a|;
    SubsetOfSameSize(b.Keys, a.Keys);
  }

  lemma SubsetOfSameSize(small: set<Uid>, big: set<Uid>)
    requires small <= big && |small| == |big|
    ensures small == big
  {
    assert |big - small| == |big| - |small|;
  }

  // ---- When a skip is sound ---------------------------------------------------------

  /** No row of the list is newer than the sentinel. */
  ghost predicate NoneNewer(rows: seq<Stored>, s: Sentinel) {
    forall x :: x in rows ==> s.newest.Some? && x.row.stamp <= s.newest.value
  }

  /** Live rows none of which is newer than the sentinel of an earlier anchor, when the
      corpus is back at that anchor, are its live rows. */
  lemma NoneNewerIsSound(run: seq<Corpus>, anchor: nat, read: nat, s: Sentinel, rows: seq<Stored>)
    requires CorpusRun(run) && anchor <= read < |run|
    requires IsSentinel(s, run[anchor].table) && LiveRows(rows, run[read].table) && NoneNewer(rows, s)
    requires forall u :: u in run[anchor].table ==> u in run[read].table && run[read].table[u] == run[anchor].table[u]
    ensures LiveRows(rows, run[anchor].table)
  {
    SinceThen(run, anchor, anchor);
    SinceThen(run, anchor, read);
    forall i | 0 <= i < |rows|
      ensures rows[i].uid in run[anchor].table && run[anchor].table[rows[i].uid] == rows[i].row
    {
      assert rows[i] in rows;
      assert rows[i].row.stamp <= run[anchor].clock;
    }
  }

  lemma SoundIsNoneNewer(table: Table, s: Sentinel, rows: seq<Stored>)
    requires IsSentinel(s, table) && LiveRows(rows, table)
    ensures NoneNewer(rows, s)
  {
    forall x | x in rows ensures s.newest.Some? && x.row.stamp <= s.newest.value {
      var i :| 0 <= i < |rows| && rows[i] == x;
      assert rows[i].uid in table;
    }
  }

  /** A corpus that is back at the anchor kept the anchor's rows at the read in between. */
  lemma KeptAtRead(run: seq<Corpus>, anchor: nat, read: nat, now: nat)
    requires CorpusRun(run) && anchor <= read <= now < |run| && run[anchor].table == run[now].table
    ensures forall u :: u in run[anchor].table ==> u in run[read].table && run[read].table[u] == run[anchor].table[u]
  {
    SinceThen(run, anchor, anchor);
    SinceThen(run, anchor, read);
    SinceThen(run, read, now);
  }

  /** What a skip leaves published: with the sentinel back at its value, the rows published
      are the live corpus exactly when none of them is newer than the sentinel. */
  lemma SkipIsSoundIff(run: seq<Corpus>, anchor: nat, read: nat, now: nat, s: Sentinel, rows: seq<Stored>)
    requires CorpusRun(run) && anchor <= read <= now < |run|
    requires IsSentinel(s, run[anchor].table) && IsSentinel(s, run[now].table)
    requires LiveRows(rows, run[read].table)
    ensures LiveRows(rows, run[now].table) <==> NoneNewer(rows, s)
  {
    EqualSentinelsEqualCorpora(run, anchor, now, s);
    KeptAtRead(run, anchor, read, now);
    if NoneNewer(rows, s) {
      NoneNewerIsSound(run, anchor, read, s, rows);
    }
    if LiveRows(rows, run[now].table) {
      SoundIsNoneNewer(run[now].table, s, rows);
    }
  }

  /** The files show a table: they hold its live rows. */
  ghost predicate Current(files: map<FileLevel, seq<Line>>, table: Table) {
    exists rows, g :: LiveRows(rows, table) && Holds(files, rows, g)
  }

  /** Published rows can be told from the full file. */
  lemma FilesTell(files: map<FileLevel, seq<Line>>, rows: seq<Stored>, g: nat, table: Table, x: Stored)
    requires Holds(files, rows, g) && x in rows && Current(files, table)
    ensures x.uid in table
  {
    var others, h :| LiveRows(others, table) && Holds(files, others, h);
    assert files[LEVELS[3]] == WholeFile(rows, FullFile, g) == WholeFile(others, FullFile, h);
    OnlyWholeFilesLoad(rows, FullFile, g);
    OnlyWholeFilesLoad(others, FullFile, h);
    BodyHolds(rows, FullFile);
    BodyHolds(others, FullFile);
    assert Frame(x.uid, x.row.full) in Body(others, FullFile);
  }

  /** Of the files themselves: after a pass that skips, they show the corpus it found exactly
      when none of the rows published is newer than the sentinel. */
  lemma SkipKeepsCurrentIff(run: seq<Corpus>, anchor: nat, read: nat, now: nat, s: Sentinel, rows: seq<Stored>,
                            g: nat, files: map<FileLevel, seq<Line>>)
    requires CorpusRun(run) && anchor <= read <= now < |run|
    requires IsSentinel(s, run[anchor].table) && IsSentinel(s, run[now].table)
    requires LiveRows(rows, run[read].table) && Holds(files, rows, g)
    ensures Current(files, run[now].table) <==> NoneNewer(rows, s)
  {
    SkipIsSoundIff(run, anchor, read, now, s, rows);
    if Current(files, run[now].table) {
      EqualSentinelsEqualCorpora(run, anchor, now, s);
      KeptAtRead(run, anchor, read, now);
      forall x | x in rows ensures s.newest.Some? && x.row.stamp <= s.newest.value {
        FilesTell(files, rows, g, run[now].table, x);
        var i :| 0 <= i < |rows| && rows[i] == x;
        assert run[now].table[x.uid] == x.row;
      }
    }
  }

  // ---- Retention and the periodic passes --------------------------------------------

  /** Thirty days, in microseconds. */
  const RETENTION: nat := 30 * 24 * 3600 * 1_000_000

  /** Every hard delete is of rows soft-deleted longer ago than the retention period. */
  ghost predicate Retained(run: seq<Corpus>) {
    forall i, j, u :: 0 <= i && j == i + 1 && j < |run| && u in run[i].table && u !in run[j].table ==>
      run[i].table[u].deleted && u in run[i].marked && run[i].marked[u] + RETENTION < run[i].clock
  }

  /** A row live at some time and deleted later was marked after it. */
  lemma {:induction false} MarkedSince(run: seq<Corpus>, i: nat, j: nat, u: Uid)
    requires CorpusRun(run) && i <= j < |run| && u in run[i].table && !run[i].table[u].deleted
    ensures u in run[j].table && run[j].table[u].deleted && u in run[j].marked ==> run[i].clock < run[j].marked[u]
    decreases j
  {
    if i < j {
      MarkedSince(run, i, j - 1, u);
      SinceThen(run, i, j - 1);
      assert Moves(run[j - 1], run[j]);
    }
  }

  /** One pass of the job over a run: where its anchor and its rows are read, and whether it
      fails before publishing. */
  datatype Pass = Pass(anchor: nat, read: nat, fails: bool)

  /** Passes run one after another. */
  predicate Scheduled(run: seq<Corpus>, passes: seq<Pass>) {
    && (forall k :: 0 <= k < |passes| ==> passes[k].anchor <= passes[k].read < |run|)
    && forall k, l :: 0 <= k < l < |passes| ==> passes[k].read <= passes[l].anchor
  }

  /** In every stretch longer than the retention period some pass begins and does not fail. */
  ghost predicate Regular(run: seq<Corpus>, passes: seq<Pass>) {
    forall i, j :: 0 <= i <= j < |run| && run[i].clock + RETENTION < run[j].clock ==>
      exists k :: 0 <= k < |passes| && i <= passes[k].anchor <= j && !passes[k].fails
  }

  /** The last state of a stretch that still has the row. */
  lemma {:induction false} LastSeen(run: seq<Corpus>, i: nat, j: nat, u: Uid) returns (x: nat)
    requires i <= j < |run| && u in run[i].table && u !in run[j].table
    ensures i <= x < j && u !in run[x + 1].table && forall k :: i <= k <= x ==> u in run[k].table
    decreases j - i
  {
    if u !in run[i + 1].table {
      x := i;
    } else {
      x := LastSeen(run, i + 1, j, u);
    }
  }

  /** A row gone since it was read live was there, while a pass began that did not fail. */
  lemma SeenWhileRetained(run: seq<Corpus>, passes: seq<Pass>, read: nat, now: nat, u: Uid) returns (k: nat)
    requires CorpusRun(run) && Retained(run) && Regular(run, passes) && read <= now < |run|
    requires u in run[read].table && !run[read].table[u].deleted && u !in run[now].table
    ensures k < |passes| && !passes[k].fails && read <= passes[k].anchor < now && u in run[passes[k].anchor].table
  {
    var x := LastSeen(run, read, now, u);
    MarkedSince(run, read, x, u);
    assert run[read].clock + RETENTION < run[x].clock by {
      var y := x + 1;
      assert u in run[x].table && u !in run[y].table;
    }
    k :| 0 <= k < |passes| && read <= passes[k].anchor <= x && !passes[k].fails;
  }

  /** Pass `b` published what the job still serves at pass `n`: every pass since then failed
      or found the sentinel unchanged. */
  ghost predicate Serves(run: seq<Corpus>, passes: seq<Pass>, b: nat, n: nat, s: Sentinel, rows: seq<Stored>) {
    && b < n <= |passes| && Scheduled(run, passes)
    && IsSentinel(s, run[passes[b].anchor].table) && LiveRows(rows, run[passes[b].read].table)
    && forall k :: b < k < n && !passes[k].fails ==> IsSentinel(s, run[passes[k].anchor].table)
  }

  /** A pass that began after pass `b` had read its rows and before pass `n` lies between the
      two, or shares the anchor of `b`. */
  lemma PassesInOrder(run: seq<Corpus>, passes: seq<Pass>, b: nat, k: nat, n: nat)
    requires Scheduled(run, passes) && b < |passes| && k < |passes| && n < |passes|
    requires passes[b].read <= passes[k].anchor < passes[n].anchor
    ensures k < n && (b < k || passes[k].anchor == passes[b].anchor)
  {
  }

  /** Whatever a pass between found that did not fail, pass `b` had found as well. */
  lemma SeenAtAnchor(run: seq<Corpus>, passes: seq<Pass>, b: nat, k: nat, n: nat, s: Sentinel, rows: seq<Stored>)
    requires CorpusRun(run) && Serves(run, passes, b, n, s, rows) && k < n < |passes| && !passes[k].fails
    requires b < k || passes[k].anchor == passes[b].anchor
    ensures run[passes[k].anchor].table == run[passes[b].anchor].table
  {
    if b < k {
      EqualSentinelsEqualCorpora(run, passes[b].anchor, passes[k].anchor, s);
    }
  }

  /** A row the files hold is still in the corpus when its sentinel is back: it would have
      been seen, before it could be deleted, by a pass that then would have rebuilt. */
  lemma StillThere(run: seq<Corpus>, passes: seq<Pass>, b: nat, n: nat, s: Sentinel, rows: seq<Stored>, u: Uid)
    requires CorpusRun(run) && Retained(run) && Regular(run, passes)
    requires Serves(run, passes, b, n, s, rows) && n < |passes|
    requires run[passes[b].anchor].table == run[passes[n].anchor].table
    requires u in run[passes[b].read].table && !run[passes[b].read].table[u].deleted
    ensures u in run[passes[n].anchor].table
  {
    if u !in run[passes[n].anchor].table {
      var k := SeenWhileRetained(run, passes, passes[b].read, passes[n].anchor, u);
      PassesInOrder(run, passes, b, k, n);
      SeenAtAnchor(run, passes, b, k, n, s, rows);
    }
  }

  /** With hard deletes held back for the retention period and a pass that does not fail in
      every such period, skipping is sound. */
  lemma RegularSkipsAreSound(run: seq<Corpus>, passes: seq<Pass>, b: nat, n: nat, s: Sentinel, rows: seq<Stored>)
    requires CorpusRun(run) && Retained(run) && Regular(run, passes)
    requires Serves(run, passes, b, n, s, rows) && n < |passes| && IsSentinel(s, run[passes[n].anchor].table)
    ensures LiveRows(rows, run[passes[n].anchor].table)
  {
    var anchor, read, now := passes[b].anchor, passes[b].read, passes[n].anchor;
    EqualSentinelsEqualCorpora(run, anchor, now, s);
    KeptAtRead(run, anchor, read, now);
    SkipIsSoundIff(run, anchor, read, now, s, rows);
    forall x | x in rows ensures s.newest.Some? && x.row.stamp <= s.newest.value {
      var i :| 0 <= i < |rows| && rows[i] == x;
      StillThere(run, passes, b, n, s, rows, x.uid);
    }
  }

  lemma ServesOn(run: seq<Corpus>, passes: seq<Pass>, b: nat, i: nat, s: Sentinel, rows: seq<Stored>)
    requires Serves(run, passes, b, i, s, rows) && i < |passes|
    requires passes[i].fails || IsSentinel(s, run[passes[i].anchor].table)
    ensures Serves(run, passes, b, i + 1, s, rows)
  {
  }

  lemma ServesAfresh(run: seq<Corpus>, passes: seq<Pass>, i: nat, s: Sentinel, rows: seq<Stored>)
    requires Scheduled(run, passes) && i < |passes|
    requires IsSentinel(s, run[passes[i].anchor].table) && LiveRows(rows, run[passes[i].read].table)
    ensures Serves(run, passes, i, i + 1, s, rows)
  {
  }

  lemma HeldIsCurrent(files: map<FileLevel, seq<Line>>, rows: seq<Stored>, g: nat, table: Table)
    requires Holds(files, rows, g) && LiveRows(rows, table)
    ensures Current(files, table)
  {
  }

  /** What the job serves after the first `n` passes: nothing yet, or what some pass built. */
  ghost predicate Serving(run: seq<Corpus>, passes: seq<Pass>, n: nat, built: Option<Sentinel>,
                          files: map<FileLevel, seq<Line>>) {
    built.Some? ==>
      exists b, rows, g :: Serves(run, passes, b, n, built.value, rows) && Holds(files, rows, g)
  }

  /** What the last pass left: the corpus it found when it skipped, the one it read when it
      published. */
  ghost predicate Fresh(run: seq<Corpus>, pass: Pass, skipped: bool, files: map<FileLevel, seq<Line>>) {
    pass.anchor < |run| && pass.read < |run|
    && (skipped ==> Current(files, run[pass.anchor].table))
    && (!skipped && !pass.fails ==> Current(files, run[pass.read].table))
  }

  lemma KeptPass(run: seq<Corpus>, passes: seq<Pass>, i: nat, s: Sentinel, built: Option<Sentinel>, skipped: bool,
                 files: map<FileLevel, seq<Line>>)
    requires CorpusRun(run) && Retained(run) && Regular(run, passes) && Scheduled(run, passes)
    requires i < |passes| && Serving(run, passes, i, built, files) && IsSentinel(s, run[passes[i].anchor].table)
    requires if skipped then built == Some(s) else passes[i].fails
    ensures Serving(run, passes, i + 1, built, files) && Fresh(run, passes[i], skipped, files)
  {
    if built.Some? {
      var b, rows, g :| Serves(run, passes, b, i, built.value, rows) && Holds(files, rows, g);
      ServesOn(run, passes, b, i, built.value, rows);
      if skipped {
        RegularSkipsAreSound(run, passes, b, i, s, rows);
        HeldIsCurrent(files, rows, g, run[passes[i].anchor].table);
      }
    }
  }

  lemma BuiltPass(run: seq<Corpus>, passes: seq<Pass>, i: nat, s: Sentinel, rows: seq<Stored>, g: nat,
                  files: map<FileLevel, seq<Line>>)
    requires Scheduled(run, passes) && i < |passes| && IsSentinel(s, run[passes[i].anchor].table)
    requires LiveRows(rows, run[passes[i].read].table) && Holds(files, rows, g)
    ensures Serving(run, passes, i + 1, Some(s), files) && Fresh(run, passes[i], false, files)
  {
    ServesAfresh(run, passes, i, s, rows);
    HeldIsCurrent(files, rows, g, run[passes[i].read].table);
  }

  /** The periodic passes of one process. When hard deletes are held back and passes regular,
      a pass that skips leaves files that show the corpus it found; one that publishes leaves
      files of the corpus it read. */
  method RunPasses(run: seq<Corpus>, passes: seq<Pass>, batch: nat) returns (job: SnapshotJob, skipped: bool)
    requires 0 < batch && passes != []
    requires CorpusRun(run) && Retained(run) && Scheduled(run, passes) && Regular(run, passes)
    ensures fresh(job) && Fresh(run, passes[|passes| - 1], skipped, job.files)
  {
    job := new SnapshotJob();
    skipped := false;
    for i := 0 to |passes|
      invariant fresh(job) && Serving(run, passes, i, job.builtFrom, job.files)
      invariant 0 < i ==> Fresh(run, passes[i - 1], skipped, job.files)
    {
      var pass := passes[i];
      var sentinel;
      ghost var rows;
      ghost var before := job.builtFrom;
      skipped, sentinel, rows := job.Generate(run[pass.anchor].table, run[pass.anchor].clock, run[pass.read].table,
                                              batch, pass.fails);
      if skipped || pass.fails {
        KeptPass(run, passes, i, sentinel, before, skipped, job.files);
      } else {
        BuiltPass(run, passes, i, sentinel, rows, run[pass.anchor].clock, job.files);
      }
    }
  }

  lemma StaleRun(u: Uid, row: Row, gone: Row, run: seq<Corpus>)
    requires row.stamp == 1 && !row.deleted && gone.stamp == 2 && gone.deleted && |run| == 5
    requires run[0] == Corpus(map[], 0, map[]) && run[1] == Corpus(map[u := row], 1, map[u := 1])
    requires run[2] == Corpus(map[u := gone], 2, map[u := 2])
    requires run[3] == Corpus(map[u := gone], 3 + RETENTION, map[u := 2])
    requires run[4] == Corpus(map[], 3 + RETENTION, map[u := 2])
    ensures CorpusRun(run) && Retained(run)
  {
    assert map[][u := row] == map[u := row] && map[u := row][u := gone] == map[u := gone];
    assert Upsert(run[0], run[1], u, row);
    assert Upsert(run[1], run[2], u, gone);
    assert Moves(run[2], run[3]);
    assert run[3].table - {u} == map[];
    assert Moves(run[3], run[4]);
  }

  lemma StaleServes(u: Uid, row: Row, run: seq<Corpus>, passes: seq<Pass>)
    requires |run| == 5 && run[0].table == map[] && run[1].table == map[u := row] && run[4].table == map[]
    requires !row.deleted && passes == [Pass(0, 1, false), Pass(3, 3, true), Pass(4, 4, false)]
    ensures Serves(run, passes, 0, 2, Sentinel(0, None), [Stored(u, row)])
    ensures IsSentinel(Sentinel(0, None), run[4].table)
  {
    var rows := [Stored(u, row)];
    assert rows[0] == Stored(u, run[1].table[u]);
  }

  /** Without a pass in the meantime it is not: a row inserted between a pass's anchor and
      its read, soft-deleted, kept for the retention period and then hard-deleted, while every
      pass in between failed, leaves the corpus as the anchor found it and the row published. */
  lemma FailingPassesLeaveStale(u: Uid, row: Row, gone: Row, g: nat, files: map<FileLevel, seq<Line>>)
      returns (run: seq<Corpus>, passes: seq<Pass>)
    requires row.stamp == 1 && !row.deleted && gone.stamp == 2 && gone.deleted
    requires Holds(files, [Stored(u, row)], g)
    ensures |run| == 5 && CorpusRun(run) && Retained(run) && Scheduled(run, passes)
    ensures run[3].clock == 30 * 24 * 3600 * 1_000_000 + 3
    ensures passes == [Pass(0, 1, false), Pass(3, 3, true), Pass(4, 4, false)]
    ensures Serves(run, passes, 0, 2, Sentinel(0, None), [Stored(u, row)])
    ensures IsSentinel(Sentinel(0, None), run[4].table) && !Current(files, run[4].table)
  {
    run := [Corpus(map[], 0, map[]), Corpus(map[u := row], 1, map[u := 1]), Corpus(map[u := gone], 2, map[u := 2]),
            Corpus(map[u := gone], 3 + RETENTION, map[u := 2]), Corpus(map[], 3 + RETENTION, map[u := 2])];
    passes := [Pass(0, 1, false), Pass(3, 3, true), Pass(4, 4, false)];
    StaleRun(u, row, gone, run);
    StaleServes(u, row, run, passes);
    var rows := [Stored(u, row)];
    if Current(files, run[4].table) {
      FilesTell(files, rows, g, run[4].table, rows[0]);
    }
  }

  /** A client that loaded a published file may connect with its anchor as cursor, at the
      member and full levels: the file is honest about every row up to the anchor. */
  lemma SnapshotIsHonest(c: Conf, anchor: Table, read: Table, now: Table, g: nat, rows: seq<Stored>)
    requires BaseLevel(c) != Public && Timeline(anchor, read, now, g) && LiveRows(rows, read)
    requires forall u :: u in read ==> Sound(read[u])
    ensures Honest(c, ApplyAll(map[], Body(rows, FileOf(BaseLevel(c)))), now, Some(g))
  {
    var store := ApplyAll(map[], Body(rows, FileOf(BaseLevel(c))));
    forall u
      ensures Get(store, u)
           == if u in read && !read[u].deleted then ShownColumn(Column(read[u], BaseLevel(c))) else None
    {
      LoadedShows(read, rows, BaseLevel(c), u);
    }
    forall u | u in now ensures Streams(BaseLevel(c), now[u]) {
      StreamedAbovePublic(BaseLevel(c), now[u]);
    }
  }
}
