/** Catch-up streaming: keyset-paged batches ordered by (modified_at, uid), each read from
    the table as it stands at that fetch. */
module KeysetPaging {
  import opened Base
  import opened AccessLevels
  import opened Entitlement
  import opened Frames

  // ---- Keys -------------------------------------------------------------------------

  datatype Key = Key(stamp: nat, uid: Uid)

  predicate TextLess(a: string, b: string) {
    b != [] && (a == [] || a[0] < b[0] || (a[0] == b[0] && TextLess(a[1..], b[1..])))
  }

  predicate KeyLess(a: Key, b: Key) {
    a.stamp < b.stamp || (a.stamp == b.stamp && TextLess(a.uid, b.uid))
  }

  lemma {:induction false} TextOrder(a: string, b: string)
    ensures TextLess(a, b) || a == b || TextLess(b, a)
    ensures !(TextLess(a, b) && TextLess(b, a))
  {
    if a != [] && b != [] && a[0] == b[0] {
      TextOrder(a[1..], b[1..]);
      assert a == [a[0]] + a[1..] && b == [b[0]] + b[1..];
    }
  }

  lemma {:induction false} TextTransitive(a: string, b: string, c: string)
    requires TextLess(a, b) && TextLess(b, c)
    ensures TextLess(a, c)
  {
    if a != [] && a[0] == b[0] && b[0] == c[0] {
      TextTransitive(a[1..], b[1..], c[1..]);
    }
  }

  lemma KeyOrder(a: Key, b: Key)
    ensures KeyLess(a, b) || a == b || KeyLess(b, a)
    ensures !(KeyLess(a, b) && KeyLess(b, a)) && !KeyLess(a, a)
  {
    TextOrder(a.uid, b.uid);
    TextOrder(a.uid, a.uid);
  }

  lemma KeyTransitive(a: Key, b: Key, c: Key)
    requires KeyLess(a, b) && KeyLess(b, c)
    ensures KeyLess(a, c)
  {
    if a.stamp == b.stamp && b.stamp == c.stamp {
      TextTransitive(a.uid, b.uid, c.uid);
    }
  }

  // ---- Pages ------------------------------------------------------------------------

  /** Decks are retracted at member level: their NULL rows are streamed as tombstones. */
  predicate Retracts(level: Level, ty: ObjectType) {
    level == Member && ty == DECK
  }

  predicate Streams(level: Level, row: Row) {
    Column(row, level).Some? || Retracts(level, row.ty)
  }

  /** The payload a streamed row carries. */
  function StreamedPayload(level: Level, uid: Uid, row: Row): Dict {
    if Column(row, level).Some? then Column(row, level).value else Tombstone(uid, row.stamp)
  }

  datatype Query = Query(ty: ObjectType, level: Level, since: Option<nat>)

  predicate Matches(q: Query, row: Row) {
    && row.ty == q.ty && Streams(q.level, row)
    && (q.since.Some? ==> q.since.value < row.stamp)
  }

  function KeyOf(table: Table, uid: Uid): Key
    requires uid in table
  {
    Key(table[uid].stamp, uid)
  }

  /** The first page filters on `since`, later ones on the last key delivered. */
  predicate Beyond(q: Query, cursor: Option<Key>, table: Table, uid: Uid)
    requires uid in table
  {
    if cursor.Some? then
      table[uid].ty == q.ty && Streams(q.level, table[uid]) && KeyLess(cursor.value, KeyOf(table, uid))
    else
      Matches(q, table[uid])
  }

  predicate Ascending(table: Table, page: seq<Uid>)
    requires forall u :: u in page ==> u in table
  {
    forall i, j :: 0 <= i < j < |page| ==> KeyLess(KeyOf(table, page[i]), KeyOf(table, page[j]))
  }

  /** `page` is the answer to the batch query: the least keys beyond the cursor. */
  ghost predicate IsPage(q: Query, cursor: Option<Key>, limit: nat, table: Table, page: seq<Uid>) {
    && |page| <= limit
    && (forall u :: u in page ==> u in table && Beyond(q, cursor, table, u))
    && Ascending(table, page)
    && (forall u :: u in table && Beyond(q, cursor, table, u) && u !in page ==>
          |page| == limit && (page != [] ==> KeyLess(KeyOf(table, page[|page| - 1]), KeyOf(table, u))))
  }

  method LeastKey(table: Table, candidates: set<Uid>) returns (least: Uid)
    requires candidates != {} && candidates <= table.Keys
    ensures least in candidates
    ensures forall u :: u in candidates && u != least ==> KeyLess(KeyOf(table, least), KeyOf(table, u))
  {
    least :| least in candidates;
    var left := candidates - {least};
    while left != {}
      invariant left <= candidates && least in candidates && least !in left
      invariant forall u :: u in candidates && u !in left && u != least ==>
                  KeyLess(KeyOf(table, least), KeyOf(table, u))
      decreases left
    {
      var u :| u in left;
      left := left - {u};
      KeyOrder(KeyOf(table, least), KeyOf(table, u));
      if KeyLess(KeyOf(table, u), KeyOf(table, least)) {
        forall w | w in candidates && w !in left && w != u && w != least
          ensures KeyLess(KeyOf(table, u), KeyOf(table, w))
        {
          KeyTransitive(KeyOf(table, u), KeyOf(table, least), KeyOf(table, w));
        }
        least := u;
      }
    }
  }

  /** ORDER BY modified_at, uid LIMIT `limit`. */
  method FetchPage(q: Query, cursor: Option<Key>, limit: nat, table: Table) returns (page: seq<Uid>)
    ensures IsPage(q, cursor, limit, table, page)
  {
    page := [];
    var left := set u | u in table && Beyond(q, cursor, table, u);
    while left != {} && |page| < limit
      invariant |page| <= limit
      invariant forall u :: u in page ==> u in table && Beyond(q, cursor, table, u) && u !in left
      invariant forall u :: u in left ==> u in table && Beyond(q, cursor, table, u)
      invariant forall u :: u in table && Beyond(q, cursor, table, u) ==> u in page || u in left
      invariant Ascending(table, page)
      invariant forall i, u :: 0 <= i < |page| && u in left ==> KeyLess(KeyOf(table, page[i]), KeyOf(table, u))
      decreases left
    {
      var least := LeastKey(table, left);
      left := left - {least};
      page := page + [least];
    }
  }

  // ---- The stream -------------------------------------------------------------------

  predicate Newer(table: Table, stamp: nat) {
    forall u :: u in table ==> table[u].stamp < stamp
  }

  /** What committed writes do to the table: no row is hard-deleted, and each row written is
      stamped above every existing one. Rows written together may share a stamp. */
  predicate Evolves(before: Table, after: Table) {
    && before.Keys <= after.Keys
    && forall u :: u in after ==> (u in before && after[u] == before[u]) || Newer(before, after[u].stamp)
  }

  datatype Delivery = Delivery(key: Key, payload: Dict)

  function Deliver(level: Level, table: Table, page: seq<Uid>): (r: seq<Delivery>)
    requires forall u :: u in page ==> u in table
    ensures |r| == |page|
    ensures forall i :: 0 <= i < |page| ==>
              r[i] == Delivery(KeyOf(table, page[i]), StreamedPayload(level, page[i], table[page[i]]))
  {
    seq(|page|, i requires 0 <= i < |page| =>
      Delivery(KeyOf(table, page[i]), StreamedPayload(level, page[i], table[page[i]])))
  }

  predicate InOrder(delivered: seq<Delivery>) {
    forall i, j :: 0 <= i < j < |delivered| ==> KeyLess(delivered[i].key, delivered[j].key)
  }

  /** Every matching row with a key up to `bound` was delivered at its current version. */
  ghost predicate Covers(delivered: seq<Delivery>, q: Query, table: Table, bound: Option<Key>) {
    forall u | u in table && Matches(q, table[u]) && (bound.None? || !KeyLess(bound.value, KeyOf(table, u))) ::
        Delivery(KeyOf(table, u), StreamedPayload(q.level, u, table[u])) in delivered
  }

  /** Every delivery is a matching row at the version it had at some fetch. */
  ghost predicate Genuine(delivered: seq<Delivery>, q: Query, history: seq<Table>, fetches: nat)
    requires fetches <= |history|
  {
    forall d :: d in delivered ==> exists i :: 0 <= i < fetches && Version(d, q, history[i])
  }

  ghost predicate Version(d: Delivery, q: Query, table: Table) {
    d.key.uid in table && Matches(q, table[d.key.uid])
    && d == Delivery(KeyOf(table, d.key.uid), StreamedPayload(q.level, d.key.uid, table[d.key.uid]))
  }

  lemma GenuineExtends(q: Query, cursor: Option<Key>, limit: nat, history: seq<Table>, i: nat, page: seq<Uid>,
                       delivered: seq<Delivery>)
    requires i < |history| && IsPage(q, cursor, limit, history[i], page)
    requires cursor.Some? && q.since.Some? ==> q.since.value < cursor.value.stamp
    requires Genuine(delivered, q, history, i)
    ensures Genuine(delivered + Deliver(q.level, history[i], page), q, history, i + 1)
  {
    var sent := Deliver(q.level, history[i], page);
    forall d | d in sent ensures Version(d, q, history[i]) {
      var j :| 0 <= j < |page| && sent[j] == d;
      assert page[j] in page;
    }
  }

  lemma PageBound(q: Query, cursor: Option<Key>, limit: nat, table: Table, page: seq<Uid>,
                  delivered: seq<Delivery>)
    requires IsPage(q, cursor, limit, table, page)
    requires cursor.Some? ==> Covers(delivered, q, table, cursor)
    ensures page != [] ==>
              Covers(delivered + Deliver(q.level, table, page), q, table, Some(KeyOf(table, page[|page| - 1])))
    ensures |page| < limit ==> Covers(delivered + Deliver(q.level, table, page), q, table, None)
  {
    var sent := Deliver(q.level, table, page);
    forall u | u in table && Matches(q, table[u])
      && (|page| == limit && page != [] ==> !KeyLess(KeyOf(table, page[|page| - 1]), KeyOf(table, u)))
      && (|page| < limit || page != [])
      ensures Delivery(KeyOf(table, u), StreamedPayload(q.level, u, table[u])) in delivered + sent
    {
      if cursor.Some? && !KeyLess(cursor.value, KeyOf(table, u)) {
      } else {
        assert Beyond(q, cursor, table, u);
        var i :| 0 <= i < |page| && page[i] == u;
        assert sent[i] == Delivery(KeyOf(table, u), StreamedPayload(q.level, u, table[u]));
      }
    }
  }

  /** Writes between two fetches land beyond the cursor, so what was covered stays covered. */
  lemma CoverSurvives(q: Query, before: Table, after: Table, last: Uid, delivered: seq<Delivery>)
    requires Evolves(before, after) && last in before
    requires Covers(delivered, q, before, Some(KeyOf(before, last)))
    ensures Covers(delivered, q, after, Some(KeyOf(before, last)))
  {
  }

  lemma OrderExtends(q: Query, cursor: Option<Key>, limit: nat, table: Table, page: seq<Uid>, delivered: seq<Delivery>)
    requires IsPage(q, cursor, limit, table, page)
    requires InOrder(delivered)
    requires if cursor.Some? then delivered != [] && delivered[|delivered| - 1].key == cursor.value else delivered == []
    ensures InOrder(delivered + Deliver(q.level, table, page))
  {
    var sent := Deliver(q.level, table, page);
    forall i, j | 0 <= i < |delivered| && 0 <= j < |sent|
      ensures KeyLess(delivered[i].key, sent[j].key)
    {
      assert page[j] in page;
      if i < |delivered| - 1 {
        KeyTransitive(delivered[i].key, cursor.value, sent[j].key);
      }
    }
  }

  /** Between two fetches: what was delivered covers the table of the last fetch up to the
      cursor, the key of the last row delivered. */
  ghost predicate Streaming(q: Query, history: seq<Table>, fetches: nat, delivered: seq<Delivery>,
                            cursor: Option<Key>, last: Uid)
    requires fetches <= |history|
  {
    match cursor
    case None => fetches == 0 && delivered == []
    case Some(key) =>
      && 0 < fetches && (q.since.Some? ==> q.since.value < key.stamp)
      && delivered != [] && delivered[|delivered| - 1].key == key
      && last in history[fetches - 1] && key == KeyOf(history[fetches - 1], last)
      && Covers(delivered, q, history[fetches - 1], cursor)
  }

  lemma BatchKeeps(q: Query, limit: nat, history: seq<Table>, i: nat, cursor: Option<Key>, last: Uid,
                   page: seq<Uid>, delivered: seq<Delivery>)
    requires i < |history| && (0 < i ==> Evolves(history[i - 1], history[i]))
    requires InOrder(delivered) && Genuine(delivered, q, history, i)
    requires Streaming(q, history, i, delivered, cursor, last) && IsPage(q, cursor, limit, history[i], page)
    ensures var next := delivered + Deliver(q.level, history[i], page);
            && InOrder(next) && Genuine(next, q, history, i + 1)
            && (page != [] ==>
                  Streaming(q, history, i + 1, next, Some(KeyOf(history[i], page[|page| - 1])), page[|page| - 1]))
            && (|page| < limit ==> Covers(next, q, history[i], None))
  {
    var table := history[i];
    if cursor.Some? {
      CoverSurvives(q, history[i - 1], table, last, delivered);
    }
    PageBound(q, cursor, limit, table, page, delivered);
    OrderExtends(q, cursor, limit, table, page, delivered);
    GenuineExtends(q, cursor, limit, history, i, page, delivered);
    if page != [] {
      assert page[|page| - 1] in page;
    }
  }

  /** Streams one type. `history[i]` is the table at the i-th fetch; `done` says the stream
      reached its end there. At the end every row matching then, at the version it had then,
      has been delivered; keys only rise, so no version goes out twice, ties in
      `modified_at` across a batch seam included. */
  method StreamObjects(q: Query, batchSize: nat, history: seq<Table>)
    returns (delivered: seq<Delivery>, newest: Option<nat>, fetches: nat, done: bool)
    requires 0 < batchSize
    requires forall i :: 0 <= i < |history| - 1 ==> Evolves(history[i], history[i + 1])
    ensures InOrder(delivered)
    ensures fetches <= |history| && (!done ==> fetches == |history|)
    ensures Genuine(delivered, q, history, fetches)
    ensures done ==> 0 < fetches && Covers(delivered, q, history[fetches - 1], None)
    ensures newest == if delivered == [] then None else Some(delivered[|delivered| - 1].key.stamp)
  {
    delivered, newest, fetches, done := [], None, 0, false;
    var cursor: Option<Key> := None;
    ghost var last: Uid := "";
    while fetches < |history| && !done
      invariant fetches <= |history| && InOrder(delivered)
      invariant Genuine(delivered, q, history, fetches)
      invariant if done then 0 < fetches && Covers(delivered, q, history[fetches - 1], None)
                else Streaming(q, history, fetches, delivered, cursor, last)
      invariant newest == if delivered == [] then None else Some(delivered[|delivered| - 1].key.stamp)
      decreases |history| - fetches
    {
      var table := history[fetches];
      var page := FetchPage(q, cursor, batchSize, table);
      BatchKeeps(q, batchSize, history, fetches, cursor, last, page, delivered);
      var sent := Deliver(q.level, table, page);
      delivered := delivered + sent;
      fetches := fetches + 1;
      if page == [] {
        done := true;
      } else {
        newest := Some(sent[|sent| - 1].key.stamp);
        last := page[|page| - 1];
        done := |page| < batchSize;
        cursor := Some(KeyOf(table, page[|page| - 1]));
      }
    }
  }
}
