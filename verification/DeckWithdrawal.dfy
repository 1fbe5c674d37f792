/** Taking private decks back when their event ends: the decks are saved again, broadcast, and
    pushed to each organizer in turn. */
module DeckWithdrawal {
  import opened Base
  import opened AccessLevels
  import opened Entitlement
  import opened Frames
  import opened PullPush
  import opened CoalescingQueues
  import opened Replication
  import opened SyncCursor
  import opened QueueDrain

  // ---- A targeted push --------------------------------------------------------------

  /** One object for one user: what the level rule is asked, the object's data, and the time a
      tombstone would carry. */
  datatype Push = Push(ty: ObjectType, uid: Uid, data: Dict, country: Option<string>, orgUids: set<Uid>,
                       objUserUid: Option<string>, at: nat)

  /** The payload every connection of the user is sent: the entitled projection, or, where the
      level has none, a tombstone. */
  function PersonalMessage(v: Viewer, p: Push): Dict {
    var projection := Compute(p.ty, EntitledLevel(Some(v), p.ty, p.uid, p.country, p.orgUids, p.objUserUid), p.data);
    if projection.Some? then projection.value else Tombstone(p.uid, p.at)
  }

  /** The push asks the level rule what the broadcast of the stored row does. */
  predicate PushOf(table: Table, u: Uid, p: Push) {
    && u in table && p.uid == u && p.ty == table[u].ty && table[u] == Project(p.ty, p.data, table[u].stamp)
    && p.country == StrField(table[u].full, "country") && p.orgUids == OrgUids(table, table[u])
    && p.objUserUid == StrField(table[u].full, "user_uid")
  }

  /** The push makes up for the silence of the shared broadcast: it says what that says, and
      sends the tombstone exactly where that sends nothing or retracts. */
  lemma PersonalMakesUp(v: Viewer, before: Table, after: Table, u: Uid, p: Push)
    requires PushOf(after, u, p)
    ensures PersonalMessage(v, p)
         == (var bd := SaveObject(before, after, u);
             var msg := MessageFor(Some(v), bd);
             if msg.None? || BroadcastLevel(Some(v), bd) in bd.retracted then Tombstone(u, p.at) else msg.value)
    ensures Shown(PersonalMessage(v, p)) == ShownColumn(Column(after[u], RowLevel(Some(v), after, u, after[u])))
  {
    var level := RowLevel(Some(v), after, u, after[u]);
    assert BroadcastLevel(Some(v), SaveObject(before, after, u)) == level;
    assert Column(after[u], level) == Compute(p.ty, level, p.data);
  }

  // ---- The decks taken back ---------------------------------------------------------

  predicate PrivateDeck(table: Table, t: Uid, d: Uid) {
    && d in table && table[d].ty == DECK && !table[d].deleted
    && StrField(table[d].full, "tournament_uid") == Some(t) && BoolField(table[d].full, "private")
  }

  function PrivateDecks(table: Table, t: Uid): set<Uid> {
    set d | d in table && PrivateDeck(table, t, d)
  }

  /** The deck saved again as it is, but for its time. */
  function Resaved(row: Row, stamp: nat): Row {
    Project(DECK, row.full["modified" := Num(stamp)], stamp)
  }

  function DeckPush(table: Table, d: Uid, at: nat): Push
    requires d in table
  {
    Push(DECK, d, table[d].full, None, OrgUids(table, table[d]), StrField(table[d].full, "user_uid"), at)
  }

  /** A row some save of a deck produced. */
  predicate StoredDeck(row: Row) {
    row == Project(DECK, row.full, row.stamp) && Declared(DECK, row.full)
  }

  lemma SavedDeckIsStored(row: Row)
    requires Saved(row) && row.ty == DECK
    ensures StoredDeck(row)
  {
    var data: Dict :| Declared(row.ty, data) && row == Project(row.ty, data, row.stamp);
    assert row.full == data;
  }

  lemma ResavedIsStored(row: Row, stamp: nat)
    requires StoredDeck(row)
    ensures var again := Resaved(row, stamp);
            && StoredDeck(again) && again.deleted == row.deleted && again.stamp == stamp
            && (again.mem.None? <==> row.mem.None?) && again.pub.None?
            && (forall k :: k != "modified" ==> (k in again.full <==> k in row.full))
            && (forall k :: k != "modified" && k in row.full ==> again.full[k] == row.full[k])
  {
    assert Resaved(row, stamp).full == row.full["modified" := Num(stamp)];
  }

  lemma DeckPushIsPush(table: Table, d: Uid, at: nat)
    requires d in table && table[d].ty == DECK && StoredDeck(table[d])
    ensures PushOf(table, d, DeckPush(table, d, at))
  {
  }

  // ---- The withdrawal ---------------------------------------------------------------

  function ResavedAll(table: Table, stamps: map<Uid, nat>): Table {
    map u | u in table :: if u in stamps then Resaved(table[u], stamps[u]) else table[u]
  }

  /** The event's private decks are saved again at the given times, all after `clock`, and
      nothing else is touched. */
  predicate Withdrawn(table: Table, after: Table, t: Uid, clock: nat, stamps: map<Uid, nat>) {
    && stamps.Keys == PrivateDecks(table, t) && (forall d :: d in stamps ==> clock < stamps[d])
    && after == ResavedAll(table, stamps)
  }

  /** One deck after another is saved, each at a later time. */
  method StampDecks(decks: set<Uid>, clock: nat) returns (order: seq<Uid>, stamps: map<Uid, nat>)
    ensures stamps.Keys == decks && (forall d :: d in stamps ==> clock < stamps[d])
    ensures (forall d :: d in order <==> d in decks)
    ensures forall i, j :: 0 <= i < j < |order| ==> order[i] != order[j] && stamps[order[i]] < stamps[order[j]]
  {
    order, stamps := [], map[];
    var left, now := decks, clock;
    while left != {}
      invariant left <= decks && stamps.Keys == decks - left && clock <= now
      invariant forall d :: d in stamps ==> clock < stamps[d] <= now
      invariant forall d :: d in order <==> d in stamps
      invariant forall i, j :: 0 <= i < j < |order| ==> order[i] != order[j] && stamps[order[i]] < stamps[order[j]]
      decreases left
    {
      var d :| d in left;
      left, now := left - {d}, now + 1;
      order, stamps := order + [d], stamps[d := now];
    }
  }

  /** A push of a deck to a user. */
  datatype Sent = Sent(user: Uid, deck: Uid)

  /** Every deck to every user. */
  method PushDecks(users: set<Uid>, decks: set<Uid>) returns (pushes: seq<Sent>)
    ensures forall x :: x in pushes <==> x.user in users && x.deck in decks
  {
    pushes := [];
    var waiting := users;
    while waiting != {}
      invariant waiting <= users
      invariant forall x :: x in pushes <==> x.user in users - waiting && x.deck in decks
      decreases waiting
    {
      var v :| v in waiting;
      waiting := waiting - {v};
      var left := decks;
      while left != {}
        invariant left <= decks
        invariant forall x :: x in pushes <==>
                    x.deck in decks && (x.user in users - waiting - {v} || (x.user == v && x.deck !in left))
        decreases left
      {
        var d :| d in left;
        left := left - {d};
        pushes := pushes + [Sent(v, d)];
      }
    }
  }

  function NewsOf(table: Table, after: Table, order: seq<Uid>): (news: seq<BroadcastData>)
    requires forall d :: d in order ==> d in after
    ensures |news| == |order| && forall i :: 0 <= i < |order| ==> news[i] == SaveObject(table, after, order[i])
  {
    seq(|order|, i requires 0 <= i < |order| && order[i] in after => SaveObject(table, after, order[i]))
  }

  lemma NewsAnnounce(table: Table, after: Table, decks: set<Uid>, order: seq<Uid>)
    requires decks <= after.Keys && (forall d :: d in order <==> d in decks)
    requires forall i, j :: 0 <= i < j < |order| ==> order[i] != order[j]
    ensures Announces(NewsOf(table, after, order), table, after, decks)
  {
    var news := NewsOf(table, after, order);
    assert forall i :: 0 <= i < |news| ==> order[i] in order && news[i].uid == order[i];
    forall d | d in decks ensures exists i :: 0 <= i < |news| && news[i].uid == d {
      var i :| 0 <= i < |order| && order[i] == d;
      assert news[i].uid == d;
    }
  }

  /** The private decks are saved, the saves broadcast, and each deck pushed to each organizer. */
  method WithdrawPrivateDecks(table: Table, t: Uid, clock: nat)
    returns (after: Table, stamps: map<Uid, nat>, news: seq<BroadcastData>, pushes: seq<Sent>)
    requires TournamentRow(table, t)
    ensures Withdrawn(table, after, t, clock, stamps) && Announces(news, table, after, PrivateDecks(table, t))
    ensures forall x :: x in pushes <==>
              x.user in StringsField(table[t].full, "organizers_uids") && x.deck in PrivateDecks(table, t)
    ensures forall d :: d in stamps <==>
              d in table && table[d].ty == DECK && !table[d].deleted && BoolField(table[d].full, "private")
              && StrField(table[d].full, "tournament_uid") == Some(t)
  {
    var decks := PrivateDecks(table, t);
    var order;
    order, stamps := StampDecks(decks, clock);
    after := ResavedAll(table, stamps);
    news := NewsOf(table, after, order);
    NewsAnnounce(table, after, decks, order);
    pushes := PushDecks(StringsField(table[t].full, "organizers_uids"), decks);
  }

  // ---- What it does -----------------------------------------------------------------

  /** A deck members are not shown, and neither is this viewer: they neither own it nor
      organize its event while it is theirs to read, nor are they IC. */
  predicate Withheld(v: Viewer, table: Table, d: Uid) {
    && d in table && table[d].ty == DECK && !table[d].deleted && table[d].mem.None?
    && BaseDataLevel(Some(v)) == Member && RowLevel(Some(v), table, d, table[d]) != Full
  }

  /** To them the shared broadcast of the save is silent, as it was before: nothing they were
      sent by level has gone. The push says what it leaves out. */
  lemma ResaveIsSilentIff(v: Viewer, before: Table, after: Table, d: Uid, at: nat)
    requires d in before && d in after && StoredDeck(before[d]) && before[d].ty == DECK
    requires after[d] == Resaved(before[d], after[d].stamp) && !after[d].deleted && BaseDataLevel(Some(v)) == Member
    ensures MessageFor(Some(v), SaveObject(before, after, d)).None? <==> Withheld(v, after, d)
    ensures PersonalMessage(v, DeckPush(after, d, at))
         == (var msg := MessageFor(Some(v), SaveObject(before, after, d));
             if msg.None? then Tombstone(d, at) else msg.value)
  {
    ResavedIsStored(before[d], after[d].stamp);
    DeckPushIsPush(after, d, at);
    PersonalMakesUp(v, before, after, d, DeckPush(after, d, at));
  }

  lemma ResaveSendsNothing(v: Viewer, before: Table, after: Table, d: Uid)
    requires d in before && d in after && StoredDeck(before[d]) && before[d].ty == DECK
    requires after[d] == Resaved(before[d], after[d].stamp) && Withheld(v, after, d)
    ensures FramesFor(Some(v), [SaveObject(before, after, d)]) == []
  {
    ResaveIsSilentIff(v, before, after, d, 0);
    NoMessageNoFrame(v, SaveObject(before, after, d));
  }

  lemma NoMessageNoFrame(v: Viewer, bd: BroadcastData)
    requires MessageFor(Some(v), bd).None?
    ensures FramesFor(Some(v), [bd]) == []
  {
    assert [bd][..0] == [];
  }

  /** A frame put last decides what its object is shown as. */
  lemma LastPutDecides(store: Store, queue: seq<Slot<Uid, Message>>, f: Frame)
    requires Keyed(queue) && Distinct(queue)
    ensures Get(Outcome(store, Enqueued(queue, [f])), f.uid) == Shown(f.payload)
    ensures Get(Outcome(store, Enqueued(queue, [])), f.uid) == Get(Outcome(store, queue), f.uid)
  {
    OutcomeOfEnqueued(store, queue, [f], f.uid);
  }

  /** Connected: the save alone leaves the client showing whatever it showed or had queued; the
      push takes the deck off it. */
  lemma PushEvicts(v: Viewer, before: Table, after: Table, d: Uid, at: nat, store: Store,
                   queue: seq<Slot<Uid, Message>>)
    requires d in before && d in after && StoredDeck(before[d]) && before[d].ty == DECK
    requires after[d] == Resaved(before[d], after[d].stamp) && Withheld(v, after, d)
    requires Keyed(queue) && Distinct(queue)
    ensures var shared := FramesFor(Some(v), [SaveObject(before, after, d)]);
            Get(Outcome(store, Enqueued(queue, shared)), d) == Get(Outcome(store, queue), d)
    ensures var shared := FramesFor(Some(v), [SaveObject(before, after, d)]);
            var pushed := shared + [Frame(d, PersonalMessage(v, DeckPush(after, d, at)))];
            Get(Outcome(store, Enqueued(queue, pushed)), d) == None
  {
    var push := Frame(d, Tombstone(d, at));
    assert PersonalMessage(v, DeckPush(after, d, at)) == push.payload by {
      ResaveIsSilentIff(v, before, after, d, at);
    }
    ResaveSendsNothing(v, before, after, d);
    LastPutDecides(store, queue, push);
    assert [] + [push] == [push];
  }

  /** Reconnecting: the catch-up takes the deck off the client exactly when it was saved past
      the client's cursor, which is what saving it again is for. */
  lemma ReconnectEvictsIff(v: Viewer, now: Table, since: Option<nat>, store: Store, base: seq<Frame>,
                           overlay: seq<Frame>, d: Uid)
    requires Withheld(v, now, d) && Sound(now[d])
    requires CarriesDelta(base, Member, now, since) && CarriesOverlay(overlay, v, now)
    ensures Get(ApplyAll(ApplyAll(store, base), overlay), d) == if After(since, now[d]) then None else Get(store, d)
    ensures d !in ApplyAll(ApplyAll(store, base), overlay) <==> d !in store || After(since, now[d])
  {
    StreamedAbovePublic(Member, now[d]);
    if InOverlay(v, now, d) {
      var q :| Selects(q, v, now, d);
      OverlayIsEntitled(v, now, d, q);
    }
    Unmentioned(ApplyAll(store, base), overlay, d);
    if After(since, now[d]) {
      Mentioned(store, base, d, Tombstone(d, now[d].stamp));
    } else {
      Unmentioned(store, base, d);
    }
  }

  /** An event has ended, and this member reads one of its private decks no other way than by
      having organized it. */
  predicate TakenFrom(v: Viewer, table: Table, t: Uid, d: Uid) {
    && BaseDataLevel(Some(v)) == Member && TournamentRow(table, t)
    && StrField(table[t].full, "state") == Some("Finished")
    && d in table && table[d].ty == DECK && !table[d].deleted && BoolField(table[d].full, "private")
    && StrField(table[d].full, "tournament_uid") == Some(t)
    && table[d].mem.None? && StrField(table[d].full, "user_uid") != Some(v.uid)
  }

  lemma TakenIsWithheld(v: Viewer, table: Table, after: Table, t: Uid, clock: nat, stamps: map<Uid, nat>, d: Uid)
    requires Withdrawn(table, after, t, clock, stamps) && TakenFrom(v, table, t, d) && StoredDeck(table[d])
    ensures d in after && after[d] == Resaved(table[d], after[d].stamp) && StoredDeck(after[d])
    ensures clock < after[d].stamp && Withheld(v, after, d)
  {
    ResavedIsStored(table[d], stamps[d]);
    assert after[t] == table[t];
    assert OrgUids(after, after[d]) == {};
  }

  /** So taking the decks back makes up for what the fingerprint does not see: whoever loses a
      deck by the event's end has it evicted by the push if connected, since the shared
      broadcast says nothing, and by the catch-up of a reconnect from before the withdrawal. */
  lemma EndingIsCovered(v: Viewer, table: Table, after: Table, t: Uid, clock: nat, stamps: map<Uid, nat>, d: Uid,
                        at: nat, since: Option<nat>, store: Store, base: seq<Frame>, overlay: seq<Frame>)
    requires Withdrawn(table, after, t, clock, stamps) && TakenFrom(v, table, t, d) && Saved(table[d])
    requires CarriesDelta(base, Member, after, since) && CarriesOverlay(overlay, v, after)
    ensures FramesFor(Some(v), [SaveObject(table, after, d)]) == []
    ensures PersonalMessage(v, DeckPush(after, d, at)) == map["uid" := Str(d), "deleted_at" := Num(at)]
    ensures since.None? || since.value <= clock ==> d !in ApplyAll(ApplyAll(store, base), overlay)
  {
    SavedDeckIsStored(table[d]);
    TakenIsWithheld(v, table, after, t, clock, stamps, d);
    ResaveSendsNothing(v, table, after, d);
    ResaveIsSilentIff(v, table, after, d, at);
    assert Saved(after[d]) by {
      assert after[d] == Project(after[d].ty, after[d].full, after[d].stamp);
    }
    SavedIsSound(after[d]);
    ReconnectEvictsIff(v, after, since, store, base, overlay, d);
  }
}
