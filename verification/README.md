# Verified model of the offline-first corpus and its side engines

The repository keeps a corpus of users, sanctions, tournaments, decks, leagues and promos in one
PostgreSQL table and a replica of it, at the access level each viewer is entitled to, in every
client. This project models that replication pipeline and the four algorithmic side engines around
it, and proves what they promise. Every module is plain Dafny 4.11; `dafny verify dfyconfig.toml`
checks all of it.

## What is modelled

**Replication** (`AccessFields`, `AccessLevels`, `Projections`, `Entitlement`, `Frames`, `PullPush`,
`AccessVersion`, `CoalescingQueues`, `KeysetPaging`, `Replication`, `ReplicationProof`,
`ReplicationRest`, `ReplicationRun`, `ReplicationOverflow`, `QueueDrain`, `DeckWithdrawal`, `SyncCursor`, `CatchUpCursor`,
`LiveCursor`, `SseFraming`, `ClientBuffer`). A save computes four
projections of an object and stamps the row. The row is broadcast to live connections through a
bounded queue that keeps one pending message per object. A connection joins the broadcast set first,
then pages through the types above its cursor, then receives its personal overlay, and only then
drains its queue. `Replication` is a state machine over commits, broadcasts, saves answered to the
device that made them, judge calls, connects, page fetches, overlay reads, queue gets, overflows and
disconnects in any interleaving; its main theorem is `ReplicationProof.Convergence`, and
`ReplicationRun` exhibits a member's run through all of it. `QueueDrain` follows broadcasts through
the queue in whatever order they are made, and `DeckWithdrawal` models the targeted pushes that take
decks back when their event ends. Frames are messages of a Server-Sent Events stream (section 9.2 of the WHATWG HTML Living
Standard); the client store is a last-writer-wins map in which a payload carrying `deleted_at`
evicts. `ClientBuffer` then models the shipped client, which is not quite that store.

The replication theorems rest on these assumptions:

- a client connects with an honest cursor (`Replication.Honest`): its store is right about every row
  stamped up to the cursor. The state machine does not keep the client's own cursor; an empty store, a
  snapshot (`SnapshotJobs.SnapshotIsHonest`) and any cursor at rest (`LiveCursor.RestIsHonest`)
  qualify, and `CatchUpCursor.CursorIsHonestIff` and `LiveCursor.LiveCursorIsHonestIff` say exactly
  when the two cursors the shipped client keeps do, which is not always;
- a transaction writes its rows atomically under one stamp above every earlier one;
- broadcasts of one object happen in commit order; going online breaks this (see below);
- a device whose own save is withheld from it takes the row from the response to that save, with no
  earlier frame about the object still queued for it;
- the viewer's entitlement to each object stays what it is during the run, and an account without a
  VEKN id is neither an NC nor an organizer (`Entitlement.Enrolled`): roles are refused to it
  (`backend/src/routes/users.py:236`), so is organizing (`backend/src/routes/tournaments.py:359-366`),
  and splitting an account takes its roles along with the id (`backend/src/accounts.py:272-288`);
- no row is hard-deleted during the run (`SnapshotJobs` does model hard deletes);
- a live deck has a live tournament; catch-up reads do not fail; the organizer query of the overlay
  and the deck query it feeds are one read.

**Snapshots** (`Snapshots`, `SnapshotJobs`). One pass over the table writes one file per level,
anchored at a time before the read and closed by a line carrying the object count; a sentinel of row
count and newest stamp lets an unchanged corpus skip the work.

**Seating score** (`TableSizes`, `Sums`, `SeatingMatrix`, `SeatingCounts`, `SeatingScore`,
`SeatingLaws`). The count matrix is built in place by nested loops and scanned over half of its
pairs. The score is specified over all pairs of players, and the scan is proved to compute it; what
the columns and the scores count is said without the matrix, by who sat where.

**Promo stock** (`PromoLedger`, `PromoHolders`, `PromoStock`, `PromoConvergence`). Two denormalised indexes are
recomputed from a ledger and from tournament reports.

**Archive** (`Reconciliation`, `ArchiveKeys`, `ArchiveImport`). The collision pass over reviewed
attachments, and the import that places archive keys on tournaments and decks on their winners, with
a crash possible before any write.

**Crawl and ratings** (`MemberCrawl`, `EventScan`, `RatingWindow`, `Ratings`). Prefix subdivision
under a result cap, the upward probe of event ids, the rating window, and the canonical best eight.

`Base` and `Lists` hold shared vocabulary and list lemmas.

## What was found

Where a promise turned out not to hold everywhere, the project states exactly when it does and shows
an input on which it does not:

- The access fingerprint does not see an event end, which takes a private deck from its organizers
  (`AccessVersion.FingerprintSufficesIff`, `AccessVersion.EndingEscapesFingerprint`). Saving the
  decks again makes up for it in two parts. The shared broadcast of that save says nothing to them
  (`DeckWithdrawal.ResaveIsSilentIff`): a connected organizer loses the deck by the targeted push and
  not without it (`DeckWithdrawal.PushEvicts`), a reconnecting one if and only if the deck's new
  stamp is past the client's cursor (`DeckWithdrawal.ReconnectEvictsIff`), as it is for every cursor
  from before the withdrawal (`DeckWithdrawal.EndingIsCovered`).
- Going online with offline sanctions broadcasts the tournament as saved before the standings were
  recomputed (`backend/src/routes/tournaments.py:2296-2309`), after the recomputed save was broadcast
  (`backend/src/routes/sanctions.py:227-229`). Live clients end on the older save, and are right if
  and only if the two read alike (`QueueDrain.LateBroadcastIff`), which two saves that differ in
  `modified` never do (`QueueDrain.LateBroadcastIsStale`).
- The `sync_complete` timestamp can pass a row rewritten after its type was paged and before a later
  type was (`CatchUpCursor.CursorIsHonestIff`, `CatchUpCursor.CursorOvertakes`); without writes during
  the catch-up it cannot (`SyncCursor.QuietCursorIsSafe`).
- The newest `ts` a live client has applied can pass a row still queued: a message replaced in place
  is relayed from its old position (`LiveCursor.LiveCursorIsHonestIff`,
  `ReplicationRun.NewestAppliedOvertakes`).
- At the public level a snapshot plus its delta keeps objects written out of that level since
  (`Snapshots.SnapshotPlusDelta`, `Snapshots.LostRoleLingers`).
- Skipping a snapshot pass on an unchanged sentinel is sound while hard deletes wait thirty days and
  some pass succeeds in every thirty days (`SnapshotJobs.RegularSkipsAreSound`). The sentinel alone
  does not make it so (`SnapshotJobs.SkipKeepsCurrentIff`): were every pass to fail for the whole
  retention period of a row read after its anchor, the row would stay published
  (`SnapshotJobs.FailingPassesLeaveStale`).
- The shipped client saves before it deletes when it flushes its buffers, and applies single frames
  at once. A private deck that the delta retracts and the overlay gives back is dropped, and an own
  profile changed since the cursor ends at member level (`ClientBuffer.CatchUpIsLostIff`,
  `ClientBuffer.OwnDeckIsLost`).
- A soft-deleted user who holds one live promo and carries the stale key of another makes partial
  promo recomputes differ from a full one (`PromoConvergence.SplittingIsHarmlessIff`,
  `PromoConvergence.StaleHolderDiverges`).
- Two archive entries that belong to one event whose winner has no deck each add one in the same
  run, and nothing else adds two: `ArchiveImport.Archive.Run` says so of the corpus and the decisions
  before the run, `ArchiveImport.SettledEventMeets` shows such a pair.

The description of `CategoryRating.total` speaks of the points across the listed tournaments; the
code lists every result and totals the best eight, and the model follows the code.

## Model

| member | source | states |
|---|---|---|
| AccessLevels.DeletionMarkSurvives | backend/src/access_levels.py:95-345 | every projection for the public, for members and in full carries the deletion mark unchanged, so a soft delete evicts at every synced level; no API projection carries it |
| AccessLevels.LevelsNest | backend/src/access_levels.py:95-345 | what the public reads of an object members read too, and what members read is in the full projection, field by field with equal values, but for the cloak on two public contacts |
| AccessLevels.OnlyDecksHideFromMembers | backend/src/access_levels.py:236-317 | only an unpublished deck lacks a member projection, exactly while unpublished, and then has no public or API one either |
| AccessLevels.ContactsFollowTheRole | backend/src/access_levels.py:100-132 | e-mail, Discord handle, phone and its WhatsApp mark are read below the full level only of an official whose role publishes contacts, and through the API of nobody |
| AccessLevels.PublicContactsAreCloaked | backend/src/access_levels.py:12-23 | a contact e-mail or phone the public reads is cloaked |
| AccessLevels.EventSecretsStay | backend/src/access_levels.py:205-226 | check-in codes stay at the full level, out of the API's projection too; an online event's join link stays out of the public one |
| AccessLevels.HoldingsStay | backend/src/access_levels.py:265-317 | promo holdings are in no projection but the full one, and the API has no promos |
| AccessLevels.OwnersStay | backend/src/access_levels.py:236-268 | the owner of an anonymous deck that did not win is in no projection but the full one, the API's included |
| Projections.UsersForMembers | backend/src/access_levels.py:113-141 | of every user members read the listed profile fields, the links of those who publish them and the contacts of those whose role does, each as it is, and the full projection withholds three owner settings only |
| Projections.UsersForThePublic | backend/src/access_levels.py:100-110 | the public reads the card, links and contacts of a publishing official, e-mail and phone cloaked, the card and links of the IC, the links of whoever else has some, and of others nothing |
| Projections.UsersForTheApi | backend/src/access_levels.py:126-132 | the API has the users with a VEKN id, the listed fields of all and the city of six offices |
| Projections.Events | backend/src/access_levels.py:205-230 | of every event the public reads the announcement, members every field but five, and the full projection is the event |
| Projections.EventsForTheApi | backend/src/access_levels.py:218-226 | the API reads every field of an event but the named ones, and of each player, in order, every field but four |
| Projections.Decks | backend/src/access_levels.py:236-258 | members read every field of a published deck but the two private ones, and but the owner of an anonymous one that did not win; of others nothing |
| Projections.DecksForTheApi | backend/src/access_levels.py:249-254 | the API reads the same without the sync fields, and the attribution without its name |
| Projections.OtherObjects | backend/src/access_levels.py:261-317 | sanctions, leagues and promos, for each reader: every field but the named ones |
| Entitlement.SavedIsSound | backend/src/db.py:357-376 | what the write path stores has the shape the sync protocol relies on, projection by projection |
| Entitlement.EntitledShape | backend/src/broadcast.py:105-141 | an enrolled viewer is entitled to an object at the base level, or at full above a member base, and nothing else |
| Entitlement.WhoReadsWhat | backend/src/broadcast.py:97-141 | for each type, exactly who reads a stored object in full, the organizers of a finished event's private deck not among them; anybody else with a VEKN id reads it as a member, others as the public |
| Entitlement.OverlayIsEntitled | backend/src/main.py:981-1080 | the overlay hands a member nothing that a broadcast would not send at full level, and, but for the own profile, nothing deleted |
| Entitlement.OverlayCovers | backend/src/main.py:981-1080 | every live object a member is fully entitled to is in the overlay, or reads the same at member level |
| Frames.StoreFollowsLastFrame | frontend/src/lib/sync.ts:516-531 | a last-writer-wins store shows of each object what the last frame about it shows |
| PullPush.OverlayFrames | backend/src/main.py:981-1080 | the overlay holds exactly the rows its six queries select, each at full level |
| PullPush.PullAgreesWithPush | backend/src/main.py:981-1289 | for every enrolled viewer and every live object of all six types, a fresh connect ends on the projection a broadcast selects, private decks of finished events included |
| PullPush.UnservedAgreement | backend/src/db.py:266-278 | for an account without IC or VEKN id pull and push agree on an object if and only if the broadcast selects the public level, as it does when the account is enrolled, or the public projection is the full one |
| PullPush.EnrolmentIsNeeded | backend/src/broadcast.py:105-141 | the enrolment rule carries the agreement: an NC stripped of the VEKN id alone would be broadcast holdings no connect delivers |
| AccessVersion.FingerprintSufficesIff | backend/src/db.py:294-321 | two viewer states with the same uid and fingerprint receive the same projection of an object stored alike, if and only if it is not a private deck read as an organizer only whose event has ended in one of them alone |
| AccessVersion.FingerprintMovesIff | backend/src/db.py:294-321 | the fingerprint of an account moves if and only if its IC standing does, or its NC standing or an NC's country, or, without IC, its membership or a member's live organized tournaments |
| AccessVersion.EndingEscapesFingerprint | backend/src/db.py:294-321 | an event's end takes a private deck from its organizer without moving the fingerprint |
| CoalescingQueues.CoalescingQueue.PutNowait | backend/src/broadcast.py:37-46 | a put is accepted if and only if its key is pending already or fewer slots than the bound are taken; a pending key takes the new message in its place, a new one is appended, a refused one leaves the queue as it was; the history takes the same step, and the queue stays faithful to it |
| CoalescingQueues.CoalescingQueue.GetNowait | backend/src/broadcast.py:48-52 | the oldest slot is consumed and the rest kept in order, in the queue and in its history |
| CoalescingQueues.CoalescingPreservesMeaning | backend/src/broadcast.py:24-62 | over any interleaving of puts and gets, consumed then pending messages mean per key what all accepted ones do uncoalesced; un-keyed messages survive in order; the bound holds; no key is overtaken by a later one |
| CoalescingQueues.RefusedIff | backend/src/broadcast.py:37-46 | after any interleaving a put is refused if and only if its key is not pending and as many different keys as the bound allows are |
| QueueDrain.OutcomeOfEnqueued | backend/src/broadcast.py:24-62 | putting frames one after another and relaying the queue, coalesced as it is, comes to applying the last frame about each object over what was queued before |
| QueueDrain.RelayKeepsOutcome | backend/src/main.py:1242-1260 | relaying the head of the queue leaves the outcome of draining it as it was, and a client whose queue is empty has reached it |
| QueueDrain.LastBroadcastWins | backend/src/broadcast.py:167-242 | in whatever order broadcasts are made, a live client ends on the last one about each object that it is sent |
| QueueDrain.LateBroadcastIff | backend/src/routes/tournaments.py:2296-2309 | a save broadcast after a later save of the same object is what live clients keep; they end right if and only if both read alike |
| QueueDrain.LateBroadcastIsStale | backend/src/routes/tournaments.py:2296-2309 | two saves of an event that differ in `modified` never read alike to the public, so they end wrong |
| DeckWithdrawal.PersonalMakesUp | backend/src/broadcast.py:304-350 | a push of a stored object says what the shared broadcast of its save says, and sends the tombstone exactly where that sends nothing or retracts; it shows what the viewer may read now |
| DeckWithdrawal.WithdrawPrivateDecks | backend/src/decks.py:186-198 | the event's live private decks, and nothing else, are saved again under later stamps, each save announced once, and each deck pushed to each organizer |
| DeckWithdrawal.ResaveIsSilentIff | backend/src/decks.py:186-198 | the shared broadcast of a re-saved deck says nothing to a member if and only if the deck is withheld from them; the push says what it leaves out |
| DeckWithdrawal.PushEvicts | backend/src/decks.py:162-183 | a live client of a member the deck is withheld from goes on showing what it showed or had queued, save and broadcast notwithstanding; with the push it ends without the deck |
| DeckWithdrawal.ReconnectEvictsIff | backend/src/decks.py:186-198 | a reconnect takes a withheld deck off the client if and only if the deck's stamp is past the cursor; else the client keeps its copy |
| DeckWithdrawal.EndingIsCovered | backend/src/decks.py:186-198 | of a deck a member read only as an organizer of the ended event, the withdrawal sends nothing shared, a tombstone by push, and leaves none after a reconnect from before it |
| KeysetPaging.FetchPage | backend/src/db.py:571-589 | a page is the least keys beyond the cursor, ascending, and leaves out a matching row only when full of smaller keys |
| KeysetPaging.CoverSurvives | backend/src/db.py:574-584 | writes between two fetches land beyond the cursor, so what was covered stays covered |
| KeysetPaging.StreamObjects | backend/src/db.py:541-604 | over a table that changes between pages, delivered keys strictly rise, each delivery is a version of some fetch, and at the end every row matching at the last fetch was delivered at its version then |
| Replication.OutgoingWithout | backend/src/broadcast.py:167-242 | broadcasting the oldest save of an object leaves what the rest of the outbox will say about it, or was its last word |
| ReplicationProof.WriteMessage | backend/src/db.py:431-452 | a save sends each viewer what they should now see, and sends nothing only when they saw and see nothing |
| ReplicationProof.CommitKeeps | backend/src/db.py:357-452 | a commit keeps every object right or on its way to the client |
| ReplicationProof.BroadcastKeeps | backend/src/broadcast.py:167-242 | so does a broadcast, whether queued, coalesced, withheld or overflowing |
| ReplicationProof.AnswerKeeps | backend/src/broadcast.py:167-205 | so does a broadcast withheld from the device that made the save, which takes the row from its response |
| ReplicationProof.ConnectKeeps | backend/src/main.py:1153-1157 | joining the broadcast set before catch-up, with any store and a cursor honest about it, accounts for every object |
| ReplicationProof.FetchKeeps | backend/src/main.py:1188-1207 | so does each fetched page |
| ReplicationProof.OverlayKeeps | backend/src/main.py:1215-1226 | so does each overlay query |
| ReplicationProof.RelayKeeps | backend/src/main.py:1242-1260 | so does relaying the head of the queue |
| ReplicationProof.RunKeeps | backend/src/main.py:1153-1296 | the invariant holds in every state of every run |
| ReplicationProof.Convergence | backend/src/main.py:1153-1289 | over every run whose connects bring honest cursors, once an open connection is caught up, its queue empty and every save broadcast, the client holds exactly the table at its entitled levels |
| ReplicationRest.DrainReachesRest | backend/src/main.py:1188-1260 | from every state with an open connection, paging, in its overlay or live, such a rest is reachable without another write |
| ReplicationRun.SomeRunRests | backend/src/main.py:1153-1289 | such runs exist: a member's, through six types, six overlay queries, a save coalesced into a pending one and two relayed frames, that ends at rest with the saved rows in the corpus |
| ReplicationOverflow.PendingObjectNeverOverflows | backend/src/broadcast.py:37-46 | in every run, broadcasting a save of an object a frame of which is pending never closes the connection, however full its queue |
| ReplicationOverflow.OverflowIsPastTheBound | backend/src/broadcast.py:37-46 | in every run, a connection overflows only with as many different keys pending as the bound allows, and by a message under another |
| ReplicationRun.NewestAppliedOvertakes | frontend/src/lib/sync.ts:533-538 | one relay before its end, that run leaves the client with a newest `ts` above a row still queued: no safe cursor |
| LiveCursor.LiveCursorIsHonestIff | frontend/src/lib/sync.ts:533-538 | a caught-up client may reconnect with a cursor if and only if every object still in the outbox or queue is shown right already or stamped past it |
| LiveCursor.RestIsHonest | frontend/src/lib/sync.ts:533-538 | at rest it may reconnect with any cursor |
| LiveCursor.HonestUntilReconnect | backend/src/db.py:571-583 | a cursor good when the connection ended stays good, whatever is written before the client is back, above the public level |
| LiveCursor.ReplacedInPlaceOvertakes | backend/src/broadcast.py:37-46 | relaying a message replaced in place past an object saved before it makes its stamp no cursor |
| SyncCursor.QuietCursorIsSafe | backend/src/main.py:1201-1240 | when no write commits during catch-up, the `sync_complete` timestamp is a safe cursor whatever is written later, at member and full levels |
| CatchUpCursor.StreamAll | backend/src/main.py:1188-1207 | the six types are streamed to their ends, one after another over a changing table, and the newest stamp delivered is kept |
| CatchUpCursor.CursorIsHonestIff | backend/src/main.py:1188-1240 | that stamp is a safe cursor, whatever is written during and after the catch-up, if and only if no row was rewritten behind its type's last page, under a stamp the cursor passes, into something the client does not show; at member and full levels |
| CatchUpCursor.CursorOvertakes | backend/src/main.py:1188-1205 | this occurs: a user rewritten after the users are paged, a tournament saved and paged after that |
| SseFraming.SseObjectLines | backend/src/main.py:861-877 | the frames concatenate to the input in order, none is empty, one exceeds the budget only with a single object, and no frame could have taken the next one's first object |
| SseFraming.GreedyIsOptimal | backend/src/main.py:861-877 | no order-preserving split under the same rule uses fewer frames |
| SseFraming.LinesFit | backend/src/main.py:858-877 | on the wire a frame of several objects is under 200,000 bytes, commas included, and with the first object of the next frame it would not be |
| ClientBuffer.Client.FlushAllBuffers | frontend/src/lib/sync.ts:563-592 | a flush saves every buffered object and then deletes every buffered tombstone |
| ClientBuffer.Client.CatchUp | frontend/src/lib/sync.ts:458-592 | the messages of a catch-up, taken one after another and flushed at `sync_complete`, leave the single frames applied and then the flushed buffer over them, and the buffer empty |
| ClientBuffer.HeldBack | frontend/src/lib/sync.ts:458-548 | whatever arrives before `sync_complete`, the store shows the single frames only and the buffer holds exactly the batched ones, in order |
| ClientBuffer.FlushAgreesIff | frontend/src/lib/sync.ts:458-592 | the client ends a catch-up showing what the last frame shows if and only if nothing was batched for the object, or a buffered tombstone is matched by a final one, or the last frame is the last batched one |
| ClientBuffer.CatchUpIsLostIff | frontend/src/lib/sync.ts:563-592 | after a member's catch-up an object deviates if and only if it changed since the cursor and is retracted by the delta but given back in an overlay batch, or is the own profile whose member projection differs and that no batch gives back |
| ClientBuffer.OwnDeckIsLost | frontend/src/lib/sync.ts:563-592 | this occurs: an owner's private deck changed since the cursor is delivered and not kept |
| Snapshots.SnapshotWriter.WriteRows | backend/src/snapshots.py:58-70 | each level's file grows by exactly the lines of its non-null projections, and its counter by as many |
| Snapshots.OnlyWholeFilesLoad | frontend/src/lib/sync.ts:284-345 | a published file loads to exactly its objects, and cut short anywhere, between lines or inside one, it loads to nothing |
| Snapshots.FilesHoldTheProjections | backend/src/snapshots.py:58-70 | each published file loads to the projections of the saved objects for its readers, the API file to those for the API, and to nothing else |
| Snapshots.SnapshotPlusDelta | backend/src/snapshots.py:97-160 | file plus delta is the live corpus if and only if no object of the file was written out of the level unannounced, which is always so at member and full levels |
| Snapshots.LostRoleLingers | backend/src/access_levels.py:100-110 | this occurs: an NC who lost the role after the anchor stays readable |
| SnapshotJobs.SnapshotJob.Generate | backend/src/snapshots.py:97-160 | a run skips on an unchanged sentinel, leaves the published files alone when it fails before publishing, and otherwise publishes whole files of the corpus read, counted |
| SnapshotJobs.EqualSentinelsEqualCorpora | backend/src/snapshots.py:110-126 | over any run of upserts and hard deletes, equal row count and newest stamp mean identical corpora |
| SnapshotJobs.SkipKeepsCurrentIff | backend/src/snapshots.py:110-126 | with the sentinel back at its value, the published files show the live corpus if and only if none of their rows is newer than the sentinel |
| SnapshotJobs.RegularSkipsAreSound | backend/src/main.py:511-518 | with hard deletes held back for the retention period and a pass that succeeds in every such period, a skip always leaves the live corpus published |
| SnapshotJobs.RunPasses | backend/src/snapshots.py:97-160 | under that regime every pass of the job that does not fail leaves files of the corpus it found, when it skips, or read, when it publishes |
| SnapshotJobs.FailingPassesLeaveStale | backend/src/db.py:637-648 | without it a stale skip can occur: a row inserted between anchor and read, soft-deleted, retained and purged while every pass fails |
| SnapshotJobs.SnapshotIsHonest | backend/src/snapshots.py:42-126 | a loaded file may serve as the cursor of a connection at member and full levels |
| TableSizes.GetTableSizes | engine/compare_seating.py:12-21 | the split with the most tables of five, those first, summing to n; none exactly for 6, 7 and 11 |
| TableSizes.ParseRound | engine/compare_seating.py:24-41 | the tables are the players in order, the tables of five first and as many as can be; refused exactly when no sizes exist or the count differs |
| SeatingMatrix.CountRounds | engine/compare_seating.py:86-132 | the nested loops leave in every entry the sum of what each seat of each table adds |
| SeatingMatrix.Duality | engine/compare_seating.py:104-132 | i met j as prey as often as j met i as predator, likewise grand-prey and grand-predator, and the other counts are symmetric |
| SeatingMatrix.MeetingsSplit | engine/compare_seating.py:104-132 | a pair's meetings equal its five relation counts together, and its neighbour and non-neighbour counts together |
| SeatingCounts.ColumnsCount | engine/compare_seating.py:104-132 | of two players, column 1 counts the sittings of the first with the second in the next seat, 4 in the seat before, 2 and 3 two seats on and before at tables of five, 5 opposite at tables of four, 6 beside and 7 apart |
| SeatingCounts.SeatsCount | engine/compare_seating.py:91-123 | a player's own columns 3 to 7 count how often he sat in each seat |
| Sums.HalfScanIsHalf | engine/compare_seating.py:153-154 | scanning only j below i finds half of the sum over all pairs when the summand is symmetric |
| SeatingScore.FewMeetingsCostNothing | engine/compare_seating.py:155-157 | a pair that met at most once costs nothing under any rule, so the scan may pass over it |
| SeatingScore.ComputeScore | engine/compare_seating.py:77-184 | the seven integer scores are the rules' costs over all pairs of players and over all players, though the scan sees half; a player numbered 0 is tabled and left out of both; no score exactly without players |
| SeatingCounts.ScoresInWords | engine/compare_seating.py:134-171 | the seven scores as numbers of pairs and players, by who sat next to, opposite, apart from and how often where, for tables nobody sits at twice |
| SeatingLaws.RelabellingInvariance | engine/compare_seating.py:134-171 | renaming players one-to-one, 0 apart, and reordering tables and rounds changes none of the seven scores |
| SeatingLaws.CountsAreSharedTables | engine/compare_seating.py:116-132 | for tables of distinct players the opponent count is the number of tables shared, and a player's own count the tables played |
| SeatingLaws.OpponentsAddUp | engine/compare_seating.py:116-132 | a player's opponent counts add up to the seats at his tables less the tables he played |
| SeatingLaws.ThreeMeetingsCost | engine/compare_seating.py:168-171 | three meetings of two players force R9 above zero |
| SeatingLaws.SixTablesCost | engine/compare_seating.py:146-151 | six tables of one player force R7 above zero |
| SeatingLaws.RulesAreOrdered | engine/compare_seating.py:134-171 | always R1 <= R6, R2 <= R4 and R5 <= R7 |
| PromoLedger.Aggregate | backend/src/promo_stock.py:62-86 | the loop's nested table is, for each target promo, exactly the named holders with the sums of their postings |
| PromoLedger.FetchedRowsSuffice | backend/src/promo_stock.py:57-60 | the rows fetched for the target promos give the holdings that all rows give |
| PromoLedger.HoldingsIgnoreOrder | backend/src/promo_stock.py:69-86 | holdings do not depend on the order of the ledger |
| PromoLedger.Conservation | backend/src/promo_stock.py:62-86 | summed remaining equals intakes less distributions, target-less assignments and attributions; summed credits equal intakes and targeted assignments; corrections and self-assignments included |
| PromoHolders.HoldersGetTheirs | backend/src/promo_stock.py:62-86 | a promo's holders are those the ledger or a report involves; a holder is credited with his intakes and the targeted assignments to him, and has left of them what assignments and distributions from him and reports charged to him do not take |
| PromoStock.Store.Recompute | backend/src/promo_stock.py:50-126 | one recompute leaves the rows of its specification, from any stored state, and writes exactly the rows that moved |
| PromoHolders.RowsSayWhatIsHeld | backend/src/promo_stock.py:88-126 | after a recompute the stored row of a wanted live promo, and of it the row of each live user, say what each holder was credited with and has left, as the ledger and the reports give it |
| PromoConvergence.Transposed | backend/src/promo_stock.py:102-126 | afterwards a target promo's holdings and a live user's stock are each other's transpose |
| PromoConvergence.OthersUntouched | backend/src/promo_stock.py:111-123 | keys of other promos, other promos and every other field stay as they were |
| PromoConvergence.SecondRunChangesNothing | backend/src/promo_stock.py:1-4 | an immediate second run finds nothing to write |
| PromoConvergence.PartialRunsConverge | backend/src/promo_stock.py:44-126 | partial runs covering every live promo, in any order and overlap, leave all promos as one full run would, and every user who is live, holds no live promo, or carries no stale key of one |
| PromoConvergence.SplittingIsHarmlessIff | backend/src/promo_stock.py:102-114 | every covering split equals the full run if and only if no soft-deleted user both holds a live promo and carries the stale key of another |
| PromoConvergence.StaleHolderDiverges | backend/src/promo_stock.py:102-114 | this occurs: one such user makes two partial runs differ from the full one |
| Reconciliation.DemoteCollisions | backend/scripts/reconcile_twda.py:536-560 | the pass over the verdicts in place demotes exactly the contested attachments that do not beat all rivals, and returns how many |
| Reconciliation.AttachmentIsInjective | backend/scripts/reconcile_twda.py:536-560 | afterwards no two attachments share a target |
| Reconciliation.SurvivorIsStrongest | backend/scripts/reconcile_twda.py:553-559 | a contested claimant survives if and only if it is strictly stronger than every other |
| Reconciliation.SurvivorOutranks | backend/scripts/reconcile_twda.py:527-560 | it survives if and only if its reason outranks every rival's, an own link above a VEKN id above a matching name or size above the bare winner and date, and else is queued as contested |
| Reconciliation.OthersKept | backend/scripts/reconcile_twda.py:550-552 | uncontested and other verdicts are left as they were |
| Reconciliation.SecondPassDemotesNothing | backend/scripts/reconcile_twda.py:536-560 | the count is the number of verdicts changed, and a second pass changes and counts none |
| ArchiveKeys.FillingMovesNothing | backend/src/twda_import.py:302-309 | the city that comes with a key never moves an event: one located, online or in another country keeps its venue, any other gains the city, and a second fill changes nothing |
| ArchiveKeys.CountriesIgnoreCase | backend/src/twda_import.py:302-309 | an event is in the city's country if the two codes agree letter by letter, upper or lower case |
| ArchiveKeys.StampKeeps | backend/src/twda_import.py:301-311 | stamping a free key on a keyless live tournament keeps keys one-to-one, every other key in place, and every event where it is |
| ArchiveKeys.CreateKeeps | backend/src/twda_import.py:416-425 | so does saving a reconstruction under an unused uid |
| ArchiveImport.TournamentsByKey | backend/src/twda_import.py:262-277 | the index holds exactly the keys of live tournaments, each with a holder |
| ArchiveImport.Archive.SettleAttachment | backend/src/twda_import.py:280-314 | a key is stamped if and only if the target is live and holds none, or the run crashes with nothing written; with it the time, and the entry's city on an offline event of that country that has none |
| ArchiveImport.Archive.ReconcileAll | backend/src/twda_import.py:394-425 | the loop keeps keys one-to-one and moves no event, even where it crashes, accounts for every tournament it changed, writes none over the cap, and when done leaves no entry it could still place |
| ArchiveImport.Archive.ImportDecks | backend/src/twda_import.py:458-509 | every deck added is a winner's who had none, and when done every resolved event with a winner and cards has one |
| ArchiveImport.DecksFor | backend/src/twda_import.py:458-509 | the decks added are one for each entry whose resolved winner had none at the start, each named once, counted, and no others |
| ArchiveImport.TwoDecksIffClash | backend/src/twda_import.py:474-507 | an event gets more than one new deck in a run if and only if two entries without a deck are resolved to it |
| ArchiveImport.MeetingIsForeseen | backend/src/twda_import.py:394-425 | two entries belong to one event lacking the winner's deck after the loop if and only if they did before it, by the keys held and the decisions |
| ArchiveImport.SettledEventMeets | backend/src/twda_import.py:394-413 | this occurs: an entry attached to an event that already holds another entry's key |
| ArchiveImport.ResolutionIsUnique | backend/src/twda_import.py:394-413 | an entry belongs to one tournament only |
| ArchiveImport.Archive.Run | backend/src/twda_import.py:338-509 | complete or crashed, a run keeps keys one-to-one, and adds only decks owed to the winner of an event an entry belongs to; over the cap it writes no tournament; after a complete run under the cap every entry decided as a new event is held by one made in this run, live, with the decided winner and the entry's medium, country and city, and every entry attached alone to a keyless event has stamped it and changed nothing else but the city; after any complete run the winner of each event held has his listed deck there, and nothing is left to write; two decks are added to one event if and only if two entries met in it beforehand; from a state with nothing to write a run writes nothing |
| MemberCrawl.FullPrefixIsNotCapped | backend/src/vekn_api.py:529-535 | a full seven-digit prefix is never capped, which is why subdividing ends |
| MemberCrawl.Crawl.FetchByPrefix | backend/src/vekn_api.py:516-537 | a crawl of a prefix returns, once each, exactly its matches not seen before |
| MemberCrawl.Crawl.FetchAllMembers | backend/src/vekn_api.py:539-558 | every registered id is yielded exactly once, as some answer of the search lists it |
| EventScan.FetchAllEvents | backend/src/vekn_api.py:432-514 | the scan ends, by the failure limit or after the empty run, and then reports every listed event below its stop in order and every verdict given, no run of failures before it having reached the limit |
| EventScan.ScanIsExhaustive | backend/src/vekn_api.py:439-447 | if no event is preceded by so long an empty run, the events reported are exactly those to report |
| EventScan.ReportsInWords | backend/src/vekn_api.py:473-500 | the events reported are, in rising order, those below the stop with players or to come, and the verdicts those of the ids that answered |
| EventScan.RunsInWords | backend/src/vekn_api.py:452-482 | the run that ends the scan is of the confirmed-empty ids since the last event, failures neither counted nor breaking it; the one that aborts it is of failures alone, one after another |
| RatingWindow.WindowStart | backend/src/ratings.py:175-182 | a valid date exactly 18 calendar months back, the day kept or clamped to the month's last |
| RatingWindow.WindowMovesForward | backend/src/ratings.py:175-182 | a later day never has an earlier window start |
| RatingWindow.MonthsFollowEachOther | backend/src/ratings.py:175-182 | the months are as long as the Gregorian calendar has them |
| Ratings.RatingIsCanonical | backend/src/ratings.py:235-241 | the same entries in any order give the same sorted list and total |
| Ratings.TotalIsBest | backend/src/ratings.py:237-239 | the total is attained by, and not exceeded by, any choice of min(8, n) entries |
| Ratings.RatedInWords | backend/src/ratings.py:197-253 | after a recompute a player's list is, by falling points and then tournament uid, an entry for each streamed tournament he played in that counts and in which he was neither disqualified nor proxied, and the total is of the first eight; his other ratings and the other users stay as they were |
| Ratings.StreamedOf | backend/src/ratings.py:184-208 | what is streamed for each of the four categories: its formats, online or not |
| Ratings.RatingIgnoresStreamOrder | backend/src/ratings.py:200-227 | a player's rating does not depend on the order tournaments are streamed in |
| Ratings.GroupsAddUp | backend/src/ratings.py:229-253 | nor on who else is recomputed or in how many runs |
| Ratings.CollectEntries | backend/src/ratings.py:197-227 | each player's list holds an entry for exactly the eligible tournaments he played in and was neither disqualified nor proxied |
| Ratings.Roster.RecomputeRatings | backend/src/ratings.py:167-255 | exactly the given players get the rating of their own entries, whatever the batches, and exactly the users whose rating moved are returned |

## Left out

- PostgreSQL, connection pools, HTTP, OAuth, push delivery, e-mail, zip and gzip bytes: input and output.
- Scoped bot streams, heartbeats, wake and resync frames. Targeted pushes are modelled by `DeckWithdrawal`, as one
  object for one user, outside the runs of `Replication`.
- In-flight transactions whose stamp precedes their commit, and database errors during catch-up.
- `AccessLevels`: the public cloak is a prefix followed by the value, without base64; the engine's rule for publishing contacts is the NC or Prince role.
- AccessVersion.FingerprintSufficesIff: compares the hashed inputs, not the 16 hexadecimal digits of their SHA-256.
- `SnapshotJobs.SnapshotJob.Publish`: a failure between two renames, which leaves levels of different ages, is not modelled.
- `ClientBuffer`: buffers per type are one buffer, since an object has one type; tournaments held offline by the device are not modelled.
- Seating scores R3 and R8: standard deviations in floating point; the Excel reader around the score.
- ReplicationProof.Convergence: the client's own cursor is not part of the state; connects bring any honest one.
- SnapshotJobs.RunPasses: the job's process does not restart during the run, and a row's deletion mark is the time of the save that set it.
- PromoStock.Store.Recompute: the re-read before each save and the lock that serialises recomputes appear as atomic steps.
- ArchiveImport.Archive.SettleAttachment: which city an entry's place names is an input.
- ArchiveImport.Archive.Reconstruct: event codes are not modelled.
- ArchiveImport.Archive.ReconcileAll: accounts for each changed tournament up to the time it carries.
- `recompute_wins`, the win-list pass that follows the deck import.
- Rulings applied to verdicts after the collision pass, and the name-matching heuristics that produce the verdicts.
- MemberCrawl.Crawl.FetchAllMembers: the registry does not change during the crawl and no query fails; a failed prefix loses rows by design.
- Points, eligibility, disqualification and participation come from the rules engine and are parameters of `Ratings`.
- Ratings.Roster.RecomputeRatings: users are listed in any order, since the order of the batches does not matter.
