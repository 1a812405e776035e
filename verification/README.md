# Salmon's write path, verified

Salmon keeps a hub database in step with the Bear notes application. Consumers read and write notes on the hub; a bridge on
the Mac pushes Bear's changes to the hub, leases queued writes from it, applies them to Bear and acknowledges them. This
project models that write path and the delta synchronisation beside it in Dafny, and proves what they guarantee over every run.

## What is modelled

The state of the hub is its notes (bear_id, title, body, sync_status, stamps, the snapshot of Bear's title and body), the write
queue (two idempotency keys, consumer, note, action with payload, status, lease) and the uploaded files. A run is any sequence of
consumer requests, pushes, leases, acks, resent acks and crashes of the bridge.

| file | contents |
|---|---|
| `Model.dfy` | rows, requests, acks; the title rule |
| `Store.dfy`, `Handlers.dfy` | each operation as a function of the state: the specification |
| `Hub.dfy` | the hub as a class whose methods update the tables row by row, proved against the specification |
| `Invariant.dfy` | the hub invariant, and that every operation keeps it |
| `Protocol.dfy` | hub and bridge as a state machine; the system invariant over runs |
| `NoteHistory.dfy` | one note's row under each step; the last ack decides |
| `Guarantees.dfy` | protection, snapshots, conflict detection, echoes, finality, over runs |
| `Conflicts.dfy` | when a conflict can still end |
| `Keys.dfy`, `Fairness.dfy` | idempotency keys; leases |
| `Requests.dfy` | what each consumer request puts into the queue, the note and the reply |
| `Bear.dfy` | the bridge's queue loop against Bear; crash replay |
| `Effects.dfy` | what an ack says about Bear, whatever the calls answer |
| `Delivery.dfy` | from an accepted request to Bear; conflict copies over runs |
| `LeaseOrder.dfy` | the order in which successive leases hand out a queue's rows |
| `Coalescing.dfy`, `SoleWriter.dfy` | coalesced updates against the order Bear receives them in |
| `LostPuts.dfy` | two runs after which Bear lacks the last accepted PUT |
| `Convergence.dfy` | hub, bridge and Bear in one run: when Bear ends with what the hub shows |
| `Echoes.dfy` | the stamp a note expects after a batch, and conflicts raised by the hub's own writes |
| `Runs.dfy` | reaching concrete states from the empty hub, for the runs that fail a property |
| `TagTables.dfy` | the hub's tag and attachment tables under a push, as a class |
| `DeltaSync.dfy` | the bridge's diffing of junction rows and attachments, as loops and a class |
| `Arrivals.dfy` | which edits made in Bear reach the hub |
| `TagAgreement.dfy`, `Attachments.dfy` | when the hub agrees with Bear, after one cycle and over many |

## What the code does not guarantee

Seven properties one would expect hold only under a condition. Each condition is proved as an equivalence. For each there is a
concrete failing case: a run from the empty hub, or for the delta cycle a concrete cycle that meets all assumptions.

* Two rows can answer one idempotency key: a PUT merged into a pending create stores its key without looking for a failed row
  that has it (`Keys.ServeKeepsKeysIff`, `Keys.KeysCanClash`).
* The key of a merged PUT is forgotten as soon as the next PUT is merged into the same row, so a late retry of the earlier PUT is
  applied again over the newer body (`Keys.MergedKeyStaysIff`, `Keys.LateRetryUndoes`).
* The last accepted PUT can be overtaken: coalescing is per consumer, a retried row keeps its low id, and a row whose lease was
  lost is handed out again only when that lease ends. So an older body may reach Bear last (`Coalescing.PutReachesBearIff`,
  `LostPuts.SharedNoteLosesPut`, `LostPuts.LostLeaseLosesPut`). With one writer per note, no reuse of a failed row's key, no lost
  lease and no rolled-back batch it cannot (`SoleWriter.DrainEndsWithHubBody`), and if nothing fails hub and Bear converge
  (`Convergence.Converges`, `Convergence.PushCompletes`).
* The hub's own writes can raise a conflict (README.md:70 promises one only for a change in Bear). Only creates and updates report
  the stamp Bear gave the note. An update followed in the same batch by a tag leaves a note with a further update queued without a
  stamp to recognise, so the bridge's push of the first update counts as a change in Bear (`Echoes.FirstPushAfterBatch`,
  `Echoes.OwnWritesConflict`).
* A conflict ends only through an ack of a queued row, and a conflicted note accepts no new ones. It can still get back to synced
  exactly as long as one of its rows is unfinished (`Conflicts.ConflictEndsIff`); a note whose write failed before the conflict
  arose stays in conflict until Bear deletes it (`Conflicts.NoteGetsStuck`).
* An edit made in Bear while a delta cycle runs can be lost to the hub. The cycle saves a clock it takes after it has read Bear
  (cmd/bridge/sync.go:284-318), so an edit in between is older than the saved clock and no later cycle sends it. A cycle leaves
  the hub with every note and tag in its current version exactly when all that is new or changed is stamped at or after the clock
  saved before (`Arrivals.EditsArriveIff`, `Arrivals.EditDuringCycleIsLost`, `Arrivals.LateEditIsNeverSent`).
* The known tag pairs are refreshed after every push. A tag change without a new note stamp in a cycle that pushes something else
  is recorded as known without having been sent, and no later full scan sees it (`TagAgreement.StaysInStepIff`,
  `TagAgreement.MissedTagIsNeverRepaired`). Attachments have a smaller gap of the same kind (`Attachments.FilesAgreeIff`,
  `Attachments.AttachmentIsLost`), and an attachment that has lost its note makes every push fail on the foreign key
  (`Attachments.PushFailsIff`, `Attachments.OrphanFailsPush`).

## Where code and documentation differ

The model follows the code.

* The comment on `CoalesceCreateUpdate` (internal/store/sqlite.go:1741-1743) speaks of merging title and body; the create keeps its
  original title.
* The state diagram (README.md:56-67) lets any applied ack return a note to synced; the code does so only when no other unfinished row
  of the note remains.
* `upsertAttachment` (internal/store/sqlite.go:1203) says an unknown note id is kept because the note may not have been synced yet;
  with foreign keys on, the insert then fails and with it the push.

## Assumptions

* A handler is one atomic step. Its store calls are separate in the code, with rollback code after a failing enqueue, which is
  modelled by the `fault` argument. An operation on the store is one transaction.
* Random ids are new: a new note's id, an upload's id, the hub ids in a push. Hub ids and Bear ids do not coincide. Bear ids within
  a push are distinct, and pushed notes come from the mapper with status synced and no snapshot.
* Every request carries a non-empty idempotency key, as the middleware demands.
* A bear_id, stamp or note_id that is NULL and one that is empty are the same. Stamps are seconds. Row ids are positions in the queue,
  since no row is ever deleted. A search without ORDER BY that takes one row takes the lowest id.
* Bear is a store whose calls have stated effects: update replaces the body, add_tag adds a tag, trash and archive raise a flag,
  add_file attaches a filename. Create makes a note with the tags as given, under an id and with a text of Bear's choosing: the
  title goes into the text, and Bear may format the rest. The title it stores is the one the hub's title rule reads from the text.
  Bear does not change during a pass over the queue. A delta cycle reads it at one moment, not later than the clock it saves.
* In the delta cycle ids are non-null UUIDs, so none contains a bar, and junction rows join existing notes and tags.

## Model

| member | source | states |
|---|---|---|
| `Guarantees.Reachable` | internal/store/sqlite.go:204-219 | Every state that a run of consumer requests, pushes, leases, acks, resends and crashes reaches from the empty hub satisfies the system invariant: bear ids unique, snapshots present exactly where conflict detection needs them, every unfinished row pointing at an existing note with the right Bear id, and the rows held by the bridge equal to the queue rows. |
| `Guarantees.UnfinishedWritesProtect` | internal/store/sqlite.go:1986-2004 | In every reachable state a note with an unfinished create, update, trash or archive exists and is pending_to_bear or in conflict. |
| `Guarantees.UnsyncedNoteHasOneCreate` | internal/api/notes_handler.go:810-844 | In every reachable state a note without bear_id has at most one unfinished row; it is the create and carries the body the hub shows, also after PUTs were merged into it. |
| `Guarantees.UnappliedUploadsSurvive` | internal/api/sync_handler.go:99-133 | In every reachable state the upload of each add_file row that is not applied is still on disk. |
| `Guarantees.AckMatchesLease` | internal/store/sqlite.go:1898-1903 | Whatever consumers did since the lease, each ack of the bridge reaches a row being processed whose action, note and payload are those leased, and it says conflict_resolved exactly when the note is in conflict at that moment. |
| `Guarantees.AppliedIsFinal` | internal/store/sqlite.go:1942-1947 | Over any run no queue row is lost or loses its key or consumer, and an applied row never changes again. |
| `Guarantees.ConflictStep` | internal/store/sqlite.go:1995-2008 | One step takes a conflicted note out of conflict exactly when it is the ack batch that settles all its rows, the last of them applied; it removes the note exactly when Bear deleted it. |
| `Guarantees.ConflictIsAbsorbing` | README.md:56-67 | Through any run without such a batch and without deletion a conflicted note stays in conflict. |
| `Guarantees.ConflictRefusesWrites` | internal/api/notes_handler.go:346-350 | A conflicted note without unfinished rows gets none from any request. |
| `Conflicts.ConflictEndsIff` | internal/store/sqlite.go:1995-2008 | In every state of the invariant, some run that does not delete a conflicted note ends with it synced if and only if one of its rows is unfinished. The run is built: stop, let all leases end, fail batch after batch until one holds all rows the note has left, and apply the last of these. |
| `Conflicts.NoteGetsStuck` | internal/api/notes_handler.go:346-350 | A run from the empty hub, one PUT, its failed ack and one push, after which no run that keeps the note ever ends its conflict. |
| `Guarantees.DrainedConflictIsPermanent` | internal/store/sqlite.go:1995-2008 | The harder half over all runs, with more: a conflicted note without unfinished rows stays in conflict and never gets a row again, so the way back to synced in the README's diagram is closed to it. |
| `Guarantees.FailedWriteThenConflict` | internal/store/sqlite.go:1952-1957 | How that state arises: a pending note whose rows failed, pushed with a moved stamp and a field changed on both sides, is in conflict without rows; the lemma gives the condition both ways. |
| `Guarantees.BearIdIsPermanent` | internal/store/sqlite.go:2009-2042 | Once a note has a bear_id it keeps it, and keeps existing, over every run in which Bear does not delete it. |
| `Guarantees.StepKeepsBearId` | internal/store/sqlite.go:2009-2042 | The same for one step of any kind. |
| `Guarantees.SnapshotIsExact` | internal/api/notes_handler.go:854-862 | Over every run the pending_bear snapshot of an unsynced note is the title and body it had when it was last synced. |
| `Guarantees.ConflictIffBothChanged` | internal/store/sqlite.go:985-1003 | After any run, a push of an unsynced note raises a conflict if and only if it is no echo, its stamp moved, and the title or the body was changed both in Bear and by consumers since the note was last synced. The fallback for a missing snapshot is never taken. |
| `Echoes.LastAppliedSetsExpected` | internal/store/sqlite.go:2009-2070 | After a committed batch a note expects exactly the stamp reported by the last of its rows that was applied, if that row was its create or other rows of it were unfinished then, and none otherwise. |
| `Echoes.BatchTeachesEcho` | internal/store/sqlite.go:2009-2059 | A batch that ends so leaves the note recognising that stamp as an echo. |
| `Echoes.FirstPushAfterBatch` | internal/store/sqlite.go:991-1003 | The first push after such a batch raises a conflict if and only if it carries another stamp than the batch left, the stamp moved and a field differs from the snapshot on both sides, whoever wrote it in Bear. |
| `Echoes.OwnWritesConflict` | cmd/bridge/queue.go:128-146 | A run from the empty hub: one consumer's update and tag, applied by the bridge while a second update waits, and the push of the result. A conflict, though nobody else touched the note in Bear. |
| `Guarantees.EchoesNeverConflict` | internal/store/sqlite.go:991-1003 | From then on pushes with that stamp never move the note to conflict, whatever requests, leases, failed acks and pushes of other notes come in between. |
| `NoteHistory.PushProtects` | internal/store/sqlite.go:1017-1040 | A push never changes the title or body of a note that was pending_to_bear when the push arrived. |
| `NoteHistory.PushBringsEntry` | internal/store/sqlite.go:985-1073 | Field by field: a pushed note that was synced or in conflict has the title, body, stamp and flags of its entry, keeps its status and loses snapshot and expected stamp; a pending one keeps title, body and snapshot and takes stamp and flags; one the push does not carry stays as it was. |
| `NoteHistory.PushAddsEntry` | internal/store/sqlite.go:1097-1131 | An entry for a note the hub does not know becomes a synced note with every field of the entry, whatever else the push holds. |
| `NoteHistory.PushQueue` | internal/store/sqlite.go:1482-1506 | A push fails exactly the unfinished rows of notes that Bear deleted and changes no other row and no upload. |
| `NoteHistory.PushRow` | internal/store/sqlite.go:870-934 | A push, whatever the order of its notes, does to each stored row what its one entry says, leaves other rows alone, and removes exactly the rows of deleted Bear notes. |
| `NoteHistory.UpsertAllNew` | internal/store/sqlite.go:1097-1131 | Rows a push adds are as Bear has them, and synced. |
| `NoteHistory.ServeRow` | internal/api/notes_handler.go:395-432 | A request leaves a known note's row alone or marks it pending_to_bear with its bear_id, stamp and expected stamp kept and a snapshot of the first unsynced state; it never adds a known note or removes one. |
| `NoteHistory.ServeContent` | internal/api/notes_handler.go:395-401 | Only a PUT of the note itself changes its title or body. |
| `NoteHistory.LastAckDecides` | internal/store/sqlite.go:1904-1924 | A committed batch ends an unsynced or conflicted note as synced, snapshot cleared, if and only if it holds all the note's unfinished rows and the last of them in batch order was applied; otherwise status and snapshot are as before. |
| `NoteHistory.AckAllUntouched` | internal/store/sqlite.go:1952-1957 | A batch with no applied ack for any of a note's rows leaves the note as it was: failed acks do not touch notes. |
| `Protocol.StepKeeps` | internal/store/sqlite.go:1566-2074 | Every step of the protocol keeps the system invariant. |
| `Protocol.RunKeeps` | internal/models/write_queue.go:3-5 | So does every run. |
| `Protocol.RedeliveryChangesNothing` | internal/store/sqlite.go:1926-1945 | Sending a committed ack batch again, after any consumer steps, changes no note, no row and no upload. |
| `Protocol.SettledAckIsNoOp` | internal/store/sqlite.go:1941-1946 | A batch none of whose rows is being processed commits and changes nothing. |
| `Protocol.AckAllSettles` | internal/store/sqlite.go:1904-1924 | After a committed batch none of its rows is being processed; every row of the queue is as before, or was being processed and is finished with its content unchanged. |
| `Protocol.AckAllFinishes` | internal/store/sqlite.go:1939-1982 | After a committed batch that names no row twice, each row that was being processed ends applied or failed as its ack says, and rows the batch does not name are untouched. |
| `Protocol.NoBirthCommits` | internal/store/sqlite.go:2009-2042 | Only acks that give a note its bear_id can make the hub reject a batch. |
| `Protocol.CleanupIsExact` | internal/api/sync_handler.go:102-174 | An upload is on disk after a committed batch if and only if it was before and no attachment row of the batch that carries it was applied. |
| `Protocol.ServeQueue` | internal/store/sqlite.go:1647-1652 | A request changes no row that is being processed or applied, and makes none so. |
| `Protocol.ServeKeepsFlight` | internal/store/sqlite.go:1713-1720 | Rows in flight at the bridge stay the queue's rows through any request, and their conflict flag stays right. |
| `Protocol.ServeConflicts` | internal/api/notes_handler.go:346-350 | No request puts a note into conflict or takes one out. |
| `Invariant.ServeKeeps` | internal/api/notes_handler.go:211-437 | Every consumer request keeps the hub invariant, whether or not the store fails in the middle. |
| `Invariant.CreateKeeps` | internal/api/notes_handler.go:211-304 | POST keeps it, also when it reuses the key of a failed create and deletes that create's orphan note. |
| `Invariant.CoalesceKeeps` | internal/store/sqlite.go:1741-1804 | Merging a PUT into the pending create keeps it. |
| `Invariant.PutKeeps` | internal/api/notes_handler.go:395-432 | An accepted PUT keeps it. |
| `Invariant.FlagKeeps` | internal/api/notes_handler.go:454-649 | Trash and archive keep it. |
| `Invariant.FileKeeps` | internal/api/notes_handler.go:727-762 | add_file keeps it: the row's upload is on disk and belongs to no other row. |
| `Invariant.LeaseKeeps` | internal/store/sqlite.go:1806-1896 | Leasing keeps it. |
| `Invariant.AckOneKeeps` | internal/store/sqlite.go:1926-2074 | One ack of the kind the bridge sends keeps it. |
| `Invariant.CleanupKeeps` | internal/api/sync_handler.go:154-174 | Removing the uploads of the applied rows of a batch keeps it. |
| `Invariant.PushKeeps` | internal/store/sqlite.go:870-934 | A push keeps it. |
| `Invariant.OnlyCreate` | internal/store/sqlite.go:2009-2036 | The unfinished create of a note is its only unfinished row. |
| `Requests.AcceptedIsQueued` | internal/store/sqlite.go:1566-1639 | For all eight requests, under a key no row has: if the request is accepted, exactly one row has the key afterwards, pending, with the write asked for in every field (title, body and tags; bear_id; upload and filename; old and new tag name), new or joined by a PUT; no other row changes. A refused request changes no row and no upload. |
| `Requests.PutJoinsFirst` | internal/store/sqlite.go:1699-1804 | An accepted PUT joins the first pending update of its consumer and note, or its pending create, whose title and tags stay, and adds a row if and only if there is none. |
| `Requests.RetryRestarts` | internal/store/sqlite.go:1643-1694 | Under the key of a failed row an accepted request starts that row over, pending and without lease, with the new write, and changes no other row; a PUT to a note Bear does not know excepted. |
| `Requests.AnsweredChangesNothing` | internal/api/notes_handler.go:848-850 | A request whose key has a row that did not fail changes nothing at all. |
| `Requests.NotesAsAsked` | internal/api/notes_handler.go:395-437 | Under a new key: a PUT changes title, body, status and snapshot of its note, DELETE raises trashed and archive raises archived, both taking the first snapshot, a POST adds its note with exactly these fields; nothing else in any note changes, and nothing at all when the request is refused. |
| `Requests.RetriedCreateDropsOrphan` | internal/api/notes_handler.go:243-252 | A POST under the key of a failed create removes the note that create left behind, also when the new enqueue fails, and no other note. |
| `Requests.MissingOrEncrypted` | internal/api/notes_handler.go:454-480 | Every request about a note is answered 404 if and only if the note is missing and 403 if and only if it is encrypted, and then changes nothing. |
| `Requests.ConflictOrUnknown` | internal/api/notes_handler.go:472-481 | A conflicted note refuses every write and a note without bear_id every write but PUT, changing nothing; any other note never answers 409. |
| `Requests.OpenNoteReplies` | internal/api/notes_handler.go:691-707 | For a note open to writes an empty title, body or tag name, a missing or too large upload and an unknown tag get their own error and change nothing, and everything else is accepted. |
| `Keys.ServeKeepsKeysIff` | internal/store/sqlite.go:1741-1804 | A request keeps every key on one row of its consumer, across the primary and the secondary column, if and only if it is not a PUT to a note without bear_id, merged into its pending create, under the key of a failed row. |
| `Keys.StepKeepsKeys` | internal/store/sqlite.go:1548-1564 | The same for every step: nothing else can ever put two rows under one key. |
| `Keys.KeysCanClash` | internal/store/sqlite.go:1780-1785 | A run from the empty hub (a tag that fails in Bear, a new note) and one such PUT after which two rows answer the same key. |
| `Keys.KeyAnswersForever` | internal/store/sqlite.go:1578-1592 | Over runs without such a PUT keys stay unique and a row's primary key answers with that row for ever. |
| `Keys.UniqueAnswer` | internal/store/sqlite.go:1548-1564 | With unique keys a lookup finds the row that answers, whichever row the scan meets first. |
| `Keys.AnsweredKeyAddsNothing` | internal/store/sqlite.go:1566-1639 | An enqueue leaves the queue's length alone if and only if its key is answered or it joins a pending update; afterwards its key is answered. |
| `Keys.EnqueueIsIdempotent` | internal/store/sqlite.go:1643-1694 | A second enqueue under a consumer's key changes nothing, whatever it asks for and whether the first one added, merged, restarted or only found a row. |
| `Keys.MergedKeyStaysIff` | internal/store/sqlite.go:1715-1720 | With unique keys, the key of a merged PUT still answers with its row after a step if and only if the step merges no other request into that row. |
| `Keys.MergedKeyAnswers` | internal/store/sqlite.go:1548-1564 | So it answers through every run in which nothing else is merged there. |
| `Keys.LateRetryUndoes` | internal/store/sqlite.go:1715-1720 | A run from the empty hub with three PUTs by one consumer; a retry of the second, under its own key, is not recognised and takes the place of the third. |
| `Store.PendingIds` | internal/store/sqlite.go:1824-1831 | The leased ids ascend, are pending, number at most the limit, and no pending row below one of them is left out. |
| `Fairness.RoundsTakePrefix` | internal/store/sqlite.go:1806-1896 | With no requests in between, m lease-and-ack rounds finish exactly the first 100 m pending rows, lowest id first, however each was acked. |
| `Fairness.RoundsDrain` | internal/store/sqlite.go:1826-1831 | So m rounds finish everything if and only if 100 m is at least the number of pending rows. |
| `Fairness.RoundDrains` | internal/store/sqlite.go:1806-1896 | One round leases and finishes the first hundred pending rows and leaves the rest, in order. |
| `Fairness.LeaseIsExclusive` | internal/store/sqlite.go:1818-1824 | A leased row is not leased again before its lease ends, through crashes and requests, unless it fails in between. |
| `BearBridge.ReplayIsSafe` | cmd/bridge/queue.go:87-96 | After any number of interrupted passes over the same update, add_tag, trash, archive and add_file rows, each stopped anywhere, one whole pass leaves Bear's bodies, tags, files and flags as one uninterrupted pass would. |
| `BearBridge.PassIsNet` | cmd/bridge/queue.go:298-550 | A pass leaves each note with the last body addressed to it, its own and the added tags and files, and the flags raised. |
| `BearBridge.ApplyContents` | cmd/bridge/queue.go:414-446 | A replayable row changes only its target note, and that by its own effect. |
| `BearBridge.AcksReport` | cmd/bridge/queue.go:113-165 | Whatever Bear answers, the bridge sends one ack for each leased row, in order; only conflict rows are acked conflict_resolved and only creates carry a bear_id. |
| `BearEffects.AppliedMeansShown` | cmd/bridge/queue.go:298-550 | For every update, tag, trash, archive and attachment row and every outcome of the calls: it is acked as applied if and only if Bear has the note, the payload is complete, and either the note already had what was asked for or the text is within 50 KB and the call succeeded. Then the note has it, changed in nothing else; otherwise Bear is as it was. Other notes never change. |
| `BearEffects.AckCarriesStamp` | cmd/bridge/queue.go:298-346 | Only updates report a stamp, and it is the one the note has then. |
| `BearEffects.TagWritesReachEveryNote` | cmd/bridge/queue.go:553-595 | Renaming and deleting a tag are acked as applied if and only if the names are complete and the call succeeded; then every note has exactly its old tags with the name replaced or gone. |
| `BearEffects.CreateAsksForItsRow` | cmd/bridge/queue.go:243-295 | An applied create asked Bear for a note with exactly the title, body and tags of its row and reports that note; a failed one left Bear alone or made that note without learning its id. |
| `BearEffects.CopyHoldsText` | cmd/bridge/queue.go:170-240 | A row of a conflicted note is acked, as conflict_resolved, if and only if the call succeeded; then Bear has one new note, asked for with exactly the row's text, a "[Conflict]" title and, where it can be read, the original's title and tags; the original and all others are untouched. |
| `BearEffects.AppliedRowsShow` | cmd/bridge/queue.go:87-96 | After a pass in which any calls failed, Bear has what each applied row asked for unless a later applied row took it back. |
| `BearEffects.FailedRowsDoNothing` | cmd/bridge/queue.go:87-96 | A pass with failures leaves Bear as the pass of its applied rows alone, notes created without a known id aside. |
| `Delivery.RequestReachesBear` | internal/api/notes_handler.go:518-528 | An accepted DELETE, archive, tag or attachment, whatever run of other requests, pushes, leases, failures and crashes follows: once the row with its key is with the bridge and acked as applied, Bear's note is trashed, archived, tagged or has the file. |
| `Delivery.PostReachesBear` | cmd/bridge/queue.go:243-295 | In every reachable state: when the bridge applies a create and the acks commit, Bear was asked for a note with the title and tags of the row and the body the hub shows at that moment, merged PUTs included, and the hub knows the note under the id Bear gave it. |
| `Delivery.NoConflictLosesText` | cmd/bridge/queue.go:170-240 | Over every run from the empty hub, with failing calls and other changes in Bear: each row ever applied for a note in conflict has its text in a conflict copy in Bear, so ending a conflict loses no accepted update. |
| `BearBridge.Bridge.ProcessQueue` | cmd/bridge/queue.go:63-110 | Bear and the acks after the loop are those of applying the rows one after the other. |
| `BearBridge.Bridge.ApplyQueueItem` | cmd/bridge/queue.go:113-165 | Rows of conflicted notes go to the conflict copy; the others to their action. |
| `BearBridge.Bridge.CreateInBear` | cmd/bridge/queue.go:243-295 | Asks Bear for a note with the write's title, text and tags unless the body is too long; a failed call, or a new id that cannot be found, fails the ack. |
| `BearBridge.Bridge.UpdateInBear` | cmd/bridge/queue.go:298-346 | An equal body is acked without a call, with the note's stamp; an empty or too long body or a failed call fails the ack and changes nothing. |
| `BearBridge.Bridge.AddTagInBear` | cmd/bridge/queue.go:349-399 | A tag already there is acked without a call. |
| `BearBridge.Bridge.ChangeNoteState` | cmd/bridge/queue.go:522-550 | Trash and archive: a flag already up is acked without a call. |
| `BearBridge.Bridge.AddFileInBear` | cmd/bridge/queue.go:453-500 | A filename already attached is acked without a call. |
| `BearBridge.Bridge.ChangeTagEverywhere` | cmd/bridge/queue.go:553-595 | Renames or removes the tag on every note that has it, in one call. |
| `BearBridge.Bridge.HandleConflictItem` | cmd/bridge/queue.go:170-240 | The consumer's version becomes a new note titled "[Conflict]" and the original's title, with the original's tags; the original stays as it is, and the ack says conflict_resolved. |
| `SoleWriter.DrainEndsWithHubBody` | internal/store/sqlite.go:1566-1739 | Over every run in which each note has one writing consumer, no failed row's key is reused, no lease is lost and no batch rolled back: let the bridge finish what it holds and lease, apply and ack until no update of a note is left, at whatever times, and Bear has exactly the body the hub showed for it. |
| `SoleWriter.CalmRunKeeps` | internal/store/sqlite.go:1699-1739 | Over those runs a note has at most one pending and one processing update, and the newest carries the hub's body. |
| `Convergence.Converges` | internal/models/write_queue.go:3-5 | From an empty hub and any Bear, at every moment of a run with one writer per note, no reused failed key, every leased row applied and acked, no conflict raised and no text changed in Bear by others: a note Bear knows shows Bear's text and title unless an update is under way or the bridge created it and neither an update nor a push has touched it since; and once no row is unfinished every hub note is synced and in Bear. |
| `Convergence.PushCompletes` | internal/store/sqlite.go:1017-1063 | When no row is unfinished, the next push that carries those created notes makes every hub note show Bear's text and title. |
| `Convergence.MoveKeeps` | cmd/bridge/queue.go:63-110 | Each request, lease, pass with its acks, push of Bear's text and change of other notes in Bear keeps that agreement. |
| `Convergence.KnownAgrees` | cmd/bridge/queue.go:298-346 | A pass and its acks leave a note Bear knew, with no update left, with the hub's body in Bear, unless the note was created by the bridge and the pass did not rewrite it. |
| `Convergence.UnknownAgrees` | cmd/bridge/queue.go:243-295 | They leave a note Bear did not know either in Bear under the bear_id the hub stores, or still queued. |
| `Convergence.WorkBacked` | internal/store/sqlite.go:1984-2008 | A batch whose rows are all applied leaves a note unsynced only if a row of it is still unfinished. |
| `Convergence.CreateAcked` | internal/store/sqlite.go:2009-2042 | A batch gives a note the bear_id reported for its create, whatever else it holds. |
| `Convergence.OneRewriteWins` | cmd/bridge/queue.go:87-96 | The only rewrite of a note in a pass, acked as applied, is its body at the end, also if the call was skipped as already made. |
| `Convergence.PushAgrees` | internal/store/sqlite.go:1017-1063 | A push of Bear's own text spoils no agreement, for synced and unsynced notes alike, and brings a synced note it carries Bear's text. |
| `Coalescing.PutReachesBearIff` | internal/store/sqlite.go:1806-1831 | Without those restrictions, from any state of the invariant: after an accepted PUT the bridge finishes what it holds and leases, a hundred rows at a time, at given times until no update of the note is left, and Bear has the PUT's body if and only if the last update it received, when that is one overtaking the PUT, has this body too. A row overtakes the PUT when the bridge does not hold it and its id is higher, or its lease outlasts the time at which the PUT's row is leased. |
| `Coalescing.OvertakesIff` | internal/store/sqlite.go:1818-1831 | Overtaking in this sense is exactly reaching Bear after the PUT's row. |
| `LeaseOrder.HandedBeforeIff` | internal/store/sqlite.go:1818-1831 | Over any sequence of leases with their batch limit, a pending row is handed out before another one if and only if its id is lower or the other's lease has not ended when it is handed out itself. |
| `Coalescing.UnrivalledPutReachesBear` | internal/store/sqlite.go:1701-1720 | What a caller can see beforehand: if every other unfinished update of the note is with the bridge or pending at a lower id, the PUT reaches Bear whenever and however the queue drains. |
| `Coalescing.DrainEffect` | cmd/bridge/queue.go:63-110 | Whatever else the queue holds, draining leaves Bear with the body of the last update of the note in the order of the leases, and the queue as those leases leave it. |
| `LostPuts.SharedNoteLosesPut` | internal/store/sqlite.go:1704-1707 | A run from the empty hub with two consumers' pending updates: the first one's next PUT is shown by the hub, and one turn of the bridge leaves Bear with the second one's body. The second one's row overtakes it by its higher id. |
| `LostPuts.LostLeaseLosesPut` | internal/store/sqlite.go:1818-1824 | A run from the empty hub with one writer, no retry and no failed ack: the first PUT's lease is lost, the second PUT is leased first, and the first is applied over it when its lease has ended. The first row overtakes the second PUT by its lease. |
| `HubServer.Hub.FindItem` | internal/store/sqlite.go:1548-1564 | The lowest-id row that matches, or none when none does. |
| `HubServer.Hub.EnqueueWrite` | internal/store/sqlite.go:1566-1639 | A key hit, a merge into the consumer's pending update of that note, or a new row, in this order; nothing on a store error. |
| `HubServer.Hub.CoalesceCreateUpdate` | internal/store/sqlite.go:1745-1804 | The pending create takes the new body, keeps its title and tags, and remembers the key as secondary. |
| `HubServer.Hub.AlreadyAnswered` | internal/api/notes_handler.go:848-850 | True exactly when a row answers the key and has not failed. |
| `HubServer.Hub.PostNote` | internal/api/notes_handler.go:211-304 | createNote, with the orphan clean-up and the rollback of a failed enqueue. |
| `HubServer.Hub.PutNote` | internal/api/notes_handler.go:328-437 | updateNote: refusals in order, then the answered key, then the two write paths. |
| `HubServer.Hub.HandleCreateUpdateCoalesce` | internal/api/notes_handler.go:810-844 | A PUT to a note Bear does not know changes the note only when a pending create took the body. |
| `HubServer.Hub.PutSynced` | internal/api/notes_handler.go:391-436 | Title and body change together with the enqueued row or not at all; the stamp keeps Bear's value. |
| `HubServer.Hub.DeleteNote` | internal/api/notes_handler.go:454-546 | trashNote, with rollback. |
| `HubServer.Hub.PostArchive` | internal/api/notes_handler.go:563-649 | archiveNote, with rollback. |
| `HubServer.Hub.PostTag` | internal/api/tags_handler.go:63-131 | addTag enqueues without touching the note. |
| `HubServer.Hub.PostFile` | internal/api/notes_handler.go:670-765 | addFile refuses a missing or too large upload, replaces a name that is none, and keeps the upload exactly when the row is enqueued. |
| `HubServer.Hub.PutTag` | internal/api/tags_handler.go:154-202 | renameTag enqueues a row without a note. |
| `HubServer.Hub.RemoveTag` | internal/api/tags_handler.go:218-254 | deleteTag enqueues a row without a note. |
| `HubServer.Hub.ExpireStaleLeases` | internal/store/sqlite.go:1818-1824 | Exactly the rows whose lease ended before now become pending. |
| `HubServer.Hub.SelectPending` | internal/store/sqlite.go:1826-1831 | The hundred lowest pending ids. |
| `HubServer.Hub.LeaseQueueItems` | internal/store/sqlite.go:1806-1896 | Expires, selects and marks; the rows returned are the marked rows with their notes' status. |
| `HubServer.Hub.CountOtherPending` | internal/store/sqlite.go:1987-1993 | Positive exactly when another pending or processing row of the note exists. |
| `HubServer.Hub.UpdateNoteStatus` | internal/store/sqlite.go:1984-2074 | The nested branches of the note update, including the two ways it aborts the batch. |
| `HubServer.Hub.AckSingleItem` | internal/store/sqlite.go:1926-1982 | Only a row being processed is acked; a failed ack leaves the note alone. |
| `HubServer.Hub.AckQueueItems` | internal/store/sqlite.go:1904-1924 | All acks of the batch in order, or none of them. |
| `HubServer.Hub.PostAck` | internal/api/sync_handler.go:102-174 | After a committed batch the uploads of its applied add_file rows are removed, and no others. |
| `HubServer.Hub.FindByBear` | internal/store/sqlite.go:944-961 | The row with this bear_id, or none. |
| `HubServer.Hub.DetectContentConflict` | internal/store/sqlite.go:1078-1095 | Conflict exactly when a field differs from the snapshot on both sides, or there is no snapshot. |
| `HubServer.Hub.UpdateExistingNote` | internal/store/sqlite.go:985-1073 | The echo test, the stamp test, conflict detection and the two column lists. |
| `HubServer.Hub.UpsertNote` | internal/store/sqlite.go:936-1131 | Update by bear_id or insert; bear ids stay unique. |
| `HubServer.Hub.FailQueueItemsForDeletedNotes` | internal/store/sqlite.go:1482-1506 | Exactly the unfinished rows of the deleted notes fail. |
| `HubServer.Hub.ProcessSyncPush` | internal/store/sqlite.go:870-934 | Upserts in order, then failed rows, then deletions. |
| `Store.Find` | internal/store/sqlite.go:1548-1564 | The specification FindItem is proved against: the first match, or none exists. |
| `Store.RowsIn` | internal/store/sqlite.go:1826-1831 | All rows of one status, ascending. |
| `NoteTitle.TitleIsOneTrimmedLine` | internal/api/notes_handler.go:866-884 | A title is one line without blanks at its ends. |
| `NoteTitle.PlainTitleReadsBack` | internal/api/notes_handler.go:866-884 | A trimmed line that is no heading, hashtags included, is its own title, whatever follows it in the body. |
| `NoteTitle.HeadingReadsBack` | internal/api/notes_handler.go:877-881 | A title written as a first or second level heading is read back without its marks. |
| `TagAgreement.FullScanRestoresTags` | cmd/bridge/sync.go:420-430 | If the hub's tags and pinned tags are those of the state file and all ids resolve, a completed full-scan cycle leaves them exactly Bear's current ones, also when there is nothing to push. |
| `TagAgreement.TagsAgreeIff` | cmd/bridge/sync.go:405-430 | After any pushed cycle they are Bear's if and only if each pair that changed belongs to a note the push mentions or was deleted with its note or tag. |
| `TagAgreement.ScanMissesNothing` | cmd/bridge/sync.go:458-532 | In a full-scan cycle that condition always holds. |
| `TagAgreement.StaysInStepIff` | cmd/bridge/sync.go:701-711 | A cycle keeps hub and state file in step if and only if it pushes nothing or misses nothing. |
| `TagAgreement.CarefulRunsStayInStep` | cmd/bridge/sync.go:281-342 | So over every run in which only full scans, empty cycles and cycles that miss nothing occur. |
| `TagAgreement.StaleLinksStay` | cmd/bridge/sync.go:701-711 | Over every run of completed cycles, full scans included, a note-tag link on the hub, right or wrong, stays as it is until Bear modifies or retags the note or deletes an end of the link. |
| `TagAgreement.MissedTagIsNeverRepaired` | cmd/bridge/sync.go:420-430 | A tag given to a note without a new stamp, in a cycle pushed for another reason, is recorded as known and never reaches the hub through later scans. |
| `TagAgreement.TaggingFits` | cmd/bridge/sync.go:701-711 | The concrete cycle in which it is missed meets every assumption of the theorem above it. |
| `TagAgreement.TableCycle` | internal/store/sqlite.go:1339-1455 | What one push leaves in a junction table: Bear's pairs for the mentioned notes, the known pairs of the others, less those deleted. |
| `TagAgreement.CounterCounts` | cmd/bridge/sync.go:301-331 | The full-scan counter advances by one per completed cycle, empty or not. |
| `TagAgreement.ScanRecurs` | cmd/bridge/sync.go:420-430 | Of any twelve consecutive cycles that start with a counter above zero, there is one after which the hub's tags are Bear's, given that the others miss nothing or push nothing. |
| `TagAgreement.FirstTwelveDoNotScan` | cmd/bridge/sync.go:420-430 | From a counter of zero the first twelve cycles scan nothing. |
| `Arrivals.PushCarriesEdits` | internal/beardb/sqlite.go:58-67 | The request of a cycle holds exactly the notes and tags stamped at or after the saved clock, every attachment stamped so, and exactly the known ids that are gone. |
| `Arrivals.ClockAfter` | cmd/bridge/sync.go:290-319 | A cycle with anything to push saves its own clock, one without keeps the old; both count. |
| `Arrivals.EditsArriveIff` | cmd/bridge/sync.go:345-454 | A completed cycle leaves the hub with exactly Bear's notes and tags, each sent in its current version and the deleted ones gone, if and only if everything new or changed in Bear since it was last sent is stamped at or after the clock saved before. |
| `Arrivals.MirrorFollowsBear` | cmd/bridge/sync.go:281-342 | So after every run of completed cycles from an empty mirror in which nothing is stamped late. |
| `Arrivals.LateEditIsNeverSent` | internal/beardb/sqlite.go:64-67 | A version stamped before the saved clock is not sent by any later cycle while it stays so. |
| `Arrivals.EditDuringCycleIsLost` | cmd/bridge/sync.go:284-318 | Two concrete cycles: the first reads a note, then takes its clock; an edit between the two is not in the second request. |
| `TagTables.Mirror.ReplaceNoteTags` | internal/store/sqlite.go:1339-1412 | Links of every mentioned note are dropped and the resolvable pairs inserted; other notes keep theirs. |
| `TagTables.Mirror.ResolveNotes` | internal/store/sqlite.go:1349-1383 | The lookup table holds exactly the mentioned notes the hub knows. |
| `TagTables.Mirror.InsertNoteTagPairs` | internal/store/sqlite.go:1414-1455 | Sentinels and unresolvable pairs are skipped, the others added once. |
| `TagTables.Mirror.UpsertFiles` | internal/store/sqlite.go:1193-1270 | Each attachment is stored under its note; one without a note on the hub fails. |
| `TagTables.NoteDeletionCascades` | internal/store/sqlite.go:147-161 | Deleting notes removes exactly the links and attachments whose note is no longer there, and changes no tag and no other attachment. |
| `TagTables.TagDeletionCascades` | internal/store/sqlite.go:147-156 | Deleting tags removes exactly the links whose tag is no longer there, and touches neither notes nor attachments. |
| `TagTables.PushKeepsForeignKeys` | internal/store/sqlite.go:870-934 | A push that commits, whatever it carries and deletes, leaves every link between a note and a tag of the hub and every attachment under a note of the hub. |
| `TagTables.NewIdsAreDrawn` | internal/store/sqlite.go:1134-1190 | A note or tag the hub did not know gets the hub id drawn for it. |
| `TagTables.Mirror.Upsert` | internal/store/sqlite.go:1134-1190 | A known Bear id keeps its hub id, a new one takes the drawn id. |
| `TagTables.Mirror.ProcessSyncPush` | internal/store/sqlite.go:870-934 | The tag and attachment part of a push, all or nothing. |
| `DeltaSync.FindChangedJunctionNotes` | cmd/bridge/sync.go:535-586 | Exactly the notes whose tag sets differ, each once. |
| `DeltaSync.ScanTable` | cmd/bridge/sync.go:483-506 | All current pairs of the changed notes, and one sentinel for a changed note without tags. |
| `DeltaSync.MergeNoteTags` | cmd/bridge/sync.go:868-887 | Keeps the given pairs in place and adds those missing, without new duplicates; pairs with equal keys count as one. |
| `DeltaSync.MergeKeyIsInjective` | cmd/bridge/sync.go:873-880 | Equal keys mean equal pairs as long as no note id contains a bar. |
| `DeltaSync.DiffIds` | cmd/bridge/sync.go:615-629 | Exactly the known ids that are not current. |
| `DeltaSync.ReadNewFiles` | cmd/bridge/sync.go:634-673 | Exactly the current attachments that are neither known nor read already. |
| `DeltaSync.BridgeState.JunctionFullScan` | cmd/bridge/sync.go:458-532 | The changed notes' pairs for both tables, with the known pairs replaced by the current ones. |
| `DeltaSync.BridgeState.JunctionPairs` | cmd/bridge/sync.go:405-430 | The pairs in the push: those of recently modified notes, and in a scan cycle those of changed notes. |
| `DeltaSync.BridgeState.AttachmentRows` | cmd/bridge/sync.go:357-370 | The attachments in the push: recent by stamp, or of an id not known. |
| `DeltaSync.BridgeState.BuildDeltaPush` | cmd/bridge/sync.go:345-454 | The whole request, field by field, up to order. |
| `DeltaSync.Bridge.DeltaSync` | cmd/bridge/sync.go:281-342 | An empty cycle pushes nothing and saves the counter; a failed push saves nothing; a successful one saves clock, counter and known lists. |
| `Attachments.FilesAgreeIff` | cmd/bridge/sync.go:634-673 | Whatever the stamps, a completed cycle from hub ids equal to known ids ends with the known ids equal to Bear's, and the hub's too if and only if no live attachment was under a note this push deletes without being in the push. |
| `Attachments.FilesAgreeOverRuns` | cmd/bridge/sync.go:281-342 | Over every run without such an attachment hub and state file list exactly Bear's attachments after each cycle. |
| `Attachments.AttachmentIsLost` | cmd/bridge/sync.go:634-673 | A concrete cycle that meets all those assumptions, in which an attachment moves to another note under its old stamp while its first note disappears: the hub loses it, Bear and the state file keep it. |
| `Attachments.SweptFilesStayAway` | cmd/bridge/sync.go:654-659 | An attachment lost that way stays lost while its stamp is old, because its id is known. |
| `Attachments.PushFailsIff` | internal/store/sqlite.go:1193-1205 | The tag and attachment part of a push fails if and only if it carries an attachment whose note is neither on the hub nor in the push. |
| `Attachments.OrphanBlocksEveryCycle` | internal/store/sqlite.go:1193-1205 | One attachment that lost its note in Bear, recent or new to the bridge, keeps every cycle from completing while it is there. |
| `Attachments.OrphanFailsPush` | internal/store/sqlite.go:1193-1205 | A concrete push, the one the bridge builds, that the hub rejects for this reason; no other cycle over that Bear database completes either. |

## Left out

- HTTP routing, authentication, JSON, logging, migrations, full-text search, listing queries, retry backoff, the MCP tools and the
  macOS application: plumbing around the state.
- Columns of notes, tags and attachments that no modelled branch reads, backlinks (a push carries only whether it has any), and the
  queue columns processing_by, error, applied_at and created_at.
- The guards in createNote and addFile that delete a new note or upload when the enqueue returned somebody else's row: they act only
  when two handlers interleave.
- A multipart header whose size is not that of the file; a missing blob directory during cleanup.
- Store failures other than a failing enqueue or merge: if the note row cannot be written after a PUT was merged into the pending
  create, or cannot be restored after a failed enqueue, queue and note part; reads that fail; and a lookup that fails, which the
  handlers take for a key nobody has used.
- The error "not found" of delete_tag, which the bridge counts as success; in the model the call then succeeds and changes nothing.
- The initial sync, which pushes everything in batches and saves a first state file; the shortcut that skips a cycle when Bear's
  database files have not changed; a crash between a push and saving the state file.
- TagTables.Mirror.Upsert: leaves out the UNIQUE title of tags, whose violation fails a push like the foreign key does.
- Verification re-reads and waiting times of the bridge, and attachment file transfer.
- Delivery.RequestReachesBear: leaves out PUT and POST, whose rows later PUTs rewrite; for these see Coalescing.PutReachesBearIff
  and Delivery.PostReachesBear.
- HubServer.Hub.ProcessSyncPush: covers notes and queue; the tag and attachment part of the same transaction, whose failure would
  undo this part too, is TagTables.Mirror.ProcessSyncPush.
- BearBridge.ReplayIsSafe: does not cover creates, conflict copies and tag-wide rows, whose effect on Bear is not idempotent, nor a
  push between the crash and the replay.
- TagTables.Mirror.ProcessSyncPush: covers the tag and attachment tables; the notes and queue part of the same transaction is
  HubServer.Hub.ProcessSyncPush, and the two meet only in the mapping from Bear ids to hub ids.
- DeltaSync.BridgeState.BuildDeltaPush: fixes the rows of the request but not their order, which in the source follows map iteration.
