/** What each store operation does to the tables, as functions of the state. Hub.dfy proves the loops against these. */
module Store {
  import opened Model

  // ---- Looking up queue rows ----

  /** The three WHERE clauses that look for one row. */
  datatype Search =
    | ByKey(key: Key, consumer: Consumer)
    | PendingUpdate(note: NoteId, consumer: Consumer)
    | PendingCreate(note: NoteId, consumer: Consumer)

  predicate Matches(x: Item, s: Search) {
    match s
    case ByKey(k, c) => x.Answers(k, c)
    case PendingUpdate(n, c) => x.note == Some(n) && x.write.Update? && x.status == Pending && x.consumer == c
    case PendingCreate(n, c) => x.note == Some(n) && x.write.Create? && x.status == Pending && x.consumer == c
  }

  predicate IsFirst(q: Queue, s: Search, r: Option<nat>) {
    match r
    case None => forall j | 0 <= j < |q| :: !Matches(q[j], s)
    case Some(i) => i < |q| && Matches(q[i], s) && forall j | 0 <= j < i :: !Matches(q[j], s)
  }

  /** The matching row with the lowest id, which is the one SQLite's LIMIT 1 scan meets first. */
  function Find(q: Queue, s: Search): (r: Option<nat>)
    ensures IsFirst(q, s, r)
  {
    if q == [] then None
    else
      var r := Find(q[..|q| - 1], s);
      if r.Some? then r else if Matches(q[|q| - 1], s) then Some(|q| - 1) else None
  }

  /** An existing item that short-circuits a handler: found by key and not failed (isRetryableQueueItem). */
  predicate Answered(q: Queue, k: Key, c: Consumer) {
    var f := Find(q, ByKey(k, c));
    f.Some? && q[f.value].status != Failed
  }

  // ---- EnqueueWrite and CoalesceCreateUpdate ----

  /** A failed item found by its key starts over with the new request's content. */
  function Reset(x: Item, note: Option<NoteId>, w: Write): Item {
    x.(write := w, note := note, status := Pending, leaseUntil := None)
  }

  function Fresh(k: Key, c: Consumer, note: Option<NoteId>, w: Write): Item {
    Item(k, None, c, note, w, Pending, None)
  }

  /** The row an enqueue lands in: a key hit, a coalescing target, or a new row at the end. */
  function Slot(q: Queue, k: Key, c: Consumer, note: Option<NoteId>, w: Write): (i: nat)
    ensures i <= |q|
  {
    var hit := Find(q, ByKey(k, c));
    if hit.Some? then hit.value
    else
      var target := if w.Update? && note.Some? then Find(q, PendingUpdate(note.value, c)) else None;
      if target.Some? then target.value else |q|
  }

  function Enqueue(q: Queue, k: Key, c: Consumer, note: Option<NoteId>, w: Write): Queue {
    var i := Slot(q, k, c, note, w);
    if i == |q| then q + [Fresh(k, c, note, w)]
    else if q[i].Answers(k, c) then
      if q[i].status == Failed then q[i := Reset(q[i], note, w)] else q
    else q[i := q[i].(write := w, secondary := Some(k))]
  }

  /** The pending create of this consumer takes the new body and keeps its title and tags; None when there is none. */
  function CoalesceCreate(q: Queue, k: Key, c: Consumer, n: NoteId, body: string): Option<Queue> {
    var f := Find(q, PendingCreate(n, c));
    if f.None? then None
    else
      var x := q[f.value];
      Some(q[f.value := x.(write := Create(x.write.title, body, x.write.tags), secondary := Some(k))])
  }

  // ---- LeaseQueueItems ----

  const LEASE_LIMIT: nat := 100
  const LEASE_SECONDS: nat := 300

  function Expired(x: Item, now: nat): Item {
    if x.status == Processing && x.leaseUntil.Some? && x.leaseUntil.value < now
    then x.(status := Pending, leaseUntil := None) else x
  }

  function ExpireAll(q: Queue, now: nat): (r: Queue)
    ensures |r| == |q|
    ensures forall i | 0 <= i < |q| :: r[i] == Expired(q[i], now)
  {
    seq(|q|, i requires 0 <= i < |q| => Expired(q[i], now))
  }

  predicate Ascending(ids: seq<nat>) {
    forall a, b | 0 <= a < b < |ids| :: ids[a] < ids[b]
  }

  /** The rows with this status from `from` on, lowest id first. */
  function RowsIn(q: Queue, st: ItemStatus, from: nat): (ids: seq<nat>)
    requires from <= |q|
    ensures Ascending(ids)
    ensures forall a | 0 <= a < |ids| :: from <= ids[a] < |q| && q[ids[a]].status == st
    ensures forall i | from <= i < |q| && q[i].status == st :: i in ids
    decreases |q| - from
  {
    if from == |q| then []
    else if q[from].status == st then [from] + RowsIn(q, st, from + 1)
    else RowsIn(q, st, from + 1)
  }

  function Min(a: nat, b: nat): nat { if a <= b then a else b }

  lemma PrefixIsLowest(all: seq<nat>, m: nat)
    requires Ascending(all) && m <= |all|
    ensures forall i | i in all && i !in all[..m] :: m < |all| && forall a | 0 <= a < m :: all[a] < i
  {
    assert forall b | 0 <= b < m :: all[..m][b] == all[b];
    forall i | i in all && i !in all[..m] ensures m < |all| && forall a | 0 <= a < m :: all[a] < i {
      var b :| 0 <= b < |all| && all[b] == i;
    }
  }

  /** The pending rows with the lowest ids, at most `limit` of them: a pending row left out lies above all of these. */
  function PendingIds(q: Queue, limit: nat): (ids: seq<nat>)
    ensures Ascending(ids) && |ids| <= limit
    ensures forall a | 0 <= a < |ids| :: ids[a] < |q| && q[ids[a]].status == Pending
    ensures forall i | 0 <= i < |q| && q[i].status == Pending ::
              i in ids || (|ids| == limit && forall a | 0 <= a < |ids| :: ids[a] < i)
  {
    var all := RowsIn(q, Pending, 0);
    var m := Min(limit, |all|);
    PrefixIsLowest(all, m);
    all[..m]
  }

  /** SELECT ... WHERE status = 'pending' ORDER BY id LIMIT 100, after stale leases have expired. */
  function LeaseIds(q: Queue, now: nat): seq<nat> {
    PendingIds(ExpireAll(q, now), LEASE_LIMIT)
  }

  function StatusOf(notes: Notes, note: Option<NoteId>): Option<SyncStatus> {
    if note.Some? && note.value in notes then Some(notes[note.value].status) else None
  }

  function TakeLease(x: Item, until: nat): Item {
    x.(status := Processing, leaseUntil := Some(until))
  }

  /** The rows handed to the bridge. */
  function LeaseRows(h: HubState, now: nat): (r: seq<Leased>)
    ensures |r| == |LeaseIds(h.queue, now)|
    ensures forall a | 0 <= a < |r| ::
              var i := LeaseIds(h.queue, now)[a];
              r[a] == Leased(i, TakeLease(h.queue[i], now + LEASE_SECONDS), StatusOf(h.notes, h.queue[i].note))
  {
    var ids := LeaseIds(h.queue, now);
    seq(|ids|, a requires 0 <= a < |ids| =>
      Leased(ids[a], TakeLease(h.queue[ids[a]], now + LEASE_SECONDS), StatusOf(h.notes, h.queue[ids[a]].note)))
  }

  function LeaseQueue(q: Queue, now: nat): (r: Queue)
    ensures |r| == |q|
    ensures forall i | 0 <= i < |q| ::
              r[i] == if i in LeaseIds(q, now) then TakeLease(q[i], now + LEASE_SECONDS) else Expired(q[i], now)
  {
    var ids := LeaseIds(q, now);
    seq(|q|, i requires 0 <= i < |q| =>
      if i in ids then TakeLease(q[i], now + LEASE_SECONDS) else Expired(q[i], now))
  }

  // ---- AckQueueItems ----

  /** bear_id is a UNIQUE column of notes. */
  ghost predicate UniqueBear(notes: Notes) {
    forall m, n | m in notes && n in notes && notes[m].bearId.Some? && notes[m].bearId == notes[n].bearId :: m == n
  }

  /** The row `WHERE bear_id = ?` selects. */
  ghost function NoteOf(notes: Notes, b: BearId): (r: Option<NoteId>)
    ensures r.Some? ==> r.value in notes && notes[r.value].bearId == Some(b)
    ensures r.None? ==> forall n | n in notes :: notes[n].bearId != Some(b)
  {
    if exists n :: n in notes && notes[n].bearId == Some(b)
    then var n :| n in notes && notes[n].bearId == Some(b); Some(n) else None
  }

  predicate UnfinishedFor(x: Item, n: NoteId) { x.note == Some(n) && x.Unfinished() }

  /** COUNT(*) of the note's other pending or processing rows is positive. */
  predicate OtherUnfinished(q: Queue, n: NoteId, id: nat) {
    exists j | 0 <= j < |q| :: j != id && UnfinishedFor(q[j], n)
  }

  /** The note row after an applied ack, `other` telling whether unfinished rows remain (ackUpdateNoteStatus). */
  function AckedNote(note: Note, a: AckItem, other: bool): Note {
    if a.conflictResolved then
      if !other && note.status == Conflict
      then note.(status := Synced, pendTitle := None, pendBody := None, expected := None) else note
    else if note.status == Conflict then note
    else if a.bearId.Some? then
      if other
      then note.(bearId := a.bearId, status := PendingToBear, expected := a.modifiedAt,
                 pendTitle := Some(note.title), pendBody := Some(note.body))
      else note.(bearId := a.bearId, status := Synced, expected := a.modifiedAt, pendTitle := None, pendBody := None)
    else if !other then note.(status := Synced, pendTitle := None, pendBody := None, expected := None)
    else note.(expected := a.modifiedAt)
  }

  /** The UPDATE would give a second note this bear_id. */
  predicate Collides(notes: Notes, n: NoteId, a: AckItem) {
    && !a.conflictResolved && a.bearId.Some?
    && n in notes && notes[n].status != Conflict
    && exists m | m in notes :: m != n && notes[m].bearId == a.bearId
  }

  /** The snapshot SELECT finds no row, which aborts the batch. */
  predicate SnapshotMissing(notes: Notes, n: NoteId, a: AckItem, other: bool) {
    !a.conflictResolved && a.bearId.Some? && other && n !in notes
  }

  function AckNote(notes: Notes, n: NoteId, a: AckItem, other: bool): Result<Notes> {
    if SnapshotMissing(notes, n, a, other) || Collides(notes, n, a) then Err
    else if n in notes then Ok(notes[n := AckedNote(notes[n], a, other)])
    else Ok(notes)
  }

  /** Acks reach only rows being processed; an unknown id, a pending row and a terminal row are left alone. */
  predicate AckTakesEffect(q: Queue, a: AckItem) { a.id < |q| && q[a.id].status == Processing }

  function AckOne(h: HubState, a: AckItem): Result<HubState> {
    if !AckTakesEffect(h.queue, a) then Ok(h)
    else
      var x := h.queue[a.id];
      if !a.applied then Ok(h.(queue := h.queue[a.id := x.(status := Failed)]))
      else
        var q := h.queue[a.id := x.(status := Applied)];
        if x.note.None? then Ok(h.(queue := q))
        else
          var notes := AckNote(h.notes, x.note.value, a, OtherUnfinished(q, x.note.value, a.id));
          if notes.Err? then Err else Ok(HubState(notes.value, q, h.blobs))
  }

  /** One transaction over the batch: an error undoes all of it. */
  function AckAll(h: HubState, acks: seq<AckItem>): Result<HubState>
    decreases |acks|
  {
    if acks == [] then Ok(h)
    else
      var r := AckOne(h, acks[0]);
      if r.Err? then Err else AckAll(r.value, acks[1..])
  }

  /** The blobs syncAck removes: add_file rows of this batch that are applied once the batch has committed. */
  function Cleaned(q: Queue, acks: seq<AckItem>): set<BlobId> {
    set k | 0 <= k < |acks| && acks[k].applied && acks[k].id < |q|
            && q[acks[k].id].write.AddFile? && q[acks[k].id].status == Applied :: q[acks[k].id].write.blob
  }

  function SyncAck(h: HubState, acks: seq<AckItem>): (HubState, Reply) {
    var r := AckAll(h, acks);
    if r.Err? then (h, Internal)
    else (r.value.(blobs := r.value.blobs - Cleaned(r.value.queue, acks)), Done)
  }

  // ---- ProcessSyncPush ----

  /** detectContentConflict. */
  function DetectConflict(p: PushNote, note: Note): SyncStatus {
    if note.pendTitle.None? || note.pendBody.None? then Conflict
    else if (p.title != note.pendTitle.value && note.title != note.pendTitle.value)
         || (p.body != note.pendBody.value && note.body != note.pendBody.value) then Conflict
    else PendingToBear
  }

  predicate IsEcho(p: PushNote, note: Note) { note.expected.Some? && p.modifiedAt == note.expected }

  predicate StampMoved(p: PushNote, note: Note) {
    p.modifiedAt.Some? && note.modifiedAt.Some? && p.modifiedAt != note.modifiedAt
  }

  /** The note row after a push of its Bear note (updateExistingNote). */
  function PushedNote(note: Note, p: PushNote): Note {
    if note.status == PendingToBear then
      note.(status := if IsEcho(p, note) then PendingToBear
                      else if StampMoved(p, note) then DetectConflict(p, note) else PendingToBear,
            expected := if IsEcho(p, note) then None else note.expected,
            modifiedAt := p.modifiedAt, trashed := p.trashed, archived := p.archived, encrypted := p.encrypted)
    else
      Note(p.bearId, p.title, p.body, note.status, p.modifiedAt, None, None, None, p.trashed, p.archived, p.encrypted)
  }

  function InsertedNote(p: PushNote): Note {
    Note(p.bearId, p.title, p.body, Synced, p.modifiedAt, None, None, None, p.trashed, p.archived, p.encrypted)
  }

  ghost function Upsert(notes: Notes, p: PushNote): Notes {
    var n := if p.bearId.Some? then NoteOf(notes, p.bearId.value) else None;
    if n.Some? then notes[n.value := PushedNote(notes[n.value], p)] else notes[p.id := InsertedNote(p)]
  }

  ghost function UpsertAll(notes: Notes, ps: seq<PushNote>): Notes
    decreases |ps|
  {
    if ps == [] then notes else UpsertAll(Upsert(notes, ps[0]), ps[1..])
  }

  /** The notes whose bear_id is in the push's deleted list. */
  function Doomed(notes: Notes, deleted: set<BearId>): set<NoteId> {
    set n | n in notes && notes[n].bearId.Some? && notes[n].bearId.value in deleted
  }

  function FailedIfDoomed(x: Item, doomed: set<NoteId>): Item {
    if x.Unfinished() && x.note.Some? && x.note.value in doomed then x.(status := Failed) else x
  }

  function FailDoomed(q: Queue, doomed: set<NoteId>): (r: Queue)
    ensures |r| == |q|
    ensures forall i | 0 <= i < |q| :: r[i] == FailedIfDoomed(q[i], doomed)
  {
    seq(|q|, i requires 0 <= i < |q| => FailedIfDoomed(q[i], doomed))
  }

  ghost function Push(h: HubState, ps: seq<PushNote>, deleted: set<BearId>): HubState {
    var notes := UpsertAll(h.notes, ps);
    var doomed := Doomed(notes, deleted);
    HubState(notes - doomed, FailDoomed(h.queue, doomed), h.blobs)
  }
}
