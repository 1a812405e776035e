/** What the tables satisfy in every reachable state, and that every operation keeps it. */
module Invariant {
  import opened Model
  import opened Store
  import opened Handlers

  /** A row of the queue against the note row it names. */
  predicate RowOk(x: Item, note: Note)
    requires x.write.TargetsNote()
  {
    // Until Bear knows the note, its only rows are its create; a create that is not applied leaves it unknown to Bear.
    && (note.bearId.None? ==> x.write.Create?)
    && (x.write.Create? && x.status != Applied ==> note.bearId.None?)
    && (x.Unfinished() ==>
          // The note is protected while a content write is unfinished.
          && (x.write.MarksNote() ==> note.status != Synced)
          // What Bear will be told to create is what the hub shows, also after updates were merged into it.
          && (x.write.Create? ==> note.body == x.write.body && note.status == PendingToBear)
          // The payload addresses the right Bear note.
          && (!x.write.Create? ==> note.bearId == Some(x.write.bear)))
  }

  predicate ItemOk(x: Item, notes: Notes, blobs: set<BlobId>) {
    && (x.write.TargetsNote() <==> x.note.Some?)
    && (x.status == Processing ==> x.leaseUntil.Some?)
    && (x.write.AddFile? && x.status != Applied ==> x.write.blob in blobs)
    && (x.note.Some? ==>
          && (x.Unfinished() ==> x.note.value in notes)
          && (x.note.value in notes ==> RowOk(x, notes[x.note.value])))
  }

  /** No two rows create the same note or carry the same upload. */
  predicate Apart(x: Item, y: Item) {
    && !(x.write.Create? && y.write.Create? && x.note == y.note)
    && !(x.write.AddFile? && y.write.AddFile? && x.write.blob == y.write.blob)
  }

  predicate NoteOk(note: Note) {
    && (note.status == Synced || note.bearId.None? ==> note.pendTitle.None? && note.pendBody.None?)
    && (note.status == PendingToBear && note.bearId.Some? ==> note.pendTitle.Some? && note.pendBody.Some?)
    && (note.status == Conflict ==> note.bearId.Some?)
  }

  ghost predicate Inv(h: HubState) {
    && UniqueBear(h.notes)
    && (forall n | n in h.notes :: NoteOk(h.notes[n]))
    && (forall i | 0 <= i < |h.queue| :: ItemOk(h.queue[i], h.notes, h.blobs))
    && (forall i, j | 0 <= i < |h.queue| && 0 <= j < |h.queue| && i != j :: Apart(h.queue[i], h.queue[j]))
  }

  // ---- Random ids ----

  predicate FreshNote(h: HubState, id: NoteId) {
    id !in h.notes && forall i | 0 <= i < |h.queue| :: h.queue[i].note != Some(id)
  }

  predicate FreshBlob(h: HubState, b: BlobId) {
    && b !in h.blobs
    && forall i | 0 <= i < |h.queue| && h.queue[i].write.AddFile? :: h.queue[i].write.blob != b
  }

  predicate FreshIds(h: HubState, r: Request) {
    && (r.CreateNote? ==> FreshNote(h, r.id))
    && (r.AttachFile? ==> FreshBlob(h, r.blob))
  }

  // ---- Consumer requests ----

  /** Row i of q2 is new or rewritten, everything else is as in q; no row being processed is touched. */
  predicate PlacedAt(q: Queue, q2: Queue, i: nat, note: Option<NoteId>, w: Write) {
    && |q| <= |q2| && i < |q2| <= |q| + 1
    && (|q2| == |q| + 1 ==> i == |q|)
    && q2[i].note == note && q2[i].write == w && q2[i].status == Pending
    && (forall j | 0 <= j < |q| && j != i :: q2[j] == q[j])
    && (i < |q| ==>
          || q[i].status == Failed
          || (q[i].status == Pending && q[i].note == note && q[i].write.Update? && w.Update?))
  }

  lemma EnqueuePlaces(q: Queue, k: Key, c: Consumer, note: Option<NoteId>, w: Write)
    requires !Answered(q, k, c)
    ensures PlacedAt(q, Enqueue(q, k, c, note, w), Slot(q, k, c, note, w), note, w)
  {
  }

  lemma EnqueueKeeps(h: HubState, h2: HubState, k: Key, c: Consumer, note: Option<NoteId>, w: Write)
    requires Inv(h) && !Answered(h.queue, k, c)
    requires h2.queue == Enqueue(h.queue, k, c, note, w)
    requires UniqueBear(h2.notes) && forall n | n in h2.notes :: NoteOk(h2.notes[n])
    requires ItemOk(Fresh(k, c, note, w), h2.notes, h2.blobs)
    requires forall j | 0 <= j < |h.queue| :: Apart(h.queue[j], Fresh(k, c, note, w))
    requires forall j | 0 <= j < |h.queue| :: ItemOk(h.queue[j], h2.notes, h2.blobs)
    ensures Inv(h2)
  {
    EnqueuePlaces(h.queue, k, c, note, w);
    var q, q2, i := h.queue, h2.queue, Slot(h.queue, k, c, note, w);
    forall j | 0 <= j < |q2| ensures ItemOk(q2[j], h2.notes, h2.blobs) {
      if j != i { assert q2[j] == q[j]; }
    }
    forall a, b | 0 <= a < |q2| && 0 <= b < |q2| && a != b ensures Apart(q2[a], q2[b]) {
      if a != i && b != i {
        assert q2[a] == q[a] && q2[b] == q[b];
      } else if a == i {
        assert q2[b] == q[b];
      } else {
        assert q2[a] == q[a];
      }
    }
  }

  /** Rewriting one note row that keeps its bear_id and ends pending_to_bear breaks no queue row. */
  lemma MarkedNoteKeepsItems(h: HubState, n: NoteId, note: Note)
    requires Inv(h) && n in h.notes && h.notes[n].bearId.Some?
    requires note.bearId == h.notes[n].bearId && note.status == PendingToBear
    requires note.pendTitle.Some? && note.pendBody.Some?
    ensures var notes := h.notes[n := note];
            && UniqueBear(notes) && (forall m | m in notes :: NoteOk(notes[m]))
            && forall j | 0 <= j < |h.queue| :: ItemOk(h.queue[j], notes, h.blobs)
  {
    forall j | 0 <= j < |h.queue| ensures ItemOk(h.queue[j], h.notes[n := note], h.blobs) {
      assert ItemOk(h.queue[j], h.notes, h.blobs);
    }
  }

  lemma CreateKeeps(h: HubState, r: Request, k: Key, c: Consumer, fault: bool)
    requires Inv(h) && r.CreateNote? && FreshNote(h, r.id)
    ensures Inv(CreateStep(h, r, k, c, fault).0)
  {
    if r.title != "" && !Answered(h.queue, k, c) {
      var rest := WithoutOrphan(h, k, c);
      forall j | 0 <= j < |h.queue| ensures ItemOk(h.queue[j], rest, h.blobs) {
        assert ItemOk(h.queue[j], h.notes, h.blobs);
        if h.queue[j].Unfinished() && h.queue[j].note.Some? {
          OrphanHasNoUnfinished(h, k, c, j);
        }
      }
      if !fault {
        var h2 := CreateStep(h, r, k, c, fault).0;
        var w := Create(r.title, r.body, r.tags);
        forall j | 0 <= j < |h.queue|
          ensures ItemOk(h.queue[j], h2.notes, h2.blobs) && Apart(h.queue[j], Fresh(k, c, Some(r.id), w))
        {
          assert h.queue[j].note != Some(r.id);
        }
        EnqueueKeeps(h, h2, k, c, Some(r.id), w);
      }
    }
  }

  /** A create that is not applied is the only row of its note, finished rows included. */
  lemma OnlyCreate(h: HubState, i: nat)
    requires Inv(h) && i < |h.queue| && h.queue[i].write.Create? && h.queue[i].status != Applied
    requires h.queue[i].note.Some? ==> h.queue[i].note.value in h.notes
    ensures forall j | 0 <= j < |h.queue| && j != i :: h.queue[j].note != h.queue[i].note
  {
    assert ItemOk(h.queue[i], h.notes, h.blobs);
    forall j | 0 <= j < |h.queue| && j != i ensures h.queue[j].note != h.queue[i].note {
      assert ItemOk(h.queue[j], h.notes, h.blobs) && Apart(h.queue[j], h.queue[i]);
    }
  }

  /** The note a failed create leaves behind has no unfinished row, so deleting it strands nothing. */
  lemma OrphanHasNoUnfinished(h: HubState, k: Key, c: Consumer, j: nat)
    requires Inv(h) && j < |h.queue| && h.queue[j].Unfinished() && h.queue[j].note.Some?
    ensures h.queue[j].note.value in WithoutOrphan(h, k, c)
  {
    assert ItemOk(h.queue[j], h.notes, h.blobs);
    var f := Find(h.queue, ByKey(k, c));
    if f.Some? && h.queue[f.value].status == Failed && h.queue[f.value].write.Create?
       && h.queue[f.value].note.Some? && h.queue[f.value].note.value in h.notes
    {
      OnlyCreate(h, f.value);
    }
  }

  lemma CoalesceKeeps(h: HubState, n: NoteId, body: string, k: Key, c: Consumer)
    requires Inv(h) && n in h.notes && h.notes[n].bearId.None?
    ensures Inv(CoalesceStep(h, n, body, k, c).0)
  {
    var f := Find(h.queue, PendingCreate(n, c));
    if f.Some? {
      var x := h.queue[f.value];
      MergedCreateKeeps(h, f.value, Edited(h.notes[n], body),
          x.(write := Create(x.write.title, body, x.write.tags), secondary := Some(k)));
    }
  }

  lemma MergedCreateKeeps(h: HubState, i: nat, note: Note, y: Item)
    requires Inv(h) && i < |h.queue| && h.queue[i].write.Create? && h.queue[i].status == Pending
    requires y.write.Create? && y.note == h.queue[i].note && y.status == Pending
    requires y.note.Some? && y.note.value in h.notes
    requires note.bearId.None? && note.status == PendingToBear && note.body == y.write.body
    requires note.pendTitle.None? && note.pendBody.None?
    ensures Inv(HubState(h.notes[y.note.value := note], h.queue[i := y], h.blobs))
  {
    var h2 := HubState(h.notes[y.note.value := note], h.queue[i := y], h.blobs);
    OnlyCreate(h, i);
    assert ItemOk(h.queue[i], h.notes, h.blobs);
    forall j | 0 <= j < |h2.queue| ensures ItemOk(h2.queue[j], h2.notes, h2.blobs) {
      assert ItemOk(h.queue[j], h.notes, h.blobs);
    }
    forall a, b | 0 <= a < |h2.queue| && 0 <= b < |h2.queue| && a != b ensures Apart(h2.queue[a], h2.queue[b]) {
      assert Apart(h.queue[a], h.queue[b]);
    }
  }

  lemma PutKeeps(h: HubState, n: NoteId, body: string, k: Key, c: Consumer)
    requires Inv(h) && n in h.notes && h.notes[n].bearId.Some? && h.notes[n].status != Conflict
    requires !Answered(h.queue, k, c)
    ensures Inv(PutStep(h, n, body, k, c).0)
  {
    var h2 := PutStep(h, n, body, k, c).0;
    assert NoteOk(h.notes[n]);
    MarkedNoteKeepsItems(h, n, h2.notes[n]);
    EnqueueKeeps(h, h2, k, c, Some(n), Update(body, h.notes[n].bearId.value));
  }

  lemma FlagKeeps(h: HubState, n: NoteId, k: Key, c: Consumer, fault: bool)
    requires Inv(h)
    ensures Inv(TrashStep(h, n, k, c, fault).0) && Inv(ArchiveStep(h, n, k, c, fault).0)
  {
    if Refusal(h.notes, n).None? && !Answered(h.queue, k, c) && !fault {
      assert NoteOk(h.notes[n]);
      var b := h.notes[n].bearId.value;
      var t, a := TrashStep(h, n, k, c, fault).0, ArchiveStep(h, n, k, c, fault).0;
      MarkedNoteKeepsItems(h, n, t.notes[n]);
      EnqueueKeeps(h, t, k, c, Some(n), Trash(b));
      MarkedNoteKeepsItems(h, n, a.notes[n]);
      EnqueueKeeps(h, a, k, c, Some(n), Archive(b));
    }
  }

  lemma TagKeeps(h: HubState, n: NoteId, tag: string, k: Key, c: Consumer, fault: bool)
    requires Inv(h)
    ensures Inv(TagStep(h, n, tag, k, c, fault).0)
  {
    if Refusal(h.notes, n).None? && tag != "" && !Answered(h.queue, k, c) && !fault {
      EnqueueKeeps(h, TagStep(h, n, tag, k, c, fault).0, k, c, Some(n), AddTag(tag, h.notes[n].bearId.value));
    }
  }

  lemma FileKeeps(h: HubState, n: NoteId, upload: Option<Upload>, blob: BlobId, k: Key, c: Consumer, fault: bool)
    requires Inv(h) && FreshBlob(h, blob)
    ensures Inv(FileStep(h, n, upload, blob, k, c, fault).0)
  {
    var h2 := FileStep(h, n, upload, blob, k, c, fault).0;
    if h2 != h {
      forall j | 0 <= j < |h.queue| ensures ItemOk(h.queue[j], h2.notes, h2.blobs) {
        assert ItemOk(h.queue[j], h.notes, h.blobs);
      }
      EnqueueKeeps(h, h2, k, c, Some(n), AddFile(blob, StoredName(upload.value.base), h.notes[n].bearId.value));
    }
  }

  lemma TagWideKeeps(h: HubState, found: Option<string>, bad: bool, w: Write, k: Key, c: Consumer, fault: bool)
    requires Inv(h) && !w.TargetsNote()
    ensures Inv(TagWideStep(h, found, bad, w, k, c, fault).0)
  {
    if found.Some? && !bad && !Answered(h.queue, k, c) && !fault {
      EnqueueKeeps(h, TagWideStep(h, found, bad, w, k, c, fault).0, k, c, None, w);
    }
  }

  /** Every consumer request, accepted, refused or failed, keeps the invariant. */
  lemma ServeKeeps(h: HubState, r: Request, k: Key, c: Consumer, fault: bool)
    requires Inv(h) && FreshIds(h, r)
    ensures Inv(Serve(h, r, k, c, fault).0)
  {
    match r
    case CreateNote(_, _, _, _, _) => CreateKeeps(h, r, k, c, fault);
    case UpdateNote(n, body) =>
      if n in h.notes {
        if h.notes[n].bearId.None? {
          CoalesceKeeps(h, n, body, k, c);
        } else if h.notes[n].status != Conflict && !Answered(h.queue, k, c) {
          PutKeeps(h, n, body, k, c);
        }
      }
    case TrashNote(n) => FlagKeeps(h, n, k, c, fault);
    case ArchiveNote(n) => FlagKeeps(h, n, k, c, fault);
    case TagNote(n, tag) => TagKeeps(h, n, tag, k, c, fault);
    case AttachFile(n, upload, blob) => FileKeeps(h, n, upload, blob, k, c, fault);
    case RenameTagReq(found, newName) =>
      TagWideKeeps(h, found, newName == "", RenameTag(if found.Some? then found.value else "", newName), k, c, fault);
    case DeleteTagReq(found) =>
      TagWideKeeps(h, found, false, DeleteTag(if found.Some? then found.value else ""), k, c, fault);
  }

  // ---- Leases ----

  /** A row that at most moved between pending and processing. */
  predicate Shuffled(x: Item, y: Item) {
    && y == x.(status := y.status, leaseUntil := y.leaseUntil)
    && (y.Unfinished() <==> x.Unfinished()) && (y.status == Applied <==> x.status == Applied)
    && (y.status == Processing ==> y.leaseUntil.Some? || y == x)
  }

  lemma LeaseShuffles(q: Queue, now: nat, i: nat)
    requires i < |q|
    ensures Shuffled(q[i], LeaseQueue(q, now)[i])
  {
    if i in LeaseIds(q, now) {
      assert Expired(q[i], now).status == Pending;
    }
  }

  lemma LeaseKeeps(h: HubState, now: nat)
    requires Inv(h)
    ensures Inv(h.(queue := LeaseQueue(h.queue, now)))
  {
    var q, q2 := h.queue, LeaseQueue(h.queue, now);
    forall i | 0 <= i < |q| ensures Shuffled(q[i], q2[i]) {
      LeaseShuffles(q, now, i);
    }
    ShuffleKeeps(h, q2);
  }

  lemma ShuffleKeeps(h: HubState, q2: Queue)
    requires Inv(h) && |q2| == |h.queue| && forall i | 0 <= i < |q2| :: Shuffled(h.queue[i], q2[i])
    ensures Inv(h.(queue := q2))
  {
    forall i | 0 <= i < |q2| ensures ItemOk(q2[i], h.notes, h.blobs) {
      assert ItemOk(h.queue[i], h.notes, h.blobs) && Shuffled(h.queue[i], q2[i]);
    }
    forall i, j | 0 <= i < |q2| && 0 <= j < |q2| && i != j ensures Apart(q2[i], q2[j]) {
      assert Apart(h.queue[i], h.queue[j]) && Shuffled(h.queue[i], q2[i]) && Shuffled(h.queue[j], q2[j]);
    }
  }

  // ---- Acks ----

  /**
   * An ack of the kind the bridge sends for the row `x` it was given: an applied create and nothing else brings a
   * bear_id, unless it settled a conflict, which it does exactly for the rows of conflicted notes.
   */
  predicate Reports(x: Item, noteStatus: Option<SyncStatus>, a: AckItem) {
    a.applied ==>
      && (a.conflictResolved <==> x.note.Some? && noteStatus == Some(Conflict))
      && (a.bearId.Some? <==> x.write.Create? && !a.conflictResolved)
      && (a.conflictResolved ==> a.modifiedAt.None?)
  }

  lemma AckOneKeeps(h: HubState, a: AckItem)
    requires Inv(h)
    requires AckTakesEffect(h.queue, a) ==> Reports(h.queue[a.id], StatusOf(h.notes, h.queue[a.id].note), a)
    requires AckOne(h, a).Ok?
    ensures Inv(AckOne(h, a).value)
  {
    if AckTakesEffect(h.queue, a) {
      var x := h.queue[a.id];
      var h2 := AckOne(h, a).value;
      assert ItemOk(x, h.notes, h.blobs);
      forall i, j | 0 <= i < |h2.queue| && 0 <= j < |h2.queue| && i != j ensures Apart(h2.queue[i], h2.queue[j]) {
        assert Apart(h.queue[i], h.queue[j]);
      }
      if !a.applied || x.note.None? {
        forall j | 0 <= j < |h2.queue| ensures ItemOk(h2.queue[j], h2.notes, h2.blobs) {
          assert ItemOk(h.queue[j], h.notes, h.blobs);
        }
      } else {
        AckedItemsKeep(h, a);
      }
    }
  }

  lemma AckedItemsKeep(h: HubState, a: AckItem)
    requires Inv(h) && AckTakesEffect(h.queue, a) && a.applied && h.queue[a.id].note.Some?
    requires Reports(h.queue[a.id], StatusOf(h.notes, h.queue[a.id].note), a)
    requires AckOne(h, a).Ok?
    ensures var h2 := AckOne(h, a).value;
            && UniqueBear(h2.notes) && (forall n | n in h2.notes :: NoteOk(h2.notes[n]))
            && forall j | 0 <= j < |h2.queue| :: ItemOk(h2.queue[j], h2.notes, h2.blobs)
  {
    var x := h.queue[a.id];
    var n := x.note.value;
    var h2 := AckOne(h, a).value;
    var other := OtherUnfinished(h2.queue, n, a.id);
    assert ItemOk(x, h.notes, h.blobs) && NoteOk(h.notes[n]);
    assert h2.notes == h.notes[n := AckedNote(h.notes[n], a, other)];
    if x.write.Create? {
      OnlyCreate(h, a.id);
    }
    assert x.write.Create? ==> !other;
    forall j | 0 <= j < |h2.queue| ensures ItemOk(h2.queue[j], h2.notes, h2.blobs) {
      assert ItemOk(h.queue[j], h.notes, h.blobs);
      if j != a.id && h.queue[j].note == Some(n) {
        if h.queue[j].Unfinished() {
          assert UnfinishedFor(h2.queue[j], n);
        }
        assert Apart(h.queue[j], h.queue[a.id]);
      }
    }
  }

  /** Removing the blobs of applied uploads leaves every other upload in place. */
  lemma CleanupKeeps(h: HubState, acks: seq<AckItem>)
    requires Inv(h)
    ensures Inv(h.(blobs := h.blobs - Cleaned(h.queue, acks)))
  {
    var blobs := h.blobs - Cleaned(h.queue, acks);
    forall i | 0 <= i < |h.queue| ensures ItemOk(h.queue[i], h.notes, blobs) {
      var x := h.queue[i];
      assert ItemOk(x, h.notes, h.blobs);
      if x.write.AddFile? && x.status != Applied {
        forall k | 0 <= k < |acks| && acks[k].id < |h.queue| && h.queue[acks[k].id].write.AddFile?
                   && h.queue[acks[k].id].status == Applied
          ensures h.queue[acks[k].id].write.blob != x.write.blob
        {
          assert Apart(h.queue[acks[k].id], h.queue[i]);
        }
      }
    }
  }

  // ---- Pushes ----

  /** The ids the mapper drew are new, except where a repeated push finds the row it inserted before. */
  predicate FreshPush(h: HubState, ps: seq<PushNote>) {
    && (forall i | 0 <= i < |ps| ::
          FreshNote(h, ps[i].id)
          || (ps[i].id in h.notes && ps[i].bearId.Some? && h.notes[ps[i].id].bearId == ps[i].bearId))
    && (forall i, j | 0 <= i < j < |ps| :: ps[i].id != ps[j].id)
    && (forall i, j | 0 <= i < j < |ps| :: ps[i].bearId.Some? ==> ps[i].bearId != ps[j].bearId)
  }

  lemma PushedNoteOk(note: Note, p: PushNote)
    requires NoteOk(note) && note.bearId.Some? && note.bearId == p.bearId
    ensures NoteOk(PushedNote(note, p)) && PushedNote(note, p).bearId == note.bearId
    ensures PushedNote(note, p).status == Synced <==> note.status == Synced
  {
  }

  lemma UpsertKeeps(h: HubState, p: PushNote)
    requires Inv(h) && FreshPush(h, [p])
    ensures Inv(h.(notes := Upsert(h.notes, p)))
  {
    assert [p][0] == p;
    var h2 := h.(notes := Upsert(h.notes, p));
    var n := if p.bearId.Some? then NoteOf(h.notes, p.bearId.value) else None;
    if n.Some? {
      assert NoteOk(h.notes[n.value]);
      PushedNoteOk(h.notes[n.value], p);
    }
    forall i | 0 <= i < |h2.queue| ensures ItemOk(h2.queue[i], h2.notes, h2.blobs) {
      assert ItemOk(h.queue[i], h.notes, h.blobs);
    }
  }

  lemma FreshPushStep(h: HubState, ps: seq<PushNote>)
    requires Inv(h) && ps != [] && FreshPush(h, ps)
    ensures FreshPush(h, [ps[0]]) && FreshPush(h.(notes := Upsert(h.notes, ps[0])), ps[1..])
  {
    var p, rest, h2 := ps[0], ps[1..], h.(notes := Upsert(h.notes, ps[0]));
    assert [p][0] == p;
    forall i | 0 <= i < |rest|
      ensures FreshNote(h2, rest[i].id)
              || (rest[i].id in h2.notes && rest[i].bearId.Some? && h2.notes[rest[i].id].bearId == rest[i].bearId)
    {
      assert rest[i] == ps[i + 1];
    }
  }

  lemma {:induction false} UpsertAllKeeps(h: HubState, ps: seq<PushNote>)
    requires Inv(h) && FreshPush(h, ps)
    ensures Inv(h.(notes := UpsertAll(h.notes, ps)))
    decreases |ps|
  {
    if ps != [] {
      FreshPushStep(h, ps);
      UpsertKeeps(h, ps[0]);
      UpsertAllKeeps(h.(notes := Upsert(h.notes, ps[0])), ps[1..]);
    }
  }

  lemma DropKeeps(h: HubState, doomed: set<NoteId>)
    requires Inv(h) && forall n | n in doomed && n in h.notes :: h.notes[n].bearId.Some?
    ensures Inv(HubState(h.notes - doomed, FailDoomed(h.queue, doomed), h.blobs))
  {
    var h2 := HubState(h.notes - doomed, FailDoomed(h.queue, doomed), h.blobs);
    forall i | 0 <= i < |h2.queue| ensures ItemOk(h2.queue[i], h2.notes, h2.blobs) {
      assert ItemOk(h.queue[i], h.notes, h.blobs);
    }
    forall i, j | 0 <= i < |h2.queue| && 0 <= j < |h2.queue| && i != j ensures Apart(h2.queue[i], h2.queue[j]) {
      assert Apart(h.queue[i], h.queue[j]);
    }
  }

  /** A whole push, with its deletions, keeps the invariant. */
  lemma PushKeeps(h: HubState, ps: seq<PushNote>, deleted: set<BearId>)
    requires Inv(h) && FreshPush(h, ps)
    ensures Inv(Push(h, ps, deleted))
  {
    UpsertAllKeeps(h, ps);
    DropKeeps(h.(notes := UpsertAll(h.notes, ps)), Doomed(UpsertAll(h.notes, ps), deleted));
  }
}
