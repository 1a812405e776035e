/** How one note's row moves under each step, and what that means over runs. */
module NoteHistory {
  import opened Model
  import opened Store
  import opened Handlers
  import opened Invariant
  import opened Protocol

  // ---- A request and a note row ----

  /** A request leaves a row alone, or marks it pending with a snapshot of the first unsynced state. */
  predicate Served(v: Note, v2: Note) {
    || v2 == v
    || (v.bearId.None? && v2.bearId.None? && v2.status == v.status)
    || (&& v.bearId.Some? && v.status != Conflict && v2.status == PendingToBear
        && v2.bearId == v.bearId && v2.expected == v.expected && v2.modifiedAt == v.modifiedAt
        && v2.pendTitle == Snapshot(v).pendTitle && v2.pendBody == Snapshot(v).pendBody)
  }

  lemma ServeRow(h: HubState, r: Request, k: Key, c: Consumer, fault: bool, n: NoteId)
    requires Inv(h) && FreshIds(h, r)
    ensures var h2 := Serve(h, r, k, c, fault).0;
            && (n in h.notes && n in h2.notes ==> Served(h.notes[n], h2.notes[n]))
            && (n !in h.notes && n in h2.notes ==> h2.notes[n].bearId.None?)
            && (n in h.notes && n !in h2.notes ==> h.notes[n].bearId.None?)
  {
    if r.CreateNote? {
      var f := Find(h.queue, ByKey(k, c));
      if f.Some? { assert ItemOk(h.queue[f.value], h.notes, h.blobs); }
    }
  }

  /** Only an accepted PUT of this note changes its title or body. */
  lemma ServeContent(h: HubState, r: Request, k: Key, c: Consumer, fault: bool, n: NoteId)
    requires Inv(h) && FreshIds(h, r) && n in h.notes && n in Serve(h, r, k, c, fault).0.notes
    requires !(r.UpdateNote? && r.note == n)
    ensures var v2 := Serve(h, r, k, c, fault).0.notes[n]; v2.title == h.notes[n].title && v2.body == h.notes[n].body
  {
  }

  // ---- A push and a note row ----

  predicate Touches(p: PushNote, note: Note) { p.bearId.Some? && p.bearId == note.bearId }

  lemma UpsertRow(h: HubState, p: PushNote, n: NoteId)
    requires Inv(h) && FreshPush(h, [p]) && n in h.notes
    ensures var v := Upsert(h.notes, p);
            n in v && v[n] == if Touches(p, h.notes[n]) then PushedNote(h.notes[n], p) else h.notes[n]
  {
    assert [p][0] == p;
  }

  /** Bear ids are distinct within a push, so each row sees at most one entry, whatever the order. */
  lemma {:induction false} UpsertAllRow(h: HubState, ps: seq<PushNote>, n: NoteId)
    requires Inv(h) && FreshPush(h, ps) && n in h.notes
    ensures var v := UpsertAll(h.notes, ps);
            && n in v
            && (forall i | 0 <= i < |ps| && Touches(ps[i], h.notes[n]) :: v[n] == PushedNote(h.notes[n], ps[i]))
            && ((forall i | 0 <= i < |ps| :: !Touches(ps[i], h.notes[n])) ==> v[n] == h.notes[n])
    decreases |ps|
  {
    if ps != [] {
      FreshPushStep(h, ps);
      UpsertKeeps(h, ps[0]);
      UpsertRow(h, ps[0], n);
      var h1, rest := h.(notes := Upsert(h.notes, ps[0])), ps[1..];
      UpsertAllRow(h1, rest, n);
      assert h1.notes[n].bearId == h.notes[n].bearId;
      forall i | 0 <= i < |ps| && Touches(ps[i], h.notes[n])
        ensures UpsertAll(h.notes, ps)[n] == PushedNote(h.notes[n], ps[i])
      {
        if i > 0 {
          assert rest[i - 1] == ps[i];
        } else {
          assert forall j | 0 <= j < |rest| :: rest[j] == ps[j + 1];
        }
      }
      if forall i | 0 <= i < |ps| :: !Touches(ps[i], h.notes[n]) {
        assert !Touches(ps[0], h.notes[n]);
        assert forall j | 0 <= j < |rest| :: rest[j] == ps[j + 1];
      }
    }
  }

  /** Rows a push adds are exactly as Bear has them, and synced. */
  lemma {:induction false} UpsertAllNew(h: HubState, ps: seq<PushNote>, n: NoteId)
    requires Inv(h) && FreshPush(h, ps) && n !in h.notes && n in UpsertAll(h.notes, ps)
    ensures exists i | 0 <= i < |ps| :: ps[i].id == n && UpsertAll(h.notes, ps)[n] == InsertedNote(ps[i])
    decreases |ps|
  {
    if ps != [] {
      FreshPushStep(h, ps);
      UpsertKeeps(h, ps[0]);
      var h1, rest := h.(notes := Upsert(h.notes, ps[0])), ps[1..];
      assert forall j | 0 <= j < |rest| :: rest[j] == ps[j + 1];
      if n in h1.notes {
        UpsertAllRow(h1, rest, n);
        assert ps[0].id == n && h1.notes[n] == InsertedNote(ps[0]);
      } else {
        UpsertAllNew(h1, rest, n);
        var i :| 0 <= i < |rest| && rest[i].id == n && UpsertAll(h1.notes, rest)[n] == InsertedNote(rest[i]);
        assert ps[i + 1].id == n;
      }
    }
  }

  /** What a push makes of a row that survives it. */
  lemma PushRow(h: HubState, ps: seq<PushNote>, deleted: set<BearId>, n: NoteId)
    requires Inv(h) && FreshPush(h, ps)
    ensures var h2 := Push(h, ps, deleted);
            && (n in h.notes && n !in h2.notes <==>
                  n in h.notes && h.notes[n].bearId.Some? && h.notes[n].bearId.value in deleted)
            && (n in h.notes && n in h2.notes ==>
                  && (forall i | 0 <= i < |ps| && Touches(ps[i], h.notes[n]) ::
                      h2.notes[n] == PushedNote(h.notes[n], ps[i]))
                  && ((forall i | 0 <= i < |ps| :: !Touches(ps[i], h.notes[n])) ==> h2.notes[n] == h.notes[n]))
            && (n !in h.notes && n in h2.notes ==> h2.notes[n].status == Synced)
  {
    var v := UpsertAll(h.notes, ps);
    if n in h.notes {
      UpsertAllRow(h, ps, n);
      if i :| 0 <= i < |ps| && Touches(ps[i], h.notes[n]) {
        assert v[n] == PushedNote(h.notes[n], ps[i]);
      }
      assert v[n].bearId == h.notes[n].bearId;
    } else if n in v {
      UpsertAllNew(h, ps, n);
    }
  }

  /** A push never overwrites the title or body of a note with an unsynced write. */
  lemma PushProtects(h: HubState, ps: seq<PushNote>, deleted: set<BearId>, n: NoteId)
    requires Inv(h) && FreshPush(h, ps) && n in h.notes && h.notes[n].status == PendingToBear
    requires n in Push(h, ps, deleted).notes
    ensures var v, v2 := h.notes[n], Push(h, ps, deleted).notes[n];
            v2.title == v.title && v2.body == v.body && v2.status != Synced && v2.bearId == v.bearId
  {
    PushRow(h, ps, deleted, n);
    if i :| 0 <= i < |ps| && Touches(ps[i], h.notes[n]) {
      assert Push(h, ps, deleted).notes[n] == PushedNote(h.notes[n], ps[i]);
    }
  }

  // ---- A push, field by field ----

  /** The row says what the entry says, and remembers nothing of an unsynced time. */
  predicate AsPushed(v: Note, p: PushNote) {
    && v.bearId == p.bearId && v.title == p.title && v.body == p.body && v.modifiedAt == p.modifiedAt
    && v.trashed == p.trashed && v.archived == p.archived && v.encrypted == p.encrypted
    && v.pendTitle.None? && v.pendBody.None? && v.expected.None?
  }

  /** The row takes the entry's stamp and flags and keeps title, body and snapshot. */
  predicate Protected(v: Note, v2: Note, p: PushNote) {
    && v2.bearId == v.bearId && v2.title == v.title && v2.body == v.body && v2.modifiedAt == p.modifiedAt
    && v2.trashed == p.trashed && v2.archived == p.archived && v2.encrypted == p.encrypted
    && v2.pendTitle == v.pendTitle && v2.pendBody == v.pendBody
    && v2.expected == if v.expected.Some? && v.expected == p.modifiedAt then None else v.expected
  }

  /**
   * A pushed note that was synced or in conflict has every field of its entry and keeps its status; one that was
   * pending keeps what consumers wrote; one the push does not carry stays as it was.
   */
  lemma PushBringsEntry(h: HubState, ps: seq<PushNote>, deleted: set<BearId>, n: NoteId)
    requires Inv(h) && FreshPush(h, ps) && n in h.notes
    requires h.notes[n].bearId.Some? ==> h.notes[n].bearId.value !in deleted
    ensures n in Push(h, ps, deleted).notes
    ensures var v, v2 := h.notes[n], Push(h, ps, deleted).notes[n];
            && (forall i | 0 <= i < |ps| && ps[i].bearId.Some? && ps[i].bearId == v.bearId ::
                  if v.status == PendingToBear then Protected(v, v2, ps[i]) && v2.status != Synced
                  else AsPushed(v2, ps[i]) && v2.status == v.status)
            && (v.bearId.None? || (forall i | 0 <= i < |ps| :: ps[i].bearId != v.bearId) ==> v2 == v)
  {
    PushRow(h, ps, deleted, n);
    var v, v2 := h.notes[n], Push(h, ps, deleted).notes[n];
    forall i | 0 <= i < |ps| && ps[i].bearId.Some? && ps[i].bearId == v.bearId ensures v2 == PushedNote(v, ps[i]) {
      assert Touches(ps[i], v);
    }
  }

  /** Row n is not there yet under this entry's Bear id. */
  predicate Unknown(notes: Notes, p: PushNote) {
    p.bearId.Some? ==> forall n | n in notes :: notes[n].bearId != p.bearId
  }

  lemma UpsertKeepsUnknown(h: HubState, p: PushNote, p2: PushNote)
    requires Inv(h) && FreshPush(h, [p]) && Unknown(h.notes, p2) && (p.bearId.Some? ==> p.bearId != p2.bearId)
    ensures Unknown(Upsert(h.notes, p), p2)
  {
    assert [p][0] == p;
  }

  lemma {:induction false} UpsertAllAdds(h: HubState, ps: seq<PushNote>, i: nat)
    requires Inv(h) && FreshPush(h, ps) && i < |ps| && Unknown(h.notes, ps[i])
    ensures var v := UpsertAll(h.notes, ps); ps[i].id in v && v[ps[i].id] == InsertedNote(ps[i])
    decreases |ps|
  {
    FreshPushStep(h, ps);
    UpsertKeeps(h, ps[0]);
    var h1, rest := h.(notes := Upsert(h.notes, ps[0])), ps[1..];
    assert forall j | 0 <= j < |rest| :: rest[j] == ps[j + 1];
    if i == 0 {
      assert h1.notes[ps[0].id] == InsertedNote(ps[0]);
      UpsertAllRow(h1, rest, ps[0].id);
    } else {
      UpsertKeepsUnknown(h, ps[0], ps[i]);
      UpsertAllAdds(h1, rest, i - 1);
    }
  }

  /** An entry for a note the hub does not know becomes a synced note with every field of the entry. */
  lemma PushAddsEntry(h: HubState, ps: seq<PushNote>, deleted: set<BearId>, i: nat)
    requires Inv(h) && FreshPush(h, ps) && i < |ps|
    requires ps[i].bearId.Some? ==>
               ps[i].bearId.value !in deleted && forall n | n in h.notes :: h.notes[n].bearId != ps[i].bearId
    ensures var notes := Push(h, ps, deleted).notes;
            ps[i].id in notes && AsPushed(notes[ps[i].id], ps[i]) && notes[ps[i].id].status == Synced
  {
    UpsertAllAdds(h, ps, i);
  }

  /** Rows of the queue fail exactly when they are unfinished and Bear has deleted their note; the others stay. */
  lemma PushQueue(h: HubState, ps: seq<PushNote>, deleted: set<BearId>, j: nat)
    requires Inv(h) && FreshPush(h, ps) && j < |h.queue|
    ensures var x, q2 := h.queue[j], Push(h, ps, deleted).queue;
            && |q2| == |h.queue|
            && q2[j] == if x.Unfinished() && x.note.Some? && x.note.value in h.notes
                           && h.notes[x.note.value].bearId.Some? && h.notes[x.note.value].bearId.value in deleted
                        then x.(status := Failed) else x
    ensures Push(h, ps, deleted).blobs == h.blobs
  {
    var x := h.queue[j];
    assert ItemOk(x, h.notes, h.blobs);
    if x.Unfinished() && x.note.Some? {
      UpsertAllRow(h, ps, x.note.value);
      if i :| 0 <= i < |ps| && Touches(ps[i], h.notes[x.note.value]) {
        assert UpsertAll(h.notes, ps)[x.note.value] == PushedNote(h.notes[x.note.value], ps[i]);
      }
    }
  }

  // ---- An ack batch and a note row ----

  /** Acks keep title, body, modified_at and bear_id, and never open a pending or conflict state. */
  predicate Acked(v: Note, v2: Note) {
    && v2.title == v.title && v2.body == v.body && v2.modifiedAt == v.modifiedAt
    && v2.trashed == v.trashed && v2.archived == v.archived && v2.encrypted == v.encrypted
    && (v.bearId.Some? ==> v2.bearId == v.bearId)
    && (v2.status == Conflict ==> v.status == Conflict)
    && (v.status == Synced ==> v2.status == Synced)
    && (v2.status == PendingToBear && v2.bearId.Some? ==>
          && v.status == PendingToBear && v.bearId.Some?
          && v2.pendTitle == v.pendTitle && v2.pendBody == v.pendBody)
  }

  /** The note of an applied row, by the branches of ackUpdateNoteStatus. */
  lemma AckedIsAcked(v: Note, a: AckItem, other: bool)
    requires NoteOk(v) && (a.bearId.Some? && v.status != Conflict && !a.conflictResolved ==> v.bearId.None? && !other)
    requires v.bearId.None? ==> a.bearId.Some? || a.conflictResolved
    requires a.conflictResolved <==> v.status == Conflict
    ensures Acked(v, AckedNote(v, a, other))
  {
  }

  /** The create of a note is its only row, so nothing else is unfinished when it is acked. */
  lemma CreateHasNoOthers(h: HubState, a: AckItem, n: NoteId)
    requires Inv(h) && AckTakesEffect(h.queue, a) && h.queue[a.id].note == Some(n)
    ensures n in h.notes
    ensures h.queue[a.id].write.Create? ==>
              h.notes[n].bearId.None?
              && !OtherUnfinished(h.queue[a.id := h.queue[a.id].(status := Applied)], n, a.id)
    ensures !h.queue[a.id].write.Create? ==> h.notes[n].bearId.Some?
  {
    assert ItemOk(h.queue[a.id], h.notes, h.blobs);
    if h.queue[a.id].write.Create? { OnlyCreate(h, a.id); }
  }

  lemma AckOneRow(h: HubState, rows: seq<Leased>, acks: seq<AckItem>, n: NoteId)
    requires Inv(h) && acks != [] && InFlight(h, rows) && AckFor(rows, acks)
    requires AckOne(h, acks[0]).Ok?
    ensures AckOne(h, acks[0]).value.notes.Keys == h.notes.Keys
    ensures n in h.notes ==> Acked(h.notes[n], AckOne(h, acks[0]).value.notes[n])
  {
    var a := acks[0];
    var x := h.queue[a.id];
    AckStatusMatches(h, rows[0], a);
    if a.applied && x.note.Some? {
      var m := x.note.value;
      CreateHasNoOthers(h, a, m);
      var other := OtherUnfinished(h.queue[a.id := x.(status := Applied)], m, a.id);
      AckedIsAcked(h.notes[m], a, other);
      assert AckOne(h, a).value.notes == h.notes[m := AckedNote(h.notes[m], a, other)];
    }
  }

  lemma {:induction false} AckAllRow(h: HubState, rows: seq<Leased>, acks: seq<AckItem>, n: NoteId)
    requires Inv(h) && InFlight(h, rows) && AckFor(rows, acks) && AckAll(h, acks).Ok?
    ensures AckAll(h, acks).value.notes.Keys == h.notes.Keys
    ensures n in h.notes ==> Acked(h.notes[n], AckAll(h, acks).value.notes[n])
    decreases |acks|
  {
    if acks != [] {
      AckOneRow(h, rows, acks, n);
      AckStatusMatches(h, rows[0], acks[0]);
      AckOneKeeps(h, acks[0]);
      AckOneKeepsFlight(h, rows, acks[0]);
      AckAllRow(AckOne(h, acks[0]).value, rows[1..], acks[1..], n);
    }
  }

  /** A batch with no applied ack for any of the note's rows leaves the note alone. */
  lemma {:induction false} AckAllUntouched(h: HubState, acks: seq<AckItem>, n: NoteId)
    requires AckAll(h, acks).Ok?
    requires forall k | 0 <= k < |acks| && acks[k].applied && acks[k].id < |h.queue| ::
        h.queue[acks[k].id].note != Some(n)
    ensures var h2 := AckAll(h, acks).value;
            (n in h2.notes <==> n in h.notes) && (n in h.notes ==> h2.notes[n] == h.notes[n])
    decreases |acks|
  {
    if acks != [] {
      AckAllUntouched(AckOne(h, acks[0]).value, acks[1..], n);
    }
  }

  // ---- The last ack decides ----

  predicate InBatch(rows: seq<Leased>, j: nat) { exists a | 0 <= a < |rows| :: rows[a].id == j }

  lemma OutsideRowStays(h: HubState, rows: seq<Leased>, acks: seq<AckItem>, j: nat)
    requires InFlight(h, rows) && AckFor(rows, acks) && AckAll(h, acks).Ok? && j < |h.queue| && !InBatch(rows, j)
    ensures var q2 := AckAll(h, acks).value.queue; j < |q2| && q2[j] == h.queue[j]
  {
    AckAllFinishes(h, acks);
    assert forall k | 0 <= k < |acks| :: acks[k].id == rows[k].id;
    assert !Named(acks, j);
  }

  /** Every unfinished row of the note is in the batch. */
  predicate Covers(q: Queue, rows: seq<Leased>, n: NoteId) {
    forall j | 0 <= j < |q| && UnfinishedFor(q[j], n) :: InBatch(rows, j)
  }

  predicate LastRow(rows: seq<Leased>, n: NoteId, k: nat) {
    && k < |rows| && rows[k].item.note == Some(n)
    && forall j | k < j < |rows| :: rows[j].item.note != Some(n)
  }

  lemma CoversStep(h: HubState, rows: seq<Leased>, a: AckItem, n: NoteId)
    requires rows != [] && InFlight(h, rows) && a.id == rows[0].id && AckOne(h, a).Ok?
    ensures Covers(AckOne(h, a).value.queue, rows[1..], n) <==> Covers(h.queue, rows, n)
  {
    var q2 := AckOne(h, a).value.queue;
    assert forall j | 0 <= j < |q2| && j != a.id :: q2[j] == h.queue[j];
    forall j: nat ensures InBatch(rows, j) <==> j == a.id || InBatch(rows[1..], j) {
      if b :| 0 <= b < |rows[1..]| && rows[1..][b].id == j { assert rows[b + 1].id == j; }
      if b :| 0 < b < |rows| && rows[b].id == j { assert rows[1..][b - 1].id == j; }
    }
  }

  /** While a later row of the note is in flight, an ack leaves its status and snapshot alone. */
  lemma EarlierAck(h: HubState, rows: seq<Leased>, a: AckItem, n: NoteId, k: nat)
    requires Inv(h) && InFlight(h, rows) && n in h.notes && LastRow(rows, n, k) && k > 0
    requires a.id == rows[0].id && Reports(rows[0].item, rows[0].noteStatus, a) && AckOne(h, a).Ok?
    ensures n in AckOne(h, a).value.notes
    ensures var v, v2 := h.notes[n], AckOne(h, a).value.notes[n];
            v2.status == v.status && v2.pendTitle == v.pendTitle && v2.pendBody == v.pendBody
  {
    var h1 := AckOne(h, a).value;
    assert UnfinishedFor(h1.queue[rows[k].id], n);
    assert ItemOk(h.queue[a.id], h.notes, h.blobs);
    if h.queue[a.id].write.Create? { OnlyCreate(h, a.id); }
  }

  lemma {:induction false} LastAckOfNote(h: HubState, rows: seq<Leased>, acks: seq<AckItem>, n: NoteId)
    requires Inv(h) && InFlight(h, rows) && AckFor(rows, acks) && AckAll(h, acks).Ok?
    requires n in h.notes && h.notes[n].status != Synced && LastRow(rows, n, 0)
    ensures n in AckAll(h, acks).value.notes
    ensures var v, v2 := h.notes[n], AckAll(h, acks).value.notes[n];
            && (v2.status == Synced <==> Covers(h.queue, rows, n) && acks[0].applied)
            && (v2.status == Synced ==> v2.pendTitle.None? && v2.pendBody.None?)
            && (v2.status == Synced && v.status == Conflict ==> v2.expected.None?)
            && (v2.status != Synced ==>
                  v2.status == v.status && v2.pendTitle == v.pendTitle && v2.pendBody == v.pendBody)
  {
    var a, h1 := acks[0], AckOne(h, acks[0]).value;
    assert ItemOk(h.queue[a.id], h.notes, h.blobs);
    CoversLast(h, rows, a, n);
    if h.queue[a.id].write.Create? { OnlyCreate(h, a.id); }
    var rest := acks[1..];
    forall j | 0 <= j < |rest| && rest[j].id < |h1.queue| ensures h1.queue[rest[j].id].note != Some(n) {
      assert rest[j].id == rows[j + 1].id && rows[j + 1].item.note != Some(n);
    }
    AckAllUntouched(h1, rest, n);
  }

  lemma CoversLast(h: HubState, rows: seq<Leased>, a: AckItem, n: NoteId)
    requires InFlight(h, rows) && LastRow(rows, n, 0) && a.id == rows[0].id && AckOne(h, a).Ok?
    ensures Covers(h.queue, rows, n) <==> !OtherUnfinished(AckOne(h, a).value.queue, n, a.id)
  {
    var q2 := AckOne(h, a).value.queue;
    assert forall j | 0 <= j < |q2| && j != a.id :: q2[j] == h.queue[j];
    forall j | 0 <= j < |h.queue| && j != a.id && UnfinishedFor(h.queue[j], n) ensures !InBatch(rows, j) {
      forall b | 0 <= b < |rows| ensures rows[b].id != j {
        assert h.queue[rows[b].id] == rows[b].item;
      }
    }
    assert InBatch(rows, a.id);
  }

  /**
   * An unsynced or conflicted note ends synced, with its snapshot cleared, exactly when the batch holds all its
   * unfinished rows and the last of them was applied. Otherwise its status and snapshot stay as they were.
   */
  lemma {:induction false} LastAckDecides(h: HubState, rows: seq<Leased>, acks: seq<AckItem>, n: NoteId, k: nat)
    requires Inv(h) && InFlight(h, rows) && AckFor(rows, acks) && AckAll(h, acks).Ok?
    requires n in h.notes && h.notes[n].status != Synced && LastRow(rows, n, k)
    ensures n in AckAll(h, acks).value.notes
    ensures var v, v2 := h.notes[n], AckAll(h, acks).value.notes[n];
            && (v2.status == Synced <==> Covers(h.queue, rows, n) && acks[k].applied)
            && (v2.status == Synced ==> v2.pendTitle.None? && v2.pendBody.None?)
            && (v2.status == Synced && v.status == Conflict ==> v2.expected.None?)
            && (v2.status != Synced ==>
                  v2.status == v.status && v2.pendTitle == v.pendTitle && v2.pendBody == v.pendBody)
    decreases |acks|
  {
    var a, h1 := acks[0], AckOne(h, acks[0]).value;
    AckStatusMatches(h, rows[0], a);
    AckOneKeeps(h, a);
    AckOneKeepsFlight(h, rows, a);
    if k == 0 {
      LastAckOfNote(h, rows, acks, n);
    } else {
      EarlierAck(h, rows, a, n, k);
      CoversStep(h, rows, a, n);
      assert rows[1..][k - 1] == rows[k];
      LastAckDecides(h1, rows[1..], acks[1..], n, k - 1);
    }
  }
}
