/** The hub as the source runs it: tables updated in place, each method proved against Store and Handlers. */
module HubServer {
  import opened Model
  import opened Store
  import opened Handlers

  class Hub {
    var notes: Notes
    var queue: Queue
    var blobs: set<BlobId>

    ghost function State(): HubState
      reads this
    {
      HubState(notes, queue, blobs)
    }

    /** The schema's UNIQUE(bear_id), which every method keeps. */
    ghost predicate Valid()
      reads this
    {
      UniqueBear(notes)
    }

    constructor ()
      ensures Valid() && State() == HubState(map[], [], {})
    {
      notes, queue, blobs := map[], [], {};
    }

    // ---- write_queue ----

    method FindItem(s: Search) returns (r: Option<nat>)
      ensures IsFirst(queue, s, r) && r == Find(queue, s)
    {
      var i := 0;
      while i < |queue|
        invariant 0 <= i <= |queue|
        invariant forall j | 0 <= j < i :: !Matches(queue[j], s)
      {
        if Matches(queue[i], s) {
          return Some(i);
        }
        i := i + 1;
      }
      return None;
    }

    method EnqueueWrite(k: Key, c: Consumer, note: Option<NoteId>, w: Write, fault: bool) returns (r: Result<nat>)
      modifies this`queue
      ensures fault ==> r.Err? && queue == old(queue)
      ensures !fault ==> r == Ok(Slot(old(queue), k, c, note, w)) && queue == Enqueue(old(queue), k, c, note, w)
    {
      if fault {
        return Err;
      }
      var hit := FindItem(ByKey(k, c));
      if hit.Some? {
        HandleIdempotencyHit(hit.value, note, w);
        return Ok(hit.value);
      }
      if w.Update? && note.Some? {
        var target := FindItem(PendingUpdate(note.value, c));
        if target.Some? {
          queue := queue[target.value := queue[target.value].(write := w, secondary := Some(k))];
          return Ok(target.value);
        }
      }
      queue := queue + [Item(k, None, c, note, w, Pending, None)];
      return Ok(|queue| - 1);
    }

    method HandleIdempotencyHit(i: nat, note: Option<NoteId>, w: Write)
      requires i < |queue|
      modifies this`queue
      ensures queue
              == if old(queue[i].status) == Failed then old(queue)[i := Reset(old(queue[i]), note, w)] else old(queue)
    {
      if queue[i].status == Failed {
        queue := queue[i := queue[i].(status := Pending, write := w, note := note, leaseUntil := None)];
      }
    }

    method CoalesceCreateUpdate(k: Key, c: Consumer, n: NoteId, body: string) returns (done: bool)
      modifies this`queue
      ensures done <==> CoalesceCreate(old(queue), k, c, n, body).Some?
      ensures queue == if done then CoalesceCreate(old(queue), k, c, n, body).value else old(queue)
    {
      var f := FindItem(PendingCreate(n, c));
      if f.None? {
        return false;
      }
      var x := queue[f.value];
      queue := queue[f.value := x.(write := Create(x.write.title, body, x.write.tags), secondary := Some(k))];
      return true;
    }

    /** GetQueueItemByIdempotencyKey followed by isRetryableQueueItem. */
    method AlreadyAnswered(k: Key, c: Consumer) returns (yes: bool)
      ensures yes <==> Answered(queue, k, c)
    {
      var f := FindItem(ByKey(k, c));
      return f.Some? && queue[f.value].status != Failed;
    }

    // ---- consumer handlers ----

    method PostNote(title: string, body: string, tags: seq<string>, id: NoteId, now: nat,
                    k: Key, c: Consumer, fault: bool) returns (reply: Reply)
      requires Valid() && id !in notes
      modifies this`notes, this`queue
      ensures Valid()
      ensures (State(), reply) == Serve(old(State()), CreateNote(title, body, tags, id, now), k, c, fault)
    {
      if title == "" {
        return BadRequest;
      }
      var f := FindItem(ByKey(k, c));
      if f.Some? {
        var x := queue[f.value];
        if x.status != Failed {
          return Done;
        }
        if x.write.Create? && x.note.Some? {
          notes := notes - {x.note.value};
        }
      }
      ghost var rest := notes;
      notes := notes[id := Note(None, title, body, PendingToBear, Some(now), None, None, None, false, false, false)];
      var r := EnqueueWrite(k, c, Some(id), Create(title, body, tags), fault);
      if r.Err? {
        notes := notes - {id};
        assert notes == rest;
        return Internal;
      }
      return Done;
    }

    method PutNote(n: NoteId, body: string, k: Key, c: Consumer, fault: bool) returns (reply: Reply)
      requires Valid()
      modifies this`notes, this`queue
      ensures Valid()
      ensures (State(), reply) == Serve(old(State()), UpdateNote(n, body), k, c, fault)
    {
      if n !in notes {
        return NotFound;
      }
      var note := notes[n];
      if note.encrypted {
        return Forbidden;
      }
      if note.status == Conflict {
        return Conflicted;
      }
      if body == "" {
        return BadRequest;
      }
      var answered := AlreadyAnswered(k, c);
      if answered {
        return Done;
      }
      if note.bearId.None? {
        reply := HandleCreateUpdateCoalesce(n, body, k, c, fault);
      } else {
        reply := PutSynced(n, body, k, c, fault);
      }
    }

    method HandleCreateUpdateCoalesce(n: NoteId, body: string, k: Key, c: Consumer, fault: bool) returns (reply: Reply)
      requires Valid() && n in notes
      modifies this`notes, this`queue
      ensures Valid()
      ensures (State(), reply) == if fault then (old(State()), Internal) else CoalesceStep(old(State()), n, body, k, c)
    {
      if fault {
        return Internal;
      }
      var merged := CoalesceCreateUpdate(k, c, n, body);
      if !merged {
        return Conflicted;
      }
      notes := notes[n := Edited(notes[n], body)];
      return Done;
    }

    /** The rest of updateNote, once the note is known to have a bear_id. */
    method PutSynced(n: NoteId, body: string, k: Key, c: Consumer, fault: bool) returns (reply: Reply)
      requires Valid() && n in notes && notes[n].bearId.Some?
      modifies this`notes, this`queue
      ensures Valid()
      ensures (State(), reply) == if fault then (old(State()), Internal) else PutStep(old(State()), n, body, k, c)
    {
      var was := notes[n];
      var note := Edited(Snapshot(was), body);
      note := note.(status := PendingToBear);
      notes := notes[n := note];
      var r := EnqueueWrite(k, c, Some(n), Update(body, note.bearId.value), fault);
      if r.Err? {
        note := note.(title := was.title, body := was.body, status := was.status,
                      pendTitle := was.pendTitle, pendBody := was.pendBody);
        notes := notes[n := note];
        assert notes == old(notes);
        return Internal;
      }
      return Done;
    }

    method DeleteNote(n: NoteId, k: Key, c: Consumer, fault: bool) returns (reply: Reply)
      requires Valid()
      modifies this`notes, this`queue
      ensures Valid()
      ensures (State(), reply) == Serve(old(State()), TrashNote(n), k, c, fault)
    {
      var no := Refusal(notes, n);
      if no.Some? {
        return no.value;
      }
      var answered := AlreadyAnswered(k, c);
      if answered {
        return Done;
      }
      var was := notes[n];
      var note := Snapshot(was);
      note := note.(trashed := true, status := PendingToBear);
      notes := notes[n := note];
      var r := EnqueueWrite(k, c, Some(n), Trash(note.bearId.value), fault);
      if r.Err? {
        note := note.(trashed := was.trashed, status := was.status,
                      pendTitle := was.pendTitle, pendBody := was.pendBody);
        notes := notes[n := note];
        assert notes == old(notes);
        return Internal;
      }
      return Done;
    }

    method PostArchive(n: NoteId, k: Key, c: Consumer, fault: bool) returns (reply: Reply)
      requires Valid()
      modifies this`notes, this`queue
      ensures Valid()
      ensures (State(), reply) == Serve(old(State()), ArchiveNote(n), k, c, fault)
    {
      var no := Refusal(notes, n);
      if no.Some? {
        return no.value;
      }
      var answered := AlreadyAnswered(k, c);
      if answered {
        return Done;
      }
      var was := notes[n];
      var note := Snapshot(was);
      note := note.(archived := true, status := PendingToBear);
      notes := notes[n := note];
      var r := EnqueueWrite(k, c, Some(n), Archive(note.bearId.value), fault);
      if r.Err? {
        note := note.(archived := was.archived, status := was.status,
                      pendTitle := was.pendTitle, pendBody := was.pendBody);
        notes := notes[n := note];
        assert notes == old(notes);
        return Internal;
      }
      return Done;
    }

    method PostTag(n: NoteId, tag: string, k: Key, c: Consumer, fault: bool) returns (reply: Reply)
      modifies this`queue
      ensures (State(), reply) == Serve(old(State()), TagNote(n, tag), k, c, fault)
    {
      var no := Refusal(notes, n);
      if no.Some? {
        return no.value;
      }
      if tag == "" {
        return BadRequest;
      }
      var answered := AlreadyAnswered(k, c);
      if answered {
        return Done;
      }
      var r := EnqueueWrite(k, c, Some(n), AddTag(tag, notes[n].bearId.value), fault);
      return if r.Err? then Internal else Done;
    }

    /** `blob` is the freshly drawn attachment id, naming a directory that does not exist yet. */
    method PostFile(n: NoteId, upload: Option<Upload>, blob: BlobId, k: Key, c: Consumer, fault: bool)
      returns (reply: Reply)
      requires blob !in blobs
      modifies this`queue, this`blobs
      ensures (State(), reply) == Serve(old(State()), AttachFile(n, upload, blob), k, c, fault)
    {
      var no := Refusal(notes, n);
      if no.Some? {
        return no.value;
      }
      if upload.None? {
        return BadRequest;
      }
      if upload.value.size > MAX_UPLOAD {
        return TooLarge;
      }
      var filename := upload.value.base;
      if filename == "" || filename == "." || filename == "/" {
        filename := "file";
      }
      var answered := AlreadyAnswered(k, c);
      if answered {
        return Done;
      }
      blobs := blobs + {blob};
      var r := EnqueueWrite(k, c, Some(n), AddFile(blob, filename, notes[n].bearId.value), fault);
      if r.Err? {
        blobs := blobs - {blob};
        assert blobs == old(blobs);
        return Internal;
      }
      return Done;
    }

    method PutTag(found: Option<string>, newName: string, k: Key, c: Consumer, fault: bool) returns (reply: Reply)
      modifies this`queue
      ensures (State(), reply) == Serve(old(State()), RenameTagReq(found, newName), k, c, fault)
    {
      if found.None? {
        return NotFound;
      }
      if newName == "" {
        return BadRequest;
      }
      var answered := AlreadyAnswered(k, c);
      if answered {
        return Done;
      }
      var r := EnqueueWrite(k, c, None, RenameTag(found.value, newName), fault);
      return if r.Err? then Internal else Done;
    }

    method RemoveTag(found: Option<string>, k: Key, c: Consumer, fault: bool) returns (reply: Reply)
      modifies this`queue
      ensures (State(), reply) == Serve(old(State()), DeleteTagReq(found), k, c, fault)
    {
      if found.None? {
        return NotFound;
      }
      var answered := AlreadyAnswered(k, c);
      if answered {
        return Done;
      }
      var r := EnqueueWrite(k, c, None, DeleteTag(found.value), fault);
      return if r.Err? then Internal else Done;
    }

    // ---- leases ----

    method ExpireStaleLeases(now: nat)
      modifies this`queue
      ensures queue == ExpireAll(old(queue), now)
    {
      var i := 0;
      while i < |queue|
        invariant 0 <= i <= |queue| == |old(queue)|
        invariant forall j | 0 <= j < |queue| ::
                    queue[j] == if j < i then Expired(old(queue)[j], now) else old(queue)[j]
      {
        var x := queue[i];
        if x.status == Processing && x.leaseUntil.Some? && x.leaseUntil.value < now {
          queue := queue[i := x.(status := Pending, leaseUntil := None)];
        }
        i := i + 1;
      }
    }

    method SelectPending() returns (ids: seq<nat>)
      ensures ids == PendingIds(queue, LEASE_LIMIT)
    {
      ghost var all := RowsIn(queue, Pending, 0);
      ids := [];
      var i := 0;
      while i < |queue| && |ids| < LEASE_LIMIT
        invariant 0 <= i <= |queue| && |ids| <= LEASE_LIMIT
        invariant all == ids + RowsIn(queue, Pending, i)
      {
        if queue[i].status == Pending {
          assert ids + ([i] + RowsIn(queue, Pending, i + 1)) == (ids + [i]) + RowsIn(queue, Pending, i + 1);
          ids := ids + [i];
        }
        i := i + 1;
      }
      assert ids == all[..Min(LEASE_LIMIT, |all|)];
    }

    method MarkLeased(ids: seq<nat>, until: nat)
      requires Ascending(ids) && forall a | 0 <= a < |ids| :: ids[a] < |queue|
      modifies this`queue
      ensures |queue| == |old(queue)|
      ensures forall j | 0 <= j < |queue| ::
                queue[j] == if j in ids then TakeLease(old(queue)[j], until) else old(queue)[j]
    {
      var i := 0;
      while i < |ids|
        invariant 0 <= i <= |ids| && |queue| == |old(queue)|
        invariant forall j | 0 <= j < |queue| ::
                    queue[j] == if j in ids[..i] then TakeLease(old(queue)[j], until) else old(queue)[j]
      {
        assert ids[i] !in ids[..i];
        queue := queue[ids[i] := queue[ids[i]].(status := Processing, leaseUntil := Some(until))];
        assert ids[..i + 1] == ids[..i] + [ids[i]];
        i := i + 1;
      }
      assert ids[..i] == ids;
    }

    /** The items as the bridge will see them: marked, and with their notes' status joined in. */
    method JoinItems(ids: seq<nat>, until: nat) returns (rows: seq<Leased>)
      requires forall a | 0 <= a < |ids| :: ids[a] < |queue|
      ensures |rows| == |ids|
      ensures forall a | 0 <= a < |ids| ::
                rows[a] == Leased(ids[a], TakeLease(queue[ids[a]], until), StatusOf(notes, queue[ids[a]].note))
    {
      rows := [];
      for i := 0 to |ids|
        invariant |rows| == i
        invariant forall a | 0 <= a < i ::
                    rows[a] == Leased(ids[a], TakeLease(queue[ids[a]], until), StatusOf(notes, queue[ids[a]].note))
      {
        var x := queue[ids[i]];
        rows := rows + [Leased(ids[i], x.(status := Processing, leaseUntil := Some(until)), StatusOf(notes, x.note))];
      }
    }

    method LeaseQueueItems(now: nat) returns (rows: seq<Leased>)
      modifies this`queue
      ensures rows == LeaseRows(old(State()), now)
      ensures queue == LeaseQueue(old(queue), now)
    {
      ExpireStaleLeases(now);
      var ids := SelectPending();
      rows := JoinItems(ids, now + LEASE_SECONDS);
      MarkLeased(ids, now + LEASE_SECONDS);
    }

    // ---- acks ----

    method CountOtherPending(n: NoteId, id: nat) returns (count: nat)
      ensures count > 0 <==> OtherUnfinished(queue, n, id)
    {
      count := 0;
      for i := 0 to |queue|
        invariant count > 0 <==> exists j | 0 <= j < i :: j != id && UnfinishedFor(queue[j], n)
      {
        if i != id && UnfinishedFor(queue[i], n) {
          count := count + 1;
        }
      }
    }

    /** Whether another note row holds this bear_id: what the UNIQUE constraint checks. */
    method HeldElsewhere(n: NoteId, bearId: Option<BearId>) returns (yes: bool)
      ensures yes <==> exists m | m in notes :: m != n && notes[m].bearId == bearId
    {
      var rest := notes.Keys;
      yes := false;
      while rest != {}
        invariant rest <= notes.Keys
        invariant yes <==> exists m | m in notes && m !in rest :: m != n && notes[m].bearId == bearId
        decreases |rest|
      {
        var m :| m in rest;
        yes := yes || (m != n && notes[m].bearId == bearId);
        rest := rest - {m};
      }
    }

    method UpdateNoteStatus(a: AckItem, n: NoteId) returns (ok: bool)
      requires Valid()
      modifies this`notes
      ensures Valid()
      ensures var r := AckNote(old(notes), n, a, OtherUnfinished(queue, n, a.id));
              (ok <==> r.Ok?) && notes == if ok then r.value else old(notes)
    {
      var other := CountOtherPending(n, a.id);
      if n !in notes {
        // No UPDATE finds a row; reading the title and body for a snapshot fails.
        return a.conflictResolved || a.bearId.None? || other == 0;
      }
      var note := notes[n];
      if a.conflictResolved {
        if other == 0 && note.status == Conflict {
          note := note.(status := Synced, pendTitle := None, pendBody := None, expected := None);
        }
      } else if note.status != Conflict {
        if a.bearId.Some? {
          var held := HeldElsewhere(n, a.bearId);
          if held {
            return false;
          }
          note := note.(bearId := a.bearId, expected := a.modifiedAt);
          if other > 0 {
            note := note.(status := PendingToBear, pendTitle := Some(note.title), pendBody := Some(note.body));
          } else {
            note := note.(status := Synced, pendTitle := None, pendBody := None);
          }
        } else if other == 0 {
          note := note.(status := Synced, pendTitle := None, pendBody := None, expected := None);
        } else if a.modifiedAt.Some? {
          note := note.(expected := a.modifiedAt);
        } else {
          note := note.(expected := None);
        }
      }
      notes := notes[n := note];
      return true;
    }

    method AckSingleItem(a: AckItem) returns (ok: bool)
      requires Valid()
      modifies this`notes, this`queue
      ensures Valid()
      ensures ok <==> AckOne(old(State()), a).Ok?
      ensures ok ==> State() == AckOne(old(State()), a).value
    {
      if a.id >= |queue| || queue[a.id].status != Processing {
        return true;
      }
      if !a.applied {
        queue := queue[a.id := queue[a.id].(status := Failed)];
        return true;
      }
      queue := queue[a.id := queue[a.id].(status := Applied)];
      if queue[a.id].note.None? {
        return true;
      }
      ok := UpdateNoteStatus(a, queue[a.id].note.value);
    }

    method AckQueueItems(acks: seq<AckItem>) returns (ok: bool)
      requires Valid()
      modifies this`notes, this`queue
      ensures Valid()
      ensures ok <==> AckAll(old(State()), acks).Ok?
      ensures State() == if ok then AckAll(old(State()), acks).value else old(State())
    {
      var notes0, queue0 := notes, queue;
      var i := 0;
      while i < |acks|
        invariant 0 <= i <= |acks|
        invariant Valid()
        invariant AckAll(old(State()), acks) == AckAll(State(), acks[i..])
        invariant blobs == old(blobs)
      {
        ghost var r := AckOne(State(), acks[i]);
        assert acks[i..][1..] == acks[i + 1..];
        var one := AckSingleItem(acks[i]);
        if !one {
          notes, queue := notes0, queue0;
          return false;
        }
        i := i + 1;
      }
      return true;
    }

    method PostAck(acks: seq<AckItem>) returns (reply: Reply)
      requires Valid()
      modifies this
      ensures Valid()
      ensures (State(), reply) == SyncAck(old(State()), acks)
    {
      var ok := AckQueueItems(acks);
      if !ok {
        return Internal;
      }
      var ids: set<BlobId> := {};
      var i := 0;
      while i < |acks|
        invariant 0 <= i <= |acks|
        invariant ids == Cleaned(queue, acks[..i])
      {
        var a := acks[i];
        ghost var had := ids;
        if a.applied && a.id < |queue| && queue[a.id].write.AddFile? && queue[a.id].status == Applied {
          ids := ids + {queue[a.id].write.blob};
        }
        assert ids == Cleaned(queue, acks[..i + 1]) by {
          assert acks[..i + 1][i] == a;
          assert forall k | 0 <= k < i :: acks[..i + 1][k] == acks[..i][k];
        }
        i := i + 1;
      }
      assert acks[..i] == acks;
      blobs := blobs - ids;
      return Done;
    }

    // ---- pushes ----

    method FindByBear(b: BearId) returns (r: Option<NoteId>)
      requires Valid()
      ensures r == NoteOf(notes, b)
    {
      var rest := notes.Keys;
      while rest != {}
        invariant rest <= notes.Keys
        invariant forall n | n in notes && n !in rest :: notes[n].bearId != Some(b)
        decreases |rest|
      {
        var n :| n in rest;
        if notes[n].bearId == Some(b) {
          return Some(n);
        }
        rest := rest - {n};
      }
      return None;
    }

    /** detectContentConflict: which fields did both sides move away from the snapshot? */
    static method DetectContentConflict(p: PushNote, note: Note) returns (status: SyncStatus)
      ensures status == DetectConflict(p, note)
    {
      if note.pendTitle.None? || note.pendBody.None? {
        return Conflict;
      }
      var bearTitle, bearBody := p.title != note.pendTitle.value, p.body != note.pendBody.value;
      var hubTitle, hubBody := note.title != note.pendTitle.value, note.body != note.pendBody.value;
      if (bearTitle && hubTitle) || (bearBody && hubBody) {
        return Conflict;
      }
      return PendingToBear;
    }

    static method UpdateExistingNote(was: Note, p: PushNote) returns (note: Note)
      ensures note == PushedNote(was, p)
    {
      if was.status == PendingToBear {
        var status, expected := PendingToBear, was.expected;
        if was.expected.Some? && p.modifiedAt == was.expected {
          expected := None;
        } else if p.modifiedAt.Some? && was.modifiedAt.Some? && p.modifiedAt != was.modifiedAt {
          status := DetectContentConflict(p, was);
        }
        return was.(status := status, expected := expected, modifiedAt := p.modifiedAt,
                    trashed := p.trashed, archived := p.archived, encrypted := p.encrypted);
      }
      var status := Synced;
      if was.status == Conflict {
        status := Conflict;
      }
      return Note(p.bearId, p.title, p.body, status, p.modifiedAt, None, None, None,
                  p.trashed, p.archived, p.encrypted);
    }

    method UpsertNote(p: PushNote)
      requires Valid() && (p.id in notes ==> p.bearId.Some? && notes[p.id].bearId == p.bearId)
      modifies this`notes
      ensures Valid()
      ensures notes == Upsert(old(notes), p)
    {
      var n: Option<NoteId> := None;
      if p.bearId.Some? {
        n := FindByBear(p.bearId.value);
      }
      if n.Some? {
        var note := UpdateExistingNote(notes[n.value], p);
        notes := notes[n.value := note];
      } else {
        notes := notes[p.id := InsertedNote(p)];
      }
    }

    method FailQueueItemsForDeletedNotes(deleted: set<BearId>)
      modifies this`queue
      ensures queue == FailDoomed(old(queue), Doomed(notes, deleted))
    {
      var doomed := Doomed(notes, deleted);
      var i := 0;
      while i < |queue|
        invariant 0 <= i <= |queue| == |old(queue)|
        invariant forall j | 0 <= j < |queue| ::
                    queue[j] == if j < i then FailedIfDoomed(old(queue)[j], doomed) else old(queue)[j]
      {
        var x := queue[i];
        if (x.status == Pending || x.status == Processing) && x.note.Some? && x.note.value in doomed {
          queue := queue[i := x.(status := Failed)];
        }
        i := i + 1;
      }
    }

    method ProcessSyncPush(ps: seq<PushNote>, deleted: set<BearId>)
      requires Valid()
      requires forall i | 0 <= i < |ps| :: ps[i].id in notes ==>
          ps[i].bearId.Some? && notes[ps[i].id].bearId == ps[i].bearId
      requires forall i, j | 0 <= i < j < |ps| :: ps[i].id != ps[j].id
      modifies this`notes, this`queue
      ensures Valid()
      ensures State() == Push(old(State()), ps, deleted)
    {
      var i := 0;
      while i < |ps|
        invariant 0 <= i <= |ps|
        invariant Valid()
        invariant UpsertAll(old(notes), ps) == UpsertAll(notes, ps[i..])
        invariant forall j | i <= j < |ps| ::
                    ps[j].id in notes ==> ps[j].bearId.Some? && notes[ps[j].id].bearId == ps[j].bearId
        invariant queue == old(queue)
      {
        assert ps[i..][1..] == ps[i + 1..];
        UpsertNote(ps[i]);
        i := i + 1;
      }
      FailQueueItemsForDeletedNotes(deleted);
      notes := notes - Doomed(notes, deleted);
    }
  }
}
