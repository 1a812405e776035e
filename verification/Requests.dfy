/** What a consumer's request does to the hub, said of rows, notes and replies without the steps that do it. */
module Requests {
  import opened Model
  import opened Store
  import opened Handlers

  predicate Keyed(x: Item, k: Key, c: Consumer) { x.consumer == c && (x.key == k || x.secondary == Some(k)) }

  /** No row of this consumer has the key. */
  predicate Unused(q: Queue, k: Key, c: Consumer) { forall j | 0 <= j < |q| :: !Keyed(q[j], k, c) }

  /** Row i is the first with the key, and it failed. */
  predicate FailedAt(q: Queue, k: Key, c: Consumer, i: nat) {
    i < |q| && Keyed(q[i], k, c) && q[i].status == Failed && forall j | 0 <= j < i :: !Keyed(q[j], k, c)
  }

  /** The note a request is about, except that a create brings its own. */
  function About(r: Request): Option<NoteId> {
    match r
    case UpdateNote(n, _) => Some(n)
    case TrashNote(n) => Some(n)
    case ArchiveNote(n) => Some(n)
    case TagNote(n, _) => Some(n)
    case AttachFile(n, _, _) => Some(n)
    case _ => None
  }

  function KnownAs(h: HubState, n: NoteId): Option<BearId> { if n in h.notes then h.notes[n].bearId else None }

  // ---- The queue ----

  /** The row holds the write asked for: every field of the payload, and the Bear note it goes to. */
  predicate Holds(h: HubState, r: Request, x: Item) {
    match r
    case CreateNote(title, body, tags, id, _) => x.note == Some(id) && x.write == Create(title, body, tags)
    case UpdateNote(n, body) =>
      x.note == Some(n) && if x.write.Create? then x.write.body == body && KnownAs(h, n).None?
                           else x.write.Update? && x.write.body == body && KnownAs(h, n) == Some(x.write.bear)
    case TrashNote(n) => x.note == Some(n) && x.write.Trash? && KnownAs(h, n) == Some(x.write.bear)
    case ArchiveNote(n) => x.note == Some(n) && x.write.Archive? && KnownAs(h, n) == Some(x.write.bear)
    case TagNote(n, tag) =>
      x.note == Some(n) && x.write.AddTag? && x.write.tag == tag && KnownAs(h, n) == Some(x.write.bear)
    case AttachFile(n, upload, blob) =>
      && x.note == Some(n) && x.write.AddFile? && x.write.blob == blob && KnownAs(h, n) == Some(x.write.bear)
      && upload.Some?
      && x.write.filename == if upload.value.base in {"", ".", "/"} then "file" else upload.value.base
    case RenameTagReq(found, newName) =>
      x.note == None && x.write.RenameTag? && Some(x.write.name) == found && x.write.newName == newName
    case DeleteTagReq(found) => x.note == None && x.write.DeleteTag? && Some(x.write.name) == found
  }

  /** A PUT joined the row: its consumer's pending update, or the pending create, which keeps its title and tags. */
  predicate Joined(x: Item, x2: Item, r: Request, k: Key, c: Consumer) {
    && r.UpdateNote? && x.note == Some(r.note) && x.consumer == c && x.status == Pending
    && x2 == x.(write := x2.write, secondary := Some(k))
    && if x.write.Create? then x2.write == Create(x.write.title, r.body, x.write.tags)
       else x.write.Update? && x2.write.Update?
  }

  /**
   * Row j holds the request, pending, as the only row with its key: a new row, or one the PUT joined. No other row
   * changes.
   */
  predicate QueuedAt(h: HubState, r: Request, k: Key, c: Consumer, q2: Queue, j: nat) {
    && |h.queue| <= |q2| <= |h.queue| + 1 && j < |q2| && (j < |h.queue| ==> |q2| == |h.queue|)
    && Keyed(q2[j], k, c) && q2[j].status == Pending && Holds(h, r, q2[j])
    && (forall i | 0 <= i < |q2| && i != j :: i < |h.queue| && q2[i] == h.queue[i] && !Keyed(q2[i], k, c))
    && if j == |h.queue| then q2[j].key == k && q2[j].secondary.None? && q2[j].leaseUntil.None?
       else Joined(h.queue[j], q2[j], r, k, c)
  }

  lemma EnqueuedAt(h: HubState, r: Request, k: Key, c: Consumer, note: Option<NoteId>, w: Write)
    requires Unused(h.queue, k, c)
    requires Holds(h, r, Item(k, None, c, note, w, Pending, None))
    requires w.Update? ==> r.UpdateNote? && note == Some(r.note)
    ensures exists j :: QueuedAt(h, r, k, c, Enqueue(h.queue, k, c, note, w), j)
  {
    var q, q2, i := h.queue, Enqueue(h.queue, k, c, note, w), Slot(h.queue, k, c, note, w);
    assert Find(q, ByKey(k, c)).None? by {
      forall j | 0 <= j < |q| ensures !Matches(q[j], ByKey(k, c)) {
        assert !Keyed(q[j], k, c);
      }
    }
    assert QueuedAt(h, r, k, c, q2, i);
  }

  lemma JoinedCreateAt(h: HubState, r: Request, k: Key, c: Consumer)
    requires Unused(h.queue, k, c) && r.UpdateNote? && KnownAs(h, r.note).None?
    requires CoalesceCreate(h.queue, k, c, r.note, r.body).Some?
    ensures exists j :: QueuedAt(h, r, k, c, CoalesceCreate(h.queue, k, c, r.note, r.body).value, j)
  {
    var f := Find(h.queue, PendingCreate(r.note, c));
    assert QueuedAt(h, r, k, c, CoalesceCreate(h.queue, k, c, r.note, r.body).value, f.value);
  }

  /** Under a new key, an accepted request is queued as asked, and a refused one changes no row and no upload. */
  lemma AcceptedIsQueued(h: HubState, r: Request, k: Key, c: Consumer, fault: bool)
    requires Unused(h.queue, k, c)
    ensures var (h2, reply) := Serve(h, r, k, c, fault);
            if reply == Done then
              && (exists j :: QueuedAt(h, r, k, c, h2.queue, j))
              && h2.blobs == h.blobs + (if r.AttachFile? then {r.blob} else {})
            else h2.queue == h.queue && h2.blobs == h.blobs
  {
    UnusedIsUnanswered(h.queue, k, c);
    if Serve(h, r, k, c, fault).1 == Done {
      AcceptedAt(h, r, k, c, fault);
    }
  }

  lemma UnusedIsUnanswered(q: Queue, k: Key, c: Consumer)
    requires Unused(q, k, c)
    ensures Find(q, ByKey(k, c)).None?
  {
    forall j | 0 <= j < |q| ensures !Matches(q[j], ByKey(k, c)) {
      assert !Keyed(q[j], k, c);
    }
  }

  /** Every accepted request but a PUT to a note Bear does not know is one enqueue of the write asked for. */
  lemma AcceptedEnqueues(h: HubState, r: Request, k: Key, c: Consumer, fault: bool)
    returns (note: Option<NoteId>, w: Write)
    requires Serve(h, r, k, c, fault).1 == Done && !Answered(h.queue, k, c)
    requires r.UpdateNote? ==> KnownAs(h, r.note).Some?
    ensures Serve(h, r, k, c, fault).0.queue == Enqueue(h.queue, k, c, note, w)
    ensures Holds(h, r, Item(k, None, c, note, w, Pending, None))
    ensures w.Update? ==> r.UpdateNote? && note == Some(r.note)
  {
    note := if r.CreateNote? then Some(r.id) else About(r);
    match r
    case CreateNote(title, body, tags, _, _) => w := Create(title, body, tags);
    case UpdateNote(n, body) => w := Update(body, h.notes[n].bearId.value);
    case TrashNote(n) => w := Trash(h.notes[n].bearId.value);
    case ArchiveNote(n) => w := Archive(h.notes[n].bearId.value);
    case TagNote(n, tag) => w := AddTag(tag, h.notes[n].bearId.value);
    case AttachFile(n, upload, blob) => w := AddFile(blob, StoredName(upload.value.base), h.notes[n].bearId.value);
    case RenameTagReq(found, newName) => w := RenameTag(found.value, newName);
    case DeleteTagReq(found) => w := DeleteTag(found.value);
  }

  lemma AcceptedAt(h: HubState, r: Request, k: Key, c: Consumer, fault: bool)
    requires Unused(h.queue, k, c) && Serve(h, r, k, c, fault).1 == Done && Find(h.queue, ByKey(k, c)).None?
    ensures exists j :: QueuedAt(h, r, k, c, Serve(h, r, k, c, fault).0.queue, j)
  {
    if r.UpdateNote? && KnownAs(h, r.note).None? {
      JoinedCreateAt(h, r, k, c);
    } else {
      var note, w := AcceptedEnqueues(h, r, k, c, fault);
      EnqueuedAt(h, r, k, c, note, w);
    }
  }

  /** A pending update of this consumer and note, or its pending create. */
  predicate Waits(x: Item, n: NoteId, c: Consumer, isCreate: bool) {
    x.note == Some(n) && x.status == Pending && x.consumer == c && if isCreate then x.write.Create? else x.write.Update?
  }

  /** An accepted PUT under a new key joins the first row that waits for one, and adds a row exactly when none does. */
  lemma PutJoinsFirst(h: HubState, n: NoteId, body: string, k: Key, c: Consumer, fault: bool, i: nat)
    requires Unused(h.queue, k, c) && Serve(h, UpdateNote(n, body), k, c, fault).1 == Done && i <= |h.queue|
    requires forall j | 0 <= j < i :: !Waits(h.queue[j], n, c, KnownAs(h, n).None?)
    requires i < |h.queue| ==> Waits(h.queue[i], n, c, KnownAs(h, n).None?)
    ensures KnownAs(h, n).None? ==> i < |h.queue|
    ensures QueuedAt(h, UpdateNote(n, body), k, c, Serve(h, UpdateNote(n, body), k, c, fault).0.queue, i)
  {
    var q, search := h.queue, if KnownAs(h, n).None? then PendingCreate(n, c) else PendingUpdate(n, c);
    UnusedIsUnanswered(q, k, c);
    forall j | 0 <= j < |q| ensures Matches(q[j], search) <==> Waits(q[j], n, c, KnownAs(h, n).None?) {}
    assert IsFirst(q, search, Find(q, search));
    assert Find(q, search) == if i < |q| then Some(i) else None;
  }

  /** Row i starts over with the request in it, under its old keys. No other row changes. */
  predicate RestartedAt(h: HubState, r: Request, q2: Queue, i: nat) {
    && i < |h.queue| == |q2| && Holds(h, r, q2[i]) && q2[i].status == Pending && q2[i].leaseUntil.None?
    && q2[i] == h.queue[i].(note := q2[i].note, write := q2[i].write, status := Pending, leaseUntil := None)
    && forall j | 0 <= j < |q2| && j != i :: q2[j] == h.queue[j]
  }

  lemma EnqueueRestarts(h: HubState, r: Request, k: Key, c: Consumer, i: nat, note: Option<NoteId>, w: Write)
    requires FailedAt(h.queue, k, c, i) && Holds(h, r, Item(k, None, c, note, w, Pending, None))
    ensures RestartedAt(h, r, Enqueue(h.queue, k, c, note, w), i)
  {
    FailedIsFound(h.queue, k, c, i);
  }

  lemma FailedIsFound(q: Queue, k: Key, c: Consumer, i: nat)
    requires FailedAt(q, k, c, i)
    ensures Find(q, ByKey(k, c)) == Some(i)
  {
    assert Matches(q[i], ByKey(k, c));
    forall j | 0 <= j < i ensures !Matches(q[j], ByKey(k, c)) {
      assert !Keyed(q[j], k, c);
    }
  }

  /** Under the key of a failed row that row starts over; only a PUT to a note Bear does not know does otherwise. */
  lemma RetryRestarts(h: HubState, r: Request, k: Key, c: Consumer, fault: bool, i: nat)
    requires FailedAt(h.queue, k, c, i) && Serve(h, r, k, c, fault).1 == Done
    requires r.UpdateNote? ==> KnownAs(h, r.note).Some?
    ensures RestartedAt(h, r, Serve(h, r, k, c, fault).0.queue, i)
  {
    FailedIsFound(h.queue, k, c, i);
    var note, w := AcceptedEnqueues(h, r, k, c, fault);
    EnqueueRestarts(h, r, k, c, i, note, w);
  }

  /** A key whose first row has not failed answers without changing anything. */
  lemma AnsweredChangesNothing(h: HubState, r: Request, k: Key, c: Consumer, fault: bool, i: nat)
    requires i < |h.queue| && Keyed(h.queue[i], k, c) && h.queue[i].status != Failed
    requires forall j | 0 <= j < i :: !Keyed(h.queue[j], k, c)
    ensures Serve(h, r, k, c, fault).0 == h
  {
    assert Matches(h.queue[i], ByKey(k, c));
    forall j | 0 <= j < i ensures !Matches(h.queue[j], ByKey(k, c)) {
      assert !Keyed(h.queue[j], k, c);
    }
  }

  // ---- The notes ----

  /** The snapshot a first unsynced change takes; later ones keep it. */
  predicate Remembers(v: Note, v2: Note) {
    && v2.pendTitle == (if v.pendTitle.Some? then v.pendTitle else Some(v.title))
    && v2.pendBody == (if v.pendTitle.Some? then v.pendBody else Some(v.body))
  }

  /** The note row as the request asks: these fields change and no others. */
  predicate AsAsked(r: Request, v: Note, v2: Note) {
    match r
    case UpdateNote(_, body) =>
      && v2.body == body && v2.title == NoteTitle.TitleOf(body)
      && if v.bearId.None? then v2 == v.(title := v2.title, body := body)
         else Remembers(v, v2) && v2 == v.(title := v2.title, body := body, status := PendingToBear,
                                           pendTitle := v2.pendTitle, pendBody := v2.pendBody)
    case TrashNote(_) =>
      Remembers(v, v2) && v2 == v.(trashed := true, status := PendingToBear,
                                   pendTitle := v2.pendTitle, pendBody := v2.pendBody)
    case ArchiveNote(_) =>
      Remembers(v, v2) && v2 == v.(archived := true, status := PendingToBear,
                                   pendTitle := v2.pendTitle, pendBody := v2.pendBody)
    case _ => v2 == v
  }

  /** An accepted request changes the note it is about as asked, and no other; a refused one changes none. */
  lemma NotesAsAsked(h: HubState, r: Request, k: Key, c: Consumer, fault: bool, n: NoteId)
    requires Unused(h.queue, k, c) && (r.CreateNote? ==> r.id !in h.notes)
    ensures var (h2, reply) := Serve(h, r, k, c, fault);
            if reply == Done && r.CreateNote? && n == r.id then
              n in h2.notes && h2.notes[n] == Note(None, r.title, r.body, PendingToBear, Some(r.now), None, None, None,
                                                   false, false, false)
            else
              && (n in h2.notes <==> n in h.notes)
              && (n in h.notes ==>
                    if reply == Done && About(r) == Some(n) then AsAsked(r, h.notes[n], h2.notes[n])
                    else h2.notes[n] == h.notes[n])
  {
    UnusedIsUnanswered(h.queue, k, c);
  }

  /** A create under the key of a failed create takes that create's note away, accepted or not, and no other note. */
  lemma RetriedCreateDropsOrphan(h: HubState, r: Request, k: Key, c: Consumer, fault: bool, i: nat, n: NoteId)
    requires FailedAt(h.queue, k, c, i) && r.CreateNote? && r.id !in h.notes && r.title != "" && n in h.notes
    ensures var h2 := Serve(h, r, k, c, fault).0;
            if h.queue[i].write.Create? && h.queue[i].note == Some(n) then n !in h2.notes
            else n in h2.notes && h2.notes[n] == h.notes[n]
  {
    FailedIsFound(h.queue, k, c, i);
  }

  // ---- The replies ----

  /** A missing note is not found, an encrypted one is read-only, and neither changes anything. */
  lemma MissingOrEncrypted(h: HubState, r: Request, k: Key, c: Consumer, fault: bool, n: NoteId)
    requires About(r) == Some(n)
    ensures Serve(h, r, k, c, fault).1 == NotFound <==> n !in h.notes
    ensures Serve(h, r, k, c, fault).1 == Forbidden <==> n in h.notes && h.notes[n].encrypted
    ensures n !in h.notes || h.notes[n].encrypted ==> Serve(h, r, k, c, fault).0 == h
  {
  }

  /** A conflicted note accepts nothing, and one Bear does not know accepts nothing but PUTs. */
  lemma ConflictOrUnknown(h: HubState, r: Request, k: Key, c: Consumer, fault: bool, n: NoteId)
    requires About(r) == Some(n) && n in h.notes && !h.notes[n].encrypted
    ensures h.notes[n].status == Conflict || (h.notes[n].bearId.None? && !r.UpdateNote?) ==>
              Serve(h, r, k, c, fault) == (h, Conflicted)
    ensures h.notes[n].status != Conflict && h.notes[n].bearId.Some? ==> Serve(h, r, k, c, fault).1 != Conflicted
  {
  }

  /** What is wrong with the request itself. */
  function Fault(r: Request): Option<Reply> {
    match r
    case CreateNote(title, _, _, _, _) => if title == "" then Some(BadRequest) else None
    case UpdateNote(_, body) => if body == "" then Some(BadRequest) else None
    case TagNote(_, tag) => if tag == "" then Some(BadRequest) else None
    case AttachFile(_, upload, _) =>
      if upload.None? then Some(BadRequest) else if upload.value.size > 5242880 then Some(TooLarge) else None
    case RenameTagReq(found, newName) =>
      if found.None? then Some(NotFound) else if newName == "" then Some(BadRequest) else None
    case DeleteTagReq(found) => if found.None? then Some(NotFound) else None
    case _ => None
  }

  predicate Open(h: HubState, r: Request) {
    About(r).None? ||
    (&& About(r).value in h.notes && !h.notes[About(r).value].encrypted
     && h.notes[About(r).value].status != Conflict && h.notes[About(r).value].bearId.Some?)
  }

  /** For a note open to writes, a wrong request is refused for what is wrong with it; the others are accepted. */
  lemma OpenNoteReplies(h: HubState, r: Request, k: Key, c: Consumer)
    requires Open(h, r)
    ensures Fault(r).Some? ==> Serve(h, r, k, c, false) == (h, Fault(r).value)
    ensures Fault(r).None? ==> Serve(h, r, k, c, false).1 == Done
  {
  }
}
