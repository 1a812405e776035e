/** What each consumer handler does, as functions of the state and the request. */
module Handlers {
  import opened Model
  import opened Store
  import NoteTitle

  /** snapshotPendingBear: keep Bear's title and body from before the first unsynced change. */
  function Snapshot(note: Note): Note {
    if note.pendTitle.Some? then note else note.(pendTitle := Some(note.title), pendBody := Some(note.body))
  }

  function Edited(note: Note, body: string): Note {
    note.(title := NoteTitle.TitleOf(body), body := body)
  }

  /** The checks every note-bound write but update makes, in order; None lets the request through. */
  function Refusal(notes: Notes, n: NoteId): Option<Reply> {
    if n !in notes then Some(NotFound)
    else if notes[n].encrypted then Some(Forbidden)
    else if notes[n].bearId.None? then Some(Conflicted)
    else if notes[n].status == Conflict then Some(Conflicted)
    else None
  }

  /** A failed create's note is deleted before its key is used again. */
  function WithoutOrphan(h: HubState, k: Key, c: Consumer): Notes {
    var f := Find(h.queue, ByKey(k, c));
    if f.Some? && h.queue[f.value].status == Failed && h.queue[f.value].write.Create? && h.queue[f.value].note.Some?
    then h.notes - {h.queue[f.value].note.value} else h.notes
  }

  function CreateStep(h: HubState, r: Request, k: Key, c: Consumer, fault: bool): (HubState, Reply)
    requires r.CreateNote?
  {
    if r.title == "" then (h, BadRequest)
    else if Answered(h.queue, k, c) then (h, Done)
    else if fault then (h.(notes := WithoutOrphan(h, k, c)), Internal)
    else
      var note := Note(None, r.title, r.body, PendingToBear, Some(r.now), None, None, None, false, false, false);
      (HubState(WithoutOrphan(h, k, c)[r.id := note],
                Enqueue(h.queue, k, c, Some(r.id), Create(r.title, r.body, r.tags)), h.blobs), Done)
  }

  /** handleCreateUpdateCoalesce. */
  function CoalesceStep(h: HubState, n: NoteId, body: string, k: Key, c: Consumer): (HubState, Reply)
    requires n in h.notes
  {
    var q := CoalesceCreate(h.queue, k, c, n, body);
    if q.None? then (h, Conflicted)
    else (HubState(h.notes[n := Edited(h.notes[n], body)], q.value, h.blobs), Done)
  }

  /** An accepted PUT to a note that Bear knows. modified_at keeps Bear's value, as conflict detection needs. */
  function PutStep(h: HubState, n: NoteId, body: string, k: Key, c: Consumer): (HubState, Reply)
    requires n in h.notes && h.notes[n].bearId.Some?
  {
    var note := Edited(Snapshot(h.notes[n]), body).(status := PendingToBear);
    (HubState(h.notes[n := note],
              Enqueue(h.queue, k, c, Some(n), Update(body, note.bearId.value)), h.blobs), Done)
  }

  function UpdateStep(h: HubState, n: NoteId, body: string, k: Key, c: Consumer, fault: bool): (HubState, Reply) {
    if n !in h.notes then (h, NotFound)
    else if h.notes[n].encrypted then (h, Forbidden)
    else if h.notes[n].status == Conflict then (h, Conflicted)
    else if body == "" then (h, BadRequest)
    else if Answered(h.queue, k, c) then (h, Done)
    else if fault then (h, Internal)
    else if h.notes[n].bearId.None? then CoalesceStep(h, n, body, k, c)
    else PutStep(h, n, body, k, c)
  }

  /** An accepted PUT to a note Bear knows. */
  predicate IsPut(h: HubState, r: Request, k: Key, c: Consumer, fault: bool) {
    && r.UpdateNote? && r.note in h.notes && !h.notes[r.note].encrypted && h.notes[r.note].status != Conflict
    && h.notes[r.note].bearId.Some? && r.body != "" && !Answered(h.queue, k, c) && !fault
  }

  function TrashStep(h: HubState, n: NoteId, k: Key, c: Consumer, fault: bool): (HubState, Reply) {
    var no := Refusal(h.notes, n);
    if no.Some? then (h, no.value)
    else if Answered(h.queue, k, c) then (h, Done)
    else if fault then (h, Internal)
    else
      var note := Snapshot(h.notes[n]).(trashed := true, status := PendingToBear);
      (HubState(h.notes[n := note], Enqueue(h.queue, k, c, Some(n), Trash(note.bearId.value)), h.blobs), Done)
  }

  function ArchiveStep(h: HubState, n: NoteId, k: Key, c: Consumer, fault: bool): (HubState, Reply) {
    var no := Refusal(h.notes, n);
    if no.Some? then (h, no.value)
    else if Answered(h.queue, k, c) then (h, Done)
    else if fault then (h, Internal)
    else
      var note := Snapshot(h.notes[n]).(archived := true, status := PendingToBear);
      (HubState(h.notes[n := note], Enqueue(h.queue, k, c, Some(n), Archive(note.bearId.value)), h.blobs), Done)
  }

  function TagStep(h: HubState, n: NoteId, tag: string, k: Key, c: Consumer, fault: bool): (HubState, Reply) {
    var no := Refusal(h.notes, n);
    if no.Some? then (h, no.value)
    else if tag == "" then (h, BadRequest)
    else if Answered(h.queue, k, c) then (h, Done)
    else if fault then (h, Internal)
    else
      (h.(queue := Enqueue(h.queue, k, c, Some(n), AddTag(tag, h.notes[n].bearId.value))), Done)
  }

  const MAX_UPLOAD: nat := 5 * 1024 * 1024

  /** A name that is no file name is replaced. */
  function StoredName(base: string): string {
    if base == "" || base == "." || base == "/" then "file" else base
  }

  /** The upload is written before the enqueue and removed again when the enqueue fails. */
  function FileStep(h: HubState, n: NoteId, upload: Option<Upload>, blob: BlobId, k: Key, c: Consumer, fault: bool)
    : (HubState, Reply)
  {
    var no := Refusal(h.notes, n);
    if no.Some? then (h, no.value)
    else if upload.None? then (h, BadRequest)
    else if upload.value.size > MAX_UPLOAD then (h, TooLarge)
    else if Answered(h.queue, k, c) then (h, Done)
    else if fault then (h, Internal)
    else
      var w := AddFile(blob, StoredName(upload.value.base), h.notes[n].bearId.value);
      (HubState(h.notes, Enqueue(h.queue, k, c, Some(n), w), h.blobs + {blob}), Done)
  }

  function TagWideStep(h: HubState, found: Option<string>, bad: bool, w: Write, k: Key, c: Consumer, fault: bool)
    : (HubState, Reply)
  {
    if found.None? then (h, NotFound)
    else if bad then (h, BadRequest)
    else if Answered(h.queue, k, c) then (h, Done)
    else if fault then (h, Internal)
    else (h.(queue := Enqueue(h.queue, k, c, None, w)), Done)
  }

  function Serve(h: HubState, r: Request, k: Key, c: Consumer, fault: bool): (HubState, Reply) {
    match r
    case CreateNote(_, _, _, _, _) => CreateStep(h, r, k, c, fault)
    case UpdateNote(n, body) => UpdateStep(h, n, body, k, c, fault)
    case TrashNote(n) => TrashStep(h, n, k, c, fault)
    case ArchiveNote(n) => ArchiveStep(h, n, k, c, fault)
    case TagNote(n, tag) => TagStep(h, n, tag, k, c, fault)
    case AttachFile(n, upload, blob) => FileStep(h, n, upload, blob, k, c, fault)
    case RenameTagReq(found, newName) =>
      TagWideStep(h, found, newName == "", RenameTag(if found.Some? then found.value else "", newName), k, c, fault)
    case DeleteTagReq(found) =>
      TagWideStep(h, found, false, DeleteTag(if found.Some? then found.value else ""), k, c, fault)
  }
}
