/** The bridge's queue processing against Bear, with Bear as a store whose calls have stated effects. */
module BearBridge {
  import opened Model
  import opened Invariant
  import opened Protocol
  import NoteTitle

  datatype BearNote = BearNote(
    body: string, tags: set<string>, files: set<string>, trashed: bool, archived: bool, modifiedAt: Stamp,
    madeBy: Option<CreateCall>)

  /** What the bridge asks of Bear for a new note. */
  datatype CreateCall = CreateCall(title: string, text: string, tags: set<string>)

  type Bear = map<BearId, BearNote>

  /**
   * What the bridge meets while applying one row: whether its calls succeed, the stamp Bear gives the note, whether
   * reading the note works, the id and the text of a note Bear creates, which need not be the text that was sent, and
   * whether the bridge learns that id.
   */
  datatype Outcome = Outcome(ok: bool, stamp: Stamp, readBack: bool, id: BearId, text: string, identified: bool)

  const MAX_BODY: nat := 50 * 1024

  function Utf8Len(s: string): nat {
    if s == "" then 0
    else (if s[0] < '\U{80}' then 1 else if s[0] < '\U{800}' then 2 else if s[0] < '\U{10000}' then 3 else 4)
         + Utf8Len(s[1..])
  }

  /** findBearNoteForItem: by the payload's bear_id, else by the note_id itself. */
  function Target(bear: Bear, row: Leased): Option<BearId> {
    var w, n := row.item.write, row.item.note;
    if w.TargetsNote() && !w.Create? && w.bear in bear then Some(w.bear)
    else if n.Some? && n.value in bear then Some(n.value)
    else None
  }

  predicate IsConflictRow(row: Leased) { row.item.note.Some? && row.noteStatus == Some(Conflict) }

  function Failure(row: Leased): AckItem { AckItem(row.id, false, None, None, false) }

  function Success(row: Leased, stamp: Stamp): AckItem { AckItem(row.id, true, None, stamp, false) }

  /** A body bear-xcall accepts. */
  predicate BodyFits(body: string) { body != "" && Utf8Len(body) <= MAX_BODY }

  function NewNote(call: CreateCall, out: Outcome): BearNote {
    BearNote(out.text, call.tags, {}, false, false, out.stamp, Some(call))
  }

  function ToSet(tags: seq<string>): set<string> { set t | t in tags }

  /** The write names a note that Bear has. */
  predicate Addressed(bear: Bear, w: Write) { w.TargetsNote() && !w.Create? && w.bear in bear }

  /** extractConflictContent: the consumer's version under the original's title, with the original's tags. */
  function CopyCall(bear: Bear, w: Write, readBack: bool): CreateCall {
    var read := readBack && Addressed(bear, w);
    var title := if w.Create? && w.title != "" then w.title
                 else if read then NoteTitle.TitleOf(bear[w.bear].body) else "";
    CreateCall("[Conflict] " + (if title == "" then "Untitled" else title),
               if w.Create? || w.Update? then w.body else "", if read then bear[w.bear].tags else {})
  }

  /** handleConflictItem: the consumer's version becomes a separate note. */
  function ConflictCopy(bear: Bear, row: Leased, out: Outcome): (Bear, AckItem) {
    if !out.ok then (bear, Failure(row))
    else
      (bear[out.id := NewNote(CopyCall(bear, row.item.write, out.readBack), out)],
       AckItem(row.id, true, None, None, true))
  }

  function ApplyCreate(bear: Bear, row: Leased, out: Outcome): (Bear, AckItem)
    requires row.item.write.Create?
  {
    var w := row.item.write;
    if Utf8Len(w.body) > MAX_BODY || !out.ok then (bear, Failure(row))
    else
      var bear2 := bear[out.id := NewNote(CreateCall(w.title, w.body, ToSet(w.tags)), out)];
      if !out.identified then (bear2, Failure(row))
      else (bear2, AckItem(row.id, true, Some(out.id), if out.readBack then out.stamp else None, false))
  }

  function ApplyUpdate(bear: Bear, row: Leased, out: Outcome): (Bear, AckItem)
    requires row.item.write.Update?
  {
    var b, body := Target(bear, row), row.item.write.body;
    if b.None? then (bear, Failure(row))
    else if body != "" && bear[b.value].body == body then (bear, Success(row, bear[b.value].modifiedAt))
    else if !BodyFits(body) || !out.ok then (bear, Failure(row))
    else
      (bear[b.value := bear[b.value].(body := body, modifiedAt := out.stamp)],
       Success(row, if out.readBack then out.stamp else None))
  }

  function ApplyAddTag(bear: Bear, row: Leased, out: Outcome): (Bear, AckItem)
    requires row.item.write.AddTag?
  {
    var b, tag := Target(bear, row), row.item.write.tag;
    if b.None? then (bear, Failure(row))
    else if tag in bear[b.value].tags then (bear, Success(row, None))
    else if !out.ok then (bear, Failure(row))
    else
      (bear[b.value := bear[b.value].(tags := bear[b.value].tags + {tag}, modifiedAt := out.stamp)],
       Success(row, None))
  }

  function ApplyTrash(bear: Bear, row: Leased, out: Outcome): (Bear, AckItem) {
    var b := Target(bear, row);
    if b.None? then (bear, Failure(row))
    else if bear[b.value].trashed then (bear, Success(row, None))
    else if !out.ok then (bear, Failure(row))
    else (bear[b.value := bear[b.value].(trashed := true, modifiedAt := out.stamp)], Success(row, None))
  }

  function ApplyArchive(bear: Bear, row: Leased, out: Outcome): (Bear, AckItem) {
    var b := Target(bear, row);
    if b.None? then (bear, Failure(row))
    else if bear[b.value].archived then (bear, Success(row, None))
    else if !out.ok then (bear, Failure(row))
    else (bear[b.value := bear[b.value].(archived := true, modifiedAt := out.stamp)], Success(row, None))
  }

  /** The duplicate check is by filename only. */
  function ApplyAddFile(bear: Bear, row: Leased, out: Outcome): (Bear, AckItem)
    requires row.item.write.AddFile?
  {
    var b, w := Target(bear, row), row.item.write;
    if w.blob == "" || w.filename == "" || b.None? then (bear, Failure(row))
    else if w.filename in bear[b.value].files then (bear, Success(row, None))
    else if !out.ok then (bear, Failure(row))
    else
      (bear[b.value := bear[b.value].(files := bear[b.value].files + {w.filename}, modifiedAt := out.stamp)],
       Success(row, None))
  }

  function Retagged(note: BearNote, name: string, newName: Option<string>, stamp: Stamp): BearNote {
    if name !in note.tags then note
    else note.(tags := note.tags - {name} + (if newName.Some? then {newName.value} else {}), modifiedAt := stamp)
  }

  function ApplyTagWide(bear: Bear, row: Leased, name: string, newName: Option<string>, out: Outcome): (Bear, AckItem) {
    if name == "" || newName == Some("") || !out.ok then (bear, Failure(row))
    else (map b | b in bear :: Retagged(bear[b], name, newName, out.stamp), Success(row, None))
  }

  /** applyQueueItem: one leased row, and the ack it earns. */
  function Apply(bear: Bear, row: Leased, out: Outcome): (Bear, AckItem) {
    if IsConflictRow(row) then ConflictCopy(bear, row, out)
    else
      match row.item.write
      case Create(_, _, _) => ApplyCreate(bear, row, out)
      case Update(_, _) => ApplyUpdate(bear, row, out)
      case AddTag(_, _) => ApplyAddTag(bear, row, out)
      case Trash(_) => ApplyTrash(bear, row, out)
      case Archive(_) => ApplyArchive(bear, row, out)
      case AddFile(_, _, _) => ApplyAddFile(bear, row, out)
      case RenameTag(name, newName) => ApplyTagWide(bear, row, name, Some(newName), out)
      case DeleteTag(name) => ApplyTagWide(bear, row, name, None, out)
  }

  function Pass(bear: Bear, rows: seq<Leased>, outs: seq<Outcome>): Bear
    requires |outs| == |rows|
    decreases |rows|
  {
    if rows == [] then bear else Pass(Apply(bear, rows[0], outs[0]).0, rows[1..], outs[1..])
  }

  function Acks(bear: Bear, rows: seq<Leased>, outs: seq<Outcome>): (acks: seq<AckItem>)
    requires |outs| == |rows|
    ensures |acks| == |rows|
    decreases |rows|
  {
    if rows == [] then []
    else
      var (bear2, ack) := Apply(bear, rows[0], outs[0]);
      [ack] + Acks(bear2, rows[1..], outs[1..])
  }

  /** The loop of processQueue, with Bear as the state it changes. */
  class Bridge {
    var bear: Bear

    constructor (bear: Bear)
      ensures this.bear == bear
    {
      this.bear := bear;
    }

    method ApplyQueueItem(row: Leased, out: Outcome) returns (ack: AckItem)
      modifies this
      ensures (bear, ack) == Apply(old(bear), row, out)
    {
      if row.item.note.Some? && row.noteStatus == Some(Conflict) {
        ack := HandleConflictItem(row, out);
        return;
      }
      match row.item.write
      case Create(_, _, _) => ack := CreateInBear(row, out);
      case Update(_, _) => ack := UpdateInBear(row, out);
      case AddTag(_, _) => ack := AddTagInBear(row, out);
      case Trash(_) => ack := ChangeNoteState(row, out);
      case Archive(_) => ack := ChangeNoteState(row, out);
      case AddFile(_, _, _) => ack := AddFileInBear(row, out);
      case RenameTag(name, newName) => ack := ChangeTagEverywhere(row, name, Some(newName), out);
      case DeleteTag(name) => ack := ChangeTagEverywhere(row, name, None, out);
    }

    method CreateInBear(row: Leased, out: Outcome) returns (ack: AckItem)
      requires row.item.write.Create?
      modifies this
      ensures (bear, ack) == ApplyCreate(old(bear), row, out)
    {
      var w := row.item.write;
      ack := Failure(row);
      if Utf8Len(w.body) > MAX_BODY || !out.ok {
        return;
      }
      bear := bear[out.id := NewNote(CreateCall(w.title, w.body, ToSet(w.tags)), out)];
      if out.identified {
        ack := ack.(applied := true, bearId := Some(out.id), modifiedAt := if out.readBack then out.stamp else None);
      }
    }

    method UpdateInBear(row: Leased, out: Outcome) returns (ack: AckItem)
      requires row.item.write.Update?
      modifies this
      ensures (bear, ack) == ApplyUpdate(old(bear), row, out)
    {
      var b, body := Target(bear, row), row.item.write.body;
      ack := Failure(row);
      if b.None? {
        return;
      }
      var note := bear[b.value];
      if body != "" && note.body == body {
        ack := ack.(applied := true, modifiedAt := note.modifiedAt);
        return;
      }
      if body == "" || Utf8Len(body) > MAX_BODY || !out.ok {
        return;
      }
      bear := bear[b.value := note.(body := body, modifiedAt := out.stamp)];
      ack := ack.(applied := true, modifiedAt := if out.readBack then out.stamp else None);
    }

    method AddTagInBear(row: Leased, out: Outcome) returns (ack: AckItem)
      requires row.item.write.AddTag?
      modifies this
      ensures (bear, ack) == ApplyAddTag(old(bear), row, out)
    {
      var b, tag := Target(bear, row), row.item.write.tag;
      ack := Failure(row);
      if b.None? {
        return;
      }
      if tag !in bear[b.value].tags {
        if !out.ok {
          return;
        }
        bear := bear[b.value := bear[b.value].(tags := bear[b.value].tags + {tag}, modifiedAt := out.stamp)];
      }
      ack := ack.(applied := true);
    }

    /** applyNoteStateChange, shared by trash and archive. */
    method ChangeNoteState(row: Leased, out: Outcome) returns (ack: AckItem)
      requires row.item.write.Trash? || row.item.write.Archive?
      modifies this
      ensures (bear, ack) ==
              if row.item.write.Trash? then ApplyTrash(old(bear), row, out) else ApplyArchive(old(bear), row, out)
    {
      var b := Target(bear, row);
      ack := Failure(row);
      if b.None? {
        return;
      }
      var note := bear[b.value];
      var isApplied := if row.item.write.Trash? then note.trashed else note.archived;
      if !isApplied {
        if !out.ok {
          return;
        }
        if row.item.write.Trash? {
          note := note.(trashed := true);
        } else {
          note := note.(archived := true);
        }
        bear := bear[b.value := note.(modifiedAt := out.stamp)];
      }
      ack := ack.(applied := true);
    }

    method AddFileInBear(row: Leased, out: Outcome) returns (ack: AckItem)
      requires row.item.write.AddFile?
      modifies this
      ensures (bear, ack) == ApplyAddFile(old(bear), row, out)
    {
      var b, w := Target(bear, row), row.item.write;
      ack := Failure(row);
      if w.blob == "" || w.filename == "" || b.None? {
        return;
      }
      if w.filename !in bear[b.value].files {
        if !out.ok {
          return;
        }
        bear := bear[b.value := bear[b.value].(files := bear[b.value].files + {w.filename}, modifiedAt := out.stamp)];
      }
      ack := ack.(applied := true);
    }

    method ChangeTagEverywhere(row: Leased, name: string, newName: Option<string>, out: Outcome) returns (ack: AckItem)
      modifies this
      ensures (bear, ack) == ApplyTagWide(old(bear), row, name, newName, out)
    {
      ack := Failure(row);
      if name == "" || newName == Some("") || !out.ok {
        return;
      }
      var rest := bear.Keys;
      while rest != {}
        invariant rest <= bear.Keys == old(bear).Keys
        invariant forall b | b in bear ::
                    bear[b] == if b in rest then old(bear)[b] else Retagged(old(bear)[b], name, newName, out.stamp)
        decreases |rest|
      {
        var b :| b in rest;
        bear := bear[b := Retagged(bear[b], name, newName, out.stamp)];
        rest := rest - {b};
      }
      assert bear == map b | b in old(bear) :: Retagged(old(bear)[b], name, newName, out.stamp);
      ack := ack.(applied := true);
    }

    method HandleConflictItem(row: Leased, out: Outcome) returns (ack: AckItem)
      modifies this
      ensures (bear, ack) == ConflictCopy(old(bear), row, out)
    {
      ack := AckItem(row.id, false, None, None, false);
      if !out.ok {
        return;
      }
      var w := row.item.write;
      var body := if w.Create? || w.Update? then w.body else "";
      var title := if w.Create? then w.title else "";
      var tags: set<string> := {};
      if w.TargetsNote() && !w.Create? && w.bear in bear && out.readBack {
        if title == "" {
          title := NoteTitle.TitleOf(bear[w.bear].body);
        }
        tags := bear[w.bear].tags;
      }
      if title == "" {
        title := "Untitled";
      }
      bear := bear[out.id := NewNote(CreateCall("[Conflict] " + title, body, tags), out)];
      ack := ack.(applied := true, conflictResolved := true);
    }

    method ProcessQueue(rows: seq<Leased>, outs: seq<Outcome>) returns (acks: seq<AckItem>)
      requires |outs| == |rows|
      modifies this
      ensures bear == Pass(old(bear), rows, outs)
      ensures acks == Acks(old(bear), rows, outs) && AckFor(rows, acks)
    {
      acks := [];
      var i := 0;
      while i < |rows|
        invariant 0 <= i <= |rows|
        invariant Pass(old(bear), rows, outs) == Pass(bear, rows[i..], outs[i..])
        invariant Acks(old(bear), rows, outs) == acks + Acks(bear, rows[i..], outs[i..])
      {
        assert rows[i..][1..] == rows[i + 1..] && outs[i..][1..] == outs[i + 1..];
        var ack := ApplyQueueItem(rows[i], outs[i]);
        acks := acks + [ack];
        i := i + 1;
      }
      AcksReport(old(bear), rows, outs);
    }
  }

  lemma ApplyReports(bear: Bear, row: Leased, out: Outcome)
    ensures var a := Apply(bear, row, out).1; a.id == row.id && Reports(row.item, row.noteStatus, a)
  {
  }

  /** Whatever Bear answers, the bridge's acks are of the kind the hub's invariant relies on. */
  lemma {:induction false} AcksReport(bear: Bear, rows: seq<Leased>, outs: seq<Outcome>)
    requires |outs| == |rows|
    ensures AckFor(rows, Acks(bear, rows, outs))
    decreases |rows|
  {
    if rows != [] {
      ApplyReports(bear, rows[0], outs[0]);
      AcksReport(Apply(bear, rows[0], outs[0]).0, rows[1..], outs[1..]);
    }
  }

  // ---- Crash replay ----

  /** The writes the bridge can tell it has already made: not creates, conflict copies or tag-wide changes. */
  predicate Replayable(row: Leased) {
    !IsConflictRow(row) && row.item.write.TargetsNote() && !row.item.write.Create?
  }

  predicate AllOk(outs: seq<Outcome>) { forall i | 0 <= i < |outs| :: outs[i].ok }

  /** What a write adds to its note, stamps aside. */
  function Effect(note: BearNote, w: Write): BearNote {
    match w
    case Update(body, _) => if BodyFits(body) then note.(body := body) else note
    case AddTag(tag, _) => note.(tags := note.tags + {tag})
    case Trash(_) => note.(trashed := true)
    case Archive(_) => note.(archived := true)
    case AddFile(blob, filename, _) =>
      if blob != "" && filename != "" then note.(files := note.files + {filename}) else note
    case _ => note
  }

  function Content(note: BearNote): BearNote { note.(modifiedAt := None) }

  function Contents(bear: Bear): Bear { map b | b in bear :: Content(bear[b]) }

  /** A replayable row changes its own target by its effect and nothing else. */
  lemma ApplyContents(bear: Bear, row: Leased, out: Outcome)
    requires Replayable(row) && out.ok
    ensures var bear2, t := Apply(bear, row, out).0, Target(bear, row);
            && bear2.Keys == bear.Keys
            && forall b | b in bear ::
                 Content(bear2[b])
                 == if t == Some(b) then Effect(Content(bear[b]), row.item.write) else Content(bear[b])
  {
    if Target(bear, row).Some? {
      var note := bear[Target(bear, row).value];
      match row.item.write {
        case Update(body, _) =>
        case AddTag(tag, _) => assert tag in note.tags ==> note.tags + {tag} == note.tags;
        case Trash(_) =>
        case Archive(_) =>
        case AddFile(_, filename, _) => assert filename in note.files ==> note.files + {filename} == note.files;
      }
    }
  }

  /** Row i writes to Bear note b. */
  predicate Hits(bear: Bear, rows: seq<Leased>, i: nat, b: BearId) { i < |rows| && Target(bear, rows[i]) == Some(b) }

  /** The last body the rows give note b. */
  function NetBody(bear: Bear, rows: seq<Leased>, b: BearId): Option<string> {
    if rows == [] then None
    else
      var last := rows[|rows| - 1];
      if Target(bear, last) == Some(b) && last.item.write.Update? && BodyFits(last.item.write.body)
      then Some(last.item.write.body) else NetBody(bear, rows[..|rows| - 1], b)
  }

  function NetTags(bear: Bear, rows: seq<Leased>, b: BearId): set<string> {
    set i | 0 <= i < |rows| && Hits(bear, rows, i, b) && rows[i].item.write.AddTag? :: rows[i].item.write.tag
  }

  function NetFiles(bear: Bear, rows: seq<Leased>, b: BearId): set<string> {
    set i | 0 <= i < |rows| && Hits(bear, rows, i, b) && rows[i].item.write.AddFile?
            && rows[i].item.write.blob != "" && rows[i].item.write.filename != "" :: rows[i].item.write.filename
  }

  predicate NetTrash(bear: Bear, rows: seq<Leased>, b: BearId) {
    exists i | 0 <= i < |rows| :: Hits(bear, rows, i, b) && rows[i].item.write.Trash?
  }

  predicate NetArchive(bear: Bear, rows: seq<Leased>, b: BearId) {
    exists i | 0 <= i < |rows| :: Hits(bear, rows, i, b) && rows[i].item.write.Archive?
  }

  /** The closed form of a pass over one note: last body, added tags and files, raised flags. */
  function Net(bear: Bear, rows: seq<Leased>, b: BearId, note: BearNote): BearNote {
    BearNote(
      if NetBody(bear, rows, b).Some? then NetBody(bear, rows, b).value else note.body,
      note.tags + NetTags(bear, rows, b), note.files + NetFiles(bear, rows, b),
      note.trashed || NetTrash(bear, rows, b), note.archived || NetArchive(bear, rows, b),
      note.modifiedAt, note.madeBy)
  }

  lemma {:induction false} PassSnoc(bear: Bear, rows: seq<Leased>, outs: seq<Outcome>, m: nat)
    requires |outs| == |rows| == m + 1
    ensures Pass(bear, rows, outs) == Apply(Pass(bear, rows[..m], outs[..m]), rows[m], outs[m]).0
    decreases m
  {
    if m > 0 {
      PassSnoc(Apply(bear, rows[0], outs[0]).0, rows[1..], outs[1..], m - 1);
      assert rows[1..][..m - 1] == rows[..m][1..] && outs[1..][..m - 1] == outs[..m][1..];
    }
  }

  lemma HitsSnoc(bear: Bear, rows: seq<Leased>, b: BearId, m: nat)
    requires |rows| == m + 1
    ensures forall i | 0 <= i < m :: Hits(bear, rows, i, b) <==> Hits(bear, rows[..m], i, b)
  {
  }

  lemma NetSetsSnoc(bear: Bear, rows: seq<Leased>, b: BearId, m: nat)
    requires |rows| == m + 1
    ensures var hit, w := Hits(bear, rows, m, b), rows[m].item.write;
            && NetTags(bear, rows, b) == NetTags(bear, rows[..m], b) + (if hit && w.AddTag? then {w.tag} else {})
            && NetFiles(bear, rows, b) == NetFiles(bear, rows[..m], b)
                 + (if hit && w.AddFile? && w.blob != "" && w.filename != "" then {w.filename} else {})
  {
    HitsSnoc(bear, rows, b, m);
  }

  lemma NetFlagsSnoc(bear: Bear, rows: seq<Leased>, b: BearId, m: nat)
    requires |rows| == m + 1
    ensures var hit, w := Hits(bear, rows, m, b), rows[m].item.write;
            && (NetTrash(bear, rows, b) <==> NetTrash(bear, rows[..m], b) || (hit && w.Trash?))
            && (NetArchive(bear, rows, b) <==> NetArchive(bear, rows[..m], b) || (hit && w.Archive?))
  {
    HitsSnoc(bear, rows, b, m);
    if i :| 0 <= i < m && Hits(bear, rows[..m], i, b) && rows[..m][i].item.write.Trash? {
      assert Hits(bear, rows, i, b);
    }
    if i :| 0 <= i < m && Hits(bear, rows[..m], i, b) && rows[..m][i].item.write.Archive? {
      assert Hits(bear, rows, i, b);
    }
  }

  lemma NetSnoc(bear: Bear, rows: seq<Leased>, b: BearId, note: BearNote, m: nat)
    requires |rows| == m + 1 && Replayable(rows[m])
    ensures var before := Net(bear, rows[..m], b, note);
            Net(bear, rows, b, note)
            == if Target(bear, rows[m]) == Some(b) then Effect(before, rows[m].item.write) else before
  {
    NetSetsSnoc(bear, rows, b, m);
    NetFlagsSnoc(bear, rows, b, m);
    var before, after, w := Net(bear, rows[..m], b, note), Net(bear, rows, b, note), rows[m].item.write;
    assert rows[|rows| - 1] == rows[m] && rows[..|rows| - 1] == rows[..m];
    assert Hits(bear, rows, m, b) <==> Target(bear, rows[m]) == Some(b);
    if Target(bear, rows[m]) == Some(b) {
      assert after.tags == Effect(before, w).tags;
      assert after.files == Effect(before, w).files;
    }
  }

  lemma {:induction false} PassIsNet(bear: Bear, rows: seq<Leased>, outs: seq<Outcome>)
    requires |outs| == |rows| && AllOk(outs) && forall i | 0 <= i < |rows| :: Replayable(rows[i])
    ensures Pass(bear, rows, outs).Keys == bear.Keys
    ensures forall b | b in bear :: Content(Pass(bear, rows, outs)[b]) == Net(bear, rows, b, Content(bear[b]))
    decreases |rows|
  {
    if rows != [] {
      var m := |rows| - 1;
      var mid := Pass(bear, rows[..m], outs[..m]);
      PassIsNet(bear, rows[..m], outs[..m]);
      PassSnoc(bear, rows, outs, m);
      ApplyContents(mid, rows[m], outs[m]);
      forall b | b in bear ensures Content(Pass(bear, rows, outs)[b]) == Net(bear, rows, b, Content(bear[b])) {
        NetSnoc(bear, rows, b, Content(bear[b]), m);
      }
    }
  }

  lemma {:induction false} NetBodyPrefix(bear: Bear, rows: seq<Leased>, b: BearId, k: nat)
    requires k <= |rows| && NetBody(bear, rows, b).None?
    ensures NetBody(bear, rows[..k], b).None?
    decreases |rows|
  {
    if k < |rows| {
      assert rows[..|rows| - 1][..k] == rows[..k];
      NetBodyPrefix(bear, rows[..|rows| - 1], b, k);
    } else {
      assert rows[..k] == rows;
    }
  }

  /** A whole pass absorbs any part of it that was made before. */
  lemma NetAbsorbs(bear: Bear, rows: seq<Leased>, b: BearId, note: BearNote, k: nat)
    requires k <= |rows|
    ensures Net(bear, rows, b, Net(bear, rows[..k], b, note)) == Net(bear, rows, b, note)
  {
    var part := rows[..k];
    if NetBody(bear, rows, b).None? { NetBodyPrefix(bear, rows, b, k); }
    assert forall i | 0 <= i < k && Hits(bear, part, i, b) :: Hits(bear, rows, i, b);
    assert NetTags(bear, part, b) <= NetTags(bear, rows, b) && NetFiles(bear, part, b) <= NetFiles(bear, rows, b);
  }

  /** The keys alone decide where a row goes. */
  lemma NetKeys(bear: Bear, bear2: Bear, rows: seq<Leased>, b: BearId, note: BearNote)
    requires bear.Keys == bear2.Keys
    ensures Net(bear, rows, b, note) == Net(bear2, rows, b, note)
  {
    assert forall i, c :: Hits(bear, rows, i, c) <==> Hits(bear2, rows, i, c);
    NetBodyKeys(bear, bear2, rows, b);
  }

  lemma {:induction false} NetBodyKeys(bear: Bear, bear2: Bear, rows: seq<Leased>, b: BearId)
    requires bear.Keys == bear2.Keys
    ensures NetBody(bear, rows, b) == NetBody(bear2, rows, b)
    decreases |rows|
  {
    if rows != [] { NetBodyKeys(bear, bear2, rows[..|rows| - 1], b); }
  }

  /** A pass the bridge began and did not finish: how many rows it got through, and what it met. */
  datatype Partial = Partial(k: nat, outs: seq<Outcome>)

  predicate PartialOf(rows: seq<Leased>, p: Partial) { p.k <= |rows| && |p.outs| == p.k && AllOk(p.outs) }

  function Crashes(bear: Bear, rows: seq<Leased>, ps: seq<Partial>): Bear
    requires forall i | 0 <= i < |ps| :: PartialOf(rows, ps[i])
    decreases |ps|
  {
    if ps == [] then bear
    else
      assert PartialOf(rows, ps[0]);
      Crashes(Pass(bear, rows[..ps[0].k], ps[0].outs), rows, ps[1..])
  }

  /**
   * Crash replay: after any number of interrupted passes over the same leased rows, one whole pass leaves Bear's
   * bodies, tags, files and flags as a single uninterrupted pass would have.
   */
  lemma {:induction false} ReplayIsSafe(
    bear: Bear, rows: seq<Leased>, ps: seq<Partial>, outs: seq<Outcome>, once: seq<Outcome>)
    requires forall i | 0 <= i < |rows| :: Replayable(rows[i])
    requires forall i | 0 <= i < |ps| :: PartialOf(rows, ps[i])
    requires |outs| == |once| == |rows| && AllOk(outs) && AllOk(once)
    ensures Contents(Pass(Crashes(bear, rows, ps), rows, outs)) == Contents(Pass(bear, rows, once))
    decreases |ps|
  {
    if ps == [] {
      PassIsNet(bear, rows, once);
      PassIsNet(bear, rows, outs);
    } else {
      assert PartialOf(rows, ps[0]);
      var mid := Pass(bear, rows[..ps[0].k], ps[0].outs);
      ReplayIsSafe(mid, rows, ps[1..], outs, once);
      PartThenWhole(bear, rows, ps[0], once);
    }
  }

  lemma {:induction false} NetOf(bear: Bear, rows: seq<Leased>, outs: seq<Outcome>, b: BearId)
    requires |outs| == |rows| && AllOk(outs) && (forall i | 0 <= i < |rows| :: Replayable(rows[i])) && b in bear
    ensures var after := Pass(bear, rows, outs);
            after.Keys == bear.Keys && Content(after[b]) == Net(bear, rows, b, Content(bear[b]))
  {
    PassIsNet(bear, rows, outs);
  }

  lemma PartThenWholeOf(bear: Bear, rows: seq<Leased>, p: Partial, outs: seq<Outcome>, b: BearId)
    requires forall i | 0 <= i < |rows| :: Replayable(rows[i])
    requires PartialOf(rows, p) && |outs| == |rows| && AllOk(outs) && b in bear
    ensures var whole, again := Pass(bear, rows, outs), Pass(Pass(bear, rows[..p.k], p.outs), rows, outs);
            b in whole && b in again && Content(again[b]) == Content(whole[b])
  {
    var part := rows[..p.k];
    var mid := Pass(bear, part, p.outs);
    NetOf(bear, part, p.outs, b);
    NetOf(mid, rows, outs, b);
    NetOf(bear, rows, outs, b);
    NetKeys(bear, mid, rows, b, Content(mid[b]));
    NetAbsorbs(bear, rows, b, Content(bear[b]), p.k);
  }

  lemma SameContents(x: Bear, y: Bear)
    requires x.Keys == y.Keys && forall b | b in x :: Content(x[b]) == Content(y[b])
    ensures Contents(x) == Contents(y)
  {
  }

  lemma PassKeys(bear: Bear, rows: seq<Leased>, p: Partial, outs: seq<Outcome>)
    requires forall i | 0 <= i < |rows| :: Replayable(rows[i])
    requires PartialOf(rows, p) && |outs| == |rows| && AllOk(outs)
    ensures Pass(Pass(bear, rows[..p.k], p.outs), rows, outs).Keys == bear.Keys == Pass(bear, rows, outs).Keys
  {
    PassIsNet(bear, rows, outs);
    PassIsNet(bear, rows[..p.k], p.outs);
    PassIsNet(Pass(bear, rows[..p.k], p.outs), rows, outs);
  }

  lemma {:induction false} PartThenWhole(bear: Bear, rows: seq<Leased>, p: Partial, outs: seq<Outcome>)
    requires forall i | 0 <= i < |rows| :: Replayable(rows[i])
    requires PartialOf(rows, p) && |outs| == |rows| && AllOk(outs)
    ensures Contents(Pass(Pass(bear, rows[..p.k], p.outs), rows, outs)) == Contents(Pass(bear, rows, outs))
  {
    var whole, again := Pass(bear, rows, outs), Pass(Pass(bear, rows[..p.k], p.outs), rows, outs);
    PassKeys(bear, rows, p, outs);
    forall b | b in again ensures Content(again[b]) == Content(whole[b]) {
      PartThenWholeOf(bear, rows, p, outs, b);
    }
    SameContents(again, whole);
  }
}
