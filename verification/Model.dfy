/** The hub's rows: notes, write-queue items, and the messages the bridge and the consumers send. */
module Model {
  datatype Option<+T> = None | Some(value: T)

  type NoteId = string
  type BearId = string
  type BlobId = string
  type Key = string
  type Consumer = string

  /** A UTC instant in seconds. RFC 3339 strings in UTC compare as these numbers do; None is the empty string. */
  type Stamp = Option<nat>

  datatype SyncStatus = Synced | PendingToBear | Conflict

  /** A row of `notes`. A bear_id that is NULL or empty is None. */
  datatype Note = Note(
    bearId: Option<BearId>, title: string, body: string, status: SyncStatus, modifiedAt: Stamp,
    pendTitle: Option<string>, pendBody: Option<string>, expected: Stamp,
    trashed: bool, archived: bool, encrypted: bool)

  /** The action column together with its JSON payload. */
  datatype Write =
    | Create(title: string, body: string, tags: seq<string>)
    | Update(body: string, bear: BearId)
    | AddTag(tag: string, bear: BearId)
    | Trash(bear: BearId)
    | Archive(bear: BearId)
    | AddFile(blob: BlobId, filename: string, bear: BearId)
    | RenameTag(name: string, newName: string)
    | DeleteTag(name: string)
  {
    /** rename_tag and delete_tag are enqueued with an empty note_id; every other action names a note. */
    predicate TargetsNote() { !RenameTag? && !DeleteTag? }

    /** The actions whose handlers move the note to pending_to_bear. */
    predicate MarksNote() { Create? || Update? || Trash? || Archive? }
  }

  datatype ItemStatus = Pending | Processing | Applied | Failed

  /** A row of `write_queue`. Its id is its position: ids are assigned in order and no row is deleted. */
  datatype Item = Item(
    key: Key, secondary: Option<Key>, consumer: Consumer, note: Option<NoteId>, write: Write,
    status: ItemStatus, leaseUntil: Stamp)
  {
    predicate Unfinished() { status == Pending || status == Processing }

    predicate Answers(k: Key, c: Consumer) { consumer == c && (key == k || secondary == Some(k)) }
  }

  type Notes = map<NoteId, Note>
  type Queue = seq<Item>

  /** The hub's durable state: two tables and the uploaded add_file blobs on disk. */
  datatype HubState = HubState(notes: Notes, queue: Queue, blobs: set<BlobId>)

  /** A note as the mapper sends it: status synced, no snapshot, no expected stamp, a fresh hub id. */
  datatype PushNote = PushNote(
    id: NoteId, bearId: Option<BearId>, title: string, body: string, modifiedAt: Stamp,
    trashed: bool, archived: bool, encrypted: bool)

  datatype AckItem = AckItem(
    id: nat, applied: bool, bearId: Option<BearId>, modifiedAt: Stamp, conflictResolved: bool)

  /** A leased item as the bridge receives it, with the note's status joined in. */
  datatype Leased = Leased(id: nat, item: Item, noteStatus: Option<SyncStatus>)

  datatype Result<+T> = Ok(value: T) | Err

  /** An uploaded file: the base name of the name it was sent under, and its size in bytes. */
  datatype Upload = Upload(base: string, size: nat)

  /** A mutating consumer request, with the random ids and the clock it draws. */
  datatype Request =
    | CreateNote(title: string, body: string, tags: seq<string>, id: NoteId, now: nat)
    | UpdateNote(note: NoteId, body: string)
    | TrashNote(note: NoteId)
    | ArchiveNote(note: NoteId)
    | TagNote(note: NoteId, tag: string)
    | AttachFile(note: NoteId, upload: Option<Upload>, blob: BlobId)
    | RenameTagReq(found: Option<string>, newName: string)
    | DeleteTagReq(found: Option<string>)

  /** Done stands for the 2xx replies; Internal is a store error (500). */
  datatype Reply = Done | BadRequest | Forbidden | NotFound | Conflicted | TooLarge | Internal
}

/** extractTitleFromBody: Bear keeps a note's title as the first line of its text. */
module NoteTitle {
  predicate IsSpace(c: char) {
    || c == ' ' || '\t' <= c <= '\r' || c == '\U{85}' || c == '\U{A0}'
    || c == '\U{1680}' || '\U{2000}' <= c <= '\U{200A}' || c == '\U{2028}' || c == '\U{2029}'
    || c == '\U{202F}' || c == '\U{205F}' || c == '\U{3000}'
  }

  function FirstLine(s: string): string {
    if s == "" || s[0] == '\n' then "" else [s[0]] + FirstLine(s[1..])
  }

  function TrimLeft(s: string): string {
    if s != "" && IsSpace(s[0]) then TrimLeft(s[1..]) else s
  }

  function TrimRight(s: string): string {
    if s != "" && IsSpace(s[|s| - 1]) then TrimRight(s[..|s| - 1]) else s
  }

  function DropHashes(s: string): string {
    if s != "" && s[0] == '#' then DropHashes(s[1..]) else s
  }

  function Trim(s: string): string { TrimRight(TrimLeft(s)) }

  /** Only "# " and "## " headings lose their marks: "#tag" and "### x" keep theirs. */
  predicate IsHeading(line: string) {
    (|line| > 1 && line[0] == '#' && line[1] == ' ') || (|line| > 2 && line[0] == line[1] == '#' && line[2] == ' ')
  }

  function TitleOfLine(line: string): string {
    if IsHeading(line) then Trim(DropHashes(line)) else line
  }

  function TitleOf(body: string): string {
    TitleOfLine(Trim(FirstLine(body)))
  }

  predicate Trimmed(s: string) { s == "" || (!IsSpace(s[0]) && !IsSpace(s[|s| - 1])) }

  predicate OneLine(s: string) { '\n' !in s }

  lemma {:induction false} FirstLineEnds(s: string)
    ensures OneLine(FirstLine(s))
  {
    if s != "" && s[0] != '\n' { FirstLineEnds(s[1..]); }
  }

  /** Whatever follows the first line break is not read. */
  lemma {:induction false} FirstLineOf(t: string, rest: string)
    requires OneLine(t)
    ensures FirstLine(t) == t && FirstLine(t + "\n" + rest) == t
  {
    if t == "" {
      assert (t + "\n" + rest)[0] == '\n';
    } else {
      FirstLineOf(t[1..], rest);
      assert t == [t[0]] + t[1..] && (t + "\n" + rest)[1..] == t[1..] + "\n" + rest;
    }
  }

  lemma {:induction false} TrimLeftTrims(s: string)
    requires OneLine(s)
    ensures OneLine(TrimLeft(s)) && (TrimLeft(s) == "" || !IsSpace(TrimLeft(s)[0]))
  {
    if s != "" && IsSpace(s[0]) { TrimLeftTrims(s[1..]); }
  }

  lemma {:induction false} TrimRightTrims(s: string)
    requires OneLine(s)
    ensures var r := TrimRight(s); OneLine(r) && (r == "" || (r[0] == s[0] && !IsSpace(r[|r| - 1])))
    decreases |s|
  {
    if s != "" && IsSpace(s[|s| - 1]) { TrimRightTrims(s[..|s| - 1]); }
  }

  lemma TrimTrims(s: string)
    requires OneLine(s)
    ensures OneLine(Trim(s)) && Trimmed(Trim(s))
  {
    TrimLeftTrims(s);
    TrimRightTrims(TrimLeft(s));
  }

  lemma {:induction false} DropHashesKeepsLine(s: string)
    requires OneLine(s)
    ensures OneLine(DropHashes(s))
  {
    if s != "" && s[0] == '#' { DropHashesKeepsLine(s[1..]); }
  }

  /** A title is one line without blanks at its ends. */
  lemma TitleIsOneTrimmedLine(body: string)
    ensures OneLine(TitleOf(body)) && Trimmed(TitleOf(body))
  {
    FirstLineEnds(body);
    TrimTrims(FirstLine(body));
    var line := Trim(FirstLine(body));
    DropHashesKeepsLine(line);
    TrimTrims(DropHashes(line));
  }

  /** A line without blanks at its ends, hashtags included, is its own title, whatever follows it. */
  lemma PlainTitleReadsBack(t: string, rest: string)
    requires OneLine(t) && Trimmed(t) && !("# " <= t) && !("## " <= t)
    ensures TitleOf(t) == t && TitleOf(t + "\n" + rest) == t
  {
    FirstLineOf(t, rest);
  }

  /** And so does a title written as a heading of the first or second level. */
  lemma HeadingReadsBack(t: string, rest: string, marks: string)
    requires OneLine(t) && Trimmed(t) && t != "" && t[0] != '#' && (marks == "# " || marks == "## ")
    ensures TitleOf(marks + t) == t && TitleOf(marks + t + "\n" + rest) == t
  {
    var line := marks + t;
    FirstLineOf(line, rest);
    assert line[0] == '#' && line[|line| - 1] == t[|t| - 1];
    assert Trim(line) == line && IsHeading(line);
    HashesDrop(t, marks);
    assert (" " + t)[1..] == t;
    assert TrimLeft(" " + t) == TrimLeft(t);
  }

  lemma HashesDrop(t: string, marks: string)
    requires marks == "# " || marks == "## "
    ensures DropHashes(marks + t) == " " + t
  {
    var line := marks + t;
    if marks == "# " {
      assert line[1..] == " " + t;
    } else {
      var two := line[1..];
      assert two[0] == '#' && two[1..] == " " + t;
      assert DropHashes(line) == DropHashes(two) == DropHashes(" " + t);
    }
  }
}
