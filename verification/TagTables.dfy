/** The hub's tag and attachment tables, and what one push does to them. */
module TagTables {
  import opened Model

  type TagId = string

  /** A row of note_tags or pinned_note_tags, in hub ids. */
  type Link = (NoteId, TagId)

  /** A note-tag pair in Bear ids. In a push, an empty tag says that the note has no tags left. */
  datatype Pair = Pair(note: BearId, tag: BearId)

  /** A note or tag of Bear, with its modification stamp and the hub id the mapper draws for it. */
  datatype Row = Row(id: BearId, stamp: int, drawn: string)

  /** An attachment of Bear; `note` is empty when its note is gone. */
  datatype FileRow = FileRow(id: BearId, note: BearId, stamp: int)

  type Ids = map<BearId, string>

  /** The hub id of each Bear note and tag, the two junction tables, and the note each attachment belongs to. */
  datatype Tables = Tables(notes: Ids, tags: Ids, noteTags: set<Link>, pinned: set<Link>, files: Ids)

  /** A sync push. `otherRows` tells whether it also carries backlinks or backlink deletions. */
  datatype Delta = Delta(
    notes: seq<Row>, tags: seq<Row>, noteTags: seq<Pair>, pinned: seq<Pair>, files: seq<FileRow>, otherRows: bool,
    goneNotes: seq<BearId>, goneTags: seq<BearId>, goneFiles: seq<BearId>)

  function Members<T(==)>(s: seq<T>): set<T> { set x | x in s }

  function RowIds(rows: seq<Row>): set<BearId> { set r | r in rows :: r.id }

  /** Known ids keep their hub id; new ones take the drawn one. */
  function Upserted(ids: Ids, rows: seq<Row>): (r: Ids)
    ensures r.Keys == ids.Keys + RowIds(rows)
    ensures forall b | b in ids :: r[b] == ids[b]
    decreases |rows|
  {
    if rows == [] then ids
    else
      assert rows == [rows[0]] + rows[1..];
      assert RowIds(rows) == {rows[0].id} + RowIds(rows[1..]);
      Upserted(if rows[0].id in ids then ids else ids[rows[0].id := rows[0].drawn], rows[1..])
  }

  /** A new id gets the hub id drawn for it. */
  lemma {:induction false} NewIdsAreDrawn(ids: Ids, rows: seq<Row>, b: BearId)
    requires b in RowIds(rows) && b !in ids
    ensures b in Upserted(ids, rows) && exists r :: r in rows && r.id == b && Upserted(ids, rows)[b] == r.drawn
    decreases |rows|
  {
    assert rows == [rows[0]] + rows[1..];
    if rows[0].id == b {
      assert Upserted(ids, rows)[b] == rows[0].drawn;
    } else {
      NewIdsAreDrawn(if rows[0].id in ids then ids else ids[rows[0].id := rows[0].drawn], rows[1..], b);
    }
  }

  // ---- replaceNoteTags ----

  /** The links these pairs stand for; sentinels and pairs the hub cannot resolve stand for none. */
  function Links(notes: Ids, tags: Ids, pairs: set<Pair>): set<Link> {
    set p | p in pairs && p.tag != "" && p.note in notes && p.tag in tags :: (notes[p.note], tags[p.tag])
  }

  /** The Bear notes whose tags the push replaces: the pushed notes and every note a pair mentions. */
  function Mentioned(rows: seq<Row>, pairs: seq<Pair>): set<BearId> {
    RowIds(rows) + set p | p in pairs :: p.note
  }

  function HubIds(ids: Ids, bear: set<BearId>): set<string> { set b | b in bear && b in ids :: ids[b] }

  function Replaced(table: set<Link>, notes: Ids, tags: Ids, rows: seq<Row>, pairs: seq<Pair>): set<Link> {
    (set l | l in table && l.0 !in HubIds(notes, Mentioned(rows, pairs))) + Links(notes, tags, Members(pairs))
  }

  // ---- Attachments and deletions ----

  /** An attachment whose note is not on the hub violates the foreign key and aborts the push. */
  function FilesUpserted(files: Ids, notes: Ids, rows: seq<FileRow>): Result<Ids>
    decreases |rows|
  {
    if rows == [] then Ok(files)
    else if rows[0].note !in notes then Err
    else FilesUpserted(files[rows[0].id := notes[rows[0].note]], notes, rows[1..])
  }

  /** Deleting a note cascades to its links and its attachments. */
  function WithoutNotes(t: Tables, gone: set<BearId>): Tables {
    var ids := HubIds(t.notes, gone);
    Tables(t.notes - gone, t.tags, (set l | l in t.noteTags && l.0 !in ids), (set l | l in t.pinned && l.0 !in ids),
           (map f | f in t.files && t.files[f] !in ids :: t.files[f]))
  }

  function WithoutTags(t: Tables, gone: set<BearId>): Tables {
    var ids := HubIds(t.tags, gone);
    t.(tags := t.tags - gone, noteTags := (set l | l in t.noteTags && l.1 !in ids),
       pinned := (set l | l in t.pinned && l.1 !in ids))
  }

  predicate Injective(m: Ids) { forall a, b | a in m && b in m && m[a] == m[b] :: a == b }

  /** Every link joins a note and a tag of the hub, and every attachment belongs to a note of the hub. */
  predicate ForeignKeys(t: Tables) {
    && (forall l | l in t.noteTags + t.pinned :: l.0 in t.notes.Values && l.1 in t.tags.Values)
    && (forall f | f in t.files :: t.files[f] in t.notes.Values)
  }

  lemma StillThere(ids: Ids, gone: set<BearId>, id: string)
    requires Injective(ids) && id in ids.Values
    ensures id in (ids - gone).Values <==> id !in HubIds(ids, gone)
  {
    var b :| b in ids && ids[b] == id;
    if b !in gone { assert b in ids - gone && (ids - gone)[b] == id; }
  }

  /** Deleting notes removes exactly the links and attachments whose note is no longer there. */
  lemma NoteDeletionCascades(t: Tables, gone: set<BearId>)
    requires ForeignKeys(t) && Injective(t.notes)
    ensures var t2 := WithoutNotes(t, gone);
            && ForeignKeys(t2) && t2.tags == t.tags
            && (forall l :: l in t2.noteTags <==> l in t.noteTags && l.0 in t2.notes.Values)
            && (forall l :: l in t2.pinned <==> l in t.pinned && l.0 in t2.notes.Values)
            && (forall f :: f in t2.files <==> f in t.files && t.files[f] in t2.notes.Values)
            && (forall f | f in t2.files :: t2.files[f] == t.files[f])
  {
    forall id | id in t.notes.Values ensures id in (t.notes - gone).Values <==> id !in HubIds(t.notes, gone) {
      StillThere(t.notes, gone, id);
    }
    assert forall l | l in t.noteTags :: l in t.noteTags + t.pinned;
    assert forall l | l in t.pinned :: l in t.noteTags + t.pinned;
  }

  /** Deleting tags removes exactly the links whose tag is no longer there. */
  lemma TagDeletionCascades(t: Tables, gone: set<BearId>)
    requires ForeignKeys(t) && Injective(t.tags)
    ensures var t2 := WithoutTags(t, gone);
            && ForeignKeys(t2) && t2.notes == t.notes && t2.files == t.files
            && (forall l :: l in t2.noteTags <==> l in t.noteTags && l.1 in t2.tags.Values)
            && (forall l :: l in t2.pinned <==> l in t.pinned && l.1 in t2.tags.Values)
  {
    forall id | id in t.tags.Values ensures id in (t.tags - gone).Values <==> id !in HubIds(t.tags, gone) {
      StillThere(t.tags, gone, id);
    }
    assert forall l | l in t.noteTags :: l in t.noteTags + t.pinned;
    assert forall l | l in t.pinned :: l in t.noteTags + t.pinned;
  }

  /** The tables after the upserts, before anything is deleted. */
  function Filled(t: Tables, d: Delta): Result<Tables> {
    var notes, tags := Upserted(t.notes, d.notes), Upserted(t.tags, d.tags);
    var files := FilesUpserted(t.files, notes, d.files);
    if files.Err? then Err
    else Ok(Tables(notes, tags, Replaced(t.noteTags, notes, tags, d.notes, d.noteTags),
                   Replaced(t.pinned, notes, tags, d.notes, d.pinned), files.value))
  }

  function Pushed(t: Tables, d: Delta): Result<Tables> {
    var full := Filled(t, d);
    if full.Err? then Err
    else
      var t2 := WithoutTags(WithoutNotes(full.value, Members(d.goneNotes)), Members(d.goneTags));
      Ok(t2.(files := t2.files - Members(d.goneFiles)))
  }

  lemma {:induction false} FilesHaveNotes(files: Ids, notes: Ids, rows: seq<FileRow>)
    requires (forall f | f in files :: files[f] in notes.Values) && FilesUpserted(files, notes, rows).Ok?
    ensures var r := FilesUpserted(files, notes, rows).value; forall f | f in r :: r[f] in notes.Values
    decreases |rows|
  {
    if rows != [] {
      assert notes[rows[0].note] in notes.Values;
      FilesHaveNotes(files[rows[0].id := notes[rows[0].note]], notes, rows[1..]);
    }
  }

  lemma ReplacedHasEnds(table: set<Link>, notes: Ids, tags: Ids, rows: seq<Row>, pairs: seq<Pair>)
    requires forall l | l in table :: l.0 in notes.Values && l.1 in tags.Values
    ensures forall l | l in Replaced(table, notes, tags, rows, pairs) :: l.0 in notes.Values && l.1 in tags.Values
  {
  }

  lemma UpsertKeepsValues(ids: Ids, rows: seq<Row>)
    ensures forall id | id in ids.Values :: id in Upserted(ids, rows).Values
  {
    forall b | b in ids ensures ids[b] in Upserted(ids, rows).Values {
      assert Upserted(ids, rows)[b] == ids[b];
    }
  }

  lemma FilledKeepsForeignKeys(t: Tables, d: Delta)
    requires ForeignKeys(t) && Filled(t, d).Ok?
    ensures ForeignKeys(Filled(t, d).value)
  {
    var notes, tags := Upserted(t.notes, d.notes), Upserted(t.tags, d.tags);
    UpsertKeepsValues(t.notes, d.notes);
    UpsertKeepsValues(t.tags, d.tags);
    assert forall l | l in t.noteTags :: l in t.noteTags + t.pinned;
    assert forall l | l in t.pinned :: l in t.noteTags + t.pinned;
    ReplacedHasEnds(t.noteTags, notes, tags, d.notes, d.noteTags);
    ReplacedHasEnds(t.pinned, notes, tags, d.notes, d.pinned);
    FilesHaveNotes(t.files, notes, d.files);
  }

  /** A push that commits leaves no dangling link or attachment, whatever it carries and deletes. */
  lemma PushKeepsForeignKeys(t: Tables, d: Delta)
    requires ForeignKeys(t) && Injective(Upserted(t.notes, d.notes)) && Injective(Upserted(t.tags, d.tags))
    requires Pushed(t, d).Ok?
    ensures ForeignKeys(Pushed(t, d).value)
  {
    FilledKeepsForeignKeys(t, d);
    NoteDeletionCascades(Filled(t, d).value, Members(d.goneNotes));
    TagDeletionCascades(WithoutNotes(Filled(t, d).value, Members(d.goneNotes)), Members(d.goneTags));
  }

  /** The mirror of Bear's tags and attachments in the hub's database. */
  class Mirror {
    var notes: Ids
    var tags: Ids
    var noteTags: set<Link>
    var pinned: set<Link>
    var files: Ids

    function State(): Tables reads this { Tables(notes, tags, noteTags, pinned, files) }

    constructor ()
      ensures State() == Tables(map[], map[], {}, {}, map[])
    {
      notes, tags, noteTags, pinned, files := map[], map[], {}, {}, map[];
    }

    static method Upsert(ids: Ids, rows: seq<Row>) returns (r: Ids)
      ensures r == Upserted(ids, rows)
    {
      r := ids;
      var i := 0;
      while i < |rows|
        invariant 0 <= i <= |rows| && Upserted(ids, rows) == Upserted(r, rows[i..])
      {
        if rows[i].id !in r {
          r := r[rows[i].id := rows[i].drawn];
        }
        i := i + 1;
      }
    }

    /** The lookup table from Bear note ids to hub ids that one replacement uses. */
    method ResolveNotes(rows: seq<Row>, pairs: seq<Pair>) returns (m: Ids)
      ensures m.Keys == Mentioned(rows, pairs) * notes.Keys
      ensures forall b | b in m :: m[b] == notes[b]
    {
      m := map[];
      for i := 0 to |rows|
        invariant forall b :: b in m <==> b in notes && exists j :: 0 <= j < i && rows[j].id == b
        invariant forall b | b in m :: m[b] == notes[b]
      {
        if rows[i].id in notes {
          m := m[rows[i].id := notes[rows[i].id]];
        }
      }
      assert forall b :: b in m <==> b in notes && b in RowIds(rows);
      for i := 0 to |pairs|
        invariant forall b :: b in m <==>
            b in notes && (b in RowIds(rows) || exists j :: 0 <= j < i && pairs[j].note == b)
        invariant forall b | b in m :: m[b] == notes[b]
      {
        if pairs[i].note !in m && pairs[i].note in notes {
          m := m[pairs[i].note := notes[pairs[i].note]];
        }
      }
    }

    method InsertNoteTagPairs(table: set<Link>, pairs: seq<Pair>, m: Ids) returns (r: set<Link>)
      ensures r == table + Links(m, tags, Members(pairs))
    {
      r := table;
      for i := 0 to |pairs|
        invariant r == table + Links(m, tags, Members(pairs[..i]))
      {
        var p := pairs[i];
        assert pairs[..i + 1] == pairs[..i] + [p];
        assert Members(pairs[..i + 1]) == Members(pairs[..i]) + {p};
        if p.tag != "" && p.note in m && p.tag in tags {
          r := r + {(m[p.note], tags[p.tag])};
        }
      }
      assert pairs[..|pairs|] == pairs;
    }

    /** Either junction table: forget the mentioned notes' links, then insert the pairs that resolve. */
    method ReplaceNoteTags(table: set<Link>, rows: seq<Row>, pairs: seq<Pair>) returns (r: set<Link>)
      ensures r == Replaced(table, notes, tags, rows, pairs)
    {
      var m := ResolveNotes(rows, pairs);
      assert m.Values == HubIds(notes, Mentioned(rows, pairs));
      assert Links(m, tags, Members(pairs)) == Links(notes, tags, Members(pairs));
      if m == map[] {
        return table;
      }
      var hubIds := m.Values;
      var kept := set l | l in table && l.0 !in hubIds;
      r := InsertNoteTagPairs(kept, pairs, m);
    }

    method UpsertFiles(rows: seq<FileRow>) returns (ok: bool)
      modifies this`files
      ensures ok <==> FilesUpserted(old(files), notes, rows).Ok?
      ensures ok ==> files == FilesUpserted(old(files), notes, rows).value
    {
      var i := 0;
      while i < |rows|
        invariant 0 <= i <= |rows|
        invariant FilesUpserted(old(files), notes, rows) == FilesUpserted(files, notes, rows[i..])
      {
        if rows[i].note !in notes {
          return false;
        }
        files := files[rows[i].id := notes[rows[i].note]];
        i := i + 1;
      }
      ok := true;
    }

    method DeleteNotes(gone: seq<BearId>)
      modifies this
      ensures State() == WithoutNotes(old(State()), Members(gone))
    {
      var ids := HubIds(notes, Members(gone));
      noteTags := set l | l in noteTags && l.0 !in ids;
      pinned := set l | l in pinned && l.0 !in ids;
      files := map f | f in files && files[f] !in ids :: files[f];
      notes := notes - Members(gone);
    }

    method DeleteTags(gone: seq<BearId>)
      modifies this
      ensures State() == WithoutTags(old(State()), Members(gone))
    {
      var ids := HubIds(tags, Members(gone));
      noteTags := set l | l in noteTags && l.1 !in ids;
      pinned := set l | l in pinned && l.1 !in ids;
      tags := tags - Members(gone);
    }

    /** One transaction: a failure leaves every table as it was. */
    method ProcessSyncPush(d: Delta) returns (ok: bool)
      modifies this
      ensures ok <==> Pushed(old(State()), d).Ok?
      ensures State() == if ok then Pushed(old(State()), d).value else old(State())
    {
      var notes0, tags0, noteTags0, pinned0, files0 := notes, tags, noteTags, pinned, files;
      notes := Upsert(notes, d.notes);
      tags := Upsert(tags, d.tags);
      noteTags := ReplaceNoteTags(noteTags, d.notes, d.noteTags);
      pinned := ReplaceNoteTags(pinned, d.notes, d.pinned);
      ok := UpsertFiles(d.files);
      if !ok {
        notes, tags, noteTags, pinned, files := notes0, tags0, noteTags0, pinned0, files0;
        return;
      }
      DeleteNotes(d.goneNotes);
      DeleteTags(d.goneTags);
      files := files - Members(d.goneFiles);
    }
  }
}
