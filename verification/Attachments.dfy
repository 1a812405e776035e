/** When the hub's attachments agree with Bear's after a delta cycle, and over many cycles. */
module Attachments {
  import opened Model
  import opened TagTables
  import opened DeltaSync
  import opened TagAgreement

  lemma {:induction false} FilesAfter(files: Ids, notes: Ids, rows: seq<FileRow>)
    ensures var r := FilesUpserted(files, notes, rows);
            && (r.Ok? <==> forall x | x in rows :: x.note in notes)
            && (r.Ok? ==>
                  && r.value.Keys == files.Keys + FileIds(rows)
                  && (forall f | f in files && f !in FileIds(rows) :: r.value[f] == files[f])
                  && (forall f | f in FileIds(rows) :: exists x ::
                      x in rows && x.note in notes && r.value[f] == notes[x.note]))
    decreases |rows|
  {
    if rows != [] {
      assert rows == [rows[0]] + rows[1..];
      assert FileIds(rows) == {rows[0].id} + FileIds(rows[1..]);
      if rows[0].note in notes {
        FilesAfter(files[rows[0].id := notes[rows[0].note]], notes, rows[1..]);
      }
    }
  }

  /** A push fails exactly when it carries an attachment whose note is neither on the hub nor in the push. */
  lemma PushFailsIff(t: Tables, d: Delta)
    ensures Pushed(t, d).Err? <==> exists r :: r in d.files && r.note !in t.notes.Keys + RowIds(d.notes)
  {
    FilesAfter(t.files, Upserted(t.notes, d.notes), d.files);
  }

  /** One attachment that has lost its note, recent or new to the bridge, keeps every cycle from completing. */
  lemma OrphanBlocksEveryCycle(w: World, c: Cycle, r: FileRow)
    requires FileInDelta(w.saved, c.db, r) && r.note !in w.hub.notes && r.note !in RowIds(c.db.notes)
    ensures !Completes(w, c)
  {
    if IsDelta(w.saved, c.db, c.d) {
      assert r in c.d.files;
      forall x | x in c.d.notes ensures x.id in RowIds(c.db.notes) {
        assert x in c.db.notes;
      }
      PushFailsIff(w.hub, c.d);
    }
  }

  /** The ids the hub, the state file and Bear list. */
  predicate FilesInStep(w: World) { w.hub.files.Keys == Members(w.saved.files) }

  /** Bear's attachment rows join a note that exists, or none. */
  predicate FilesJoined(w: World, db: BearDb) {
    "" !in w.saved.notes && forall r | r in db.files :: r.note == "" || r.note in RowIds(db.notes)
  }

  /** The push does not carry attachment f and deletes the note the hub has it under. */
  predicate Cascades(w: World, c: Cycle, f: BearId) {
    && f !in FileIds(c.d.files)
    && f in w.hub.files && w.hub.files[f] in HubIds(w.hub.notes, Members(c.d.goneNotes))
  }

  /**
   * Attachment f left its note for another without a new stamp, in the cycle in which the old note disappears: the
   * deletion of the note takes the attachment with it.
   */
  predicate SweptAway(w: World, c: Cycle, f: BearId) { f in FileIds(c.db.files) && Cascades(w, c, f) }

  lemma PushedFiles(s: Saved, db: BearDb, d: Delta)
    requires IsDelta(s, db, d)
    ensures FileIds(d.files) <= FileIds(db.files)
    ensures forall f | f in FileIds(db.files) && f !in FileIds(d.files) :: f in s.files
    ensures forall f | f in s.files && f !in FileIds(db.files) :: f in d.goneFiles
    ensures forall f | f in d.goneFiles :: f !in FileIds(db.files)
  {
    forall f | f in FileIds(d.files) ensures f in FileIds(db.files) {
      var r :| r in d.files && r.id == f;
      assert FileInDelta(s, db, r);
    }
    forall r | r in db.files ensures r.id in s.files || r.id in FileIds(d.files) {
      if x :| x in db.files && x.id == r.id && Recent(x.stamp, s.lastSyncAt) {
        assert FileInDelta(s, db, x) && x in d.files;
      } else if r.id !in s.files {
        assert FileInDelta(s, db, r) && r in d.files;
      }
    }
  }

  lemma GoneNotesWereThere(w: World, c: Cycle)
    requires IsDelta(w.saved, c.db, c.d)
    ensures HubIds(Upserted(w.hub.notes, c.d.notes), Members(c.d.goneNotes))
        == HubIds(w.hub.notes, Members(c.d.goneNotes))
  {
    forall r | r in c.d.notes ensures r.id !in c.d.goneNotes {
      assert r in c.db.notes && r.id in RowIds(c.db.notes);
    }
  }

  /** Pushed attachments belong to notes that stay. */
  lemma OwnersAfter(w: World, c: Cycle, f: BearId)
    requires Completes(w, c) && !IsEmpty(c.d) && FilesJoined(w, c.db)
    requires Injective(w.hub.notes) && NewDraws(w.hub.notes, c.d.notes)
    requires f in Filled(w.hub, c.d).value.files
    ensures var gone := HubIds(Upserted(w.hub.notes, c.d.notes), Members(c.d.goneNotes));
            Filled(w.hub, c.d).value.files[f] in gone <==> Cascades(w, c, f)
  {
    var notes := Upserted(w.hub.notes, c.d.notes);
    FilesAfter(w.hub.files, notes, c.d.files);
    GoneNotesWereThere(w, c);
    UpsertIsInjective(w.hub.notes, c.d.notes);
    if f in FileIds(c.d.files) {
      var x :| x in c.d.files && x.note in notes && Filled(w.hub, c.d).value.files[f] == notes[x.note];
      assert FileInDelta(w.saved, c.db, x);
      InHubIds(notes, Members(c.d.goneNotes), x.note);
    }
  }

  lemma FileStays(w: World, c: Cycle, f: BearId)
    requires Completes(w, c) && !IsEmpty(c.d) && FilesJoined(w, c.db)
    requires Injective(w.hub.notes) && NewDraws(w.hub.notes, c.d.notes)
    ensures f in After(w, c).hub.files <==>
              f in w.hub.files.Keys + FileIds(c.d.files) && f !in c.d.goneFiles && !Cascades(w, c, f)
  {
    FilesAfter(w.hub.files, Upserted(w.hub.notes, c.d.notes), c.d.files);
    if f in Filled(w.hub, c.d).value.files { OwnersAfter(w, c, f); }
  }

  /**
   * Whatever the stamps, a cycle ends with the state file listing Bear's attachments, and the hub too unless one was
   * swept away; a cycle that pushes nothing changes neither.
   */
  lemma FilesAgreeIff(w: World, c: Cycle)
    requires Completes(w, c) && FilesInStep(w) && FilesJoined(w, c.db)
    requires Injective(w.hub.notes) && NewDraws(w.hub.notes, c.d.notes)
    ensures Members(After(w, c).saved.files) == FileIds(c.db.files)
    ensures After(w, c).hub.files.Keys == FileIds(c.db.files) <==>
              IsEmpty(c.d) || forall f | f in FileIds(c.db.files) :: !SweptAway(w, c, f)
  {
    PushedFiles(w.saved, c.db, c.d);
    if IsEmpty(c.d) {
      assert forall f :: f in w.saved.files <==> f in FileIds(c.db.files);
    } else {
      var w2, cur := After(w, c), FileIds(c.db.files);
      forall f ensures f in w2.hub.files <==> f in cur && !SweptAway(w, c, f) {
        FileStays(w, c, f);
      }
    }
  }

  // ---- Many cycles ----

  ghost predicate NoneSwept(w: World, cs: seq<Cycle>)
    requires AllComplete(w, cs)
    decreases |cs|
  {
    cs == [] ||
    (&& FilesJoined(w, cs[0].db) && Injective(w.hub.notes) && NewDraws(w.hub.notes, cs[0].d.notes)
     && (forall f | f in FileIds(cs[0].db.files) :: !SweptAway(w, cs[0], f))
     && NoneSwept(After(w, cs[0]), cs[1..]))
  }

  /** Through any run that sweeps nothing away, hub and state file list exactly Bear's attachments after each cycle. */
  lemma {:induction false} FilesAgreeOverRuns(w: World, cs: seq<Cycle>)
    requires AllComplete(w, cs) && FilesInStep(w) && NoneSwept(w, cs)
    ensures var w2 := AfterAll(w, cs);
            FilesInStep(w2) && (cs != [] ==> w2.hub.files.Keys == FileIds(cs[|cs| - 1].db.files))
    decreases |cs|
  {
    if cs != [] {
      FilesAgreeIff(w, cs[0]);
      FilesAgreeOverRuns(After(w, cs[0]), cs[1..]);
      assert |cs| > 1 ==> cs[1..][|cs| - 2] == cs[|cs| - 1];
    }
  }

  /** Bear still has the attachment, under stamps the bridge considers old. */
  ghost predicate Unmoved(w: World, cs: seq<Cycle>, f: BearId)
    requires AllComplete(w, cs)
    decreases |cs|
  {
    cs == [] ||
    (&& f in FileIds(cs[0].db.files)
     && (forall r | r in cs[0].db.files && r.id == f :: !Recent(r.stamp, w.saved.lastSyncAt))
     && Unmoved(After(w, cs[0]), cs[1..], f))
  }

  /** An attachment that was swept away stays away, for its id is known and the id diff does not see it. */
  lemma {:induction false} SweptFilesStayAway(w: World, cs: seq<Cycle>, f: BearId)
    requires AllComplete(w, cs) && Unmoved(w, cs, f) && f in w.saved.files && f !in w.hub.files
    ensures f !in AfterAll(w, cs).hub.files && f in AfterAll(w, cs).saved.files
    decreases |cs|
  {
    if cs != [] {
      var c := cs[0];
      forall r | r in c.d.files ensures r.id != f {
        assert FileInDelta(w.saved, c.db, r);
      }
      FilesAfter(w.hub.files, Upserted(w.hub.notes, c.d.notes), c.d.files);
      assert f in Members(FileIdsOf(c.db.files));
      SweptFilesStayAway(After(w, c), cs[1..], f);
    }
  }

  // ---- A swept-away attachment and an orphan ----

  /** Attachment "f" belongs to note "a", on the hub and for the bridge. */
  const ATTACHED: World := World(
    Tables(map["a" := "A", "b" := "B"], map[], {}, {}, map["f" := "A"]), Saved(10, ["a", "b"], [], ["f"], [], [], 1))

  /** In Bear it has moved to note "b" under its old stamp, and "a" is gone. */
  const MOVING: Cycle := Cycle(
    BearDb([Row("b", 5, "")], [], [FileRow("f", "b", 5)], [], [], false),
    Delta([], [], [], [], [], false, ["a"], [], []), 20)

  lemma MovingIds()
    ensures RowIds(MOVING.db.notes) == {"b"} && FileIds(MOVING.db.files) == {"f"}
  {
    assert MOVING.db.notes[0] == Row("b", 5, "") && MOVING.db.files[0] == FileRow("f", "b", 5);
  }

  lemma MovingCompletes()
    ensures Completes(ATTACHED, MOVING) && FilesInStep(ATTACHED) && FilesJoined(ATTACHED, MOVING.db)
    ensures Injective(ATTACHED.hub.notes) && NewDraws(ATTACHED.hub.notes, MOVING.d.notes)
  {
    MovingIds();
    assert Gone(ATTACHED.saved.notes, {"b"}, MOVING.d.goneNotes);
    assert Gone(ATTACHED.saved.files, {"f"}, MOVING.d.goneFiles);
    assert IsDelta(ATTACHED.saved, MOVING.db, MOVING.d);
    assert Pushed(ATTACHED.hub, MOVING.d).Ok?;
  }

  /** The cycle completes, and the hub loses an attachment that Bear still has and the state file lists. */
  lemma AttachmentIsLost()
    ensures Completes(ATTACHED, MOVING) && FilesInStep(ATTACHED) && FilesJoined(ATTACHED, MOVING.db)
    ensures Injective(ATTACHED.hub.notes) && NewDraws(ATTACHED.hub.notes, MOVING.d.notes)
    ensures SweptAway(ATTACHED, MOVING, "f")
    ensures "f" in After(ATTACHED, MOVING).saved.files && "f" !in After(ATTACHED, MOVING).hub.files
  {
    MovingIds();
    MovingCompletes();
    assert "a" in MOVING.d.goneNotes && "a" in Members(MOVING.d.goneNotes);
    assert ATTACHED.hub.notes["a"] in HubIds(ATTACHED.hub.notes, Members(MOVING.d.goneNotes));
    FilesAgreeIff(ATTACHED, MOVING);
    FileStays(ATTACHED, MOVING, "f");
    assert "f" in Members(After(ATTACHED, MOVING).saved.files);
  }

  /** Note "b" on the hub, and in Bear a new attachment whose note is gone. */
  const LONE: World := World(Tables(map["b" := "B"], map[], {}, {}, map[]), Saved(10, ["b"], [], [], [], [], 1))

  const ORPHANED: Cycle := Cycle(
    BearDb([Row("b", 5, "")], [], [FileRow("g", "", 15)], [], [], false),
    Delta([], [], [], [], [FileRow("g", "", 15)], false, [], [], []), 20)

  /** The bridge builds this push, the hub rejects it, and no cycle completes while Bear has that attachment row. */
  lemma OrphanFailsPush()
    ensures FilesInStep(LONE) && FilesJoined(LONE, ORPHANED.db)
    ensures IsDelta(LONE.saved, ORPHANED.db, ORPHANED.d) && Pushed(LONE.hub, ORPHANED.d).Err?
    ensures forall c: Cycle | c.db == ORPHANED.db :: !Completes(LONE, c)
  {
    var r := FileRow("g", "", 15);
    assert ORPHANED.db.notes[0] == Row("b", 5, "") && ORPHANED.db.files[0] == r && ORPHANED.d.files[0] == r;
    assert RowIds(ORPHANED.db.notes) == {"b"} && FileIds(ORPHANED.db.files) == {"g"};
    assert IsDelta(LONE.saved, ORPHANED.db, ORPHANED.d);
    PushFailsIff(LONE.hub, ORPHANED.d);
    forall c: Cycle | c.db == ORPHANED.db ensures !Completes(LONE, c) {
      OrphanBlocksEveryCycle(LONE, c, r);
    }
  }
}
