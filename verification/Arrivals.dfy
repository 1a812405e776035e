/** Which edits made in Bear reach the hub through the delta cycle, and when. */
module Arrivals {
  import opened Model
  import opened TagTables
  import opened DeltaSync
  import opened TagAgreement

  /** At or after the clock of the state file; a clock that was never set selects everything. */
  predicate InTime(stamp: int, clock: int) { clock <= 0 || clock <= stamp }

  /** The request holds exactly the notes and tags stamped in time, every attachment stamped so, and what is gone. */
  lemma PushCarriesEdits(s: Saved, db: BearDb, d: Delta)
    requires IsDelta(s, db, d)
    ensures forall r :: r in d.notes <==> r in db.notes && InTime(r.stamp, s.lastSyncAt)
    ensures forall r :: r in d.tags <==> r in db.tags && InTime(r.stamp, s.lastSyncAt)
    ensures forall r | r in db.files && InTime(r.stamp, s.lastSyncAt) :: r in d.files
    ensures forall r | r in d.files :: r in db.files
    ensures forall b :: b in d.goneNotes <==> b in s.notes && b !in RowIds(db.notes)
    ensures forall b :: b in d.goneTags <==> b in s.tags && b !in RowIds(db.tags)
    ensures forall b :: b in d.goneFiles <==> b in s.files && b !in FileIds(db.files)
    ensures d.otherRows == db.otherRows
  {
    forall r | r in db.files && InTime(r.stamp, s.lastSyncAt) ensures r in d.files {
      assert FileInDelta(s, db, r);
    }
  }

  /** A cycle that pushes saves its clock, one that has nothing to push keeps the old one; both count. */
  lemma ClockAfter(w: World, c: Cycle)
    requires Completes(w, c)
    ensures var s2, d := After(w, c).saved, c.d;
            var empty := d.notes == [] && d.tags == [] && d.files == [] && d.noteTags == [] && d.pinned == []
                         && d.goneNotes == [] && d.goneTags == [] && d.goneFiles == [] && !d.otherRows;
            s2.lastSyncAt == (if empty then w.saved.lastSyncAt else c.now) && s2.counter == w.saved.counter + 1
  {
  }

  // ---- Versions ----

  /** For each note or tag the stamp of the version the hub was sent last. */
  type Sent = map<BearId, int>

  function Override(sent: Sent, rows: seq<Row>): Sent
    decreases |rows|
  {
    if rows == [] then sent else Override(sent[rows[0].id := rows[0].stamp], rows[1..])
  }

  function SentAfter(sent: Sent, rows: seq<Row>, gone: seq<BearId>): Sent { Override(sent, rows) - Members(gone) }

  predicate UniqueIds(rows: seq<Row>) { forall r, x | r in rows && x in rows && r.id == x.id :: r == x }

  /** The hub was sent the current version of every row, and of nothing else. */
  predicate Current(sent: Sent, rows: seq<Row>) {
    sent.Keys == RowIds(rows) && forall r | r in rows :: r.id in sent && sent[r.id] == r.stamp
  }

  lemma {:induction false} OverrideIs(sent: Sent, rows: seq<Row>)
    requires UniqueIds(rows)
    ensures Override(sent, rows).Keys == sent.Keys + RowIds(rows)
    ensures forall r | r in rows :: Override(sent, rows)[r.id] == r.stamp
    ensures forall b | b in sent && b !in RowIds(rows) :: Override(sent, rows)[b] == sent[b]
    decreases |rows|
  {
    if rows != [] {
      var rest := rows[1..];
      assert rows == [rows[0]] + rest;
      OverrideIs(sent[rows[0].id := rows[0].stamp], rest);
      assert RowIds(rows) == {rows[0].id} + RowIds(rest);
      if rows[0].id in RowIds(rest) {
        var x :| x in rest && x.id == rows[0].id;
        assert x == rows[0];
      }
    }
  }

  /** Each row is stamped in time or is the version the hub already has. */
  predicate Timely(sent: Sent, rows: seq<Row>, clock: int) {
    forall r | r in rows :: InTime(r.stamp, clock) || (r.id in sent && sent[r.id] == r.stamp)
  }

  lemma VersionAfter(sent: Sent, cur: seq<Row>, rows: seq<Row>, clock: int, r: Row)
    requires UniqueIds(cur) && r in cur && forall x :: x in rows <==> x in cur && InTime(x.stamp, clock)
    ensures var after := Override(sent, rows);
            (r.id in after && after[r.id] == r.stamp) <==>
            InTime(r.stamp, clock) || (r.id in sent && sent[r.id] == r.stamp)
  {
    OverrideIs(sent, rows);
    if r.id in RowIds(rows) {
      var x :| x in rows && x.id == r.id;
      assert x == r;
    }
  }

  lemma KeysAfter(sent: Sent, known: seq<BearId>, cur: seq<Row>, rows: seq<Row>, gone: seq<BearId>)
    requires sent.Keys == Members(known) && UniqueIds(rows) && forall r | r in rows :: r in cur
    requires forall b :: b in gone <==> b in known && b !in RowIds(cur)
    ensures forall b | b in SentAfter(sent, rows, gone) :: b in RowIds(cur)
    ensures forall b | b in RowIds(cur) :: b in Override(sent, rows) <==> b in SentAfter(sent, rows, gone)
  {
    OverrideIs(sent, rows);
  }

  /** Of one table: the versions sent are Bear's after the push exactly when everything new or changed is in time. */
  lemma VersionsArriveIff(sent: Sent, known: seq<BearId>, cur: seq<Row>, rows: seq<Row>, gone: seq<BearId>, clock: int)
    requires sent.Keys == Members(known) && UniqueIds(cur)
    requires forall r :: r in rows <==> r in cur && InTime(r.stamp, clock)
    requires forall b :: b in gone <==> b in known && b !in RowIds(cur)
    ensures Current(SentAfter(sent, rows, gone), cur) <==> Timely(sent, cur, clock)
  {
    var after := SentAfter(sent, rows, gone);
    KeysAfter(sent, known, cur, rows, gone);
    forall r | r in cur
      ensures r.id in RowIds(cur)
      ensures (r.id in after && after[r.id] == r.stamp) <==>
              InTime(r.stamp, clock) || (r.id in sent && sent[r.id] == r.stamp)
    {
      VersionAfter(sent, cur, rows, clock, r);
    }
    if Timely(sent, cur, clock) {
      forall b | b in RowIds(cur) ensures b in after {
        var r :| r in cur && r.id == b;
      }
    }
  }

  // ---- Cycles ----

  /** What the hub was sent of notes and of tags. */
  datatype Record = Record(notes: Sent, tags: Sent)

  function RecordAfter(rec: Record, c: Cycle): Record {
    if IsEmpty(c.d) then rec
    else Record(SentAfter(rec.notes, c.d.notes, c.d.goneNotes), SentAfter(rec.tags, c.d.tags, c.d.goneTags))
  }

  /** The record and the hub's tables list the ids the state file knows. */
  predicate Listed(w: World, rec: Record) {
    && rec.notes.Keys == w.hub.notes.Keys == Members(w.saved.notes)
    && rec.tags.Keys == w.hub.tags.Keys == Members(w.saved.tags)
  }

  /** Everything that is new or changed in Bear since the hub was told is stamped at or after the saved clock. */
  predicate OnTime(w: World, rec: Record, db: BearDb) {
    && UniqueIds(db.notes) && UniqueIds(db.tags)
    && Timely(rec.notes, db.notes, w.saved.lastSyncAt) && Timely(rec.tags, db.tags, w.saved.lastSyncAt)
  }

  predicate UpToDate(w: World, rec: Record, db: BearDb) {
    && Current(rec.notes, db.notes) && Current(rec.tags, db.tags)
    && w.hub.notes.Keys == RowIds(db.notes) && w.hub.tags.Keys == RowIds(db.tags)
  }

  lemma EmptyKeepsSent(sent: Sent, rows: seq<Row>, gone: seq<BearId>)
    requires rows == [] && gone == []
    ensures SentAfter(sent, rows, gone) == sent
  {
  }

  lemma RecordFollows(w: World, rec: Record, c: Cycle)
    requires Completes(w, c)
    ensures RecordAfter(rec, c)
            == Record(SentAfter(rec.notes, c.d.notes, c.d.goneNotes), SentAfter(rec.tags, c.d.tags, c.d.goneTags))
  {
    if IsEmpty(c.d) {
      EmptyKeepsSent(rec.notes, [], []);
      EmptyKeepsSent(rec.tags, [], []);
    }
  }

  lemma HubFollows(w: World, rec: Record, c: Cycle)
    requires Completes(w, c) && Listed(w, rec) && UniqueIds(c.db.notes) && UniqueIds(c.db.tags)
    ensures RecordAfter(rec, c).notes.Keys == After(w, c).hub.notes.Keys
    ensures RecordAfter(rec, c).tags.Keys == After(w, c).hub.tags.Keys
  {
    PushCarriesEdits(w.saved, c.db, c.d);
    assert UniqueIds(c.d.notes) && UniqueIds(c.d.tags);
    OverrideIs(rec.notes, c.d.notes);
    OverrideIs(rec.tags, c.d.tags);
  }

  /**
   * A completed cycle leaves the hub with Bear's notes and tags, each in its current version and no deleted one,
   * exactly when everything new or changed was stamped at or after the clock saved before.
   */
  lemma EditsArriveIff(w: World, rec: Record, c: Cycle)
    requires Completes(w, c) && Listed(w, rec) && UniqueIds(c.db.notes) && UniqueIds(c.db.tags)
    ensures UpToDate(After(w, c), RecordAfter(rec, c), c.db) <==> OnTime(w, rec, c.db)
  {
    PushCarriesEdits(w.saved, c.db, c.d);
    RecordFollows(w, rec, c);
    HubFollows(w, rec, c);
    VersionsArriveIff(rec.notes, w.saved.notes, c.db.notes, c.d.notes, c.d.goneNotes, w.saved.lastSyncAt);
    VersionsArriveIff(rec.tags, w.saved.tags, c.db.tags, c.d.tags, c.d.goneTags, w.saved.lastSyncAt);
  }

  lemma ListedAfter(w: World, rec: Record, c: Cycle)
    requires Completes(w, c) && UpToDate(After(w, c), RecordAfter(rec, c), c.db) && Listed(w, rec)
    ensures Listed(After(w, c), RecordAfter(rec, c))
  {
  }

  ghost predicate AllOnTime(w: World, rec: Record, cs: seq<Cycle>)
    requires AllComplete(w, cs)
    decreases |cs|
  {
    cs == [] || (OnTime(w, rec, cs[0].db) && AllOnTime(After(w, cs[0]), RecordAfter(rec, cs[0]), cs[1..]))
  }

  ghost function RecordAfterAll(w: World, rec: Record, cs: seq<Cycle>): Record
    requires AllComplete(w, cs)
    decreases |cs|
  {
    if cs == [] then rec else RecordAfterAll(After(w, cs[0]), RecordAfter(rec, cs[0]), cs[1..])
  }

  lemma {:induction false} EditsKeepArriving(w: World, rec: Record, cs: seq<Cycle>)
    requires AllComplete(w, cs) && Listed(w, rec) && AllOnTime(w, rec, cs)
    ensures Listed(AfterAll(w, cs), RecordAfterAll(w, rec, cs))
    ensures cs != [] ==> UpToDate(AfterAll(w, cs), RecordAfterAll(w, rec, cs), cs[|cs| - 1].db)
    decreases |cs|
  {
    if cs != [] {
      EditsArriveIff(w, rec, cs[0]);
      ListedAfter(w, rec, cs[0]);
      EditsKeepArriving(After(w, cs[0]), RecordAfter(rec, cs[0]), cs[1..]);
      assert |cs| > 1 ==> cs[1..][|cs| - 2] == cs[|cs| - 1];
    }
  }

  const EMPTY: World := World(Tables(map[], map[], {}, {}, map[]), Saved(0, [], [], [], [], [], 0))

  /** From an empty mirror, over every run of completed cycles in which nothing is stamped late. */
  lemma MirrorFollowsBear(cs: seq<Cycle>)
    requires AllComplete(EMPTY, cs) && AllOnTime(EMPTY, Record(map[], map[]), cs) && cs != []
    ensures var w, db := AfterAll(EMPTY, cs), cs[|cs| - 1].db;
            && w.hub.notes.Keys == RowIds(db.notes) && w.hub.tags.Keys == RowIds(db.tags)
            && Current(RecordAfterAll(EMPTY, Record(map[], map[]), cs).notes, db.notes)
            && Current(RecordAfterAll(EMPTY, Record(map[], map[]), cs).tags, db.tags)
  {
    EditsKeepArriving(EMPTY, Record(map[], map[]), cs);
  }

  // ---- An edit made while a cycle runs ----

  /** Through these cycles Bear's note n keeps a stamp that lies before every saved clock. */
  ghost predicate Late(w: World, cs: seq<Cycle>, n: BearId)
    requires AllComplete(w, cs)
    decreases |cs|
  {
    cs == [] ||
    (&& n in RowIds(cs[0].db.notes) && UniqueIds(cs[0].db.notes)
     && (forall r | r in cs[0].db.notes && r.id == n :: !InTime(r.stamp, w.saved.lastSyncAt))
     && Late(After(w, cs[0]), cs[1..], n))
  }

  /** A version stamped before the saved clock is not sent, in this cycle or any later one. */
  lemma {:induction false} LateEditIsNeverSent(w: World, rec: Record, cs: seq<Cycle>, n: BearId)
    requires AllComplete(w, cs) && Late(w, cs, n) && n in rec.notes
    ensures var rec2 := RecordAfterAll(w, rec, cs); n in rec2.notes && rec2.notes[n] == rec.notes[n]
    decreases |cs|
  {
    if cs != [] {
      var d := cs[0].d;
      PushCarriesEdits(w.saved, cs[0].db, d);
      assert UniqueIds(d.notes);
      OverrideIs(rec.notes, d.notes);
      assert n !in RowIds(d.notes) && n !in d.goneNotes;
      LateEditIsNeverSent(After(w, cs[0]), RecordAfter(rec, cs[0]), cs[1..], n);
    }
  }

  const NOTED: World := World(Tables(map["n" := "N"], map[], {}, {}, map[]), Saved(10, ["n"], [], [], [], [], 1))

  /** The cycle reads the version of time 12 and takes its clock at time 20. */
  const READING: Cycle := Cycle(
    BearDb([Row("n", 12, "")], [], [], [], [], false),
    Delta([Row("n", 12, "")], [], [], [], [], false, [], [], []), 20)

  /** The note was edited again at time 18. */
  const RETURNING: Cycle := Cycle(
    BearDb([Row("n", 18, "")], [], [], [], [], false), Delta([], [], [], [], [], false, [], [], []), 30)

  const TOLD: Record := Record(map["n" := 10], map[])

  lemma ReadingCompletes()
    ensures Completes(NOTED, READING) && Listed(NOTED, TOLD) && OnTime(NOTED, TOLD, READING.db)
    ensures !IsEmpty(READING.d) && RecordAfter(TOLD, READING).notes == map["n" := 12]
    ensures After(NOTED, READING).saved.lastSyncAt == 20
  {
    var r := Row("n", 12, "");
    assert READING.db.notes[0] == r && READING.d.notes[0] == r && RowIds(READING.db.notes) == {"n"};
    assert IsDelta(NOTED.saved, READING.db, READING.d);
    assert Pushed(NOTED.hub, READING.d).Ok?;
    assert Override(TOLD.notes, READING.d.notes) == Override(map["n" := 12], READING.d.notes[1..]);
    assert READING.d.notes[1..] == [] && Members(READING.d.goneNotes) == {};
  }

  lemma ReturningIsEmpty(w: World)
    requires w.saved.lastSyncAt == 20 && w.saved.notes == ["n"] && w.saved.tags == [] && w.saved.files == []
    requires !Scans(w.saved)
    ensures Completes(w, RETURNING) && IsEmpty(RETURNING.d)
  {
    assert RETURNING.db.notes[0] == Row("n", 18, "") && RowIds(RETURNING.db.notes) == {"n"};
    assert IsDelta(w.saved, RETURNING.db, RETURNING.d);
  }

  /** The edit is older than the clock saved after it, and the hub keeps the version of time 12. */
  lemma EditDuringCycleIsLost()
    ensures AllComplete(NOTED, [READING, RETURNING])
    ensures var rec := RecordAfterAll(NOTED, TOLD, [READING, RETURNING]);
            rec.notes == map["n" := 12] && !Current(rec.notes, RETURNING.db.notes)
  {
    ReadingCompletes();
    var w1, rec1 := After(NOTED, READING), RecordAfter(TOLD, READING);
    assert w1.saved.notes == ["n"];
    ReturningIsEmpty(w1);
    var cs := [READING, RETURNING];
    assert cs[1..] == [RETURNING] && cs[1..][1..] == [];
    assert RecordAfterAll(NOTED, TOLD, cs) == RecordAfterAll(w1, rec1, [RETURNING]);
    assert RecordAfterAll(w1, rec1, [RETURNING]) == RecordAfterAll(After(w1, RETURNING), rec1, []);
    assert RETURNING.db.notes[0] == Row("n", 18, "");
  }
}
