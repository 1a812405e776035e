/** How the bridge turns Bear's current rows and its saved state into a push. */
module DeltaSync {
  import opened Model
  import opened TagTables

  /** What the bridge reads from Bear in one cycle. */
  datatype BearDb = BearDb(
    notes: seq<Row>, tags: seq<Row>, files: seq<FileRow>, noteTags: seq<Pair>, pinned: seq<Pair>, otherRows: bool)

  /** The state file. */
  datatype Saved = Saved(
    lastSyncAt: int, notes: seq<BearId>, tags: seq<BearId>, files: seq<BearId>,
    noteTags: seq<Pair>, pinned: seq<Pair>, counter: nat)

  const FULL_SCAN_INTERVAL: nat := 12

  predicate Scans(s: Saved) { s.counter > 0 && s.counter % FULL_SCAN_INTERVAL == 0 }

  function TagsOf(pairs: seq<Pair>, n: BearId): set<BearId> { set p | p in pairs && p.note == n :: p.tag }

  function FileIds(rows: seq<FileRow>): set<BearId> { set r | r in rows :: r.id }

  /** The WHERE clause of the timestamp queries; a zero stamp selects everything. */
  predicate Recent(stamp: int, since: int) { since > 0 ==> stamp >= since }

  predicate Distinct<T(==)>(s: seq<T>) { forall i, j | 0 <= i < j < |s| :: s[i] != s[j] }

  // ---- What a request must contain ----

  predicate ChangedNote(known: seq<Pair>, cur: seq<Pair>, n: BearId) { TagsOf(known, n) != TagsOf(cur, n) }

  /** All current pairs of the changed notes, and a sentinel for a changed note without pairs. */
  predicate InScan(known: seq<Pair>, cur: seq<Pair>, p: Pair) {
    && ChangedNote(known, cur, p.note)
    && (p in cur || (p.tag == "" && TagsOf(cur, p.note) == {}))
  }

  /** The pairs of one junction table in the push: those of recently modified notes, and what a full scan adds. */
  predicate InDelta(s: Saved, recent: set<BearId>, known: seq<Pair>, cur: seq<Pair>, p: Pair) {
    (p in cur && p.note in recent) || (Scans(s) && InScan(known, cur, p))
  }

  /** Attachments with a recent stamp, and those whose id is new whatever their stamp. */
  predicate FileInDelta(s: Saved, db: BearDb, r: FileRow) {
    && r in db.files
    && (|| Recent(r.stamp, s.lastSyncAt)
        || (r.id !in s.files && forall x | x in db.files && x.id == r.id :: !Recent(x.stamp, s.lastSyncAt)))
  }

  ghost predicate RowsSince(rows: seq<Row>, since: int, out: seq<Row>) {
    forall r :: r in out <==> r in rows && Recent(r.stamp, since)
  }

  ghost predicate Gone(known: seq<BearId>, cur: set<BearId>, out: seq<BearId>) {
    forall b :: b in out <==> b in known && b !in cur
  }

  /** The request for one cycle, up to the order of its rows. */
  ghost predicate IsDelta(s: Saved, db: BearDb, d: Delta) {
    && RowsSince(db.notes, s.lastSyncAt, d.notes)
    && RowsSince(db.tags, s.lastSyncAt, d.tags)
    && (forall p :: p in d.noteTags <==> InDelta(s, RowIds(d.notes), s.noteTags, db.noteTags, p))
    && (forall p :: p in d.pinned <==> InDelta(s, RowIds(d.notes), s.pinned, db.pinned, p))
    && (forall r :: r in d.files <==> FileInDelta(s, db, r))
    && d.otherRows == db.otherRows
    && Gone(s.notes, RowIds(db.notes), d.goneNotes)
    && Gone(s.tags, RowIds(db.tags), d.goneTags)
    && Gone(s.files, FileIds(db.files), d.goneFiles)
  }

  /** isEmptyPush. */
  predicate IsEmpty(d: Delta) {
    && d.notes == [] && d.tags == [] && d.noteTags == [] && d.pinned == [] && d.files == [] && !d.otherRows
    && d.goneNotes == [] && d.goneTags == [] && d.goneFiles == []
  }

  function IdsOf(rows: seq<Row>): (r: seq<BearId>)
    ensures |r| == |rows| && forall i | 0 <= i < |rows| :: r[i] == rows[i].id
    ensures Members(r) == RowIds(rows)
  {
    var r := seq(|rows|, i requires 0 <= i < |rows| => rows[i].id);
    assert forall i | 0 <= i < |rows| :: rows[i] in rows && r[i] in r;
    r
  }

  function FileIdsOf(rows: seq<FileRow>): (r: seq<BearId>)
    ensures |r| == |rows| && forall i | 0 <= i < |rows| :: r[i] == rows[i].id
    ensures Members(r) == FileIds(rows)
  {
    var r := seq(|rows|, i requires 0 <= i < |rows| => rows[i].id);
    assert forall i | 0 <= i < |rows| :: rows[i] in rows && r[i] in r;
    r
  }

  /** The state file after a completed cycle. A cycle without changes saves the counter and a scan's pairs only. */
  function SavedAfter(s: Saved, db: BearDb, d: Delta, now: int): Saved {
    if IsEmpty(d) then
      s.(counter := s.counter + 1,
         noteTags := if Scans(s) then db.noteTags else s.noteTags, pinned := if Scans(s) then db.pinned else s.pinned)
    else
      Saved(now, IdsOf(db.notes), IdsOf(db.tags), FileIdsOf(db.files), db.noteTags, db.pinned, s.counter + 1)
  }

  // ---- The loops that build the request ----

  method NotesSince(rows: seq<Row>, since: int) returns (out: seq<Row>)
    ensures RowsSince(rows, since, out)
  {
    out := [];
    for i := 0 to |rows|
      invariant forall r :: r in out <==> r in rows[..i] && Recent(r.stamp, since)
    {
      if since <= 0 || rows[i].stamp >= since {
        out := out + [rows[i]];
      }
    }
  }

  lemma TagsOfMore(pairs: seq<Pair>, p: Pair)
    ensures forall n :: TagsOf(pairs + [p], n) == TagsOf(pairs, n) + if p.note == n then {p.tag} else {}
  {
    forall n ensures TagsOf(pairs + [p], n) == TagsOf(pairs, n) + if p.note == n then {p.tag} else {} {
      assert forall q :: q in pairs + [p] <==> q in pairs || q == p;
    }
  }

  /** The tag sets of the notes that have any. */
  method Group(pairs: seq<Pair>) returns (m: map<BearId, set<BearId>>)
    ensures forall n :: n in m <==> TagsOf(pairs, n) != {}
    ensures forall n | n in m :: m[n] == TagsOf(pairs, n)
  {
    m := map[];
    for i := 0 to |pairs|
      invariant forall n :: n in m <==> TagsOf(pairs[..i], n) != {}
      invariant forall n | n in m :: m[n] == TagsOf(pairs[..i], n)
    {
      var p := pairs[i];
      assert pairs[..i + 1] == pairs[..i] + [p];
      TagsOfMore(pairs[..i], p);
      if p.note !in m {
        m := m[p.note := {}];
      }
      m := m[p.note := m[p.note] + {p.tag}];
    }
    assert pairs[..|pairs|] == pairs;
  }

  /** Every tag of `tags` was there before. */
  method AllIn(tags: set<BearId>, before: set<BearId>) returns (yes: bool)
    ensures yes <==> tags <= before
  {
    var rest := tags;
    while rest != {}
      invariant rest <= tags && tags - rest <= before
    {
      var t :| t in rest;
      if t !in before {
        return false;
      }
      rest := rest - {t};
    }
    yes := true;
  }

  lemma SubsetOfSameSize<T>(a: set<T>, b: set<T>)
    requires a <= b && |a| == |b|
    ensures a == b
  {
    if x :| x in b && x !in a {
      SubsetSize(a, b - {x});
    }
  }

  lemma {:induction false} SubsetSize<T>(a: set<T>, b: set<T>)
    requires a <= b
    ensures |a| <= |b|
  {
    if x :| x in a {
      SubsetSize(a - {x}, b - {x});
    }
  }

  /** Exactly the notes whose tag sets differ, each once. */
  method FindChangedJunctionNotes(known: seq<Pair>, cur: seq<Pair>) returns (changed: seq<BearId>)
    ensures Distinct(changed)
    ensures forall n :: n in changed <==> ChangedNote(known, cur, n)
  {
    var before := Group(known);
    var now := Group(cur);
    var found: set<BearId> := {};
    var rest := now.Keys;
    while rest != {}
      invariant rest <= now.Keys
      invariant forall n :: n in found <==> n in now.Keys - rest && ChangedNote(known, cur, n)
    {
      var n :| n in rest;
      if n !in before || |now[n]| != |before[n]| {
        found := found + {n};
      } else {
        var same := AllIn(now[n], before[n]);
        if same {
          SubsetOfSameSize(now[n], before[n]);
        } else {
          found := found + {n};
        }
      }
      rest := rest - {n};
    }
    rest := before.Keys;
    while rest != {}
      invariant rest <= before.Keys
      invariant forall n :: n in found <==>
                  ChangedNote(known, cur, n) && (n in now || n in before.Keys - rest)
    {
      var n :| n in rest;
      if n !in now {
        found := found + {n};
      }
      rest := rest - {n};
    }
    changed := [];
    while found != {}
      invariant Distinct(changed) && (forall n | n in changed :: n !in found)
      invariant forall n :: n in changed || n in found <==> ChangedNote(known, cur, n)
    {
      var n :| n in found;
      changed := changed + [n];
      found := found - {n};
    }
  }

  /** The pairs a full scan sends for one junction table. */
  method ScanTable(known: seq<Pair>, cur: seq<Pair>) returns (out: seq<Pair>)
    ensures forall p :: p in out <==> InScan(known, cur, p)
  {
    var changed := FindChangedJunctionNotes(known, cur);
    out := [];
    for i := 0 to |changed|
      invariant forall p :: p in out <==> p.note in changed[..i] && InScan(known, cur, p)
    {
      var n := changed[i];
      var found := false;
      ghost var before := out;
      for j := 0 to |cur|
        invariant forall p :: p in out <==> p in before || (p.note == n && p in cur[..j])
        invariant found <==> exists k :: 0 <= k < j && cur[k].note == n
      {
        if cur[j].note == n {
          out := out + [cur[j]];
          found := true;
        }
      }
      assert cur[..|cur|] == cur;
      if !found {
        out := out + [Pair(n, "")];
      } else {
        assert exists k :: 0 <= k < |cur| && cur[k].note == n && cur[k].tag in TagsOf(cur, n);
      }
      assert changed[..i + 1] == changed[..i] + [n];
    }
    assert changed[..|changed|] == changed;
  }

  /** The string mergeNoteTags uses to tell pairs apart. */
  function MergeKey(p: Pair): string { p.note + "|" + p.tag }

  /** It does so as long as no note id contains a bar, and UUIDs do not. */
  lemma MergeKeyIsInjective(p: Pair, q: Pair)
    requires '|' !in p.note && '|' !in q.note && MergeKey(p) == MergeKey(q)
    ensures p == q
  {
    var a, b := MergeKey(p), MergeKey(q);
    assert a[|p.note|] == '|' && b[|q.note|] == '|';
    assert forall i | 0 <= i < |p.note| :: a[i] == p.note[i];
    assert forall i | 0 <= i < |q.note| :: b[i] == q.note[i];
    assert |p.note| == |q.note|;
    assert p.note == a[..|p.note|] && q.note == b[..|q.note|];
    assert p.tag == a[|p.note| + 1..] && q.tag == b[|q.note| + 1..];
  }

  predicate NoBars(pairs: seq<Pair>) { forall p | p in pairs :: '|' !in p.note }

  /** Appends the pairs that are not there yet. */
  method MergeNoteTags(existing: seq<Pair>, additional: seq<Pair>) returns (out: seq<Pair>)
    ensures existing <= out
    ensures forall p | p in out :: p in existing || p in additional
    ensures forall p | p in additional :: exists q :: q in out && MergeKey(q) == MergeKey(p)
    ensures NoBars(existing) && NoBars(additional) ==>
              && (forall p :: p in out <==> p in existing || p in additional)
              && (Distinct(existing) ==> Distinct(out))
  {
    if |additional| == 0 {
      return existing;
    }
    var seen: set<string> := {};
    for i := 0 to |existing|
      invariant forall k :: k in seen <==> exists j :: 0 <= j < i && k == MergeKey(existing[j])
    {
      seen := seen + {MergeKey(existing[i])};
    }
    out := existing;
    for i := 0 to |additional|
      invariant existing <= out && forall p | p in out :: p in existing || p in additional
      invariant forall k :: k in seen <==> exists j :: 0 <= j < |out| && k == MergeKey(out[j])
      invariant forall j | 0 <= j < i :: MergeKey(additional[j]) in seen
      invariant Distinct(existing) ==> Distinct(out)
    {
      var key := MergeKey(additional[i]);
      if key !in seen {
        ghost var shorter := out;
        out := out + [additional[i]];
        seen := seen + {key};
        assert (forall j | 0 <= j < |shorter| :: out[j] == shorter[j]) && out[|shorter|] == additional[i];
      }
    }
    forall p | p in additional ensures exists q :: q in out && MergeKey(q) == MergeKey(p) {
      assert MergeKey(p) in seen;
    }
    if NoBars(existing) && NoBars(additional) {
      forall p | p in additional ensures p in out {
        var q :| q in out && MergeKey(q) == MergeKey(p);
        assert q in existing || q in additional;
        MergeKeyIsInjective(p, q);
      }
    }
  }

  /** The known ids that are no longer current, in their order. */
  method DiffIds(known: seq<BearId>, cur: seq<BearId>) returns (out: seq<BearId>)
    ensures Gone(known, Members(cur), out)
    ensures Distinct(known) ==> Distinct(out)
  {
    var curSet: set<BearId> := {};
    for i := 0 to |cur|
      invariant curSet == Members(cur[..i])
    {
      curSet := curSet + {cur[i]};
      assert cur[..i + 1] == cur[..i] + [cur[i]];
    }
    assert cur[..|cur|] == cur;
    out := [];
    for i := 0 to |known|
      invariant Gone(known[..i], Members(cur), out)
      invariant Distinct(known) ==> Distinct(out)
    {
      assert known[..i + 1] == known[..i] + [known[i]];
      if known[i] !in curSet {
        out := out + [known[i]];
      }
    }
    assert known[..|known|] == known;
  }

  method TagsForNotes(cur: seq<Pair>, notes: seq<BearId>) returns (out: seq<Pair>)
    ensures forall p :: p in out <==> p in cur && p.note in notes
  {
    out := [];
    for i := 0 to |cur|
      invariant forall p :: p in out <==> p in cur[..i] && p.note in notes
    {
      if cur[i].note in notes {
        out := out + [cur[i]];
      }
    }
  }

  method RecentPairs(cur: seq<Pair>, rows: seq<Row>) returns (out: seq<Pair>)
    ensures forall p :: p in out <==> p in cur && p.note in RowIds(rows)
  {
    out := [];
    if |rows| > 0 {
      var ids := IdsOf(rows);
      assert forall b :: b in ids <==> b in Members(ids);
      out := TagsForNotes(cur, ids);
    }
  }

  method FilesSince(files: seq<FileRow>, since: int) returns (out: seq<FileRow>)
    ensures forall r :: r in out <==> r in files && Recent(r.stamp, since)
  {
    out := [];
    for i := 0 to |files|
      invariant forall r :: r in out <==> r in files[..i] && Recent(r.stamp, since)
    {
      if since <= 0 || files[i].stamp >= since {
        out := out + [files[i]];
      }
    }
  }

  method FilesByIds(files: seq<FileRow>, ids: seq<BearId>) returns (out: seq<FileRow>)
    ensures forall r :: r in out <==> r in files && r.id in ids
  {
    out := [];
    for i := 0 to |files|
      invariant forall r :: r in out <==> r in files[..i] && r.id in ids
    {
      if files[i].id in ids {
        out := out + [files[i]];
      }
    }
  }

  /** The attachments the timestamp query missed: in Bear, not known, not read already. */
  method ReadNewFiles(known: seq<BearId>, read: seq<FileRow>, files: seq<FileRow>)
    returns (rows: seq<FileRow>, cur: seq<BearId>)
    ensures cur == FileIdsOf(files)
    ensures forall r :: r in rows <==> r in files && r.id !in known && r.id !in FileIds(read)
  {
    cur := FileIdsOf(files);
    var missing: seq<BearId> := [];
    for i := 0 to |cur|
      invariant forall b :: b in missing <==> b in cur[..i] && b !in known && b !in FileIds(read)
    {
      if cur[i] !in known && cur[i] !in FileIds(read) {
        missing := missing + [cur[i]];
      }
    }
    if |missing| == 0 {
      rows := [];
    } else {
      rows := FilesByIds(files, missing);
    }
    assert forall r | r in files :: r.id in FileIds(files) && r.id in Members(cur);
  }

  // ---- The state of one cycle ----

  /** Bear's note ids are UUIDs, now and in the state file. */
  predicate Uuids(s: Saved, db: BearDb) {
    NoBars(s.noteTags) && NoBars(s.pinned) && NoBars(db.noteTags) && NoBars(db.pinned)
  }

  function Scanned(s: Saved, db: BearDb): Saved {
    if Scans(s) then s.(noteTags := db.noteTags, pinned := db.pinned) else s
  }

  lemma ScannedNotesHaveNoBars(known: seq<Pair>, cur: seq<Pair>)
    requires NoBars(known) && NoBars(cur)
    ensures forall p | InScan(known, cur, p) :: '|' !in p.note
  {
    forall p | InScan(known, cur, p) ensures '|' !in p.note {
      var t :| t in TagsOf(known, p.note) + TagsOf(cur, p.note);
      assert Pair(p.note, t) in known || Pair(p.note, t) in cur;
    }
  }

  /** The state file as loaded for one cycle; a failed cycle never writes it back. */
  class BridgeState {
    var lastSyncAt: int
    var notes: seq<BearId>
    var tags: seq<BearId>
    var files: seq<BearId>
    var noteTags: seq<Pair>
    var pinned: seq<Pair>
    var counter: nat

    function Snapshot(): Saved reads this { Saved(lastSyncAt, notes, tags, files, noteTags, pinned, counter) }

    constructor (s: Saved)
      ensures Snapshot() == s
    {
      lastSyncAt, notes, tags, files := s.lastSyncAt, s.notes, s.tags, s.files;
      noteTags, pinned, counter := s.noteTags, s.pinned, s.counter;
    }

    method JunctionFullScan(db: BearDb) returns (tagPairs: seq<Pair>, pinnedPairs: seq<Pair>)
      modifies this`noteTags, this`pinned
      ensures forall p :: p in tagPairs <==> InScan(old(noteTags), db.noteTags, p)
      ensures forall p :: p in pinnedPairs <==> InScan(old(pinned), db.pinned, p)
      ensures noteTags == db.noteTags && pinned == db.pinned
    {
      tagPairs := ScanTable(noteTags, db.noteTags);
      pinnedPairs := ScanTable(pinned, db.pinned);
      noteTags, pinned := db.noteTags, db.pinned;
    }

    /** The pairs of both junction tables for the push. */
    method JunctionPairs(db: BearDb, rows: seq<Row>) returns (tagPairs: seq<Pair>, pinnedPairs: seq<Pair>)
      requires Uuids(Snapshot(), db)
      modifies this`noteTags, this`pinned
      ensures forall p :: p in tagPairs <==> InDelta(old(Snapshot()), RowIds(rows), old(noteTags), db.noteTags, p)
      ensures forall p :: p in pinnedPairs <==> InDelta(old(Snapshot()), RowIds(rows), old(pinned), db.pinned, p)
      ensures Snapshot() == Scanned(old(Snapshot()), db)
    {
      tagPairs := RecentPairs(db.noteTags, rows);
      pinnedPairs := RecentPairs(db.pinned, rows);
      if counter > 0 && counter % FULL_SCAN_INTERVAL == 0 {
        ScannedNotesHaveNoBars(noteTags, db.noteTags);
        ScannedNotesHaveNoBars(pinned, db.pinned);
        var scanTags, scanPinned := JunctionFullScan(db);
        tagPairs := MergeNoteTags(tagPairs, scanTags);
        pinnedPairs := MergeNoteTags(pinnedPairs, scanPinned);
      }
    }

    method AttachmentRows(db: BearDb) returns (rows: seq<FileRow>, cur: seq<BearId>)
      ensures forall r :: r in rows <==> FileInDelta(Snapshot(), db, r)
      ensures cur == FileIdsOf(db.files)
    {
      var recent := FilesSince(db.files, lastSyncAt);
      var missed: seq<FileRow>;
      missed, cur := ReadNewFiles(files, recent, db.files);
      rows := recent + missed;
      assert forall r :: r in rows <==> r in recent || r in missed;
      forall r | r in db.files
        ensures r.id in FileIds(recent) <==> exists x :: x in db.files && x.id == r.id && Recent(x.stamp, lastSyncAt)
      {
        if x :| x in db.files && x.id == r.id && Recent(x.stamp, lastSyncAt) { assert x in recent; }
      }
    }

    method BuildDeltaPush(db: BearDb) returns (d: Delta)
      requires Uuids(Snapshot(), db)
      modifies this`noteTags, this`pinned
      ensures IsDelta(old(Snapshot()), db, d)
      ensures Snapshot() == Scanned(old(Snapshot()), db)
    {
      var noteRows := NotesSince(db.notes, lastSyncAt);
      var tagRows := NotesSince(db.tags, lastSyncAt);
      var fileRows, curFiles := AttachmentRows(db);
      var tagPairs, pinnedPairs := JunctionPairs(db, noteRows);
      var goneNotes := DiffIds(notes, IdsOf(db.notes));
      var goneTags := DiffIds(tags, IdsOf(db.tags));
      var goneFiles := DiffIds(files, curFiles);
      d := Delta(noteRows, tagRows, tagPairs, pinnedPairs, fileRows, db.otherRows, goneNotes, goneTags, goneFiles);
    }

    method UpdateKnownIds(db: BearDb)
      modifies this`notes, this`tags, this`files, this`noteTags, this`pinned
      ensures notes == IdsOf(db.notes) && tags == IdsOf(db.tags) && files == FileIdsOf(db.files)
      ensures noteTags == db.noteTags && pinned == db.pinned
    {
      notes, tags, files := IdsOf(db.notes), IdsOf(db.tags), FileIdsOf(db.files);
      noteTags, pinned := db.noteTags, db.pinned;
    }
  }

  class Bridge {
    const hub: Mirror
    var file: Saved

    constructor (hub: Mirror, file: Saved)
      ensures this.hub == hub && this.file == file
    {
      this.hub, this.file := hub, file;
    }

    /** deltaSync: build the push, send it unless it is empty, and only then save the state. */
    method DeltaSync(db: BearDb, now: int) returns (ok: bool, d: Delta)
      requires Uuids(file, db)
      modifies this`file, hub
      ensures IsDelta(old(file), db, d)
      ensures ok <==> IsEmpty(d) || Pushed(old(hub.State()), d).Ok?
      ensures file == if ok then SavedAfter(old(file), db, d, now) else old(file)
      ensures hub.State() == if ok && !IsEmpty(d) then Pushed(old(hub.State()), d).value else old(hub.State())
      ensures forall r | r in db.notes && old(file).lastSyncAt <= r.stamp :: r in d.notes
      ensures forall r | r in db.tags && old(file).lastSyncAt <= r.stamp :: r in d.tags
      ensures forall r | r in db.files && old(file).lastSyncAt <= r.stamp :: r in d.files
    {
      var state := new BridgeState(file);
      d := state.BuildDeltaPush(db);
      if IsEmpty(d) {
        state.counter := state.counter + 1;
        file := state.Snapshot();
        return true, d;
      }
      ok := hub.ProcessSyncPush(d);
      if !ok {
        return;
      }
      state.lastSyncAt := now;
      state.counter := state.counter + 1;
      state.UpdateKnownIds(db);
      file := state.Snapshot();
    }
  }
}
