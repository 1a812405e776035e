/** When the hub's tags and attachments agree with Bear's after a delta cycle, and over many cycles. */
module TagAgreement {
  import opened Model
  import opened TagTables
  import opened DeltaSync

  // ---- One junction table ----

  predicate Resolvable(notes: Ids, tags: Ids, pairs: set<Pair>) {
    forall p | p in pairs :: p.tag != "" && p.note in notes && p.tag in tags
  }

  /** The junction table holds exactly these pairs. */
  predicate Shows(table: set<Link>, notes: Ids, tags: Ids, pairs: set<Pair>) {
    Resolvable(notes, tags, pairs) && table == Links(notes, tags, pairs)
  }

  /** Id maps that agree on the pairs give the same links. */
  lemma LinksDependOn(notes: Ids, tags: Ids, notes2: Ids, tags2: Ids, pairs: set<Pair>)
    requires Resolvable(notes, tags, pairs) && Resolvable(notes2, tags2, pairs)
    requires forall p | p in pairs :: notes[p.note] == notes2[p.note] && tags[p.tag] == tags2[p.tag]
    ensures Links(notes, tags, pairs) == Links(notes2, tags2, pairs)
  {
    forall p | p in pairs ensures (notes[p.note], tags[p.tag]) == (notes2[p.note], tags2[p.tag]) {}
  }

  lemma PairLinked(notes: Ids, tags: Ids, pairs: set<Pair>, p: Pair)
    requires Injective(notes) && Injective(tags) && p.tag != "" && p.note in notes && p.tag in tags
    ensures (notes[p.note], tags[p.tag]) in Links(notes, tags, pairs) <==> p in pairs
  {
    var l := (notes[p.note], tags[p.tag]);
    if l in Links(notes, tags, pairs) {
      var q :| q in pairs && q.tag != "" && q.note in notes && q.tag in tags && (notes[q.note], tags[q.tag]) == l;
      assert q.note == p.note && q.tag == p.tag;
    }
  }

  lemma LinksDeterminePairs(notes: Ids, tags: Ids, a: set<Pair>, b: set<Pair>)
    requires Injective(notes) && Injective(tags) && Resolvable(notes, tags, a + b)
    ensures Links(notes, tags, a) == Links(notes, tags, b) <==> a == b
  {
    if Links(notes, tags, a) == Links(notes, tags, b) {
      forall p | p in a + b ensures p in a <==> p in b {
        PairLinked(notes, tags, a, p);
        PairLinked(notes, tags, b, p);
      }
    }
  }

  /** What a push leaves: current pairs of the mentioned notes, known ones elsewhere, minus deleted notes and tags. */
  function PairsAfter(known: set<Pair>, cur: set<Pair>, at: set<BearId>, goneNotes: set<BearId>, goneTags: set<BearId>)
    : set<Pair>
  {
    (set p | p in cur && p.note in at) +
    (set p | p in known && p.note !in at && p.note !in goneNotes && p.tag !in goneTags)
  }

  /** The push names all current pairs of every note it mentions, and no others. */
  predicate Complete(pairs: set<Pair>, cur: set<Pair>, at: set<BearId>) {
    && (forall p | p in pairs && p.tag != "" :: p in cur)
    && (forall p | p in cur && p.note in at :: p in pairs)
    && (forall p | p in pairs :: p.note in at)
  }

  lemma InHubIds(ids: Ids, at: set<BearId>, b: BearId)
    requires Injective(ids) && b in ids
    ensures ids[b] in HubIds(ids, at) <==> b in at
  {
  }

  lemma TablePush(
    table: set<Link>, notes: Ids, tags: Ids, rows: seq<Row>, pairs: seq<Pair>, known: set<Pair>, cur: set<Pair>,
    goneNotes: set<BearId>, goneTags: set<BearId>)
    requires Injective(notes) && Injective(tags)
    requires Shows(table, notes, tags, known) && Resolvable(notes, tags, cur)
    requires Complete(Members(pairs), cur, Mentioned(rows, pairs))
    requires forall p | p in cur :: p.note !in goneNotes && p.tag !in goneTags
    ensures (set l | l in Replaced(table, notes, tags, rows, pairs)
                     && l.0 !in HubIds(notes, goneNotes) && l.1 !in HubIds(tags, goneTags))
            == Links(notes, tags, PairsAfter(known, cur, Mentioned(rows, pairs), goneNotes, goneTags))
  {
    var at := Mentioned(rows, pairs);
    var kept := set l | l in Replaced(table, notes, tags, rows, pairs)
                        && l.0 !in HubIds(notes, goneNotes) && l.1 !in HubIds(tags, goneTags);
    var goal := Links(notes, tags, PairsAfter(known, cur, at, goneNotes, goneTags));
    forall p: Pair | p.tag != "" && p.note in notes && p.tag in tags
      ensures (notes[p.note], tags[p.tag]) in kept <==> p in PairsAfter(known, cur, at, goneNotes, goneTags)
    {
      InHubIds(notes, at, p.note);
      InHubIds(notes, goneNotes, p.note);
      InHubIds(tags, goneTags, p.tag);
      PairLinked(notes, tags, known, p);
      PairLinked(notes, tags, Members(pairs), p);
    }
    forall l | l in kept ensures l in goal {
      assert l in Links(notes, tags, known) || l in Links(notes, tags, Members(pairs));
    }
    forall l | l in goal ensures l in kept {}
  }

  // ---- One cycle ----

  /** The hub's tables and the bridge's state file. */
  datatype World = World(hub: Tables, saved: Saved)

  /** One completed delta cycle: what Bear held, what was pushed, and the clock. */
  datatype Cycle = Cycle(db: BearDb, d: Delta, now: int)

  ghost predicate Completes(w: World, c: Cycle) {
    IsDelta(w.saved, c.db, c.d) && (IsEmpty(c.d) || Pushed(w.hub, c.d).Ok?)
  }

  ghost function After(w: World, c: Cycle): World
    requires Completes(w, c)
  {
    World(if IsEmpty(c.d) then w.hub else Pushed(w.hub, c.d).value, SavedAfter(w.saved, c.db, c.d, c.now))
  }

  /** Bear's junction rows join notes and tags that exist. */
  predicate Joined(db: BearDb, pairs: seq<Pair>) {
    forall p | p in pairs :: p.tag != "" && p.note in RowIds(db.notes) && p.tag in RowIds(db.tags)
  }

  /** The drawn hub ids are new and differ. */
  predicate NewDraws(ids: Ids, rows: seq<Row>) {
    && (forall i | 0 <= i < |rows| :: rows[i].drawn !in ids.Values)
    && (forall i, j | 0 <= i < j < |rows| :: rows[i].drawn != rows[j].drawn)
  }

  /** A completed cycle over a consistent Bear database whose junction ids all resolve on the hub. */
  ghost predicate Fits(w: World, c: Cycle) {
    && Completes(w, c) && Joined(c.db, c.db.noteTags) && Joined(c.db, c.db.pinned)
    && NewDraws(w.hub.notes, c.d.notes) && NewDraws(w.hub.tags, c.d.tags)
    && Resolvable(Upserted(w.hub.notes, c.d.notes), Upserted(w.hub.tags, c.d.tags),
                  Members(c.db.noteTags) + Members(c.db.pinned))
  }

  /** Both junction tables hold what the state file says Bear held. */
  predicate InStep(w: World) {
    && Injective(w.hub.notes) && Injective(w.hub.tags)
    && Shows(w.hub.noteTags, w.hub.notes, w.hub.tags, Members(w.saved.noteTags))
    && Shows(w.hub.pinned, w.hub.notes, w.hub.tags, Members(w.saved.pinned))
  }

  lemma {:induction false} UpsertIsInjective(ids: Ids, rows: seq<Row>)
    requires Injective(ids) && NewDraws(ids, rows)
    ensures Injective(Upserted(ids, rows))
    decreases |rows|
  {
    if rows != [] {
      var ids2 := if rows[0].id in ids then ids else ids[rows[0].id := rows[0].drawn];
      assert forall b | b in ids2 :: b in ids || ids2[b] == rows[0].drawn;
      UpsertIsInjective(ids2, rows[1..]);
    }
  }

  /** The pairs a push sends for one junction table are complete for the notes they mention. */
  lemma DeltaIsComplete(s: Saved, rows: seq<Row>, known: seq<Pair>, cur: seq<Pair>, pairs: seq<Pair>)
    requires forall p | p in cur :: p.tag != ""
    requires forall p :: p in pairs <==> InDelta(s, RowIds(rows), known, cur, p)
    ensures Complete(Members(pairs), Members(cur), Mentioned(rows, pairs))
  {
    forall p | p in cur && p.note in Mentioned(rows, pairs) ensures p in pairs {
      if p.note !in RowIds(rows) {
        var q :| q in pairs && q.note == p.note;
        assert InScan(known, cur, q);
      }
    }
  }

  lemma CurrentIsNotGone(s: Saved, db: BearDb, d: Delta, cur: seq<Pair>)
    requires IsDelta(s, db, d) && Joined(db, cur)
    ensures forall p | p in cur :: p.note !in d.goneNotes && p.tag !in d.goneTags
  {
  }

  /** The push brings about PairsAfter in either junction table. */
  lemma TableCycle(
    w: World, c: Cycle, table: set<Link>, known: seq<Pair>, cur: seq<Pair>, pairs: seq<Pair>)
    requires Injective(w.hub.notes) && Injective(w.hub.tags)
    requires IsDelta(w.saved, c.db, c.d) && NewDraws(w.hub.notes, c.d.notes) && NewDraws(w.hub.tags, c.d.tags)
    requires Shows(table, w.hub.notes, w.hub.tags, Members(known)) && Joined(c.db, cur)
    requires Resolvable(Upserted(w.hub.notes, c.d.notes), Upserted(w.hub.tags, c.d.tags), Members(cur))
    requires forall p :: p in pairs <==> InDelta(w.saved, RowIds(c.d.notes), known, cur, p)
    ensures var notes, tags := Upserted(w.hub.notes, c.d.notes), Upserted(w.hub.tags, c.d.tags);
            var goneNotes, goneTags := Members(c.d.goneNotes), Members(c.d.goneTags);
            var after := PairsAfter(Members(known), Members(cur), Mentioned(c.d.notes, pairs), goneNotes, goneTags);
            && Injective(notes) && Injective(tags)
            && Resolvable(notes - goneNotes, tags - goneTags, after + Members(cur))
            && (set l | l in Replaced(table, notes, tags, c.d.notes, pairs)
                        && l.0 !in HubIds(notes, goneNotes) && l.1 !in HubIds(tags, goneTags))
               == Links(notes - goneNotes, tags - goneTags, after)
  {
    var notes, tags := Upserted(w.hub.notes, c.d.notes), Upserted(w.hub.tags, c.d.tags);
    var goneNotes, goneTags := Members(c.d.goneNotes), Members(c.d.goneTags);
    var after := PairsAfter(Members(known), Members(cur), Mentioned(c.d.notes, pairs), goneNotes, goneTags);
    UpsertIsInjective(w.hub.notes, c.d.notes);
    UpsertIsInjective(w.hub.tags, c.d.tags);
    LinksDependOn(w.hub.notes, w.hub.tags, notes, tags, Members(known));
    DeltaIsComplete(w.saved, c.d.notes, known, cur, pairs);
    CurrentIsNotGone(w.saved, c.db, c.d, cur);
    TablePush(table, notes, tags, c.d.notes, pairs, Members(known), Members(cur), goneNotes, goneTags);
    LinksDependOn(notes, tags, notes - goneNotes, tags - goneTags, after);
  }

  /** The push left this pair's link out of date. */
  predicate Missed(d: Delta, pairs: seq<Pair>, known: seq<Pair>, cur: seq<Pair>, p: Pair) {
    && p.note !in Mentioned(d.notes, pairs)
    && (p in cur) != (p in known && p.note !in d.goneNotes && p.tag !in d.goneTags)
  }

  lemma MissedIff(d: Delta, pairs: seq<Pair>, known: seq<Pair>, cur: seq<Pair>)
    ensures (forall p | p in known + cur :: !Missed(d, pairs, known, cur, p)) <==>
            PairsAfter(Members(known), Members(cur), Mentioned(d.notes, pairs), Members(d.goneNotes),
                Members(d.goneTags))
            == Members(cur)
  {
    var after := PairsAfter(Members(known), Members(cur), Mentioned(d.notes, pairs), Members(d.goneNotes),
        Members(d.goneTags));
    forall p ensures Missed(d, pairs, known, cur, p) <==> (p in after) != (p in Members(cur)) {
    }
    if forall p | p in known + cur :: !Missed(d, pairs, known, cur, p) {
      forall p ensures p in after <==> p in Members(cur) {
        assert p in known + cur <==> p in known || p in cur;
      }
    }
  }

  /** Nothing in either junction table is out of date after the push. */
  predicate NothingMissed(w: World, c: Cycle) {
    && (forall p | p in w.saved.noteTags + c.db.noteTags ::
        !Missed(c.d, c.d.noteTags, w.saved.noteTags, c.db.noteTags, p))
    && (forall p | p in w.saved.pinned + c.db.pinned :: !Missed(c.d, c.d.pinned, w.saved.pinned, c.db.pinned, p))
  }

  predicate ShowsBear(w: World, db: BearDb) {
    && Shows(w.hub.noteTags, w.hub.notes, w.hub.tags, Members(db.noteTags))
    && Shows(w.hub.pinned, w.hub.notes, w.hub.tags, Members(db.pinned))
  }

  /** After a push, the hub shows Bear's tags exactly when the push missed nothing. */
  lemma TagsAgreeIff(w: World, c: Cycle)
    requires InStep(w) && Fits(w, c) && !IsEmpty(c.d)
    ensures Injective(After(w, c).hub.notes) && Injective(After(w, c).hub.tags)
    ensures ShowsBear(After(w, c), c.db) <==> NothingMissed(w, c)
  {
    var d, s, t2 := c.d, w.saved, After(w, c).hub;
    TableCycle(w, c, w.hub.noteTags, s.noteTags, c.db.noteTags, d.noteTags);
    TableCycle(w, c, w.hub.pinned, s.pinned, c.db.pinned, d.pinned);
    OneTableAgrees(t2.noteTags, t2.notes, t2.tags, d, d.noteTags, s.noteTags, c.db.noteTags);
    OneTableAgrees(t2.pinned, t2.notes, t2.tags, d, d.pinned, s.pinned, c.db.pinned);
  }

  lemma OneTableAgrees(
    table: set<Link>, notes: Ids, tags: Ids, d: Delta, pairs: seq<Pair>, known: seq<Pair>, cur: seq<Pair>)
    requires Injective(notes) && Injective(tags)
    requires var after := PairsAfter(Members(known), Members(cur), Mentioned(d.notes, pairs), Members(d.goneNotes),
        Members(d.goneTags));
             Resolvable(notes, tags, after + Members(cur)) && table == Links(notes, tags, after)
    ensures Shows(table, notes, tags, Members(cur)) <==> forall p | p in known + cur :: !Missed(d, pairs, known, cur, p)
  {
    var after := PairsAfter(Members(known), Members(cur), Mentioned(d.notes, pairs), Members(d.goneNotes),
        Members(d.goneTags));
    LinksDeterminePairs(notes, tags, after, Members(cur));
    MissedIff(d, pairs, known, cur);
  }

  /** A full scan misses nothing. */
  lemma ScanMissesNothing(w: World, c: Cycle)
    requires IsDelta(w.saved, c.db, c.d) && Joined(c.db, c.db.noteTags) && Joined(c.db, c.db.pinned) && Scans(w.saved)
    ensures NothingMissed(w, c)
  {
    OneScan(w.saved, c.db, c.d, w.saved.noteTags, c.db.noteTags, c.d.noteTags);
    OneScan(w.saved, c.db, c.d, w.saved.pinned, c.db.pinned, c.d.pinned);
  }

  lemma OneScan(s: Saved, db: BearDb, d: Delta, known: seq<Pair>, cur: seq<Pair>, pairs: seq<Pair>)
    requires IsDelta(s, db, d) && Joined(db, cur) && Scans(s)
    requires forall p :: p in pairs <==> InDelta(s, RowIds(d.notes), known, cur, p)
    ensures forall p | p in known + cur :: !Missed(d, pairs, known, cur, p)
  {
    forall p | p in known + cur && p.note !in Mentioned(d.notes, pairs)
      ensures p in cur <==> p in known && p.note !in d.goneNotes && p.tag !in d.goneTags
    {
      ChangedIsMentioned(s, d.notes, known, cur, pairs, p.note);
      assert p.tag in TagsOf(known, p.note) <==> p in known;
      assert p.tag in TagsOf(cur, p.note) <==> p in cur;
    }
  }

  lemma ChangedIsMentioned(s: Saved, rows: seq<Row>, known: seq<Pair>, cur: seq<Pair>, pairs: seq<Pair>, n: BearId)
    requires Scans(s) && forall p :: p in pairs <==> InDelta(s, RowIds(rows), known, cur, p)
    ensures ChangedNote(known, cur, n) ==> n in Mentioned(rows, pairs)
  {
    if ChangedNote(known, cur, n) {
      if t :| t in TagsOf(cur, n) {
        assert Pair(n, t) in pairs;
      } else {
        assert InScan(known, cur, Pair(n, "")) && Pair(n, "") in pairs;
      }
    }
  }

  /** So one full-scan cycle makes the hub's tags equal to Bear's, whether or not there was anything to push. */
  lemma FullScanRestoresTags(w: World, c: Cycle)
    requires InStep(w) && Fits(w, c) && Scans(w.saved)
    ensures ShowsBear(After(w, c), c.db)
    ensures InStep(After(w, c))
  {
    ScanMissesNothing(w, c);
    if IsEmpty(c.d) {
      forall p | p in w.saved.noteTags + c.db.noteTags ensures p in w.saved.noteTags <==> p in c.db.noteTags {
        assert !Missed(c.d, c.d.noteTags, w.saved.noteTags, c.db.noteTags, p);
      }
      forall p | p in w.saved.pinned + c.db.pinned ensures p in w.saved.pinned <==> p in c.db.pinned {
        assert !Missed(c.d, c.d.pinned, w.saved.pinned, c.db.pinned, p);
      }
      assert Members(w.saved.noteTags) == Members(c.db.noteTags) && Members(w.saved.pinned) == Members(c.db.pinned);
    } else {
      TagsAgreeIff(w, c);
    }
  }

  /** A cycle keeps the hub in step with the state file exactly when it pushes nothing or misses nothing. */
  lemma StaysInStepIff(w: World, c: Cycle)
    requires InStep(w) && Fits(w, c)
    ensures InStep(After(w, c)) <==> IsEmpty(c.d) || NothingMissed(w, c)
  {
    if IsEmpty(c.d) {
      if Scans(w.saved) { FullScanRestoresTags(w, c); }
    } else {
      TagsAgreeIff(w, c);
    }
  }

  // ---- Many cycles ----

  ghost predicate AllComplete(w: World, cs: seq<Cycle>)
    decreases |cs|
  {
    cs == [] || (Completes(w, cs[0]) && AllComplete(After(w, cs[0]), cs[1..]))
  }

  ghost function AfterAll(w: World, cs: seq<Cycle>): World
    requires AllComplete(w, cs)
    decreases |cs|
  {
    if cs == [] then w else AfterAll(After(w, cs[0]), cs[1..])
  }

  /** Every cycle fits, and none but full scans and empty ones may miss anything. */
  ghost predicate Careful(w: World, cs: seq<Cycle>)
    requires AllComplete(w, cs)
    decreases |cs|
  {
    cs == [] ||
    (Fits(w, cs[0]) && (Scans(w.saved) || IsEmpty(cs[0].d) || NothingMissed(w, cs[0]))
        && Careful(After(w, cs[0]), cs[1..]))
  }

  lemma {:induction false} CarefulRunsStayInStep(w: World, cs: seq<Cycle>)
    requires InStep(w) && AllComplete(w, cs) && Careful(w, cs)
    ensures InStep(AfterAll(w, cs))
    decreases |cs|
  {
    if cs != [] {
      StaysInStepIff(w, cs[0]);
      if Scans(w.saved) { ScanMissesNothing(w, cs[0]); }
      CarefulRunsStayInStep(After(w, cs[0]), cs[1..]);
    }
  }

  /** The scan comes round: after any run of completed cycles the counter has advanced by their number. */
  lemma {:induction false} CounterCounts(w: World, cs: seq<Cycle>)
    requires AllComplete(w, cs)
    ensures AfterAll(w, cs).saved.counter == w.saved.counter + |cs|
    decreases |cs|
  {
    if cs != [] { CounterCounts(After(w, cs[0]), cs[1..]); }
  }

  lemma {:induction false} PrefixCompletes(w: World, cs: seq<Cycle>, k: nat)
    requires AllComplete(w, cs) && k < |cs|
    ensures AllComplete(w, cs[..k]) && Completes(AfterAll(w, cs[..k]), cs[k])
    ensures AllComplete(w, cs[..k + 1]) && AfterAll(w, cs[..k + 1]) == After(AfterAll(w, cs[..k]), cs[k])
    decreases k
  {
    assert cs[..k + 1][0] == cs[0] && cs[..k + 1][1..] == cs[1..][..k];
    if k == 0 {
      assert cs[..1][1..] == [];
    } else {
      assert cs[..k][0] == cs[0] && cs[..k][1..] == cs[1..][..k - 1];
      PrefixCompletes(After(w, cs[0]), cs[1..], k - 1);
    }
  }

  lemma {:induction false} CarefulPrefix(w: World, cs: seq<Cycle>, k: nat)
    requires AllComplete(w, cs) && Careful(w, cs) && k < |cs|
    ensures AllComplete(w, cs[..k]) && Careful(w, cs[..k]) && Fits(AfterAll(w, cs[..k]), cs[k])
    decreases k
  {
    if k > 0 {
      assert cs[..k][0] == cs[0] && cs[..k][1..] == cs[1..][..k - 1];
      CarefulPrefix(After(w, cs[0]), cs[1..], k - 1);
    }
  }

  lemma ScanAt(w: World, cs: seq<Cycle>, k: nat)
    requires InStep(w) && AllComplete(w, cs) && Careful(w, cs) && k < |cs|
    requires w.saved.counter + k > 0 && (w.saved.counter + k) % FULL_SCAN_INTERVAL == 0
    ensures AllComplete(w, cs[..k + 1]) && ShowsBear(AfterAll(w, cs[..k + 1]), cs[k].db)
  {
    PrefixCompletes(w, cs, k);
    CarefulPrefix(w, cs, k);
    CarefulRunsStayInStep(w, cs[..k]);
    CounterCounts(w, cs[..k]);
    FullScanRestoresTags(AfterAll(w, cs[..k]), cs[k]);
  }

  lemma NextScan(counter: nat) returns (k: nat)
    requires counter > 0
    ensures k < 12 && (counter + k) % FULL_SCAN_INTERVAL == 0
  {
    k := 12 * ((counter + 11) / 12) - counter;
  }

  /** Among any twelve completed cycles but the first, there is one after which the hub's tags are Bear's. */
  lemma ScanRecurs(w: World, cs: seq<Cycle>) returns (k: nat)
    requires InStep(w) && AllComplete(w, cs) && Careful(w, cs) && |cs| == 12 && w.saved.counter > 0
    ensures k < 12 && AllComplete(w, cs[..k + 1]) && ShowsBear(AfterAll(w, cs[..k + 1]), cs[k].db)
  {
    k := NextScan(w.saved.counter);
    ScanAt(w, cs, k);
  }

  /** The first twelve scan nothing. */
  lemma FirstTwelveDoNotScan(w: World, cs: seq<Cycle>)
    requires w.saved.counter == 0 && AllComplete(w, cs) && |cs| < 12
    ensures !Scans(AfterAll(w, cs).saved)
  {
    CounterCounts(w, cs);
  }

  // ---- What a missed change costs ----

  /** The hub links this note and this tag. */
  predicate Has(t: Tables, p: Pair) {
    p.note in t.notes && p.tag in t.tags && (t.notes[p.note], t.tags[p.tag]) in t.noteTags
  }

  /** Bear neither modifies nor retags the note, and deletes neither end of the pair. */
  predicate Quiet(w: World, c: Cycle, p: Pair) {
    && p.note !in RowIds(c.d.notes) && TagsOf(w.saved.noteTags, p.note) == TagsOf(c.db.noteTags, p.note)
    && p.note !in c.d.goneNotes && p.tag !in c.d.goneTags
  }

  predicate Settled(w: World, p: Pair) {
    Injective(w.hub.notes) && Injective(w.hub.tags) && p.note in w.hub.notes && p.tag in w.hub.tags
  }

  /** Then the cycle leaves the link as it is, right or wrong, even if it is a full scan. */
  lemma QuietStep(w: World, c: Cycle, p: Pair)
    requires Completes(w, c) && Settled(w, p) && Quiet(w, c, p)
    requires NewDraws(w.hub.notes, c.d.notes) && NewDraws(w.hub.tags, c.d.tags)
    ensures Settled(After(w, c), p) && (Has(After(w, c).hub, p) <==> Has(w.hub, p))
    ensures TagsOf(After(w, c).saved.noteTags, p.note) == TagsOf(w.saved.noteTags, p.note)
  {
    if !IsEmpty(c.d) {
      var notes, tags := Upserted(w.hub.notes, c.d.notes), Upserted(w.hub.tags, c.d.tags);
      UpsertIsInjective(w.hub.notes, c.d.notes);
      UpsertIsInjective(w.hub.tags, c.d.tags);
      assert p.note !in Mentioned(c.d.notes, c.d.noteTags);
      InHubIds(notes, Mentioned(c.d.notes, c.d.noteTags), p.note);
      InHubIds(notes, Members(c.d.goneNotes), p.note);
      InHubIds(tags, Members(c.d.goneTags), p.tag);
      QuietInsert(notes, tags, Members(c.d.noteTags), p);
    }
  }

  lemma QuietInsert(notes: Ids, tags: Ids, pairs: set<Pair>, p: Pair)
    requires Injective(notes) && p.note in notes && p.tag in tags && forall q | q in pairs :: q.note != p.note
    ensures (notes[p.note], tags[p.tag]) !in Links(notes, tags, pairs)
  {
  }

  ghost predicate AllQuiet(w: World, cs: seq<Cycle>, p: Pair)
    requires AllComplete(w, cs)
    decreases |cs|
  {
    cs == [] ||
    (&& Quiet(w, cs[0], p) && NewDraws(w.hub.notes, cs[0].d.notes) && NewDraws(w.hub.tags, cs[0].d.tags)
     && AllQuiet(After(w, cs[0]), cs[1..], p))
  }

  /** However many cycles and full scans follow, the hub's idea of the link never changes until Bear's note does. */
  lemma {:induction false} StaleLinksStay(w: World, cs: seq<Cycle>, p: Pair)
    requires AllComplete(w, cs) && Settled(w, p) && AllQuiet(w, cs, p)
    ensures Has(AfterAll(w, cs).hub, p) <==> Has(w.hub, p)
    decreases |cs|
  {
    if cs != [] {
      QuietStep(w, cs[0], p);
      StaleLinksStay(After(w, cs[0]), cs[1..], p);
    }
  }

  // ---- A concrete missed change ----

  /** A note and a tag, in step, one cycle after a scan was due. */
  const TAGGED: World := World(
    Tables(map["n" := "N"], map["a" := "A"], {}, {}, map[]), Saved(10, ["n"], ["a"], [], [], [], 1))

  /** Bear tags the note without touching its stamp, and a backlink changes in the same cycle. */
  const TAGGING: Cycle := Cycle(
    BearDb([Row("n", 5, "")], [Row("a", 5, "")], [], [Pair("n", "a")], [], true),
    Delta([], [], [], [], [], true, [], [], []), 20)

  lemma TaggingFits()
    ensures InStep(TAGGED) && Fits(TAGGED, TAGGING) && !NothingMissed(TAGGED, TAGGING)
  {
    var w, c := TAGGED, TAGGING;
    assert c.db.notes[0] == Row("n", 5, "") && c.db.tags[0] == Row("a", 5, "");
    assert RowIds(c.db.notes) == {"n"} && RowIds(c.db.tags) == {"a"};
    assert Pair("n", "a") in w.saved.noteTags + c.db.noteTags;
    assert Missed(c.d, c.d.noteTags, w.saved.noteTags, c.db.noteTags, Pair("n", "a"));
  }

  /** The tag is lost to the hub: no later cycle brings it back, scan or not, while the note stays as it is in Bear. */
  lemma MissedTagIsNeverRepaired(cs: seq<Cycle>)
    requires Completes(TAGGED, TAGGING) && AllComplete(After(TAGGED, TAGGING), cs)
    requires AllQuiet(After(TAGGED, TAGGING), cs, Pair("n", "a"))
    ensures Pair("n", "a") in After(TAGGED, TAGGING).saved.noteTags
    ensures !Has(AfterAll(After(TAGGED, TAGGING), cs).hub, Pair("n", "a"))
  {
    TaggingFits();
    StaleLinksStay(After(TAGGED, TAGGING), cs, Pair("n", "a"));
  }
}
