/** Reaching a concrete state from the empty hub, step by step. */
module Runs {
  import opened Model
  import opened Store
  import opened Handlers
  import opened Protocol
  import opened BearBridge
  import Fairness

  /** Some run from the empty hub ends here. */
  ghost predicate Reaches(s: Sys) { exists run :: Legal(START, run) && After(START, run) == s }

  lemma {:induction false} LegalThen(s: Sys, run: seq<Step>, t: Step)
    requires Legal(s, run) && Enabled(After(s, run), t)
    ensures Legal(s, run + [t]) && After(s, run + [t]) == Next(After(s, run), t)
    decreases |run|
  {
    if run == [] {
      assert run + [t] == [t] && [t][1..] == [];
    } else {
      LegalThen(Next(s, run[0]), run[1..], t);
      assert (run + [t])[1..] == run[1..] + [t];
    }
  }

  lemma ReachStep(s: Sys, t: Step)
    requires Reaches(s) && Enabled(s, t)
    ensures Reaches(Next(s, t))
  {
    var run :| Legal(START, run) && After(START, run) == s;
    LegalThen(START, run, t);
  }

  lemma ReachedIsValid(s: Sys)
    requires Reaches(s)
    ensures SysInv(s)
  {
    var run :| Legal(START, run) && After(START, run) == s;
    RunKeeps(START, run);
  }

  // ---- Evaluating single steps ----

  lemma FindIs(q: Queue, s: Search, r: Option<nat>)
    requires IsFirst(q, s, r)
    ensures Find(q, s) == r
  {
  }

  lemma EnqueueAppends(q: Queue, k: Key, c: Consumer, note: Option<NoteId>, w: Write)
    requires IsFirst(q, ByKey(k, c), None)
    requires w.Update? && note.Some? ==> IsFirst(q, PendingUpdate(note.value, c), None)
    ensures !Answered(q, k, c) && Slot(q, k, c, note, w) == |q|
        && Enqueue(q, k, c, note, w) == q + [Fresh(k, c, note, w)]
  {
    FindIs(q, ByKey(k, c), None);
    if w.Update? && note.Some? { FindIs(q, PendingUpdate(note.value, c), None); }
  }

  lemma EnqueueMerges(q: Queue, k: Key, c: Consumer, n: NoteId, w: Write, i: nat)
    requires IsFirst(q, ByKey(k, c), None) && w.Update? && IsFirst(q, PendingUpdate(n, c), Some(i))
    ensures !Answered(q, k, c) && Slot(q, k, c, Some(n), w) == i
    ensures Enqueue(q, k, c, Some(n), w) == q[i := q[i].(write := w, secondary := Some(k))]
  {
    FindIs(q, ByKey(k, c), None);
    FindIs(q, PendingUpdate(n, c), Some(i));
    assert !q[i].Answers(k, c);
  }

  /** A lease of fewer than a hundred rows hands out exactly those that are pending once stale leases have expired. */
  lemma LeaseIdsAre(q: Queue, now: nat, ids: seq<nat>)
    requires Ascending(ids) && |ids| <= LEASE_LIMIT
    requires forall i: nat :: i in ids <==> i < |q| && Expired(q[i], now).status == Pending
    ensures LeaseIds(q, now) == ids
  {
    var q2 := ExpireAll(q, now);
    var all := RowsIn(q2, Pending, 0);
    forall i: nat ensures i in all <==> i in ids {
      assert i in ids <==> i < |q2| && q2[i].status == Pending;
    }
    Fairness.AscendingIsUnique(all, ids);
  }

  // ---- A note with one write on its way ----

  const TEXT: string := "zero\nat first"

  /** Bear's note "B", as the first push carries it. */
  const FIRST: PushNote := PushNote("n", Some("B"), "zero", TEXT, Some(1), false, false, false)

  /** What Bear itself has. */
  const BEAR: Bear := map["B" := BearNote(TEXT, {}, {}, false, false, Some(1), None)]

  /** The hub's row of it while it shows this text and Bear's is still the first. */
  function Unsynced(text: string): Note {
    Note(Some("B"), text, text, PendingToBear, Some(1), Some("zero"), Some(TEXT), None, false, false, false)
  }

  function UpdateRow(k: Key, c: Consumer, text: string): Item {
    Item(k, None, c, Some("n"), Update(text, "B"), Pending, None)
  }

  const KNOWN: Sys := Sys(HubState(map["n" := InsertedNote(FIRST)], [], {}), Idle)

  const WRITTEN: Sys := Sys(HubState(map["n" := Unsynced("one")], [UpdateRow("k1", "ann", "one")], {}), Idle)

  lemma ReachesKnown()
    ensures Reaches(KNOWN)
  {
    assert Legal(START, []);
    var ps := [FIRST];
    assert ps[1..] == [] && UpsertAll(START.hub.notes, ps) == KNOWN.hub.notes;
    assert Doomed(KNOWN.hub.notes, {}) == {};
    assert Next(START, PushDelta(ps, {})) == KNOWN;
    ReachStep(START, PushDelta(ps, {}));
  }

  predicate Word(text: string) { text in {"one", "two", "three"} }

  lemma WordIsTitle(text: string)
    requires Word(text)
    ensures NoteTitle.TitleOf(text) == text && text != ""
  {
    NoteTitle.PlainTitleReadsBack(text, "");
  }

  lemma FirstPut(h: HubState, text: string, k: Key, c: Consumer)
    requires h.notes == map["n" := InsertedNote(FIRST)] && Word(text) && !Answered(h.queue, k, c)
    ensures Serve(h, UpdateNote("n", text), k, c, false).0
            == HubState(map["n" := Unsynced(text)], Enqueue(h.queue, k, c, Some("n"), Update(text, "B")), h.blobs)
  {
    WordIsTitle(text);
    assert h.notes["n" := Unsynced(text)] == map["n" := Unsynced(text)];
  }

  lemma ReachesWritten()
    ensures Reaches(WRITTEN)
  {
    ReachesKnown();
    EnqueueAppends([], "k1", "ann", Some("n"), Update("one", "B"));
    FirstPut(KNOWN.hub, "one", "k1", "ann");
    ReachStep(KNOWN, Consume(UpdateNote("n", "one"), "k1", "ann", false));
  }

  /** A further PUT to the unsynced note, appended or merged. */
  lemma PutAgain(s: Sys, was: string, text: string, k: Key, c: Consumer)
    requires s.hub.notes == map["n" := Unsynced(was)] && Word(text) && !Answered(s.hub.queue, k, c)
    ensures IsPut(s.hub, UpdateNote("n", text), k, c, false)
    ensures var q2 := Enqueue(s.hub.queue, k, c, Some("n"), Update(text, "B"));
            Next(s, Consume(UpdateNote("n", text), k, c, false))
            == Sys(HubState(map["n" := Unsynced(text)], q2, s.hub.blobs), s.bridge)
  {
    WordIsTitle(text);
    assert s.hub.notes["n" := Unsynced(text)] == map["n" := Unsynced(text)];
  }

  /** The bridge takes its one row. */
  const TAKEN: Item := UpdateRow("k1", "ann", "one").(status := Processing, leaseUntil := Some(300))

  const LEASED: Sys :=
    Sys(HubState(map["n" := Unsynced("one")], [TAKEN], {}), Holding([Leased(0, TAKEN, Some(PendingToBear))]))

  lemma ReachesLeased()
    ensures Reaches(LEASED)
  {
    ReachesWritten();
    LeaseIdsAre(WRITTEN.hub.queue, 0, [0]);
    var s2 := Next(WRITTEN, Lease(0));
    assert s2.hub.queue == [TAKEN] && s2.bridge.rows == [Leased(0, TAKEN, Some(PendingToBear))];
    ReachStep(WRITTEN, Lease(0));
  }
}
