/** When a conflict can still end, and a run from the empty hub after which it cannot. */
module Conflicts {
  import opened Model
  import opened Store
  import opened Invariant
  import opened Protocol
  import opened NoteHistory
  import opened Guarantees
  import opened Runs

  /** A run that brings note n back to synced without Bear deleting it. */
  ghost predicate Frees(s: Sys, run: seq<Step>, n: NoteId) {
    && Legal(s, run) && !EverDeleted(s, run, n)
    && n in After(s, run).hub.notes && After(s, run).hub.notes[n].status == Synced
  }

  lemma FreesThen(s: Sys, t: Step, run: seq<Step>, n: NoteId)
    requires Enabled(s, t) && !Deletes(s.hub, t, n) && Frees(Next(s, t), run, n)
    ensures Frees(s, [t] + run, n)
  {
    assert ([t] + run)[1..] == run;
  }

  // ---- One round ----

  /** A time at which every lease has ended. */
  function AllEnded(q: Queue): (now: nat)
    ensures forall i | 0 <= i < |q| && q[i].leaseUntil.Some? :: q[i].leaseUntil.value < now
  {
    if q == [] then 0
    else
      var m, x := AllEnded(q[..|q| - 1]), q[|q| - 1];
      if x.leaseUntil.Some? && x.leaseUntil.value >= m then x.leaseUntil.value + 1 else m
  }

  lemma EverythingIsLeased(h: HubState, now: nat)
    requires Inv(h) && now == AllEnded(h.queue)
    ensures forall i | 0 <= i < |h.queue| && h.queue[i].Unfinished() :: ExpireAll(h.queue, now)[i].status == Pending
    ensures (exists i | 0 <= i < |h.queue| :: h.queue[i].Unfinished()) ==> LeaseIds(h.queue, now) != []
  {
    forall i | 0 <= i < |h.queue| && h.queue[i].Unfinished() ensures ExpireAll(h.queue, now)[i].status == Pending {
      assert ItemOk(h.queue[i], h.notes, h.blobs);
    }
  }

  /** All rows of the batch fail, except row k, whose conflict copy was made. */
  function Verdicts(rows: seq<Leased>, k: nat): (acks: seq<AckItem>)
    ensures |acks| == |rows|
    ensures forall a | 0 <= a < |rows| :: acks[a] == AckItem(rows[a].id, a == k, None, None, a == k)
  {
    seq(|rows|, a requires 0 <= a < |rows| => AckItem(rows[a].id, a == k, None, None, a == k))
  }

  lemma VerdictsAck(s: Sys, k: nat)
    requires SysInv(s) && s.bridge.Holding?
    requires k < |s.bridge.rows| ==>
               s.bridge.rows[k].item.note.Some? && IsConflicted(s.hub, s.bridge.rows[k].item.note)
    ensures var acks := Verdicts(s.bridge.rows, k); Enabled(s, Ack(acks)) && AckAll(s.hub, acks).Ok?
  {
    NoBirthCommits(s.hub, Verdicts(s.bridge.rows, k));
  }

  /** With all rows of the note in the batch, one good ack for the last of them ends the conflict. */
  lemma LastVerdictFrees(s: Sys, n: NoteId, j: nat) returns (run: seq<Step>)
    requires SysInv(s) && s.bridge.Holding? && IsConflicted(s.hub, Some(n)) && Covers(s.hub.queue, s.bridge.rows, n)
    requires j < |s.hub.queue| && UnfinishedFor(s.hub.queue[j], n)
    ensures Frees(s, run, n)
  {
    var rows := s.bridge.rows;
    var k := LastRowExists(rows, n);
    assert k.Some? by {
      var a :| 0 <= a < |rows| && rows[a].id == j;
      assert rows[a].item == s.hub.queue[j];
    }
    var acks := Verdicts(rows, k.value);
    VerdictsAck(s, k.value);
    LastAckDecides(s.hub, rows, acks, n, k.value);
    run := [Ack(acks)] + [];
    FreesThen(s, Ack(acks), [], n);
  }

  function Open(q: Queue): set<nat> { set i: nat | i < |q| && q[i].Unfinished() }

  lemma FailedBatchRows(h: HubState, rows: seq<Leased>, acks: seq<AckItem>, n: NoteId)
    requires InFlight(h, rows) && rows != [] && !Covers(h.queue, rows, n)
    requires AckFor(rows, acks) && AckAll(h, acks).Ok?
    ensures var q2 := AckAll(h, acks).value.queue; !NoUnfinished(q2, n) && Open(q2) < Open(h.queue)
  {
    var q2 := AckAll(h, acks).value.queue;
    AckAllSettles(h, acks);
    var j :| 0 <= j < |h.queue| && UnfinishedFor(h.queue[j], n) && !InBatch(rows, j);
    OutsideRowStays(h, rows, acks, j);
    assert UnfinishedFor(q2[j], n);
    assert !AckTakesEffect(q2, acks[0]);
    assert rows[0].id in Open(h.queue) && rows[0].id !in Open(q2);
  }

  /** Otherwise all rows of the batch fail, and a row of the note is left. */
  lemma BatchFails(s: Sys, n: NoteId) returns (s2: Sys, acks: seq<AckItem>)
    requires SysInv(s) && s.bridge.Holding? && IsConflicted(s.hub, Some(n)) && !Covers(s.hub.queue, s.bridge.rows, n)
    requires s.bridge.rows != []
    ensures Enabled(s, Ack(acks)) && Enabled(Next(s, Ack(acks)), AckSeen) && s2 == Next(Next(s, Ack(acks)), AckSeen)
    ensures SysInv(s2) && s2.bridge.Idle? && IsConflicted(s2.hub, Some(n)) && !NoUnfinished(s2.hub.queue, n)
    ensures Open(s2.hub.queue) < Open(s.hub.queue)
  {
    acks := Verdicts(s.bridge.rows, |s.bridge.rows|);
    VerdictsAck(s, |s.bridge.rows|);
    FailedBatchRows(s.hub, s.bridge.rows, acks, n);
    ConflictStep(s, Ack(acks), n);
    StepKeeps(s, Ack(acks));
    StepKeeps(Next(s, Ack(acks)), AckSeen);
    s2 := Next(Next(s, Ack(acks)), AckSeen);
  }

  lemma LeaseLeavesOpen(q: Queue, now: nat)
    ensures Open(LeaseQueue(q, now)) == Open(q)
  {
    forall i | 0 <= i < |q| ensures Shuffled(q[i], LeaseQueue(q, now)[i]) {
      LeaseShuffles(q, now, i);
    }
  }

  lemma LeaseKeepsConflict(s: Sys, now: nat, n: NoteId, j: nat)
    requires SysInv(s) && s.bridge.Idle? && IsConflicted(s.hub, Some(n))
    requires j < |s.hub.queue| && UnfinishedFor(s.hub.queue[j], n)
    ensures var s1 := Next(s, Lease(now));
            && SysInv(s1) && s1.bridge.Holding? && IsConflicted(s1.hub, Some(n))
            && j < |s1.hub.queue| && UnfinishedFor(s1.hub.queue[j], n)
  {
    StepKeeps(s, Lease(now));
    LeaseShuffles(s.hub.queue, now, j);
  }

  /** From an idle bridge: fail batch after batch until one holds all that is left of the note. */
  lemma {:induction false} IdleRunFrees(s: Sys, n: NoteId) returns (run: seq<Step>)
    requires SysInv(s) && s.bridge.Idle? && IsConflicted(s.hub, Some(n)) && !NoUnfinished(s.hub.queue, n)
    ensures Frees(s, run, n)
    decreases Open(s.hub.queue)
  {
    var j :| 0 <= j < |s.hub.queue| && UnfinishedFor(s.hub.queue[j], n);
    var now := AllEnded(s.hub.queue);
    var s1 := Next(s, Lease(now));
    LeaseKeepsConflict(s, now, n, j);
    if Covers(s1.hub.queue, s1.bridge.rows, n) {
      run := LastVerdictFrees(s1, n, j);
    } else {
      EverythingIsLeased(s.hub, now);
      LeaseLeavesOpen(s.hub.queue, now);
      var s2, acks := BatchFails(s1, n);
      run := IdleRunFrees(s2, n);
      FreesThen(Next(s1, Ack(acks)), AckSeen, run, n);
      FreesThen(s1, Ack(acks), [AckSeen] + run, n);
      run := [Ack(acks)] + ([AckSeen] + run);
    }
    FreesThen(s, Lease(now), run, n);
    run := [Lease(now)] + run;
  }

  /** A conflicted note can get back to synced exactly as long as one of its rows is unfinished. */
  lemma ConflictEndsIff(s: Sys, n: NoteId)
    requires SysInv(s) && IsConflicted(s.hub, Some(n))
    ensures (exists run :: Frees(s, run, n)) <==> !NoUnfinished(s.hub.queue, n)
  {
    if NoUnfinished(s.hub.queue, n) {
      forall run | Legal(s, run) && !EverDeleted(s, run, n) ensures !Frees(s, run, n) {
        DrainedConflictIsPermanent(s, run, n);
      }
    } else {
      StepKeeps(s, Crash);
      var run := IdleRunFrees(Next(s, Crash), n);
      FreesThen(s, Crash, run, n);
    }
  }

  // ---- A note that is stuck ----

  const FAILED: Item := TAKEN.(status := Failed)

  /** Bear's text of the note has moved as well. */
  const MOVED: PushNote := PushNote("x", Some("B"), "other", "other words", Some(2), false, false, false)

  const STUCK: Sys := Sys(
    HubState(map["n" := Unsynced("one").(status := Conflict, modifiedAt := Some(2))], [FAILED], {}), Idle)

  const UNWRITTEN: Sys := Sys(HubState(map["n" := Unsynced("one")], [FAILED], {}), Idle)

  /** The write fails in Bear. */
  lemma ReachesUnwritten()
    ensures Reaches(UNWRITTEN)
  {
    ReachesLeased();
    var acks := [AckItem(0, false, None, None, false)];
    var h := UNWRITTEN.hub;
    assert [TAKEN][0 := FAILED] == [FAILED];
    assert acks[1..] == [] && AckOne(LEASED.hub, acks[0]) == Ok(h);
    assert AckAll(LEASED.hub, acks) == AckAll(h, []);
    assert h.blobs - Cleaned(h.queue, acks) == {};
    assert Next(LEASED, Ack(acks)) == Sys(h, Resending(acks));
    ReachStep(LEASED, Ack(acks));
    ReachStep(Sys(h, Resending(acks)), AckSeen);
  }

  lemma PushRaisesConflict()
    ensures Push(UNWRITTEN.hub, [MOVED], {}) == STUCK.hub
  {
    var h, ps := UNWRITTEN.hub, [MOVED];
    assert NoteOf(h.notes, "B") == Some("n");
    assert "other"[0] != "zero"[0] && "one"[0] != "zero"[0] && |TEXT| != |"one"|;
    assert PushedNote(h.notes["n"], MOVED) == STUCK.hub.notes["n"];
    assert Upsert(h.notes, MOVED) == STUCK.hub.notes;
    assert ps[1..] == [] && UpsertAll(h.notes, ps) == UpsertAll(Upsert(h.notes, MOVED), []);
    assert Doomed(STUCK.hub.notes, {}) == {};
  }

  lemma ReachesStuck()
    ensures Reaches(STUCK)
  {
    ReachesUnwritten();
    PushRaisesConflict();
    ReachStep(UNWRITTEN, PushDelta([MOVED], {}));
  }

  /** One failed write, one change in Bear: no run that keeps the note ever ends the conflict. */
  lemma NoteGetsStuck()
    ensures Reaches(STUCK) && IsConflicted(STUCK.hub, Some("n"))
    ensures !exists run :: Frees(STUCK, run, "n")
  {
    ReachesStuck();
    ReachedIsValid(STUCK);
    ConflictEndsIff(STUCK, "n");
  }
}
