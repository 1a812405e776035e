/** Two runs from the empty hub after which Bear does not end with the PUT the hub accepted last. */
module LostPuts {
  import opened Model
  import opened Store
  import opened Handlers
  import opened Invariant
  import opened Protocol
  import opened BearBridge
  import opened LeaseOrder
  import opened Coalescing
  import opened Runs

  // ---- Queues of good updates ----

  lemma {:induction false} Utf8LenBound(s: string)
    ensures Utf8Len(s) <= 4 * |s|
  {
    if s != "" { Utf8LenBound(s[1..]); }
  }

  /** An update of Bear note b that Bear will take. */
  predicate GoodUpdate(row: Leased, out: Outcome, b: BearId) {
    Rewrites(row, b) && BodyFits(row.item.write.body) && row.item.note != Some(b) && out.ok && out.id != b
  }

  lemma {:induction false} UpdatesApply(bear: Bear, rows: seq<Leased>, outs: seq<Outcome>, b: BearId)
    requires b in bear && |outs| == |rows| && forall a | 0 <= a < |rows| :: GoodUpdate(rows[a], outs[a], b)
    ensures var acks := Acks(bear, rows, outs);
            AllApplied(acks) && forall a | 0 <= a < |rows| :: acks[a].bearId.None?
    decreases |rows|
  {
    if rows != [] {
      assert GoodUpdate(rows[0], outs[0], b);
      forall a | 0 <= a < |rows[1..]| ensures GoodUpdate(rows[1..][a], outs[1..][a], b) {
        assert rows[1..][a] == rows[a + 1] && outs[1..][a] == outs[a + 1];
      }
      UpdatesApply(Apply(bear, rows[0], outs[0]).0, rows[1..], outs[1..], b);
    }
  }

  lemma GoodBatch(w: World, outs: seq<Outcome>, b: BearId)
    requires w.sys.bridge.Holding? && b in w.bear && |outs| == |w.sys.bridge.rows|
    requires forall a | 0 <= a < |outs| :: GoodUpdate(w.sys.bridge.rows[a], outs[a], b)
    ensures BatchLegal(w, outs, b)
  {
    var rows := w.sys.bridge.rows;
    forall a | 0 <= a < |rows| ensures outs[a].id != b && rows[a].item.note != Some(b) {
      assert GoodUpdate(rows[a], outs[a], b);
    }
    UpdatesApply(w.bear, rows, outs, b);
    AcksReport(w.bear, rows, outs);
    NoBirthCommits(w.sys.hub, Acks(w.bear, rows, outs));
  }

  lemma LeasedUpdateIsGood(h: HubState, now: nat, a: nat, out: Outcome, n: NoteId, b: BearId)
    requires Inv(h) && n in h.notes && h.notes[n].bearId == Some(b) && h.notes[n].status != Conflict && n != b
    requires a < |LeaseIds(h.queue, now)| && out.ok && out.id != b
    requires var i := LeaseIds(h.queue, now)[a]; Writes(h.queue, i, n) && BodyFits(h.queue[i].write.body)
    ensures GoodUpdate(LeaseRows(h, now)[a], out, b)
  {
    var i := LeaseIds(h.queue, now)[a];
    assert Expired(h.queue[i], now).status == Pending;
    assert ItemOk(h.queue[i], h.notes, h.blobs);
  }

  /** The pending rows are updates of n with a good body: the turn that leases them is legal. */
  lemma UpdatesGoThrough(w: World, now: nat, outs: seq<Outcome>, n: NoteId, b: BearId)
    requires SysInv(w.sys) && Known(w, n, b) && n != b && w.sys.bridge.Idle?
    requires |outs| == |LeaseIds(w.sys.hub.queue, now)| && forall a | 0 <= a < |outs| :: outs[a].ok && outs[a].id != b
    requires forall i | i in LeaseIds(w.sys.hub.queue, now) ::
               Writes(w.sys.hub.queue, i, n) && BodyFits(w.sys.hub.queue[i].write.body)
    ensures TurnLegal(w, Turn(now, outs), b)
  {
    var rows := LeaseRows(w.sys.hub, now);
    forall a | 0 <= a < |rows| ensures GoodUpdate(rows[a], outs[a], b) {
      LeasedUpdateIsGood(w.sys.hub, now, a, outs[a], n, b);
    }
    GoodBatch(Leasing(w, now), outs, b);
  }

  predicate GoodOuts(outs: seq<Outcome>, b: BearId) { forall a | 0 <= a < |outs| :: outs[a].ok && outs[a].id != b }

  /** The turns expect as many rows as their leases hand out. */
  predicate Sized(q: Queue, ts: seq<Turn>, b: BearId)
    decreases |ts|
  {
    ts == [] || (&& |ts[0].outs| == |LeaseIds(q, ts[0].now)| && GoodOuts(ts[0].outs, b)
                 && Sized(TurnQueue(q, ts[0].now), ts[1..], b))
  }

  predicate GoodUpdates(q: Queue, n: NoteId) {
    forall i | 0 <= i < |q| :: Writes(q, i, n) && BodyFits(q[i].write.body)
  }

  lemma GoodUpdatesStay(q: Queue, q2: Queue, n: NoteId)
    requires GoodUpdates(q, n) && SameWrites(q, q2)
    ensures GoodUpdates(q2, n)
  {
    forall i | 0 <= i < |q2| ensures Writes(q2, i, n) && BodyFits(q2[i].write.body) {
      assert Writes(q, i, n);
    }
  }

  lemma GoodLease(q: Queue, now: nat, n: NoteId)
    requires GoodUpdates(q, n)
    ensures forall i | i in LeaseIds(q, now) :: Writes(q, i, n) && BodyFits(q[i].write.body)
  {
  }

  ghost predicate Draining(w: World, n: NoteId, b: BearId) {
    SysInv(w.sys) && Known(w, n, b) && n != b && w.sys.bridge.Idle? && GoodUpdates(w.sys.hub.queue, n)
  }

  lemma TurnGoesThrough(w: World, t: Turn, n: NoteId, b: BearId)
    requires Draining(w, n, b) && |t.outs| == |LeaseIds(w.sys.hub.queue, t.now)| && GoodOuts(t.outs, b)
    ensures TurnLegal(w, t, b)
  {
    GoodLease(w.sys.hub.queue, t.now, n);
    UpdatesGoThrough(w, t.now, t.outs, n, b);
    assert t == Turn(t.now, t.outs);
  }

  lemma TurnDrains(w: World, t: Turn, n: NoteId, b: BearId)
    requires Draining(w, n, b) && TurnLegal(w, t, b)
    ensures Draining(AfterTurn(w, t, b), n, b)
    ensures AfterTurn(w, t, b).sys.hub.queue == TurnQueue(w.sys.hub.queue, t.now)
  {
    TurnEffect(w, t, n, b, w.sys.hub.queue, w.bear[b].body);
    GoodUpdatesStay(w.sys.hub.queue, TurnQueue(w.sys.hub.queue, t.now), n);
  }

  /** If the queue holds nothing but good updates of n, all turns of the right size are legal. */
  lemma {:induction false} TurnsGoThrough(w: World, ts: seq<Turn>, n: NoteId, b: BearId)
    requires Draining(w, n, b) && Sized(w.sys.hub.queue, ts, b)
    ensures TurnsLegal(w, ts, b)
    decreases |ts|
  {
    if ts != [] {
      TurnGoesThrough(w, ts[0], n, b);
      TurnDrains(w, ts[0], n, b);
      TurnsGoThrough(AfterTurn(w, ts[0], b), ts[1..], n, b);
    }
  }

  /** So an idle bridge drains such a queue, and Bear has the text its leases lead to. */
  lemma GoodDrain(w: World, ts: seq<Turn>, n: NoteId, b: BearId)
    requires Reaches(w.sys) && Known(w, n, b) && n != b && w.sys.bridge.Idle?
    requires GoodUpdates(w.sys.hub.queue, n) && Sized(w.sys.hub.queue, ts, b)
    ensures DrainLegal(w, [], ts, b)
    ensures var w2, q := Drained(w, [], ts, b), w.sys.hub.queue;
            && w2.sys.hub.queue == QueueAfter(q, Clocks(ts)) && b in w2.bear
            && w2.bear[b].body == TextAfter(q, Handed(q, Clocks(ts)), n, w.bear[b].body)
  {
    ReachedIsValid(w.sys);
    TurnsGoThrough(w, ts, n, b);
    TurnsEffect(w, ts, n, b, w.sys.hub.queue, w.bear[b].body);
  }

  /** The turns let every update of n through and leave Bear with this text. */
  ghost predicate EndsWith(w: World, ts: seq<Turn>, n: NoteId, b: BearId, text: string) {
    && DrainLegal(w, [], ts, b)
    && var w2 := Drained(w, [], ts, b); NoUpdate(w2.sys.hub.queue, n) && b in w2.bear && w2.bear[b].body == text
  }

  lemma DrainsTo(w: World, ts: seq<Turn>, n: NoteId, b: BearId, ids: seq<nat>, text: string)
    requires Reaches(w.sys) && Known(w, n, b) && n != b && w.sys.bridge.Idle?
    requires GoodUpdates(w.sys.hub.queue, n) && Sized(w.sys.hub.queue, ts, b)
    requires Handed(w.sys.hub.queue, Clocks(ts)) == ids && NoUpdate(QueueAfter(w.sys.hub.queue, Clocks(ts)), n)
    requires TextAfter(w.sys.hub.queue, ids, n, w.bear[b].body) == text
    ensures EndsWith(w, ts, n, b, text)
  {
    GoodDrain(w, ts, n, b);
  }

  // ---- The two runs ----

  const GOOD: Outcome := Outcome(true, Some(2), true, "", "", true)

  /** The lease of the first PUT is lost, and the same consumer writes again. */
  const LOST: Sys := Sys(HubState(map["n" := Unsynced("one")], [TAKEN], {}), Idle)

  const LOST_TURNS: seq<Turn> := [Turn(10, [GOOD]), Turn(301, [GOOD])]

  lemma ReachesLost()
    ensures Reaches(LOST)
  {
    ReachesLeased();
    ReachStep(LEASED, Crash);
  }

  /** The hub after the second PUT, with the first row still leased to nobody. */
  const BEHIND: HubState :=
    HubState(map["n" := Unsynced("two")], [TAKEN, UpdateRow("k2", "ann", "two")], {})

  lemma LostPut()
    ensures IsPut(LOST.hub, UpdateNote("n", "two"), "k2", "ann", false)
    ensures AfterPut(World(LOST, BEAR), "n", "two", "k2", "ann") == World(Sys(BEHIND, Idle), BEAR)
    ensures PutSlot(World(LOST, BEAR), "n", "two", "k2", "ann") == 1
  {
    EnqueueAppends(LOST.hub.queue, "k2", "ann", Some("n"), Update("two", "B"));
    PutAgain(LOST, "one", "two", "k2", "ann");
  }

  /** The bridge leases the new row first, because the old one is still leased at time 10. */
  lemma LostFirstTurn()
    ensures LeaseIds(BEHIND.queue, 10) == [1]
    ensures TurnQueue(BEHIND.queue, 10)
            == [TAKEN, UpdateRow("k2", "ann", "two").(status := Applied, leaseUntil := Some(310))]
  {
    LeaseIdsAre(BEHIND.queue, 10, [1]);
  }

  lemma LostSecondTurn(q2: Queue)
    requires q2 == [TAKEN, UpdateRow("k2", "ann", "two").(status := Applied, leaseUntil := Some(310))]
    ensures LeaseIds(q2, 301) == [0] && NoUpdate(TurnQueue(q2, 301), "n")
  {
    assert forall i: nat :: i in [0] <==> i == 0;
    LeaseIdsAre(q2, 301, [0]);
    TurnItem(q2, 301, 0);
    TurnItem(q2, 301, 1);
  }

  /** At that time the old row's lease has not ended: in the terms of PutReachesBearIff it overtakes the PUT. */
  lemma LostOvertakes()
    ensures Ordered([10, 301]) && Overtakes(Sys(BEHIND, Idle), [10, 301], 1, 0)
  {
    LostFirstTurn();
    assert Finish(BEHIND.queue, []) == BEHIND.queue;
    assert [10, 301][1..] == [301] && [301][1..] == [];
  }

  lemma LostOrder()
    ensures Handed(BEHIND.queue, [10, 301]) == [1, 0] && NoUpdate(QueueAfter(BEHIND.queue, [10, 301]), "n")
    ensures Sized(BEHIND.queue, LOST_TURNS, "B")
  {
    LostFirstTurn();
    var q2 := TurnQueue(BEHIND.queue, 10);
    LostSecondTurn(q2);
    assert [10, 301][1..] == [301] && [301][1..] == [];
    assert Handed(q2, [301]) == [0] + Handed(TurnQueue(q2, 301), []);
    assert QueueAfter(q2, [301]) == QueueAfter(TurnQueue(q2, 301), []);
    assert LOST_TURNS[1..] == [LOST_TURNS[1]] && LOST_TURNS[1..][1..] == [];
  }

  lemma WordFits(text: string)
    requires Word(text)
    ensures BodyFits(text)
  {
    Utf8LenBound(text);
  }

  lemma LostText()
    ensures TextAfter(BEHIND.queue, [1, 0], "n", TEXT) == "one"
  {
    assert [1, 0][1..] == [0] && [0][1..] == [];
    assert TextAfter(BEHIND.queue, [0], "n", "two") == TextAfter(BEHIND.queue, [], "n", "one");
  }

  lemma BehindIsGood()
    ensures GoodUpdates(BEHIND.queue, "n")
  {
    WordFits("one");
    WordFits("two");
  }

  lemma ReachesBehind()
    ensures Reaches(Sys(BEHIND, Idle))
  {
    ReachesLost();
    LostPut();
    ReachStep(LOST, Consume(UpdateNote("n", "two"), "k2", "ann", false));
  }

  lemma BehindDrains()
    ensures EndsWith(World(Sys(BEHIND, Idle), BEAR), LOST_TURNS, "n", "B", "one")
  {
    ReachesBehind();
    LostOrder();
    BehindIsGood();
    LostText();
    assert Clocks(LOST_TURNS) == [10, 301];
    DrainsTo(World(Sys(BEHIND, Idle), BEAR), LOST_TURNS, "n", "B", [1, 0], "one");
  }

  /**
   * One writer, no key used twice, no failed ack: the first PUT's lease is lost, the second PUT is applied first and
   * the first one over it. The hub shows "two", no update is left, and Bear has "one".
   */
  lemma LostLeaseLosesPut()
    ensures Reaches(LOST) && IsPut(LOST.hub, UpdateNote("n", "two"), "k2", "ann", false)
    ensures var w := AfterPut(World(LOST, BEAR), "n", "two", "k2", "ann");
            && w.sys.hub.notes["n"].body == "two" && EndsWith(w, LOST_TURNS, "n", "B", "one")
            && PutSlot(World(LOST, BEAR), "n", "two", "k2", "ann") == 1
            && Ordered(Clocks(LOST_TURNS)) && Overtakes(w.sys, Clocks(LOST_TURNS), 1, 0)
  {
    ReachesLost();
    LostPut();
    BehindDrains();
    assert Clocks(LOST_TURNS) == [10, 301];
    LostOvertakes();
  }

  /** Two consumers with a pending update each; the hub shows the second one's body. */
  const SHARED: HubState := HubState(map["n" := Unsynced("two")], [ANN_ROW, UpdateRow("k2", "bob", "two")], {})

  const ANN_ROW: Item := UpdateRow("k1", "ann", "one")

  /** The first of them writes again. */
  const REWRITTEN: HubState := HubState(
    map["n" := Unsynced("three")],
    [ANN_ROW.(write := Update("three", "B"), secondary := Some("k3")), UpdateRow("k2", "bob", "two")], {})

  lemma ReachesShared()
    ensures Reaches(Sys(SHARED, Idle))
  {
    ReachesWritten();
    EnqueueAppends(WRITTEN.hub.queue, "k2", "bob", Some("n"), Update("two", "B"));
    PutAgain(WRITTEN, "one", "two", "k2", "bob");
    ReachStep(WRITTEN, Consume(UpdateNote("n", "two"), "k2", "bob", false));
  }

  lemma SharedPut()
    ensures IsPut(SHARED, UpdateNote("n", "three"), "k3", "ann", false)
    ensures PutSlot(World(Sys(SHARED, Idle), BEAR), "n", "three", "k3", "ann") == 0
    ensures AfterPut(World(Sys(SHARED, Idle), BEAR), "n", "three", "k3", "ann") == World(Sys(REWRITTEN, Idle), BEAR)
  {
    EnqueueMerges(SHARED.queue, "k3", "ann", "n", Update("three", "B"), 0);
    PutAgain(Sys(SHARED, Idle), "two", "three", "k3", "ann");
  }

  lemma SharedTurn(q: Queue)
    requires |q| == 2 && q[0].status == q[1].status == Pending
    ensures LeaseIds(q, 10) == [0, 1]
  {
    assert forall i: nat :: i in [0, 1] <==> i == 0 || i == 1;
    assert Expired(q[0], 10) == q[0] && Expired(q[1], 10) == q[1];
    LeaseIdsAre(q, 10, [0, 1]);
  }

  lemma SharedTurnFinishes(q: Queue)
    requires |q| == 2 && LeaseIds(q, 10) == [0, 1]
    ensures NoUpdate(TurnQueue(q, 10), "n")
  {
    TurnItem(q, 10, 0);
    TurnItem(q, 10, 1);
  }

  lemma SharedOrder()
    ensures Handed(REWRITTEN.queue, [10]) == [0, 1] && NoUpdate(QueueAfter(REWRITTEN.queue, [10]), "n")
    ensures Sized(REWRITTEN.queue, [Turn(10, [GOOD, GOOD])], "B")
  {
    var q := REWRITTEN.queue;
    SharedTurn(q);
    SharedTurnFinishes(q);
    assert [10][1..] == [] && [Turn(10, [GOOD, GOOD])][1..] == [];
    assert Handed(TurnQueue(q, 10), []) == [] && QueueAfter(TurnQueue(q, 10), []) == TurnQueue(q, 10);
  }

  lemma SharedText()
    ensures TextAfter(REWRITTEN.queue, [0, 1], "n", TEXT) == "two"
  {
    assert [0, 1][1..] == [1] && [1][1..] == [];
    assert TextAfter(REWRITTEN.queue, [1], "n", "three") == TextAfter(REWRITTEN.queue, [], "n", "two");
  }

  lemma RewrittenIsGood()
    ensures GoodUpdates(REWRITTEN.queue, "n")
  {
    WordFits("three");
    WordFits("two");
  }

  lemma ReachesRewritten()
    ensures Reaches(Sys(REWRITTEN, Idle))
  {
    ReachesShared();
    SharedPut();
    ReachStep(Sys(SHARED, Idle), Consume(UpdateNote("n", "three"), "k3", "ann", false));
  }

  lemma RewrittenDrains()
    ensures EndsWith(World(Sys(REWRITTEN, Idle), BEAR), [Turn(10, [GOOD, GOOD])], "n", "B", "two")
  {
    ReachesRewritten();
    SharedOrder();
    RewrittenIsGood();
    SharedText();
    assert Clocks([Turn(10, [GOOD, GOOD])]) == [10];
    DrainsTo(World(Sys(REWRITTEN, Idle), BEAR), [Turn(10, [GOOD, GOOD])], "n", "B", [0, 1], "two");
  }

  /** The hub then shows the first consumer's new body, and one turn of the bridge leaves Bear with the second one's. */
  lemma SharedNoteLosesPut()
    ensures Reaches(Sys(SHARED, Idle)) && IsPut(SHARED, UpdateNote("n", "three"), "k3", "ann", false)
    ensures var w := AfterPut(World(Sys(SHARED, Idle), BEAR), "n", "three", "k3", "ann");
            && w.sys.hub.notes["n"].body == "three" && EndsWith(w, [Turn(10, [GOOD, GOOD])], "n", "B", "two")
            && PutSlot(World(Sys(SHARED, Idle), BEAR), "n", "three", "k3", "ann") == 0
            && Overtakes(w.sys, Clocks([Turn(10, [GOOD, GOOD])]), 0, 1)
  {
    ReachesShared();
    SharedPut();
    RewrittenDrains();
  }
}
