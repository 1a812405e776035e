/** Which stamp a note expects after an ack batch, and how the hub's own writes look when Bear pushes them back. */
module Echoes {
  import opened Model
  import opened Store
  import opened Invariant
  import opened Protocol
  import opened NoteHistory
  import opened BearBridge
  import opened Guarantees
  import opened Runs

  /** A row of the note outside these is unfinished. */
  predicate Leaves(q: Queue, rows: seq<Leased>, n: NoteId) {
    exists j | 0 <= j < |q| :: UnfinishedFor(q[j], n) && !InBatch(rows, j)
  }

  /** Row k is the last of the note's rows in the batch whose ack is applied. */
  predicate LastApplied(rows: seq<Leased>, acks: seq<AckItem>, n: NoteId, k: nat) {
    && |acks| == |rows| && k < |rows| && rows[k].item.note == Some(n) && acks[k].applied
    && forall j | k < j < |rows| && rows[j].item.note == Some(n) :: !acks[j].applied
  }

  lemma LeavesStep(h: HubState, rows: seq<Leased>, a: AckItem, n: NoteId, k: nat)
    requires InFlight(h, rows) && 0 < k < |rows| && a.id == rows[0].id && AckOne(h, a).Ok?
    ensures Leaves(AckOne(h, a).value.queue, rows[1..][..k], n) <==> Leaves(h.queue, rows[..k + 1], n)
  {
    var q, q2 := h.queue, AckOne(h, a).value.queue;
    var part, rest := rows[..k + 1], rows[1..][..k];
    forall j: nat ensures InBatch(part, j) <==> j == a.id || InBatch(rest, j) {
      if b :| 0 <= b < |rest| && rest[b].id == j { assert part[b + 1].id == j; }
      if b :| 0 < b < |part| && part[b].id == j { assert rest[b - 1].id == j; }
      assert part[0].id == a.id;
    }
    assert forall j | 0 <= j < |q| && j != a.id :: q2[j] == q[j];
    assert !q2[a.id].Unfinished();
  }

  lemma LeavesOne(h: HubState, rows: seq<Leased>, a: AckItem, n: NoteId)
    requires InFlight(h, rows) && rows != [] && a.id == rows[0].id && AckOne(h, a).Ok?
    ensures Leaves(h.queue, rows[..1], n) <==> OtherUnfinished(AckOne(h, a).value.queue, n, a.id)
  {
    var q2 := AckOne(h, a).value.queue;
    assert forall j | 0 <= j < |q2| && j != a.id :: q2[j] == h.queue[j];
    forall j: nat ensures InBatch(rows[..1], j) <==> j == a.id {
      assert rows[..1][0].id == a.id;
    }
  }

  lemma {:induction false} LastAppliedAck(h: HubState, rows: seq<Leased>, acks: seq<AckItem>, n: NoteId)
    requires Inv(h) && InFlight(h, rows) && AckFor(rows, acks) && AckAll(h, acks).Ok?
    requires n in h.notes && h.notes[n].status != Conflict && LastApplied(rows, acks, n, 0)
    ensures n in AckAll(h, acks).value.notes
    ensures AckAll(h, acks).value.notes[n].expected ==
              if acks[0].bearId.Some? || Leaves(h.queue, rows[..1], n) then acks[0].modifiedAt else None
  {
    var a, h1, rest := acks[0], AckOne(h, acks[0]).value, acks[1..];
    assert ItemOk(h.queue[a.id], h.notes, h.blobs);
    LeavesOne(h, rows, a, n);
    forall j | 0 <= j < |rest| && rest[j].applied && rest[j].id < |h1.queue|
      ensures h1.queue[rest[j].id].note != Some(n)
    {
      assert rest[j].id == rows[j + 1].id && rows[j + 1].item.note != Some(n);
    }
    AckAllUntouched(h1, rest, n);
  }

  /**
   * After a committed batch the note expects the stamp of the last of its rows that was applied, if that row was the
   * create or the note had other unfinished rows then; otherwise it expects none.
   */
  lemma {:induction false} LastAppliedSetsExpected(
    h: HubState, rows: seq<Leased>, acks: seq<AckItem>, n: NoteId, k: nat)
    requires Inv(h) && InFlight(h, rows) && AckFor(rows, acks) && AckAll(h, acks).Ok?
    requires n in h.notes && h.notes[n].status != Conflict && LastApplied(rows, acks, n, k)
    ensures n in AckAll(h, acks).value.notes
    ensures AckAll(h, acks).value.notes[n].expected ==
              if acks[k].bearId.Some? || Leaves(h.queue, rows[..k + 1], n) then acks[k].modifiedAt else None
    decreases |acks|
  {
    if k == 0 {
      LastAppliedAck(h, rows, acks, n);
    } else {
      var a := acks[0];
      AckStatusMatches(h, rows[0], a);
      AckOneKeeps(h, a);
      AckOneKeepsFlight(h, rows, a);
      AckOneRow(h, rows, acks, n);
      LeavesStep(h, rows, a, n, k);
      assert rows[1..][k - 1] == rows[k];
      LastAppliedSetsExpected(AckOne(h, a).value, rows[1..], acks[1..], n, k - 1);
    }
  }

  /** Such a batch leaves the note safe from echoes of stamp m exactly as EchoesNeverConflict asks. */
  lemma {:induction false} BatchTeachesEcho(
    h: HubState, rows: seq<Leased>, acks: seq<AckItem>, n: NoteId, k: nat, m: nat)
    requires Inv(h) && InFlight(h, rows) && AckFor(rows, acks) && AckAll(h, acks).Ok?
    requires n in h.notes && h.notes[n].status != Conflict && LastApplied(rows, acks, n, k)
    requires acks[k].modifiedAt == Some(m) && (acks[k].bearId.Some? || Leaves(h.queue, rows[..k + 1], n))
    ensures var h2 := AckAll(h, acks).value; n in h2.notes && KnowsEcho(h2.notes[n], m)
  {
    LastAppliedSetsExpected(h, rows, acks, n, k);
    AckAllRow(h, rows, acks, n);
  }

  /**
   * The first push after the batch: it raises a conflict exactly when it does not carry the stamp the batch left
   * behind, the stamp moved, and a field differs from the snapshot on both sides - whoever wrote it in Bear, the
   * bridge included.
   */
  lemma {:induction false} FirstPushAfterBatch(
    h: HubState, rows: seq<Leased>, acks: seq<AckItem>, ps: seq<PushNote>, deleted: set<BearId>, n: NoteId, k: nat,
    i: nat)
    requires Inv(h) && InFlight(h, rows) && AckFor(rows, acks) && AckAll(h, acks).Ok?
    requires n in h.notes && h.notes[n].status == PendingToBear && h.notes[n].bearId.Some?
        && LastApplied(rows, acks, n, k)
    requires Leaves(h.queue, rows[..k + 1], n)
    requires var h2 := AckAll(h, acks).value;
             && FreshPush(h2, ps) && n in h2.notes && h2.notes[n].status == PendingToBear
             && i < |ps| && Touches(ps[i], h2.notes[n]) && ps[i].bearId.value !in deleted
    ensures var h2 := AckAll(h, acks).value;
            var h3, p, v := Push(h2, ps, deleted), ps[i], h.notes[n];
            && n in h3.notes
            && (h3.notes[n].status == Conflict <==>
                  && NewStamp(p, v.(expected := acks[k].modifiedAt)) && Diverged(p, v))
  {
    AckAllKeeps(h, rows, acks);
    LastAppliedSetsExpected(h, rows, acks, n, k);
    AckAllRow(h, rows, acks, n);
    assert NoteOk(h.notes[n]);
    PushRow(AckAll(h, acks).value, ps, deleted, n);
  }

  // ---- A conflict without a second writer ----

  const TAG_ROW: Item := Item("k2", None, "ann", Some("n"), AddTag("work", "B"), Pending, None)

  const TAKEN_TAG: Item := TAG_ROW.(status := Processing, leaseUntil := Some(300))

  /** An update and a tag are leased; a second update waits. One consumer wrote all three; Bear has its first text. */
  const OWN: HubState := HubState(map["n" := Unsynced("two")], [TAKEN, TAKEN_TAG, UpdateRow("k3", "ann", "two")], {})

  const OWN_ROWS: seq<Leased> :=
    [Leased(0, TAKEN, Some(PendingToBear)), Leased(1, TAKEN_TAG, Some(PendingToBear))]

  const OWN_OUTS: seq<Outcome> :=
    [Outcome(true, Some(2), true, "", "", true), Outcome(true, Some(3), true, "", "", true)]

  const TAGGED: Sys :=
    Sys(HubState(map["n" := Unsynced("one")], [UpdateRow("k1", "ann", "one"), TAG_ROW], {}), Idle)

  const OWN_LEASED: Sys :=
    Sys(HubState(map["n" := Unsynced("one")], [TAKEN, TAKEN_TAG], {}), Holding(OWN_ROWS))

  lemma ReachesTagged()
    ensures Reaches(TAGGED)
  {
    ReachesWritten();
    var t := Consume(TagNote("n", "work"), "k2", "ann", false);
    EnqueueAppends(WRITTEN.hub.queue, "k2", "ann", Some("n"), AddTag("work", "B"));
    assert Next(WRITTEN, t) == TAGGED;
    ReachStep(WRITTEN, t);
  }

  lemma ReachesOwnLeased()
    ensures Reaches(OWN_LEASED)
  {
    ReachesTagged();
    LeaseIdsAre(TAGGED.hub.queue, 0, [0, 1]);
    var s2 := Next(TAGGED, Lease(0));
    assert s2.hub.queue == OWN_LEASED.hub.queue && s2.bridge.rows == OWN_ROWS;
    ReachStep(TAGGED, Lease(0));
  }

  lemma ReachesOwn()
    ensures Reaches(Sys(OWN, Holding(OWN_ROWS)))
  {
    ReachesOwnLeased();
    EnqueueAppends(OWN_LEASED.hub.queue, "k3", "ann", Some("n"), Update("two", "B"));
    PutAgain(OWN_LEASED, "one", "two", "k3", "ann");
    ReachStep(OWN_LEASED, Consume(UpdateNote("n", "two"), "k3", "ann", false));
  }

  /** What the bridge does with the two rows. */
  lemma OwnPass()
    ensures Acks(BEAR, OWN_ROWS, OWN_OUTS) ==
              [AckItem(0, true, None, Some(2), false), AckItem(1, true, None, None, false)]
    ensures Pass(BEAR, OWN_ROWS, OWN_OUTS) == map["B" := BearNote("one", {"work"}, {}, false, false, Some(3), None)]
  {
    var rows, outs := OWN_ROWS[1..], OWN_OUTS[1..];
    var (bear2, ack) := Apply(BEAR, OWN_ROWS[0], OWN_OUTS[0]);
    assert Utf8Len("one") == 3 by { assert Utf8Len("ne") == 2 && "one"[1..] == "ne" && "ne"[1..] == "e"; }
    assert ack == AckItem(0, true, None, Some(2), false);
    assert bear2["B"] == BearNote("one", {}, {}, false, false, Some(2), None);
    var (bear3, ack2) := Apply(bear2, rows[0], outs[0]);
    assert ack2 == AckItem(1, true, None, None, false);
    assert rows[1..] == [] && outs[1..] == [];
    assert Acks(bear2, rows, outs) == [ack2] + Acks(bear3, [], []);
    assert bear2["B"].tags + {"work"} == {"work"};
    assert bear3.Keys == {"B"} && bear3["B"] == BearNote("one", {"work"}, {}, false, false, Some(3), None);
    assert Pass(bear2, rows, outs) == Pass(bear3, [], []);
  }

  /** The update's stamp is learnt and, with the tag's ack, forgotten: the note row is as before. */
  lemma OwnAcks(acks: seq<AckItem>)
    requires acks == [AckItem(0, true, None, Some(2), false), AckItem(1, true, None, None, false)]
    ensures AckAll(OWN, acks).Ok? && AckAll(OWN, acks).value.notes == OWN.notes
    ensures forall i | 0 <= i < |AckAll(OWN, acks).value.queue| :: AckAll(OWN, acks).value.queue[i].note == Some("n")
  {
    var h1 := AckOne(OWN, acks[0]).value;
    assert UnfinishedFor(OWN.queue[0 := OWN.queue[0].(status := Applied)][2], "n");
    assert h1.queue[1] == OWN.queue[1] && h1.queue[2] == OWN.queue[2];
    assert UnfinishedFor(h1.queue[1 := h1.queue[1].(status := Applied)][2], "n");
    assert acks[1..] == [acks[1]] && acks[1..][1..] == [];
    var h2 := AckOne(h1, acks[1]).value;
    assert h2.notes["n"] == OWN.notes["n"];
    assert AckAll(h1, acks[1..]) == AckAll(h2, []);
  }

  lemma OwnPush(h: HubState, p: PushNote, deleted: set<BearId>)
    requires Inv(h) && h.notes == OWN.notes && forall i | 0 <= i < |h.queue| :: h.queue[i].note == Some("n")
    requires p.id == "x" && p.bearId == Some("B") && p.body == "one" && p.modifiedAt == Some(3) && "B" !in deleted
    ensures IsConflicted(Push(h, [p], deleted), Some("n"))
  {
    var ps := [p];
    assert ps[0] == p && FreshPush(h, ps);
    assert Touches(ps[0], h.notes["n"]);
    PushRow(h, ps, deleted, "n");
    assert "one"[0] != "zero"[0] && "two"[0] != "zero"[0] && "one"[0] != TEXT[0] && "two"[0] != TEXT[0];
    assert PushedNote(h.notes["n"], p).status == Conflict;
  }

  /** Nobody but the bridge touched the note in Bear, and the next push puts it in conflict. */
  lemma OwnWritesConflict(deleted: set<BearId>, title: string)
    requires "B" !in deleted
    ensures Reaches(Sys(OWN, Holding(OWN_ROWS)))
    ensures var acks, bear := Acks(BEAR, OWN_ROWS, OWN_OUTS), Pass(BEAR, OWN_ROWS, OWN_OUTS);
            && "B" in bear && AckAll(OWN, acks).Ok?
            && var p := PushNote("x", Some("B"), title, bear["B"].body, bear["B"].modifiedAt, false, false, false);
               IsConflicted(Push(AckAll(OWN, acks).value, [p], deleted), Some("n"))
  {
    var acks, bear := Acks(BEAR, OWN_ROWS, OWN_OUTS), Pass(BEAR, OWN_ROWS, OWN_OUTS);
    ReachesOwn();
    ReachedIsValid(Sys(OWN, Holding(OWN_ROWS)));
    AcksReport(BEAR, OWN_ROWS, OWN_OUTS);
    OwnPass();
    OwnAcks(acks);
    AckAllKeeps(OWN, OWN_ROWS, acks);
    var p := PushNote("x", Some("B"), title, bear["B"].body, bear["B"].modifiedAt, false, false, false);
    OwnPush(AckAll(OWN, acks).value, p, deleted);
  }
}
