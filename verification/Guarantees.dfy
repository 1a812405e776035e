/** What holds in every state a run can reach, and between any two of them. */
module Guarantees {
  import opened Model
  import opened Store
  import opened Handlers
  import opened Invariant
  import opened Protocol
  import opened NoteHistory

  // ---- States ----

  /** From the empty hub, after any run. */
  lemma Reachable(run: seq<Step>)
    requires Legal(START, run)
    ensures SysInv(After(START, run))
  {
    RunKeeps(START, run);
  }

  /** A note with an unfinished create, update, trash or archive exists and is pending_to_bear or in conflict. */
  lemma {:induction false} UnfinishedWritesProtect(run: seq<Step>, i: nat)
    requires Legal(START, run)
    ensures var h := After(START, run).hub;
            i < |h.queue| && h.queue[i].Unfinished() && h.queue[i].write.MarksNote() ==>
              h.queue[i].note.Some? && h.queue[i].note.value in h.notes
                  && h.notes[h.queue[i].note.value].status != Synced
  {
    Reachable(run);
    var h := After(START, run).hub;
    if i < |h.queue| { assert ItemOk(h.queue[i], h.notes, h.blobs); }
  }

  /** A note Bear does not know has at most one unfinished row: its create, carrying the hub's body. */
  lemma UnsyncedNoteHasOneCreate(run: seq<Step>, n: NoteId, i: nat)
    requires Legal(START, run)
    ensures var h := After(START, run).hub;
            n in h.notes && h.notes[n].bearId.None? && i < |h.queue| && UnfinishedFor(h.queue[i], n) ==>
              && h.queue[i].write.Create? && h.queue[i].write.body == h.notes[n].body
              && h.notes[n].status == PendingToBear
              && forall j | 0 <= j < |h.queue| && j != i :: !UnfinishedFor(h.queue[j], n)
  {
    Reachable(run);
    var h := After(START, run).hub;
    if n in h.notes && h.notes[n].bearId.None? && i < |h.queue| && UnfinishedFor(h.queue[i], n) {
      assert ItemOk(h.queue[i], h.notes, h.blobs);
      OnlyCreate(h, i);
    }
  }

  /** Every upload that Bear has not received is still on disk. */
  lemma {:induction false} UnappliedUploadsSurvive(run: seq<Step>, i: nat)
    requires Legal(START, run)
    ensures var h := After(START, run).hub;
            i < |h.queue| && h.queue[i].write.AddFile? && h.queue[i].status != Applied ==>
                h.queue[i].write.blob in h.blobs
  {
    Reachable(run);
    var h := After(START, run).hub;
    if i < |h.queue| { assert ItemOk(h.queue[i], h.notes, h.blobs); }
  }

  /** Whatever consumers do meanwhile, the bridge acks exactly the rows it was given. */
  lemma AckMatchesLease(run: seq<Step>, acks: seq<AckItem>, a: nat)
    requires Legal(START, run) && Enabled(After(START, run), Ack(acks)) && a < |acks|
    ensures var s := After(START, run);
            && AckTakesEffect(s.hub.queue, acks[a])
            && s.hub.queue[acks[a].id] == s.bridge.rows[a].item
            && (acks[a].applied ==>
                  (acks[a].conflictResolved <==> IsConflicted(s.hub, s.bridge.rows[a].item.note)))
  {
    Reachable(run);
  }

  // ---- The queue between two states ----

  /** No row is lost, no row changes its key, and an applied row is final. */
  predicate QueueGrew(q: Queue, q2: Queue) {
    && |q| <= |q2|
    && forall i | 0 <= i < |q| ::
         q2[i].key == q[i].key && q2[i].consumer == q[i].consumer && (q[i].status == Applied ==> q2[i] == q[i])
  }

  lemma StepGrows(s: Sys, t: Step)
    requires SysInv(s) && Enabled(s, t)
    ensures QueueGrew(s.hub.queue, Next(s, t).hub.queue)
  {
    match t
    case Consume(r, k, c, fault) => ServeQueue(s.hub, r, k, c, fault);
    case PushDelta(_, _) =>
    case Lease(_) =>
    case Ack(acks) => if AckAll(s.hub, acks).Ok? { AckAllSettles(s.hub, acks); }
    case Resend => RedeliveryChangesNothing(s);
    case AckSeen =>
    case Crash =>
  }

  lemma {:induction false} AppliedIsFinal(s: Sys, run: seq<Step>)
    requires SysInv(s) && Legal(s, run)
    ensures QueueGrew(s.hub.queue, After(s, run).hub.queue)
    decreases |run|
  {
    if run != [] {
      StepKeeps(s, run[0]);
      StepGrows(s, run[0]);
      AppliedIsFinal(Next(s, run[0]), run[1..]);
    }
  }

  // ---- One note between two states ----

  /** The batch that frees a conflicted note: all its unfinished rows at once, the last of them applied. */
  ghost predicate Resolves(s: Sys, t: Step, n: NoteId) {
    && t.Ack? && s.bridge.Holding? && AckAll(s.hub, t.acks).Ok? && |t.acks| == |s.bridge.rows|
    && Covers(s.hub.queue, s.bridge.rows, n)
    && exists k | 0 <= k < |t.acks| :: LastRow(s.bridge.rows, n, k) && t.acks[k].applied
  }

  predicate Deletes(h: HubState, t: Step, n: NoteId) {
    t.PushDelta? && n in h.notes && h.notes[n].bearId.Some? && h.notes[n].bearId.value in t.deleted
  }

  lemma LastRowExists(rows: seq<Leased>, n: NoteId) returns (k: Option<nat>)
    ensures match k
            case Some(i) => LastRow(rows, n, i)
            case None => forall a | 0 <= a < |rows| :: rows[a].item.note != Some(n)
  {
    if rows == [] {
      k := None;
    } else if rows[|rows| - 1].item.note == Some(n) {
      k := Some(|rows| - 1);
    } else {
      k := LastRowExists(rows[..|rows| - 1], n);
    }
  }

  lemma AckRowStatus(s: Sys, acks: seq<AckItem>, n: NoteId)
    requires SysInv(s) && Enabled(s, Ack(acks)) && n in s.hub.notes && s.hub.notes[n].status != Synced
    ensures n in Next(s, Ack(acks)).hub.notes
    ensures var v, v2 := s.hub.notes[n], Next(s, Ack(acks)).hub.notes[n];
            (v2.status == Synced <==> Resolves(s, Ack(acks), n)) && (v2.status != Synced ==> v2.status == v.status)
  {
    var h, rows := s.hub, s.bridge.rows;
    if AckAll(h, acks).Ok? {
      var k := LastRowExists(rows, n);
      if k.Some? {
        LastAckDecides(h, rows, acks, n, k.value);
      } else {
        AckAllUntouched(h, acks, n);
      }
    }
  }

  /** A conflicted note leaves that state only when a batch settles all its rows, or when Bear deletes it. */
  lemma ConflictStep(s: Sys, t: Step, n: NoteId)
    requires SysInv(s) && Enabled(s, t) && IsConflicted(s.hub, Some(n))
    ensures var h2 := Next(s, t).hub;
            && (n !in h2.notes <==> Deletes(s.hub, t, n))
            && (n in h2.notes ==> h2.notes[n].status == if Resolves(s, t, n) then Synced else Conflict)
  {
    assert NoteOk(s.hub.notes[n]);
    match t
    case Consume(r, k, c, fault) => ServeConflicts(s.hub, r, k, c, fault, n);
    case PushDelta(ps, deleted) =>
      PushRow(s.hub, ps, deleted, n);
      if i :| 0 <= i < |ps| && Touches(ps[i], s.hub.notes[n]) {
        assert !Deletes(s.hub, t, n) ==> Push(s.hub, ps, deleted).notes[n] == PushedNote(s.hub.notes[n], ps[i]);
      }
    case Lease(_) =>
    case Ack(acks) => AckRowStatus(s, acks, n);
    case Resend => RedeliveryChangesNothing(s);
    case AckSeen =>
    case Crash =>
  }

  ghost predicate Freed(s: Sys, run: seq<Step>, n: NoteId)
    requires Legal(s, run)
    decreases |run|
  {
    run != [] && (Resolves(s, run[0], n) || Deletes(s.hub, run[0], n) || Freed(Next(s, run[0]), run[1..], n))
  }

  /** Conflict is absorbing: through any run in which nothing frees the note, it stays in conflict. */
  lemma {:induction false} ConflictIsAbsorbing(s: Sys, run: seq<Step>, n: NoteId)
    requires SysInv(s) && Legal(s, run) && IsConflicted(s.hub, Some(n)) && !Freed(s, run, n)
    ensures IsConflicted(After(s, run).hub, Some(n))
    decreases |run|
  {
    if run != [] {
      StepKeeps(s, run[0]);
      ConflictStep(s, run[0], n);
      ConflictIsAbsorbing(Next(s, run[0]), run[1..], n);
    }
  }

  predicate NoUnfinished(q: Queue, n: NoteId) { forall j | 0 <= j < |q| :: !UnfinishedFor(q[j], n) }

  /** Consumers cannot queue anything for a conflicted note. */
  lemma ConflictRefusesWrites(h: HubState, r: Request, k: Key, c: Consumer, fault: bool, n: NoteId)
    requires Inv(h) && FreshIds(h, r) && IsConflicted(h, Some(n)) && NoUnfinished(h.queue, n)
    ensures NoUnfinished(Serve(h, r, k, c, fault).0.queue, n)
  {
    ServeEnqueues(h, r, k, c, fault);
    var q2 := Serve(h, r, k, c, fault).0.queue;
    if note, w :| q2 == Enqueue(h.queue, k, c, note, w) && !Answered(h.queue, k, c) && MayTarget(h, r, note) {
      EnqueueForOthers(h.queue, k, c, note, w, n);
    }
  }

  lemma EnqueueForOthers(q: Queue, k: Key, c: Consumer, note: Option<NoteId>, w: Write, n: NoteId)
    requires NoUnfinished(q, n) && note != Some(n) && !Answered(q, k, c)
    ensures NoUnfinished(Enqueue(q, k, c, note, w), n)
  {
    EnqueuePlaces(q, k, c, note, w);
    var q2, i := Enqueue(q, k, c, note, w), Slot(q, k, c, note, w);
    assert forall j | 0 <= j < |q2| && j != i :: q2[j] == q[j];
  }

  ghost predicate EverDeleted(s: Sys, run: seq<Step>, n: NoteId)
    requires Legal(s, run)
    decreases |run|
  {
    run != [] && (Deletes(s.hub, run[0], n) || EverDeleted(Next(s, run[0]), run[1..], n))
  }

  /**
   * A conflicted note whose rows have all finished, say because the write failed before the conflict arose, can only
   * be deleted: no run that keeps the note ever ends the conflict or queues anything for it again.
   */
  lemma {:induction false} DrainedConflictIsPermanent(s: Sys, run: seq<Step>, n: NoteId)
    requires SysInv(s) && Legal(s, run) && IsConflicted(s.hub, Some(n)) && NoUnfinished(s.hub.queue, n)
    requires !EverDeleted(s, run, n)
    ensures IsConflicted(After(s, run).hub, Some(n)) && NoUnfinished(After(s, run).hub.queue, n)
    decreases |run|
  {
    if run != [] {
      var t, s2 := run[0], Next(s, run[0]);
      StepKeeps(s, t);
      ConflictStep(s, t, n);
      match t {
        case Consume(r, k, c, fault) => ConflictRefusesWrites(s.hub, r, k, c, fault, n);
        case PushDelta(_, _) =>
        case Lease(_) =>
        case Ack(acks) =>
          if AckAll(s.hub, acks).Ok? { AckAllSettles(s.hub, acks); }
          forall a | 0 <= a < |s.bridge.rows| ensures s.bridge.rows[a].item.note != Some(n) {
            assert !UnfinishedFor(s.hub.queue[s.bridge.rows[a].id], n);
          }
        case Resend => RedeliveryChangesNothing(s);
        case AckSeen =>
        case Crash =>
      }
      assert !Resolves(s, t, n);
      DrainedConflictIsPermanent(s2, run[1..], n);
    }
  }

  /** The entry's stamp is neither the one the hub expects nor the one it has. */
  predicate NewStamp(p: PushNote, v: Note) {
    p.modifiedAt.Some? && v.modifiedAt.Some? && p.modifiedAt != v.modifiedAt && p.modifiedAt != v.expected
  }

  /** Title or body differ from the snapshot on Bear's side and on the hub's. */
  predicate Diverged(p: PushNote, v: Note) {
    || (Some(p.title) != v.pendTitle && Some(v.title) != v.pendTitle)
    || (Some(p.body) != v.pendBody && Some(v.body) != v.pendBody)
  }

  /** And that is where a note ends whose write failed, once the same text moves on Bear's side. */
  lemma FailedWriteThenConflict(h: HubState, ps: seq<PushNote>, deleted: set<BearId>, n: NoteId, i: nat)
    requires Inv(h) && FreshPush(h, ps)
    requires n in h.notes && h.notes[n].status == PendingToBear && NoUnfinished(h.queue, n)
    requires i < |ps| && Touches(ps[i], h.notes[n]) && ps[i].bearId.value !in deleted
    ensures var v, h2 := h.notes[n], Push(h, ps, deleted);
            && NoUnfinished(h2.queue, n)
            && (IsConflicted(h2, Some(n)) <==> NewStamp(ps[i], v) && Diverged(ps[i], v))
  {
    PushRow(h, ps, deleted, n);
    assert n in Push(h, ps, deleted).notes && NoteOk(h.notes[n]);
    forall j | 0 <= j < |h.queue| ensures !UnfinishedFor(Push(h, ps, deleted).queue[j], n) {
      assert !UnfinishedFor(h.queue[j], n);
    }
  }

  lemma StepKeepsBearId(s: Sys, t: Step, n: NoteId)
    requires SysInv(s) && Enabled(s, t) && n in s.hub.notes && s.hub.notes[n].bearId.Some? && !Deletes(s.hub, t, n)
    ensures n in Next(s, t).hub.notes && Next(s, t).hub.notes[n].bearId == s.hub.notes[n].bearId
  {
    match t
    case Consume(r, k, c, fault) => ServeRow(s.hub, r, k, c, fault, n);
    case PushDelta(ps, deleted) =>
      PushRow(s.hub, ps, deleted, n);
      if i :| 0 <= i < |ps| && Touches(ps[i], s.hub.notes[n]) {
        assert Push(s.hub, ps, deleted).notes[n] == PushedNote(s.hub.notes[n], ps[i]);
      }
    case Lease(_) =>
    case Ack(acks) => if AckAll(s.hub, acks).Ok? { AckAllRow(s.hub, s.bridge.rows, acks, n); }
    case Resend => RedeliveryChangesNothing(s);
    case AckSeen =>
    case Crash =>
  }

  /** bear_id is written once: until Bear deletes the note, it exists and keeps the Bear note it got. */
  lemma {:induction false} BearIdIsPermanent(s: Sys, run: seq<Step>, n: NoteId)
    requires SysInv(s) && Legal(s, run) && n in s.hub.notes && s.hub.notes[n].bearId.Some? && !EverDeleted(s, run, n)
    ensures n in After(s, run).hub.notes && After(s, run).hub.notes[n].bearId == s.hub.notes[n].bearId
    decreases |run|
  {
    if run != [] {
      StepKeeps(s, run[0]);
      StepKeepsBearId(s, run[0], n);
      BearIdIsPermanent(Next(s, run[0]), run[1..], n);
    }
  }

  // ---- Snapshots ----

  /** The title and body each note had when it was last synced. */
  type Base = map<NoteId, (string, string)>

  ghost function Track(base: Base, h: HubState, h2: HubState): Base {
    map n | n in h2.notes && ((n in h.notes && h.notes[n].status == Synced) || n in base) ::
      if n in h.notes && h.notes[n].status == Synced then (h.notes[n].title, h.notes[n].body) else base[n]
  }

  ghost function TrackRun(s: Sys, base: Base, run: seq<Step>): Base
    requires Legal(s, run)
    decreases |run|
  {
    if run == [] then base else TrackRun(Next(s, run[0]), Track(base, s.hub, Next(s, run[0]).hub), run[1..])
  }

  predicate SnapshotIs(v: Note, b: (string, string)) { v.pendTitle == Some(b.0) && v.pendBody == Some(b.1) }

  predicate BaseOk(base: Base, h: HubState) {
    forall n | n in h.notes && h.notes[n].status == PendingToBear && h.notes[n].bearId.Some? ::
      n in base && SnapshotIs(h.notes[n], base[n])
  }

  lemma StepKeepsBase(s: Sys, t: Step, base: Base)
    requires SysInv(s) && Enabled(s, t) && BaseOk(base, s.hub)
    ensures BaseOk(Track(base, s.hub, Next(s, t).hub), Next(s, t).hub)
  {
    var h2 := Next(s, t).hub;
    var base2 := Track(base, s.hub, h2);
    forall n | n in h2.notes && h2.notes[n].status == PendingToBear && h2.notes[n].bearId.Some?
      ensures n in base2 && SnapshotIs(h2.notes[n], base2[n])
    {
      if n in s.hub.notes { assert NoteOk(s.hub.notes[n]); }
      match t {
        case Consume(r, k, c, fault) => ServeRow(s.hub, r, k, c, fault, n);
        case PushDelta(ps, deleted) =>
          PushRow(s.hub, ps, deleted, n);
          if n in s.hub.notes {
            if i :| 0 <= i < |ps| && Touches(ps[i], s.hub.notes[n]) {
              assert h2.notes[n] == PushedNote(s.hub.notes[n], ps[i]);
            }
          }
        case Lease(_) =>
        case Ack(acks) => if AckAll(s.hub, acks).Ok? { AckAllRow(s.hub, s.bridge.rows, acks, n); }
        case Resend => RedeliveryChangesNothing(s);
        case AckSeen =>
        case Crash =>
      }
    }
  }

  /** Over every run, an unsynced note's snapshot is what it held when it was last synced. */
  lemma {:induction false} SnapshotIsExact(s: Sys, base: Base, run: seq<Step>)
    requires SysInv(s) && Legal(s, run) && BaseOk(base, s.hub)
    ensures BaseOk(TrackRun(s, base, run), After(s, run).hub)
    decreases |run|
  {
    if run != [] {
      StepKeeps(s, run[0]);
      StepKeepsBase(s, run[0], base);
      SnapshotIsExact(Next(s, run[0]), Track(base, s.hub, Next(s, run[0]).hub), run[1..]);
    }
  }

  /** Both Bear and a consumer moved this field away from what it was when last synced. */
  predicate BothChanged(bear: string, hub: string, base: string) { bear != base && hub != base }

  /**
   * After any run, a push of an unsynced note raises a conflict exactly when it is no echo, its stamp moved, and the
   * title or the body was changed on both sides since the note was last synced.
   */
  lemma ConflictIffBothChanged(run: seq<Step>, ps: seq<PushNote>, deleted: set<BearId>, n: NoteId, i: nat)
    requires Legal(START, run) && Enabled(After(START, run), PushDelta(ps, deleted))
    requires var h := After(START, run).hub;
             && n in h.notes && h.notes[n].status == PendingToBear
             && i < |ps| && Touches(ps[i], h.notes[n]) && ps[i].bearId.value !in deleted
    ensures var h, base, p := After(START, run).hub, TrackRun(START, map[], run), ps[i];
            var v := h.notes[n];
            && n in base && n in Push(h, ps, deleted).notes
            && (Push(h, ps, deleted).notes[n].status == Conflict <==>
                  && NewStamp(p, v)
                  && (BothChanged(p.title, v.title, base[n].0) || BothChanged(p.body, v.body, base[n].1)))
  {
    Reachable(run);
    SnapshotIsExact(START, map[], run);
    PushRow(After(START, run).hub, ps, deleted, n);
  }

  // ---- Echoes ----

  /** The row knows the stamp m of the hub's own write: as the one it expects, or as the one it has seen. */
  predicate KnowsEcho(v: Note, m: nat) { v.status != Conflict && (v.expected == Some(m) || v.modifiedAt == Some(m)) }

  /** Pushes of this Bear note carry the stamp m and do not delete it; no row of the note is applied. */
  ghost predicate Quiet(s: Sys, t: Step, n: NoteId, b: BearId, m: nat) {
    match t
    case PushDelta(ps, deleted) =>
      b !in deleted && forall i | 0 <= i < |ps| && ps[i].bearId == Some(b) :: ps[i].modifiedAt == Some(m)
    case Ack(acks) =>
      forall a | 0 <= a < |acks| && acks[a].applied && acks[a].id < |s.hub.queue| ::
          s.hub.queue[acks[a].id].note != Some(n)
    case _ => true
  }

  ghost predicate QuietRun(s: Sys, run: seq<Step>, n: NoteId, b: BearId, m: nat)
    requires Legal(s, run)
    decreases |run|
  {
    run == [] || (Quiet(s, run[0], n, b, m) && QuietRun(Next(s, run[0]), run[1..], n, b, m))
  }

  predicate EchoSafe(h: HubState, n: NoteId, b: BearId, m: nat) {
    n in h.notes && h.notes[n].bearId == Some(b) && KnowsEcho(h.notes[n], m)
  }

  lemma EchoStep(s: Sys, t: Step, n: NoteId, b: BearId, m: nat)
    requires SysInv(s) && Enabled(s, t) && EchoSafe(s.hub, n, b, m) && Quiet(s, t, n, b, m)
    ensures EchoSafe(Next(s, t).hub, n, b, m)
  {
    match t
    case Consume(r, k, c, fault) => ServeRow(s.hub, r, k, c, fault, n);
    case PushDelta(ps, deleted) =>
      PushRow(s.hub, ps, deleted, n);
      if i :| 0 <= i < |ps| && Touches(ps[i], s.hub.notes[n]) {
        assert Push(s.hub, ps, deleted).notes[n] == PushedNote(s.hub.notes[n], ps[i]);
      }
    case Lease(_) =>
    case Ack(acks) => if AckAll(s.hub, acks).Ok? { AckAllUntouched(s.hub, acks, n); }
    case Resend => RedeliveryChangesNothing(s);
    case AckSeen =>
    case Crash =>
  }

  /** Echo suppression: pushes of our own write never raise a conflict, whatever consumers do in between. */
  lemma {:induction false} EchoesNeverConflict(s: Sys, run: seq<Step>, n: NoteId, b: BearId, m: nat)
    requires SysInv(s) && Legal(s, run) && EchoSafe(s.hub, n, b, m) && QuietRun(s, run, n, b, m)
    ensures EchoSafe(After(s, run).hub, n, b, m)
    decreases |run|
  {
    if run != [] {
      StepKeeps(s, run[0]);
      EchoStep(s, run[0], n, b, m);
      EchoesNeverConflict(Next(s, run[0]), run[1..], n, b, m);
    }
  }
}
