/** The whole write path as a state machine: consumers, one bridge that pushes, leases and acks, and crashes. */
module Protocol {
  import opened Model
  import opened Store
  import opened Handlers
  import opened Invariant

  /** The bridge between two of its requests. Resending: its ack committed but the reply may not have arrived. */
  datatype Bridge = Idle | Holding(rows: seq<Leased>) | Resending(acks: seq<AckItem>)

  datatype Sys = Sys(hub: HubState, bridge: Bridge)

  datatype Step =
    | Consume(r: Request, k: Key, c: Consumer, fault: bool)
    | PushDelta(ps: seq<PushNote>, deleted: set<BearId>)
    | Lease(now: nat)
    | Ack(acks: seq<AckItem>)
    | Resend
    | AckSeen
    | Crash

  /** One ack for each leased row, in lease order, of the kind the bridge sends for it. */
  predicate AckFor(rows: seq<Leased>, acks: seq<AckItem>) {
    && |acks| == |rows|
    && forall a | 0 <= a < |rows| :: acks[a].id == rows[a].id && Reports(rows[a].item, rows[a].noteStatus, acks[a])
  }

  ghost predicate Enabled(s: Sys, t: Step) {
    match t
    case Consume(r, _, _, _) => FreshIds(s.hub, r)
    case PushDelta(ps, _) => s.bridge.Idle? && FreshPush(s.hub, ps)
    case Lease(_) => s.bridge.Idle?
    case Ack(acks) => s.bridge.Holding? && AckFor(s.bridge.rows, acks)
    case Resend => s.bridge.Resending?
    case AckSeen => s.bridge.Resending?
    case Crash => true
  }

  ghost function Next(s: Sys, t: Step): Sys
    requires Enabled(s, t)
  {
    match t
    case Consume(r, k, c, fault) => s.(hub := Serve(s.hub, r, k, c, fault).0)
    case PushDelta(ps, deleted) => s.(hub := Push(s.hub, ps, deleted))
    case Lease(now) => Sys(s.hub.(queue := LeaseQueue(s.hub.queue, now)), Holding(LeaseRows(s.hub, now)))
    case Ack(acks) =>
      var (h, reply) := SyncAck(s.hub, acks);
      Sys(h, if reply == Done then Resending(acks) else Idle)
    case Resend => s.(hub := SyncAck(s.hub, s.bridge.acks).0)
    case AckSeen => s.(bridge := Idle)
    case Crash => s.(bridge := Idle)
  }

  /** Every step of the run is possible where it is taken. */
  ghost predicate Legal(s: Sys, run: seq<Step>)
    decreases |run|
  {
    run == [] || (Enabled(s, run[0]) && Legal(Next(s, run[0]), run[1..]))
  }

  ghost function After(s: Sys, run: seq<Step>): Sys
    requires Legal(s, run)
    decreases |run|
  {
    if run == [] then s else After(Next(s, run[0]), run[1..])
  }

  const START: Sys := Sys(HubState(map[], [], {}), Idle)

  // ---- The invariant of the system ----

  predicate IsConflicted(h: HubState, note: Option<NoteId>) { StatusOf(h.notes, note) == Some(Conflict) }

  /** The rows in flight are the queue's own rows, unchanged, and the joined status still tells conflict apart. */
  predicate InFlight(h: HubState, rows: seq<Leased>) {
    && (forall a, b | 0 <= a < b < |rows| :: rows[a].id != rows[b].id)
    && (forall a | 0 <= a < |rows| ::
          && rows[a].id < |h.queue|
          && h.queue[rows[a].id] == rows[a].item
          && rows[a].item.status == Processing
          && (rows[a].noteStatus == Some(Conflict) <==> IsConflicted(h, rows[a].item.note)))
  }

  /** Nothing the batch names is being processed, and its uploads are gone. */
  predicate Settled(h: HubState, acks: seq<AckItem>) {
    && (forall k | 0 <= k < |acks| :: !AckTakesEffect(h.queue, acks[k]))
    && Cleaned(h.queue, acks) !! h.blobs
  }

  ghost predicate SysInv(s: Sys) {
    && Inv(s.hub)
    && (s.bridge.Holding? ==> InFlight(s.hub, s.bridge.rows))
    && (s.bridge.Resending? ==> Settled(s.hub, s.bridge.acks))
  }

  // ---- Consumer steps ----

  /** A consumer request leaves rows that are not pending or failed alone, and makes none processing or applied. */
  predicate QueueServed(q: Queue, q2: Queue) {
    && |q| <= |q2|
    && (forall i | 0 <= i < |q| :: q2[i].key == q[i].key && q2[i].consumer == q[i].consumer)
    && (forall i | 0 <= i < |q| && q[i].status != Pending && q[i].status != Failed :: q2[i] == q[i])
    && (forall i | 0 <= i < |q2| && (q2[i].status == Processing || q2[i].status == Applied) ::
          i < |q| && q2[i] == q[i])
  }

  lemma EnqueueServed(q: Queue, k: Key, c: Consumer, note: Option<NoteId>, w: Write)
    ensures QueueServed(q, Enqueue(q, k, c, note, w))
  {
  }

  /** What a request may enqueue: for its own new note, or for no note, or for one that is not in conflict. */
  predicate MayTarget(h: HubState, r: Request, note: Option<NoteId>) {
    note.Some? ==>
      if r.CreateNote? then note.value == r.id
      else note.value in h.notes && h.notes[note.value].status != Conflict && h.notes[note.value].bearId.Some?
  }

  /** The queue after a request: untouched, one enqueue, or one pending create rewritten. */
  lemma ServeEnqueues(h: HubState, r: Request, k: Key, c: Consumer, fault: bool)
    ensures var q2 := Serve(h, r, k, c, fault).0.queue;
            || q2 == h.queue
            || (exists note, w ::
                  q2 == Enqueue(h.queue, k, c, note, w) && !Answered(h.queue, k, c) && MayTarget(h, r, note))
            || (r.UpdateNote? && CoalesceCreate(h.queue, k, c, r.note, r.body) == Some(q2))
  {
    if r.UpdateNote? && r.note in h.notes && h.notes[r.note].bearId.Some? {
      assert MayTarget(h, r, Some(r.note)) <==> h.notes[r.note].status != Conflict;
    }
  }

  lemma ServeQueue(h: HubState, r: Request, k: Key, c: Consumer, fault: bool)
    ensures QueueServed(h.queue, Serve(h, r, k, c, fault).0.queue)
  {
    ServeEnqueues(h, r, k, c, fault);
    var q2 := Serve(h, r, k, c, fault).0.queue;
    if note, w :| q2 == Enqueue(h.queue, k, c, note, w) {
      EnqueueServed(h.queue, k, c, note, w);
    }
  }

  lemma CreateConflicts(h: HubState, r: Request, k: Key, c: Consumer, fault: bool, n: NoteId)
    requires Inv(h) && FreshIds(h, r) && r.CreateNote?
    ensures IsConflicted(CreateStep(h, r, k, c, fault).0, Some(n)) <==> IsConflicted(h, Some(n))
  {
    if n in h.notes { assert NoteOk(h.notes[n]); }
    var f := Find(h.queue, ByKey(k, c));
    if f.Some? { assert ItemOk(h.queue[f.value], h.notes, h.blobs); }
  }

  lemma ServeConflicts(h: HubState, r: Request, k: Key, c: Consumer, fault: bool, n: NoteId)
    requires Inv(h) && FreshIds(h, r)
    ensures var h2 := Serve(h, r, k, c, fault).0; IsConflicted(h2, Some(n)) <==> IsConflicted(h, Some(n))
  {
    if r.CreateNote? { CreateConflicts(h, r, k, c, fault, n); }
  }

  lemma ServeKeepsFlight(h: HubState, rows: seq<Leased>, r: Request, k: Key, c: Consumer, fault: bool)
    requires Inv(h) && FreshIds(h, r) && InFlight(h, rows)
    ensures InFlight(Serve(h, r, k, c, fault).0, rows)
  {
    ServeQueue(h, r, k, c, fault);
    forall a | 0 <= a < |rows| && rows[a].item.note.Some?
      ensures IsConflicted(Serve(h, r, k, c, fault).0, rows[a].item.note) <==> IsConflicted(h, rows[a].item.note)
    {
      ServeConflicts(h, r, k, c, fault, rows[a].item.note.value);
    }
  }

  lemma ServeKeepsSettled(h: HubState, acks: seq<AckItem>, r: Request, k: Key, c: Consumer, fault: bool)
    requires Inv(h) && FreshIds(h, r) && Settled(h, acks)
    ensures Settled(Serve(h, r, k, c, fault).0, acks)
  {
    ServeQueue(h, r, k, c, fault);
    var h2 := Serve(h, r, k, c, fault).0;
    assert Cleaned(h2.queue, acks) <= Cleaned(h.queue, acks);
    forall b | b in h2.blobs ensures b !in Cleaned(h.queue, acks) {
      if b !in h.blobs { assert r.AttachFile? && b == r.blob; }
    }
  }

  // ---- Leases ----

  lemma LeaseInFlight(h: HubState, now: nat)
    requires Inv(h)
    ensures InFlight(h.(queue := LeaseQueue(h.queue, now)), LeaseRows(h, now))
  {
  }

  // ---- Acks ----

  /** Acking one row leaves the other rows in flight as they are. */
  lemma AckOneKeepsFlight(h: HubState, rows: seq<Leased>, a: AckItem)
    requires Inv(h) && rows != [] && InFlight(h, rows)
    requires a.id == rows[0].id && Reports(rows[0].item, rows[0].noteStatus, a)
    requires AckOne(h, a).Ok?
    ensures InFlight(AckOne(h, a).value, rows[1..])
  {
    var h2, rest := AckOne(h, a).value, rows[1..];
    assert ItemOk(h.queue[a.id], h.notes, h.blobs);
    forall b | 0 <= b < |rest|
      ensures rest[b].noteStatus == Some(Conflict) <==> IsConflicted(h2, rest[b].item.note)
    {
      var j := rows[b + 1].id;
      assert rest[b] == rows[b + 1] && j != a.id;
      if a.applied && rest[b].item.note == h.queue[a.id].note && rest[b].item.note.Some? {
        assert UnfinishedFor(h2.queue[j], rest[b].item.note.value);
      }
    }
  }

  lemma {:induction false} AckAllKeeps(h: HubState, rows: seq<Leased>, acks: seq<AckItem>)
    requires Inv(h) && InFlight(h, rows) && AckFor(rows, acks)
    requires AckAll(h, acks).Ok?
    ensures Inv(AckAll(h, acks).value)
    decreases |acks|
  {
    if acks != [] {
      AckStatusMatches(h, rows[0], acks[0]);
      AckOneKeeps(h, acks[0]);
      AckOneKeepsFlight(h, rows, acks[0]);
      AckAllKeeps(AckOne(h, acks[0]).value, rows[1..], acks[1..]);
    }
  }

  lemma AckStatusMatches(h: HubState, row: Leased, a: AckItem)
    requires row.noteStatus == Some(Conflict) <==> IsConflicted(h, row.item.note)
    requires Reports(row.item, row.noteStatus, a)
    ensures Reports(row.item, StatusOf(h.notes, row.item.note), a)
  {
  }

  /** After a committed batch none of its rows is being processed. */
  lemma {:induction false} AckAllSettles(h: HubState, acks: seq<AckItem>)
    requires AckAll(h, acks).Ok?
    ensures var h2 := AckAll(h, acks).value;
            && |h2.queue| == |h.queue| && h2.blobs == h.blobs
            && (forall k | 0 <= k < |acks| :: !AckTakesEffect(h2.queue, acks[k]))
            && (forall j | 0 <= j < |h.queue| ::
                  h2.queue[j] == h.queue[j]
                  || (h.queue[j].status == Processing
                      && h2.queue[j] == h.queue[j].(status := h2.queue[j].status)
                      && !h2.queue[j].Unfinished()))
    decreases |acks|
  {
    if acks != [] {
      var h1 := AckOne(h, acks[0]).value;
      AckAllSettles(h1, acks[1..]);
      forall k | 0 <= k < |acks| ensures !AckTakesEffect(AckAll(h, acks).value.queue, acks[k]) {
        if k > 0 { assert acks[k] == acks[1..][k - 1]; }
      }
    }
  }

  predicate Distinct(acks: seq<AckItem>) { forall a, b | 0 <= a < b < |acks| :: acks[a].id != acks[b].id }

  predicate Named(acks: seq<AckItem>, j: nat) { exists k | 0 <= k < |acks| :: acks[k].id == j }

  function AckedItem(x: Item, a: AckItem): Item { x.(status := if a.applied then Applied else Failed) }

  /** And each of its rows ends as its ack says, while rows it does not name stay as they are. */
  lemma {:induction false} AckAllFinishes(h: HubState, acks: seq<AckItem>)
    requires AckAll(h, acks).Ok? && Distinct(acks)
    ensures var q2 := AckAll(h, acks).value.queue;
            && |q2| == |h.queue|
            && (forall k | 0 <= k < |acks| && AckTakesEffect(h.queue, acks[k]) ::
                  q2[acks[k].id] == AckedItem(h.queue[acks[k].id], acks[k]))
            && (forall j | 0 <= j < |h.queue| && !Named(acks, j) :: q2[j] == h.queue[j])
    decreases |acks|
  {
    if acks != [] {
      var a, h1, rest := acks[0], AckOne(h, acks[0]).value, acks[1..];
      AckAllFinishes(h1, rest);
      var q2 := AckAll(h1, rest).value.queue;
      assert !Named(rest, a.id);
      forall k | 0 <= k < |acks| && AckTakesEffect(h.queue, acks[k])
        ensures q2[acks[k].id] == AckedItem(h.queue[acks[k].id], acks[k])
      {
        if k > 0 { assert acks[k] == rest[k - 1] && AckTakesEffect(h1.queue, rest[k - 1]); }
      }
      forall j | 0 <= j < |h.queue| && !Named(acks, j) ensures q2[j] == h.queue[j] {
        assert acks[0].id != j && forall k | 0 <= k < |rest| :: rest[k] == acks[k + 1];
      }
    }
  }

  /** Only a bear_id that another note has, or for which the note is gone, makes the hub reject a batch. */
  lemma {:induction false} NoBirthCommits(h: HubState, acks: seq<AckItem>)
    requires forall k | 0 <= k < |acks| :: acks[k].applied && acks[k].bearId.Some? ==> acks[k].conflictResolved
    ensures AckAll(h, acks).Ok?
    decreases |acks|
  {
    if acks != [] {
      assert AckOne(h, acks[0]).Ok?;
      NoBirthCommits(AckOne(h, acks[0]).value, acks[1..]);
    }
  }

  lemma {:induction false} SettledAckIsNoOp(h: HubState, acks: seq<AckItem>)
    requires forall k | 0 <= k < |acks| :: !AckTakesEffect(h.queue, acks[k])
    ensures AckAll(h, acks) == Ok(h)
    decreases |acks|
  {
    if acks != [] { SettledAckIsNoOp(h, acks[1..]); }
  }

  /** Redelivering a committed batch, however many consumer requests came between, changes no note, row or upload. */
  lemma RedeliveryChangesNothing(s: Sys)
    requires SysInv(s) && s.bridge.Resending?
    ensures SyncAck(s.hub, s.bridge.acks) == (s.hub, Done)
  {
    SettledAckIsNoOp(s.hub, s.bridge.acks);
    assert s.hub.blobs - Cleaned(s.hub.queue, s.bridge.acks) == s.hub.blobs;
  }

  /** A committed batch takes the uploads of the attachment rows it applied off the disk, all of them and no others. */
  lemma CleanupIsExact(h: HubState, rows: seq<Leased>, acks: seq<AckItem>, b: BlobId)
    requires InFlight(h, rows) && AckFor(rows, acks) && AckAll(h, acks).Ok?
    ensures b in SyncAck(h, acks).0.blobs <==>
              b in h.blobs
              && forall k | 0 <= k < |rows| && rows[k].item.write.AddFile? && rows[k].item.write.blob == b ::
                   !acks[k].applied
  {
    AckAllSettles(h, acks);
    AckAllFinishes(h, acks);
    var q2 := AckAll(h, acks).value.queue;
    forall k | 0 <= k < |rows|
      ensures acks[k].id == rows[k].id && q2[rows[k].id] == AckedItem(rows[k].item, acks[k])
    {
      assert AckTakesEffect(h.queue, acks[k]);
    }
    forall k | 0 <= k < |rows| && rows[k].item.write.AddFile? && acks[k].applied
      ensures rows[k].item.write.blob in Cleaned(q2, acks)
    {
      assert q2[acks[k].id].write == rows[k].item.write && q2[acks[k].id].status == Applied;
    }
    if b in Cleaned(q2, acks) {
      var k :| 0 <= k < |acks| && acks[k].applied && q2[acks[k].id].write.AddFile? && q2[acks[k].id].write.blob == b;
      assert rows[k].item.write.AddFile?;
    }
  }

  lemma AckStepKeeps(s: Sys, acks: seq<AckItem>)
    requires SysInv(s) && Enabled(s, Ack(acks))
    ensures SysInv(Next(s, Ack(acks)))
  {
    if AckAll(s.hub, acks).Ok? {
      AckAllKeeps(s.hub, s.bridge.rows, acks);
      AckAllSettles(s.hub, acks);
      CleanupKeeps(AckAll(s.hub, acks).value, acks);
    }
  }

  // ---- Every step, every run ----

  lemma StepKeeps(s: Sys, t: Step)
    requires SysInv(s) && Enabled(s, t)
    ensures SysInv(Next(s, t))
  {
    match t
    case Consume(r, k, c, fault) =>
      ServeKeeps(s.hub, r, k, c, fault);
      if s.bridge.Holding? { ServeKeepsFlight(s.hub, s.bridge.rows, r, k, c, fault); }
      if s.bridge.Resending? { ServeKeepsSettled(s.hub, s.bridge.acks, r, k, c, fault); }
    case PushDelta(ps, deleted) => PushKeeps(s.hub, ps, deleted);
    case Lease(now) => LeaseKeeps(s.hub, now); LeaseInFlight(s.hub, now);
    case Ack(acks) => AckStepKeeps(s, acks);
    case Resend => RedeliveryChangesNothing(s);
    case AckSeen =>
    case Crash =>
  }

  lemma {:induction false} RunKeeps(s: Sys, run: seq<Step>)
    requires SysInv(s) && Legal(s, run)
    ensures SysInv(After(s, run))
    decreases |run|
  {
    if run != [] {
      StepKeeps(s, run[0]);
      RunKeeps(Next(s, run[0]), run[1..]);
    }
  }
}
