/** When each note has one writing consumer and no lease is lost, Bear ends with the last accepted PUT. */
module SoleWriter {
  import opened Model
  import opened Store
  import opened Handlers
  import opened Invariant
  import opened Protocol
  import opened NoteHistory
  import opened BearBridge
  import opened LeaseOrder
  import opened Coalescing

  type Owner = NoteId -> Consumer

  /** PUTs come from the note's one writer, no key of a failed row is used again, no batch is lost or rolled back. */
  ghost predicate Calm(s: Sys, t: Step, owner: Owner) {
    match t
    case Consume(r, k, c, _) =>
      && (r.UpdateNote? ==> c == owner(r.note))
      && var f := Find(s.hub.queue, ByKey(k, c)); f.Some? ==> s.hub.queue[f.value].status != Failed
    case Ack(acks) => AckAll(s.hub, acks).Ok?
    case Crash => !s.bridge.Holding?
    case _ => true
  }

  predicate NoPendingUpdate(q: Queue, n: NoteId) { forall j | 0 <= j < |q| :: !PendingUpdateOf(q[j], n) }

  /** Row i is the note's newest update: pending, or being processed with nothing pending behind it. */
  predicate Newest(q: Queue, n: NoteId, i: nat) {
    i < |q| && UpdateOf(q[i], n) && (q[i].status == Pending || NoPendingUpdate(q, n))
  }

  predicate OwnedRow(x: Item, owner: Owner) {
    x.Unfinished() && x.write.Update? && x.note.Some? ==> x.consumer == owner(x.note.value)
  }

  predicate Single(x: Item, y: Item) {
    !(x.Unfinished() && x.write.Update? && y.write.Update? && x.note == y.note && x.status == y.status)
  }

  /** The newest unfinished update of an unsynced note carries exactly the hub's body. */
  predicate Carried(h: HubState) {
    forall n, i | n in h.notes && h.notes[n].status == PendingToBear && 0 <= i < |h.queue| && Newest(h.queue, n, i) ::
      h.queue[i].write.body == h.notes[n].body
  }

  predicate CalmHub(h: HubState, owner: Owner) {
    && (forall i | 0 <= i < |h.queue| :: OwnedRow(h.queue[i], owner))
    && (forall i, j | 0 <= i < |h.queue| && 0 <= j < |h.queue| && i != j :: Single(h.queue[i], h.queue[j]))
    && Carried(h)
  }

  predicate OnlyInFlight(s: Sys) {
    forall i | 0 <= i < |s.hub.queue| && s.hub.queue[i].status == Processing ::
      s.bridge.Holding? && InBatch(s.bridge.rows, i)
  }

  ghost predicate CalmInv(s: Sys, owner: Owner) { SysInv(s) && CalmHub(s.hub, owner) && OnlyInFlight(s) }

  // ---- Requests ----

  /** Rows that are not updates may come, and notes without unfinished updates may change, freely. */
  lemma OtherRowsKeepCalm(h: HubState, h2: HubState, owner: Owner)
    requires CalmHub(h, owner)
    requires |h.queue| <= |h2.queue|
    requires forall i | 0 <= i < |h2.queue| && h2.queue[i].write.Update? && h2.queue[i].Unfinished() ::
               i < |h.queue| && h2.queue[i] == h.queue[i]
    requires forall i | 0 <= i < |h.queue| && h.queue[i].write.Update? && h.queue[i].status == Pending ::
        h2.queue[i] == h.queue[i]
    requires forall n, i | n in h2.notes && h2.notes[n].status == PendingToBear
                           && 0 <= i < |h.queue| && UpdateOf(h.queue[i], n) ::
               n in h.notes && h.notes[n].status == PendingToBear && h2.notes[n].body == h.notes[n].body
    ensures CalmHub(h2, owner)
  {
    var q, q2 := h.queue, h2.queue;
    forall i, j | 0 <= i < |q2| && 0 <= j < |q2| && i != j ensures Single(q2[i], q2[j]) {
      if q2[i].Unfinished() && q2[i].write.Update? && q2[j].write.Update? && q2[j].Unfinished() {
        assert Single(q[i], q[j]);
      }
    }
    assert forall n, j | 0 <= j < |q| && PendingUpdateOf(q[j], n) :: PendingUpdateOf(q2[j], n);
    forall n, i | n in h2.notes && h2.notes[n].status == PendingToBear && 0 <= i < |q2| && Newest(q2, n, i)
      ensures q2[i].write.body == h2.notes[n].body
    {
      assert UpdateOf(q[i], n);
      assert Newest(q, n, i);
    }
  }

  /** A sole writer's PUT lands in the note's only pending update. */
  predicate PutRows(q: Queue, q2: Queue, slot: nat, n: NoteId, c: Consumer, body: string) {
    && |q| <= |q2| <= |q| + 1 && slot < |q2| && (|q2| == |q| + 1 ==> slot == |q|)
    && (forall j | 0 <= j < |q| && j != slot :: q2[j] == q[j])
    && PendingUpdateOf(q2[slot], n) && q2[slot].write.body == body && q2[slot].consumer == c
    && (forall j | 0 <= j < |q| && j != slot :: !PendingUpdateOf(q[j], n))
    && (slot < |q| ==> PendingUpdateOf(q[slot], n))
  }

  /** The note's pending update, if there is one, is what the coalescing search finds, and the only one. */
  lemma SoleTarget(q: Queue, n: NoteId, c: Consumer, owner: Owner)
    requires (forall i | 0 <= i < |q| :: OwnedRow(q[i], owner)) && c == owner(n)
    requires forall i, j | 0 <= i < |q| && 0 <= j < |q| && i != j :: Single(q[i], q[j])
    ensures var f := Find(q, PendingUpdate(n, c));
            && (f.Some? ==> PendingUpdateOf(q[f.value], n))
            && forall j | 0 <= j < |q| && PendingUpdateOf(q[j], n) :: f == Some(j)
  {
    var f := Find(q, PendingUpdate(n, c));
    forall j | 0 <= j < |q| && PendingUpdateOf(q[j], n) ensures Matches(q[j], PendingUpdate(n, c)) {
      assert OwnedRow(q[j], owner);
    }
    if f.Some? {
      forall j | 0 <= j < |q| && j != f.value ensures !PendingUpdateOf(q[j], n) {
        assert Single(q[j], q[f.value]);
      }
    }
  }

  /** An update under a new key is appended or merged into the pending update the search finds. */
  lemma NewKeySlot(q: Queue, n: NoteId, w: Write, k: Key, c: Consumer)
    requires Find(q, ByKey(k, c)).None? && w.Update?
    ensures var f, q2 := Find(q, PendingUpdate(n, c)), Enqueue(q, k, c, Some(n), w);
            && Slot(q, k, c, Some(n), w) == (if f.Some? then f.value else |q|)
            && q2 == if f.Some? then q[f.value := q[f.value].(write := w, secondary := Some(k))]
                     else q + [Fresh(k, c, Some(n), w)]
  {
  }

  lemma LandsAlone(q: Queue, f: Option<nat>, n: NoteId, w: Write, k: Key, c: Consumer)
    requires w.Update? && (f.Some? ==> f.value < |q| && PendingUpdateOf(q[f.value], n) && q[f.value].consumer == c)
    requires forall j | 0 <= j < |q| && PendingUpdateOf(q[j], n) :: f == Some(j)
    ensures var slot := if f.Some? then f.value else |q|;
            var q2 := if f.Some? then q[slot := q[slot].(write := w, secondary := Some(k))]
                      else q + [Fresh(k, c, Some(n), w)];
            PutRows(q, q2, slot, n, c, w.body)
  {
  }

  lemma PutLandsAlone(q: Queue, n: NoteId, b: BearId, body: string, k: Key, c: Consumer, owner: Owner)
    requires (forall i | 0 <= i < |q| :: OwnedRow(q[i], owner)) && c == owner(n)
    requires forall i, j | 0 <= i < |q| && 0 <= j < |q| && i != j :: Single(q[i], q[j])
    requires Find(q, ByKey(k, c)).None?
    ensures var w := Update(body, b); PutRows(q, Enqueue(q, k, c, Some(n), w), Slot(q, k, c, Some(n), w), n, c, body)
  {
    var w := Update(body, b);
    SoleTarget(q, n, c, owner);
    NewKeySlot(q, n, w, k, c);
    LandsAlone(q, Find(q, PendingUpdate(n, c)), n, w, k, c);
  }

  lemma PutKeepsSingle(q: Queue, q2: Queue, slot: nat, n: NoteId, c: Consumer, body: string, owner: Owner)
    requires PutRows(q, q2, slot, n, c, body) && c == owner(n)
    requires forall i | 0 <= i < |q| :: OwnedRow(q[i], owner)
    requires forall i, j | 0 <= i < |q| && 0 <= j < |q| && i != j :: Single(q[i], q[j])
    ensures forall i | 0 <= i < |q2| :: OwnedRow(q2[i], owner)
    ensures forall i, j | 0 <= i < |q2| && 0 <= j < |q2| && i != j :: Single(q2[i], q2[j])
  {
    forall i, j | 0 <= i < |q2| && 0 <= j < |q2| && i != j ensures Single(q2[i], q2[j]) {
      if i != slot && j != slot {
        assert Single(q[i], q[j]);
      } else if i == slot {
        assert !PendingUpdateOf(q[j], n);
      } else {
        assert !PendingUpdateOf(q[i], n);
      }
    }
  }

  lemma PutKeepsCarried(h: HubState, h2: HubState, slot: nat, n: NoteId, c: Consumer, body: string)
    requires Carried(h) && n in h.notes && PutRows(h.queue, h2.queue, slot, n, c, body)
    requires n in h2.notes && h2.notes == h.notes[n := h2.notes[n]] && h2.notes[n].body == body
    ensures Carried(h2)
  {
    var q, q2 := h.queue, h2.queue;
    forall m, i | m in h2.notes && h2.notes[m].status == PendingToBear && 0 <= i < |q2| && Newest(q2, m, i)
      ensures q2[i].write.body == h2.notes[m].body
    {
      if m == n {
        assert PendingUpdateOf(q2[slot], n);
      } else {
        assert i != slot;
        assert forall j | 0 <= j < |q| && PendingUpdateOf(q[j], m) :: j != slot && PendingUpdateOf(q2[j], m);
        assert Newest(q, m, i);
      }
    }
  }

  lemma PutKeepsCalm(h: HubState, n: NoteId, body: string, k: Key, c: Consumer, owner: Owner)
    requires Inv(h) && CalmHub(h, owner) && n in h.notes && h.notes[n].bearId.Some? && h.notes[n].status != Conflict
    requires Find(h.queue, ByKey(k, c)).None? && c == owner(n)
    ensures CalmHub(PutStep(h, n, body, k, c).0, owner)
  {
    var h2, w := PutStep(h, n, body, k, c).0, Update(body, h.notes[n].bearId.value);
    var slot := Slot(h.queue, k, c, Some(n), w);
    PutLandsAlone(h.queue, n, w.bear, body, k, c, owner);
    PutKeepsSingle(h.queue, h2.queue, slot, n, c, body, owner);
    PutKeepsCarried(h, h2, slot, n, c, body);
  }

  lemma UpdatesKeepTheirNotes(h: HubState, r: Request, k: Key, c: Consumer, fault: bool, n: NoteId, i: nat)
    requires Inv(h) && FreshIds(h, r) && i < |h.queue| && UpdateOf(h.queue[i], n)
    requires !(r.UpdateNote? && r.note == n)
    requires var h2 := Serve(h, r, k, c, fault).0; n in h2.notes && h2.notes[n].status == PendingToBear
    ensures n in h.notes && h.notes[n].status == PendingToBear
        && Serve(h, r, k, c, fault).0.notes[n].body == h.notes[n].body
  {
    assert ItemOk(h.queue[i], h.notes, h.blobs);
    ServeContent(h, r, k, c, fault, n);
    ServeConflicts(h, r, k, c, fault, n);
    ServeRow(h, r, k, c, fault, n);
  }

  /** q2 has the updates of q, where they were, and no others. */
  predicate UpdatesKept(q: Queue, q2: Queue) {
    && |q| <= |q2|
    && (forall i | 0 <= i < |q2| && q2[i].write.Update? :: i < |q| && q2[i] == q[i])
    && (forall i | 0 <= i < |q| && q[i].write.Update? :: q2[i] == q[i])
  }

  lemma EnqueueKeepsUpdates(q: Queue, k: Key, c: Consumer, note: Option<NoteId>, w: Write)
    requires !w.Update?
    requires var f := Find(q, ByKey(k, c)); f.Some? ==> q[f.value].status != Failed
    ensures UpdatesKept(q, Enqueue(q, k, c, note, w))
  {
  }

  lemma NotPutEnqueues(h: HubState, r: Request, k: Key, c: Consumer, fault: bool)
    requires !IsPut(h, r, k, c, fault)
    ensures var q2 := Serve(h, r, k, c, fault).0.queue;
            || q2 == h.queue
            || (exists note, w :: q2 == Enqueue(h.queue, k, c, note, w) && !w.Update?)
            || (r.UpdateNote? && CoalesceCreate(h.queue, k, c, r.note, r.body) == Some(q2))
  {
  }

  lemma ServeKeepsUpdates(h: HubState, r: Request, k: Key, c: Consumer, fault: bool)
    requires !IsPut(h, r, k, c, fault)
    requires var f := Find(h.queue, ByKey(k, c)); f.Some? ==> h.queue[f.value].status != Failed
    ensures UpdatesKept(h.queue, Serve(h, r, k, c, fault).0.queue)
  {
    NotPutEnqueues(h, r, k, c, fault);
    if note, w :| Serve(h, r, k, c, fault).0.queue == Enqueue(h.queue, k, c, note, w) && !w.Update? {
      EnqueueKeepsUpdates(h.queue, k, c, note, w);
    }
  }

  lemma ServeKeepsCalm(h: HubState, r: Request, k: Key, c: Consumer, fault: bool, owner: Owner)
    requires Inv(h) && FreshIds(h, r) && CalmHub(h, owner) && (r.UpdateNote? ==> c == owner(r.note))
    requires var f := Find(h.queue, ByKey(k, c)); f.Some? ==> h.queue[f.value].status != Failed
    ensures CalmHub(Serve(h, r, k, c, fault).0, owner)
  {
    if IsPut(h, r, k, c, fault) {
      PutKeepsCalm(h, r.note, r.body, k, c, owner);
    } else {
      var h2 := Serve(h, r, k, c, fault).0;
      ServeKeepsUpdates(h, r, k, c, fault);
      forall n, i | n in h2.notes && h2.notes[n].status == PendingToBear
                    && 0 <= i < |h.queue| && UpdateOf(h.queue[i], n)
        ensures n in h.notes && h.notes[n].status == PendingToBear && h2.notes[n].body == h.notes[n].body
      {
        assert ItemOk(h.queue[i], h.notes, h.blobs);
        if r.UpdateNote? && r.note == n {
          assert h2.notes[n] == h.notes[n];
        } else {
          UpdatesKeepTheirNotes(h, r, k, c, fault, n, i);
        }
      }
      OtherRowsKeepCalm(h, h2, owner);
    }
  }

  // ---- Leases, acks, pushes ----

  lemma LeaseKeepsCalm(h: HubState, now: nat, owner: Owner)
    requires CalmHub(h, owner) && forall i | 0 <= i < |h.queue| :: h.queue[i].status != Processing
    ensures CalmHub(h.(queue := LeaseQueue(h.queue, now)), owner)
  {
    var q, h2 := h.queue, h.(queue := LeaseQueue(h.queue, now));
    var q2 := h2.queue;
    forall i, j | 0 <= i < |q2| && 0 <= j < |q2| && i != j ensures Single(q2[i], q2[j]) {
      assert Single(q[i], q[j]);
    }
    forall n, i | n in h2.notes && h2.notes[n].status == PendingToBear && 0 <= i < |q2| && Newest(q2, n, i)
      ensures q2[i].write.body == h2.notes[n].body
    {
      assert PendingUpdateOf(q[i], n) && Newest(q, n, i);
    }
  }

  lemma AckKeepsCalm(s: Sys, acks: seq<AckItem>, owner: Owner)
    requires CalmInv(s, owner) && Enabled(s, Ack(acks)) && AckAll(s.hub, acks).Ok?
    ensures CalmHub(AckAll(s.hub, acks).value, owner)
    ensures forall i | 0 <= i < |AckAll(s.hub, acks).value.queue| ::
        AckAll(s.hub, acks).value.queue[i].status != Processing
  {
    var h, h2, rows := s.hub, AckAll(s.hub, acks).value, s.bridge.rows;
    AckAllSettles(h, acks);
    forall i | 0 <= i < |h.queue| ensures h2.queue[i].status != Processing {
      if h.queue[i].status == Processing {
        assert InBatch(rows, i);
        var a :| 0 <= a < |rows| && rows[a].id == i;
        assert !AckTakesEffect(h2.queue, acks[a]);
      }
    }
    forall n, i | n in h2.notes && h2.notes[n].status == PendingToBear && 0 <= i < |h.queue| && UpdateOf(h.queue[i], n)
      ensures n in h.notes && h.notes[n].status == PendingToBear && h2.notes[n].body == h.notes[n].body
    {
      AckAllRow(h, rows, acks, n);
      assert ItemOk(h.queue[i], h.notes, h.blobs);
    }
    OtherRowsKeepCalm(h, h2, owner);
  }

  lemma PushKeepsCalm(h: HubState, ps: seq<PushNote>, deleted: set<BearId>, owner: Owner)
    requires Inv(h) && FreshPush(h, ps) && CalmHub(h, owner)
    ensures CalmHub(Push(h, ps, deleted), owner)
  {
    var h2, doomed := Push(h, ps, deleted), Doomed(UpsertAll(h.notes, ps), deleted);
    var mid := HubState(h.notes, h2.queue, h.blobs);
    forall i, j | 0 <= i < |h2.queue| && 0 <= j < |h2.queue| && i != j ensures Single(h2.queue[i], h2.queue[j]) {
      assert Single(h.queue[i], h.queue[j]);
    }
    forall n, i | n in h2.notes && h2.notes[n].status == PendingToBear && 0 <= i < |h2.queue| && Newest(h2.queue, n, i)
      ensures h2.queue[i].write.body == h2.notes[n].body
    {
      assert ItemOk(h.queue[i], h.notes, h.blobs);
      PushRow(h, ps, deleted, n);
      if j :| 0 <= j < |ps| && Touches(ps[j], h.notes[n]) {
        assert h2.notes[n] == PushedNote(h.notes[n], ps[j]);
      }
      PushProtects(h, ps, deleted, n);
      assert forall j | 0 <= j < |h.queue| && PendingUpdateOf(h.queue[j], n) :: PendingUpdateOf(h2.queue[j], n);
      assert Newest(h.queue, n, i);
    }
  }

  // ---- Runs ----

  lemma StepKeepsCalm(s: Sys, t: Step, owner: Owner)
    requires CalmInv(s, owner) && Enabled(s, t) && Calm(s, t, owner)
    ensures CalmInv(Next(s, t), owner)
  {
    StepKeeps(s, t);
    match t
    case Consume(r, k, c, fault) =>
      ServeKeepsCalm(s.hub, r, k, c, fault, owner);
      ServeQueue(s.hub, r, k, c, fault);
    case PushDelta(ps, deleted) => PushKeepsCalm(s.hub, ps, deleted, owner);
    case Lease(now) =>
      LeaseKeepsCalm(s.hub, now, owner);
      LeaseCoversProcessing(s.hub, now);
    case Ack(acks) =>
      AckKeepsCalm(s, acks, owner);
      AckAllSettles(s.hub, acks);
    case Resend => Protocol.RedeliveryChangesNothing(s);
    case AckSeen =>
    case Crash =>
  }

  lemma LeaseCoversProcessing(h: HubState, now: nat)
    requires forall i | 0 <= i < |h.queue| :: h.queue[i].status != Processing
    ensures forall i | 0 <= i < |h.queue| && LeaseQueue(h.queue, now)[i].status == Processing ::
        InBatch(LeaseRows(h, now), i)
  {
    var ids, rows := LeaseIds(h.queue, now), LeaseRows(h, now);
    forall i | 0 <= i < |h.queue| && LeaseQueue(h.queue, now)[i].status == Processing ensures InBatch(rows, i) {
      var a :| 0 <= a < |ids| && ids[a] == i;
      assert rows[a].id == i;
    }
  }

  ghost predicate CalmRun(s: Sys, run: seq<Step>, owner: Owner)
    requires Legal(s, run)
    decreases |run|
  {
    run == [] || (Calm(s, run[0], owner) && CalmRun(Next(s, run[0]), run[1..], owner))
  }

  lemma {:induction false} CalmRunKeeps(s: Sys, run: seq<Step>, owner: Owner)
    requires CalmInv(s, owner) && Legal(s, run) && CalmRun(s, run, owner)
    ensures CalmInv(After(s, run), owner)
    decreases |run|
  {
    if run != [] {
      StepKeepsCalm(s, run[0], owner);
      CalmRunKeeps(Next(s, run[0]), run[1..], owner);
    }
  }

  lemma HeldFirst(s: Sys, clocks: seq<nat>, i: nat, j: nat)
    requires i in HeldIds(s) && j in Order(s, clocks) && j !in HeldIds(s)
    ensures Before(Order(s, clocks), i, j)
  {
    var held, ids := HeldIds(s), Order(s, clocks);
    var a :| 0 <= a < |held| && held[a] == i;
    var c :| 0 <= c < |ids| && ids[c] == j;
    assert ids[a] == i && |held| <= c;
  }

  lemma ProcessingIsHeld(s: Sys, i: nat)
    requires OnlyInFlight(s) && i < |s.hub.queue| && s.hub.queue[i].status == Processing
    ensures i in HeldIds(s)
  {
    assert InBatch(s.bridge.rows, i);
    var a :| 0 <= a < |s.bridge.rows| && s.bridge.rows[a].id == i;
    assert HeldIds(s)[a] == i;
  }

  lemma PendingIsNotHeld(s: Sys, i: nat)
    requires SysInv(s) && i < |s.hub.queue| && s.hub.queue[i].status == Pending
    ensures i !in HeldIds(s)
  {
  }

  /** With no lost lease a pending update is handed out after all that are being processed. */
  lemma LastIsNewest(s: Sys, clocks: seq<nat>, n: NoteId, last: nat)
    requires SysInv(s) && OnlyInFlight(s)
    requires forall j | 0 <= j < |s.hub.queue| && UpdateOf(s.hub.queue[j], n) :: j in Order(s, clocks)
    requires last < |s.hub.queue| && UpdateOf(s.hub.queue[last], n) && IsLast(s.hub.queue, Order(s, clocks), n, last)
    ensures Newest(s.hub.queue, n, last)
  {
    var q := s.hub.queue;
    if q[last].status == Processing {
      ProcessingIsHeld(s, last);
      forall j | 0 <= j < |q| ensures !PendingUpdateOf(q[j], n) {
        if PendingUpdateOf(q[j], n) {
          PendingIsNotHeld(s, j);
          HeldFirst(s, clocks, last, j);
        }
      }
    }
  }

  /**
   * Coalescing refines an append queue: after any calm run, letting the queue drain leaves Bear with exactly the body
   * the hub shows for an unsynced note that still has an update queued, which is that of the last accepted PUT.
   */
  lemma DrainEndsWithHubBody(
    run: seq<Step>, owner: Owner, n: NoteId, b: BearId, i: nat, bear: Bear, outs: seq<Outcome>, ts: seq<Turn>)
    requires Legal(START, run) && CalmRun(START, run, owner)
    requires var w := World(After(START, run), bear);
             && Known(w, n, b) && i < |w.sys.hub.queue| && UpdateOf(w.sys.hub.queue[i], n)
             && DrainLegal(w, outs, ts, b) && NoUpdate(Drained(w, outs, ts, b).sys.hub.queue, n)
    ensures var w := World(After(START, run), bear);
            var after := Drained(w, outs, ts, b).bear; b in after && after[b].body == w.sys.hub.notes[n].body
  {
    var w := World(After(START, run), bear);
    CalmRunKeeps(START, run, owner);
    assert ItemOk(w.sys.hub.queue[i], w.sys.hub.notes, w.sys.hub.blobs);
    var last := DrainEndsWithLast(w, outs, ts, n, b, i);
    forall j | 0 <= j < |w.sys.hub.queue| && UpdateOf(w.sys.hub.queue[j], n) ensures j in Order(w.sys, Clocks(ts)) {
      DrainedInOrder(w, outs, ts, n, b, j);
    }
    LastIsNewest(w.sys, Clocks(ts), n, last);
  }
}
