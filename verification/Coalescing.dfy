/** Coalesced updates against the order Bear receives them in: when does Bear end with the consumer's last body? */
module Coalescing {
  import opened Model
  import opened Store
  import opened Handlers
  import opened Invariant
  import opened Protocol
  import opened NoteHistory
  import opened BearBridge
  import opened LeaseOrder

  datatype World = World(sys: Sys, bear: Bear)

  predicate UpdateOf(x: Item, n: NoteId) { UnfinishedFor(x, n) && x.write.Update? }

  predicate PendingUpdateOf(x: Item, n: NoteId) { UpdateOf(x, n) && x.status == Pending }

  predicate NoUpdate(q: Queue, n: NoteId) { forall j | 0 <= j < |q| :: !UpdateOf(q[j], n) }

  predicate AllApplied(acks: seq<AckItem>) { forall a | 0 <= a < |acks| :: acks[a].applied }

  // ---- One pass and one note ----

  /** A row that rewrites the body of Bear note b. */
  predicate Rewrites(row: Leased, b: BearId) {
    !IsConflictRow(row) && row.item.write.Update? && row.item.write.bear == b
  }

  /** The creations of this pass make other Bear notes than b, and no hub id is the id of b. */
  predicate Spares(rows: seq<Leased>, outs: seq<Outcome>, b: BearId) {
    && |outs| == |rows|
    && forall a | 0 <= a < |rows| :: outs[a].id != b && rows[a].item.note != Some(b)
  }

  lemma ApplyKeepsBody(bear: Bear, row: Leased, out: Outcome, b: BearId)
    requires b in bear && out.id != b && row.item.note != Some(b)
    ensures b in Apply(bear, row, out).0
    ensures !Rewrites(row, b) ==> Apply(bear, row, out).0[b].body == bear[b].body
  {
  }

  lemma AppliedRewrite(bear: Bear, row: Leased, out: Outcome, b: BearId)
    requires b in bear && Rewrites(row, b) && Apply(bear, row, out).1.applied
    ensures b in Apply(bear, row, out).0 && Apply(bear, row, out).0[b].body == row.item.write.body
  {
  }

  lemma {:induction false} PassKeepsBody(bear: Bear, rows: seq<Leased>, outs: seq<Outcome>, b: BearId)
    requires b in bear && Spares(rows, outs, b) && forall a | 0 <= a < |rows| :: !Rewrites(rows[a], b)
    ensures b in Pass(bear, rows, outs) && Pass(bear, rows, outs)[b].body == bear[b].body
    decreases |rows|
  {
    if rows != [] {
      ApplyKeepsBody(bear, rows[0], outs[0], b);
      PassKeepsBody(Apply(bear, rows[0], outs[0]).0, rows[1..], outs[1..], b);
    }
  }

  /** Row i is an update of note n, whatever its status. */
  predicate Writes(q: Queue, i: nat, n: NoteId) { i < |q| && q[i].note == Some(n) && q[i].write.Update? }

  /** The text of note n once the rows `ids` have reached Bear in this order. */
  function TextAfter(q: Queue, ids: seq<nat>, n: NoteId, text: string): string {
    if ids == [] then text
    else TextAfter(q, ids[1..], n, if Writes(q, ids[0], n) then q[ids[0]].write.body else text)
  }

  /** The leased rows rewrite b exactly where the queue's rows are updates of n. */
  predicate Matched(q: Queue, rows: seq<Leased>, n: NoteId, b: BearId) {
    forall a | 0 <= a < |rows| ::
      && (Rewrites(rows[a], b) <==> Writes(q, rows[a].id, n))
      && (Writes(q, rows[a].id, n) ==> rows[a].item.write == q[rows[a].id].write)
  }

  function RowIds(rows: seq<Leased>): (ids: seq<nat>)
    ensures |ids| == |rows| && forall a | 0 <= a < |rows| :: ids[a] == rows[a].id
  {
    seq(|rows|, a requires 0 <= a < |rows| => rows[a].id)
  }

  /** A pass that applies all its rows leaves the body of the last update of n among them. */
  lemma {:induction false} PassText(
    bear: Bear, rows: seq<Leased>, outs: seq<Outcome>, q: Queue, n: NoteId, b: BearId)
    requires b in bear && Spares(rows, outs, b) && Matched(q, rows, n, b) && AllApplied(Acks(bear, rows, outs))
    ensures var after := Pass(bear, rows, outs);
            b in after && after[b].body == TextAfter(q, RowIds(rows), n, bear[b].body)
    decreases |rows|
  {
    if rows != [] {
      var bear2, acks := Apply(bear, rows[0], outs[0]).0, Acks(bear, rows, outs);
      ApplyKeepsBody(bear, rows[0], outs[0], b);
      assert acks[0] == Apply(bear, rows[0], outs[0]).1 && acks[1..] == Acks(bear2, rows[1..], outs[1..]);
      if Rewrites(rows[0], b) { AppliedRewrite(bear, rows[0], outs[0], b); }
      PassText(bear2, rows[1..], outs[1..], q, n, b);
      assert RowIds(rows)[1..] == RowIds(rows[1..]);
    }
  }

  // ---- One batch ----

  /** The hub and Bear know note n as b, without conflict. */
  predicate Known(w: World, n: NoteId, b: BearId) {
    n in w.sys.hub.notes && w.sys.hub.notes[n].bearId == Some(b) && w.sys.hub.notes[n].status != Conflict && b in w.bear
  }

  /** The bridge applies the rows it holds, its acks commit and it sees the reply. */
  ghost predicate BatchLegal(w: World, outs: seq<Outcome>, b: BearId) {
    && w.sys.bridge.Holding? && Spares(w.sys.bridge.rows, outs, b)
    && var acks := Acks(w.bear, w.sys.bridge.rows, outs);
       AllApplied(acks) && Enabled(w.sys, Ack(acks)) && AckAll(w.sys.hub, acks).Ok?
  }

  ghost function AfterBatch(w: World, outs: seq<Outcome>, b: BearId): World
    requires BatchLegal(w, outs, b)
  {
    var acks := Acks(w.bear, w.sys.bridge.rows, outs);
    World(Next(Next(w.sys, Ack(acks)), AckSeen), Pass(w.bear, w.sys.bridge.rows, outs))
  }

  lemma HeldRowsMatch(w: World, n: NoteId, b: BearId)
    requires SysInv(w.sys) && Known(w, n, b) && w.sys.bridge.Holding?
    ensures Matched(w.sys.hub.queue, w.sys.bridge.rows, n, b)
  {
    var h, rows := w.sys.hub, w.sys.bridge.rows;
    forall a | 0 <= a < |rows| ensures Rewrites(rows[a], b) <==> Writes(h.queue, rows[a].id, n) {
      assert h.queue[rows[a].id] == rows[a].item;
      assert ItemOk(rows[a].item, h.notes, h.blobs);
    }
  }

  lemma FinishedQueue(h: HubState, rows: seq<Leased>, acks: seq<AckItem>)
    requires InFlight(h, rows) && AckFor(rows, acks) && AllApplied(acks) && AckAll(h, acks).Ok?
    ensures AckAll(h, acks).value.queue == Finish(h.queue, RowIds(rows))
  {
    AckAllFinishes(h, acks);
    var q, q2, ids := h.queue, AckAll(h, acks).value.queue, RowIds(rows);
    forall j | 0 <= j < |q| ensures q2[j] == Finish(q, ids)[j] {
      if a :| 0 <= a < |ids| && ids[a] == j {
        assert acks[a].id == j && AckTakesEffect(q, acks[a]);
      } else {
        assert !Named(acks, j) by { assert forall k | 0 <= k < |acks| :: acks[k].id == ids[k]; }
      }
    }
  }

  lemma BatchQueue(w: World, outs: seq<Outcome>, b: BearId)
    requires SysInv(w.sys) && BatchLegal(w, outs, b)
    ensures var w2 := AfterBatch(w, outs, b);
            SysInv(w2.sys) && w2.sys.bridge.Idle?
            && w2.sys.hub.queue == Finish(w.sys.hub.queue, RowIds(w.sys.bridge.rows))
  {
    var acks := Acks(w.bear, w.sys.bridge.rows, outs);
    StepKeeps(w.sys, Ack(acks));
    StepKeeps(Next(w.sys, Ack(acks)), AckSeen);
    FinishedQueue(w.sys.hub, w.sys.bridge.rows, acks);
  }

  /** This queue, and this text in Bear for the known note n. */
  ghost predicate Shows(w: World, n: NoteId, b: BearId, q: Queue, text: string) {
    SysInv(w.sys) && Known(w, n, b) && w.sys.hub.queue == q && w.bear[b].body == text
  }

  lemma BatchKeepsNote(w: World, outs: seq<Outcome>, n: NoteId, b: BearId)
    requires SysInv(w.sys) && Known(w, n, b) && BatchLegal(w, outs, b)
    ensures var notes := AfterBatch(w, outs, b).sys.hub.notes;
            n in notes && notes[n].bearId == Some(b) && notes[n].status != Conflict
  {
    AckAllRow(w.sys.hub, w.sys.bridge.rows, Acks(w.bear, w.sys.bridge.rows, outs), n);
  }

  lemma BatchText(w: World, outs: seq<Outcome>, n: NoteId, b: BearId)
    requires SysInv(w.sys) && Known(w, n, b) && BatchLegal(w, outs, b)
    ensures var after := AfterBatch(w, outs, b).bear;
            b in after && after[b].body == TextAfter(w.sys.hub.queue, RowIds(w.sys.bridge.rows), n, w.bear[b].body)
  {
    HeldRowsMatch(w, n, b);
    PassText(w.bear, w.sys.bridge.rows, outs, w.sys.hub.queue, n, b);
  }

  /** What a batch does to note n: its rows end applied, and Bear has the last update among them. */
  lemma BatchEffect(w: World, outs: seq<Outcome>, n: NoteId, b: BearId, q: Queue, text: string)
    requires Shows(w, n, b, q, text) && BatchLegal(w, outs, b)
    ensures var w2, ids := AfterBatch(w, outs, b), RowIds(w.sys.bridge.rows);
            w2.sys.bridge.Idle? && Shows(w2, n, b, Finish(q, ids), TextAfter(q, ids, n, text))
  {
    BatchQueue(w, outs, b);
    BatchKeepsNote(w, outs, n, b);
    BatchText(w, outs, n, b);
  }

  // ---- Turns of the bridge ----

  /** A turn: what the idle bridge leases at this time it applies and acks, and every row goes through. */
  datatype Turn = Turn(now: nat, outs: seq<Outcome>)

  ghost function Leasing(w: World, now: nat): World
    requires w.sys.bridge.Idle?
  {
    w.(sys := Next(w.sys, Lease(now)))
  }

  ghost predicate TurnLegal(w: World, t: Turn, b: BearId) {
    w.sys.bridge.Idle? && BatchLegal(Leasing(w, t.now), t.outs, b)
  }

  ghost function AfterTurn(w: World, t: Turn, b: BearId): World
    requires TurnLegal(w, t, b)
  {
    AfterBatch(Leasing(w, t.now), t.outs, b)
  }

  ghost predicate TurnsLegal(w: World, ts: seq<Turn>, b: BearId)
    decreases |ts|
  {
    ts == [] || (TurnLegal(w, ts[0], b) && TurnsLegal(AfterTurn(w, ts[0], b), ts[1..], b))
  }

  ghost function AfterTurns(w: World, ts: seq<Turn>, b: BearId): World
    requires TurnsLegal(w, ts, b)
    decreases |ts|
  {
    if ts == [] then w else AfterTurns(AfterTurn(w, ts[0], b), ts[1..], b)
  }

  function Clocks(ts: seq<Turn>): (clocks: seq<nat>)
    ensures |clocks| == |ts| && forall a | 0 <= a < |ts| :: clocks[a] == ts[a].now
  {
    seq(|ts|, a requires 0 <= a < |ts| => ts[a].now)
  }

  predicate SameWrites(q: Queue, q2: Queue) {
    |q| == |q2| && forall i | 0 <= i < |q| :: q2[i].note == q[i].note && q2[i].write == q[i].write
  }

  lemma {:induction false} TextSame(q: Queue, q2: Queue, ids: seq<nat>, n: NoteId, text: string)
    requires SameWrites(q, q2)
    ensures TextAfter(q, ids, n, text) == TextAfter(q2, ids, n, text)
    decreases |ids|
  {
    if ids != [] { TextSame(q, q2, ids[1..], n, if Writes(q, ids[0], n) then q[ids[0]].write.body else text); }
  }

  lemma {:induction false} TextThen(q: Queue, ids: seq<nat>, more: seq<nat>, n: NoteId, text: string)
    ensures TextAfter(q, ids + more, n, text) == TextAfter(q, more, n, TextAfter(q, ids, n, text))
    decreases |ids|
  {
    if ids == [] {
      assert ids + more == more;
    } else {
      assert (ids + more)[1..] == ids[1..] + more;
      TextThen(q, ids[1..], more, n, if Writes(q, ids[0], n) then q[ids[0]].write.body else text);
    }
  }

  lemma LeasingFacts(w: World, now: nat, n: NoteId, b: BearId, q: Queue, text: string)
    requires Shows(w, n, b, q, text) && w.sys.bridge.Idle?
    ensures var w1 := Leasing(w, now);
            Shows(w1, n, b, LeaseQueue(q, now), text)
            && w1.sys.bridge.Holding? && RowIds(w1.sys.bridge.rows) == LeaseIds(q, now)
  {
    StepKeeps(w.sys, Lease(now));
  }

  lemma TurnEffect(w: World, t: Turn, n: NoteId, b: BearId, q: Queue, text: string)
    requires Shows(w, n, b, q, text) && TurnLegal(w, t, b)
    ensures var w2 := AfterTurn(w, t, b);
            w2.sys.bridge.Idle? && Shows(w2, n, b, TurnQueue(q, t.now), TextAfter(q, LeaseIds(q, t.now), n, text))
  {
    LeasingFacts(w, t.now, n, b, q, text);
    BatchEffect(Leasing(w, t.now), t.outs, n, b, LeaseQueue(q, t.now), text);
    TextSame(q, LeaseQueue(q, t.now), LeaseIds(q, t.now), n, text);
  }

  lemma FirstTurn(q: Queue, ts: seq<Turn>, n: NoteId, text: string)
    requires ts != []
    ensures var q2, rest := TurnQueue(q, ts[0].now), Clocks(ts[1..]);
            && QueueAfter(q, Clocks(ts)) == QueueAfter(q2, rest)
            && TextAfter(q, Handed(q, Clocks(ts)), n, text)
               == TextAfter(q2, Handed(q2, rest), n, TextAfter(q, LeaseIds(q, ts[0].now), n, text))
  {
    assert Clocks(ts)[1..] == Clocks(ts[1..]);
    var q2 := TurnQueue(q, ts[0].now);
    var now, later := LeaseIds(q, ts[0].now), Handed(q2, Clocks(ts[1..]));
    TextThen(q, now, later, n, text);
    TextSame(q, q2, later, n, TextAfter(q, now, n, text));
  }

  /** The turns hand Bear the rows in the order the leases give. */
  lemma {:induction false} TurnsEffect(w: World, ts: seq<Turn>, n: NoteId, b: BearId, q: Queue, text: string)
    requires Shows(w, n, b, q, text) && TurnsLegal(w, ts, b)
    ensures Shows(AfterTurns(w, ts, b), n, b, QueueAfter(q, Clocks(ts)), TextAfter(q, Handed(q, Clocks(ts)), n, text))
    decreases |ts|
  {
    if ts != [] {
      TurnEffect(w, ts[0], n, b, q, text);
      FirstTurn(q, ts, n, text);
      TurnsEffect(AfterTurn(w, ts[0], b), ts[1..], n, b,
                  TurnQueue(q, ts[0].now), TextAfter(q, LeaseIds(q, ts[0].now), n, text));
    }
  }

  // ---- Draining ----

  function HeldIds(s: Sys): seq<nat> { if s.bridge.Holding? then RowIds(s.bridge.rows) else [] }

  /** The bridge first finishes what it holds, if it holds anything, and then takes its turns. */
  ghost predicate DrainLegal(w: World, outs: seq<Outcome>, ts: seq<Turn>, b: BearId) {
    (w.sys.bridge.Holding? ==> BatchLegal(w, outs, b)) && TurnsLegal(Released(w, outs, b), ts, b)
  }

  ghost function Released(w: World, outs: seq<Outcome>, b: BearId): World
    requires w.sys.bridge.Holding? ==> BatchLegal(w, outs, b)
  {
    if w.sys.bridge.Holding? then AfterBatch(w, outs, b)
    else if w.sys.bridge.Resending? then w.(sys := Next(w.sys, AckSeen)) else w
  }

  ghost function Drained(w: World, outs: seq<Outcome>, ts: seq<Turn>, b: BearId): World
    requires DrainLegal(w, outs, ts, b)
  {
    AfterTurns(Released(w, outs, b), ts, b)
  }

  /** The order Bear receives the rows in: those the bridge holds, then what its leases hand out. */
  function Order(s: Sys, clocks: seq<nat>): seq<nat> {
    HeldIds(s) + Handed(Finish(s.hub.queue, HeldIds(s)), clocks)
  }

  lemma ReleasedEffect(w: World, outs: seq<Outcome>, n: NoteId, b: BearId, q: Queue, text: string)
    requires Shows(w, n, b, q, text) && (w.sys.bridge.Holding? ==> BatchLegal(w, outs, b))
    ensures var held := HeldIds(w.sys); Shows(Released(w, outs, b), n, b, Finish(q, held), TextAfter(q, held, n, text))
  {
    if w.sys.bridge.Holding? {
      BatchEffect(w, outs, n, b, q, text);
    } else {
      assert Finish(q, []) == q;
    }
  }

  lemma OrderText(q: Queue, held: seq<nat>, clocks: seq<nat>, n: NoteId, text: string)
    ensures var q1 := Finish(q, held);
            TextAfter(q, held + Handed(q1, clocks), n, text)
            == TextAfter(q1, Handed(q1, clocks), n, TextAfter(q, held, n, text))
  {
    var q1 := Finish(q, held);
    TextThen(q, held, Handed(q1, clocks), n, text);
    TextSame(q, q1, Handed(q1, clocks), n, TextAfter(q, held, n, text));
  }

  lemma DrainEffect(w: World, outs: seq<Outcome>, ts: seq<Turn>, n: NoteId, b: BearId, q: Queue, text: string)
    requires Shows(w, n, b, q, text) && DrainLegal(w, outs, ts, b)
    ensures Shows(Drained(w, outs, ts, b), n, b,
                  QueueAfter(Finish(q, HeldIds(w.sys)), Clocks(ts)), TextAfter(q, Order(w.sys, Clocks(ts)), n, text))
  {
    var held := HeldIds(w.sys);
    ReleasedEffect(w, outs, n, b, q, text);
    TurnsEffect(Released(w, outs, b), ts, n, b, Finish(q, held), TextAfter(q, held, n, text));
    OrderText(q, held, Clocks(ts), n, text);
  }

  // ---- What the order looks like ----

  /** Row j is not with the bridge and its id is higher, or its lease outlasts the time the row `slot` is handed out. */
  predicate Overtakes(s: Sys, clocks: seq<nat>, slot: nat, j: nat) {
    && j != slot && j !in HeldIds(s) && j < |s.hub.queue|
    && (j > slot || LeasedPast(s.hub.queue[j], TimeOf(Finish(s.hub.queue, HeldIds(s)), clocks, slot)))
  }

  lemma OvertakesIff(s: Sys, clocks: seq<nat>, slot: nat, j: nat)
    requires SysInv(s) && Ordered(clocks)
    requires slot < |s.hub.queue| && s.hub.queue[slot].status == Pending && j < |s.hub.queue| && j != slot
    requires slot in Order(s, clocks) && j in Order(s, clocks)
    ensures Before(Order(s, clocks), slot, j) <==> Overtakes(s, clocks, slot, j)
  {
    var q, held := s.hub.queue, HeldIds(s);
    var q1 := Finish(q, held);
    forall k: nat | k in held ensures k < |q| && q[k].status == Processing && k !in Handed(q1, clocks) {
      var a :| 0 <= a < |held| && held[a] == k;
      assert s.bridge.rows[a].id == k && q[k] == s.bridge.rows[a].item;
      HandedFinishes(q1, clocks, k);
    }
    BeforeSplit(held, Handed(q1, clocks), slot, j);
    if j !in held { HandedBeforeIff(q1, clocks, slot, j); }
  }

  /** Row j is the last update of n that Bear receives. */
  predicate IsLast(q: Queue, ids: seq<nat>, n: NoteId, j: nat) {
    && j in ids && Writes(q, j, n)
    && forall i: nat | i in ids && Writes(q, i, n) && i != j :: !Before(ids, j, i)
  }

  lemma {:induction false} LastExists(q: Queue, ids: seq<nat>, n: NoteId, text: string, i: nat) returns (j: nat)
    requires i in ids && Writes(q, i, n) && forall a, c | 0 <= a < c < |ids| :: ids[a] != ids[c]
    ensures IsLast(q, ids, n, j) && TextAfter(q, ids, n, text) == q[j].write.body
    ensures forall k: nat :: IsLast(q, ids, n, k) ==> k == j
    decreases |ids|
  {
    var m := |ids| - 1;
    var ids2, last := ids[..m], ids[m];
    assert ids == ids2 + [last] && last !in ids2;
    TextThen(q, ids2, [last], n, text);
    forall k: nat | k in ids2 ensures Before(ids, k, last) && !Before(ids, last, k) {}
    if Writes(q, last, n) {
      j := last;
    } else {
      j := LastExists(q, ids2, n, text, i);
      forall k: nat, l: nat | k in ids2 && l in ids2 ensures Before(ids, k, l) <==> Before(ids2, k, l) {
        BeforeSplit(ids2, [last], k, l);
      }
    }
  }

  // ---- One PUT ----

  ghost function AfterPut(w: World, n: NoteId, body: string, k: Key, c: Consumer): World {
    w.(sys := Next(w.sys, Consume(UpdateNote(n, body), k, c, false)))
  }

  /** Where the PUT's body is in the queue. */
  ghost function PutSlot(w: World, n: NoteId, body: string, k: Key, c: Consumer): nat
    requires IsPut(w.sys.hub, UpdateNote(n, body), k, c, false)
  {
    Slot(w.sys.hub.queue, k, c, Some(n), Update(body, w.sys.hub.notes[n].bearId.value))
  }

  lemma PutLands(w: World, n: NoteId, b: BearId, body: string, k: Key, c: Consumer)
    requires SysInv(w.sys) && Known(w, n, b) && IsPut(w.sys.hub, UpdateNote(n, body), k, c, false)
    ensures var w1, slot := AfterPut(w, n, body, k, c), PutSlot(w, n, body, k, c);
            && SysInv(w1.sys) && Known(w1, n, b) && w1.sys.bridge == w.sys.bridge
            && slot < |w1.sys.hub.queue| && PendingUpdateOf(w1.sys.hub.queue[slot], n)
            && w1.sys.hub.queue[slot].write.body == body
  {
    StepKeeps(w.sys, Consume(UpdateNote(n, body), k, c, false));
    EnqueuePlaces(w.sys.hub.queue, k, c, Some(n), Update(body, b));
  }

  lemma OrderedOnce(s: Sys, clocks: seq<nat>)
    requires SysInv(s)
    ensures var ids := Order(s, clocks); forall a, c | 0 <= a < c < |ids| :: ids[a] != ids[c]
    ensures forall k: nat :: k in Order(s, clocks) ==> k < |s.hub.queue| && s.hub.queue[k].Unfinished()
  {
    var q, held := s.hub.queue, HeldIds(s);
    var q1 := Finish(q, held);
    HandedOnce(q1, clocks);
    HandedInRange(q1, clocks);
    forall k: nat | k in held ensures k < |q| && q[k].status == Processing && k !in Handed(q1, clocks) {
      var a :| 0 <= a < |held| && held[a] == k;
      assert s.bridge.rows[a].id == k && q[k] == s.bridge.rows[a].item;
      HandedFinishes(q1, clocks, k);
    }
    forall k: nat | k in Handed(q1, clocks) ensures q[k].Unfinished() {
      HandedFinishes(q1, clocks, k);
    }
  }

  /** When an update is unfinished at first and finished after the drain, it was in the order. */
  lemma DrainedInOrder(w: World, outs: seq<Outcome>, ts: seq<Turn>, n: NoteId, b: BearId, i: nat)
    requires SysInv(w.sys) && Known(w, n, b) && DrainLegal(w, outs, ts, b)
    requires i < |w.sys.hub.queue| && UpdateOf(w.sys.hub.queue[i], n)
    requires NoUpdate(Drained(w, outs, ts, b).sys.hub.queue, n)
    ensures i in Order(w.sys, Clocks(ts))
  {
    var q, held := w.sys.hub.queue, HeldIds(w.sys);
    DrainEffect(w, outs, ts, n, b, w.sys.hub.queue, w.bear[b].body);
    HandedFinishes(Finish(q, held), Clocks(ts), i);
    assert !UpdateOf(Drained(w, outs, ts, b).sys.hub.queue[i], n);
  }

  /** Draining all updates of n leaves Bear with the body of the one its leases hand out last. */
  lemma DrainEndsWithLast(w: World, outs: seq<Outcome>, ts: seq<Turn>, n: NoteId, b: BearId, i: nat) returns (j: nat)
    requires SysInv(w.sys) && Known(w, n, b) && DrainLegal(w, outs, ts, b)
    requires i < |w.sys.hub.queue| && UpdateOf(w.sys.hub.queue[i], n)
    requires NoUpdate(Drained(w, outs, ts, b).sys.hub.queue, n)
    ensures var q, after := w.sys.hub.queue, Drained(w, outs, ts, b).bear;
            && IsLast(q, Order(w.sys, Clocks(ts)), n, j) && j < |q| && UpdateOf(q[j], n)
            && b in after && after[b].body == q[j].write.body
            && forall k: nat :: IsLast(q, Order(w.sys, Clocks(ts)), n, k) ==> k == j
  {
    DrainedInOrder(w, outs, ts, n, b, i);
    OrderedOnce(w.sys, Clocks(ts));
    j := LastExists(w.sys.hub.queue, Order(w.sys, Clocks(ts)), n, w.bear[b].body, i);
    DrainEffect(w, outs, ts, n, b, w.sys.hub.queue, w.bear[b].body);
  }

  /**
   * After an accepted PUT, letting every update of the note through leaves Bear with the PUT's body exactly when the
   * last of the updates that overtake it, if any does, has that body too.
   */
  lemma PutReachesBearIff(
    w: World, n: NoteId, b: BearId, body: string, k: Key, c: Consumer, outs: seq<Outcome>, ts: seq<Turn>)
    requires SysInv(w.sys) && Known(w, n, b) && IsPut(w.sys.hub, UpdateNote(n, body), k, c, false)
    requires DrainLegal(AfterPut(w, n, body, k, c), outs, ts, b) && Ordered(Clocks(ts))
    requires NoUpdate(Drained(AfterPut(w, n, body, k, c), outs, ts, b).sys.hub.queue, n)
    ensures var w1, slot := AfterPut(w, n, body, k, c), PutSlot(w, n, body, k, c);
            var after, q := Drained(w1, outs, ts, b).bear, w1.sys.hub.queue;
            && b in after
            && (after[b].body == body <==>
                  forall j | 0 <= j < |q| && Overtakes(w1.sys, Clocks(ts), slot, j)
                             && IsLast(q, Order(w1.sys, Clocks(ts)), n, j) :: q[j].write.body == body)
  {
    var w1, slot := AfterPut(w, n, body, k, c), PutSlot(w, n, body, k, c);
    PutLands(w, n, b, body, k, c);
    var last := DrainEndsWithLast(w1, outs, ts, n, b, slot);
    DrainedInOrder(w1, outs, ts, n, b, slot);
    if last != slot {
      OvertakesIff(w1.sys, Clocks(ts), slot, last);
      OneIsFirst(w1.sys, Clocks(ts), slot, last);
    }
  }

  lemma OneIsFirst(s: Sys, clocks: seq<nat>, i: nat, j: nat)
    requires i in Order(s, clocks) && j in Order(s, clocks) && i != j
    ensures Before(Order(s, clocks), i, j) || Before(Order(s, clocks), j, i)
  {
    var ids := Order(s, clocks);
    var a :| 0 <= a < |ids| && ids[a] == i;
    var c :| 0 <= c < |ids| && ids[c] == j;
  }

  /** Every other unfinished update of n is with the bridge, or pending at a lower id. */
  predicate Unrivalled(s: Sys, n: NoteId, slot: nat) {
    forall j | 0 <= j < |s.hub.queue| && j != slot && UpdateOf(s.hub.queue[j], n) ::
      j in HeldIds(s) || (j < slot && s.hub.queue[j].status == Pending)
  }

  /** What a caller could check: then the PUT reaches Bear whenever and however the queue drains. */
  lemma UnrivalledPutReachesBear(
    w: World, n: NoteId, b: BearId, body: string, k: Key, c: Consumer, outs: seq<Outcome>, ts: seq<Turn>)
    requires SysInv(w.sys) && Known(w, n, b) && IsPut(w.sys.hub, UpdateNote(n, body), k, c, false)
    requires DrainLegal(AfterPut(w, n, body, k, c), outs, ts, b) && Ordered(Clocks(ts))
    requires NoUpdate(Drained(AfterPut(w, n, body, k, c), outs, ts, b).sys.hub.queue, n)
    requires Unrivalled(AfterPut(w, n, body, k, c).sys, n, PutSlot(w, n, body, k, c))
    ensures var after := Drained(AfterPut(w, n, body, k, c), outs, ts, b).bear; b in after && after[b].body == body
  {
    var w1 := AfterPut(w, n, body, k, c);
    PutLands(w, n, b, body, k, c);
    PutReachesBearIff(w, n, b, body, k, c, outs, ts);
    OrderedOnce(w1.sys, Clocks(ts));
  }
}
