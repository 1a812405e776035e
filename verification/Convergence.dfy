/** Hub, bridge and Bear in one run: when nothing is lost, Bear ends with what the hub shows. */
module Convergence {
  import opened Model
  import opened Store
  import opened Handlers
  import opened Invariant
  import opened Protocol
  import opened NoteHistory
  import opened BearBridge
  import opened Coalescing
  import opened SoleWriter
  import Guarantees

  /** Work: the bridge applies and acks the rows it holds. InBear: others add or change a note there. */
  datatype Move =
    | AtHub(t: Step)
    | Work(outs: seq<Outcome>)
    | Deliver(ps: seq<PushNote>, deleted: set<BearId>)
    | InBear(b: BearId, note: BearNote)

  predicate NoConflicts(h: HubState) { forall n | n in h.notes :: h.notes[n].status != Conflict }

  /** A push carries Bear's text and its title, deletes nothing that is there, and draws ids of its own. */
  predicate Mirrors(bear: Bear, ps: seq<PushNote>, deleted: set<BearId>) {
    && deleted !! bear.Keys
    && forall i | 0 <= i < |ps| ::
         && ps[i].id !in bear
         && ps[i].bearId.Some? && ps[i].bearId.value in bear && ps[i].body == bear[ps[i].bearId.value].body
         && ps[i].title == NoteTitle.TitleOf(ps[i].body)
  }

  /** Bear gives new notes ids that nobody else has. */
  predicate NewIds(w: World, outs: seq<Outcome>) {
    && (forall a | 0 <= a < |outs| :: outs[a].id !in w.bear && outs[a].id !in w.sys.hub.notes)
    && (forall a, b | 0 <= a < b < |outs| :: outs[a].id != outs[b].id)
  }

  /**
   * The moves of a smooth run: each note has one writing consumer, no failed key is reused, every leased row is applied
   * and acked, no push raises a conflict, and nobody but the bridge changes the text of a note in Bear.
   */
  ghost predicate Smooth(w: World, m: Move, owner: Owner) {
    match m
    case AtHub(t) =>
      && !t.Ack? && !t.PushDelta? && Enabled(w.sys, t) && Calm(w.sys, t, owner)
      && (t.Consume? && t.r.CreateNote? ==> t.r.id !in w.bear)
    case Work(outs) =>
      && w.sys.bridge.Holding? && |outs| == |w.sys.bridge.rows| && NewIds(w, outs)
      && var acks := Acks(w.bear, w.sys.bridge.rows, outs);
         AllApplied(acks) && Enabled(w.sys, Ack(acks)) && AckAll(w.sys.hub, acks).Ok?
    case Deliver(ps, deleted) =>
      && Enabled(w.sys, PushDelta(ps, deleted)) && Mirrors(w.bear, ps, deleted)
      && NoConflicts(Push(w.sys.hub, ps, deleted))
    case InBear(b, note) => b !in w.sys.hub.notes && (b in w.bear ==> note.body == w.bear[b].body)
  }

  ghost function Moved(w: World, m: Move, owner: Owner): World
    requires Smooth(w, m, owner)
  {
    match m
    case AtHub(t) => w.(sys := Next(w.sys, t))
    case Work(outs) =>
      World(Next(w.sys, Ack(Acks(w.bear, w.sys.bridge.rows, outs))), Pass(w.bear, w.sys.bridge.rows, outs))
    case Deliver(ps, deleted) => w.(sys := Next(w.sys, PushDelta(ps, deleted)))
    case InBear(b, note) => w.(bear := w.bear[b := note])
  }

  // ---- Notes the bridge created ----

  /**
   * Bear's text of a note it creates is its own: the title goes in as a line of it, and Bear formats the rest. Such a
   * note is raw until an update rewrites it or a push brings the hub Bear's text.
   */
  function Created(h: HubState, h2: HubState): set<NoteId> {
    set n | n in h2.notes && n in h.notes && h.notes[n].bearId.None? && h2.notes[n].bearId.Some?
  }

  function Rewritten(rows: seq<Leased>): set<NoteId> {
    set a | 0 <= a < |rows| && rows[a].item.write.Update? && rows[a].item.note.Some? :: rows[a].item.note.value
  }

  predicate Carries(ps: seq<PushNote>, note: Note) { exists i | 0 <= i < |ps| :: Touches(ps[i], note) }

  function Refreshed(h: HubState, ps: seq<PushNote>): set<NoteId> {
    set n | n in h.notes && h.notes[n].status == Synced && Carries(ps, h.notes[n])
  }

  ghost function RawAfter(w: World, raw: set<NoteId>, m: Move, owner: Owner): set<NoteId>
    requires Smooth(w, m, owner)
  {
    match m
    case Work(_) => raw - Rewritten(w.sys.bridge.rows) + Created(w.sys.hub, Moved(w, m, owner).sys.hub)
    case Deliver(ps, _) => raw - Refreshed(w.sys.hub, ps)
    case _ => raw
  }

  // ---- Agreement ----

  predicate CreateQueued(q: Queue, n: NoteId) {
    exists j | 0 <= j < |q| :: UnfinishedFor(q[j], n) && q[j].write.Create?
  }

  /**
   * A note Bear knows has the hub's body there unless an update of it is on its way or it is raw; one it does not know
   * waits to be created.
   */
  predicate Agrees(h: HubState, bear: Bear, raw: set<NoteId>, n: NoteId)
    requires n in h.notes
  {
    var b := h.notes[n].bearId;
    if b.None? then CreateQueued(h.queue, n)
    else b.value in bear && (NoUpdate(h.queue, n) && n !in raw ==> bear[b.value].body == h.notes[n].body)
  }

  predicate AllAgree(h: HubState, bear: Bear, raw: set<NoteId>) { forall n | n in h.notes :: Agrees(h, bear, raw, n) }

  predicate Backed(h: HubState, n: NoteId)
    requires n in h.notes
  {
    h.notes[n].status == PendingToBear ==> exists j | 0 <= j < |h.queue| :: UnfinishedFor(h.queue[j], n)
  }

  /** A note is unsynced only while a row of it is unfinished. */
  predicate AllBacked(h: HubState) { forall n | n in h.notes :: Backed(h, n) }

  /** A known note has its body's title, unless it is raw and no update of it has come yet. */
  predicate AllTitled(h: HubState, raw: set<NoteId>) {
    forall n | n in h.notes && h.notes[n].bearId.Some? && (n !in raw || !NoUpdate(h.queue, n)) ::
      h.notes[n].title == NoteTitle.TitleOf(h.notes[n].body)
  }

  ghost predicate SmoothInv(w: World, raw: set<NoteId>, owner: Owner) {
    && CalmInv(w.sys, owner) && NoConflicts(w.sys.hub) && AllBacked(w.sys.hub) && AllTitled(w.sys.hub, raw)
    && w.sys.hub.notes.Keys !! w.bear.Keys && AllAgree(w.sys.hub, w.bear, raw)
  }

  // ---- Requests ----

  lemma ServeKeepsCreates(h: HubState, r: Request, k: Key, c: Consumer, fault: bool, n: NoteId)
    requires CreateQueued(h.queue, n)
    requires var f := Find(h.queue, ByKey(k, c)); f.Some? ==> h.queue[f.value].status != Failed
    ensures CreateQueued(Serve(h, r, k, c, fault).0.queue, n)
  {
    var q, q2 := h.queue, Serve(h, r, k, c, fault).0.queue;
    var j :| 0 <= j < |q| && UnfinishedFor(q[j], n) && q[j].write.Create?;
    ServeEnqueues(h, r, k, c, fault);
    if note, w :| q2 == Enqueue(q, k, c, note, w) && !Answered(q, k, c) {
      EnqueuePlaces(q, k, c, note, w);
    }
    assert UnfinishedFor(q2[j], n) && q2[j].write.Create?;
  }

  lemma NewNoteIsQueued(h: HubState, r: Request, k: Key, c: Consumer, fault: bool, n: NoteId)
    requires var f := Find(h.queue, ByKey(k, c)); f.Some? ==> h.queue[f.value].status != Failed
    requires n !in h.notes && n in Serve(h, r, k, c, fault).0.notes
    ensures r.CreateNote? && n == r.id && CreateQueued(Serve(h, r, k, c, fault).0.queue, n)
  {
    var q2 := Serve(h, r, k, c, fault).0.queue;
    assert q2 == Enqueue(h.queue, k, c, Some(n), Create(r.title, r.body, r.tags));
    assert UnfinishedFor(q2[|h.queue|], n) && q2[|h.queue|].write.Create?;
  }

  /** A request that is no accepted PUT of n brings n no update and takes none away. */
  lemma UpdatesStay(h: HubState, r: Request, k: Key, c: Consumer, fault: bool, owner: Owner, n: NoteId)
    requires CalmHub(h, owner) && (r.UpdateNote? ==> c == owner(r.note))
    requires var f := Find(h.queue, ByKey(k, c)); f.Some? ==> h.queue[f.value].status != Failed
    requires NoUpdate(Serve(h, r, k, c, fault).0.queue, n)
    ensures NoUpdate(h.queue, n) && !(IsPut(h, r, k, c, fault) && r.note == n)
  {
    var q, q2 := h.queue, Serve(h, r, k, c, fault).0.queue;
    if IsPut(h, r, k, c, fault) {
      var b := h.notes[r.note].bearId.value;
      var slot := Slot(q, k, c, Some(r.note), Update(r.body, b));
      PutLandsAlone(q, r.note, b, r.body, k, c, owner);
      forall j | 0 <= j < |q| ensures !UpdateOf(q[j], n) {
        assert !UpdateOf(q2[j], n) && !UpdateOf(q2[slot], n);
      }
    } else {
      ServeKeepsUpdates(h, r, k, c, fault);
      forall j | 0 <= j < |q| ensures !UpdateOf(q[j], n) {
        assert !UpdateOf(q2[j], n);
      }
    }
  }

  lemma ServeAgrees(
    h: HubState, r: Request, k: Key, c: Consumer, fault: bool, owner: Owner, bear: Bear, raw: set<NoteId>)
    requires Inv(h) && FreshIds(h, r) && CalmHub(h, owner) && (r.UpdateNote? ==> c == owner(r.note))
    requires var f := Find(h.queue, ByKey(k, c)); f.Some? ==> h.queue[f.value].status != Failed
    requires AllAgree(h, bear, raw)
    ensures AllAgree(Serve(h, r, k, c, fault).0, bear, raw)
  {
    var h2 := Serve(h, r, k, c, fault).0;
    forall n | n in h2.notes ensures Agrees(h2, bear, raw, n) {
      ServeRow(h, r, k, c, fault, n);
      if n !in h.notes {
        NewNoteIsQueued(h, r, k, c, fault, n);
      } else if h.notes[n].bearId.None? {
        assert Agrees(h, bear, raw, n);
        ServeKeepsCreates(h, r, k, c, fault, n);
      } else {
        assert Agrees(h, bear, raw, n);
        if NoUpdate(h2.queue, n) {
          UpdatesStay(h, r, k, c, fault, owner, n);
          BodyStays(h, r, k, c, fault, n);
        }
      }
    }
  }

  lemma BodyStays(h: HubState, r: Request, k: Key, c: Consumer, fault: bool, n: NoteId)
    requires Inv(h) && FreshIds(h, r) && n in h.notes && h.notes[n].bearId.Some?
    requires !(IsPut(h, r, k, c, fault) && r.note == n) && n in Serve(h, r, k, c, fault).0.notes
    ensures Serve(h, r, k, c, fault).0.notes[n].body == h.notes[n].body
  {
    if !(r.UpdateNote? && r.note == n) {
      ServeContent(h, r, k, c, fault, n);
    }
  }

  // ---- Leases and pushes ----

  lemma LeaseAgrees(h: HubState, now: nat, bear: Bear, raw: set<NoteId>)
    requires AllAgree(h, bear, raw)
    ensures AllAgree(h.(queue := LeaseQueue(h.queue, now)), bear, raw)
  {
    var h2 := h.(queue := LeaseQueue(h.queue, now));
    forall j | 0 <= j < |h.queue| ensures Shuffled(h.queue[j], h2.queue[j]) {
      LeaseShuffles(h.queue, now, j);
    }
    forall n | n in h.notes ensures Agrees(h2, bear, raw, n) {
      assert Agrees(h, bear, raw, n);
      if h.notes[n].bearId.None? {
        var j :| 0 <= j < |h.queue| && UnfinishedFor(h.queue[j], n) && h.queue[j].write.Create?;
        assert UnfinishedFor(h2.queue[j], n) && h2.queue[j].write.Create?;
      } else if NoUpdate(h2.queue, n) {
        forall j | 0 <= j < |h.queue| ensures !UpdateOf(h.queue[j], n) {
          assert !UpdateOf(h2.queue[j], n);
        }
      }
    }
  }

  /** Each row after a push of Bear's own text: as before, or with that text. */
  lemma MirroredRow(h: HubState, ps: seq<PushNote>, deleted: set<BearId>, bear: Bear, n: NoteId)
    requires Inv(h) && FreshPush(h, ps) && Mirrors(bear, ps, deleted) && n in UpsertAll(h.notes, ps)
    ensures var v := UpsertAll(h.notes, ps)[n];
            && (n in h.notes ==> v.bearId == h.notes[n].bearId)
            && ((n in h.notes && v.body == h.notes[n].body && n !in Refreshed(h, ps))
                || (v.bearId.Some? && v.bearId.value in bear && v.body == bear[v.bearId.value].body))
            && (n !in h.notes ==> n !in bear && v.status == Synced)
  {
    if n in h.notes {
      UpsertAllRow(h, ps, n);
      if i :| 0 <= i < |ps| && Touches(ps[i], h.notes[n]) {
        assert UpsertAll(h.notes, ps)[n] == PushedNote(h.notes[n], ps[i]);
      }
    } else {
      UpsertAllNew(h, ps, n);
    }
  }

  lemma NothingDoomed(h: HubState, ps: seq<PushNote>, deleted: set<BearId>, bear: Bear, raw: set<NoteId>)
    requires Inv(h) && FreshPush(h, ps) && Mirrors(bear, ps, deleted) && AllAgree(h, bear, raw)
    ensures Push(h, ps, deleted) == h.(notes := UpsertAll(h.notes, ps))
  {
    var v := UpsertAll(h.notes, ps);
    forall n | n in v ensures v[n].bearId.Some? ==> v[n].bearId.value in bear {
      MirroredRow(h, ps, deleted, bear, n);
      if n in h.notes { assert Agrees(h, bear, raw, n); }
    }
    assert Doomed(v, deleted) == {};
    assert FailDoomed(h.queue, {}) == h.queue;
  }

  lemma PushAgrees(h: HubState, ps: seq<PushNote>, deleted: set<BearId>, bear: Bear, raw: set<NoteId>)
    requires Inv(h) && FreshPush(h, ps) && Mirrors(bear, ps, deleted) && AllAgree(h, bear, raw)
    requires h.notes.Keys !! bear.Keys
    ensures var h2 := Push(h, ps, deleted);
            AllAgree(h2, bear, raw - Refreshed(h, ps)) && h2.notes.Keys !! bear.Keys
  {
    var h2 := Push(h, ps, deleted);
    NothingDoomed(h, ps, deleted, bear, raw);
    forall n | n in h2.notes ensures n !in bear && Agrees(h2, bear, raw - Refreshed(h, ps), n) {
      MirroredRow(h, ps, deleted, bear, n);
      if n in h.notes { assert Agrees(h, bear, raw, n); }
    }
  }

  lemma PushBacked(h: HubState, ps: seq<PushNote>, deleted: set<BearId>, bear: Bear, raw: set<NoteId>)
    requires Inv(h) && FreshPush(h, ps) && Mirrors(bear, ps, deleted) && AllAgree(h, bear, raw) && AllBacked(h)
    ensures AllBacked(Push(h, ps, deleted))
  {
    var h2 := Push(h, ps, deleted);
    NothingDoomed(h, ps, deleted, bear, raw);
    forall n | n in h2.notes ensures Backed(h2, n) {
      PushRow(h, ps, deleted, n);
      if n in h.notes {
        assert Backed(h, n);
        if i :| 0 <= i < |ps| && Touches(ps[i], h.notes[n]) {
          assert h2.notes[n] == PushedNote(h.notes[n], ps[i]);
        }
      }
    }
  }

  // ---- The bridge at work ----

  /** The only rewrite of note b in a pass, acked as applied, leaves its body there. */
  lemma {:induction false} OneRewriteWins(bear: Bear, rows: seq<Leased>, outs: seq<Outcome>, b: BearId, k: nat)
    requires b in bear && Spares(rows, outs, b) && k < |rows| && Rewrites(rows[k], b)
    requires Acks(bear, rows, outs)[k].applied
    requires forall a | 0 <= a < |rows| && a != k :: !Rewrites(rows[a], b)
    ensures b in Pass(bear, rows, outs) && Pass(bear, rows, outs)[b].body == rows[k].item.write.body
    decreases |rows|
  {
    ApplyKeepsBody(bear, rows[0], outs[0], b);
    var bear2 := Apply(bear, rows[0], outs[0]).0;
    if k == 0 {
      AppliedRewrite(bear, rows[0], outs[0], b);
      PassKeepsBody(bear2, rows[1..], outs[1..], b);
    } else {
      assert Acks(bear, rows, outs)[k] == Acks(bear2, rows[1..], outs[1..])[k - 1];
      OneRewriteWins(bear2, rows[1..], outs[1..], b, k - 1);
    }
  }

  lemma {:induction false} PassKeepsIds(bear: Bear, rows: seq<Leased>, outs: seq<Outcome>, b: BearId)
    requires |outs| == |rows| && b in bear
    ensures b in Pass(bear, rows, outs)
    decreases |rows|
  {
    if rows != [] { PassKeepsIds(Apply(bear, rows[0], outs[0]).0, rows[1..], outs[1..], b); }
  }

  /** A note created in a pass, and reported with its id, is in Bear at the end. */
  lemma {:induction false} CreatedIsInBear(bear: Bear, rows: seq<Leased>, outs: seq<Outcome>, k: nat)
    requires |outs| == |rows| && k < |rows| && Acks(bear, rows, outs)[k].bearId.Some?
    ensures Acks(bear, rows, outs)[k].bearId == Some(outs[k].id) && outs[k].id in Pass(bear, rows, outs)
    decreases |rows|
  {
    var bear2 := Apply(bear, rows[0], outs[0]).0;
    if k == 0 {
      PassKeepsIds(bear2, rows[1..], outs[1..], outs[0].id);
    } else {
      assert Acks(bear, rows, outs)[k] == Acks(bear2, rows[1..], outs[1..])[k - 1];
      CreatedIsInBear(bear2, rows[1..], outs[1..], k - 1);
    }
  }

  lemma FirstCreateAcked(h: HubState, rows: seq<Leased>, acks: seq<AckItem>, n: NoteId)
    requires Inv(h) && InFlight(h, rows) && AckFor(rows, acks) && AckAll(h, acks).Ok? && rows != []
    requires n in h.notes && h.notes[n].status != Conflict
    requires rows[0].item.note == Some(n) && rows[0].item.write.Create? && acks[0].applied
    ensures n in AckAll(h, acks).value.notes && AckAll(h, acks).value.notes[n].bearId == acks[0].bearId
  {
    var a, h1, rest := acks[0], AckOne(h, acks[0]).value, acks[1..];
    assert ItemOk(h.queue[a.id], h.notes, h.blobs);
    OnlyCreate(h, a.id);
    forall j | 0 <= j < |rest| && rest[j].id < |h1.queue| ensures h1.queue[rest[j].id].note != Some(n) {
      assert rest[j].id == rows[j + 1].id && rows[j + 1].id != a.id;
    }
    AckAllUntouched(h1, rest, n);
  }

  /** The ack of a note's create gives the note its bear_id. */
  lemma {:induction false} CreateAcked(h: HubState, rows: seq<Leased>, acks: seq<AckItem>, n: NoteId, k: nat)
    requires Inv(h) && InFlight(h, rows) && AckFor(rows, acks) && AckAll(h, acks).Ok?
    requires n in h.notes && h.notes[n].status != Conflict && k < |rows|
    requires rows[k].item.note == Some(n) && rows[k].item.write.Create? && acks[k].applied
    ensures n in AckAll(h, acks).value.notes && AckAll(h, acks).value.notes[n].bearId == acks[k].bearId
    decreases |acks|
  {
    if k == 0 {
      FirstCreateAcked(h, rows, acks, n);
    } else {
      var a, h1 := acks[0], AckOne(h, acks[0]).value;
      AckStatusMatches(h, rows[0], a);
      AckOneKeeps(h, a);
      AckOneKeepsFlight(h, rows, a);
      AckOneRow(h, rows, acks, n);
      assert rows[1..][k - 1] == rows[k];
      CreateAcked(h1, rows[1..], acks[1..], n, k - 1);
    }
  }

  /** What Work assumes and the invariant gives, on the hub's side. */
  ghost predicate Working(w: World, raw: set<NoteId>, outs: seq<Outcome>, acks: seq<AckItem>, owner: Owner) {
    SmoothInv(w, raw, owner) && Smooth(w, Work(outs), owner) && acks == Acks(w.bear, w.sys.bridge.rows, outs)
  }

  /** A row in flight addresses the Bear note of its own hub note. */
  lemma RowAddress(w: World, raw: set<NoteId>, outs: seq<Outcome>, acks: seq<AckItem>, owner: Owner, a: nat)
    requires Working(w, raw, outs, acks, owner) && a < |w.sys.bridge.rows|
    ensures var h, row := w.sys.hub, w.sys.bridge.rows[a];
            && !IsConflictRow(row) && row.id < |h.queue| && h.queue[row.id] == row.item
            && row.item.status == Processing
            && (row.item.note.Some? ==> row.item.note.value in h.notes && row.item.note.value !in w.bear)
            && forall b :: Rewrites(row, b) ==>
                 && row.item.note.Some? && h.notes[row.item.note.value].bearId == Some(b)
                 && UpdateOf(row.item, row.item.note.value)
                 && h.notes[row.item.note.value].status == PendingToBear && b in w.bear
  {
    var h, row := w.sys.hub, w.sys.bridge.rows[a];
    assert ItemOk(h.queue[row.id], h.notes, h.blobs);
    if row.item.note.Some? { assert Agrees(h, w.bear, raw, row.item.note.value); }
  }

  lemma BatchRow(w: World, raw: set<NoteId>, outs: seq<Outcome>, acks: seq<AckItem>, owner: Owner, j: nat)
    returns (a: nat)
    requires Working(w, raw, outs, acks, owner) && j < |w.sys.hub.queue| && w.sys.hub.queue[j].status == Processing
    ensures a < |w.sys.bridge.rows| && w.sys.bridge.rows[a].id == j && w.sys.bridge.rows[a].item == w.sys.hub.queue[j]
  {
    assert InBatch(w.sys.bridge.rows, j);
    a :| 0 <= a < |w.sys.bridge.rows| && w.sys.bridge.rows[a].id == j;
  }

  lemma BatchSpares(
    w: World, raw: set<NoteId>, outs: seq<Outcome>, acks: seq<AckItem>, owner: Owner, n: NoteId, b: BearId)
    requires Working(w, raw, outs, acks, owner) && n in w.sys.hub.notes && w.sys.hub.notes[n].bearId == Some(b)
    ensures b in w.bear && Spares(w.sys.bridge.rows, outs, b)
    ensures forall a | 0 <= a < |w.sys.bridge.rows| && Rewrites(w.sys.bridge.rows[a], b) ::
              w.sys.bridge.rows[a].id < |w.sys.hub.queue| && UpdateOf(w.sys.hub.queue[w.sys.bridge.rows[a].id], n)
  {
    assert Agrees(w.sys.hub, w.bear, raw, n);
    forall a | 0 <= a < |w.sys.bridge.rows|
      ensures outs[a].id != b && w.sys.bridge.rows[a].item.note != Some(b)
      ensures Rewrites(w.sys.bridge.rows[a], b) ==>
                w.sys.bridge.rows[a].id < |w.sys.hub.queue| && UpdateOf(w.sys.hub.queue[w.sys.bridge.rows[a].id], n)
    {
      RowAddress(w, raw, outs, acks, owner, a);
    }
  }

  /** The batch holds the one update of n being processed: Bear has its body, which is the hub's if none is pending. */
  lemma RewrittenAgrees(
    w: World, raw: set<NoteId>, outs: seq<Outcome>, acks: seq<AckItem>, owner: Owner, n: NoteId, b: BearId, k: nat)
    requires Working(w, raw, outs, acks, owner) && n in w.sys.hub.notes && w.sys.hub.notes[n].bearId == Some(b)
    requires k < |w.sys.bridge.rows| && Rewrites(w.sys.bridge.rows[k], b)
    ensures var after := Pass(w.bear, w.sys.bridge.rows, outs);
            b in after && (NoPendingUpdate(w.sys.hub.queue, n) ==> after[b].body == w.sys.hub.notes[n].body)
  {
    var q, rows := w.sys.hub.queue, w.sys.bridge.rows;
    BatchSpares(w, raw, outs, acks, owner, n, b);
    RowAddress(w, raw, outs, acks, owner, k);
    forall a | 0 <= a < |rows| && a != k ensures !Rewrites(rows[a], b) {
      RowAddress(w, raw, outs, acks, owner, a);
      assert Single(q[rows[a].id], q[rows[k].id]);
    }
    OneRewriteWins(w.bear, rows, outs, b, k);
    if NoPendingUpdate(q, n) { assert Newest(q, n, rows[k].id); }
  }

  /** What is not being processed is as it was. */
  lemma NoUpdateBefore(
    w: World, raw: set<NoteId>, outs: seq<Outcome>, acks: seq<AckItem>, owner: Owner, n: NoteId, j: nat)
    requires Working(w, raw, outs, acks, owner) && j < |w.sys.hub.queue|
    requires NoUpdate(AckAll(w.sys.hub, acks).value.queue, n) && UpdateOf(w.sys.hub.queue[j], n)
    ensures w.sys.hub.queue[j].status == Processing && n in Rewritten(w.sys.bridge.rows)
  {
    AckAllSettles(w.sys.hub, acks);
    assert !UpdateOf(AckAll(w.sys.hub, acks).value.queue[j], n);
    var a := BatchRow(w, raw, outs, acks, owner, j);
  }

  /** After the pass, a note Bear knew before, for which no update is left and which is not raw, has the hub's body. */
  lemma KnownAgrees(
    w: World, raw: set<NoteId>, outs: seq<Outcome>, acks: seq<AckItem>, owner: Owner, n: NoteId, b: BearId)
    requires Working(w, raw, outs, acks, owner) && n in w.sys.hub.notes && w.sys.hub.notes[n].bearId == Some(b)
    ensures var rows := w.sys.bridge.rows;
            var after := Pass(w.bear, rows, outs);
            b in after &&
            (NoUpdate(AckAll(w.sys.hub, acks).value.queue, n) && n !in raw - Rewritten(rows) ==>
               after[b].body == w.sys.hub.notes[n].body)
  {
    var q, q2, rows := w.sys.hub.queue, AckAll(w.sys.hub, acks).value.queue, w.sys.bridge.rows;
    BatchSpares(w, raw, outs, acks, owner, n, b);
    if k :| 0 <= k < |rows| && Rewrites(rows[k], b) {
      RewrittenAgrees(w, raw, outs, acks, owner, n, b, k);
      if NoUpdate(q2, n) {
        forall j | 0 <= j < |q| ensures !PendingUpdateOf(q[j], n) {
          if UpdateOf(q[j], n) { NoUpdateBefore(w, raw, outs, acks, owner, n, j); }
        }
      }
    } else {
      PassKeepsBody(w.bear, rows, outs, b);
      UntouchedAgrees(w, raw, outs, acks, owner, n, b);
    }
  }

  lemma UntouchedAgrees(
    w: World, raw: set<NoteId>, outs: seq<Outcome>, acks: seq<AckItem>, owner: Owner, n: NoteId, b: BearId)
    requires Working(w, raw, outs, acks, owner) && n in w.sys.hub.notes && w.sys.hub.notes[n].bearId == Some(b)
    requires b in w.bear && forall a | 0 <= a < |w.sys.bridge.rows| :: !Rewrites(w.sys.bridge.rows[a], b)
    ensures NoUpdate(AckAll(w.sys.hub, acks).value.queue, n) && n !in raw - Rewritten(w.sys.bridge.rows) ==>
              w.bear[b].body == w.sys.hub.notes[n].body
  {
    var h, rows := w.sys.hub, w.sys.bridge.rows;
    assert Agrees(h, w.bear, raw, n);
    forall a | 0 <= a < |rows| && rows[a].item.write.Update? ensures rows[a].item.note != Some(n) {
      RowAddress(w, raw, outs, acks, owner, a);
      assert ItemOk(h.queue[rows[a].id], h.notes, h.blobs);
    }
    assert n !in Rewritten(rows);
    if NoUpdate(AckAll(h, acks).value.queue, n) {
      forall j | 0 <= j < |h.queue| ensures !UpdateOf(h.queue[j], n) {
        if UpdateOf(h.queue[j], n) { NoUpdateBefore(w, raw, outs, acks, owner, n, j); }
      }
    }
  }

  lemma PlainRow(h: HubState, rows: seq<Leased>, a: nat)
    requires InFlight(h, rows) && NoConflicts(h) && a < |rows|
    ensures !IsConflictRow(rows[a])
  {
  }

  lemma CreatedRowLands(h: HubState, bear: Bear, rows: seq<Leased>, outs: seq<Outcome>, n: NoteId, k: nat)
    requires Inv(h) && InFlight(h, rows) && |outs| == |rows| && n in h.notes && h.notes[n].status != Conflict
    requires var acks := Acks(bear, rows, outs); AckFor(rows, acks) && AllApplied(acks) && AckAll(h, acks).Ok?
    requires k < |rows| && rows[k].item.note == Some(n) && rows[k].item.write.Create? && !IsConflictRow(rows[k])
    ensures var h2, after := AckAll(h, Acks(bear, rows, outs)).value, Pass(bear, rows, outs);
            n in h2.notes && h2.notes[n].bearId.Some? && h2.notes[n].bearId.value in after
  {
    var acks := Acks(bear, rows, outs);
    CreateAcked(h, rows, acks, n, k);
    assert Reports(rows[k].item, rows[k].noteStatus, acks[k]);
    CreatedIsInBear(bear, rows, outs, k);
  }

  /** A note Bear did not know whose create is leased comes out of the batch under the id Bear gave it. */
  lemma LeasedCreateLands(h: HubState, bear: Bear, rows: seq<Leased>, outs: seq<Outcome>, n: NoteId, j: nat)
    requires Inv(h) && InFlight(h, rows) && |outs| == |rows| && n in h.notes && NoConflicts(h)
    requires var acks := Acks(bear, rows, outs); AckFor(rows, acks) && AllApplied(acks) && AckAll(h, acks).Ok?
    requires j < |h.queue| && UnfinishedFor(h.queue[j], n) && h.queue[j].write.Create? && InBatch(rows, j)
    ensures var h2, after := AckAll(h, Acks(bear, rows, outs)).value, Pass(bear, rows, outs);
            n in h2.notes && h2.notes[n].bearId.Some? && h2.notes[n].bearId.value in after
  {
    var k :| 0 <= k < |rows| && rows[k].id == j;
    PlainRow(h, rows, k);
    CreatedRowLands(h, bear, rows, outs, n, k);
  }

  lemma PendingCreateWaits(h: HubState, rows: seq<Leased>, acks: seq<AckItem>, n: NoteId, j: nat)
    requires Inv(h) && InFlight(h, rows) && AckFor(rows, acks) && AckAll(h, acks).Ok? && n in h.notes
    requires j < |h.queue| && UnfinishedFor(h.queue[j], n) && h.queue[j].write.Create? && h.queue[j].status == Pending
    ensures var h2 := AckAll(h, acks).value; n in h2.notes && h2.notes[n] == h.notes[n] && CreateQueued(h2.queue, n)
  {
    OnlyCreate(h, j);
    AckAllSettles(h, acks);
    forall k | 0 <= k < |acks| ensures h.queue[acks[k].id].note != Some(n) {
      assert acks[k].id == rows[k].id && acks[k].id != j;
    }
    AckAllUntouched(h, acks, n);
    assert UnfinishedFor(AckAll(h, acks).value.queue[j], n);
  }

  /** A note Bear did not know is created there and known from then on, raw at first, or it still waits. */
  lemma UnknownAgrees(h: HubState, bear: Bear, rows: seq<Leased>, outs: seq<Outcome>, raw: set<NoteId>, n: NoteId)
    requires Inv(h) && InFlight(h, rows) && |outs| == |rows| && NoConflicts(h)
    requires forall j | 0 <= j < |h.queue| && h.queue[j].status == Processing :: InBatch(rows, j)
    requires var acks := Acks(bear, rows, outs); AckFor(rows, acks) && AllApplied(acks) && AckAll(h, acks).Ok?
    requires n in h.notes && h.notes[n].bearId.None? && CreateQueued(h.queue, n)
    ensures var h2, after := AckAll(h, Acks(bear, rows, outs)).value, Pass(bear, rows, outs);
            n in h2.notes && Agrees(h2, after, raw + Created(h, h2), n)
  {
    var j :| 0 <= j < |h.queue| && UnfinishedFor(h.queue[j], n) && h.queue[j].write.Create?;
    if h.queue[j].status == Pending {
      PendingCreateWaits(h, rows, Acks(bear, rows, outs), n, j);
    } else {
      LeasedCreateLands(h, bear, rows, outs, n, j);
    }
  }

  lemma {:induction false} PassBearIds(bear: Bear, rows: seq<Leased>, outs: seq<Outcome>)
    requires |outs| == |rows|
    ensures forall b | b in Pass(bear, rows, outs) :: b in bear || exists a | 0 <= a < |rows| :: outs[a].id == b
    decreases |rows|
  {
    if rows != [] {
      var bear2 := Apply(bear, rows[0], outs[0]).0;
      PassBearIds(bear2, rows[1..], outs[1..]);
      forall b | b in Pass(bear2, rows[1..], outs[1..])
        ensures b in bear || exists a | 0 <= a < |rows| :: outs[a].id == b
      {
        if b !in bear2 {
          var a :| 0 <= a < |rows[1..]| && outs[1..][a].id == b;
          assert outs[a + 1].id == b;
        } else if b !in bear {
          assert outs[0].id == b;
        }
      }
    }
  }

  /** A note that a batch of applied rows leaves unsynced has an unfinished row outside it. */
  lemma RowLeft(h: HubState, rows: seq<Leased>, acks: seq<AckItem>, n: NoteId) returns (j: nat)
    requires Inv(h) && InFlight(h, rows) && AckFor(rows, acks) && AllApplied(acks) && AckAll(h, acks).Ok?
    requires n in h.notes && Backed(h, n) && h.notes[n].status == PendingToBear
    requires n in AckAll(h, acks).value.notes && AckAll(h, acks).value.notes[n].status == PendingToBear
    ensures j < |h.queue| && UnfinishedFor(h.queue[j], n) && !InBatch(rows, j)
  {
    var k := Guarantees.LastRowExists(rows, n);
    if k.Some? {
      LastAckDecides(h, rows, acks, n, k.value);
      assert !Covers(h.queue, rows, n);
      j :| 0 <= j < |h.queue| && UnfinishedFor(h.queue[j], n) && !InBatch(rows, j);
    } else {
      j :| 0 <= j < |h.queue| && UnfinishedFor(h.queue[j], n);
    }
  }

  lemma WorkBacked(h: HubState, rows: seq<Leased>, acks: seq<AckItem>, n: NoteId)
    requires Inv(h) && InFlight(h, rows) && AckFor(rows, acks) && AllApplied(acks) && AckAll(h, acks).Ok?
    requires n in h.notes && Backed(h, n)
    ensures n in AckAll(h, acks).value.notes && Backed(AckAll(h, acks).value, n)
  {
    var h2 := AckAll(h, acks).value;
    AckAllRow(h, rows, acks, n);
    if h2.notes[n].status == PendingToBear {
      var left := RowLeft(h, rows, acks, n);
      OutsideRowStays(h, rows, acks, left);
      assert UnfinishedFor(h2.queue[left], n);
    }
  }

  lemma WorkAgrees(w: World, raw: set<NoteId>, outs: seq<Outcome>, owner: Owner)
    requires SmoothInv(w, raw, owner) && Smooth(w, Work(outs), owner)
    ensures var w2 := Moved(w, Work(outs), owner);
            && NoConflicts(w2.sys.hub) && AllBacked(w2.sys.hub) && w2.sys.hub.notes.Keys !! w2.bear.Keys
            && AllAgree(w2.sys.hub, w2.bear, RawAfter(w, raw, Work(outs), owner))
  {
    var h, rows := w.sys.hub, w.sys.bridge.rows;
    var acks := Acks(w.bear, rows, outs);
    var h2, w2, raw2 := AckAll(h, acks).value, Moved(w, Work(outs), owner), RawAfter(w, raw, Work(outs), owner);
    assert w2.sys.hub.notes == h2.notes && w2.sys.hub.queue == h2.queue;
    PassBearIds(w.bear, rows, outs);
    forall n | n in h2.notes
      ensures h2.notes[n].status != Conflict && n !in w2.bear
      ensures Backed(w2.sys.hub, n) && Agrees(w2.sys.hub, w2.bear, raw2, n)
    {
      AckAllRow(h, rows, acks, n);
      assert Backed(h, n);
      WorkBacked(h, rows, acks, n);
      if h.notes[n].bearId.None? {
        assert Agrees(h, w.bear, raw, n);
        UnknownAgrees(h, w.bear, rows, outs, raw, n);
      } else {
        KnownAgrees(w, raw, outs, acks, owner, n, h.notes[n].bearId.value);
      }
    }
  }

  // ---- Requests and unsynced notes ----

  /** A request takes no unfinished row away from a note. */
  lemma UnfinishedStays(h: HubState, r: Request, k: Key, c: Consumer, fault: bool, n: NoteId, j: nat)
    requires j < |h.queue| && UnfinishedFor(h.queue[j], n)
    ensures var q2 := Serve(h, r, k, c, fault).0.queue; j < |q2| && UnfinishedFor(q2[j], n)
  {
    ServeEnqueues(h, r, k, c, fault);
    var q2 := Serve(h, r, k, c, fault).0.queue;
    if note, w :| q2 == Enqueue(h.queue, k, c, note, w) && !Answered(h.queue, k, c) {
      EnqueuePlaces(h.queue, k, c, note, w);
    }
  }

  lemma EnqueuedRow(q: Queue, k: Key, c: Consumer, n: NoteId, w: Write)
    requires !Answered(q, k, c)
    ensures exists j | 0 <= j < |Enqueue(q, k, c, Some(n), w)| :: UnfinishedFor(Enqueue(q, k, c, Some(n), w)[j], n)
  {
    EnqueuePlaces(q, k, c, Some(n), w);
    assert UnfinishedFor(Enqueue(q, k, c, Some(n), w)[Slot(q, k, c, Some(n), w)], n);
  }

  /** A note that a request marks unsynced has the request's row. */
  lemma MarkedIsQueued(h: HubState, r: Request, k: Key, c: Consumer, fault: bool, n: NoteId)
    requires var h2 := Serve(h, r, k, c, fault).0;
             && n in h2.notes && h2.notes[n].status == PendingToBear
             && !(n in h.notes && h.notes[n].status == PendingToBear)
    ensures exists j | 0 <= j < |Serve(h, r, k, c, fault).0.queue| ::
              UnfinishedFor(Serve(h, r, k, c, fault).0.queue[j], n)
  {
    match r
    case CreateNote(title, body, tags, _, _) => EnqueuedRow(h.queue, k, c, n, Create(title, body, tags));
    case UpdateNote(_, body) => EnqueuedRow(h.queue, k, c, n, Update(body, h.notes[n].bearId.value));
    case TrashNote(_) => EnqueuedRow(h.queue, k, c, n, Trash(h.notes[n].bearId.value));
    case ArchiveNote(_) => EnqueuedRow(h.queue, k, c, n, Archive(h.notes[n].bearId.value));
  }

  lemma ServeBacked(h: HubState, r: Request, k: Key, c: Consumer, fault: bool)
    requires AllBacked(h)
    ensures AllBacked(Serve(h, r, k, c, fault).0)
  {
    var h2 := Serve(h, r, k, c, fault).0;
    forall n | n in h2.notes ensures Backed(h2, n) {
      if h2.notes[n].status == PendingToBear {
        if n in h.notes && h.notes[n].status == PendingToBear {
          assert Backed(h, n);
          var j :| 0 <= j < |h.queue| && UnfinishedFor(h.queue[j], n);
          UnfinishedStays(h, r, k, c, fault, n, j);
        } else {
          MarkedIsQueued(h, r, k, c, fault, n);
        }
      }
    }
  }

  lemma LeaseBacked(h: HubState, now: nat)
    requires AllBacked(h)
    ensures AllBacked(h.(queue := LeaseQueue(h.queue, now)))
  {
    var h2 := h.(queue := LeaseQueue(h.queue, now));
    forall n | n in h.notes && h.notes[n].status == PendingToBear ensures Backed(h2, n) {
      assert Backed(h, n);
      var j :| 0 <= j < |h.queue| && UnfinishedFor(h.queue[j], n);
      LeaseShuffles(h.queue, now, j);
      assert UnfinishedFor(h2.queue[j], n);
    }
  }

  // ---- Titles ----

  lemma PutIsTitled(h: HubState, r: Request, k: Key, c: Consumer, fault: bool)
    requires IsPut(h, r, k, c, fault)
    ensures var v := Serve(h, r, k, c, fault).0.notes;
            r.note in v && v[r.note].title == NoteTitle.TitleOf(v[r.note].body)
  {
  }

  /** A request that is no accepted PUT of n brings no update of n. */
  lemma NoNewUpdate(h: HubState, r: Request, k: Key, c: Consumer, fault: bool, owner: Owner, n: NoteId)
    requires CalmHub(h, owner) && (r.UpdateNote? ==> c == owner(r.note))
    requires var f := Find(h.queue, ByKey(k, c)); f.Some? ==> h.queue[f.value].status != Failed
    requires !(IsPut(h, r, k, c, fault) && r.note == n) && NoUpdate(h.queue, n)
    ensures NoUpdate(Serve(h, r, k, c, fault).0.queue, n)
  {
    var q, q2 := h.queue, Serve(h, r, k, c, fault).0.queue;
    if IsPut(h, r, k, c, fault) {
      PutLandsAlone(q, r.note, h.notes[r.note].bearId.value, r.body, k, c, owner);
    } else {
      ServeKeepsUpdates(h, r, k, c, fault);
    }
  }

  lemma ServeTitled(h: HubState, r: Request, k: Key, c: Consumer, fault: bool, owner: Owner, raw: set<NoteId>)
    requires Inv(h) && FreshIds(h, r) && CalmHub(h, owner) && (r.UpdateNote? ==> c == owner(r.note))
    requires var f := Find(h.queue, ByKey(k, c)); f.Some? ==> h.queue[f.value].status != Failed
    requires AllTitled(h, raw)
    ensures AllTitled(Serve(h, r, k, c, fault).0, raw)
  {
    var h2 := Serve(h, r, k, c, fault).0;
    forall n | n in h2.notes && h2.notes[n].bearId.Some? && (n !in raw || !NoUpdate(h2.queue, n))
      ensures h2.notes[n].title == NoteTitle.TitleOf(h2.notes[n].body)
    {
      if IsPut(h, r, k, c, fault) && r.note == n {
        PutIsTitled(h, r, k, c, fault);
      } else {
        ServeRow(h, r, k, c, fault, n);
        TitleStays(h, r, k, c, fault, n);
        if NoUpdate(h.queue, n) { NoNewUpdate(h, r, k, c, fault, owner, n); }
      }
    }
  }

  lemma TitleStays(h: HubState, r: Request, k: Key, c: Consumer, fault: bool, n: NoteId)
    requires Inv(h) && FreshIds(h, r) && n in h.notes && h.notes[n].bearId.Some?
    requires !(IsPut(h, r, k, c, fault) && r.note == n) && n in Serve(h, r, k, c, fault).0.notes
    ensures var v2 := Serve(h, r, k, c, fault).0.notes[n]; v2.title == h.notes[n].title && v2.body == h.notes[n].body
  {
    if !(r.UpdateNote? && r.note == n) {
      ServeContent(h, r, k, c, fault, n);
    }
  }

  lemma LeaseTitled(h: HubState, now: nat, raw: set<NoteId>)
    requires AllTitled(h, raw)
    ensures AllTitled(h.(queue := LeaseQueue(h.queue, now)), raw)
  {
    var q2 := LeaseQueue(h.queue, now);
    forall n | NoUpdate(h.queue, n) ensures NoUpdate(q2, n) {
      forall j | 0 <= j < |q2| ensures !UpdateOf(q2[j], n) {
        LeaseShuffles(h.queue, now, j);
        assert !UpdateOf(h.queue[j], n);
      }
    }
  }

  lemma WorkTitled(h: HubState, rows: seq<Leased>, acks: seq<AckItem>, raw: set<NoteId>)
    requires Inv(h) && InFlight(h, rows) && AckFor(rows, acks) && AckAll(h, acks).Ok? && AllTitled(h, raw)
    ensures var h2 := AckAll(h, acks).value; AllTitled(h2, raw - Rewritten(rows) + Created(h, h2))
  {
    var h2 := AckAll(h, acks).value;
    var raw2 := raw - Rewritten(rows) + Created(h, h2);
    forall n | n in h2.notes && h2.notes[n].bearId.Some? && (n !in raw2 || !NoUpdate(h2.queue, n))
      ensures h2.notes[n].title == NoteTitle.TitleOf(h2.notes[n].body)
    {
      AckAllRow(h, rows, acks, n);
      if !NoUpdate(h2.queue, n) {
        UpdateWasThere(h, acks, n);
      } else if n in Rewritten(rows) {
        RewrittenHasUpdate(h, rows, n);
      }
    }
  }

  lemma UpdateWasThere(h: HubState, acks: seq<AckItem>, n: NoteId)
    requires Inv(h) && AckAll(h, acks).Ok? && !NoUpdate(AckAll(h, acks).value.queue, n)
    ensures !NoUpdate(h.queue, n) && n in h.notes && h.notes[n].bearId.Some?
  {
    AckAllSettles(h, acks);
    var q2 := AckAll(h, acks).value.queue;
    var j :| 0 <= j < |q2| && UpdateOf(q2[j], n);
    assert UpdateOf(h.queue[j], n) && ItemOk(h.queue[j], h.notes, h.blobs);
  }

  lemma RewrittenHasUpdate(h: HubState, rows: seq<Leased>, n: NoteId)
    requires InFlight(h, rows) && n in Rewritten(rows)
    ensures !NoUpdate(h.queue, n)
  {
    var a :| 0 <= a < |rows| && rows[a].item.write.Update? && rows[a].item.note == Some(n);
    assert UpdateOf(h.queue[rows[a].id], n);
  }

  lemma PushTitled(h: HubState, ps: seq<PushNote>, deleted: set<BearId>, bear: Bear, raw: set<NoteId>)
    requires Inv(h) && FreshPush(h, ps) && Mirrors(bear, ps, deleted) && AllAgree(h, bear, raw) && AllTitled(h, raw)
    ensures AllTitled(Push(h, ps, deleted), raw - Refreshed(h, ps))
  {
    var h2 := Push(h, ps, deleted);
    NothingDoomed(h, ps, deleted, bear, raw);
    forall n | n in h2.notes && h2.notes[n].bearId.Some? && (n !in raw - Refreshed(h, ps) || !NoUpdate(h2.queue, n))
      ensures h2.notes[n].title == NoteTitle.TitleOf(h2.notes[n].body)
    {
      if n in h.notes {
        assert Agrees(h, bear, raw, n);
        PushBringsEntry(h, ps, deleted, n);
        if i :| 0 <= i < |ps| && Touches(ps[i], h.notes[n]) {
          assert if h.notes[n].status == PendingToBear then Protected(h.notes[n], h2.notes[n], ps[i])
                 else AsPushed(h2.notes[n], ps[i]);
        }
      } else {
        UpsertAllNew(h, ps, n);
      }
    }
  }

  // ---- Runs ----

  lemma MoveKeeps(w: World, raw: set<NoteId>, m: Move, owner: Owner)
    requires SmoothInv(w, raw, owner) && Smooth(w, m, owner)
    ensures SmoothInv(Moved(w, m, owner), RawAfter(w, raw, m, owner), owner)
  {
    match m
    case AtHub(t) =>
      StepKeepsCalm(w.sys, t, owner);
      HubMoveKeeps(w, raw, t, owner);
    case Work(outs) =>
      StepKeepsCalm(w.sys, Ack(Acks(w.bear, w.sys.bridge.rows, outs)), owner);
      WorkAgrees(w, raw, outs, owner);
      WorkTitled(w.sys.hub, w.sys.bridge.rows, Acks(w.bear, w.sys.bridge.rows, outs), raw);
    case Deliver(ps, deleted) =>
      StepKeepsCalm(w.sys, PushDelta(ps, deleted), owner);
      PushAgrees(w.sys.hub, ps, deleted, w.bear, raw);
      PushBacked(w.sys.hub, ps, deleted, w.bear, raw);
      PushTitled(w.sys.hub, ps, deleted, w.bear, raw);
    case InBear(b, note) =>
      forall n | n in w.sys.hub.notes ensures Agrees(w.sys.hub, w.bear[b := note], raw, n) {
        assert Agrees(w.sys.hub, w.bear, raw, n);
      }
  }

  lemma HubMoveKeeps(w: World, raw: set<NoteId>, t: Step, owner: Owner)
    requires SmoothInv(w, raw, owner) && Smooth(w, AtHub(t), owner)
    ensures var h2 := Next(w.sys, t).hub;
            && NoConflicts(h2) && AllBacked(h2) && AllTitled(h2, raw)
            && h2.notes.Keys !! w.bear.Keys && AllAgree(h2, w.bear, raw)
  {
    match t
    case Consume(r, k, c, fault) =>
      ServeAgrees(w.sys.hub, r, k, c, fault, owner, w.bear, raw);
      ServeBacked(w.sys.hub, r, k, c, fault);
      ServeTitled(w.sys.hub, r, k, c, fault, owner, raw);
      forall n | n in Next(w.sys, t).hub.notes ensures n !in w.bear && Next(w.sys, t).hub.notes[n].status != Conflict {
        ServeConflicts(w.sys.hub, r, k, c, fault, n);
        if n !in w.sys.hub.notes { NewNoteIsQueued(w.sys.hub, r, k, c, fault, n); }
      }
    case Lease(now) =>
      LeaseAgrees(w.sys.hub, now, w.bear, raw);
      LeaseBacked(w.sys.hub, now);
      LeaseTitled(w.sys.hub, now, raw);
    case Resend => RedeliveryChangesNothing(w.sys);
    case AckSeen =>
    case Crash =>
  }

  ghost predicate SmoothRun(w: World, ms: seq<Move>, owner: Owner)
    decreases |ms|
  {
    ms == [] || (Smooth(w, ms[0], owner) && SmoothRun(Moved(w, ms[0], owner), ms[1..], owner))
  }

  ghost function AfterMoves(w: World, ms: seq<Move>, owner: Owner): World
    requires SmoothRun(w, ms, owner)
    decreases |ms|
  {
    if ms == [] then w else AfterMoves(Moved(w, ms[0], owner), ms[1..], owner)
  }

  ghost function RawOver(w: World, raw: set<NoteId>, ms: seq<Move>, owner: Owner): set<NoteId>
    requires SmoothRun(w, ms, owner)
    decreases |ms|
  {
    if ms == [] then raw else RawOver(Moved(w, ms[0], owner), RawAfter(w, raw, ms[0], owner), ms[1..], owner)
  }

  lemma {:induction false} SmoothRunKeeps(w: World, raw: set<NoteId>, ms: seq<Move>, owner: Owner)
    requires SmoothInv(w, raw, owner) && SmoothRun(w, ms, owner)
    ensures SmoothInv(AfterMoves(w, ms, owner), RawOver(w, raw, ms, owner), owner)
    decreases |ms|
  {
    if ms != [] {
      MoveKeeps(w, raw, ms[0], owner);
      SmoothRunKeeps(Moved(w, ms[0], owner), RawAfter(w, raw, ms[0], owner), ms[1..], owner);
    }
  }

  predicate AllFinished(q: Queue) { forall j | 0 <= j < |q| :: !q[j].Unfinished() }

  /** The hub's row shows the text and title of its note in Bear. */
  predicate ShowsBear(v: Note, bear: Bear) {
    && v.bearId.Some? && v.bearId.value in bear
    && v.body == bear[v.bearId.value].body && v.title == NoteTitle.TitleOf(bear[v.bearId.value].body)
  }

  /**
   * From an empty hub and any Bear, at every moment of a smooth run: a note Bear knows shows exactly Bear's text unless
   * an update of it is under way or it is still raw, and once nothing is under way every note of the hub is synced and
   * in Bear.
   */
  lemma Converges(bear: Bear, ms: seq<Move>, owner: Owner)
    requires SmoothRun(World(START, bear), ms, owner)
    ensures var w, raw := AfterMoves(World(START, bear), ms, owner), RawOver(World(START, bear), {}, ms, owner);
            && (forall n | n in w.sys.hub.notes && w.sys.hub.notes[n].bearId.Some? ::
                  NoUpdate(w.sys.hub.queue, n) && n !in raw ==> ShowsBear(w.sys.hub.notes[n], w.bear))
            && (AllFinished(w.sys.hub.queue) ==>
                  forall n | n in w.sys.hub.notes ::
                    && w.sys.hub.notes[n].status == Synced
                    && w.sys.hub.notes[n].bearId.Some? && w.sys.hub.notes[n].bearId.value in w.bear)
  {
    SmoothRunKeeps(World(START, bear), {}, ms, owner);
    var w, raw := AfterMoves(World(START, bear), ms, owner), RawOver(World(START, bear), {}, ms, owner);
    forall n | n in w.sys.hub.notes ensures Agrees(w.sys.hub, w.bear, raw, n) && Backed(w.sys.hub, n) {}
  }

  /** Nothing is under way, and the push carries every raw note. */
  ghost predicate Completing(w: World, raw: set<NoteId>, owner: Owner, ps: seq<PushNote>, deleted: set<BearId>) {
    && AllFinished(w.sys.hub.queue) && Smooth(w, Deliver(ps, deleted), owner)
    && forall n | n in raw && n in w.sys.hub.notes :: Carries(ps, w.sys.hub.notes[n])
  }

  /** The next push that carries the raw notes then makes every note of the hub show Bear's text. */
  lemma PushCompletes(bear: Bear, ms: seq<Move>, owner: Owner, ps: seq<PushNote>, deleted: set<BearId>)
    requires SmoothRun(World(START, bear), ms, owner)
    requires var w, raw := AfterMoves(World(START, bear), ms, owner), RawOver(World(START, bear), {}, ms, owner);
             Completing(w, raw, owner, ps, deleted)
    ensures var w2 := Moved(AfterMoves(World(START, bear), ms, owner), Deliver(ps, deleted), owner);
            forall n | n in w2.sys.hub.notes :: ShowsBear(w2.sys.hub.notes[n], w2.bear)
  {
    RunThenPush(World(START, bear), {}, ms, owner, ps, deleted);
  }

  lemma RunThenPush(
    w0: World, raw0: set<NoteId>, ms: seq<Move>, owner: Owner, ps: seq<PushNote>, deleted: set<BearId>)
    requires SmoothInv(w0, raw0, owner) && SmoothRun(w0, ms, owner)
    requires var w, raw := AfterMoves(w0, ms, owner), RawOver(w0, raw0, ms, owner);
             Completing(w, raw, owner, ps, deleted)
    ensures var w2 := Moved(AfterMoves(w0, ms, owner), Deliver(ps, deleted), owner);
            forall n | n in w2.sys.hub.notes :: ShowsBear(w2.sys.hub.notes[n], w2.bear)
  {
    SmoothRunKeeps(w0, raw0, ms, owner);
    PushRefreshes(AfterMoves(w0, ms, owner), RawOver(w0, raw0, ms, owner), owner, ps, deleted);
  }

  lemma PushRefreshes(w: World, raw: set<NoteId>, owner: Owner, ps: seq<PushNote>, deleted: set<BearId>)
    requires SmoothInv(w, raw, owner) && Completing(w, raw, owner, ps, deleted)
    ensures var w2 := Moved(w, Deliver(ps, deleted), owner);
            forall n | n in w2.sys.hub.notes :: ShowsBear(w2.sys.hub.notes[n], w2.bear)
  {
    var h := w.sys.hub;
    forall n | n in Push(h, ps, deleted).notes ensures ShowsBear(Push(h, ps, deleted).notes[n], w.bear) {
      RefreshedRow(h, ps, deleted, w.bear, raw, n);
    }
  }

  lemma RefreshedRow(
    h: HubState, ps: seq<PushNote>, deleted: set<BearId>, bear: Bear, raw: set<NoteId>, n: NoteId)
    requires Inv(h) && FreshPush(h, ps) && Mirrors(bear, ps, deleted) && NoConflicts(h) && AllFinished(h.queue)
    requires AllAgree(h, bear, raw) && AllBacked(h) && AllTitled(h, raw)
    requires n in raw && n in h.notes ==> Carries(ps, h.notes[n])
    requires n in Push(h, ps, deleted).notes
    ensures ShowsBear(Push(h, ps, deleted).notes[n], bear)
  {
    NothingDoomed(h, ps, deleted, bear, raw);
    if n !in h.notes {
      UpsertAllNew(h, ps, n);
    } else {
      assert Agrees(h, bear, raw, n) && Backed(h, n);
      PushBringsEntry(h, ps, deleted, n);
      if i :| 0 <= i < |ps| && Touches(ps[i], h.notes[n]) {
        assert AsPushed(Push(h, ps, deleted).notes[n], ps[i]);
      }
    }
  }
}
