/** From a consumer's request to Bear: what an accepted write ends as there, and what becomes of conflicting texts. */
module Delivery {
  import opened Model
  import opened Store
  import opened Handlers
  import opened Invariant
  import opened Protocol
  import opened Guarantees
  import opened BearBridge
  import opened BearEffects
  import opened Requests
  import opened Coalescing
  import Convergence

  // ---- A row over a run ----

  /** Row j is the only one with this key, and holds this write for good. */
  predicate Owns(q: Queue, j: nat, k: Key, c: Consumer, note: Option<NoteId>, w: Write) {
    && j < |q| && q[j].key == k && q[j].consumer == c && q[j].secondary.None? && q[j].note == note && q[j].write == w
    && forall i | 0 <= i < |q| && Keyed(q[i], k, c) :: i == j
  }

  /** No request comes under this key again. */
  predicate NotReused(run: seq<Step>, k: Key, c: Consumer) {
    forall i | 0 <= i < |run| && run[i].Consume? :: run[i].k != k || run[i].c != c
  }

  predicate SameContent(q: Queue, q2: Queue) {
    |q| == |q2| && forall i | 0 <= i < |q| :: q2[i] == q[i].(status := q2[i].status, leaseUntil := q2[i].leaseUntil)
  }

  lemma OwnsThroughEnqueue(
    q: Queue, k2: Key, c2: Consumer, note2: Option<NoteId>, w2: Write, j: nat, k: Key, c: Consumer,
    note: Option<NoteId>, w: Write)
    requires Owns(q, j, k, c, note, w) && !w.Update? && (k2 != k || c2 != c)
    ensures Owns(Enqueue(q, k2, c2, note2, w2), j, k, c, note, w)
  {
    var i := Slot(q, k2, c2, note2, w2);
    assert !q[j].Answers(k2, c2);
    assert i != j;
  }

  lemma OwnsThroughMerge(
    q: Queue, k2: Key, c2: Consumer, n: NoteId, body: string, j: nat, k: Key, c: Consumer,
    note: Option<NoteId>, w: Write)
    requires Owns(q, j, k, c, note, w) && !w.Create? && (k2 != k || c2 != c)
    requires CoalesceCreate(q, k2, c2, n, body).Some?
    ensures Owns(CoalesceCreate(q, k2, c2, n, body).value, j, k, c, note, w)
  {
  }

  lemma OwnsThroughRequest(
    h: HubState, r: Request, k2: Key, c2: Consumer, fault: bool, j: nat, k: Key, c: Consumer, note: Option<NoteId>,
    w: Write)
    requires Owns(h.queue, j, k, c, note, w) && !w.Update? && !w.Create? && (k2 != k || c2 != c)
    ensures Owns(Serve(h, r, k2, c2, fault).0.queue, j, k, c, note, w)
  {
    ServeEnqueues(h, r, k2, c2, fault);
    var q, q2 := h.queue, Serve(h, r, k2, c2, fault).0.queue;
    if note2, w2 :| q2 == Enqueue(q, k2, c2, note2, w2) {
      OwnsThroughEnqueue(q, k2, c2, note2, w2, j, k, c, note, w);
    } else if q2 != q {
      OwnsThroughMerge(q, k2, c2, r.note, r.body, j, k, c, note, w);
    }
  }

  lemma OtherStepsKeepContent(s: Sys, t: Step)
    requires SysInv(s) && Enabled(s, t) && !t.Consume?
    ensures SameContent(s.hub.queue, Next(s, t).hub.queue)
  {
    match t
    case PushDelta(_, _) =>
    case Lease(_) =>
    case Ack(acks) => if AckAll(s.hub, acks).Ok? { AckAllSettles(s.hub, acks); }
    case Resend => RedeliveryChangesNothing(s);
    case AckSeen =>
    case Crash =>
  }

  lemma OwnsThroughStep(s: Sys, t: Step, j: nat, k: Key, c: Consumer, note: Option<NoteId>, w: Write)
    requires SysInv(s) && Enabled(s, t) && Owns(s.hub.queue, j, k, c, note, w) && !w.Update? && !w.Create?
    requires t.Consume? ==> t.k != k || t.c != c
    ensures Owns(Next(s, t).hub.queue, j, k, c, note, w)
  {
    if t.Consume? {
      OwnsThroughRequest(s.hub, t.r, t.k, t.c, t.fault, j, k, c, note, w);
    } else {
      OtherStepsKeepContent(s, t);
      assert SameContent(s.hub.queue, Next(s, t).hub.queue);
    }
  }

  lemma {:induction false} OwnsThroughRun(
    s: Sys, run: seq<Step>, j: nat, k: Key, c: Consumer, note: Option<NoteId>, w: Write)
    requires SysInv(s) && Legal(s, run) && Owns(s.hub.queue, j, k, c, note, w) && !w.Update? && !w.Create?
    requires NotReused(run, k, c)
    ensures Owns(After(s, run).hub.queue, j, k, c, note, w)
    decreases |run|
  {
    if run != [] {
      StepKeeps(s, run[0]);
      OwnsThroughStep(s, run[0], j, k, c, note, w);
      OwnsThroughRun(Next(s, run[0]), run[1..], j, k, c, note, w);
    }
  }

  // ---- From the request to Bear ----

  /** Bear's note is as the request wanted it. */
  predicate Fulfilled(v: BearNote, r: Request) {
    match r
    case TrashNote(_) => v.trashed
    case ArchiveNote(_) => v.archived
    case TagNote(_, tag) => tag in v.tags
    case AttachFile(_, upload, _) =>
      upload.Some? && (if upload.value.base in {"", ".", "/"} then "file" else upload.value.base) in v.files
    case _ => false
  }

  /** The requests whose rows no later request can change. */
  predicate Settles(r: Request) { r.TrashNote? || r.ArchiveNote? || r.TagNote? || r.AttachFile? }

  lemma ServedRow(h: HubState, r: Request, k: Key, c: Consumer, n: NoteId, b: BearId) returns (j: nat, w: Write)
    requires Unused(h.queue, k, c) && Settles(r) && About(r) == Some(n) && KnownAs(h, n) == Some(b)
    requires Serve(h, r, k, c, false).1 == Done
    ensures Owns(Serve(h, r, k, c, false).0.queue, j, k, c, Some(n), w)
    ensures NoteWrite(w) && !w.Update? && w.bear == b && forall v :: HasWrite(v, w) ==> Fulfilled(v, r)
  {
    AcceptedIsQueued(h, r, k, c, false);
    var q2 := Serve(h, r, k, c, false).0.queue;
    j :| QueuedAt(h, r, k, c, q2, j);
    w := q2[j].write;
  }

  /**
   * An accepted trash, archive, tag or attachment reaches its note: whatever run follows without that key, once the
   * row with the key is with the bridge and acked as applied, Bear's note is as asked, unless the same pass removes
   * the tag.
   */
  lemma RequestReachesBear(
    s: Sys, r: Request, k: Key, c: Consumer, n: NoteId, b: BearId, run: seq<Step>, bear: Bear,
    outs: seq<Outcome>, a: nat)
    requires SysInv(s) && Enabled(s, Consume(r, k, c, false)) && Unused(s.hub.queue, k, c)
    requires Settles(r) && About(r) == Some(n) && KnownAs(s.hub, n) == Some(b)
    requires Serve(s.hub, r, k, c, false).1 == Done
    requires Legal(Next(s, Consume(r, k, c, false)), run) && NotReused(run, k, c)
    requires var bridge := After(Next(s, Consume(r, k, c, false)), run).bridge;
             && bridge.Holding? && |outs| == |bridge.rows| && a < |bridge.rows|
             && Keyed(bridge.rows[a].item, k, c) && bridge.rows[a].noteStatus != Some(Conflict)
             && Acks(bear, bridge.rows, outs)[a].applied
             && (forall i | a < i < |bridge.rows| && Acks(bear, bridge.rows, outs)[i].applied ::
                   !Undoes(bridge.rows[i], b, bridge.rows[a].item.write))
    requires b in bear && forall i | 0 <= i < |outs| :: outs[i].id != b
    ensures var after := Pass(bear, After(Next(s, Consume(r, k, c, false)), run).bridge.rows, outs);
            b in after && Fulfilled(after[b], r)
  {
    var s1 := Next(s, Consume(r, k, c, false));
    var j, w := ServedRow(s.hub, r, k, c, n, b);
    StepKeeps(s, Consume(r, k, c, false));
    OwnsThroughRun(s1, run, j, k, c, Some(n), w);
    RunKeeps(s1, run);
    var s2 := After(s1, run);
    assert s2.hub.queue[s2.bridge.rows[a].id] == s2.bridge.rows[a].item;
    AppliedRowsShow(bear, s2.bridge.rows, outs, b, a);
  }

  // ---- Conflicting texts over runs ----

  /** InBear: someone adds a note to Bear or changes one; only what the bridge once asked for stays on record. */
  datatype Event =
    | AtHub(t: Step)
    | Work(outs: seq<Outcome>)
    | InBear(b: BearId, note: BearNote)

  ghost predicate Possible(w: World, e: Event) {
    match e
    case AtHub(t) => !t.Ack? && Enabled(w.sys, t)
    case Work(outs) =>
      && w.sys.bridge.Holding? && |outs| == |w.sys.bridge.rows|
      && (forall a | 0 <= a < |outs| :: outs[a].id !in w.bear)
      && (forall a, b | 0 <= a < b < |outs| :: outs[a].id != outs[b].id)
      && Enabled(w.sys, Ack(Acks(w.bear, w.sys.bridge.rows, outs)))
    case InBear(b, note) => b in w.bear ==> note.madeBy == w.bear[b].madeBy
  }

  ghost function Happened(w: World, e: Event): World
    requires Possible(w, e)
  {
    match e
    case AtHub(t) => w.(sys := Next(w.sys, t))
    case Work(outs) =>
      World(Next(w.sys, Ack(Acks(w.bear, w.sys.bridge.rows, outs))), Pass(w.bear, w.sys.bridge.rows, outs))
    case InBear(b, note) => w.(bear := w.bear[b := note])
  }

  /** The rows this event applies while their note is in conflict. */
  ghost function Copied(w: World, e: Event): set<nat>
    requires Possible(w, e)
  {
    if !e.Work? then {}
    else
      var rows, acks := w.sys.bridge.rows, Acks(w.bear, w.sys.bridge.rows, e.outs);
      set a | 0 <= a < |rows| && AckAll(w.sys.hub, acks).Ok? && acks[a].applied
              && IsConflicted(w.sys.hub, rows[a].item.note) :: rows[a].id
  }

  predicate HasCopy(bear: Bear, w: Write) { exists b :: b in bear && IsCopyOf(bear[b], w) }

  lemma MadeByStays(bear: Bear, row: Leased, out: Outcome, b: BearId)
    requires b in bear && out.id != b
    ensures b in Apply(bear, row, out).0 && Apply(bear, row, out).0[b].madeBy == bear[b].madeBy
  {
  }

  lemma {:induction false} PassKeepsMadeBy(bear: Bear, rows: seq<Leased>, outs: seq<Outcome>, b: BearId)
    requires |outs| == |rows| && b in bear && forall a | 0 <= a < |outs| :: outs[a].id != b
    ensures b in Pass(bear, rows, outs) && Pass(bear, rows, outs)[b].madeBy == bear[b].madeBy
    decreases |rows|
  {
    if rows != [] {
      MadeByStays(bear, rows[0], outs[0], b);
      PassKeepsMadeBy(Apply(bear, rows[0], outs[0]).0, rows[1..], outs[1..], b);
    }
  }

  /** A row of a conflicted note that a pass applies leaves a copy of its text. */
  lemma {:induction false} PassMakesCopy(bear: Bear, rows: seq<Leased>, outs: seq<Outcome>, k: nat)
    requires |outs| == |rows| && k < |rows| && rows[k].item.note.Some? && rows[k].noteStatus == Some(Conflict)
    requires Acks(bear, rows, outs)[k].applied && forall a, b | 0 <= a < b < |outs| :: outs[a].id != outs[b].id
    ensures HasCopy(Pass(bear, rows, outs), rows[k].item.write)
    decreases |rows|
  {
    var bear2 := Apply(bear, rows[0], outs[0]).0;
    assert Acks(bear, rows, outs) == [Apply(bear, rows[0], outs[0]).1] + Acks(bear2, rows[1..], outs[1..]);
    if k == 0 {
      CopyHoldsText(bear, rows[0], outs[0]);
      PassKeepsMadeBy(bear2, rows[1..], outs[1..], outs[0].id);
      assert IsCopyOf(Pass(bear, rows, outs)[outs[0].id], rows[0].item.write);
    } else {
      PassMakesCopy(bear2, rows[1..], outs[1..], k - 1);
    }
  }

  /** An applied create leaves the note it asked for, whatever the rest of the pass does. */
  lemma {:induction false} PassMakesNote(bear: Bear, rows: seq<Leased>, outs: seq<Outcome>, k: nat)
    requires |outs| == |rows| && k < |rows| && rows[k].item.write.Create? && rows[k].noteStatus != Some(Conflict)
    requires Acks(bear, rows, outs)[k].applied && forall a, b | 0 <= a < b < |outs| :: outs[a].id != outs[b].id
    ensures var after, w := Pass(bear, rows, outs), rows[k].item.write;
            && outs[k].id in after && Acks(bear, rows, outs)[k].bearId == Some(outs[k].id)
            && after[outs[k].id].madeBy == Some(CreateCall(w.title, w.body, set t | t in w.tags))
    decreases |rows|
  {
    var bear2 := Apply(bear, rows[0], outs[0]).0;
    assert Acks(bear, rows, outs) == [Apply(bear, rows[0], outs[0]).1] + Acks(bear2, rows[1..], outs[1..]);
    if k == 0 {
      CreateAsksForItsRow(bear, rows[0], outs[0]);
      PassKeepsMadeBy(bear2, rows[1..], outs[1..], outs[0].id);
    } else {
      PassMakesNote(bear2, rows[1..], outs[1..], k - 1);
    }
  }

  lemma CreateRowIsHubs(h: HubState, rows: seq<Leased>, k: nat, n: NoteId)
    requires Inv(h) && InFlight(h, rows) && k < |rows| && rows[k].item.write.Create? && rows[k].item.note == Some(n)
    ensures n in h.notes && h.notes[n].status == PendingToBear && rows[k].item.write.body == h.notes[n].body
    ensures rows[k].noteStatus != Some(Conflict)
  {
    assert ItemOk(h.queue[rows[k].id], h.notes, h.blobs);
  }

  /**
   * In every reachable state: when the bridge creates a note and the acks commit, Bear was asked for the body the hub
   * shows at that moment, merged PUTs included, and the hub knows the note under the id Bear gave it.
   */
  lemma PostReachesBear(run: seq<Step>, bear: Bear, outs: seq<Outcome>, k: nat, n: NoteId)
    requires Legal(START, run) && After(START, run).bridge.Holding? && |outs| == |After(START, run).bridge.rows|
    requires forall a, b | 0 <= a < b < |outs| :: outs[a].id != outs[b].id
    requires var rows := After(START, run).bridge.rows;
             && k < |rows| && rows[k].item.write.Create? && rows[k].item.note == Some(n)
             && Acks(bear, rows, outs)[k].applied && AckAll(After(START, run).hub, Acks(bear, rows, outs)).Ok?
    ensures var s := After(START, run);
            var after, w, h2 := Pass(bear, s.bridge.rows, outs), s.bridge.rows[k].item.write,
                                AckAll(s.hub, Acks(bear, s.bridge.rows, outs)).value;
            && n in s.hub.notes && n in h2.notes && h2.notes[n].bearId == Some(outs[k].id) && outs[k].id in after
            && after[outs[k].id].madeBy == Some(CreateCall(w.title, s.hub.notes[n].body, set t | t in w.tags))
  {
    Reachable(run);
    var s := After(START, run);
    CreateRowIsHubs(s.hub, s.bridge.rows, k, n);
    AcksReport(bear, s.bridge.rows, outs);
    PassMakesNote(bear, s.bridge.rows, outs, k);
    Convergence.CreateAcked(s.hub, s.bridge.rows, Acks(bear, s.bridge.rows, outs), n, k);
  }

  ghost predicate CopiesKept(w: World, done: set<nat>) {
    forall i | i in done ::
      i < |w.sys.hub.queue| && w.sys.hub.queue[i].status == Applied && HasCopy(w.bear, w.sys.hub.queue[i].write)
  }

  lemma AppliedRow(h: HubState, rows: seq<Leased>, acks: seq<AckItem>, a: nat)
    requires InFlight(h, rows) && AckFor(rows, acks) && AckAll(h, acks).Ok? && a < |rows| && acks[a].applied
    ensures var q2 := AckAll(h, acks).value.queue;
            rows[a].id < |q2| && q2[rows[a].id].status == Applied && q2[rows[a].id].write == rows[a].item.write
  {
    assert acks[a].id == rows[a].id && AckTakesEffect(h.queue, acks[a]);
    AckAllFinishes(h, acks);
  }

  lemma CopiedRow(w: World, outs: seq<Outcome>, i: nat) returns (a: nat)
    requires SysInv(w.sys) && Possible(w, Work(outs)) && i in Copied(w, Work(outs))
    ensures var rows, acks := w.sys.bridge.rows, Acks(w.bear, w.sys.bridge.rows, outs);
            && a < |rows| && rows[a].id == i && acks[a].applied && AckAll(w.sys.hub, acks).Ok?
            && rows[a].item.note.Some? && rows[a].noteStatus == Some(Conflict)
  {
    var rows, acks := w.sys.bridge.rows, Acks(w.bear, w.sys.bridge.rows, outs);
    a :| 0 <= a < |rows| && acks[a].applied && IsConflicted(w.sys.hub, rows[a].item.note) && rows[a].id == i;
  }

  lemma RowAndCopy(h: HubState, bear: Bear, rows: seq<Leased>, outs: seq<Outcome>, a: nat)
    requires InFlight(h, rows) && |outs| == |rows| && AckFor(rows, Acks(bear, rows, outs))
    requires AckAll(h, Acks(bear, rows, outs)).Ok? && a < |rows| && Acks(bear, rows, outs)[a].applied
    requires rows[a].item.note.Some? && rows[a].noteStatus == Some(Conflict)
    requires forall i, j | 0 <= i < j < |outs| :: outs[i].id != outs[j].id
    ensures var q2 := AckAll(h, Acks(bear, rows, outs)).value.queue;
            && rows[a].id < |q2| && q2[rows[a].id].status == Applied
            && HasCopy(Pass(bear, rows, outs), q2[rows[a].id].write)
  {
    AppliedRow(h, rows, Acks(bear, rows, outs), a);
    PassMakesCopy(bear, rows, outs, a);
  }

  lemma WorkMakesCopies(w: World, outs: seq<Outcome>, i: nat)
    requires SysInv(w.sys) && Possible(w, Work(outs)) && i in Copied(w, Work(outs))
    ensures var w2 := Happened(w, Work(outs));
            && i < |w2.sys.hub.queue| && w2.sys.hub.queue[i].status == Applied
            && HasCopy(w2.bear, w2.sys.hub.queue[i].write)
  {
    var a := CopiedRow(w, outs, i);
    assert AckFor(w.sys.bridge.rows, Acks(w.bear, w.sys.bridge.rows, outs));
    RowAndCopy(w.sys.hub, w.bear, w.sys.bridge.rows, outs, a);
  }

  lemma EventKeepsCopies(w: World, e: Event, done: set<nat>)
    requires SysInv(w.sys) && Possible(w, e) && CopiesKept(w, done)
    ensures SysInv(Happened(w, e).sys) && CopiesKept(Happened(w, e), done + Copied(w, e))
  {
    var w2 := Happened(w, e);
    match e {
      case AtHub(t) =>
        StepKeeps(w.sys, t);
        StepGrows(w.sys, t);
      case Work(outs) =>
        var acks := Acks(w.bear, w.sys.bridge.rows, outs);
        StepKeeps(w.sys, Ack(acks));
        StepGrows(w.sys, Ack(acks));
        forall i | i in done ensures HasCopy(w2.bear, w.sys.hub.queue[i].write) {
          var b :| b in w.bear && IsCopyOf(w.bear[b], w.sys.hub.queue[i].write);
          PassKeepsMadeBy(w.bear, w.sys.bridge.rows, outs, b);
          assert IsCopyOf(w2.bear[b], w.sys.hub.queue[i].write);
        }
        forall i | i in Copied(w, e)
          ensures i < |w2.sys.hub.queue| && w2.sys.hub.queue[i].status == Applied
                  && HasCopy(w2.bear, w2.sys.hub.queue[i].write)
        {
          WorkMakesCopies(w, outs, i);
        }
      case InBear(b, note) =>
        forall i | i in done ensures HasCopy(w2.bear, w.sys.hub.queue[i].write) {
          var b2 :| b2 in w.bear && IsCopyOf(w.bear[b2], w.sys.hub.queue[i].write);
          assert IsCopyOf(w2.bear[b2], w.sys.hub.queue[i].write);
        }
    }
  }

  ghost predicate AllPossible(w: World, es: seq<Event>)
    decreases |es|
  {
    es == [] || (Possible(w, es[0]) && AllPossible(Happened(w, es[0]), es[1..]))
  }

  ghost function AfterAll(w: World, es: seq<Event>): World
    requires AllPossible(w, es)
    decreases |es|
  {
    if es == [] then w else AfterAll(Happened(w, es[0]), es[1..])
  }

  ghost function AllCopied(w: World, es: seq<Event>): set<nat>
    requires AllPossible(w, es)
    decreases |es|
  {
    if es == [] then {} else Copied(w, es[0]) + AllCopied(Happened(w, es[0]), es[1..])
  }

  lemma {:induction false} CopiesStay(w: World, es: seq<Event>, done: set<nat>)
    requires SysInv(w.sys) && AllPossible(w, es) && CopiesKept(w, done)
    ensures CopiesKept(AfterAll(w, es), done + AllCopied(w, es))
    decreases |es|
  {
    if es != [] {
      EventKeepsCopies(w, es[0], done);
      CopiesStay(Happened(w, es[0]), es[1..], done + Copied(w, es[0]));
      assert done + AllCopied(w, es) == done + Copied(w, es[0]) + AllCopied(Happened(w, es[0]), es[1..]);
    }
  }

  /**
   * Over every run from the empty hub, with crashes, failing calls and changes in Bear in between: each row that was
   * ever applied for a note in conflict has its text in a copy in Bear, so ending a conflict loses no accepted update.
   */
  lemma NoConflictLosesText(bear: Bear, es: seq<Event>, i: nat)
    requires AllPossible(World(START, bear), es) && i in AllCopied(World(START, bear), es)
    ensures var w := AfterAll(World(START, bear), es);
            && i < |w.sys.hub.queue| && w.sys.hub.queue[i].status == Applied
            && exists b :: b in w.bear && IsCopyOf(w.bear[b], w.sys.hub.queue[i].write)
  {
    CopiesStay(World(START, bear), es, {});
  }
}
