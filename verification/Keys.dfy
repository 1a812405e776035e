/** Idempotency keys: which row a key answers with, and when two rows of one consumer can claim the same key. */
module Keys {
  import opened Model
  import opened Store
  import opened Handlers
  import opened Protocol
  import opened Guarantees
  import opened Runs

  /** No key of this consumer is answered by both rows, in either key column. */
  predicate KeysApart(x: Item, y: Item) {
    x.consumer == y.consumer ==>
      && x.key != y.key && x.secondary != Some(y.key) && y.secondary != Some(x.key)
      && (x.secondary.Some? ==> x.secondary != y.secondary)
  }

  predicate KeysUnique(q: Queue) {
    forall i, j | 0 <= i < |q| && 0 <= j < |q| && i != j :: KeysApart(q[i], q[j])
  }

  /** Then a key answers with one row only, whichever row a query meets first. */
  lemma UniqueAnswer(q: Queue, i: nat, k: Key, c: Consumer)
    requires KeysUnique(q) && i < |q| && q[i].Answers(k, c)
    ensures Find(q, ByKey(k, c)) == Some(i)
  {
    assert Matches(q[i], ByKey(k, c));
    assert forall j | 0 <= j < |q| && j != i :: KeysApart(q[j], q[i]);
  }

  /** An answered key never adds a row; an unanswered one adds a row unless it joins a pending update. */
  lemma AnsweredKeyAddsNothing(q: Queue, k: Key, c: Consumer, note: Option<NoteId>, w: Write)
    ensures |Enqueue(q, k, c, note, w)| == |q| <==>
              || Find(q, ByKey(k, c)).Some?
              || (w.Update? && note.Some? && Find(q, PendingUpdate(note.value, c)).Some?)
    ensures var f := Find(Enqueue(q, k, c, note, w), ByKey(k, c)); f.Some?
  {
    var q2, i := Enqueue(q, k, c, note, w), Slot(q, k, c, note, w);
    assert i < |q2| && Matches(q2[i], ByKey(k, c));
  }

  /**
   * A second enqueue under a key, whatever it asks for, changes nothing: an answered row keeps its content, and a
   * failed one that started over counts as answered.
   */
  lemma EnqueueIsIdempotent(
    q: Queue, k: Key, c: Consumer, note: Option<NoteId>, w: Write, note2: Option<NoteId>, w2: Write)
    ensures var q2 := Enqueue(q, k, c, note, w);
            Answered(q2, k, c) && Enqueue(q2, k, c, note2, w2) == q2
  {
    var q2, i := Enqueue(q, k, c, note, w), Slot(q, k, c, note, w);
    FindIs(q2, ByKey(k, c), Some(i));
  }

  lemma EnqueueKeepsKeys(q: Queue, k: Key, c: Consumer, note: Option<NoteId>, w: Write)
    requires KeysUnique(q)
    ensures KeysUnique(Enqueue(q, k, c, note, w))
  {
    var q2 := Enqueue(q, k, c, note, w);
    if Find(q, ByKey(k, c)).Some? {
      forall a, b | 0 <= a < |q2| && 0 <= b < |q2| && a != b ensures KeysApart(q2[a], q2[b]) {
        assert KeysApart(q[a], q[b]);
      }
    } else {
      NewKeyIsApart(q, q2, Slot(q, k, c, note, w), k, c);
    }
  }

  /** A key that no row answers may be given to one row, or to a new one. */
  lemma NewKeyIsApart(q: Queue, q2: Queue, i: nat, k: Key, c: Consumer)
    requires KeysUnique(q) && IsFirst(q, ByKey(k, c), None)
    requires |q| <= |q2| <= |q| + 1 && i < |q2| && (|q2| > |q| ==> i == |q|)
    requires forall j | 0 <= j < |q| && j != i :: q2[j] == q[j]
    requires q2[i].consumer == c
    requires if i < |q| then q2[i].key == q[i].key && q2[i].secondary == Some(k) && q[i].consumer == c
             else q2[i].key == k && q2[i].secondary == None
    ensures KeysUnique(q2)
  {
    forall a, b | 0 <= a < |q2| && 0 <= b < |q2| && a != b ensures KeysApart(q2[a], q2[b]) {
      if a != i { assert !Matches(q[a], ByKey(k, c)); }
      if b != i { assert !Matches(q[b], ByKey(k, c)); }
      if a < |q| && b < |q| { assert KeysApart(q[a], q[b]); }
    }
  }

  /**
   * The one place that writes a key without looking it up in the same transaction: a PUT to a note Bear does not know
   * yet, merged into the pending create, when the key already belongs to another, failed, row.
   */
  predicate ReusesFailedKey(h: HubState, r: Request, k: Key, c: Consumer, fault: bool) {
    && r.UpdateNote? && r.note in h.notes
    && !h.notes[r.note].encrypted && h.notes[r.note].status != Conflict && h.notes[r.note].bearId.None?
    && r.body != "" && !fault
    && Find(h.queue, PendingCreate(r.note, c)).Some?
    && var f := Find(h.queue, ByKey(k, c)); f.Some? && h.queue[f.value].status == Failed
  }

  lemma MergeKeys(q: Queue, k: Key, c: Consumer, n: NoteId, body: string)
    requires KeysUnique(q) && !Answered(q, k, c) && CoalesceCreate(q, k, c, n, body).Some?
    ensures KeysUnique(CoalesceCreate(q, k, c, n, body).value) <==> Find(q, ByKey(k, c)).None?
  {
    var q2, i := CoalesceCreate(q, k, c, n, body).value, Find(q, PendingCreate(n, c)).value;
    var f := Find(q, ByKey(k, c));
    if f.Some? {
      assert f.value != i && q2[f.value] == q[f.value] && q2[i].secondary == Some(k);
      assert !KeysApart(q2[f.value], q2[i]);
    } else {
      forall a, b | 0 <= a < |q2| && 0 <= b < |q2| && a != b ensures KeysApart(q2[a], q2[b]) {
        assert KeysApart(q[a], q[b]) && !Matches(q[a], ByKey(k, c)) && !Matches(q[b], ByKey(k, c));
      }
    }
  }

  /** A request keeps keys unique exactly when it does not merge into a create under a failed row's key. */
  lemma ServeKeepsKeysIff(h: HubState, r: Request, k: Key, c: Consumer, fault: bool)
    requires KeysUnique(h.queue)
    ensures KeysUnique(Serve(h, r, k, c, fault).0.queue) <==> !ReusesFailedKey(h, r, k, c, fault)
  {
    if r.UpdateNote? && r.note in h.notes && h.notes[r.note].bearId.None? {
      if !Answered(h.queue, k, c) && CoalesceCreate(h.queue, k, c, r.note, r.body).Some? {
        MergeKeys(h.queue, k, c, r.note, r.body);
      }
    } else {
      ServeEnqueues(h, r, k, c, fault);
      NoMerge(h, r, k, c, fault);
      if note, w :| Serve(h, r, k, c, fault).0.queue == Enqueue(h.queue, k, c, note, w) {
        EnqueueKeepsKeys(h.queue, k, c, note, w);
      }
    }
  }

  lemma NoMerge(h: HubState, r: Request, k: Key, c: Consumer, fault: bool)
    requires !(r.UpdateNote? && r.note in h.notes && h.notes[r.note].bearId.None?)
    ensures var q2 := Serve(h, r, k, c, fault).0.queue;
            q2 == h.queue || exists note, w :: q2 == Enqueue(h.queue, k, c, note, w)
  {
  }

  // ---- Where keys clash ----

  /** A tag of the synced note "n" under key "k". */
  const TAG_ROW: Item := Item("k", None, "c", Some("n"), AddTag("work", "B"), Pending, None)

  const TAKEN_TAG: Item := TAG_ROW.(status := Processing, leaseUntil := Some(300))

  const FAILED_TAG: Item := TAKEN_TAG.(status := Failed)

  function Tagged(x: Item, bridge: Protocol.Bridge): Sys { Sys(KNOWN.hub.(queue := [x]), bridge) }

  lemma ReachesTagRow()
    ensures Reaches(Tagged(TAG_ROW, Idle))
  {
    ReachesKnown();
    EnqueueAppends([], "k", "c", Some("n"), AddTag("work", "B"));
    ReachStep(KNOWN, Consume(TagNote("n", "work"), "k", "c", false));
    assert Next(KNOWN, Consume(TagNote("n", "work"), "k", "c", false)) == Tagged(TAG_ROW, Idle);
  }

  lemma ReachesTagTaken()
    ensures Reaches(Tagged(TAKEN_TAG, Holding([Leased(0, TAKEN_TAG, Some(Synced))])))
  {
    ReachesTagRow();
    var s := Tagged(TAG_ROW, Idle);
    LeaseIdsAre(s.hub.queue, 0, [0]);
    ReachStep(s, Lease(0));
    assert Next(s, Lease(0)).hub.queue == [TAKEN_TAG];
    assert Next(s, Lease(0)).bridge.rows == [Leased(0, TAKEN_TAG, Some(Synced))];
  }

  /** Bear rejects the tag. */
  lemma ReachesTagFailed()
    ensures Reaches(Tagged(FAILED_TAG, Idle))
  {
    ReachesTagTaken();
    var s := Tagged(TAKEN_TAG, Holding([Leased(0, TAKEN_TAG, Some(Synced))]));
    var acks := [AckItem(0, false, None, None, false)];
    assert AckAll(s.hub, acks) == AckAll(AckOne(s.hub, acks[0]).value, []) by { assert acks[1..] == []; }
    assert AckOne(s.hub, acks[0]).value == s.hub.(queue := [FAILED_TAG]);
    assert s.hub.blobs - Cleaned([FAILED_TAG], acks) == {};
    ReachStep(s, Ack(acks));
    assert Next(s, Ack(acks)) == Tagged(FAILED_TAG, Resending(acks));
    ReachStep(Tagged(FAILED_TAG, Resending(acks)), AckSeen);
  }

  /** And the consumer makes another note, "b". */
  const CLASH: Sys := Sys(HubState(
    map["n" := InsertedNote(FIRST),
        "b" := Note(None, "t", "x", PendingToBear, Some(1), None, None, None, false, false, false)],
    [FAILED_TAG, Item("j", None, "c", Some("b"), Create("t", "x", []), Pending, None)], {}), Idle)

  lemma ReachesClash()
    ensures Reaches(CLASH)
  {
    ReachesTagFailed();
    var s, t := Tagged(FAILED_TAG, Idle), Consume(CreateNote("t", "x", [], "b", 1), "j", "c", false);
    EnqueueAppends([FAILED_TAG], "j", "c", Some("b"), Create("t", "x", []));
    assert Next(s, t) == CLASH;
    ReachStep(s, t);
  }

  /** A PUT to that note under key "k" leaves two rows that answer "k". */
  lemma KeysCanClash()
    ensures Reaches(CLASH) && KeysUnique(CLASH.hub.queue)
    ensures !KeysUnique(Next(CLASH, Consume(UpdateNote("b", "y"), "k", "c", false)).hub.queue)
  {
    ReachesClash();
    var q := CLASH.hub.queue;
    assert KeysApart(q[0], q[1]) && KeysApart(q[1], q[0]);
    assert Matches(q[0], ByKey("k", "c")) && Matches(q[1], PendingCreate("b", "c"));
    ServeKeepsKeysIff(CLASH.hub, UpdateNote("b", "y"), "k", "c", false);
  }

  // ---- Keys over runs ----

  predicate SameKeys(q: Queue, q2: Queue) {
    |q| == |q2| && forall i | 0 <= i < |q| ::
      q2[i].key == q[i].key && q2[i].secondary == q[i].secondary && q2[i].consumer == q[i].consumer
  }

  /** No step but such a request ever puts two rows under one key. */
  lemma StepKeepsKeys(s: Sys, t: Step)
    requires SysInv(s) && Enabled(s, t) && KeysUnique(s.hub.queue)
    ensures KeysUnique(Next(s, t).hub.queue) <==> !(t.Consume? && ReusesFailedKey(s.hub, t.r, t.k, t.c, t.fault))
  {
    var q, q2 := s.hub.queue, Next(s, t).hub.queue;
    match t {
      case Consume(r, k, c, fault) => ServeKeepsKeysIff(s.hub, r, k, c, fault);
      case PushDelta(_, _) => assert SameKeys(q, q2);
      case Lease(_) => assert SameKeys(q, q2);
      case Ack(acks) =>
        if AckAll(s.hub, acks).Ok? { AckAllSettles(s.hub, acks); }
        assert SameKeys(q, q2);
      case Resend => RedeliveryChangesNothing(s);
      case AckSeen =>
      case Crash =>
    }
    if SameKeys(q, q2) {
      forall i, j | 0 <= i < |q| && 0 <= j < |q| && i != j ensures KeysApart(q2[i], q2[j]) {
        assert KeysApart(q[i], q[j]);
      }
    }
  }

  ghost predicate NoKeyReuse(s: Sys, run: seq<Step>)
    requires Legal(s, run)
    decreases |run|
  {
    run == [] || (!(run[0].Consume? && ReusesFailedKey(s.hub, run[0].r, run[0].k, run[0].c, run[0].fault))
                  && NoKeyReuse(Next(s, run[0]), run[1..]))
  }

  /** Over such runs keys stay unique, and a row's first key answers with that row for ever. */
  lemma {:induction false} KeyAnswersForever(s: Sys, run: seq<Step>, i: nat)
    requires SysInv(s) && Legal(s, run) && KeysUnique(s.hub.queue) && NoKeyReuse(s, run) && i < |s.hub.queue|
    ensures var q2 := After(s, run).hub.queue;
            && KeysUnique(q2)
            && Find(q2, ByKey(s.hub.queue[i].key, s.hub.queue[i].consumer)) == Some(i)
    decreases |run|
  {
    if run == [] {
      UniqueAnswer(s.hub.queue, i, s.hub.queue[i].key, s.hub.queue[i].consumer);
    } else {
      StepKeeps(s, run[0]);
      StepKeepsKeys(s, run[0]);
      StepGrows(s, run[0]);
      KeyAnswersForever(Next(s, run[0]), run[1..], i);
    }
  }

  // ---- Keys of merged PUTs ----

  /** The request's body goes into the waiting row i, whose secondary key it replaces. */
  predicate MergesInto(h: HubState, r: Request, k: Key, c: Consumer, fault: bool, i: nat) {
    && r.UpdateNote? && r.note in h.notes && !h.notes[r.note].encrypted && h.notes[r.note].status != Conflict
    && r.body != "" && !Answered(h.queue, k, c) && !fault
    && if h.notes[r.note].bearId.None? then Find(h.queue, PendingCreate(r.note, c)) == Some(i)
       else Find(h.queue, ByKey(k, c)).None? && Find(h.queue, PendingUpdate(r.note, c)) == Some(i)
  }

  predicate StepMerges(s: Sys, t: Step, i: nat) { t.Consume? && MergesInto(s.hub, t.r, t.k, t.c, t.fault, i) }

  lemma UpdateSecondary(h: HubState, n: NoteId, body: string, k: Key, c: Consumer, fault: bool, i: nat)
    requires i < |h.queue|
    ensures var q2 := UpdateStep(h, n, body, k, c, fault).0.queue;
            var merges := MergesInto(h, UpdateNote(n, body), k, c, fault, i);
            i < |q2| && q2[i].secondary == if merges then Some(k) else h.queue[i].secondary
  {
  }

  lemma OtherSecondary(h: HubState, r: Request, k: Key, c: Consumer, fault: bool, i: nat)
    requires i < |h.queue| && !r.UpdateNote?
    ensures var q2 := Serve(h, r, k, c, fault).0.queue; i < |q2| && q2[i].secondary == h.queue[i].secondary
  {
  }

  lemma ServeSecondary(h: HubState, r: Request, k: Key, c: Consumer, fault: bool, i: nat)
    requires i < |h.queue|
    ensures var q2 := Serve(h, r, k, c, fault).0.queue;
            i < |q2| && q2[i].secondary == if MergesInto(h, r, k, c, fault, i) then Some(k) else h.queue[i].secondary
    ensures MergesInto(h, r, k, c, fault, i) ==> h.queue[i].status == Pending && h.queue[i].consumer == c
  {
    if r.UpdateNote? {
      UpdateSecondary(h, r.note, r.body, k, c, fault, i);
    } else {
      OtherSecondary(h, r, k, c, fault, i);
    }
  }

  lemma StepSecondary(s: Sys, t: Step, i: nat)
    requires SysInv(s) && Enabled(s, t) && i < |s.hub.queue|
    ensures var q2 := Next(s, t).hub.queue;
            i < |q2| && q2[i].secondary == if StepMerges(s, t, i) then Some(t.k) else s.hub.queue[i].secondary
  {
    match t {
      case Consume(r, k, c, fault) => ServeSecondary(s.hub, r, k, c, fault, i);
      case PushDelta(_, _) =>
      case Lease(_) =>
      case Ack(acks) => if AckAll(s.hub, acks).Ok? { AckAllSettles(s.hub, acks); }
      case Resend => RedeliveryChangesNothing(s);
      case AckSeen =>
      case Crash =>
    }
  }

  /** A merged PUT's key answers with its row through a step exactly when the step merges nothing into that row. */
  lemma MergedKeyStaysIff(s: Sys, t: Step, i: nat)
    requires SysInv(s) && Enabled(s, t) && KeysUnique(s.hub.queue) && KeysUnique(Next(s, t).hub.queue)
    requires i < |s.hub.queue| && s.hub.queue[i].secondary.Some? && s.hub.queue[i].secondary.value != s.hub.queue[i].key
    ensures Find(Next(s, t).hub.queue, ByKey(s.hub.queue[i].secondary.value, s.hub.queue[i].consumer)) == Some(i)
            <==> !StepMerges(s, t, i)
  {
    var x, q2 := s.hub.queue[i], Next(s, t).hub.queue;
    StepGrows(s, t);
    StepSecondary(s, t, i);
    UniqueAnswer(s.hub.queue, i, x.secondary.value, x.consumer);
    if !StepMerges(s, t, i) {
      UniqueAnswer(q2, i, x.secondary.value, x.consumer);
    } else {
      ServeSecondary(s.hub, t.r, t.k, t.c, t.fault, i);
      assert t.k != x.secondary.value;
      assert !Matches(q2[i], ByKey(x.secondary.value, x.consumer));
    }
  }

  ghost predicate NeverMerged(s: Sys, run: seq<Step>, i: nat)
    requires Legal(s, run)
    decreases |run|
  {
    run == [] || (!StepMerges(s, run[0], i) && NeverMerged(Next(s, run[0]), run[1..], i))
  }

  /** So over runs in which nothing else is merged into its row. */
  lemma {:induction false} MergedKeyAnswers(s: Sys, run: seq<Step>, i: nat, k: Key)
    requires SysInv(s) && Legal(s, run) && KeysUnique(s.hub.queue) && NoKeyReuse(s, run) && NeverMerged(s, run, i)
    requires i < |s.hub.queue| && s.hub.queue[i].secondary == Some(k)
    ensures Find(After(s, run).hub.queue, ByKey(k, s.hub.queue[i].consumer)) == Some(i)
    decreases |run|
  {
    if run == [] {
      UniqueAnswer(s.hub.queue, i, k, s.hub.queue[i].consumer);
    } else {
      StepKeeps(s, run[0]);
      StepKeepsKeys(s, run[0]);
      StepGrows(s, run[0]);
      StepSecondary(s, run[0], i);
      MergedKeyAnswers(Next(s, run[0]), run[1..], i, k);
    }
  }

  /** Two more PUTs have gone into the first one's row. */
  function Merged(text: string, k: Key): Sys {
    Sys(HubState(map["n" := Unsynced(text)],
                 [UpdateRow("k1", "ann", "one").(write := Update(text, "B"), secondary := Some(k))], {}), Idle)
  }

  lemma MergesNext(text: string, k: Key, text2: string, k2: Key)
    requires Reaches(Merged(text, k)) && Word(text2) && k2 != "k1" && k2 != k
    ensures !Answered(Merged(text, k).hub.queue, k2, "ann")
    ensures Reaches(Merged(text2, k2))
    ensures Next(Merged(text, k), Consume(UpdateNote("n", text2), k2, "ann", false)) == Merged(text2, k2)
  {
    var s, t := Merged(text, k), Consume(UpdateNote("n", text2), k2, "ann", false);
    EnqueueMerges(s.hub.queue, k2, "ann", "n", Update(text2, "B"), 0);
    PutAgain(s, text, text2, k2, "ann");
    ReachStep(s, t);
  }

  lemma ReachesMerged()
    ensures Reaches(Merged("two", "k2"))
  {
    ReachesWritten();
    var t := Consume(UpdateNote("n", "two"), "k2", "ann", false);
    EnqueueMerges(WRITTEN.hub.queue, "k2", "ann", "n", Update("two", "B"), 0);
    PutAgain(WRITTEN, "one", "two", "k2", "ann");
    assert Next(WRITTEN, t) == Merged("two", "k2");
    ReachStep(WRITTEN, t);
  }

  /** The second PUT's key is forgotten with the third, and a late retry of the second puts its text back. */
  lemma LateRetryUndoes()
    ensures var s := Merged("three", "k3");
            && Reaches(s) && !Answered(s.hub.queue, "k2", "ann")
            && Next(s, Consume(UpdateNote("n", "two"), "k2", "ann", false)) == Merged("two", "k2")
  {
    ReachesMerged();
    MergesNext("two", "k2", "three", "k3");
    MergesNext("three", "k3", "two", "k2");
  }
}
