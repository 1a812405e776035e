/** Leases: who gets which rows, for how long, and how many rounds empty the queue. */
module Fairness {
  import opened Model
  import opened Store
  import opened Protocol
  import Guarantees

  function AllPending(q: Queue, from: nat): seq<nat>
    requires from <= |q|
  {
    RowsIn(q, Pending, from)
  }

  lemma IsPending(q: Queue, i: nat)
    ensures i in AllPending(q, 0) <==> i < |q| && q[i].status == Pending
  {
  }

  lemma SplitAscending(ids: seq<nat>, m: nat, i: nat)
    requires Ascending(ids) && m <= |ids|
    ensures i in ids[m..] <==> i in ids && i !in ids[..m]
  {
    assert ids == ids[..m] + ids[m..];
  }

  lemma NonEmptyHasFirst(ids: seq<nat>)
    ensures ids == [] || ids[0] in ids
  {
  }

  lemma {:induction false} AscendingIsUnique(a: seq<nat>, b: seq<nat>)
    requires Ascending(a) && Ascending(b) && forall i: nat :: i in a <==> i in b
    ensures a == b
    decreases |a|
  {
    if a == [] {
      NonEmptyHasFirst(b);
    } else {
      assert a[|a| - 1] in b;
      var m, n := |a| - 1, |b| - 1;
      assert a[m] == b[n] by { assert b[n] in a; }
      forall i: nat ensures i in a[..m] <==> i in b[..n] {
        SplitAscending(a, m, i);
        SplitAscending(b, n, i);
        assert a[m..] == [a[m]] && b[n..] == [b[n]];
      }
      AscendingIsUnique(a[..m], b[..n]);
    }
  }

  /** Once the leased rows are no longer pending, the rest is what comes after them. */
  lemma RestIsSuffix(q: Queue, q2: Queue, limit: nat)
    requires |q| == |q2|
    requires forall i | 0 <= i < |q| :: q2[i].status == Pending <==>
        q[i].status == Pending && i !in PendingIds(q, limit)
    ensures var all := AllPending(q, 0); AllPending(q2, 0) == all[Min(limit, |all|)..]
  {
    var all, m := AllPending(q, 0), Min(limit, |AllPending(q, 0)|);
    forall i: nat ensures i in AllPending(q2, 0) <==> i in all[m..] {
      SplitAscending(all, m, i);
      IsPending(q, i);
      IsPending(q2, i);
    }
    AscendingIsUnique(AllPending(q2, 0), all[m..]);
  }

  predicate NoneProcessing(q: Queue) { forall i | 0 <= i < |q| :: q[i].status != Processing }

  /** One undisturbed round of the bridge: lease, ack everything, see the reply. */
  datatype Round = Round(now: nat, acks: seq<AckItem>)

  ghost predicate RoundLegal(s: Sys, r: Round) {
    && Enabled(s, Lease(r.now))
    && Enabled(Next(s, Lease(r.now)), Ack(r.acks))
    && AckAll(Next(s, Lease(r.now)).hub, r.acks).Ok?
  }

  ghost function AfterRound(s: Sys, r: Round): Sys
    requires RoundLegal(s, r)
  {
    Next(Next(Next(s, Lease(r.now)), Ack(r.acks)), AckSeen)
  }

  /** A committed batch finishes each of its rows. */
  lemma BatchFinishes(s: Sys, acks: seq<AckItem>, a: nat)
    requires SysInv(s) && Enabled(s, Ack(acks)) && AckAll(s.hub, acks).Ok? && a < |s.bridge.rows|
    ensures var q2 := AckAll(s.hub, acks).value.queue;
            s.bridge.rows[a].id < |q2| && !q2[s.bridge.rows[a].id].Unfinished()
  {
    AckAllSettles(s.hub, acks);
    assert !AckTakesEffect(AckAll(s.hub, acks).value.queue, acks[a]);
    assert s.hub.queue[acks[a].id].status == Processing;
  }

  lemma NothingExpires(q: Queue, now: nat)
    requires NoneProcessing(q)
    ensures LeaseIds(q, now) == PendingIds(q, LEASE_LIMIT)
    ensures forall i | 0 <= i < |q| && i !in LeaseIds(q, now) :: LeaseQueue(q, now)[i] == q[i]
  {
    assert ExpireAll(q, now) == q;
  }

  lemma AckThenSeen(s: Sys, acks: seq<AckItem>)
    requires Enabled(s, Ack(acks)) && AckAll(s.hub, acks).Ok?
    ensures var s2 := Next(s, Ack(acks));
            Enabled(s2, AckSeen) && Next(s2, AckSeen).hub.queue == AckAll(s.hub, acks).value.queue
  {
  }

  lemma AfterRoundQueue(s: Sys, r: Round)
    requires RoundLegal(s, r)
    ensures AfterRound(s, r).hub.queue == AckAll(Next(s, Lease(r.now)).hub, r.acks).value.queue
  {
    AckThenSeen(Next(s, Lease(r.now)), r.acks);
  }

  lemma LeaseRowIds(h: HubState, now: nat, a: nat)
    requires a < |LeaseIds(h.queue, now)|
    ensures a < |LeaseRows(h, now)| && LeaseRows(h, now)[a].id == LeaseIds(h.queue, now)[a]
  {
  }

  lemma LeasedRowFinishes(s: Sys, r: Round, a: nat)
    requires SysInv(s) && RoundLegal(s, r) && a < |LeaseIds(s.hub.queue, r.now)|
    ensures var i, q2 := LeaseIds(s.hub.queue, r.now)[a], AfterRound(s, r).hub.queue; i < |q2| && !q2[i].Unfinished()
  {
    AfterRoundQueue(s, r);
    LeaseRowIds(s.hub, r.now, a);
    StepKeeps(s, Lease(r.now));
    BatchFinishes(Next(s, Lease(r.now)), r.acks, a);
  }

  lemma AckedRowStays(h: HubState, acks: seq<AckItem>, i: nat)
    requires AckAll(h, acks).Ok? && i < |h.queue| && h.queue[i].status != Processing
    ensures var q2 := AckAll(h, acks).value.queue; i < |q2| && q2[i] == h.queue[i]
  {
    AckAllSettles(h, acks);
  }

  lemma OtherRowStays(s: Sys, r: Round, i: nat)
    requires SysInv(s) && NoneProcessing(s.hub.queue) && RoundLegal(s, r)
    requires i < |s.hub.queue| && i !in LeaseIds(s.hub.queue, r.now)
    ensures var q2 := AfterRound(s, r).hub.queue; i < |q2| && q2[i] == s.hub.queue[i]
  {
    var h1 := Next(s, Lease(r.now)).hub;
    assert h1.queue[i] == s.hub.queue[i] by { NothingExpires(s.hub.queue, r.now); }
    AckedRowStays(h1, r.acks, i);
    AfterRoundQueue(s, r);
  }

  lemma RoundStatuses(s: Sys, r: Round, i: nat)
    requires SysInv(s) && NoneProcessing(s.hub.queue) && RoundLegal(s, r) && i < |s.hub.queue|
    ensures var q, q2 := s.hub.queue, AfterRound(s, r).hub.queue;
            && i < |q2| && q2[i].status != Processing
            && (q2[i].status == Pending <==> q[i].status == Pending && i !in PendingIds(q, LEASE_LIMIT))
  {
    var ids := LeaseIds(s.hub.queue, r.now);
    NothingExpires(s.hub.queue, r.now);
    if i in ids {
      var a :| 0 <= a < |ids| && ids[a] == i;
      LeasedRowFinishes(s, r, a);
    } else {
      OtherRowStays(s, r, i);
    }
  }

  /** A round finishes the first hundred pending rows, however each of them was acked, and no others. */
  lemma RoundDrains(s: Sys, r: Round)
    requires SysInv(s) && NoneProcessing(s.hub.queue) && RoundLegal(s, r)
    ensures var s2, all := AfterRound(s, r), AllPending(s.hub.queue, 0);
            && SysInv(s2) && s2.bridge.Idle? && NoneProcessing(s2.hub.queue)
            && LeaseIds(s.hub.queue, r.now) == all[..Min(100, |all|)]
            && AllPending(s2.hub.queue, 0) == all[Min(100, |all|)..]
  {
    var s1 := Next(s, Lease(r.now));
    StepKeeps(s, Lease(r.now));
    StepKeeps(s1, Ack(r.acks));
    var q, q2 := s.hub.queue, AfterRound(s, r).hub.queue;
    NothingExpires(q, r.now);
    assert |q2| == |q| by { AckAllSettles(s1.hub, r.acks); }
    forall i | 0 <= i < |q|
      ensures q2[i].status == Pending <==> q[i].status == Pending && i !in PendingIds(q, LEASE_LIMIT)
      ensures q2[i].status != Processing
    {
      RoundStatuses(s, r, i);
    }
    RestIsSuffix(q, q2, LEASE_LIMIT);
  }

  ghost predicate RoundsLegal(s: Sys, rounds: seq<Round>)
    decreases |rounds|
  {
    rounds == [] || (RoundLegal(s, rounds[0]) && RoundsLegal(AfterRound(s, rounds[0]), rounds[1..]))
  }

  ghost function AfterRounds(s: Sys, rounds: seq<Round>): Sys
    requires RoundsLegal(s, rounds)
    decreases |rounds|
  {
    if rounds == [] then s else AfterRounds(AfterRound(s, rounds[0]), rounds[1..])
  }

  lemma DropTwice(all: seq<nat>, more: nat)
    ensures var rest := all[Min(LEASE_LIMIT, |all|)..];
            rest[Min(LEASE_LIMIT * more, |rest|)..] == all[Min(LEASE_LIMIT * (more + 1), |all|)..]
  {
    var first, rest := Min(LEASE_LIMIT, |all|), all[Min(LEASE_LIMIT, |all|)..];
    var second := Min(LEASE_LIMIT * more, |rest|);
    assert first + second == Min(LEASE_LIMIT * (more + 1), |all|);
    assert rest[second..] == all[first + second..];
  }

  /** With no requests in between, m rounds finish exactly the first 100 m rows, lowest id first. */
  lemma {:induction false} RoundsTakePrefix(s: Sys, rounds: seq<Round>)
    requires SysInv(s) && NoneProcessing(s.hub.queue) && RoundsLegal(s, rounds)
    ensures var all, q2 := AllPending(s.hub.queue, 0), AfterRounds(s, rounds).hub.queue;
            NoneProcessing(q2) && AllPending(q2, 0) == all[Min(100 * |rounds|, |all|)..]
    decreases |rounds|
  {
    if rounds != [] {
      RoundDrains(s, rounds[0]);
      RoundsTakePrefix(AfterRound(s, rounds[0]), rounds[1..]);
      DropTwice(AllPending(s.hub.queue, 0), |rounds[1..]|);
    }
  }

  lemma NoneLeft(q: Queue)
    requires NoneProcessing(q)
    ensures (forall i | 0 <= i < |q| :: !q[i].Unfinished()) <==> AllPending(q, 0) == []
  {
    var left := AllPending(q, 0);
    if left != [] { assert q[left[0]].Unfinished(); }
  }

  /** So n pending rows take ceil(n / 100) rounds, and no fewer. */
  lemma RoundsDrain(s: Sys, rounds: seq<Round>)
    requires SysInv(s) && NoneProcessing(s.hub.queue) && RoundsLegal(s, rounds)
    ensures var q2 := AfterRounds(s, rounds).hub.queue;
            (forall i | 0 <= i < |q2| :: !q2[i].Unfinished()) <==>
                100 * |rounds| >= |AllPending(s.hub.queue, 0)|
  {
    RoundsTakePrefix(s, rounds);
    NoneLeft(AfterRounds(s, rounds).hub.queue);
  }

  // ---- Exclusive leases ----

  /** Row i is still out under the lease that ends at u, or has been applied. */
  predicate HeldUntil(q: Queue, i: nat, u: nat) {
    i < |q| && (q[i].status == Applied || (q[i].status == Processing && q[i].leaseUntil == Some(u)))
  }

  /** Row i never fails on the way, and no lease is taken after u. */
  ghost predicate Undisturbed(s: Sys, run: seq<Step>, i: nat, u: nat)
    requires Legal(s, run)
    decreases |run|
  {
    run == [] ||
    (&& (run[0].Lease? ==> run[0].now <= u)
     && (i < |Next(s, run[0]).hub.queue| ==> Next(s, run[0]).hub.queue[i].status != Failed)
     && Undisturbed(Next(s, run[0]), run[1..], i, u))
  }

  lemma HeldStep(s: Sys, t: Step, i: nat, u: nat)
    requires SysInv(s) && Enabled(s, t) && HeldUntil(s.hub.queue, i, u)
    requires t.Lease? ==> t.now <= u
    requires i < |Next(s, t).hub.queue| && Next(s, t).hub.queue[i].status != Failed
    ensures HeldUntil(Next(s, t).hub.queue, i, u)
  {
    match t
    case Consume(r, k, c, fault) => ServeQueue(s.hub, r, k, c, fault);
    case PushDelta(_, _) =>
    case Lease(now) => assert i !in LeaseIds(s.hub.queue, now);
    case Ack(acks) => if AckAll(s.hub, acks).Ok? { AckAllSettles(s.hub, acks); }
    case Resend => RedeliveryChangesNothing(s);
    case AckSeen =>
    case Crash =>
  }

  lemma {:induction false} HeldRun(s: Sys, run: seq<Step>, i: nat, u: nat)
    requires SysInv(s) && Legal(s, run) && HeldUntil(s.hub.queue, i, u) && Undisturbed(s, run, i, u)
    ensures HeldUntil(After(s, run).hub.queue, i, u)
    decreases |run|
  {
    if run != [] {
      Guarantees.StepGrows(s, run[0]);
      HeldStep(s, run[0], i, u);
      StepKeeps(s, run[0]);
      HeldRun(Next(s, run[0]), run[1..], i, u);
    }
  }

  /** A leased row is not handed out again before its lease ends, crashes included, unless it fails and is retried. */
  lemma LeaseIsExclusive(s: Sys, now: nat, run: seq<Step>, later: nat, i: nat)
    requires SysInv(s) && Enabled(s, Lease(now)) && i in LeaseIds(s.hub.queue, now)
    requires Legal(Next(s, Lease(now)), run) && Undisturbed(Next(s, Lease(now)), run, i, now + 300)
    requires later <= now + 300
    ensures i !in LeaseIds(After(Next(s, Lease(now)), run).hub.queue, later)
  {
    StepKeeps(s, Lease(now));
    HeldRun(Next(s, Lease(now)), run, i, now + 300);
  }
}
