/** In which order successive leases hand out the rows of a queue that nobody adds to. */
module LeaseOrder {
  import opened Model
  import opened Store

  function Finish(q: Queue, ids: seq<nat>): (r: Queue)
    ensures |r| == |q|
    ensures forall i | 0 <= i < |q| :: r[i] == if i in ids then q[i].(status := Applied) else q[i]
  {
    seq(|q|, i requires 0 <= i < |q| => if i in ids then q[i].(status := Applied) else q[i])
  }

  function TurnQueue(q: Queue, now: nat): Queue { Finish(LeaseQueue(q, now), LeaseIds(q, now)) }

  /** The rows that successive leases at these times hand out, in that order. */
  function Handed(q: Queue, clocks: seq<nat>): seq<nat>
    decreases |clocks|
  {
    if clocks == [] then [] else LeaseIds(q, clocks[0]) + Handed(TurnQueue(q, clocks[0]), clocks[1..])
  }

  function QueueAfter(q: Queue, clocks: seq<nat>): Queue
    decreases |clocks|
  {
    if clocks == [] then q else QueueAfter(TurnQueue(q, clocks[0]), clocks[1..])
  }

  // ---- What the order looks like ----

  lemma TurnItem(q: Queue, now: nat, i: nat)
    requires i < |q|
    ensures var x := TurnQueue(q, now)[i];
            if i in LeaseIds(q, now) then !x.Unfinished() && q[i].Unfinished() && Expired(q[i], now).status == Pending
            else x == Expired(q[i], now)
  {
  }

  /** Turns hand out unfinished rows, each once, and leave unfinished those they have not handed out. */
  lemma {:induction false} HandedFinishes(q: Queue, clocks: seq<nat>, i: nat)
    requires i < |q|
    ensures i in Handed(q, clocks) ==> q[i].Unfinished()
    ensures |QueueAfter(q, clocks)| == |q|
    ensures QueueAfter(q, clocks)[i].note == q[i].note && QueueAfter(q, clocks)[i].write == q[i].write
    ensures QueueAfter(q, clocks)[i].Unfinished() <==> q[i].Unfinished() && i !in Handed(q, clocks)
    decreases |clocks|
  {
    if clocks != [] {
      TurnItem(q, clocks[0], i);
      HandedFinishes(TurnQueue(q, clocks[0]), clocks[1..], i);
    }
  }

  predicate Before(ids: seq<nat>, i: nat, j: nat) {
    exists a, c :: 0 <= a < c < |ids| && ids[a] == i && ids[c] == j
  }

  /** When row i is handed out. */
  function TimeOf(q: Queue, clocks: seq<nat>, i: nat): nat
    decreases |clocks|
  {
    if clocks == [] then 0
    else if i in LeaseIds(q, clocks[0]) then clocks[0]
    else TimeOf(TurnQueue(q, clocks[0]), clocks[1..], i)
  }

  predicate NoEarlier(clocks: seq<nat>, t: nat) { forall a | 0 <= a < |clocks| :: t <= clocks[a] }

  predicate Ordered(clocks: seq<nat>)
    decreases |clocks|
  {
    clocks == [] || (NoEarlier(clocks[1..], clocks[0]) && Ordered(clocks[1..]))
  }

  /** A bridge still has, or has lost, this row at time t. */
  predicate LeasedPast(x: Item, t: nat) {
    x.status == Processing && !(x.leaseUntil.Some? && x.leaseUntil.value < t)
  }

  lemma {:induction false} TimeIsLate(q: Queue, clocks: seq<nat>, i: nat, t: nat)
    requires i in Handed(q, clocks) && NoEarlier(clocks, t)
    ensures t <= TimeOf(q, clocks, i)
    decreases |clocks|
  {
    if i !in LeaseIds(q, clocks[0]) { TimeIsLate(TurnQueue(q, clocks[0]), clocks[1..], i, t); }
  }

  lemma BeforeSplit(xs: seq<nat>, ys: seq<nat>, i: nat, j: nat)
    requires forall k: nat :: k in xs ==> k !in ys
    ensures i in xs && j in xs ==> (Before(xs + ys, i, j) <==> Before(xs, i, j))
    ensures i in xs && j in ys ==> Before(xs + ys, i, j)
    ensures i in ys && j in xs ==> !Before(xs + ys, i, j)
    ensures i in ys && j in ys ==> (Before(xs + ys, i, j) <==> Before(ys, i, j))
  {
    var zs := xs + ys;
    forall a, c | 0 <= a < c < |xs| && xs[a] == i && xs[c] == j ensures Before(zs, i, j) {
      assert zs[a] == i && zs[c] == j;
    }
    forall a, c | 0 <= a < c < |ys| && ys[a] == i && ys[c] == j ensures Before(zs, i, j) {
      assert zs[|xs| + a] == i && zs[|xs| + c] == j;
    }
    if i in xs && j in ys {
      var a :| 0 <= a < |xs| && xs[a] == i;
      var c :| 0 <= c < |ys| && ys[c] == j;
      assert zs[a] == i && zs[|xs| + c] == j;
    }
    if a, c :| 0 <= a < c < |zs| && zs[a] == i && zs[c] == j {
      if c < |xs| {
        assert xs[a] == i && xs[c] == j;
      } else if |xs| <= a {
        assert ys[a - |xs|] == i && ys[c - |xs|] == j;
      } else {
        assert xs[a] == i && ys[c - |xs|] == j;
      }
    }
  }

  lemma AscendingBefore(ids: seq<nat>, i: nat, j: nat)
    requires Ascending(ids) && i in ids && j in ids
    ensures Before(ids, i, j) <==> i < j
  {
  }

  /** In one lease a row precedes those above it; a row left out is above it or still under another lease. */
  lemma LeaseSplits(q: Queue, now: nat, slot: nat, j: nat)
    requires slot < |q| && q[slot].status == Pending && j < |q| && q[j].Unfinished() && j != slot
    ensures var ids := LeaseIds(q, now);
            && Ascending(ids)
            && (j in ids ==> !LeasedPast(q[j], now))
            && (j in ids && slot !in ids ==> j < slot)
            && (slot in ids && j !in ids ==> j > slot || LeasedPast(q[j], now))
  {
    var q1 := ExpireAll(q, now);
    assert q1[slot] == q[slot] && q1[j] == Expired(q[j], now);
  }

  lemma OnceHanded(q: Queue, clocks: seq<nat>)
    requires clocks != []
    ensures forall k: nat :: k in LeaseIds(q, clocks[0]) ==> k !in Handed(TurnQueue(q, clocks[0]), clocks[1..])
  {
    forall k: nat | k in LeaseIds(q, clocks[0]) ensures k !in Handed(TurnQueue(q, clocks[0]), clocks[1..]) {
      TurnItem(q, clocks[0], k);
      HandedFinishes(TurnQueue(q, clocks[0]), clocks[1..], k);
    }
  }

  lemma HandedNow(q: Queue, clocks: seq<nat>, slot: nat, j: nat)
    requires clocks != [] && slot in LeaseIds(q, clocks[0]) && j in Handed(q, clocks)
    ensures Before(Handed(q, clocks), slot, j) <==> j > slot || j !in LeaseIds(q, clocks[0])
    ensures TimeOf(q, clocks, slot) == clocks[0]
  {
    var ids, later := LeaseIds(q, clocks[0]), Handed(TurnQueue(q, clocks[0]), clocks[1..]);
    OnceHanded(q, clocks);
    BeforeSplit(ids, later, slot, j);
    if j in ids { AscendingBefore(ids, slot, j); }
  }

  lemma SlotWaits(q: Queue, clocks: seq<nat>, slot: nat)
    requires clocks != [] && Ordered(clocks) && slot < |q| && q[slot].status == Pending
    requires slot in Handed(q, clocks) && slot !in LeaseIds(q, clocks[0])
    ensures var q2, rest, t := TurnQueue(q, clocks[0]), clocks[1..], TimeOf(q, clocks, slot);
            q2[slot] == q[slot] && slot in Handed(q2, rest) && t == TimeOf(q2, rest, slot) && clocks[0] <= t
  {
    TurnItem(q, clocks[0], slot);
    TimeIsLate(TurnQueue(q, clocks[0]), clocks[1..], slot, clocks[0]);
  }

  lemma HandedLater(q: Queue, clocks: seq<nat>, slot: nat, j: nat)
    requires clocks != [] && slot in Handed(q, clocks) && slot !in LeaseIds(q, clocks[0]) && j in Handed(q, clocks)
    ensures var rest := Handed(TurnQueue(q, clocks[0]), clocks[1..]);
            Before(Handed(q, clocks), slot, j) <==> j !in LeaseIds(q, clocks[0]) && Before(rest, slot, j)
  {
    OnceHanded(q, clocks);
    BeforeSplit(LeaseIds(q, clocks[0]), Handed(TurnQueue(q, clocks[0]), clocks[1..]), slot, j);
  }

  /**
   * A pending row reaches Bear before another exactly when its id is lower, or the other one is still leased, by a
   * bridge that will not finish it, at the time the row is handed out.
   */
  lemma {:induction false} HandedBeforeIff(q: Queue, clocks: seq<nat>, slot: nat, j: nat)
    requires Ordered(clocks) && slot < |q| && q[slot].status == Pending && j < |q| && j != slot
    requires slot in Handed(q, clocks) && j in Handed(q, clocks)
    ensures Before(Handed(q, clocks), slot, j) <==> j > slot || LeasedPast(q[j], TimeOf(q, clocks, slot))
    decreases |clocks|
  {
    var now, ids, rest := clocks[0], LeaseIds(q, clocks[0]), clocks[1..];
    HandedFinishes(q, clocks, j);
    LeaseSplits(q, now, slot, j);
    if slot in ids {
      HandedNow(q, clocks, slot, j);
    } else {
      SlotWaits(q, clocks, slot);
      HandedLater(q, clocks, slot, j);
      TurnItem(q, now, j);
      if j !in ids { HandedBeforeIff(TurnQueue(q, now), rest, slot, j); }
    }
  }

  lemma {:induction false} HandedOnce(q: Queue, clocks: seq<nat>)
    ensures forall a, c | 0 <= a < c < |Handed(q, clocks)| :: Handed(q, clocks)[a] != Handed(q, clocks)[c]
    decreases |clocks|
  {
    if clocks != [] {
      OnceHanded(q, clocks);
      HandedOnce(TurnQueue(q, clocks[0]), clocks[1..]);
    }
  }

  lemma {:induction false} HandedInRange(q: Queue, clocks: seq<nat>)
    ensures forall k: nat :: k in Handed(q, clocks) ==> k < |q|
    decreases |clocks|
  {
    if clocks != [] { HandedInRange(TurnQueue(q, clocks[0]), clocks[1..]); }
  }
}
