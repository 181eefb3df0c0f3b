/**
 Leases over time. What a claim or a heartbeat promises is told from the operations and the times they carry, not from what
 the queue stores: until the granted time has passed nobody else is handed the task, and the first sweep from then on takes
 it back.
 */
module Leases {
  import opened Sequences
  import opened Queue
  import opened QueueLaws
  import opened Counters

  /** The operation gives `k` out, or extends the lease it is out on. */
  predicate Grants(q: Queue, op: Op, k: Key) {
    match op
    case DoClaim(now, _) => Next(q, now) == Some(k)
    case DoExtend(x, _, _) => x == k && InFlight(q, k)
    case _ => false
  }

  /** Until when: the time of the operation and the lease it asks for. */
  function GrantedTo(op: Op): real
    requires op.DoClaim? || op.DoExtend?
  {
    op.now + op.lease
  }

  /** The operation neither acknowledges, fails nor enqueues `k`, and looks for expired leases, if at all, before `d`. */
  predicate LeavesAlone(op: Op, k: Key, d: real) {
    && op != DoAck(k) && op != DoFail(k) && op != DoEnqueue(k)
    && (op.DoClaim? || op.DoDepth? ==> op.now < d)
  }

  /** The time granted to `k` after an operation that leaves it alone: another heartbeat grants another time. */
  function Renewed(op: Op, k: Key, d: real): real { if op.DoExtend? && op.key == k then op.now + op.lease else d }

  function GrantedAfter(ops: seq<Op>, k: Key, d: real): real {
    if ops == [] then d else GrantedAfter(ops[1..], k, Renewed(ops[0], k, d))
  }

  predicate AllLeaveAlone(ops: seq<Op>, k: Key, d: real) {
    ops == [] || (LeavesAlone(ops[0], k, d) && AllLeaveAlone(ops[1..], k, Renewed(ops[0], k, d)))
  }

  // ---- what the queue stores for it ---------------------------------------------------------

  /** `k` is out on a lease that ends at `d`, and in no other place. */
  ghost predicate OutUntil(q: Queue, k: Key, d: real) {
    DistinctLeases(q.inflight) && Lease(k, d) in q.inflight && Copies(q, k) == 1
  }

  lemma LeasedIs(q: Queue, k: Key, d: real)
    requires Lease(k, d) in q.inflight
    ensures InFlight(q, k)
  {
    assert Lease(k, d).key in LeasedKeys(q.inflight);
  }

  lemma OneLease(ls: seq<Lease>, k: Key, d: real, now: real)
    requires DistinctLeases(ls) && Lease(k, d) in ls
    ensures HasExpired(ls, k, now) <==> d <= now
  {
    var i :| 0 <= i < |ls| && ls[i] == Lease(k, d);
    assert forall j :: 0 <= j < |ls| && j != i ==> ls[j].key != ls[i].key;
  }

  lemma {:induction false} AssignHolds(ls: seq<Lease>, k: Key, d: real, x: Lease)
    requires DistinctLeases(ls)
    ensures x in Assign(ls, k, d) <==> x == Lease(k, d) || (x in ls && x.key != k)
  {
    if ls != [] {
      var rest := ls[1..];
      assert ls == [ls[0]] + rest;
      if ls[0].key == k {
        forall y | y in rest ensures y.key != k {
          var i :| 0 <= i < |rest| && rest[i] == y;
          assert ls[i + 1].key != ls[0].key;
        }
      } else {
        AssignHolds(rest, k, d, x);
      }
    }
  }

  /** A sweep takes the expired leases and leaves the others as they are. */
  lemma {:induction false} ExpireAllHolds(q: Queue, ks: seq<Key>, x: Lease)
    ensures x in ExpireAll(q, ks).inflight <==> x in q.inflight && x.key !in ks
    decreases |ks|
  {
    if ks != [] {
      var q1 := Fail(q, ks[0]);
      PopKeeps(q.inflight, ks[0], x);
      assert q1.inflight == Pop(q.inflight, ks[0]);
      ExpireAllHolds(q1, ks[1..], x);
      assert ks == [ks[0]] + ks[1..];
    }
  }

  /** The lease ends exactly at a sweep that is not before its time. */
  lemma SweepHolds(q: Queue, k: Key, d: real, now: real)
    requires OutUntil(q, k, d)
    ensures InFlight(Sweep(q, now), k) <==> now < d
    ensures now < d ==> OutUntil(Sweep(q, now), k, d)
  {
    hide ExpireAll;
    var ks := ExpiredKeys(q.inflight, now);
    SweepCounts(q, now, k);
    LeasedIs(q, k, d);
    OneLease(q.inflight, k, d, now);
    ExpiredKeysAre(q.inflight, now, k);
    ExpireAllHolds(q, ks, Lease(k, d));
  }

  /** A task that is out and nowhere else is not ready. */
  lemma NotNext(q: Queue, k: Key, d: real, now: real)
    requires OutUntil(q, k, d) && now < d
    ensures Next(q, now) != Some(k) && k !in Sweep(q, now).ready
  {
    SweepHolds(q, k, d, now);
    LeasedIs(Sweep(q, now), k, d);
    var r := Sweep(q, now).ready;
    assert Count(r, k) == 0;
    assert k in r <==> k in multiset(r);
  }

  lemma HandOutHolds(s: Queue, deadline: real, k: Key, d: real)
    requires s.ready != [] && OutUntil(s, k, d) && s.ready[0] != k
    ensures OutUntil(HandOut(s, deadline), k, d)
  {
    HandOutCounts(s, deadline, k);
    AssignDistinct(s.inflight, s.ready[0], deadline);
    AssignHolds(s.inflight, s.ready[0], deadline, Lease(k, d));
  }

  lemma ClaimHolds(q: Queue, k: Key, d: real, now: real, lease: real)
    requires OutUntil(q, k, d) && now < d
    ensures OutUntil(Claim(q, now, lease), k, d)
  {
    hide OutUntil, Sweep;
    SweepHolds(q, k, d, now);
    NotNext(q, k, d, now);
    if Sweep(q, now).ready != [] {
      HandOutHolds(Sweep(q, now), now + lease, k, d);
    }
  }

  lemma ExtendHolds(q: Queue, x: Key, k: Key, d: real, now: real, lease: real)
    requires OutUntil(q, k, d)
    ensures OutUntil(Extend(q, x, now, lease), k, if x == k then now + lease else d)
  {
    hide Assign;
    LeasedIs(q, k, d);
    if InFlight(q, x) {
      AssignDistinct(q.inflight, x, now + lease);
      AssignHolds(q.inflight, x, now + lease, Lease(k, if x == k then now + lease else d));
      AssignKeys(q.inflight, x, now + lease);
    }
  }

  lemma AssignKeys(ls: seq<Lease>, k: Key, d: real)
    ensures LeasedKeys(Assign(ls, k, d)) == LeasedKeys(ls) + {k}
  {
  }

  lemma AckHolds(q: Queue, x: Key, k: Key, d: real)
    requires OutUntil(q, k, d) && x != k
    ensures OutUntil(Ack(q, x), k, d)
  {
    PopDistinct(q.inflight, x);
    PopKeeps(q.inflight, x, Lease(k, d));
  }

  lemma FailHolds(q: Queue, x: Key, k: Key, d: real)
    requires OutUntil(q, k, d) && x != k
    ensures OutUntil(Fail(q, x), k, d)
  {
    hide Copies;
    FailLeases(q, x);
    FailCounts(q, x, k);
    PopKeeps(q.inflight, x, Lease(k, d));
    assert Fail(q, x).inflight == Pop(q.inflight, x);
  }

  lemma OtherHolds(q: Queue, op: Op, k: Key, d: real)
    requires OutUntil(q, k, d) && (op.DoReset? || op.DoTake? || (op.DoEnqueue? && op.key != k))
    ensures OutUntil(Do(q, op), k, d)
  {
    LeasedIs(q, k, d);
  }

  /** One more operation that leaves the task alone: nobody is handed it, and it is out for the time granted last. */
  lemma StaysOut(q: Queue, op: Op, k: Key, d: real)
    requires OutUntil(q, k, d) && LeavesAlone(op, k, d)
    ensures OutUntil(Do(q, op), k, Renewed(op, k, d)) && !DeliversTask(q, op, k)
  {
    hide OutUntil, Sweep, Claim, Fail, Ack, Extend, Next;
    match op {
      case DoClaim(now, lease) =>
        NotNext(q, k, d, now);
        ClaimHolds(q, k, d, now, lease);
      case DoDepth(now) => SweepHolds(q, k, d, now);
      case DoExtend(x, now, lease) => ExtendHolds(q, x, k, d, now, lease);
      case DoAck(x) => AckHolds(q, x, k, d);
      case DoFail(x) => FailHolds(q, x, k, d);
      case _ => OtherHolds(q, op, k, d);
    }
  }

  lemma HandedOut(s: Queue, k: Key, deadline: real)
    requires s.ready != [] && s.ready[0] == k && DistinctLeases(s.inflight) && Copies(s, k) == 1
    ensures OutUntil(HandOut(s, deadline), k, deadline)
  {
    assert k in multiset(s.ready);
    HandOutCounts(s, deadline, k);
    AssignDistinct(s.inflight, k, deadline);
    AssignHolds(s.inflight, k, deadline, Lease(k, deadline));
  }

  lemma Extended(q: Queue, k: Key, now: real, lease: real)
    requires InFlight(q, k) && DistinctLeases(q.inflight) && Copies(q, k) == 1
    ensures OutUntil(Extend(q, k, now, lease), k, now + lease)
  {
    AssignDistinct(q.inflight, k, now + lease);
    AssignHolds(q.inflight, k, now + lease, Lease(k, now + lease));
  }

  lemma GrantHolds(q: Queue, op: Op, k: Key)
    requires Grants(q, op, k) && DistinctLeases(q.inflight) && Copies(q, k) == 1
    ensures OutUntil(Do(q, op), k, GrantedTo(op))
  {
    hide Sweep, Copies, OutUntil, HandOut;
    if op.DoClaim? {
      SweepCounts(q, op.now, k);
      HandedOut(Sweep(q, op.now), k, op.now + op.lease);
    } else {
      Extended(q, k, op.now, op.lease);
    }
  }

  lemma {:induction false} OutThroughout(q: Queue, ops: seq<Op>, k: Key, d: real)
    requires OutUntil(q, k, d) && AllLeaveAlone(ops, k, d)
    ensures OutUntil(Run(q, ops), k, GrantedAfter(ops, k, d)) && DeliveriesOf(q, ops, k) == 0
    decreases |ops|
  {
    hide OutUntil, Do, LeavesAlone, Renewed, DeliversTask;
    if ops != [] {
      StaysOut(q, ops[0], k, d);
      OutThroughout(Do(q, ops[0]), ops[1..], k, Renewed(ops[0], k, d));
    }
  }

  /**
   A claim or a heartbeat for `k` at time `now` with `lease` promises it until `now + lease`. Take any operations after it
   that do not acknowledge, fail or enqueue `k` and do not sweep after the time granted so far (each further heartbeat
   grants another). None of them hands `k` out, `k` is in flight at the end, and a sweep then takes it back if and only if it
   is not before the time granted last. No discipline is asked of the other tasks, nor of `k` but that it is in one place.
   */
  lemma LeaseHolds(q: Queue, op: Op, ops: seq<Op>, k: Key, now: real)
    requires DistinctLeases(q.inflight) && Copies(q, k) == 1
    requires Grants(q, op, k) && AllLeaveAlone(ops, k, GrantedTo(op))
    ensures DeliveriesOf(Do(q, op), ops, k) == 0
    ensures InFlight(Run(q, [op] + ops), k)
    ensures InFlight(Sweep(Run(q, [op] + ops), now), k) <==> now < GrantedAfter(ops, k, GrantedTo(op))
  {
    hide OutUntil, Do, AllLeaveAlone, Sweep, GrantedAfter;
    assert ([op] + ops)[1..] == ops && ([op] + ops)[0] == op;
    GrantHolds(q, op, k);
    OutThroughout(Do(q, op), ops, k, GrantedTo(op));
    OutIsInFlight(Run(q, [op] + ops), k, GrantedAfter(ops, k, GrantedTo(op)));
    SweepHolds(Run(q, [op] + ops), k, GrantedAfter(ops, k, GrantedTo(op)), now);
  }

  lemma OutIsInFlight(q: Queue, k: Key, d: real)
    requires OutUntil(q, k, d)
    ensures InFlight(q, k)
  {
    LeasedIs(q, k, d);
  }

  lemma TakenBack(q: Queue, k: Key, d: real, now: real)
    requires OutUntil(q, k, d) && d <= now
    ensures var s := Sweep(q, now);
      && Attempt(s, k) == Attempt(q, k) + 1 && !InFlight(s, k)
      && Count(s.ready, k) == (if Attempt(q, k) + 1 > q.maxRedeliveries then 0 else 1)
      && Count(s.dlq, k) == (if Attempt(q, k) + 1 > q.maxRedeliveries then 1 else 0)
  {
    hide Fail;
    var ks := ExpiredKeys(q.inflight, now);
    ExpiredInFlight(q, now);
    OneLease(q.inflight, k, d, now);
    ExpiredKeysAre(q.inflight, now, k);
    LeasedIs(q, k, d);
    ExpiredOnce(q, ks, k);
  }

  /** The sweep that takes it back counts a failure: the task is ready again, or dead when its redeliveries are used up. */
  lemma LeaseEnds(q: Queue, op: Op, ops: seq<Op>, k: Key, now: real)
    requires DistinctLeases(q.inflight) && Copies(q, k) == 1
    requires Grants(q, op, k) && AllLeaveAlone(ops, k, GrantedTo(op))
    requires now >= GrantedAfter(ops, k, GrantedTo(op))
    ensures var b := Run(q, [op] + ops); var s := Sweep(b, now);
      var dead := Attempt(b, k) + 1 > b.maxRedeliveries;
      && Attempt(s, k) == Attempt(b, k) + 1
      && Count(s.ready, k) == (if dead then 0 else 1) && Count(s.dlq, k) == (if dead then 1 else 0)
  {
    hide OutUntil, Do, AllLeaveAlone, Sweep, GrantedAfter;
    assert ([op] + ops)[1..] == ops && ([op] + ops)[0] == op;
    GrantHolds(q, op, k);
    OutThroughout(Do(q, op), ops, k, GrantedTo(op));
    TakenBack(Run(q, [op] + ops), k, GrantedAfter(ops, k, GrantedTo(op)), now);
  }
}
