/**
 What the attempt counters count, and when a task dies: told from the failures and expiries of a run, exactly. Also the order
 in which tasks are handed out, and what `depth` counts. No lease discipline is assumed.
 */
module Counters {
  import opened Sequences
  import opened Queue
  import opened QueueLaws

  // ---- failures -----------------------------------------------------------------------------

  /** The operation reports a failure of `k`, or finds its lease expired. */
  ghost predicate Fails(q: Queue, op: Op, k: Key) {
    match op
    case DoFail(x) => x == k
    case DoClaim(now, _) => HasExpired(q.inflight, k, now)
    case DoDepth(now) => HasExpired(q.inflight, k, now)
    case _ => false
  }

  ghost function Failures(q: Queue, ops: seq<Op>, k: Key): nat
    decreases |ops|
  {
    if ops == [] then 0 else (if Fails(q, ops[0], k) then 1 else 0) + Failures(Do(q, ops[0]), ops[1..], k)
  }

  /** How many dead letters of `k` are taken. */
  function Removals(q: Queue, ops: seq<Op>, k: Key): nat
    decreases |ops|
  {
    if ops == [] then 0 else
    (if ops[0] == DoTake(k) && k in q.dlq then 1 else 0) + Removals(Do(q, ops[0]), ops[1..], k)
  }

  predicate NotReset(ops: seq<Op>, k: Key) { forall i :: 0 <= i < |ops| ==> ops[i] != DoReset(k) }

  /** How far a counter is past the redeliveries. */
  function Beyond(q: Queue, a: nat): nat { if a > Limit(q) then a - Limit(q) else 0 }

  lemma {:induction false} OthersExpire(q: Queue, ks: seq<Key>, k: Key)
    requires k !in ks
    ensures SamePlaces(q, ExpireAll(q, ks), k)
    decreases |ks|
  {
    hide Fail;
    if ks != [] {
      FailCounts(q, ks[0], k);
      OthersExpire(Fail(q, ks[0]), ks[1..], k);
    }
  }

  lemma {:induction false} ExpiredOnce(q: Queue, ks: seq<Key>, k: Key)
    requires k in ks && Distinct(ks)
    ensures var s, dead := ExpireAll(q, ks), Attempt(q, k) + 1 > q.maxRedeliveries;
      && Attempt(s, k) == Attempt(q, k) + 1 && !InFlight(s, k)
      && Count(s.ready, k) == Count(q.ready, k) + (if dead then 0 else 1)
      && Count(s.dlq, k) == Count(q.dlq, k) + (if dead then 1 else 0)
    decreases |ks|
  {
    hide Fail;
    FailCounts(q, ks[0], k);
    FailAttempt(q, ks[0]);
    assert ks == [ks[0]] + ks[1..];
    if ks[0] == k {
      forall i | 0 <= i < |ks| - 1 ensures ks[1..][i] != k { assert ks[i + 1] != ks[0]; }
      OthersExpire(Fail(q, k), ks[1..], k);
    } else {
      ExpiredOnce(Fail(q, ks[0]), ks[1..], k);
    }
  }

  lemma FailAttempt(q: Queue, k: Key)
    ensures Attempt(Fail(q, k), k) == Attempt(q, k) + 1 && Fail(q, k).maxRedeliveries == q.maxRedeliveries
  {
  }

  /** The counter goes up by one with a failure; the task is dead once it is past the redeliveries. */
  ghost predicate CountsUp(q: Queue, q': Queue, k: Key, failed: bool, taken: bool) {
    var a := Attempt(q, k) + (if failed then 1 else 0);
    && q'.maxRedeliveries == q.maxRedeliveries && Attempt(q', k) == a
    && Count(q'.dlq, k) + (if taken then 1 else 0) + Beyond(q, Attempt(q, k)) == Count(q.dlq, k) + Beyond(q, a)
  }

  lemma {:induction false} ExpireAllMax(q: Queue, ks: seq<Key>)
    ensures ExpireAll(q, ks).maxRedeliveries == q.maxRedeliveries
    decreases |ks|
  {
    hide Fail;
    if ks != [] {
      FailAttempt(q, ks[0]);
      ExpireAllMax(Fail(q, ks[0]), ks[1..]);
    }
  }

  lemma SweepCountsUp(q: Queue, now: real, k: Key)
    requires DistinctLeases(q.inflight)
    ensures CountsUp(q, Sweep(q, now), k, HasExpired(q.inflight, k, now), false)
    ensures DistinctLeases(Sweep(q, now).inflight)
  {
    hide Fail;
    var ks := ExpiredKeys(q.inflight, now);
    ExpiredInFlight(q, now);
    ExpiredKeysAre(q.inflight, now, k);
    ExpireAllLeases(q, ks);
    if k in ks { ExpiredOnce(q, ks, k); } else { OthersExpire(q, ks, k); }
  }

  lemma ClaimCountsUp(q: Queue, now: real, lease: real, k: Key)
    requires DistinctLeases(q.inflight)
    ensures CountsUp(q, Claim(q, now, lease), k, HasExpired(q.inflight, k, now), false)
    ensures DistinctLeases(Claim(q, now, lease).inflight)
  {
    hide Sweep;
    var s := Sweep(q, now);
    SweepCountsUp(q, now, k);
    if s.ready != [] { AssignDistinct(s.inflight, s.ready[0], now + lease); }
  }

  lemma FailCountsUp(q: Queue, x: Key, k: Key)
    requires DistinctLeases(q.inflight)
    ensures CountsUp(q, Fail(q, x), k, x == k, false) && DistinctLeases(Fail(q, x).inflight)
  {
    hide Fail;
    FailCounts(q, x, k);
    FailAttempt(q, x);
    FailLeases(q, x);
  }

  lemma TakeCountsUp(q: Queue, x: Key, k: Key)
    ensures CountsUp(q, TakeDead(q, x), k, false, x == k && k in q.dlq)
  {
    assert k in q.dlq <==> k in multiset(q.dlq);
  }

  /** Enqueueing, acknowledging, extending, and resetting others count nothing. */
  lemma NothingCountsUp(q: Queue, op: Op, k: Key)
    requires op.DoEnqueue? || op.DoAck? || op.DoExtend? || (op.DoReset? && op.key != k)
    ensures CountsUp(q, Do(q, op), k, false, false)
  {
    hide Pop, Assign, InFlight;
  }

  lemma StepLeases(q: Queue, op: Op)
    requires DistinctLeases(q.inflight)
    ensures DistinctLeases(Do(q, op).inflight)
  {
    hide Sweep, Fail, Claim;
    match op {
      case DoClaim(now, lease) => ClaimCounts(q, now, lease, Key(0, ""));
      case DoDepth(now) => SweepCounts(q, now, Key(0, ""));
      case DoFail(x) => FailLeases(q, x);
      case DoExtend(x, now, lease) => AssignDistinct(q.inflight, x, now + lease);
      case DoAck(x) => PopDistinct(q.inflight, x);
      case _ =>
    }
  }

  lemma StepCountsUp(q: Queue, op: Op, k: Key)
    requires DistinctLeases(q.inflight) && op != DoReset(k)
    ensures CountsUp(q, Do(q, op), k, Fails(q, op, k), op == DoTake(k) && k in q.dlq)
    ensures DistinctLeases(Do(q, op).inflight)
  {
    hide Sweep, Fail, Claim, CountsUp, TakeDead, Enqueue, Reset, Ack, Extend, HasExpired, DistinctLeases;
    StepLeases(q, op);
    match op {
      case DoClaim(now, lease) => ClaimCountsUp(q, now, lease, k);
      case DoDepth(now) => SweepCountsUp(q, now, k);
      case DoFail(x) => FailCountsUp(q, x, k);
      case DoTake(x) => TakeCountsUp(q, x, k);
      case _ => NothingCountsUp(q, op, k);
    }
  }

  /**
   Over every run in which its counter is not reset, the counter of a task goes up by exactly its failures and expiries. Its
   dead letters, with those taken, grow by exactly the failures past the redeliveries: with a counter at nought it dies at
   failure `max_redeliveries + 1`, not before.
   */
  lemma {:induction false} CounterCounts(q: Queue, ops: seq<Op>, k: Key)
    requires DistinctLeases(q.inflight) && NotReset(ops, k)
    ensures var b := Run(q, ops);
      && Attempt(b, k) == Attempt(q, k) + Failures(q, ops, k)
      && Count(b.dlq, k) + Removals(q, ops, k) + Beyond(q, Attempt(q, k)) == Count(q.dlq, k) + Beyond(q, Attempt(b, k))
    decreases |ops|
  {
    hide Do, Fails;
    if ops != [] {
      assert ops[0] != DoReset(k);
      StepCountsUp(q, ops[0], k);
      var q' := Do(q, ops[0]);
      forall i | 0 <= i < |ops| - 1 ensures ops[1..][i] != DoReset(k) { assert ops[1..][i] == ops[i + 1]; }
      CounterCounts(q', ops[1..], k);
    }
  }

  /** A task whose counter was just set to nought: its counter is its failures since, and it is dead again only after
      `max_redeliveries + 1` of them. */
  lemma AfterReset(q: Queue, ops: seq<Op>, k: Key)
    requires DistinctLeases(q.inflight) && NotReset(ops, k)
    ensures var b, f := Run(q, [DoReset(k)] + ops), Failures(Do(q, DoReset(k)), ops, k);
      && Attempt(b, k) == f
      && Count(b.dlq, k) + Removals(Do(q, DoReset(k)), ops, k) == Count(q.dlq, k) + Beyond(q, f)
  {
    assert ([DoReset(k)] + ops)[1..] == ops && ([DoReset(k)] + ops)[0] == DoReset(k);
    CounterCounts(Do(q, DoReset(k)), ops, k);
  }

  // ---- first in, first out -------------------------------------------------------------------

  /** The tasks handed out, in order. */
  function Handed(q: Queue, ops: seq<Op>): seq<Key>
    decreases |ops|
  {
    if ops == [] then [] else
    (if ops[0].DoClaim? && Next(q, ops[0].now).Some? then [Next(q, ops[0].now).value] else [])
    + Handed(Do(q, ops[0]), ops[1..])
  }

  lemma {:induction false} ExpireAllAppends(q: Queue, ks: seq<Key>)
    ensures q.ready <= ExpireAll(q, ks).ready
    decreases |ks|
  {
    if ks != [] {
      assert q.ready <= Fail(q, ks[0]).ready;
      ExpireAllAppends(Fail(q, ks[0]), ks[1..]);
    }
  }

  /** Only a claim takes from the ready tasks, and it takes the front one; whatever else comes goes to the end. */
  lemma StepAppends(q: Queue, op: Op)
    ensures q.ready <= (if op.DoClaim? && Next(q, op.now).Some? then [Next(q, op.now).value] else []) + Do(q, op).ready
  {
    if op.DoClaim? || op.DoDepth? {
      ExpireAllAppends(q, ExpiredKeys(q.inflight, op.now));
      var s := Sweep(q, op.now);
      assert s.ready != [] ==> s.ready == [s.ready[0]] + s.ready[1..];
    }
  }

  /** Over every run, what is handed out and what is then still ready begins with what was ready, in order: no task
      overtakes another. */
  lemma {:induction false} FirstInFirstOut(q: Queue, ops: seq<Op>)
    ensures q.ready <= Handed(q, ops) + Run(q, ops).ready
    decreases |ops|
  {
    hide Do, Next;
    if ops != [] {
      StepAppends(q, ops[0]);
      FirstInFirstOut(Do(q, ops[0]), ops[1..]);
      var h := if ops[0].DoClaim? && Next(q, ops[0].now).Some? then [Next(q, ops[0].now).value] else [];
      PrefixThrough(q.ready, h, Do(q, ops[0]).ready, Handed(Do(q, ops[0]), ops[1..]) + Run(Do(q, ops[0]), ops[1..]).ready);
      assert h + (Handed(Do(q, ops[0]), ops[1..]) + Run(q, ops).ready) == Handed(q, ops) + Run(q, ops).ready;
    } else {
      assert Handed(q, ops) + Run(q, ops).ready == q.ready;
    }
  }

  lemma PrefixThrough(x: seq<Key>, h: seq<Key>, y: seq<Key>, z: seq<Key>)
    requires x <= h + y && y <= z
    ensures x <= h + z
  {
    assert forall i :: 0 <= i < |x| ==> x[i] == (h + y)[i] == (h + z)[i];
  }

  /** A task enqueued behind `n` others is the one the `n + 1`st delivery hands out. */
  lemma EnqueuedIsServed(q: Queue, k: Key, ops: seq<Op>)
    requires |Handed(Enqueue(q, k), ops)| > |q.ready|
    ensures Handed(Enqueue(q, k), ops)[|q.ready|] == k
  {
    FirstInFirstOut(Enqueue(q, k), ops);
    var n, h := |q.ready|, Handed(Enqueue(q, k), ops);
    assert Enqueue(q, k).ready[n] == k;
    assert (h + Run(Enqueue(q, k), ops).ready)[n] == h[n];
  }

  // ---- depth -------------------------------------------------------------------------------------

  lemma {:induction false} PopOne(ls: seq<Lease>, k: Key)
    requires DistinctLeases(ls) && k in LeasedKeys(ls)
    ensures |Pop(ls, k)| == |ls| - 1
  {
    assert ls == [ls[0]] + ls[1..];
    if ls[0].key == k {
      forall x | x in ls[1..] ensures x.key != k {
        var i :| 0 <= i < |ls| - 1 && ls[1..][i] == x;
        assert ls[i + 1].key != ls[0].key;
      }
      PopNone(ls[1..], k);
    } else {
      PopOne(ls[1..], k);
    }
  }

  lemma {:induction false} PopNone(ls: seq<Lease>, k: Key)
    requires forall x :: x in ls ==> x.key != k
    ensures Pop(ls, k) == ls
  {
    if ls != [] { PopNone(ls[1..], k); }
  }

  function Held(q: Queue): nat { |q.ready| + |q.inflight| + |q.dlq| }

  lemma {:induction false} ExpireAllHeld(q: Queue, ks: seq<Key>)
    requires DistinctLeases(q.inflight) && Distinct(ks) && forall i :: 0 <= i < |ks| ==> InFlight(q, ks[i])
    ensures Held(ExpireAll(q, ks)) == Held(q)
    decreases |ks|
  {
    if ks != [] {
      var q1 := Fail(q, ks[0]);
      PopOne(q.inflight, ks[0]);
      FailLeases(q, ks[0]);
      forall i | 0 <= i < |ks| - 1 ensures InFlight(q1, ks[1..][i]) { assert ks[i + 1] != ks[0]; }
      ExpireAllHeld(q1, ks[1..]);
    }
  }

  /** The depth is all the queue holds but the dead letters, those the count itself finds included; it is nought just when
      nothing is ready and no lease still stands. */
  lemma DepthCounts(q: Queue, now: real)
    requires DistinctLeases(q.inflight)
    ensures Depth(q, now) + |Sweep(q, now).dlq| == Held(q)
    ensures Depth(q, now) == 0 <==> forall k :: Live(Sweep(q, now), k) == 0
  {
    hide ExpireAll;
    var s := Sweep(q, now);
    ExpiredInFlight(q, now);
    ExpireAllHeld(q, ExpiredKeys(q.inflight, now));
    if s.ready != [] {
      assert s.ready[0] in multiset(s.ready);
      assert Live(s, s.ready[0]) > 0;
    }
    if s.inflight != [] {
      assert s.inflight[0].key in LeasedKeys(s.inflight);
      assert Live(s, s.inflight[0].key) > 0;
    }
  }
}
