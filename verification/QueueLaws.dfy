/** What any sequence of queue operations keeps: exclusivity under the lease discipline, and a bound on deliveries without it. */
module QueueLaws {
  import opened Sequences
  import opened Queue

  datatype Op =
    | DoEnqueue(key: Key)
    | DoClaim(now: real, lease: real)
    | DoExtend(key: Key, now: real, lease: real)
    | DoAck(key: Key)
    | DoFail(key: Key)
    | DoDepth(now: real)
    | DoReset(key: Key)
    | DoTake(key: Key)

  function Do(q: Queue, op: Op): Queue {
    match op
    case DoEnqueue(k) => Enqueue(q, k)
    case DoClaim(now, lease) => Claim(q, now, lease)
    case DoExtend(k, now, lease) => Extend(q, k, now, lease)
    case DoAck(k) => Ack(q, k)
    case DoFail(k) => Fail(q, k)
    case DoDepth(now) => Sweep(q, now)
    case DoReset(k) => Reset(q, k)
    case DoTake(k) => TakeDead(q, k)
  }

  function Run(q: Queue, ops: seq<Op>): Queue
    decreases |ops|
  {
    if ops == [] then q else Run(Do(q, ops[0]), ops[1..])
  }

  // ---- exclusivity ---------------------------------------------------------------

  /** Tasks are enqueued once; `ack` and `fail` come from a caller whose lease still stands. */
  predicate Disciplined(q: Queue, op: Op) {
    match op
    case DoEnqueue(k) => k !in q.attempt
    case DoAck(k) => InFlight(q, k)
    case DoFail(k) => InFlight(q, k)
    case DoReset(_) => false
    case DoTake(_) => false
    case _ => true
  }

  predicate AllDisciplined(q: Queue, ops: seq<Op>)
    decreases |ops|
  {
    ops == [] || (Disciplined(q, ops[0]) && AllDisciplined(Do(q, ops[0]), ops[1..]))
  }

  /** The keys acknowledged during a run. */
  function Acked(ops: seq<Op>): set<Key> {
    if ops == [] then {} else (if ops[0].DoAck? then {ops[0].key} else {}) + Acked(ops[1..])
  }

  /** Every enqueued key is in exactly one of ready, in flight, dead-lettered and acknowledged, with the attempts that
      place allows. */
  ghost predicate Exclusive(q: Queue, acked: set<Key>) {
    && DistinctLeases(q.inflight)
    && forall k :: OnePlace(q, acked, k)
  }

  ghost predicate OnePlace(q: Queue, acked: set<Key>, k: Key) {
    && Copies(q, k) + (if k in acked then 1 else 0) == (if k in q.attempt then 1 else 0)
    && (Live(q, k) >= 1 ==> Attempt(q, k) <= Limit(q))
    && (Count(q.dlq, k) >= 1 ==> Attempt(q, k) == Limit(q) + 1)
  }

  lemma FailKeepsPlace(q: Queue, acked: set<Key>, k: Key, x: Key)
    requires OnePlace(q, acked, k) && OnePlace(q, acked, x) && InFlight(q, k)
    ensures OnePlace(Fail(q, k), acked, x)
  {
    FailCounts(q, k, x);
    var q1 := q.(inflight := Pop(q.inflight, k));
    if x == k {
      assert Live(q1, k) == 0 && Count(q1.dlq, k) == 0;
    }
  }

  lemma {:induction false} ExpireAllKeepsPlace(q: Queue, acked: set<Key>, ks: seq<Key>, x: Key)
    requires DistinctLeases(q.inflight) && Distinct(ks)
    requires OnePlace(q, acked, x) && forall i :: 0 <= i < |ks| ==> InFlight(q, ks[i]) && OnePlace(q, acked, ks[i])
    ensures OnePlace(ExpireAll(q, ks), acked, x)
    decreases |ks|
  {
    if ks != [] {
      var q1 := Fail(q, ks[0]);
      FailLeases(q, ks[0]);
      FailKeepsPlace(q, acked, ks[0], x);
      forall i | 0 <= i < |ks| - 1 ensures InFlight(q1, ks[1..][i]) && OnePlace(q1, acked, ks[1..][i]) {
        assert ks[i + 1] != ks[0];
        FailKeepsPlace(q, acked, ks[0], ks[i + 1]);
      }
      ExpireAllKeepsPlace(q1, acked, ks[1..], x);
    }
  }

  lemma SweepExclusive(q: Queue, acked: set<Key>, now: real)
    requires Exclusive(q, acked)
    ensures Exclusive(Sweep(q, now), acked)
  {
    ExpiredInFlight(q, now);
    ExpireAllLeases(q, ExpiredKeys(q.inflight, now));
    forall x ensures OnePlace(Sweep(q, now), acked, x) {
      ExpireAllKeepsPlace(q, acked, ExpiredKeys(q.inflight, now), x);
    }
  }

  lemma HandOutExclusive(s: Queue, acked: set<Key>, deadline: real)
    requires Exclusive(s, acked) && s.ready != []
    ensures Exclusive(HandOut(s, deadline), acked)
  {
    var k := s.ready[0];
    AssignDistinct(s.inflight, k, deadline);
    assert s.ready == [k] + s.ready[1..];
    assert OnePlace(s, acked, k);
    forall x ensures OnePlace(HandOut(s, deadline), acked, x) {
      assert OnePlace(s, acked, x);
    }
  }

  lemma EnqueueExclusive(q: Queue, acked: set<Key>, k: Key)
    requires Exclusive(q, acked) && k !in q.attempt
    ensures Exclusive(Enqueue(q, k), acked)
  {
    forall x ensures OnePlace(Enqueue(q, k), acked, x) {
      assert OnePlace(q, acked, x);
    }
  }

  lemma AckExclusive(q: Queue, acked: set<Key>, k: Key)
    requires Exclusive(q, acked) && InFlight(q, k)
    ensures Exclusive(Ack(q, k), acked + {k})
  {
    PopDistinct(q.inflight, k);
    assert OnePlace(q, acked, k);
    forall x ensures OnePlace(Ack(q, k), acked + {k}, x) {
      assert OnePlace(q, acked, x);
    }
  }

  lemma FailExclusive(q: Queue, acked: set<Key>, k: Key)
    requires Exclusive(q, acked) && InFlight(q, k)
    ensures Exclusive(Fail(q, k), acked)
  {
    FailLeases(q, k);
    forall x ensures OnePlace(Fail(q, k), acked, x) {
      FailKeepsPlace(q, acked, k, x);
    }
  }

  lemma ExtendExclusive(q: Queue, acked: set<Key>, k: Key, now: real, lease: real)
    requires Exclusive(q, acked)
    ensures Exclusive(Extend(q, k, now, lease), acked)
  {
    if InFlight(q, k) {
      AssignDistinct(q.inflight, k, now + lease);
      forall x ensures OnePlace(Extend(q, k, now, lease), acked, x) {
        assert OnePlace(q, acked, x);
      }
    }
  }

  lemma StepExclusive(q: Queue, acked: set<Key>, op: Op)
    requires Exclusive(q, acked) && Disciplined(q, op)
    ensures Exclusive(Do(q, op), acked + Acked([op]))
  {
    assert [op][1..] == [];
    assert acked + Acked([op]) == if op.DoAck? then acked + {op.key} else acked;
    match op {
      case DoEnqueue(k) => EnqueueExclusive(q, acked, k);
      case DoClaim(now, lease) =>
        SweepExclusive(q, acked, now);
        if Sweep(q, now).ready != [] {
          HandOutExclusive(Sweep(q, now), acked, now + lease);
        }
      case DoExtend(k, now, lease) => ExtendExclusive(q, acked, k, now, lease);
      case DoAck(k) => AckExclusive(q, acked, k);
      case DoFail(k) => FailExclusive(q, acked, k);
      case DoDepth(now) => SweepExclusive(q, acked, now);
    }
  }

  /** Over every disciplined run, each key stays in exactly one place. */
  lemma {:induction false} LeaseExclusivity(q: Queue, acked: set<Key>, ops: seq<Op>)
    requires Exclusive(q, acked) && AllDisciplined(q, ops)
    ensures Exclusive(Run(q, ops), acked + Acked(ops))
    decreases |ops|
  {
    if ops != [] {
      StepExclusive(q, acked, ops[0]);
      assert [ops[0]][1..] == [];
      LeaseExclusivity(Do(q, ops[0]), acked + Acked([ops[0]]), ops[1..]);
      assert acked + Acked([ops[0]]) + Acked(ops[1..]) == acked + Acked(ops);
    } else {
      assert acked + {} == acked;
    }
  }

  /** ... from the start: after any disciplined run over a new queue, every key ever enqueued is in exactly one place. */
  lemma ExclusiveFromStart(max: int, ops: seq<Op>)
    requires AllDisciplined(Empty(max), ops)
    ensures Exclusive(Run(Empty(max), ops), Acked(ops))
  {
    assert Exclusive(Empty(max), {});
    LeaseExclusivity(Empty(max), {}, ops);
    assert {} + Acked(ops) == Acked(ops);
  }

  // ---- exactly when exclusivity holds ----------------------------------------------

  /**
   The operation leaves every key in one place: a new key is enqueued, an acknowledged or failed one is in flight, a counter
   is reset for a key that is not dead, and no dead letter is taken. Acknowledging a key once more is harmless, and so is
   failing one the queue has never seen, which comes to enqueueing it.
   */
  predicate Orderly(q: Queue, acked: set<Key>, op: Op) {
    match op
    case DoEnqueue(k) => k !in q.attempt
    case DoAck(k) => InFlight(q, k) || k in acked
    case DoFail(k) => InFlight(q, k) || k !in q.attempt
    case DoReset(k) => k in q.attempt && k !in q.dlq
    case DoTake(k) => k !in q.dlq
    case _ => true
  }

  lemma FailOrderly(q: Queue, acked: set<Key>, k: Key)
    requires Exclusive(q, acked)
    ensures Exclusive(Fail(q, k), acked) <==> Orderly(q, acked, DoFail(k))
  {
    if InFlight(q, k) {
      FailExclusive(q, acked, k);
    } else {
      FailCounts(q, k, k);
      FailLeases(q, k);
      assert OnePlace(q, acked, k);
      if k in q.attempt {
        assert !OnePlace(Fail(q, k), acked, k);
      } else {
        forall x ensures OnePlace(Fail(q, k), acked, x) {
          FailCounts(q, k, x);
          assert OnePlace(q, acked, x);
        }
      }
    }
  }

  lemma AckOrderly(q: Queue, acked: set<Key>, k: Key)
    requires Exclusive(q, acked)
    ensures Exclusive(Ack(q, k), acked + {k}) <==> Orderly(q, acked, DoAck(k))
  {
    if InFlight(q, k) {
      AckExclusive(q, acked, k);
    } else {
      PopDistinct(q.inflight, k);
      assert OnePlace(q, acked, k);
      if k in acked {
        forall x ensures OnePlace(Ack(q, k), acked + {k}, x) { assert OnePlace(q, acked, x); }
      } else {
        assert !OnePlace(Ack(q, k), acked + {k}, k);
      }
    }
  }

  lemma EnqueueOrderly(q: Queue, acked: set<Key>, k: Key)
    requires Exclusive(q, acked)
    ensures Exclusive(Enqueue(q, k), acked) <==> Orderly(q, acked, DoEnqueue(k))
  {
    if k in q.attempt {
      assert OnePlace(q, acked, k);
      assert !OnePlace(Enqueue(q, k), acked, k);
    } else {
      EnqueueExclusive(q, acked, k);
    }
  }

  lemma ResetOrderly(q: Queue, acked: set<Key>, k: Key)
    requires Exclusive(q, acked)
    ensures Exclusive(Reset(q, k), acked) <==> Orderly(q, acked, DoReset(k))
  {
    assert OnePlace(q, acked, k);
    assert k in q.dlq <==> Count(q.dlq, k) >= 1;
    if Orderly(q, acked, DoReset(k)) {
      forall x ensures OnePlace(Reset(q, k), acked, x) { assert OnePlace(q, acked, x); }
    } else {
      assert !OnePlace(Reset(q, k), acked, k);
    }
  }

  lemma TakeOrderly(q: Queue, acked: set<Key>, k: Key)
    requires Exclusive(q, acked)
    ensures Exclusive(TakeDead(q, k), acked) <==> Orderly(q, acked, DoTake(k))
  {
    assert OnePlace(q, acked, k);
    assert k in q.dlq <==> Count(q.dlq, k) >= 1;
    if k in q.dlq {
      assert !OnePlace(TakeDead(q, k), acked, k);
    } else {
      forall x ensures OnePlace(TakeDead(q, k), acked, x) { assert OnePlace(q, acked, x); }
    }
  }

  /** An operation keeps every key in one place exactly when it is orderly. */
  lemma OrderlyIff(q: Queue, acked: set<Key>, op: Op)
    requires Exclusive(q, acked)
    ensures Exclusive(Do(q, op), acked + Acked([op])) <==> Orderly(q, acked, op)
  {
    hide Exclusive, Enqueue, Ack, Fail, Reset, TakeDead;
    assert [op][1..] == [];
    assert acked + Acked([op]) == if op.DoAck? then acked + {op.key} else acked;
    match op {
      case DoEnqueue(k) => EnqueueOrderly(q, acked, k);
      case DoAck(k) => AckOrderly(q, acked, k);
      case DoFail(k) => FailOrderly(q, acked, k);
      case DoReset(k) => ResetOrderly(q, acked, k);
      case DoTake(k) => TakeOrderly(q, acked, k);
      case _ => StepExclusive(q, acked, op);
    }
  }

  predicate AllOrderly(q: Queue, acked: set<Key>, ops: seq<Op>)
    decreases |ops|
  {
    ops == [] || (Orderly(q, acked, ops[0]) && AllOrderly(Do(q, ops[0]), acked + Acked([ops[0]]), ops[1..]))
  }

  /** After every one of the operations each key is in one place. */
  ghost predicate ExclusiveThroughout(q: Queue, acked: set<Key>, ops: seq<Op>)
    decreases |ops|
  {
    Exclusive(q, acked) && (ops == [] || ExclusiveThroughout(Do(q, ops[0]), acked + Acked([ops[0]]), ops[1..]))
  }

  lemma {:induction false} ThroughoutAt(q: Queue, acked: set<Key>, ops: seq<Op>, n: nat)
    requires ExclusiveThroughout(q, acked, ops) && n <= |ops|
    ensures Exclusive(Run(q, ops[..n]), acked + Acked(ops[..n]))
    decreases n
  {
    hide Exclusive, Do;
    if n == 0 {
      assert acked + {} == acked;
    } else {
      assert ops[..n][0] == ops[0] && ops[..n][1..] == ops[1..][..n - 1] && [ops[0]][1..] == [];
      ThroughoutAt(Do(q, ops[0]), acked + Acked([ops[0]]), ops[1..], n - 1);
      assert acked + Acked([ops[0]]) + Acked(ops[1..][..n - 1]) == acked + Acked(ops[..n]);
    }
  }

  /** A run keeps every key in one place throughout exactly when all its operations are orderly. */
  lemma {:induction false} ExclusiveIffOrderly(q: Queue, acked: set<Key>, ops: seq<Op>)
    requires Exclusive(q, acked)
    ensures ExclusiveThroughout(q, acked, ops) <==> AllOrderly(q, acked, ops)
    decreases |ops|
  {
    hide Exclusive, Orderly, Do;
    if ops != [] {
      OrderlyIff(q, acked, ops[0]);
      var q', acked' := Do(q, ops[0]), acked + Acked([ops[0]]);
      if Exclusive(q', acked') {
        ExclusiveIffOrderly(q', acked', ops[1..]);
      }
    }
  }

  /** What obeys the discipline is orderly. */
  lemma {:induction false} DisciplinedIsOrderly(q: Queue, acked: set<Key>, ops: seq<Op>)
    requires Exclusive(q, acked) && AllDisciplined(q, ops)
    ensures AllOrderly(q, acked, ops)
    decreases |ops|
  {
    hide Exclusive, Do;
    if ops != [] {
      assert Orderly(q, acked, ops[0]);
      StepExclusive(q, acked, ops[0]);
      DisciplinedIsOrderly(Do(q, ops[0]), acked + Acked([ops[0]]), ops[1..]);
    }
  }

  /** Nobody is handed a task whose lease, as last extended, has not run out. */
  lemma {:induction false} LeaseRespected(q: Queue, acked: set<Key>, now: real, l: Lease)
    requires Exclusive(q, acked) && l in q.inflight && l.deadline > now
    ensures Next(q, now) != Some(l.key)
  {
    SweepCounts(q, now, l.key);
    SweepExclusive(q, acked, now);
    assert OnePlace(Sweep(q, now), acked, l.key);
  }

  /** Without the discipline a key can be in two places at once: a worker whose lease ran out fails the task it lost. */
  lemma StaleFailDuplicates(k: Key)
    ensures var ops := [DoEnqueue(k), DoClaim(0.0, 1.0), DoDepth(1.0), DoFail(k)];
      Copies(Run(Empty(3), ops), k) == 2
  {
    var q0 := Enqueue(Empty(3), k);
    assert q0.ready == [k] && q0.attempt == map[k := 0];
    var q1 := Claim(q0, 0.0, 1.0);
    assert Sweep(q0, 0.0) == q0;
    assert q1.ready == [] && q1.inflight == [Lease(k, 1.0)];
    var q2 := Sweep(q1, 1.0);
    assert ExpiredKeys(q1.inflight, 1.0) == [k];
    assert ExpireAll(q1, [k]) == ExpireAll(Fail(q1, k), []);
    assert q2 == Fail(q1, k) && q2.ready == [k];
    var q3 := Fail(q2, k);
    assert q3.ready == [k, k];
    var ops := [DoEnqueue(k), DoClaim(0.0, 1.0), DoDepth(1.0), DoFail(k)];
    assert Run(Empty(3), ops) == Run(q0, ops[1..]);
    assert Run(q0, ops[1..]) == Run(q1, ops[1..][1..]) by { assert ops[1..][0] == DoClaim(0.0, 1.0); }
    assert Run(q1, ops[1..][1..]) == Run(q2, ops[1..][1..][1..]) by { assert ops[1..][1..][0] == DoDepth(1.0); }
    assert ops[1..][1..][1..] == [DoFail(k)];
    assert Run(q2, [DoFail(k)]) == Run(q3, [DoFail(k)][1..]) == q3;
  }

  // ---- deliveries ------------------------------------------------------------------

  /** Redeliveries a task has left. */
  function Credit(q: Queue, k: Key): nat {
    if Attempt(q, k) >= Limit(q) then 0 else Limit(q) - Attempt(q, k)
  }

  ghost function CreditOf(q: Queue, ks: set<Key>): nat {
    if ks == {} then 0 else
    var k :| k in ks;
    Credit(q, k) + CreditOf(q, ks - {k})
  }

  lemma {:induction false} CreditSplit(q: Queue, ks: set<Key>, k: Key)
    requires k in ks
    ensures CreditOf(q, ks) == Credit(q, k) + CreditOf(q, ks - {k})
  {
    var c :| c in ks && CreditOf(q, ks) == Credit(q, c) + CreditOf(q, ks - {c});
    if c != k {
      CreditSplit(q, ks - {c}, k);
      CreditSplit(q, ks - {k}, c);
      assert ks - {c} - {k} == ks - {k} - {c};
    }
  }

  lemma {:induction false} CreditSame(q: Queue, q': Queue, ks: set<Key>)
    requires forall k :: k in ks ==> Credit(q, k) == Credit(q', k)
    ensures CreditOf(q, ks) == CreditOf(q', ks)
  {
    if ks != {} {
      var k :| k in ks;
      CreditSplit(q, ks, k);
      CreditSplit(q', ks, k);
      CreditSame(q, q', ks - {k});
    }
  }

  /** One key's counter changed. */
  lemma CreditChange(q: Queue, q': Queue, k: Key)
    requires k in q.attempt && q'.attempt.Keys == q.attempt.Keys && Limit(q') == Limit(q)
    requires forall x :: x != k ==> Attempt(q', x) == Attempt(q, x)
    ensures CreditOf(q', q'.attempt.Keys) + Credit(q, k) == CreditOf(q, q.attempt.Keys) + Credit(q', k)
  {
    CreditSplit(q, q.attempt.Keys, k);
    CreditSplit(q', q.attempt.Keys, k);
    CreditSame(q, q', q.attempt.Keys - {k});
  }

  /** Deliveries that may still happen: what is ready now, and every redelivery left to any task. */
  ghost function Potential(q: Queue): nat {
    |q.ready| + CreditOf(q, q.attempt.Keys)
  }

  /** What the queue holds was enqueued. */
  ghost predicate Known(q: Queue) {
    && (forall k :: k in q.ready ==> k in q.attempt)
    && (forall k :: k in LeasedKeys(q.inflight) ==> k in q.attempt)
  }

  lemma FailPotential(q: Queue, k: Key)
    requires Known(q) && k in q.attempt
    ensures Known(Fail(q, k)) && Fail(q, k).attempt.Keys == q.attempt.Keys
    ensures Potential(Fail(q, k)) <= Potential(q) && Limit(Fail(q, k)) == Limit(q)
  {
    assert Fail(q, k).attempt.Keys == q.attempt.Keys;
    CreditChange(q, Fail(q, k), k);
  }

  lemma {:induction false} ExpireAllPotential(q: Queue, ks: seq<Key>)
    requires Known(q) && forall i :: 0 <= i < |ks| ==> ks[i] in q.attempt
    ensures Known(ExpireAll(q, ks)) && ExpireAll(q, ks).attempt.Keys == q.attempt.Keys
    ensures Potential(ExpireAll(q, ks)) <= Potential(q) && Limit(ExpireAll(q, ks)) == Limit(q)
    decreases |ks|
  {
    if ks != [] {
      FailPotential(q, ks[0]);
      ExpireAllPotential(Fail(q, ks[0]), ks[1..]);
    }
  }

  lemma SweepPotential(q: Queue, now: real)
    requires Known(q)
    ensures Known(Sweep(q, now)) && Potential(Sweep(q, now)) <= Potential(q) && Limit(Sweep(q, now)) == Limit(q)
    ensures Sweep(q, now).attempt.Keys == q.attempt.Keys
  {
    var ks := ExpiredKeys(q.inflight, now);
    forall i | 0 <= i < |ks| ensures ks[i] in q.attempt {
      ExpiredKeysAre(q.inflight, now, ks[i]);
    }
    ExpireAllPotential(q, ks);
  }

  /** Only tasks that were enqueued are failed. No lease is asked for. */
  predicate Sane(q: Queue, op: Op) {
    op.DoFail? ==> op.key in q.attempt
  }

  function Delivered(q: Queue, op: Op): nat {
    if op.DoClaim? && Next(q, op.now).Some? then 1 else 0
  }

  /** The deliveries an operation makes possible: one and the redeliveries for a new task, the redeliveries for a reset. */
  function Cost(q: Queue, op: Op): nat {
    match op
    case DoEnqueue(k) => if k in q.attempt then 1 else 1 + Limit(q)
    case DoReset(_) => Limit(q)
    case _ => 0
  }

  /** One key's counter is set, a new key's to nought. */
  lemma CounterSet(q: Queue, q': Queue, k: Key)
    requires q'.attempt == q.attempt[k := Attempt(q', k)] && Limit(q') == Limit(q)
    requires k !in q.attempt ==> Attempt(q', k) == 0
    ensures CreditOf(q', q'.attempt.Keys) ==
      CreditOf(q, q.attempt.Keys) + Credit(q', k) - (if k in q.attempt then Credit(q, k) else 0)
  {
    if k in q.attempt {
      assert q'.attempt.Keys == q.attempt.Keys;
      CreditChange(q, q', k);
    } else {
      assert q'.attempt.Keys - {k} == q.attempt.Keys;
      CreditSplit(q', q'.attempt.Keys, k);
      CreditSame(q, q', q.attempt.Keys);
    }
  }

  lemma ClaimPotential(q: Queue, now: real, lease: real)
    requires Known(q)
    ensures var c := Claim(q, now, lease);
      && Known(c) && Limit(c) == Limit(q)
      && Potential(c) + (if Next(q, now).Some? then 1 else 0) <= Potential(q)
  {
    hide Sweep;
    var s := Sweep(q, now);
    SweepPotential(q, now);
    if s.ready != [] {
      CreditSame(s, Claim(q, now, lease), s.attempt.Keys);
    }
  }

  lemma StepPotential(q: Queue, op: Op)
    requires Known(q) && Sane(q, op)
    ensures Known(Do(q, op)) && Limit(Do(q, op)) == Limit(q)
    ensures Potential(Do(q, op)) + Delivered(q, op) <= Potential(q) + Cost(q, op)
  {
    hide Sweep, Fail, Claim, CreditOf, Next;
    var q' := Do(q, op);
    match op {
      case DoEnqueue(k) => CounterSet(q, q', k);
      case DoReset(k) => CounterSet(q, q', k);
      case DoFail(k) => FailPotential(q, k);
      case DoDepth(now) => SweepPotential(q, now);
      case DoClaim(now, lease) => ClaimPotential(q, now, lease);
      case _ => CreditSame(q, q', q.attempt.Keys);
    }
  }

  predicate AllSane(q: Queue, ops: seq<Op>)
    decreases |ops|
  {
    ops == [] || (Sane(q, ops[0]) && AllSane(Do(q, ops[0]), ops[1..]))
  }

  function Deliveries(q: Queue, ops: seq<Op>): nat
    decreases |ops|
  {
    if ops == [] then 0 else Delivered(q, ops[0]) + Deliveries(Do(q, ops[0]), ops[1..])
  }

  function TotalCost(q: Queue, ops: seq<Op>): nat
    decreases |ops|
  {
    if ops == [] then 0 else Cost(q, ops[0]) + TotalCost(Do(q, ops[0]), ops[1..])
  }

  /** Over every run the deliveries are paid for by enqueues and resets; no lease discipline is needed. */
  lemma {:induction false} DeliveryBound(q: Queue, ops: seq<Op>)
    requires Known(q) && AllSane(q, ops)
    ensures Deliveries(q, ops) + Potential(Run(q, ops)) <= Potential(q) + TotalCost(q, ops)
    decreases |ops|
  {
    if ops != [] {
      StepPotential(q, ops[0]);
      DeliveryBound(Do(q, ops[0]), ops[1..]);
    }
  }

  function Enqueues(ops: seq<Op>): nat {
    if ops == [] then 0 else (if ops[0].DoEnqueue? then 1 else 0) + Enqueues(ops[1..])
  }

  predicate NoResets(ops: seq<Op>) { forall i :: 0 <= i < |ops| ==> !ops[i].DoReset? }

  lemma {:induction false} EnqueuesTimes(ops: seq<Op>, per: nat)
    requires ops != []
    ensures Enqueues(ops) * per == (if ops[0].DoEnqueue? then per else 0) + Enqueues(ops[1..]) * per
  {
    var n := Enqueues(ops[1..]);
    assert (1 + n) * per == per + n * per;
  }

  lemma {:induction false} CostOfEnqueues(q: Queue, ops: seq<Op>, per: nat)
    requires Known(q) && AllSane(q, ops) && NoResets(ops) && per == Limit(q) + 1
    ensures TotalCost(q, ops) <= Enqueues(ops) * per
    decreases |ops|
  {
    if ops != [] {
      StepPotential(q, ops[0]);
      CostOfEnqueues(Do(q, ops[0]), ops[1..], per);
      EnqueuesTimes(ops, per);
      CostPerOp(q, ops[0]);
    }
  }

  lemma CostPerOp(q: Queue, op: Op)
    requires !op.DoReset?
    ensures Cost(q, op) <= if op.DoEnqueue? then Limit(q) + 1 else 0
  {
  }

  lemma EmptyPotential(max: int)
    ensures Known(Empty(max)) && Potential(Empty(max)) == 0
  {
    assert Empty(max).attempt.Keys == {};
  }

  /** From an empty queue, `n` enqueues and no reset: at most `n * (max_redeliveries + 1)` deliveries. */
  lemma {:induction false} DeliveriesWithoutRemediation(max: int, ops: seq<Op>)
    requires AllSane(Empty(max), ops) && NoResets(ops)
    ensures Deliveries(Empty(max), ops) <= Enqueues(ops) * (Limit(Empty(max)) + 1)
  {
    EmptyPotential(max);
    DeliveryBound(Empty(max), ops);
    CostOfEnqueues(Empty(max), ops, Limit(Empty(max)) + 1);
  }

  // ---- deliveries of one task --------------------------------------------------------

  /** How often the task is ready, and the redeliveries it has left; a key never seen has all of them. */
  ghost function Stock(q: Queue, k: Key): nat { Count(q.ready, k) + Credit(q, k) }

  lemma FailStock(q: Queue, x: Key, k: Key)
    ensures Stock(Fail(q, x), k) <= Stock(q, k) && Limit(Fail(q, x)) == Limit(q)
  {
    FailCounts(q, x, k);
    assert Attempt(Fail(q, x), x) == Attempt(q, x) + 1;
  }

  lemma {:induction false} ExpireAllStock(q: Queue, ks: seq<Key>, k: Key)
    ensures Stock(ExpireAll(q, ks), k) <= Stock(q, k) && Limit(ExpireAll(q, ks)) == Limit(q)
    decreases |ks|
  {
    hide Stock, Fail;
    if ks != [] {
      FailStock(q, ks[0], k);
      ExpireAllStock(Fail(q, ks[0]), ks[1..], k);
    }
  }

  predicate DeliversTask(q: Queue, op: Op, k: Key) { op.DoClaim? && Next(q, op.now) == Some(k) }

  /** What an operation adds to the stock of a key: one for enqueueing it, all its redeliveries for a reset. */
  function StockCost(q: Queue, op: Op, k: Key): nat {
    if op == DoEnqueue(k) then 1 else if op == DoReset(k) then Limit(q) else 0
  }

  lemma ClaimStock(q: Queue, now: real, lease: real, k: Key)
    ensures var c := Claim(q, now, lease);
      Stock(c, k) + (if Next(q, now) == Some(k) then 1 else 0) <= Stock(q, k) && Limit(c) == Limit(q)
  {
    hide Sweep;
    ExpireAllStock(q, ExpiredKeys(q.inflight, now), k);
    var s := Sweep(q, now);
    assert s == ExpireAll(q, ExpiredKeys(q.inflight, now)) by { SweepIs(q, now); }
    if s.ready != [] {
      assert s.ready == [s.ready[0]] + s.ready[1..];
    }
  }

  lemma SweepIs(q: Queue, now: real)
    ensures Sweep(q, now) == ExpireAll(q, ExpiredKeys(q.inflight, now))
  {
  }

  /** Each delivery of a task is paid for out of its own stock, whatever the operation, stale ones included. */
  lemma StepStock(q: Queue, op: Op, k: Key)
    ensures Stock(Do(q, op), k) + (if DeliversTask(q, op, k) then 1 else 0) <= Stock(q, k) + StockCost(q, op, k)
    ensures Limit(Do(q, op)) == Limit(q)
  {
    hide Sweep, Fail, Claim, Next;
    match op {
      case DoFail(x) => FailStock(q, x, k);
      case DoDepth(now) =>
        SweepIs(q, now);
        ExpireAllStock(q, ExpiredKeys(q.inflight, now), k);
      case DoClaim(now, lease) => ClaimStock(q, now, lease, k);
      case _ =>
    }
  }

  function DeliveriesOf(q: Queue, ops: seq<Op>, k: Key): nat
    decreases |ops|
  {
    if ops == [] then 0 else (if DeliversTask(q, ops[0], k) then 1 else 0) + DeliveriesOf(Do(q, ops[0]), ops[1..], k)
  }

  function StockCosts(q: Queue, ops: seq<Op>, k: Key): nat {
    if ops == [] then 0 else StockCost(q, ops[0], k) + StockCosts(q, ops[1..], k)
  }

  lemma {:induction false} SameLimitCosts(q: Queue, q': Queue, ops: seq<Op>, k: Key)
    requires Limit(q) == Limit(q')
    ensures StockCosts(q, ops, k) == StockCosts(q', ops, k)
  {
    if ops != [] { SameLimitCosts(q, q', ops[1..], k); }
  }

  /**
   Every task by itself: over every run it is delivered once for each time it is enqueued, and for the redeliveries it had
   left or was granted again by a reset. No lease discipline is needed.
   */
  lemma {:induction false} DeliveriesPerTask(q: Queue, ops: seq<Op>, k: Key)
    ensures DeliveriesOf(q, ops, k) + Stock(Run(q, ops), k) <= Stock(q, k) + StockCosts(q, ops, k)
    decreases |ops|
  {
    hide Do, Stock, StockCost, DeliversTask;
    if ops != [] {
      StepStock(q, ops[0], k);
      DeliveriesPerTask(Do(q, ops[0]), ops[1..], k);
      SameLimitCosts(q, Do(q, ops[0]), ops[1..], k);
    }
  }

  /** From a new queue, a task enqueued once and never reset. */
  lemma DeliveriesOfOne(max: int, ops: seq<Op>, k: Key)
    requires StockCosts(Empty(max), ops, k) <= 1
    ensures DeliveriesOf(Empty(max), ops, k) <= Limit(Empty(max)) + 1
  {
    hide StockCosts, DeliveriesOf, Run;
    DeliveriesPerTask(Empty(max), ops, k);
  }
}
