/**
 Leases and counters in runs of the machine: every step is at most one operation of the queue, so what holds of operations
 holds of steps. A retry is a task sent with its counter back at nought.
 */
module Attempts {
  import opened Sequences
  import opened Queue
  import opened Machine
  import opened Tracking
  import opened Progress
  import L = QueueLaws
  import C = Counters
  import Leases

  // ---- steps as operations ---------------------------------------------------------------------

  lemma StepIsOp(p: Program, wd: World, s: Step)
    ensures Apply(p, wd, s).queue == match OpOf(wd, s) case None => wd.queue case Some(op) => L.Do(wd.queue, op)
  {
    hide Apply, Claim, Ack, Fail, Extend, Sweep, Enqueue, Reset, TakeDead;
    StepQueue(p, wd, s);
  }

  // ---- leases --------------------------------------------------------------------------------------

  /** A worker is handed `k`, or somebody extends the lease it is out on. */
  ghost predicate StepGrants(wd: World, s: Step, k: Key) {
    match s
    case ClaimTask(w, now, _) => w in wd.workers && wd.workers[w].Idle? && Next(wd.queue, now) == Some(k)
    case Heartbeat(x, _, _) => x == k && InFlight(wd.queue, k)
    case _ => false
  }

  /** Nobody reports on `k` or enqueues it, and no sweep comes after the time granted so far. */
  ghost predicate StepLeavesAlone(wd: World, s: Step, k: Key, d: real) {
    match s
    case ClaimTask(w, now, _) => w in wd.workers && wd.workers[w].Idle? ==> now < d
    case Poll(now) => now < d
    case AckTask(w) => IsMarked(wd, w) ==> wd.workers[w].key != k
    case FailTask(w) => Holds(wd, w) ==> wd.workers[w].key != k
    case EnqueueTask(x) => x != k
    case _ => true
  }

  function StepRenews(s: Step, k: Key, d: real): real { if s.Heartbeat? && s.key == k then s.now + s.lease else d }

  ghost predicate RunLeavesAlone(p: Program, wd: World, steps: seq<Step>, k: Key, d: real)
    decreases |steps|
  {
    steps == [] ||
    (StepLeavesAlone(wd, steps[0], k, d) && RunLeavesAlone(p, Apply(p, wd, steps[0]), steps[1..], k, StepRenews(steps[0], k, d)))
  }

  function GrantedBy(steps: seq<Step>, k: Key, d: real): real {
    if steps == [] then d else GrantedBy(steps[1..], k, StepRenews(steps[0], k, d))
  }

  lemma AloneIsAlone(wd: World, s: Step, k: Key, d: real)
    requires StepLeavesAlone(wd, s, k, d)
    ensures match OpOf(wd, s)
      case None => StepRenews(s, k, d) == d && !DeliversTask(wd, s, k)
      case Some(op) =>
        && Leases.LeavesAlone(op, k, d) && Leases.Renewed(op, k, d) == StepRenews(s, k, d)
        && (DeliversTask(wd, s, k) <==> L.DeliversTask(wd.queue, op, k))
  {
  }

  lemma {:induction false} OutThroughoutRun(p: Program, wd: World, steps: seq<Step>, k: Key, d: real)
    requires Leases.OutUntil(wd.queue, k, d) && RunLeavesAlone(p, wd, steps, k, d)
    ensures Leases.OutUntil(RunSteps(p, wd, steps).queue, k, GrantedBy(steps, k, d)) && DeliveriesOf(p, wd, steps, k) == 0
    decreases |steps|
  {
    hide Apply, OpOf, L.Do, Leases.OutUntil, StepLeavesAlone, DeliversTask, L.DeliversTask;
    if steps != [] {
      StepIsOp(p, wd, steps[0]);
      AloneIsAlone(wd, steps[0], k, d);
      var op := OpOf(wd, steps[0]);
      if op.Some? { Leases.StaysOut(wd.queue, op.value, k, d); }
      OutThroughoutRun(p, Apply(p, wd, steps[0]), steps[1..], k, StepRenews(steps[0], k, d));
    }
  }

  /**
   A worker that is handed a task at time `now` with `lease` has it to itself until `now + lease`, and each heartbeat gives
   it a new such time, as long as nobody reports on the task or enqueues it and no sweep comes later than that. No claim
   hands the task out meanwhile; afterwards the first sweep, and no earlier one, takes it back.
   */
  lemma LeaseHoldsInRuns(p: Program, wd: World, s: Step, steps: seq<Step>, k: Key, now: real)
    requires DistinctLeases(wd.queue.inflight) && Copies(wd.queue, k) == 1 && StepGrants(wd, s, k)
    requires RunLeavesAlone(p, Apply(p, wd, s), steps, k, s.now + s.lease)
    ensures var a := Apply(p, wd, s);
      var q, end := RunSteps(p, a, steps).queue, GrantedBy(steps, k, s.now + s.lease);
      && DeliveriesOf(p, a, steps, k) == 0
      && InFlight(q, k) && (InFlight(Sweep(q, now), k) <==> now < end)
  {
    hide Apply, L.Do, Leases.OutUntil, Sweep, DeliveriesOf, RunLeavesAlone;
    var op := OpOf(wd, s).value;
    StepIsOp(p, wd, s);
    Leases.GrantHolds(wd.queue, op, k);
    var a := Apply(p, wd, s);
    OutThroughoutRun(p, a, steps, k, s.now + s.lease);
    var q, end := RunSteps(p, a, steps).queue, GrantedBy(steps, k, s.now + s.lease);
    Leases.OutIsInFlight(q, k, end);
    Leases.SweepHolds(q, k, end, now);
  }

  // ---- counters ----------------------------------------------------------------------------------------

  /** A worker reports a failure of `k`, or a sweep finds its lease expired. */
  ghost predicate StepFails(wd: World, s: Step, k: Key) {
    match s
    case FailTask(w) => Holds(wd, w) && wd.workers[w].key == k
    case ClaimTask(w, now, _) => w in wd.workers && wd.workers[w].Idle? && HasExpired(wd.queue.inflight, k, now)
    case Poll(now) => HasExpired(wd.queue.inflight, k, now)
    case _ => false
  }

  ghost function FailureCount(p: Program, wd: World, steps: seq<Step>, k: Key): nat
    decreases |steps|
  {
    if steps == [] then 0 else
    (if StepFails(wd, steps[0], k) then 1 else 0) + FailureCount(p, Apply(p, wd, steps[0]), steps[1..], k)
  }

  /** How many dead letters of `k` the controller takes. */
  ghost function TakenCount(p: Program, wd: World, steps: seq<Step>, k: Key): nat
    decreases |steps|
  {
    if steps == [] then 0 else
    (if steps[0] == TakeDeadTask(k) && k in wd.queue.dlq then 1 else 0) + TakenCount(p, Apply(p, wd, steps[0]), steps[1..], k)
  }

  predicate NoReset(steps: seq<Step>, k: Key) { forall i :: 0 <= i < |steps| ==> steps[i] != ResetAttempt(k) }

  lemma StepCounts(p: Program, wd: World, s: Step, k: Key)
    requires DistinctLeases(wd.queue.inflight) && s != ResetAttempt(k)
    ensures var q' := Apply(p, wd, s).queue;
      && C.CountsUp(wd.queue, q', k, StepFails(wd, s, k), s == TakeDeadTask(k) && k in wd.queue.dlq)
      && DistinctLeases(q'.inflight)
  {
    hide Apply, L.Do, Sweep, Fail, Claim;
    StepIsOp(p, wd, s);
    var op := OpOf(wd, s);
    if op.Some? { C.StepCountsUp(wd.queue, op.value, k); }
  }

  /**
   Over every run in which the controller does not reset it, a task's counter goes up by exactly its failures and expiries,
   and its dead letters, with those the controller takes, by exactly those past the redeliveries.
   */
  lemma {:induction false} CounterInRuns(p: Program, wd: World, steps: seq<Step>, k: Key)
    requires DistinctLeases(wd.queue.inflight) && NoReset(steps, k)
    ensures var b := RunSteps(p, wd, steps);
      var q, q' := wd.queue, b.queue;
      && DistinctLeases(q'.inflight) && q'.maxRedeliveries == q.maxRedeliveries
      && Attempt(q', k) == Attempt(q, k) + FailureCount(p, wd, steps, k)
      && Count(q'.dlq, k) + TakenCount(p, wd, steps, k) + C.Beyond(q, Attempt(q, k))
        == Count(q.dlq, k) + C.Beyond(q, Attempt(q', k))
    decreases |steps|
  {
    hide Apply, StepFails;
    if steps != [] {
      assert steps[0] != ResetAttempt(k);
      StepCounts(p, wd, steps[0], k);
      forall i | 0 <= i < |steps| - 1 ensures steps[1..][i] != ResetAttempt(k) { assert steps[1..][i] == steps[i + 1]; }
      CounterInRuns(p, Apply(p, wd, steps[0]), steps[1..], k);
    }
  }

  // ---- retries --------------------------------------------------------------------------------------------

  /** The steps after the first `n` are workers' steps and then `s`. */
  predicate WorkThen(h: seq<Step>, n: nat, s: Step) {
    n < |h| && h[|h| - 1] == s && forall i :: n <= i < |h| - 1 ==> IsWorkerStep(h[i])
  }

  lemma WorkedThen(h: seq<Step>, h': seq<Step>, s: Step)
    requires h <= h' && forall i :: |h| <= i < |h'| ==> IsWorkerStep(h'[i])
    ensures WorkThen(h' + [s], |h|, s) && h <= h' + [s]
  {
  }

  /** At step `m` of the run `k` is enqueued, and its counter stood at nought at step `n` and was not touched by the controller
      from there. */
  ghost predicate FreshAt(p: Program, start: World, h: seq<Step>, n: nat, m: nat, k: Key) {
    && n <= m < |h| && h[m] == EnqueueTask(k) && NoReset(h[n..m], k)
    && Attempt(RunSteps(p, start, h[..n]).queue, k) == 0
  }

  /** Somewhere after the first `from` steps of the run `k` is enqueued with all its redeliveries before it. */
  ghost predicate SentAfresh(p: Program, start: World, h: seq<Step>, from: nat, k: Key) {
    exists n: nat, m: nat :: from <= n && FreshAt(p, start, h, n, m, k)
  }

  /** When it is enqueued its counter is the number of its failures since it stood at nought. */
  lemma FreshCounter(p: Program, start: World, h: seq<Step>, n: nat, m: nat, k: Key)
    requires FreshAt(p, start, h, n, m, k) && DistinctLeases(RunSteps(p, start, h[..n]).queue.inflight)
    ensures Attempt(RunSteps(p, start, h[..m]).queue, k) == FailureCount(p, RunSteps(p, start, h[..n]), h[n..m], k)
  {
    assert h[..m] == h[..n] + h[n..m];
    RunJoined(p, start, h[..n], h[n..m]);
    CounterInRuns(p, RunSteps(p, start, h[..n]), h[n..m], k);
  }

  /** From there until it is reset again it gains exactly as many dead letters as it fails more often than the redeliveries
      allow: none with up to `max_redeliveries` failures. */
  lemma FreshDeaths(p: Program, start: World, h: seq<Step>, n: nat, m: nat, k: Key)
    requires FreshAt(p, start, h, n, m, k) && DistinctLeases(RunSteps(p, start, h[..n]).queue.inflight)
    requires NoReset(h[n..], k)
    ensures var a, b := RunSteps(p, start, h[..n]), RunSteps(p, start, h);
      var f, limit := FailureCount(p, a, h[n..], k), Limit(a.queue);
      Count(b.queue.dlq, k) + TakenCount(p, a, h[n..], k) == Count(a.queue.dlq, k) + (if f > limit then f - limit else 0)
  {
    assert h == h[..n] + h[n..];
    RunJoined(p, start, h[..n], h[n..]);
    CounterInRuns(p, RunSteps(p, start, h[..n]), h[n..], k);
  }

  /** What a retry does: the counter is reset, the workers go on, the task is enqueued. */
  lemma ResetSends(p: Program, start: World, h: seq<Step>, n: nat, k: Key)
    requires 0 < n <= |h| && h[n - 1] == ResetAttempt(k) && WorkThen(h, n, EnqueueTask(k))
    ensures SentAfresh(p, start, h, n, k)
  {
    var m := |h| - 1;
    assert h[..n] == h[..n - 1] + [ResetAttempt(k)];
    RunSnoc(p, start, h[..n - 1], ResetAttempt(k));
    forall i | 0 <= i < m - n ensures h[n..m][i] != ResetAttempt(k) {
      assert IsWorkerStep(h[n + i]);
    }
    assert FreshAt(p, start, h, n, m, k);
  }

  /** It stays so whatever comes after. */
  lemma AfreshLater(p: Program, start: World, h: seq<Step>, h': seq<Step>, from: nat, from': nat, k: Key)
    requires SentAfresh(p, start, h, from, k) && h <= h' && from' <= from
    ensures SentAfresh(p, start, h', from', k)
  {
    var n: nat, m: nat :| from <= n && FreshAt(p, start, h, n, m, k);
    assert h'[..n] == h[..n] && h'[n..m] == h[n..m];
    assert FreshAt(p, start, h', n, m, k);
  }
}
