/**
 Where a chunk is, over all runs: no chunk is lost (no lease discipline assumed), a chunk nobody was given stays untouched,
 under the discipline no chunk is duplicated, and every delivery uses up a finite measure.
 */
module Tracking {
  import opened Sequences
  import opened Queue
  import opened Machine
  import opened Soundness
  import L = QueueLaws
  import S = Store

  // ---- no chunk is lost -----------------------------------------------------------------

  /** The chunk is finished, ready, in flight, or a dead letter that is not among `n - 1` already spoken for. */
  ghost predicate Safe(wd: World, k: Key, n: nat)
    requires n >= 1
  {
    && Count(wd.queue.dlq, k) >= n - 1
    && (k in wd.markers || Live(wd.queue, k) >= 1 || Count(wd.queue.dlq, k) >= n)
  }

  /** What a step does to the queue. */
  ghost function NextQueue(wd: World, s: Step): Queue {
    match s
    case ClaimTask(w, now, lease) =>
      if w in wd.workers && wd.workers[w].Idle? then Claim(wd.queue, now, lease) else wd.queue
    case AckTask(w) =>
      if w in wd.workers && wd.workers[w].Marked? then Ack(wd.queue, wd.workers[w].key) else wd.queue
    case FailTask(w) => if Holds(wd, w) then Fail(wd.queue, wd.workers[w].key) else wd.queue
    case Heartbeat(k, now, lease) => Extend(wd.queue, k, now, lease)
    case Poll(now) => Sweep(wd.queue, now)
    case EnqueueTask(k) => Enqueue(wd.queue, k)
    case ResetAttempt(k) => Reset(wd.queue, k)
    case TakeDeadTask(k) => TakeDead(wd.queue, k)
    case _ => wd.queue
  }

  lemma StepQueue(p: Program, wd: World, s: Step)
    ensures Apply(p, wd, s).queue == NextQueue(wd, s)
    ensures wd.markers <= Apply(p, wd, s).markers
  {
  }

  predicate IsMarked(wd: World, w: nat) { w in wd.workers && wd.workers[w].Marked? }

  /** No step but an acknowledgement and the controller's taking of a dead letter lets go of a key. */
  lemma StepKept(wd: World, s: Step, k: Key)
    requires DistinctLeases(wd.queue.inflight) && !s.TakeDeadTask? && !s.AckTask?
    ensures Kept(wd.queue, NextQueue(wd, s), k)
  {
    match s {
      case ClaimTask(w, now, lease) => ClaimCounts(wd.queue, now, lease, k);
      case FailTask(w) =>
        if Holds(wd, w) {
          FailCounts(wd.queue, wd.workers[w].key, k);
        }
      case Poll(now) => SweepCounts(wd.queue, now, k);
      case _ =>
    }
  }

  /** An acknowledgement lets go of a finished chunk only. */
  lemma AckKept(p: Program, wd: World, w: nat, k: Key)
    requires Inv(p, wd)
    ensures Kept(wd.queue, NextQueue(wd, AckTask(w)), k)
      || (k in wd.markers && NextQueue(wd, AckTask(w)).dlq == wd.queue.dlq)
  {
    if IsMarked(wd, w) {
      assert WorkerOk(p, wd, wd.workers[w]);
    }
  }

  /** Only the controller's taking a dead letter brings a chunk closer to being lost. */
  lemma StepSafe(p: Program, wd: World, s: Step, k: Key, n: nat)
    requires Inv(p, wd) && n >= 1 && Safe(wd, k, n) && s != TakeDeadTask(k)
    ensures Safe(Apply(p, wd, s), k, n)
  {
    StepQueue(p, wd, s);
    if s.AckTask? {
      AckKept(p, wd, s.w, k);
    } else if !s.TakeDeadTask? {
      StepKept(wd, s, k);
    }
  }

  lemma EnqueueSafe(p: Program, wd: World, k: Key, n: nat)
    requires n >= 1 && Count(wd.queue.dlq, k) >= n - 1
    ensures Safe(Apply(p, wd, EnqueueTask(k)), k, n)
  {
  }

  /** No chunk is lost: from the moment a key is enqueued, and until the controller takes it out of the dead letters, it
      is ready, in flight, a dead letter, or has a result marker, through every interleaving. */
  lemma {:induction false} NoChunkLost(p: Program, wd: World, steps: seq<Step>, k: Key)
    requires Inv(p, wd) && AllAllowed(p, wd, [EnqueueTask(k)] + steps)
    requires forall i :: 0 <= i < |steps| ==> steps[i] != TakeDeadTask(k)
    ensures var b := RunSteps(p, wd, [EnqueueTask(k)] + steps);
      k in b.queue.ready || InFlight(b.queue, k) || k in b.queue.dlq || k in b.markers
  {
    assert ([EnqueueTask(k)] + steps)[1..] == steps;
    EnqueueSafe(p, wd, k, 1);
    EnqueueOk(p, wd, k);
    StaysSafe(p, Apply(p, wd, EnqueueTask(k)), steps, k, 1);
    var q := RunSteps(p, wd, [EnqueueTask(k)] + steps).queue;
    assert k in q.ready <==> Count(q.ready, k) >= 1;
    assert k in q.dlq <==> Count(q.dlq, k) >= 1;
  }

  lemma {:induction false} StaysSafe(p: Program, wd: World, steps: seq<Step>, k: Key, n: nat)
    requires Inv(p, wd) && AllAllowed(p, wd, steps) && n >= 1 && Safe(wd, k, n)
    requires forall i :: 0 <= i < |steps| ==> steps[i] != TakeDeadTask(k)
    ensures Safe(RunSteps(p, wd, steps), k, n)
    decreases |steps|
  {
    if steps != [] {
      StepSafe(p, wd, steps[0], k, n);
      StepOk(p, wd, steps[0]);
      StaysSafe(p, Apply(p, wd, steps[0]), steps[1..], k, n);
    }
  }

  /** A task that is delivered although its chunk is finished is acknowledged, and nothing is read, run or written for it. */
  lemma FinishedIsSkipped(p: Program, wd: World, w: nat, k: Key)
    requires w in wd.workers && wd.workers[w] == Claimed(k) && k in wd.markers
    ensures var b := RunSteps(p, wd, [CheckMarker(w), AckTask(w)]);
      && b.workers == wd.workers[w := Idle] && !InFlight(b.queue, k)
      && b.queue == wd.queue.(inflight := b.queue.inflight)
      && (forall x :: x != k ==> (InFlight(b.queue, x) <==> InFlight(wd.queue, x)))
      && b.dirs == wd.dirs && b.markers == wd.markers && b.tasks == wd.tasks && b.put == wd.put
  {
    var a := Apply(p, wd, CheckMarker(w));
    assert [CheckMarker(w), AckTask(w)][1..] == [AckTask(w)] && [AckTask(w)][1..] == [];
    assert RunSteps(p, a, [AckTask(w)]) == RunSteps(p, Apply(p, a, AckTask(w)), []);
    assert wd.workers[w := Marked(k)][w := Idle] == wd.workers[w := Idle];
  }

  // ---- untouched chunks -------------------------------------------------------------------

  /** The queue does not hold the chunk and no worker has it. */
  ghost predicate Untouched(wd: World, k: Key) {
    && Copies(wd.queue, k) == 0
    && forall w :: w in wd.workers && Busy(wd.workers[w]) ==> wd.workers[w].key != k
  }

  /** A worker that has a chunk after the step had it before, or has just claimed it. */
  ghost predicate KeptOrClaimed(a: World, b: World, s: Step, w: nat) {
    w in b.workers && Busy(b.workers[w]) ==>
      || (Holds(a, w) && a.workers[w].key == b.workers[w].key)
      || (s.ClaimTask? && Next(a.queue, s.now) == Some(b.workers[w].key))
  }

  lemma TaskStepWorker(p: Program, wd: World, s: Step, w: nat)
    requires s.CheckMarker? || s.ReadMember? || s.Compute? || s.PutPart? || s.WriteMarker?
    ensures KeptOrClaimed(wd, Apply(p, wd, s), s, w)
  {
    hide ReadOne, Cap, S.Blocks, S.PartKey, Dir, Put, Next;
  }

  lemma QueueStepWorker(p: Program, wd: World, s: Step, w: nat)
    requires IsWorkerStep(s) && !(s.CheckMarker? || s.ReadMember? || s.Compute? || s.PutPart? || s.WriteMarker?)
    ensures KeptOrClaimed(wd, Apply(p, wd, s), s, w)
  {
    hide Sweep, Fail, Extend, Ack, Claim, Next;
  }

  /** What a step does to the chunk a worker has: it keeps it, drops it, or has just claimed it. */
  lemma StepWorker(p: Program, wd: World, s: Step, w: nat)
    requires IsWorkerStep(s)
    ensures KeptOrClaimed(wd, Apply(p, wd, s), s, w)
  {
    hide Apply, KeptOrClaimed;
    if s.CheckMarker? || s.ReadMember? || s.Compute? || s.PutPart? || s.WriteMarker? {
      TaskStepWorker(p, wd, s, w);
    } else {
      QueueStepWorker(p, wd, s, w);
    }
  }

  /** Workers never pick up a chunk that was not enqueued. */
  lemma StepUntouched(p: Program, wd: World, s: Step, k: Key)
    requires Inv(p, wd) && IsWorkerStep(s) && Untouched(wd, k)
    ensures Untouched(Apply(p, wd, s), k)
  {
    StepQueue(p, wd, s);
    CopiesUntouched(wd, s, k);
    forall w | w in Apply(p, wd, s).workers && Busy(Apply(p, wd, s).workers[w])
      ensures Apply(p, wd, s).workers[w].key != k
    {
      StepWorker(p, wd, s, w);
      if s.ClaimTask? {
        NextIsHeld(wd.queue, s.now, k);
      }
    }
  }

  lemma NextIsHeld(q: Queue, now: real, k: Key)
    requires DistinctLeases(q.inflight)
    ensures Next(q, now) == Some(k) ==> Copies(q, k) >= 1
  {
    SweepCounts(q, now, k);
    var r := Sweep(q, now).ready;
    assert r != [] ==> r[0] in multiset(r);
  }

  lemma CopiesUntouched(wd: World, s: Step, k: Key)
    requires DistinctLeases(wd.queue.inflight) && IsWorkerStep(s) && Untouched(wd, k)
    ensures Copies(NextQueue(wd, s), k) == 0
  {
    match s {
      case ClaimTask(w, now, lease) => ClaimCounts(wd.queue, now, lease, k);
      case FailTask(w) =>
        if Holds(wd, w) {
          FailCounts(wd.queue, wd.workers[w].key, k);
        }
      case Poll(now) => SweepCounts(wd.queue, now, k);
      case _ =>
    }
  }

  /** Nor can they finish it. */
  lemma StepUnmarked(p: Program, wd: World, s: Step, k: Key)
    requires Inv(p, wd) && IsWorkerStep(s) && Untouched(wd, k)
    ensures k in Apply(p, wd, s).markers <==> k in wd.markers
  {
    hide Apply, Inv;
    MarkersAfter(p, wd, s);
  }

  lemma MarkersAfter(p: Program, wd: World, s: Step)
    ensures var b := Apply(p, wd, s);
      || b.markers == wd.markers
      || (s.WriteMarker? && Holds(wd, s.w) && b.markers == wd.markers + {wd.workers[s.w].key})
  {
    hide Claim, Next, Sweep, Fail, Extend, Ack, Enqueue, Reset, TakeDead, Cap, ReadOne, S.Blocks, S.PartKey, Dir, Put;
  }

  // ---- the lease discipline ----------------------------------------------------------------

  /** A worker reports a failure only while the task is in flight. */
  predicate Disciplined(wd: World, s: Step) {
    s.FailTask? && Holds(wd, s.w) ==> InFlight(wd.queue, wd.workers[s.w].key)
  }

  /** Under the discipline no worker step makes a second copy of anything. */
  lemma StepCopies(p: Program, wd: World, s: Step, k: Key)
    requires Inv(p, wd) && IsWorkerStep(s) && Disciplined(wd, s)
    ensures Copies(Apply(p, wd, s).queue, k) <= Copies(wd.queue, k)
  {
    StepQueue(p, wd, s);
    match s {
      case ClaimTask(w, now, lease) => ClaimCounts(wd.queue, now, lease, k);
      case FailTask(w) =>
        if Holds(wd, w) {
          FailCounts(wd.queue, wd.workers[w].key, k);
        }
      case Poll(now) => SweepCounts(wd.queue, now, k);
      case _ =>
    }
  }
}
