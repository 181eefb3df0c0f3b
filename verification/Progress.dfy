/**
 A drain cannot go on for ever: every claim, acknowledgement, failure, crash and expiry uses up a measure. No lease
 discipline is assumed.
 */
module Progress {
  import opened Sequences
  import opened Queue
  import opened Machine
  import opened Tracking
  import Soundness
  import L = QueueLaws

  ghost function BusyWorkers(wd: World): set<nat> {
    set w | w in wd.workers && Busy(wd.workers[w])
  }

  /** Every task a worker or the queue holds was enqueued. */
  ghost predicate Counted(wd: World) {
    L.Known(wd.queue) && forall w :: w in wd.workers && Busy(wd.workers[w]) ==> wd.workers[w].key in wd.queue.attempt
  }

  /** Three for each delivery that may still happen, one for each lease, one for each worker with a task. */
  ghost function Measure(wd: World): nat {
    3 * L.Potential(wd.queue) + |wd.queue.inflight| + |BusyWorkers(wd)|
  }

  ghost predicate AnyExpired(q: Queue, now: real) { ExpiredKeys(q.inflight, now) != [] }

  /** The step delivers a task, ends a delivery, or lets a lease run out. */
  ghost predicate Uses(wd: World, s: Step) {
    match s
    case ClaimTask(w, now, _) =>
      w in wd.workers && wd.workers[w].Idle? && (Next(wd.queue, now).Some? || AnyExpired(wd.queue, now))
    case AckTask(w) => IsMarked(wd, w)
    case FailTask(w) => Holds(wd, w)
    case Crash(w) => Holds(wd, w)
    case Poll(now) => AnyExpired(wd.queue, now)
    case _ => false
  }

  lemma {:induction false} ExpireAllShrinks(q: Queue, ks: seq<Key>)
    ensures |ExpireAll(q, ks).inflight| <= |q.inflight|
    decreases |ks|
  {
    if ks != [] {
      ExpireAllShrinks(Fail(q, ks[0]), ks[1..]);
    }
  }

  lemma SweepShrinks(q: Queue, now: real)
    requires L.Known(q)
    ensures L.Known(Sweep(q, now)) && Sweep(q, now).attempt.Keys == q.attempt.Keys
    ensures L.Potential(Sweep(q, now)) <= L.Potential(q)
    ensures |Sweep(q, now).inflight| <= |q.inflight|
    ensures AnyExpired(q, now) ==> |Sweep(q, now).inflight| < |q.inflight|
  {
    L.SweepPotential(q, now);
    var ks := ExpiredKeys(q.inflight, now);
    if ks != [] {
      ExpiredKeysAre(q.inflight, now, ks[0]);
      assert ks[0] in LeasedKeys(q.inflight);
      ExpireAllShrinks(Fail(q, ks[0]), ks[1..]);
    }
  }

  lemma ClaimShrinks(q: Queue, now: real, lease: real)
    requires L.Known(q)
    ensures var c := Claim(q, now, lease);
      && L.Known(c) && c.attempt.Keys == q.attempt.Keys
      && (Next(q, now).Some? ==> 3 * L.Potential(c) + |c.inflight| <= 3 * L.Potential(q) + |q.inflight| - 2)
      && (Next(q, now).Some? ==> Next(q, now).value in q.attempt)
      && (Next(q, now).None? ==> c == Sweep(q, now))
  {
    var s := Sweep(q, now);
    SweepShrinks(q, now);
    if s.ready != [] {
      L.CreditSame(s, Claim(q, now, lease), s.attempt.Keys);
    }
  }

  lemma BusyAfter(wd: World, q: Queue, w: nat, x: Worker)
    ensures BusyWorkers(Moved(wd.(queue := q), w, x)) == if Busy(x) then BusyWorkers(wd) + {w} else BusyWorkers(wd) - {w}
  {
  }

  lemma ClaimIs(p: Program, wd: World, w: nat, now: real, lease: real)
    ensures var b, q, next := Apply(p, wd, ClaimTask(w, now, lease)), Claim(wd.queue, now, lease), Next(wd.queue, now);
      b == if !(w in wd.workers && wd.workers[w].Idle?) then wd
        else if next.None? then wd.(queue := q) else Moved(wd.(queue := q), w, Claimed(next.value))
  {
    hide Claim, Next;
  }

  /** The worker takes up a task. */
  lemma TakenUp(wd: World, q: Queue, w: nat, k: Key)
    requires Counted(wd) && L.Known(q) && q.attempt.Keys == wd.queue.attempt.Keys && k in q.attempt
    requires 3 * L.Potential(q) + |q.inflight| <= 3 * L.Potential(wd.queue) + |wd.queue.inflight| - 2
    ensures var b := Moved(wd.(queue := q), w, Claimed(k)); Counted(b) && Measure(b) < Measure(wd)
  {
    hide L.Potential, L.Known;
    BusyAfter(wd, q, w, Claimed(k));
  }

  /** The queue changes and nothing is handed out. */
  lemma OnlyQueue(wd: World, q: Queue)
    requires Counted(wd) && L.Known(q) && q.attempt.Keys == wd.queue.attempt.Keys
    requires L.Potential(q) <= L.Potential(wd.queue)
    ensures var b := wd.(queue := q);
      && Counted(b)
      && (|q.inflight| <= |wd.queue.inflight| ==> Measure(b) <= Measure(wd))
      && (|q.inflight| < |wd.queue.inflight| ==> Measure(b) < Measure(wd))
  {
    hide L.Potential, L.Known;
    assert BusyWorkers(wd.(queue := q)) == BusyWorkers(wd);
  }

  lemma ClaimMeasure(p: Program, wd: World, w: nat, now: real, lease: real)
    requires Counted(wd)
    ensures var b := Apply(p, wd, ClaimTask(w, now, lease));
      && Counted(b) && Measure(b) <= Measure(wd)
      && (Uses(wd, ClaimTask(w, now, lease)) ==> Measure(b) < Measure(wd))
  {
    hide L.Potential, L.Known, Claim, Sweep, Next, Apply, Measure, Counted, AnyExpired;
    CountedKnown(wd);
    ClaimIs(p, wd, w, now, lease);
    if w in wd.workers && wd.workers[w].Idle? {
      var q := Claim(wd.queue, now, lease);
      ClaimShrinks(wd.queue, now, lease);
      SweepShrinks(wd.queue, now);
      if Next(wd.queue, now).Some? {
        TakenUp(wd, q, w, Next(wd.queue, now).value);
      } else {
        OnlyQueue(wd, q);
      }
    }
  }

  lemma FailMeasure(p: Program, wd: World, w: nat)
    requires Counted(wd) && Holds(wd, w)
    ensures Counted(Apply(p, wd, FailTask(w))) && Measure(Apply(p, wd, FailTask(w))) < Measure(wd)
  {
    var q := Fail(wd.queue, wd.workers[w].key);
    L.FailPotential(wd.queue, wd.workers[w].key);
    BusyAfter(wd, q, w, Idle);
    assert w in BusyWorkers(wd);
  }

  lemma AckMeasure(p: Program, wd: World, w: nat)
    requires Counted(wd) && IsMarked(wd, w)
    ensures Counted(Apply(p, wd, AckTask(w))) && Measure(Apply(p, wd, AckTask(w))) < Measure(wd)
  {
    var q := Ack(wd.queue, wd.workers[w].key);
    L.CreditSame(wd.queue, q, q.attempt.Keys);
    BusyAfter(wd, q, w, Idle);
    assert w in BusyWorkers(wd);
  }

  lemma PollMeasure(p: Program, wd: World, now: real)
    requires Counted(wd)
    ensures var b := Apply(p, wd, Poll(now));
      Counted(b) && Measure(b) <= Measure(wd) && (AnyExpired(wd.queue, now) ==> Measure(b) < Measure(wd))
  {
    SweepShrinks(wd.queue, now);
    assert BusyWorkers(Apply(p, wd, Poll(now))) == BusyWorkers(wd);
  }

  lemma CrashMeasure(p: Program, wd: World, w: nat)
    requires Counted(wd)
    ensures var b := Apply(p, wd, Crash(w));
      Counted(b) && Measure(b) <= Measure(wd) && (Holds(wd, w) ==> Measure(b) < Measure(wd))
  {
    assert BusyWorkers(Apply(p, wd, Crash(w))) == BusyWorkers(wd) - {w};
    assert Holds(wd, w) ==> w in BusyWorkers(wd);
  }

  lemma HeartbeatMeasure(p: Program, wd: World, k: Key, now: real, lease: real)
    requires Counted(wd)
    ensures var b := Apply(p, wd, Heartbeat(k, now, lease)); Counted(b) && Measure(b) <= Measure(wd)
  {
    var b := Apply(p, wd, Heartbeat(k, now, lease));
    assert BusyWorkers(b) == BusyWorkers(wd);
    L.CreditSame(wd.queue, b.queue, wd.queue.attempt.Keys);
  }

  /** The queue is as it was, and the workers with a task have the tasks they had. */
  ghost predicate SameWork(a: World, b: World) {
    && b.queue == a.queue && BusyWorkers(b) == BusyWorkers(a)
    && forall w :: w in b.workers && Busy(b.workers[w]) ==> Holds(a, w) && a.workers[w].key == b.workers[w].key
  }

  lemma MovedSame(wd: World, w: nat, x: Worker)
    requires if Busy(x) then Holds(wd, w) && wd.workers[w].key == x.key else w !in wd.workers
    ensures SameWork(wd, Moved(wd, w, x))
  {
  }

  lemma LocalFrame(p: Program, wd: World, s: Step)
    requires s.Spawn? || s.CheckMarker? || s.ReadMember? || s.Compute?
    ensures SameWork(wd, Apply(p, wd, s))
  {
    hide ReadOne, S.Blocks, Cap, SameWork, Moved;
    SelfSame(wd);
    forall x | if Busy(x) then Holds(wd, s.w) && wd.workers[s.w].key == x.key else s.w !in wd.workers
      ensures SameWork(wd, Moved(wd, s.w, x))
    {
      MovedSame(wd, s.w, x);
    }
  }

  lemma SelfSame(wd: World)
    ensures SameWork(wd, wd)
  {
  }

  lemma StoreFrame(p: Program, wd: World, s: Step)
    requires s.PutPart? || s.WriteMarker?
    ensures SameWork(wd, Apply(p, wd, s))
  {
    hide PutPartAt;
    if s.PutPart? && s.w in wd.workers && wd.workers[s.w].Writing? && wd.workers[s.w].n < |wd.workers[s.w].parts| {
      var x := wd.workers[s.w];
      Soundness.PutFrame(p, wd, x.key, x.n, x.parts[x.n]);
    }
  }

  /** Work inside a task: the worker keeps its task and the queue does not change. */
  lemma LocalMeasure(p: Program, wd: World, s: Step)
    requires Counted(wd)
    requires s.Spawn? || s.CheckMarker? || s.ReadMember? || s.Compute? || s.PutPart? || s.WriteMarker?
    ensures Counted(Apply(p, wd, s)) && Measure(Apply(p, wd, s)) == Measure(wd)
  {
    hide Apply;
    if s.PutPart? || s.WriteMarker? { StoreFrame(p, wd, s); } else { LocalFrame(p, wd, s); }
  }

  /** The measure never rises while workers work, and falls with every step that uses something up. */
  lemma StepMeasure(p: Program, wd: World, s: Step)
    requires Counted(wd) && IsWorkerStep(s)
    ensures Counted(Apply(p, wd, s))
    ensures Measure(Apply(p, wd, s)) <= Measure(wd)
    ensures Uses(wd, s) ==> Measure(Apply(p, wd, s)) < Measure(wd)
  {
    if s.ClaimTask? {
      ClaimMeasure(p, wd, s.w, s.now, s.lease);
    } else if s.FailTask? {
      if Holds(wd, s.w) { FailMeasure(p, wd, s.w); }
    } else if s.AckTask? {
      if IsMarked(wd, s.w) { AckMeasure(p, wd, s.w); }
    } else if s.Poll? {
      PollMeasure(p, wd, s.now);
    } else if s.Crash? {
      CrashMeasure(p, wd, s.w);
    } else if s.Heartbeat? {
      HeartbeatMeasure(p, wd, s.key, s.now, s.lease);
    } else {
      LocalMeasure(p, wd, s);
    }
  }

  // ---- whole runs -----------------------------------------------------------------------------

  /** With an empty queue and idle workers nothing is held. */
  lemma NothingHeld(wd: World)
    requires wd.queue.ready == [] && wd.queue.inflight == [] && BusyWorkers(wd) == {}
    ensures Counted(wd) && Measure(wd) == 3 * L.CreditOf(wd.queue, wd.queue.attempt.Keys)
  {
    assert forall w :: w in wd.workers && Busy(wd.workers[w]) ==> w in BusyWorkers(wd);
  }

  /** What a step adds to the deliveries that may still happen: only the controller can. */
  function Fuel(limit: nat, s: Step): nat {
    if s.EnqueueTask? then limit + 1 else if s.ResetAttempt? then limit else 0
  }

  function FuelOf(limit: nat, steps: seq<Step>): nat {
    if steps == [] then 0 else Fuel(limit, steps[0]) + FuelOf(limit, steps[1..])
  }

  /** What a step is to the queue. */
  ghost function OpOf(wd: World, s: Step): Option<L.Op> {
    match s
    case ClaimTask(w, now, lease) => if w in wd.workers && wd.workers[w].Idle? then Some(L.DoClaim(now, lease)) else None
    case AckTask(w) => if IsMarked(wd, w) then Some(L.DoAck(wd.workers[w].key)) else None
    case FailTask(w) => if Holds(wd, w) then Some(L.DoFail(wd.workers[w].key)) else None
    case Heartbeat(k, now, lease) => Some(L.DoExtend(k, now, lease))
    case Poll(now) => Some(L.DoDepth(now))
    case EnqueueTask(k) => Some(L.DoEnqueue(k))
    case ResetAttempt(k) => Some(L.DoReset(k))
    case TakeDeadTask(k) => Some(L.DoTake(k))
    case _ => None
  }

  /** A worker is handed a task. */
  ghost predicate Delivers(wd: World, s: Step) {
    s.ClaimTask? && s.w in wd.workers && wd.workers[s.w].Idle? && Next(wd.queue, s.now).Some?
  }

  /** A delivery is paid for by the deliveries that may still happen. */
  lemma StepDelivers(p: Program, wd: World, s: Step)
    requires Counted(wd)
    ensures var q, q' := wd.queue, Apply(p, wd, s).queue;
      && L.Known(q') && Limit(q') == Limit(q)
      && L.Potential(q') + (if Delivers(wd, s) then 1 else 0) <= L.Potential(q) + Fuel(Limit(q), s)
  {
    hide Apply, L.Potential, L.Known, Claim, Ack, Fail, Extend, Sweep, Enqueue, Reset, TakeDead, Next;
    StepQueue(p, wd, s);
    var op := OpOf(wd, s);
    if op.Some? {
      assert NextQueue(wd, s) == L.Do(wd.queue, op.value);
      L.StepPotential(wd.queue, op.value);
    } else {
      assert NextQueue(wd, s) == wd.queue;
    }
  }

  lemma ControllerFrame(p: Program, wd: World, s: Step)
    requires !IsWorkerStep(s)
    ensures var b := Apply(p, wd, s);
      && b.workers == wd.workers && b.queue.inflight == wd.queue.inflight && wd.queue.attempt.Keys <= b.queue.attempt.Keys
  {
  }

  /** The controller's steps keep count of what they enqueue. */
  lemma ControllerMeasure(p: Program, wd: World, s: Step)
    requires Counted(wd) && !IsWorkerStep(s)
    ensures Counted(Apply(p, wd, s)) && Measure(Apply(p, wd, s)) <= Measure(wd) + 3 * Fuel(Limit(wd.queue), s)
  {
    hide Apply, L.Potential, L.Known;
    StepDelivers(p, wd, s);
    ControllerFrame(p, wd, s);
    assert BusyWorkers(Apply(p, wd, s)) == BusyWorkers(wd);
  }

  /** Every step keeps count, and what it uses up is paid for by the measure or was added by the controller. */
  lemma StepSpends(p: Program, wd: World, s: Step)
    requires Counted(wd)
    ensures Counted(Apply(p, wd, s)) && Limit(Apply(p, wd, s).queue) == Limit(wd.queue)
    ensures (if Uses(wd, s) then 1 else 0) + Measure(Apply(p, wd, s)) <= Measure(wd) + 3 * Fuel(Limit(wd.queue), s)
  {
    hide Apply, Measure, Counted;
    StepDelivers(p, wd, s);
    if IsWorkerStep(s) { StepMeasure(p, wd, s); } else { ControllerMeasure(p, wd, s); }
  }

  /** How many steps of a run use something up. */
  ghost function UseCount(p: Program, wd: World, steps: seq<Step>): nat
    decreases |steps|
  {
    if steps == [] then 0 else (if Uses(wd, steps[0]) then 1 else 0) + UseCount(p, Apply(p, wd, steps[0]), steps[1..])
  }

  /** How many tasks are handed out. */
  ghost function DeliveryCount(p: Program, wd: World, steps: seq<Step>): nat
    decreases |steps|
  {
    if steps == [] then 0 else
    (if Delivers(wd, steps[0]) then 1 else 0) + DeliveryCount(p, Apply(p, wd, steps[0]), steps[1..])
  }

  /**
   Over every run, in any state of it: all that the queue and the workers hold was enqueued; deliveries, reports, crashes
   and expiries are bounded by the measure at the start and what the controller added; and so are the deliveries alone.
   */
  lemma {:induction false} RunSpends(p: Program, wd: World, steps: seq<Step>)
    requires Counted(wd)
    ensures var b, limit := RunSteps(p, wd, steps), Limit(wd.queue);
      && Counted(b) && Limit(b.queue) == limit
      && UseCount(p, wd, steps) + Measure(b) <= Measure(wd) + 3 * FuelOf(limit, steps)
      && DeliveryCount(p, wd, steps) + L.Potential(b.queue) <= L.Potential(wd.queue) + FuelOf(limit, steps)
    decreases |steps|
  {
    hide Apply, Measure, Counted, Uses, Delivers, Fuel, L.Potential, L.Known;
    if steps != [] {
      CountedKnown(wd);
      StepSpends(p, wd, steps[0]);
      StepDelivers(p, wd, steps[0]);
      RunSpends(p, Apply(p, wd, steps[0]), steps[1..]);
    }
  }

  lemma CountedKnown(wd: World)
    requires Counted(wd)
    ensures L.Known(wd.queue)
  {
  }

  /** A worker is handed the task `k`. */
  ghost predicate DeliversTask(wd: World, s: Step, k: Key) {
    s.ClaimTask? && s.w in wd.workers && wd.workers[s.w].Idle? && Next(wd.queue, s.now) == Some(k)
  }

  function FuelFor(limit: nat, s: Step, k: Key): nat {
    if s == EnqueueTask(k) then 1 else if s == ResetAttempt(k) then limit else 0
  }

  function FuelOn(limit: nat, steps: seq<Step>, k: Key): nat {
    if steps == [] then 0 else FuelFor(limit, steps[0], k) + FuelOn(limit, steps[1..], k)
  }

  ghost function DeliveriesOf(p: Program, wd: World, steps: seq<Step>, k: Key): nat
    decreases |steps|
  {
    if steps == [] then 0 else
    (if DeliversTask(wd, steps[0], k) then 1 else 0) + DeliveriesOf(p, Apply(p, wd, steps[0]), steps[1..], k)
  }

  lemma StepSpendsOn(p: Program, wd: World, s: Step, k: Key)
    ensures var q, q' := wd.queue, Apply(p, wd, s).queue;
      && Limit(q') == Limit(q)
      && L.Stock(q', k) + (if DeliversTask(wd, s, k) then 1 else 0) <= L.Stock(q, k) + FuelFor(Limit(q), s, k)
  {
    hide Apply, L.Stock, Claim, Ack, Fail, Extend, Sweep, Enqueue, Reset, TakeDead, Next;
    StepQueue(p, wd, s);
    var op := OpOf(wd, s);
    if op.Some? {
      assert NextQueue(wd, s) == L.Do(wd.queue, op.value);
      L.StepStock(wd.queue, op.value, k);
    } else {
      assert NextQueue(wd, s) == wd.queue;
    }
  }

  /**
   Over every run of the machine a task is delivered at most once for each time the controller enqueues it, and for the
   redeliveries it had left or the controller granted again.
   */
  lemma {:induction false} RunSpendsOn(p: Program, wd: World, steps: seq<Step>, k: Key)
    ensures var b, limit := RunSteps(p, wd, steps), Limit(wd.queue);
      DeliveriesOf(p, wd, steps, k) + L.Stock(b.queue, k) <= L.Stock(wd.queue, k) + FuelOn(limit, steps, k)
    decreases |steps|
  {
    hide Apply, L.Stock, FuelFor, DeliversTask;
    if steps != [] {
      StepSpendsOn(p, wd, steps[0], k);
      RunSpendsOn(p, Apply(p, wd, steps[0]), steps[1..], k);
    }
  }

  // ---- parts of a run ---------------------------------------------------------------------------

  lemma {:induction false} FuelJoined(limit: nat, h: seq<Step>, g: seq<Step>)
    ensures FuelOf(limit, h + g) == FuelOf(limit, h) + FuelOf(limit, g)
  {
    if h == [] {
      assert h + g == g;
    } else {
      FuelJoined(limit, h[1..], g);
      assert (h + g)[1..] == h[1..] + g;
    }
  }

  /** From one point of a run to a later one. */
  lemma Between(p: Program, start: World, h: seq<Step>, h': seq<Step>)
    requires Counted(start) && h <= h'
    ensures var a, b, seg, limit := RunSteps(p, start, h), RunSteps(p, start, h'), h'[|h|..], Limit(start.queue);
      && b == RunSteps(p, a, seg) && Counted(a) && Counted(b) && Limit(a.queue) == limit
      && UseCount(p, a, seg) + Measure(b) + 3 * FuelOf(limit, h) <= Measure(a) + 3 * FuelOf(limit, h')
      && DeliveryCount(p, a, seg) + L.Potential(b.queue) + FuelOf(limit, h) <= L.Potential(a.queue) + FuelOf(limit, h')
  {
    hide Measure, Counted, L.Potential, UseCount, DeliveryCount, RunSteps, FuelOf;
    var seg := h'[|h|..];
    assert h' == h + seg;
    RunSpends(p, start, h);
    RunJoined(p, start, h, seg);
    RunSpends(p, RunSteps(p, start, h), seg);
    FuelJoined(Limit(start.queue), h, seg);
  }

  /** What follows the first `n` steps. */
  function After(h: seq<Step>, n: nat): seq<Step> { if n <= |h| then h[n..] else [] }

  /** The budget of remedies first, then the measure. */
  predicate Below(budget: int, m: nat, budget': int, m': nat) {
    budget < budget' || (budget == budget' && m < m')
  }

  /** Once nothing is ready and nothing leased, every chunk that was not lost is finished or dead: the next poll acts. */
  lemma QuietMeansSettled(wd: World, k: Key)
    requires Safe(wd, k, 1) && wd.queue.ready == [] && wd.queue.inflight == []
    ensures k in wd.markers || k in wd.queue.dlq
  {
    assert k in wd.queue.dlq <==> Count(wd.queue.dlq, k) >= 1;
  }
}
