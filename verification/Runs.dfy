/** Building blocks for concrete runs: runs put together, one worker that executes a task or reports a failure. */
module Runs {
  import opened Sequences
  import opened Queue
  import opened Machine
  import opened Soundness
  import opened Trace
  import P = Partition
  import S = Store

  // ---- runs put together -----------------------------------------------------------------

  /** The steps are a run from one world to the other. */
  ghost predicate Reaches(p: Program, a: World, h: seq<Step>, b: World) {
    AllAllowed(p, a, h) && RunSteps(p, a, h) == b
  }

  lemma Start(p: Program, a: World)
    ensures Reaches(p, a, [], a)
  {
  }

  lemma Then(p: Program, a: World, h: seq<Step>, b: World, s: Step)
    requires Reaches(p, a, h, b) && Allowed(b, s)
    ensures Reaches(p, a, h + [s], Apply(p, b, s))
  {
    RunSnoc(p, a, h, s);
    AllowedSnoc(p, a, h, s);
  }

  lemma {:induction false} Joined(p: Program, a: World, h: seq<Step>, b: World, g: seq<Step>, c: World)
    requires Reaches(p, a, h, b) && Reaches(p, b, g, c)
    ensures Reaches(p, a, h + g, c)
    decreases |g|
  {
    hide Apply, Allowed;
    if g == [] {
      assert h + g == h;
    } else {
      Then(p, a, h, b, g[0]);
      Joined(p, a, h + [g[0]], Apply(p, b, g[0]), g[1..], c);
      assert h + [g[0]] + g[1..] == h + g;
    }
  }

  lemma {:induction false} OwnJoined(h: seq<Step>, g: seq<Step>)
    ensures Own(h + g) == Own(h) + Own(g)
    decreases |g|
  {
    if g == [] {
      assert h + g == h;
    } else {
      OwnJoined(h, g[..|g| - 1]);
      assert g == g[..|g| - 1] + [g[|g| - 1]];
      OwnSnoc(g[..|g| - 1], g[|g| - 1]);
      OwnSnoc(h + g[..|g| - 1], g[|g| - 1]);
      assert h + g == h + g[..|g| - 1] + [g[|g| - 1]];
    }
  }

  // ---- one worker, one task at a time -------------------------------------------------------

  /** The worker takes the front task, reads its one member, puts its one part, and finishes. */
  function Executes(): seq<Step> {
    [ClaimTask(0, 0.0, 1.0), CheckMarker(0), ReadMember(0), Compute(0), PutPart(0), WriteMarker(0), AckTask(0)]
  }

  /** ... or reports a failure. */
  function Dies(): seq<Step> { [ClaimTask(0, 0.0, 1.0), FailTask(0)] }

  /** The worker is idle and `k` is the front task. */
  ghost predicate Ready(wd: World, k: Key, rest: seq<Key>) {
    wd.workers == map[0 := Idle] && wd.queue.ready == [k] + rest && wd.queue.inflight == []
  }

  function AfterTask(p: Program, wd: World, k: Key, rest: seq<Key>, out: seq<Record>): World {
    PutPartAt(p, wd, k, 0, out).(queue := wd.queue.(ready := rest), markers := wd.markers + {k})
  }

  /** The worker has the task `k`, in state `x`. */
  function Holding(wd: World, k: Key, rest: seq<Key>, x: Worker): World {
    wd.(queue := wd.queue.(ready := rest, inflight := [Lease(k, 1.0)]), workers := map[0 := x])
  }

  lemma MovedOn(wd: World, k: Key, rest: seq<Key>, x: Worker, y: Worker)
    ensures Moved(Holding(wd, k, rest, x), 0, y) == Holding(wd, k, rest, y)
  {
    assert map[0 := x][0 := y] == map[0 := y];
  }

  lemma Claims(p: Program, wd: World, k: Key, rest: seq<Key>)
    requires Ready(wd, k, rest)
    ensures Apply(p, wd, ClaimTask(0, 0.0, 1.0)) == Holding(wd, k, rest, Claimed(k))
  {
    assert Sweep(wd.queue, 0.0) == wd.queue;
    assert wd.workers[0 := Claimed(k)] == map[0 := Claimed(k)];
  }

  /** What the worker reads, computes and puts, when that is one part. */
  ghost predicate OnePart(p: Program, wd: World, k: Key, out: seq<Record>) {
    && k in wd.tasks && k !in wd.markers && |wd.tasks[k].members| == 1 && Put(wd, k) == 0
    && out != [] && |out| <= Cap(p, k.stage) && p.run(k.stage, ReadOne(wd, wd.tasks[k], 0)) == out
  }

  lemma Reads(p: Program, wd: World, k: Key, rest: seq<Key>, out: seq<Record>)
    requires OnePart(p, wd, k, out)
    ensures var got := ReadOne(wd, wd.tasks[k], 0);
      && Apply(p, Holding(wd, k, rest, Claimed(k)), CheckMarker(0)) == Holding(wd, k, rest, Reading(k, 0, []))
      && Apply(p, Holding(wd, k, rest, Reading(k, 0, [])), ReadMember(0)) == Holding(wd, k, rest, Reading(k, 1, got))
      && Apply(p, Holding(wd, k, rest, Reading(k, 1, got)), Compute(0)) == Holding(wd, k, rest, Writing(k, [out], 0))
  {
    var got := ReadOne(wd, wd.tasks[k], 0);
    MovedOn(wd, k, rest, Claimed(k), Reading(k, 0, []));
    MovedOn(wd, k, rest, Reading(k, 0, []), Reading(k, 1, got));
    MovedOn(wd, k, rest, Reading(k, 1, got), Writing(k, [out], 0));
    assert [] + got == got;
  }

  lemma Puts(p: Program, wd: World, k: Key, rest: seq<Key>, out: seq<Record>)
    ensures Apply(p, Holding(wd, k, rest, Writing(k, [out], 0)), PutPart(0))
      == Holding(PutPartAt(p, wd, k, 0, out), k, rest, Writing(k, [out], 1))
  {
    MovedOn(PutPartAt(p, wd, k, 0, out), k, rest, Writing(k, [out], 0), Writing(k, [out], 1));
  }

  lemma Marks(p: Program, wd: World, k: Key, rest: seq<Key>, out: seq<Record>)
    ensures Apply(p, Holding(wd, k, rest, Writing(k, [out], 1)), WriteMarker(0))
      == Holding(wd.(markers := wd.markers + {k}), k, rest, Marked(k))
  {
    MovedOn(wd.(markers := wd.markers + {k}), k, rest, Writing(k, [out], 1), Marked(k));
  }

  lemma Acks(p: Program, wd: World, k: Key, rest: seq<Key>)
    requires wd.workers == map[0 := Idle] && wd.queue.inflight == []
    ensures Apply(p, Holding(wd, k, rest, Marked(k)), AckTask(0)) == wd.(queue := wd.queue.(ready := rest))
  {
    assert [Lease(k, 1.0)][1..] == [];
    assert Pop([Lease(k, 1.0)], k) == [];
    assert map[0 := Marked(k)][0 := Idle] == map[0 := Idle];
  }

  lemma Executed(p: Program, wd: World, k: Key, rest: seq<Key>, out: seq<Record>)
    requires Ready(wd, k, rest) && OnePart(p, wd, k, out)
    ensures Reaches(p, wd, Executes(), AfterTask(p, wd, k, rest, out))
  {
    hide Apply, Holding, ReadOne, Reaches;
    var got, put := ReadOne(wd, wd.tasks[k], 0), PutPartAt(p, wd, k, 0, out);
    var marked := put.(markers := put.markers + {k});
    var x := Executes();
    assert x[..1] == [] + [x[0]] && x[..2] == x[..1] + [x[1]] && x[..3] == x[..2] + [x[2]] && x[..4] == x[..3] + [x[3]];
    assert x[..5] == x[..4] + [x[4]] && x[..6] == x[..5] + [x[5]] && x == x[..6] + [x[6]];
    Claims(p, wd, k, rest);
    Reads(p, wd, k, rest, out);
    Puts(p, wd, k, rest, out);
    Marks(p, put, k, rest, out);
    Acks(p, marked, k, rest);
    Start(p, wd);
    Then(p, wd, [], wd, x[0]);
    Then(p, wd, x[..1], Holding(wd, k, rest, Claimed(k)), x[1]);
    Then(p, wd, x[..2], Holding(wd, k, rest, Reading(k, 0, [])), x[2]);
    Then(p, wd, x[..3], Holding(wd, k, rest, Reading(k, 1, got)), x[3]);
    Then(p, wd, x[..4], Holding(wd, k, rest, Writing(k, [out], 0)), x[4]);
    Then(p, wd, x[..5], Holding(put, k, rest, Writing(k, [out], 1)), x[5]);
    Then(p, wd, x[..6], Holding(marked, k, rest, Marked(k)), x[6]);
  }

  /** Without redeliveries the first failure is the last. */
  lemma Died(p: Program, wd: World, k: Key, rest: seq<Key>)
    requires Ready(wd, k, rest) && wd.queue.maxRedeliveries == 0 && Attempt(wd.queue, k) == 0
    ensures Reaches(p, wd, Dies(), wd.(
      queue := wd.queue.(ready := rest, dlq := wd.queue.dlq + [k], attempt := wd.queue.attempt[k := 1])))
  {
    var held := Holding(wd, k, rest, Claimed(k));
    Claims(p, wd, k, rest);
    assert [Lease(k, 1.0)][1..] == [];
    assert Pop([Lease(k, 1.0)], k) == [];
    assert map[0 := Claimed(k)][0 := Idle] == map[0 := Idle];
    Start(p, wd);
    Then(p, wd, [], wd, ClaimTask(0, 0.0, 1.0));
    Then(p, wd, [] + [ClaimTask(0, 0.0, 1.0)], held, FailTask(0));
    assert Dies() == [] + [ClaimTask(0, 0.0, 1.0)] + [FailTask(0)];
  }

  /** Every stage hands on what it reads. */
  function Copying(f: S.Format): Program {
    Program((s: nat, input: seq<Record>) => input, (s: nat) => 10, f, map[], {})
  }

  lemma {:induction false} OwnNone(h: seq<Step>)
    requires forall i :: 0 <= i < |h| ==> IsWorkerStep(h[i])
    ensures Own(h) == []
    decreases |h|
  {
    if h != [] { OwnNone(h[..|h| - 1]); }
  }

  lemma {:induction false} OwnAll(h: seq<Step>)
    requires forall i :: 0 <= i < |h| ==> !IsWorkerStep(h[i])
    ensures Own(h) == h
    decreases |h|
  {
    if h != [] { OwnAll(h[..|h| - 1]); }
  }
}
