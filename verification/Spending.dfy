/** What a round of remedies can cost: how many deliveries it makes possible, bounded by the members of the tasks waited for. */
module Spending {
  import opened Sequences
  import opened Queue
  import opened Machine
  import opened Soundness
  import opened Tracking
  import opened Planning
  import opened Remediation
  import opened Books
  import opened Staging
  import opened Interleave
  import opened Progress
  import opened Trace
  import opened Reference
  import P = Partition
  import Q = QueueLaws

  // ---- fuel of the controller's own steps ------------------------------------------------------

  lemma FuelOne(limit: nat, s: Step)
    ensures FuelOf(limit, [s]) == Fuel(limit, s)
  {
    assert [s][1..] == [];
  }

  /** Only the controller adds deliveries. */
  lemma {:induction false} OwnFuel(limit: nat, h: seq<Step>)
    ensures FuelOf(limit, Own(h)) == FuelOf(limit, h)
    decreases |h|
  {
    hide FuelOf;
    if h != [] {
      var g, s := h[..|h| - 1], h[|h| - 1];
      OwnFuel(limit, g);
      OwnSnoc(g, s);
      assert h == g + [s];
      FuelOne(limit, s);
      FuelJoined(limit, g, [s]);
      FuelJoined(limit, Own(g), [s]);
      assert IsWorkerStep(s) ==> Fuel(limit, s) == 0;
      assert Own(g) + [] == Own(g);
    } else {
      assert Own(h) == h;
    }
  }

  lemma {:induction false} SendsFuel(limit: nat, ks: seq<Key>)
    ensures FuelOf(limit, Sends(ks)) == |ks| * (limit + 1)
  {
    if ks != [] {
      SendsFuel(limit, ks[1..]);
      assert Sends(ks)[1..] == Sends(ks[1..]);
      Times(|ks| - 1, limit + 1);
    }
  }

  lemma Times(n: nat, per: nat)
    ensures (n + 1) * per == n * per + per
  {
  }

  lemma {:induction false} NoFuel(limit: nat, steps: seq<Step>)
    requires forall i :: 0 <= i < |steps| ==> !steps[i].EnqueueTask? && !steps[i].ResetAttempt?
    ensures FuelOf(limit, steps) == 0
  {
    if steps != [] { NoFuel(limit, steps[1..]); }
  }

  // ---- shares ------------------------------------------------------------------------------------

  /** Two for a task that is not split, two for each piece of one that may be. */
  function Share(ts: Tasks, k: Key): nat {
    if k in ts && |ts[k].members| > 1 then 2 * |ts[k].members| else 2
  }

  function Shares(ts: Tasks, ks: seq<Key>): nat {
    if ks == [] then 0 else Shares(ts, ks[..|ks| - 1]) + Share(ts, ks[|ks| - 1])
  }

  ghost function Spread(ts: Tasks, ks: set<Key>): nat {
    if ks == {} then 0 else
    var k :| k in ks;
    Share(ts, k) + Spread(ts, ks - {k})
  }

  lemma {:induction false} SpreadSplit(ts: Tasks, ks: set<Key>, k: Key)
    requires k in ks
    ensures Spread(ts, ks) == Share(ts, k) + Spread(ts, ks - {k})
  {
    var c :| c in ks && Spread(ts, ks) == Share(ts, c) + Spread(ts, ks - {c});
    if c != k {
      SpreadSplit(ts, ks - {c}, k);
      SpreadSplit(ts, ks - {k}, c);
      assert ks - {c} - {k} == ks - {k} - {c};
    }
  }

  lemma {:induction false} SpreadSame(ts: Tasks, ts': Tasks, ks: set<Key>)
    requires forall k :: k in ks ==> Share(ts', k) == Share(ts, k)
    ensures Spread(ts', ks) == Spread(ts, ks)
  {
    if ks != {} {
      var k :| k in ks;
      SpreadSplit(ts, ks, k);
      SpreadSplit(ts', ks, k);
      SpreadSame(ts, ts', ks - {k});
    }
  }

  lemma {:induction false} SpreadPlus(ts: Tasks, a: set<Key>, ks: seq<Key>)
    ensures Spread(ts, a + SetOf(ks)) <= Spread(ts, a) + Shares(ts, ks)
    decreases |ks|
  {
    hide Spread, Share;
    if ks == [] {
      assert a + SetOf(ks) == a;
    } else {
      var n := |ks| - 1;
      var was := a + SetOf(ks[..n]);
      SpreadPlus(ts, a, ks[..n]);
      SetOfSnoc(ks, n);
      assert ks[..n + 1] == ks;
      assert a + SetOf(ks) == was + {ks[n]};
      if ks[n] !in was {
        SpreadSplit(ts, was + {ks[n]}, ks[n]);
        assert was + {ks[n]} - {ks[n]} == was;
      } else {
        assert was + {ks[n]} == was;
      }
    }
  }

  lemma {:induction false} SpreadMinus(ts: Tasks, a: set<Key>, ks: seq<Key>)
    requires Distinct(ks) && forall k :: k in ks ==> k in a
    ensures Spread(ts, a) == Spread(ts, a - SetOf(ks)) + Shares(ts, ks)
    decreases |ks|
  {
    hide Spread, Share;
    if ks == [] {
      assert a - SetOf(ks) == a;
    } else {
      var n := |ks| - 1;
      var left := a - SetOf(ks[..n]);
      SpreadMinus(ts, a, ks[..n]);
      SetOfSnoc(ks, n);
      assert ks[..n + 1] == ks;
      assert ks[n] !in ks[..n];
      assert left - {ks[n]} == a - SetOf(ks);
      SpreadSplit(ts, left, ks[n]);
    }
  }

  lemma {:induction false} SharesAppend(ts: Tasks, a: seq<Key>, b: seq<Key>)
    ensures Shares(ts, a + b) == Shares(ts, a) + Shares(ts, b)
    decreases |b|
  {
    if b == [] {
      assert a + b == a;
    } else {
      SharesAppend(ts, a, b[..|b| - 1]);
      assert (a + b)[..|a + b| - 1] == a + b[..|b| - 1];
    }
  }

  lemma {:induction false} SharesOfTwo(ts: Tasks, ks: seq<Key>)
    requires forall k :: k in ks ==> Share(ts, k) == 2
    ensures Shares(ts, ks) == 2 * |ks|
  {
    if ks != [] { SharesOfTwo(ts, ks[..|ks| - 1]); }
  }

  lemma {:induction false} SharesPart(ts: Tasks, ks: seq<Key>, n: nat)
    requires n <= |ks|
    ensures Shares(ts, ks[..n]) <= Shares(ts, ks)
  {
    SharesAppend(ts, ks[..n], ks[n..]);
    assert ks[..n] + ks[n..] == ks;
  }

  // ---- one remedy --------------------------------------------------------------------------------------

  lemma RemedyFuel(limit: nat, ts: Tasks, m: seq<Entry>, d: Key, act: Action)
    requires d in ts
    ensures FuelOf(limit, RemedySteps(ts, m, d, act)) <= (limit + 1) * Share(ts, d)
  {
    var t := ts[d];
    RetryFuel(limit, d);
    RetryFuel(limit, t.key);
    if act == Resplit && |t.members| > 1 {
      var first := Registers(Pieces(t)) + [WriteManifest(t.key.stage, Replace(m, t.key.chunk, PieceEntries(t)))];
      NoFuel(limit, first);
      SendsFuel(limit, PieceKeys(t));
      FuelJoined(limit, first, Sends(PieceKeys(t)));
      Doubles(|t.members|, limit + 1);
    } else if act == Skip {
      NoFuel(limit, RemedySteps(ts, m, d, act));
    }
    Twice(limit + 1, Share(ts, d));
  }

  lemma RetryFuel(limit: nat, k: Key)
    ensures FuelOf(limit, RetrySteps(k)) <= 2 * (limit + 1)
  {
    FuelOne(limit, EnqueueTask(k));
    assert RetrySteps(k)[1..] == [EnqueueTask(k)];
  }

  lemma Doubles(n: nat, per: nat)
    ensures n * per <= per * (2 * n)
  {
    assert per * (2 * n) == 2 * (n * per);
  }

  lemma Twice(per: nat, share: nat)
    requires share >= 2
    ensures 2 * per <= per * share
  {
    assert per * share == per * 2 + per * (share - 2);
  }

  /** What takes the place of a task shares what it had. */
  lemma RemedyShares(ts: Tasks, ts': Tasks, s: nat, d: Key, act: Action)
    requires d in ts && ts[d].key == d && d.stage == s && d in ts' && ts'[d] == ts[d] && PiecesNamed(ts', s)
    ensures Shares(ts', RemedyKeys(ts, d, act)) <= Share(ts, d)
  {
    var t := ts[d];
    if act == Resplit && |t.members| > 1 {
      forall k | k in PieceKeys(t) ensures Share(ts', k) == 2 {
        var j :| 0 <= j < |t.members| && PieceKeys(t)[j] == k;
        assert PiecesNamedOf(ts', d);
        assert k in ts' ==> PieceKnown(ts', t, j);
      }
      SharesOfTwo(ts', PieceKeys(t));
    } else {
      assert Shares(ts', []) == 0;
      assert [d][..0] == [];
      assert Shares(ts', [d]) == Share(ts', d);
    }
  }

  // ---- a round -------------------------------------------------------------------------------------------

  lemma {:induction false} RoundFuel(limit: nat, ts: Tasks, m: seq<Entry>, dead: seq<Key>, acts: seq<Action>)
    requires |acts| == |dead| && AllKnown(ts, dead)
    ensures FuelOf(limit, RoundSteps(ts, m, dead, acts)) <= (limit + 1) * Shares(ts, dead)
    decreases |dead|
  {
    hide FuelOf, RemedySteps, RemedyManifest, Share;
    if dead == [] {
      NoFuel(limit, RoundSteps(ts, m, dead, acts));
    } else {
      var n := |dead| - 1;
      RoundFuel(limit, ts, m, dead[..n], acts[..n]);
      var was := RoundManifest(ts, m, dead[..n], acts[..n]);
      RemedyFuel(limit, ts, was, dead[n], acts[n]);
      FuelJoined(limit, RoundSteps(ts, m, dead[..n], acts[..n]), RemedySteps(ts, was, dead[n], acts[n]));
      Distribute(limit + 1, Shares(ts, dead[..n]), Share(ts, dead[n]));
    }
  }

  lemma Distribute(per: nat, a: nat, b: nat)
    ensures per * (a + b) == per * a + per * b
  {
  }

  lemma {:induction false} RoundShares(ts: Tasks, ts': Tasks, s: nat, dead: seq<Key>, acts: seq<Action>)
    requires |acts| == |dead| && AllKnown(ts, dead) && PiecesNamed(ts', s)
    requires forall d :: d in dead ==> ts[d].key == d && d.stage == s && d in ts' && ts'[d] == ts[d]
    ensures Shares(ts', RoundKeys(ts, dead, acts)) <= Shares(ts, dead)
    decreases |dead|
  {
    hide RemedyKeys, Share;
    if dead != [] {
      var n := |dead| - 1;
      RoundShares(ts, ts', s, dead[..n], acts[..n]);
      RemedyShares(ts, ts', s, dead[n], acts[n]);
      SharesAppend(ts', RoundKeys(ts, dead[..n], acts[..n]), RemedyKeys(ts, dead[n], acts[n]));
    }
  }

  lemma MoreTimes(per: nat, a: nat, b: nat)
    requires a <= b
    ensures per * a <= per * b
  {
  }

  /** A round adds no more deliveries than the tasks waited for have shares, and what is waited for afterwards has no more. */
  lemma RoundSpends(
      limit: nat, strict: bool, a: World, b: World, s: nat, active: set<Key>, bag: multiset<P.Ref>, load: real,
      before: seq<Step>, after: seq<Step>, dead: seq<Key>, acts: seq<Action>, n: nat, enq: seq<Key>)
    requires InRound(strict, a, b, s, bag, load, before, after, dead, acts, n, enq) && Distinct(dead)
    requires WellFormed(a.tasks) && Waiting(a, s, active) && forall d :: d in dead ==> d in active
    ensures FuelOf(limit, after) <= FuelOf(limit, before) + (limit + 1) * Spread(a.tasks, active)
    ensures n == |dead| ==> Spread(b.tasks, Remaining(active, dead, enq)) <= Spread(a.tasks, active)
  {
    hide FuelOf, Spread, Shares, Share, RoundSteps, RoundKeys, RoundManifest, StrictRound, Advanced, Safe;
    var steps := RoundSteps(a.tasks, Manifest(a, s), dead[..n], acts[..n]);
    FuelJoined(limit, before, steps);
    RoundFuel(limit, a.tasks, Manifest(a, s), dead[..n], acts[..n]);
    SharesPart(a.tasks, dead, n);
    SpreadMinus(a.tasks, active, dead);
    MoreTimes(limit + 1, Shares(a.tasks, dead[..n]), Spread(a.tasks, active));
    if n == |dead| {
      assert dead[..n] == dead;
      RoundLater(strict, a, b, s, dead, enq);
      RoundShares(a.tasks, b.tasks, s, dead, acts[..n]);
      var left := active - SetOf(dead);
      SpreadPlus(b.tasks, left, enq);
      forall k | k in left ensures Share(b.tasks, k) == Share(a.tasks, k) { ShareSame(a.tasks, b.tasks, k); }
      SpreadSame(a.tasks, b.tasks, left);
    }
  }

  lemma ShareSame(ts: Tasks, ts': Tasks, k: Key)
    requires k in ts && k in ts' && ts'[k] == ts[k]
    ensures Share(ts', k) == Share(ts, k)
  {
  }

  lemma RoundLater(strict: bool, a: World, b: World, s: nat, done: seq<Key>, enq: seq<Key>)
    requires RoundSoFar(strict, a, b, s, done, enq)
    ensures Later(a, b) && PiecesNamed(b.tasks, s)
  {
  }

  lemma TakesFuel(limit: nat, own: seq<Step>, dead: seq<Key>)
    ensures FuelOf(limit, own + Takes(dead)) == FuelOf(limit, own)
  {
    NoFuel(limit, Takes(dead));
    FuelJoined(limit, own, Takes(dead));
  }

  // ---- a drain -----------------------------------------------------------------------------------------------

  /** The controller's steps `after` add, beyond `before`, the deliveries of `n` rounds over these tasks at most. */
  ghost predicate Within(limit: nat, ts: Tasks, ks: set<Key>, n: nat, before: seq<Step>, after: seq<Step>) {
    FuelOf(limit, after) <= FuelOf(limit, before) + n * ((limit + 1) * Spread(ts, ks))
  }

  /** The controller waits for no more shares than it did. */
  ghost predicate Shrinks(a: World, ks: set<Key>, b: World, ks': set<Key>) { Spread(b.tasks, ks') <= Spread(a.tasks, ks) }

  /** From `a` to `b`: what was used up and what is left is at most what there was and what the controller added. */
  ghost predicate PaidFor(p: Program, a: World, seg: seq<Step>, b: World, limit: nat, before: seq<Step>, after: seq<Step>) {
    UseCount(p, a, seg) + Measure(b) + 3 * FuelOf(limit, before) <= Measure(a) + 3 * FuelOf(limit, after)
  }

  /** A turn that goes on lowers the budget, or else the measure whenever anything happens. */
  ghost predicate Lowers(p: Program, a: World, seg: seq<Step>, b: World, budget: int, remedied: bool) {
    remedied || UseCount(p, a, seg) > 0 ==>
      Below(if remedied then budget - 1 else budget, Measure(b), budget, Measure(a))
  }

  lemma TurnLowers(
      p: Program, a: World, seg: seq<Step>, b: World, budget: int, remedied: bool,
      limit: nat, before: seq<Step>, after: seq<Step>)
    requires PaidFor(p, a, seg, b, limit, before, after) && (remedied || after == before)
    ensures Lowers(p, a, seg, b, budget, remedied)
  {
  }

  lemma NothingAdded(limit: nat, ts: Tasks, ks: set<Key>, n: nat, own: seq<Step>)
    ensures Within(limit, ts, ks, n, own, own)
  {
  }

  lemma ShrinksSelf(a: World, b: World, ks: set<Key>)
    requires b.tasks == a.tasks
    ensures Shrinks(a, ks, b, ks)
  {
  }

  lemma ShrinksThen(a: World, x: set<Key>, b: World, y: set<Key>, c: World, z: set<Key>)
    requires Shrinks(a, x, b, y) && Shrinks(b, y, c, z)
    ensures Shrinks(a, x, c, z)
  {
  }

  /** A round of a drain under the lease discipline: what it adds, however it ends, and what is left to wait for. */
  lemma RoundCharged(
      limit: nat, strict: bool, a: World, b: World, s: nat, active: set<Key>, back: set<Key>,
      bag: multiset<P.Ref>, load: real, bag': multiset<P.Ref>, load': real,
      before: seq<Step>, after: seq<Step>, dead: seq<Key>, acts: seq<Action>, n: nat, enq: seq<Key>)
    requires Draining(strict, a, s, active, back, bag, load) && dead == DeadIn(a.queue.dlq, active) && WellFormed(a.tasks)
    requires InRound(strict, a, b, s, bag', load', before, after, dead, acts, n, enq)
    ensures strict ==> Within(limit, a.tasks, active, 1, before, after)
    ensures strict ==> Within(limit, a.tasks, active, 1, before, after + Takes(dead))
    ensures strict && n == |dead| ==> Shrinks(a, active, b, Remaining(active, dead, enq))
  {
    hide InRound, FuelOf, Spread, Remaining, StrictRound, InOrder;
    if strict {
      RoundReady(strict, a, s, active, back, bag, load);
      RoundSpends(limit, strict, a, b, s, active, bag', load', before, after, dead, acts, n, enq);
      TakesFuel(limit, after, dead);
    }
  }

  /** Between two worlds with the same tasks nothing changes in that. */
  lemma WithinFrom(limit: nat, a: World, b: World, ks: set<Key>, before: seq<Step>, after: seq<Step>)
    requires b.tasks == a.tasks && Within(limit, b.tasks, ks, 1, before, after)
    ensures Within(limit, a.tasks, ks, 1, before, after)
  {
  }

  lemma ShrinksFrom(a: World, b: World, ks: set<Key>, c: World, ks': set<Key>)
    requires b.tasks == a.tasks && Shrinks(b, ks, c, ks')
    ensures Shrinks(a, ks, c, ks')
  {
  }

  /** The tasks known at `b` are those known at `c`. */
  lemma ShrinksTo(a: World, x: set<Key>, b: World, y: set<Key>, c: World)
    requires Shrinks(a, x, b, y) && c.tasks == b.tasks
    ensures Shrinks(a, x, c, y)
  {
  }

  /** A turn of a drain after `rounds` rounds. */
  lemma OneTurn(
      limit: nat, a: World, ks: set<Key>, b: World, active: set<Key>, rounds: nat,
      own: seq<Step>, mid: seq<Step>, now: seq<Step>)
    requires Within(limit, a.tasks, ks, rounds, own, mid) && Shrinks(a, ks, b, active)
    requires Within(limit, b.tasks, active, 1, mid, now)
    ensures Within(limit, a.tasks, ks, rounds + 1, own, now)
  {
    hide FuelOf, Spread;
    MoreTimes(limit + 1, Spread(b.tasks, active), Spread(a.tasks, ks));
    Times(rounds, (limit + 1) * Spread(a.tasks, ks));
  }

  /** What a whole drain under the discipline uses up: at most the measure at its start, and what its rounds and the one that
      may have been given up make possible. */
  lemma DrainUses(
      p: Program, a: World, seg: seq<Step>, b: World, limit: nat, ks: set<Key>, rounds: nat, before: seq<Step>, after: seq<Step>)
    requires PaidFor(p, a, seg, b, limit, before, after) && Within(limit, a.tasks, ks, rounds + 1, before, after)
    ensures UseCount(p, a, seg) + Measure(b) <= Measure(a) + 3 * ((rounds + 1) * ((limit + 1) * Spread(a.tasks, ks)))
  {
    hide FuelOf, Measure, UseCount, Spread;
  }

  // ---- a run without remedies --------------------------------------------------------------------------------

  lemma {:induction false} UnmarkedFewer(ts: seq<Task>, was: set<Key>, now: set<Key>)
    requires was <= now
    ensures |Unmarked(ts, now)| <= |Unmarked(ts, was)|
  {
    if ts != [] { UnmarkedFewer(ts[1..], was, now); }
  }

  lemma PendingFewer(ts: seq<Task>, was: set<Key>, now: set<Key>)
    requires was <= now
    ensures |Pending(ts, now)| <= |Unmarked(ts, was)|
  {
    UnmarkedFewer(ts, was, now);
    PendingKeeps(ts, now);
    assert |multiset(Pending(ts, now))| == |multiset(Unmarked(ts, now))|;
  }

  /** The planned chunks of the first `n` stages without a marker. */
  ghost function Unfinished(stages: Stages, markers: set<Key>, n: nat): nat
    requires Scheduled(stages) && n <= |stages|
  {
    if n == 0 then 0 else Unfinished(stages, markers, n - 1) + |Unmarked(StaticTasks(stages, n - 1), markers)|
  }

  /** The controller's steps `after` add, beyond `before`, the deliveries of `n` tasks at most. */
  ghost predicate ForTasks(limit: nat, n: nat, before: seq<Step>, after: seq<Step>) {
    FuelOf(limit, after) <= FuelOf(limit, before) + n * (limit + 1)
  }

  lemma HandedFuel(
      limit: nat, stages: Stages, wd: World, s: nat, before: seq<Step>, after: seq<Step>, pending: seq<Task>, failed: bool)
    requires s < |stages| && HandedOut(before + PlanSteps(stages, wd, s), after, pending, failed)
    ensures ForTasks(limit, |pending|, before, after)
  {
    hide FuelOf, PlannedTasks, Planned;
    var plan := PlanSteps(stages, wd, s);
    NoFuel(limit, plan);
    FuelJoined(limit, before, plan);
    if after == before + plan + Sends(TaskKeys(pending)) {
      SendsFuel(limit, TaskKeys(pending));
      FuelJoined(limit, before + plan, Sends(TaskKeys(pending)));
    } else {
      SendsFuel(limit, [pending[0].key]);
      FuelJoined(limit, before + plan, Sends([pending[0].key]));
      AtLeastOne(|pending|, limit + 1);
    }
  }

  lemma AtLeastOne(n: nat, per: nat)
    requires n >= 1
    ensures per <= n * per
  {
    Times(n - 1, per);
  }

  /** One stage more. */
  lemma StageFuel(
      limit: nat, stages: Stages, s: nat, was: set<Key>, now: set<Key>,
      own: seq<Step>, mid: seq<Step>, after: seq<Step>, pending: nat)
    requires Scheduled(stages) && s < |stages| && was <= now
    requires ForTasks(limit, Unfinished(stages, was, s), own, mid) && ForTasks(limit, pending, mid, after)
    requires pending <= |Unmarked(StaticTasks(stages, s), was)|
    ensures ForTasks(limit, Unfinished(stages, was, s + 1), own, after)
  {
    hide FuelOf, StaticPlan, Unmarked, Unfinished;
    var n, m := Unfinished(stages, was, s), |Unmarked(StaticTasks(stages, s), was)|;
    OneMoreStage(stages, was, s);
    SumTimes(n, pending, m, limit + 1);
  }

  lemma OneMoreStage(stages: Stages, was: set<Key>, s: nat)
    requires Scheduled(stages) && s < |stages|
    ensures Unfinished(stages, was, s + 1) == Unfinished(stages, was, s) + |Unmarked(StaticTasks(stages, s), was)|
  {
    hide StaticPlan, Unmarked;
  }

  lemma SumTimes(n: nat, a: nat, b: nat, per: nat)
    requires a <= b
    ensures n * per + a * per <= (n + b) * per
  {
    assert (n + b) * per == n * per + b * per;
    assert b * per == a * per + (b - a) * per;
  }

  lemma NoTasksYet(limit: nat, own: seq<Step>)
    ensures ForTasks(limit, 0, own, own)
  {
  }

  lemma NoneUnfinished(stages: Stages, was: set<Key>)
    requires Scheduled(stages)
    ensures Unfinished(stages, was, 0) == 0
  {
  }

  lemma {:induction false} UnfinishedGrows(stages: Stages, was: set<Key>, m: nat, n: nat)
    requires Scheduled(stages) && m <= n <= |stages|
    ensures Unfinished(stages, was, m) <= Unfinished(stages, was, n)
  {
    hide StaticPlan, Unmarked;
    if m < n { UnfinishedGrows(stages, was, m, n - 1); }
  }

  /** The steps hand out no more tasks than `n` tasks with their redeliveries, and what was there before, allow. */
  ghost predicate FewDeliveries(p: Program, a: World, seg: seq<Step>, limit: nat, n: nat) {
    DeliveryCount(p, a, seg) <= Q.Potential(a.queue) + n * (limit + 1)
  }

  /** Deliveries over a run that added those of `n` tasks at most. */
  lemma RunDeliveries(
      p: Program, a: World, seg: seq<Step>, b: World, limit: nat, before: seq<Step>, after: seq<Step>, n: nat, all: nat)
    requires ForTasks(limit, n, before, after) && n <= all
    requires DeliveryCount(p, a, seg) + Q.Potential(b.queue) + FuelOf(limit, before)
      <= Q.Potential(a.queue) + FuelOf(limit, after)
    ensures FewDeliveries(p, a, seg, limit, all)
  {
    hide FuelOf, DeliveryCount, Q.Potential;
    MoreTimes(limit + 1, n, all);
    assert n * (limit + 1) == (limit + 1) * n && all * (limit + 1) == (limit + 1) * all;
  }

  /** From an empty queue there was nothing before. */
  lemma DeliveriesFromEmpty(p: Program, a: World, h: seq<Step>, max: int, n: nat)
    requires a.queue == Empty(max) && FewDeliveries(p, a, After(h, 0), Limit(a.queue), n)
    ensures DeliveryCount(p, a, h) <= n * (Limit(Empty(max)) + 1)
  {
    Q.EmptyPotential(max);
    assert After(h, 0) == h;
  }
}
