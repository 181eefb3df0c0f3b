/**
 The controller: it plans a stage, enqueues its tasks, waits for the markers, and remedies dead letters.

 The workers and the clock run beside it. `script` is what they do: before each of its own steps the controller lets the
 next burst of worker steps happen, whatever it is, so a result for every script is a result for every interleaving.
 The script's length is the deadline of the drain loops. `answers` is what the failure handler replies.
 */
module Controller {
  import opened Sequences
  import opened Queue
  import opened Machine
  import opened Soundness
  import opened Tracking
  import opened Interleave
  import opened Planning
  import opened Remediation
  import opened Books
  import opened Staging
  import opened Reference
  import opened Restart
  import opened Trace
  import opened Progress
  import opened Spending
  import opened Attempts
  import P = Partition
  import L = QueueLaws

  /** `failure_policy`; under `Off` there is no handler. */
  datatype Policy = Off | Report | Remediate

  datatype Outcome = Done | SmokeFailed | StageFailed

  /** A stage fails only for a reason: the deadline passed, or some poll saw dead letters that were not remedied. */
  ghost predicate Justified(
      p: Program, start: World, h: seq<Step>, script: seq<seq<Step>>, remediate: bool, r: Outcome, why: Cause)
  {
    match why
    case NoCause => r == Done
    case Deadline => r == StageFailed && script == []
    case Unremedied(at, active, budget, acts) =>
      r != Done && at <= |h| && Stuck(RunSteps(p, start, h[..at]), active, remediate, budget, acts)
  }

  /** The key at the gate comes before what the drain enqueues. */
  lemma CameOne(before: set<Key>, k: Key, after: set<Key>, s: nat, back: set<Key>)
    requires k.stage == s && k !in back && OnlyCame(before + {k}, after, s, back)
    ensures OnlyCame(before, after, s, back)
  {
  }

  lemma CameAll(before: set<Key>, ks: seq<Key>, after: set<Key>, s: nat)
    requires (forall k :: k in ks ==> k.stage == s) && OnlyCame(before + SetOf(ks), after, s, {})
    ensures OnlyCame(before, after, s, {})
  {
  }

  lemma Excuse(
      p: Program, start: World, h: seq<Step>, script: seq<seq<Step>>, remediate: bool, at: nat, active: set<Key>, budget: int,
      acts: seq<Action>)
    ensures Justified(p, start, h, script, remediate, Done, NoCause)
    ensures at <= |h| && Stuck(RunSteps(p, start, h[..at]), active, remediate, budget, acts) ==>
      forall r :: r != Done ==> Justified(p, start, h, script, remediate, r, Unremedied(at, active, budget, acts))
  {
  }

  lemma DeadlinePassed(p: Program, start: World, h: seq<Step>, script: seq<seq<Step>>, remediate: bool)
    requires script == []
    ensures Justified(p, start, h, script, remediate, StageFailed, Deadline)
  {
  }

  lemma NothingFailed(p: Program, start: World, h: seq<Step>, script: seq<seq<Step>>, remediate: bool)
    ensures Justified(p, start, h, script, remediate, Done, NoCause)
  {
  }

  class Controller {
    const p: Program
    const stages: Stages
    const smoke: bool
    const policy: Policy
    const maxRemediations: int
    /** The script obeys the lease discipline; steps that break it do not happen. */
    const strict: bool
    var world: World
    var script: seq<seq<Step>>
    var answers: seq<Action>
    /** The run so far, as steps of the machine. */
    ghost const start: World
    ghost const given: seq<seq<Step>>
    ghost var history: seq<Step>
    /** Its steps that are the controller's. */
    ghost var own: seq<Step>
    /** Every key the controller has enqueued. */
    ghost var enqueued: set<Key>
    /** What this stage's manifest stands for, and what was skipped from it. */
    ghost var bag: multiset<P.Ref>
    ghost var load: real
    ghost var skipped: multiset<P.Ref>
    ghost var skippedLoad: real

    constructor (
        p: Program, stages: Stages, smoke: bool, policy: Policy, maxRemediations: int, strict: bool,
        world: World, script: seq<seq<Step>>, answers: seq<Action>)
      requires Inv(p, world) && Counted(world)
      ensures Valid() && this.p == p && this.stages == stages && this.smoke == smoke && this.policy == policy
      ensures this.maxRemediations == maxRemediations && this.strict == strict
      ensures this.world == world == start && this.script == script == given && this.answers == answers
      ensures history == own == [] && enqueued == {}
    {
      this.p, this.stages, this.smoke, this.policy := p, stages, smoke, policy;
      this.maxRemediations, this.strict := maxRemediations, strict;
      this.world, this.script, this.answers := world, script, answers;
      start, given, history, own, enqueued := world, script, [], [], {};
      bag, load, skipped, skippedLoad := multiset{}, 0.0, multiset{}, 0.0;
    }

    /** The world is what a run of the machine made of a sound one. */
    ghost predicate Running()
      reads this
    {
      && Inv(p, start) && Counted(start) && world == RunSteps(p, start, history) && AllAllowed(p, start, history)
      && own == Own(history) && Recorded(enqueued, history)
    }

    /** ... and the bursts of the script that are gone have happened, one after the other, between the controller's steps. */
    ghost predicate Valid()
      reads this
    {
      && Running() && |script| <= |given| && script == given[|given| - |script|..]
      && Woven(p, strict, start, history, given[..|given| - |script|])
    }

    lemma Sound()
      requires Running()
      ensures Inv(p, world) && WellFormed(world.tasks)
    {
      RunsAreSound(p, start, history);
    }

    /** From an earlier point of the run to now: all the queue and the workers hold was enqueued, and what was used up, and
        what was delivered, is paid for by the measure there and what the controller has added since. */
    lemma Spent(h: seq<Step>)
      requires Valid() && h <= history
      ensures var a, seg, limit := RunSteps(p, start, h), After(history, |h|), Limit(start.queue);
        && world == RunSteps(p, a, seg) && Counted(a) && Counted(world) && Limit(a.queue) == limit
        && PaidFor(p, a, seg, world, limit, Own(h), own)
        && DeliveryCount(p, a, seg) + L.Potential(world.queue) + FuelOf(limit, Own(h))
          <= L.Potential(a.queue) + FuelOf(limit, own)
    {
      hide Inv, AllAllowed, RunSteps, Woven, Recorded, Measure, UseCount, DeliveryCount, FuelOf, L.Potential, Counted;
      assert After(history, |h|) == history[|h|..];
      Between(p, start, h, history);
      OwnFuel(Limit(start.queue), h);
      OwnFuel(Limit(start.queue), history);
    }

    /** A task that was sent afresh: its counter when it was enqueued, and how it may die from then on. */
    lemma Retried(from: nat, k: Key) returns (n: nat, m: nat)
      requires Valid() && SentAfresh(p, start, history, from, k)
      ensures from <= n && FreshAt(p, start, history, n, m, k)
      ensures var a := RunSteps(p, start, history[..n]);
        && Attempt(RunSteps(p, start, history[..m]).queue, k) == FailureCount(p, a, history[n..m], k)
        && (NoReset(history[n..], k) ==>
          var f, limit := FailureCount(p, a, history[n..], k), Limit(a.queue);
          Count(world.queue.dlq, k) + TakenCount(p, a, history[n..], k)
            == Count(a.queue.dlq, k) + (if f > limit then f - limit else 0))
    {
      n, m :| from <= n && FreshAt(p, start, history, n, m, k);
      PrefixAllowed(p, start, history, n);
      RunsAreSound(p, start, history[..n]);
      FreshCounter(p, start, history, n, m, k);
      if NoReset(history[n..], k) { FreshDeaths(p, start, history, n, m, k); }
    }

    /** One step of a worker or the clock. */
    method DoWorker(s: Step)
      requires Running() && IsWorkerStep(s)
      modifies this`world, this`history
      ensures Running() && world == Apply(p, old(world), s) && history == old(history) + [s]
    {
      hide Inv, AllAllowed, RunSteps, Apply, Counted, Recorded;
      WorkersMay(world, s);
      RecordedWork(enqueued, history, s);
      RunSnoc(p, start, history, s);
      AllowedSnoc(p, start, history, s);
      OwnSnoc(history, s);
      world := Apply(p, world, s);
      history := history + [s];
    }

    /** One step of the controller. */
    method Do(s: Step)
      requires Valid() && Allowed(world, s) && !IsWorkerStep(s)
      modifies this`world, this`history, this`own, this`enqueued
      ensures Valid() && world == Apply(p, old(world), s) && history == old(history) + [s] && own == old(own) + [s]
      ensures enqueued == old(enqueued) + (if s.EnqueueTask? then {s.key} else {})
    {
      hide Inv, AllAllowed, RunSteps, Apply, Allowed, IsWorkerStep, Woven, Counted, Recorded;
      RecordedNext(enqueued, history, s);
      RunSnoc(p, start, history, s);
      AllowedSnoc(p, start, history, s);
      OwnSnoc(history, s);
      WovenStep(p, strict, start, history, given[..|given| - |script|], s);
      world := Apply(p, world, s);
      history := history + [s];
      own := own + [s];
      enqueued := enqueued + (if s.EnqueueTask? then {s.key} else {});
    }

    /** The workers get their next burst: all of it that can happen happens, in order, and nothing else. */
    method Yield()
      requires Valid()
      modifies this`world, this`history, this`script
      ensures Valid() && Advanced(strict, old(world), world, multiset{})
      ensures world.tasks == old(world).tasks && world.manifests == old(world).manifests
      ensures |script| <= |old(script)| && (old(script) != [] ==> script == old(script)[1..])
      ensures history == old(history) + (if old(script) == [] then [] else Admitted(p, strict, old(world), old(script)[0]))
      ensures old(history) <= history && forall i :: |old(history)| <= i < |history| ==> IsWorkerStep(history[i])
    {
      hide Inv, AllAllowed, RunSteps, Advanced, Counted, Own, Woven, Recorded;
      AdvancedSelf(strict, world);
      if script == [] {
        return;
      }
      var burst := script[0];
      PlayBurst(burst);
      WovenBurst(p, strict, start, old(history), given[..|given| - |script|], burst);
      assert given[..|given| - |script|] + [burst] == given[..|given| - |script| + 1];
      script := script[1..];
    }

    method PlayBurst(burst: seq<Step>)
      requires Running()
      modifies this`world, this`history
      ensures Running() && Advanced(strict, old(world), world, multiset{})
      ensures world.tasks == old(world).tasks && world.manifests == old(world).manifests
      ensures history == old(history) + Admitted(p, strict, old(world), burst)
    {
      hide Inv, AllAllowed, RunSteps, Advanced, Counted, Own, Recorded;
      AdvancedSelf(strict, world);
      ghost var done: seq<Step> := [];
      assert burst[0..] == burst;
      var i := 0;
      while i < |burst|
        invariant 0 <= i <= |burst|
        invariant Running() && Advanced(strict, old(world), world, multiset{})
        invariant world.tasks == old(world).tasks && world.manifests == old(world).manifests
        invariant history == old(history) + done
        invariant done + Admitted(p, strict, world, burst[i..]) == Admitted(p, strict, old(world), burst)
      {
        AdmittedNext(p, strict, world, burst[i..]);
        assert burst[i..][1..] == burst[i + 1..];
        if IsWorkerStep(burst[i]) && (!strict || Disciplined(world, burst[i])) {
          Sound();
          WorkerAdvanced(p, strict, world, burst[i]);
          ghost var before := world;
          DoWorker(burst[i]);
          AdvancedQuietly(strict, old(world), before, world);
          done := done + [burst[i]];
        }
        i := i + 1;
      }
    }

    // ---- remedies ------------------------------------------------------------------------

    /** A step on tasks, manifests or counters. */
    method DoQuiet(s: Step)
      requires Valid() && Allowed(world, s) && (s.Register? || s.WriteManifest? || s.ResetAttempt?)
      modifies this`world, this`history, this`own, this`enqueued
      ensures Valid() && Advanced(strict, old(world), world, multiset{})
      ensures world == Apply(p, old(world), s) && history == old(history) + [s]
      ensures own == old(own) + [s] && enqueued == old(enqueued)
    {
      Sound();
      QuietAdvanced(p, strict, world, s);
      Do(s);
    }

    method DoEnqueue(k: Key)
      requires Valid() && Fed(world, k)
      modifies this`world, this`history, this`own, this`enqueued
      ensures Valid() && Advanced(strict, old(world), world, multiset{k})
      ensures world == Apply(p, old(world), EnqueueTask(k)) && history == old(history) + [EnqueueTask(k)]
      ensures Secured(old(world), world, k)
      ensures enqueued == old(enqueued) + {k}
      ensures own == old(own) + [EnqueueTask(k)]
    {
      Sound();
      EnqueueAdvanced(p, strict, world, k);
      Do(EnqueueTask(k));
    }

    /** Lets the workers go on, then enqueues. */
    method YieldEnqueue(k: Key)
      requires Valid() && Fed(world, k)
      modifies this`world, this`history, this`own, this`enqueued, this`script
      ensures Valid() && Advanced(strict, old(world), world, multiset{k})
      ensures world.tasks == old(world).tasks && world.manifests == old(world).manifests
      ensures Secured(old(world), world, k)
      ensures |script| <= |old(script)| && old(history) <= history
      ensures WorkThen(history, |old(history)|, EnqueueTask(k))
      ensures enqueued == old(enqueued) + {k}
      ensures own == old(own) + [EnqueueTask(k)]
    {
      hide Inv, AllAllowed, RunSteps, Woven, Recorded, Advanced, Secured, Fed, WorkThen, Own, Counted, IsWorkerStep;
      Yield();
      ghost var w1 := world;
      WorkedThen(old(history), history, EnqueueTask(k));
      AdvancedFed(strict, old(world), w1, multiset{}, k);
      DoEnqueue(k);
      AdvancedPlus(strict, old(world), w1, world, multiset{k});
      AdvancedSelf(strict, world);
      SecuredLater(strict, old(world), w1, world, world, k, multiset{}, multiset{});
    }

    /** `task.attempt = 0`, and back into the queue. */
    method Retry(k: Key)
      requires Valid() && Fed(world, k)
      modifies this`world, this`history, this`own, this`enqueued, this`script
      ensures Valid() && Advanced(strict, old(world), world, multiset{k})
      ensures world.tasks == old(world).tasks && world.manifests == old(world).manifests
      ensures Secured(old(world), world, k)
      ensures |script| <= |old(script)| && old(history) <= history
      ensures SentAfresh(p, start, history, |old(history)|, k)
      ensures enqueued == old(enqueued) + {k}
      ensures own == old(own) + RetrySteps(k)
    {
      hide Inv, AllAllowed, RunSteps, Woven, Recorded, Advanced, Secured, Fed, SentAfresh, Own, Counted, WorkThen;
      DoQuiet(ResetAttempt(k));
      ghost var w1, h1 := world, history;
      AdvancedFed(strict, old(world), w1, multiset{}, k);
      YieldEnqueue(k);
      ResetSends(p, start, history, |h1|, k);
      AfreshLater(p, start, history, history, |h1|, |old(history)|, k);
      AdvancedPlus(strict, old(world), w1, world, multiset{k});
      AdvancedSelf(strict, world);
      SecuredLater(strict, old(world), w1, world, world, k, multiset{}, multiset{});
    }

    /** Enqueues tasks one after the other while the workers go on. */
    method EnqueueAll(ks: seq<Key>)
      requires Valid() && forall k :: k in ks ==> Fed(world, k)
      modifies this`world, this`history, this`own, this`enqueued, this`script
      ensures Valid() && Advanced(strict, old(world), world, multiset(ks))
      ensures world.tasks == old(world).tasks && world.manifests == old(world).manifests
      ensures forall k :: k in ks ==> Secured(old(world), world, k)
      ensures |script| <= |old(script)| && old(history) <= history
      ensures enqueued == old(enqueued) + SetOf(ks)
      ensures own == old(own) + Sends(ks)
    {
      hide Inv, AllAllowed, RunSteps, Woven, Recorded, Advanced, Secured, Fed, Sends, SetOf, WorkThen, Own, Counted;
      AdvancedSelf(strict, world);
      NoSteps();
      SetOfNone();
      var i := 0;
      while i < |ks|
        invariant 0 <= i <= |ks|
        invariant Valid() && Advanced(strict, old(world), world, multiset(ks[..i]))
        invariant world.tasks == old(world).tasks && world.manifests == old(world).manifests
        invariant forall k :: k in ks[..i] ==> Secured(old(world), world, k)
        invariant enqueued == old(enqueued) + SetOf(ks[..i]) && own == old(own) + Sends(ks[..i])
        invariant |script| <= |old(script)| && old(history) <= history
      {
        ghost var before := world;
        AdvancedFed(strict, old(world), world, multiset(ks[..i]), ks[i]);
        YieldEnqueue(ks[i]);
        SecuredSnoc(strict, old(world), before, world, ks, i);
        SendsSnoc(ks, i);
        SetOfSnoc(ks, i);
        i := i + 1;
      }
      assert ks[..i] == ks;
    }

    method RegisterPiece(t: Task, j: nat)
      requires Valid() && CanSplit(world, t) && j < |t.members|
      requires forall i :: 0 <= i < j ==> PieceKnown(world.tasks, t, i)
      modifies this`world, this`history, this`own, this`enqueued
      ensures Valid() && Advanced(strict, old(world), world, multiset{})
      ensures world == old(world).(tasks := world.tasks)
      ensures CanSplit(world, t) && forall i :: 0 <= i <= j ==> PieceKnown(world.tasks, t, i)
      ensures OnlyPiecesCame(old(world), world, t.key.stage)
      ensures old(history) <= history
      ensures enqueued == old(enqueued)
      ensures own == old(own) + [Register(Piece(t, j))]
    {
      hide Inv, AllAllowed, RunSteps, Woven, Recorded, Advanced, PiecesNamed;
      Sound();
      PieceAllowed(world, t, j);
      PieceRegistered(world.tasks, t.key.stage, t, j);
      DoQuiet(Register(Piece(t, j)));
      AdvancedFed(strict, old(world), world, multiset{}, t.key);
    }

    /** The pieces of a task become known. */
    method RegisterPieces(t: Task)
      requires Valid() && CanSplit(world, t)
      modifies this`world, this`history, this`own, this`enqueued
      ensures Valid() && Advanced(strict, old(world), world, multiset{})
      ensures world == old(world).(tasks := world.tasks) && CanSplit(world, t) && PiecesKnown(world.tasks, t)
      ensures OnlyPiecesCame(old(world), world, t.key.stage)
      ensures old(history) <= history
      ensures enqueued == old(enqueued)
      ensures own == old(own) + Registers(Pieces(t))
    {
      hide Inv, AllAllowed, RunSteps, Woven, Recorded, Advanced, Registers, PieceKnown, CanSplit, OnlyPiecesCame;
      NoSteps();
      PiecesCameNot(world, t.key.stage);
      AdvancedSelf(strict, world);
      var j := 0;
      while j < |t.members|
        invariant 0 <= j <= |t.members|
        invariant Valid() && Advanced(strict, old(world), world, multiset{})
        invariant world == old(world).(tasks := world.tasks) && CanSplit(world, t)
        invariant forall i :: 0 <= i < j ==> PieceKnown(world.tasks, t, i)
        invariant own == old(own) + Registers(Pieces(t)[..j])
        invariant OnlyPiecesCame(old(world), world, t.key.stage)
        invariant old(history) <= history && enqueued == old(enqueued)
      {
        ghost var before := world;
        RegisterPiece(t, j);
        AdvancedQuietly(strict, old(world), before, world);
        AdvancedIs(strict, before, world);
        AdvancedIs(strict, old(world), before);
        PiecesCameThen(old(world), before, world, t.key.stage);
        RegistersSnoc(Pieces(t), j);
        j := j + 1;
      }
      assert Pieces(t)[..j] == Pieces(t);
    }

    /** `_manifest_replace` */
    method ManifestReplace(s: nat, oldId: string, entries: seq<Entry>)
      requires Valid() && s in world.manifests
      modifies this`world, this`history, this`own, this`enqueued
      ensures Valid() && Advanced(strict, old(world), world, multiset{})
      ensures world == old(world).(manifests := old(world).manifests[s := Replace(old(world).manifests[s], oldId, entries)])
      ensures old(history) <= history
      ensures enqueued == old(enqueued)
      ensures own == old(own) + [WriteManifest(s, Replace(old(world).manifests[s], oldId, entries))]
    {
      var m := Replace(world.manifests[s], oldId, entries);
      DoQuiet(WriteManifest(s, m));
    }

    /** The pieces become known and the manifest names them instead of the task. */
    method PrepareSplit(t: Task)
      requires Valid() && CanSplit(world, t) && t.key.stage in world.manifests
      modifies this`world, this`history, this`own, this`enqueued
      ensures Valid() && Advanced(strict, old(world), world, multiset{})
      ensures SameOtherManifests(old(world), world, t.key.stage)
      ensures CanSplit(world, t) && PiecesKnown(world.tasks, t) && OnlyPiecesCame(old(world), world, t.key.stage)
      ensures Manifest(world, t.key.stage) == Replace(Manifest(old(world), t.key.stage), t.key.chunk, PieceEntries(t))
      ensures old(history) <= history
      ensures enqueued == old(enqueued)
      ensures var m := Replace(Manifest(old(world), t.key.stage), t.key.chunk, PieceEntries(t));
        own == old(own) + Registers(Pieces(t)) + [WriteManifest(t.key.stage, m)]
    {
      RegisterPieces(t);
      ghost var w1 := world;
      ManifestReplace(t.key.stage, t.key.chunk, PieceEntries(t));
      AdvancedQuietly(strict, old(world), w1, world);
    }

    /** One task per member, in place of a dead one; a task that cannot be split is retried. */
    method ResplitTask(k: Key) returns (new_: seq<Key>)
      requires Valid() && Fed(world, k) && world.tasks[k].key == k
      requires k.stage in world.manifests && PiecesNamed(world.tasks, k.stage)
      modifies this`world, this`history, this`own, this`enqueued, this`script
      ensures Valid() && Advanced(strict, old(world), world, multiset(new_))
      ensures FreshTasks(old(world), world, k.stage, new_)
      ensures PiecesNamed(world.tasks, k.stage) && SameOtherManifests(old(world), world, k.stage)
      ensures ResplitEffect(old(world), world, k, new_) && OnlyPiecesCame(old(world), world, k.stage)
      ensures |script| <= |old(script)| && old(history) <= history
      ensures |old(world).tasks[k].members| <= 1 ==> SentAfresh(p, start, history, |old(history)|, k)
      ensures enqueued == old(enqueued) + SetOf(new_)
      ensures own == old(own) + RemedySteps(old(world).tasks, Manifest(old(world), k.stage), k, Resplit)
    {
      hide Inv, AllAllowed, RunSteps, Woven, Recorded, Advanced, Secured, RemedySteps, Registers, Sends, SentAfresh, Counted, Own, PieceKnown;
      ResplitTrace(world.tasks, Manifest(world, k.stage), k, own);
      var t := world.tasks[k];
      if |t.members| <= 1 {
        Retry(k);
        AdvancedFed(strict, old(world), world, multiset{k}, k);
        assert multiset([k]) == multiset{k};
        return [k];
      }
      PrepareSplit(t);
      ghost var w2 := world;
      new_ := PieceKeys(t);
      PiecesFed(world, t);
      EnqueueAll(new_);
      AdvancedPlus(strict, old(world), w2, world, multiset(new_));
      AdvancedFed(strict, w2, world, multiset(new_), k);
      PiecesFed(world, t);
      SecuredAll(strict, old(world), w2, world, new_);
    }

    /** Skipping a chunk: the manifest forgets it, so downstream does without it. */
    method SkipTask(k: Key, ghost over: seq<Key>)
      requires Valid() && Fed(world, k) && world.tasks[k].key == k && k.stage in world.manifests
      requires strict ==> InOrder(world, k.stage, bag, load, over) && InManifest(world, k.stage, k)
      modifies this`world, this`history, this`own, this`enqueued, this`bag, this`load, this`skipped, this`skippedLoad
      ensures Valid() && Advanced(strict, old(world), world, multiset{})
      ensures SameOtherManifests(old(world), world, k.stage)
      ensures world.tasks == old(world).tasks
      ensures Manifest(world, k.stage) == Replace(Manifest(old(world), k.stage), k.chunk, [])
      ensures strict ==> InOrder(world, k.stage, bag, load, over)
      ensures bag + skipped == old(bag) + old(skipped) && load + skippedLoad == old(load) + old(skippedLoad)
      ensures old(world).tasks[k].weight >= 0.0 ==> skippedLoad >= old(skippedLoad)
      ensures old(history) <= history
      ensures enqueued == old(enqueued)
      ensures own == old(own) + [WriteManifest(k.stage, Replace(Manifest(old(world), k.stage), k.chunk, []))]
    {
      hide InOrder, InManifest, Advanced, Inv, AllAllowed, RunSteps, Counted, Own;
      ghost var a := world;
      ManifestReplace(k.stage, k.chunk, []);
      if strict {
        WriteOff(a, k, over);
      }
    }

    /** The members and the weight of a skipped chunk leave the stage's books. */
    ghost method WriteOff(a: World, k: Key, over: seq<Key>)
      requires InOrder(a, k.stage, bag, load, over) && InManifest(a, k.stage, k) && Fed(a, k) && a.tasks[k].key == k
      requires Advanced(true, a, world, multiset{}) && world.tasks == a.tasks
      requires Manifest(world, k.stage) == Replace(Manifest(a, k.stage), k.chunk, [])
      modifies this`bag, this`load, this`skipped, this`skippedLoad
      ensures InOrder(world, k.stage, bag, load, over)
      ensures bag + skipped == old(bag) + old(skipped) && load + skippedLoad == old(load) + old(skippedLoad)
      ensures a.tasks[k].weight >= 0.0 ==> skippedLoad >= old(skippedLoad)
    {
      hide InOrder, InManifest, Advanced, Manifest, Replace;
      var t := a.tasks[k];
      SkipInOrder(a, world, k, bag, load, over);
      MoveOver(bag, skipped, multiset(t.members));
      bag, skipped := bag - multiset(t.members), skipped + multiset(t.members);
      load, skippedLoad := load - t.weight, skippedLoad + t.weight;
    }

    /** One remedy for the dead task `d`; `ok` is false for an action nobody knows. */
    method Remedy(d: Key, action: Action, ghost over: seq<Key>) returns (ok: bool, new_: seq<Key>)
      requires Valid() && Fed(world, d) && world.tasks[d].key == d
      requires d.stage in world.manifests && PiecesNamed(world.tasks, d.stage)
      requires Named(world.tasks, d.stage, Manifest(world, d.stage))
      requires strict ==> InOrder(world, d.stage, bag, load, over) && InManifest(world, d.stage, d)
      requires strict ==> d !in over && Copies(world.queue, d) >= 1
      modifies this`world, this`history, this`own, this`enqueued, this`script
      modifies this`bag, this`load, this`skipped, this`skippedLoad
      ensures Valid() && Advanced(strict, old(world), world, multiset(new_))
      ensures FreshTasks(old(world), world, d.stage, new_)
      ensures PiecesNamed(world.tasks, d.stage) && SameOtherManifests(old(world), world, d.stage)
      ensures OnlyPiecesCame(old(world), world, d.stage) && Named(world.tasks, d.stage, Manifest(world, d.stage))
      ensures ok ==> Follows(old(world), world, d.stage, [d], new_)
      ensures !ok ==> world == old(world) && new_ == []
      ensures forall x :: x in new_ ==> x == d || IsPieceOf(old(world).tasks, d, x)
      ensures strict ==> InOrder(world, d.stage, bag, load, over + [d])
      ensures strict && ok ==> StillNames(old(world), world, d.stage, d, new_)
      ensures bag + skipped == old(bag) + old(skipped) && load + skippedLoad == old(load) + old(skippedLoad)
      ensures Light(old(world).tasks, d.stage) ==> skippedLoad >= old(skippedLoad)
      ensures |script| <= |old(script)| && old(history) <= history
      ensures Retries(old(world).tasks, d, action) ==> SentAfresh(p, start, history, |old(history)|, d)
      ensures enqueued == old(enqueued) + SetOf(new_)
      ensures ok <==> Usable(action)
      ensures own == old(own) + RemedySteps(old(world).tasks, Manifest(old(world), d.stage), d, action)
      ensures Manifest(world, d.stage) == RemedyManifest(old(world).tasks, Manifest(old(world), d.stage), d, action)
      ensures new_ == RemedyKeys(old(world).tasks, d, action)
    {
      hide Inv, AllAllowed, RunSteps, Woven, Recorded, Balances, Single, PiecesNamed, Advanced, Follows, StillNames, Named, Light;
      hide RemedySteps, RemedyManifest, RemedyKeys, Secured, IsPieceOf, RetrySteps, OnlyPiecesCame, Counted, ResplitEffect, Own, SentAfresh;
      DeadLight(world, d);
      PiecesCameNot(world, d.stage);
      match action {
        case RetryWith =>
          Retry(d);
          RetryIs(world.tasks, Manifest(world, d.stage), d);
          NoTasksCame(old(world), world, d.stage);
          AdvancedFed(strict, old(world), world, multiset{d}, d);
          assert multiset([d]) == multiset{d};
          RetryFollows(old(world), world, d.stage, d);
          if strict { RetryBooks(old(world), world, d.stage, d, bag, load, over); }
          return true, [d];
        case Resplit =>
          new_ := ResplitTask(d);
          ResplitFollows(old(world), world, d.stage, d, new_);
          AdvancedLater(strict, old(world), world, multiset(new_));
          ResplitNamed(old(world), world, d.stage, d, new_);
          ResplitIs(old(world), world, d, new_);
          if strict { ResplitKept(old(world), world, d.stage, d, new_, bag, load, over); }
          return true, new_;
        case Skip =>
          SkipTask(d, over);
          SkipIs(world.tasks, Manifest(old(world), d.stage), d);
          NoTasksCame(old(world), world, d.stage);
          ReplaceFollows(old(world), world, d.stage, d, world.tasks[d], [], []);
          SkipNamed(world.tasks, d.stage, Manifest(old(world), d.stage), d.chunk);
          if strict { SingleMore(world, d.stage, over, d); }
          return true, [];
        case _ =>
          NoRemedyIs(world.tasks, Manifest(world, d.stage), d, action);
          AdvancedSelf(strict, world);
          if strict { SingleMore(world, d.stage, over, d); }
          return false, [];
      }
    }

    /** The failure handler's next reply. */
    method NextAnswer() returns (act: Action)
      modifies this`answers
      ensures act == (if old(answers) == [] then ReportOnly else old(answers)[0])
      ensures answers == if old(answers) == [] then [] else old(answers)[1..]
    {
      if answers == [] {
        return ReportOnly;
      }
      act := answers[0];
      answers := answers[1..];
    }

    /** The remedy for the next dead task of a round. */
    method RemedyInRound(s: nat, dead: seq<Key>, i: nat, action: Action, ghost a: World, ghost enq: seq<Key>)
      returns (ok: bool, more: seq<Key>)
      requires Valid() && i < |dead| && dead[i].stage == s && Fed(a, dead[i]) && dead[i] in world.tasks
      requires RoundSoFar(strict, a, world, s, dead[..i], enq)
      requires strict ==> Distinct(dead) && StrictRound(a, world, s, bag, load, dead[..i], dead[i..], enq)
      modifies this`world, this`history, this`own, this`enqueued, this`script
      modifies this`bag, this`load, this`skipped, this`skippedLoad
      ensures Valid()
      ensures ok ==> RoundSoFar(strict, a, world, s, dead[..i + 1], enq + more)
      ensures !ok ==> world == old(world) && more == []
      ensures strict ==> InOrder(world, s, bag, load, dead[..i + 1])
      ensures strict && ok ==> StrictRound(a, world, s, bag, load, dead[..i + 1], dead[i + 1..], enq + more)
      ensures bag + skipped == old(bag) + old(skipped) && load + skippedLoad == old(load) + old(skippedLoad)
      ensures Light(a.tasks, s) ==> skippedLoad >= old(skippedLoad)
      ensures |script| <= |old(script)| && old(history) <= history
      ensures Retries(old(world).tasks, dead[i], action) ==> SentAfresh(p, start, history, |old(history)|, dead[i])
      ensures enqueued == old(enqueued) + SetOf(more)
      ensures ok <==> Usable(action)
      ensures own == old(own) + RemedySteps(old(world).tasks, Manifest(old(world), s), dead[i], action)
      ensures Manifest(world, s) == RemedyManifest(old(world).tasks, Manifest(old(world), s), dead[i], action)
      ensures more == RemedyKeys(old(world).tasks, dead[i], action)
    {
      hide Inv, AllAllowed, RunSteps, Woven, Recorded, Advanced, Light, Named, SentAfresh;
      var d := dead[i];
      ghost var b, todo := world, dead[i + 1..];
      assert dead[i..] == [d] + todo && dead[..i + 1] == dead[..i] + [d];
      AdvancedFed(strict, a, b, multiset(enq), d);
      RoundLight(strict, a, b, s, dead[..i], enq);
      Sound();
      if strict {
        DistinctRest(dead, i);
        assert d in [d] + todo;
      }
      ok, more := Remedy(d, action, dead[..i]);
      if ok {
        RoundStep(strict, a, b, world, s, dead[..i], d, enq, more);
        if strict {
          RoundNamesRemedied(a, b, world, s, dead[..i], d, todo, enq, more);
        }
      }
    }

    /** The failure handler looks at a dead task while the workers go on. */
    method Diagnose(s: nat, dead: seq<Key>, i: nat, ghost a: World, ghost enq: seq<Key>) returns (action: Action)
      requires Valid() && i < |dead| && RoundSoFar(strict, a, world, s, dead[..i], enq)
      requires strict ==> StrictRound(a, world, s, bag, load, dead[..i], dead[i..], enq)
      modifies this`world, this`history, this`script, this`answers
      ensures Valid() && RoundSoFar(strict, a, world, s, dead[..i], enq)
      ensures strict ==> StrictRound(a, world, s, bag, load, dead[..i], dead[i..], enq)
      ensures |script| <= |old(script)| && old(history) <= history
      ensures world.tasks == old(world).tasks && world.manifests == old(world).manifests
      ensures action == (if old(answers) == [] then ReportOnly else old(answers)[0])
      ensures answers == if old(answers) == [] then [] else old(answers)[1..]
    {
      hide Inv, AllAllowed, RunSteps, Woven, Recorded, RoundSoFar, StrictRound, Advanced;
      action := NextAnswer();
      ghost var b := world;
      Yield();
      RoundYield(strict, a, b, world, s, dead[..i], enq);
      if strict {
        StrictRoundYield(a, b, world, s, bag, load, dead[..i], dead[i..], enq);
      }
    }

    /** The next dead task of a round is diagnosed and remedied; without a remedy the round stops. */
    method TreatNext(
        s: nat, dead: seq<Key>, i: nat, budget: int,
        ghost a: World, ghost own0: seq<Step>, ghost acts: seq<Action>, ghost enq: seq<Key>)
      returns (go: bool, more: seq<Key>)
      requires Valid() && i < |dead| && dead[i].stage == s && Fed(a, dead[i]) && (strict ==> Distinct(dead))
      requires InRound(strict, a, world, s, bag, load, own0, own, dead, acts, i, enq) && answers == acts[i..]
      modifies this`world, this`history, this`own, this`enqueued, this`script, this`answers
      modifies this`bag, this`load, this`skipped, this`skippedLoad
      ensures Valid()
      ensures go <==> policy == Remediate && budget > 0 && i < |acts| && Usable(acts[i])
      ensures go ==>
        answers == acts[i + 1..] && InRound(strict, a, world, s, bag, load, own0, own, dead, acts, i + 1, enq + more)
      ensures !go ==> more == [] && InRound(strict, a, world, s, bag, load, own0, own, dead, acts, i, enq)
      ensures !go ==> world.tasks == old(world).tasks && world.manifests == old(world).manifests && own == old(own)
      ensures enqueued == old(enqueued) + SetOf(more)
      ensures bag + skipped == old(bag) + old(skipped) && load + skippedLoad == old(load) + old(skippedLoad)
      ensures Light(a.tasks, s) ==> skippedLoad >= old(skippedLoad)
      ensures |script| <= |old(script)| && old(history) <= history
      ensures go && Retries(a.tasks, dead[i], acts[i]) ==> SentAfresh(p, start, history, |old(history)|, dead[i])
    {
      hide Inv, AllAllowed, RunSteps, Woven, Recorded, RoundSoFar, AsAnswered, StrictRound, RemedySteps, RemedyManifest, RemedyKeys;
      hide SentAfresh, Retries;
      var action := Diagnose(s, dead, i, a, enq);
      ghost var b, did, h1 := world, own, history;
      AnswersStand(a, old(world), b, s, own0, did, dead, acts, i, enq);
      if policy != Remediate || budget <= 0 || action == ReportOnly || action == Abort || action == Unknown {
        return false, [];
      }
      DeadKnown(strict, a, b, s, dead[..i], enq, dead[i]);
      var ok;
      SameRetries(a.tasks, b.tasks, dead[i], action);
      ok, more := RemedyInRound(s, dead, i, action, a, enq);
      if Retries(a.tasks, dead[i], action) { AfreshLater(p, start, history, history, |h1|, |old(history)|, dead[i]); }
      OneMoreAnswer(a, b, world, s, own0, did, own, dead, acts, i, enq);
      go := ok;
    }

    /** One round: every dead task is diagnosed and remedied; `None` gives the stage up. */
    method HandleFailures(s: nat, dead: seq<Key>, budget: int)
      returns (r: Option<seq<Key>>, ghost enq: seq<Key>, ghost upTo: nat)
      requires Valid() && s in world.manifests && PiecesNamed(world.tasks, s) && Named(world.tasks, s, Manifest(world, s))
      requires forall d :: d in dead ==> d.stage == s && Fed(world, d)
      requires strict ==> Distinct(dead) && StrictRound(world, world, s, bag, load, [], dead, [])
      modifies this`world, this`history, this`own, this`enqueued, this`script, this`answers
      modifies this`bag, this`load, this`skipped, this`skippedLoad
      ensures Valid()
      ensures r.Some? <==>
        policy != Off && (dead == [] || Remediable(policy == Remediate, budget, old(answers), |dead|))
      ensures r.Some? ==> upTo == |dead| && r.value == enq && answers == old(answers)[|dead|..]
      ensures r.None? && dead != [] ==> FirstRefused(policy == Remediate, budget, old(answers), |dead|, upTo)
      ensures InRound(strict, old(world), world, s, bag, load, old(own), own, dead, old(answers), upTo, enq)
      ensures policy != Remediate ==>
        enq == [] && world.tasks == old(world).tasks && world.manifests == old(world).manifests && own == old(own)
      ensures enqueued == old(enqueued) + SetOf(enq)
      ensures bag + skipped == old(bag) + old(skipped) && load + skippedLoad == old(load) + old(skippedLoad)
      ensures Light(old(world).tasks, s) ==> skippedLoad >= old(skippedLoad)
      ensures |script| <= |old(script)| && old(history) <= history
      ensures AllSentAfresh(p, start, history, |old(history)|, old(world).tasks, dead, old(answers), upTo)
    {
      hide Inv, AllAllowed, RunSteps, Woven, Recorded, InRound, PiecesNamed, StrictRound, AllSentAfresh, SentAfresh, Retries;
      enq, upTo := [], 0;
      RoundOpens(strict, world, s, bag, load, own, dead, answers);
      NoneSentAfresh(p, start, history, |history|, world.tasks, dead, answers);
      if policy == Off {
        return None, enq, 0;
      }
      var new_: seq<Key> := [];
      var i := 0;
      while i < |dead|
        invariant 0 <= i <= |dead| && i <= |old(answers)| && new_ == enq && Valid()
        invariant InRound(strict, old(world), world, s, bag, load, old(own), own, dead, old(answers), i, enq)
        invariant i > 0 ==> Remediable(policy == Remediate, budget, old(answers), i)
        invariant answers == old(answers)[i..]
        invariant i == 0 ==> enq == [] && world == old(world) && own == old(own)
        invariant enqueued == old(enqueued) + SetOf(enq)
        invariant bag + skipped == old(bag) + old(skipped) && load + skippedLoad == old(load) + old(skippedLoad)
        invariant Light(old(world).tasks, s) ==> skippedLoad >= old(skippedLoad)
        invariant |script| <= |old(script)| && old(history) <= history
        invariant AllSentAfresh(p, start, history, |old(history)|, old(world).tasks, dead, old(answers), i)
      {
        ghost var h := history;
        var go, more := TreatNext(s, dead, i, budget, old(world), old(own), old(answers), enq);
        if !go {
          AllAfreshLater(p, start, h, history, |old(history)|, |old(history)|, old(world).tasks, dead, old(answers), i);
          return None, enq, i;
        }
        OneMoreAfresh(p, start, h, history, |old(history)|, old(world).tasks, dead, old(answers), i);
        SetOfPlus(enq, more);
        new_, enq := new_ + more, enq + more;
        i := i + 1;
      }
      return Some(new_), enq, i;
    }

    // ---- waiting for a stage -----------------------------------------------------------------

    /** `dlq.remove` for every task of the round, while the workers go on. */
    method RemoveDead(s: nat, dead: seq<Key>, ghost keep: set<Key>)
      requires Valid() && SafeWithout(world, keep, dead)
      requires strict ==> Distinct(dead) && InOrder(world, s, bag, load, dead)
      modifies this`world, this`history, this`own, this`enqueued, this`script
      ensures Valid() && SafeWithout(world, keep, [])
      ensures strict ==> InOrder(world, s, bag, load, [])
      ensures world.tasks == old(world).tasks && world.manifests == old(world).manifests && Later(old(world), world)
      ensures forall k :: Untouched(old(world), k) ==> Untouched(world, k)
      ensures |script| <= |old(script)| && old(history) <= history
      ensures enqueued == old(enqueued)
      ensures own == old(own) + Takes(dead)
    {
      hide Inv, AllAllowed, RunSteps, Woven, Recorded, SafeWithout, InOrder, Later, Untouched, Takes, Distinct;
      NoSteps();
      LaterSelf(world);
      var i := 0;
      assert dead[0..] == dead;
      while i < |dead|
        invariant 0 <= i <= |dead| && Valid() && SafeWithout(world, keep, dead[i..])
        invariant strict ==> InOrder(world, s, bag, load, dead[i..])
        invariant world.tasks == old(world).tasks && world.manifests == old(world).manifests && Later(old(world), world)
        invariant forall k :: Untouched(old(world), k) ==> Untouched(world, k)
        invariant own == old(own) + Takes(dead[..i])
        invariant |script| <= |old(script)| && old(history) <= history && enqueued == old(enqueued)
      {
        ghost var before := world;
        TakeNext(s, dead, i, keep);
        LaterThen(old(world), before, world);
        TakesSnoc(dead, i);
        i := i + 1;
      }
      assert dead[..i] == dead && dead[i..] == [];
    }

    method TakeNext(s: nat, dead: seq<Key>, i: nat, ghost keep: set<Key>)
      requires Valid() && i < |dead| && SafeWithout(world, keep, dead[i..])
      requires strict ==> Distinct(dead) && InOrder(world, s, bag, load, dead[i..])
      modifies this`world, this`history, this`own, this`enqueued, this`script
      ensures Valid() && SafeWithout(world, keep, dead[i + 1..])
      ensures strict ==> InOrder(world, s, bag, load, dead[i + 1..])
      ensures world.tasks == old(world).tasks && world.manifests == old(world).manifests && Later(old(world), world)
      ensures forall k :: Untouched(old(world), k) ==> Untouched(world, k)
      ensures |script| <= |old(script)| && old(history) <= history
      ensures enqueued == old(enqueued)
      ensures own == old(own) + [TakeDeadTask(dead[i])]
    {
      hide Inv, AllAllowed, RunSteps, Woven, Recorded, SafeWithout, Balances, Advanced, Later, Untouched;
      ghost var d, todo := dead[i], dead[i + 1..];
      assert dead[i..] == [d] + todo;
      Yield();
      ghost var b := world;
      SafeWithoutYield(strict, old(world), b, keep, [d] + todo);
      if strict { AdvancedBooks(old(world), b, s, bag, load, [d] + todo); }
      AdvancedIs(strict, old(world), b);
      Sound();
      TakeEffect(p, world, dead[i]);
      Do(TakeDeadTask(dead[i]));
      TakenLater(b, world, d);
      SafeWithoutTaken(b, world, keep, d, todo);
      LaterThen(old(world), b, world);
      if strict {
        DistinctRest(dead, i);
        assert Count([d] + todo, d) >= 1;
        TakenInOrder(b, world, s, d, todo, bag, load);
      }
    }

    /** A poll that finds dead letters: one round of remedies. */
    method Round(s: nat, active: set<Key>, dead: seq<Key>, budget: int, ghost back: set<Key>)
      returns (ok: bool, active': set<Key>)
      requires Valid() && Draining(strict, world, s, active, back, bag, load)
      requires dead == DeadIn(world.queue.dlq, active) && dead != []
      modifies this`world, this`history, this`own, this`enqueued, this`script, this`answers
      modifies this`bag, this`load, this`skipped, this`skippedLoad
      ensures Valid() && During(old(world), world, s)
      ensures HeldBack(world, s, back) && s in world.manifests
      ensures ok <==> Remediable(policy == Remediate, budget, old(answers), |dead|)
      ensures ok ==> Draining(strict, world, s, active', back, bag, load)
      ensures ok ==> Remedied(old(world), s, active, dead, old(own), own, old(answers), answers, active')
      ensures !ok ==> Refused(old(world), s, dead, policy == Remediate, budget, old(own), own, old(answers))
      ensures strict ==> Within(Limit(start.queue), old(world).tasks, active, 1, old(own), own)
      ensures strict && ok ==> Shrinks(old(world), active, world, active')
      ensures strict ==> Balances(world, s, bag, load)
      ensures policy != Remediate ==>
        && world.tasks == old(world).tasks && world.manifests == old(world).manifests
        && enqueued == old(enqueued) && own == old(own)
      ensures bag + skipped == old(bag) + old(skipped) && load + skippedLoad == old(load) + old(skippedLoad)
      ensures Light(old(world).tasks, s) ==> skippedLoad >= old(skippedLoad)
      ensures |script| <= |old(script)| && old(history) <= history
      ensures ok ==> AllSentAfresh(p, start, history, |old(history)|, old(world).tasks, dead, old(answers), |dead|)
      ensures OnlyCame(old(enqueued), enqueued, s, back)
    {
      hide Inv, AllAllowed, RunSteps, Woven, Recorded, InRound, Draining, Balances, HeldBack, SafeWithout, During, InOrder, StrictRound;
      hide Later, DeadIn, Remaining, Remedied, OnlyCame, SetOf, Distinct, Own, Refused, FirstRefused, Within, Shrinks, AllSentAfresh;
      ghost var a, limit := world, Limit(start.queue);
      Sound();
      RoundReady(strict, world, s, active, back, bag, load);
      var r, enq, upTo := HandleFailures(s, dead, budget);
      ghost var b, did, h1 := world, own, history;
      RoundCloses(strict, a, b, s, active, back, old(bag), old(load), bag, load, old(own), did, dead, old(answers), upTo, enq);
      CameFrom(old(enqueued), enq, s, back);
      RoundCharged(
        limit, strict, a, b, s, active, back, old(bag), old(load), bag, load, old(own), did, dead, old(answers), upTo, enq);
      if r.None? {
        PartlyAnswered(strict, a, b, s, bag, load, old(own), did, dead, old(answers), upTo, enq, policy == Remediate, budget);
        return false, active;
      }
      active' := Remaining(active, dead, r.value);
      RemoveDead(s, dead, active');
      AllAfreshLater(p, start, h1, history, |old(history)|, |old(history)|, a.tasks, dead, old(answers), |dead|);
      RoundIsOver(strict, a, b, world, s, active, back, old(bag), old(load), bag, load, old(own), did, dead, old(answers), enq);
      if strict { ShrinksTo(a, active, b, active', world); }
      ok := true;
    }

    /** The controller waits while the workers go on. */
    method Wait(s: nat, active: set<Key>, ghost back: set<Key>)
      requires Valid() && Draining(strict, world, s, active, back, bag, load)
      modifies this`world, this`history, this`script
      ensures Valid() && Draining(strict, world, s, active, back, bag, load) && During(old(world), world, s)
      ensures world.tasks == old(world).tasks && world.manifests == old(world).manifests
      ensures |old(script)| <= |script| + 1
      ensures |script| <= |old(script)| && (old(script) != [] ==> |script| < |old(script)|) && old(history) <= history
    {
      Yield();
      DrainYield(strict, old(world), world, s, active, back, bag, load);
    }

    /** Are the markers of all active tasks there? They are looked up one by one. */
    method AllMarked(s: nat, active: set<Key>, ghost back: set<Key>) returns (all: bool)
      requires Valid() && Draining(strict, world, s, active, back, bag, load)
      modifies this`world, this`history, this`script
      ensures Valid() && Draining(strict, world, s, active, back, bag, load)
      ensures all ==> active <= world.markers
      ensures During(old(world), world, s)
      ensures world.tasks == old(world).tasks && world.manifests == old(world).manifests
      ensures |script| <= |old(script)| <= |script| + |active| && old(history) <= history
      ensures active <= old(world).markers ==> all
    {
      hide Draining, Inv, AllAllowed, RunSteps, Woven, Recorded;
      all := true;
      var rest := active;
      while rest != {}
        invariant rest <= active && Valid() && Draining(strict, world, s, active, back, bag, load)
        invariant all ==> active - rest <= world.markers
        invariant active <= old(world).markers ==> all
        invariant During(old(world), world, s)
        invariant world.tasks == old(world).tasks && world.manifests == old(world).manifests
        invariant |script| <= |old(script)| <= |script| + (|active| - |rest|) && old(history) <= history
        decreases |rest|
      {
        var k :| k in rest;
        ghost var before := world;
        Wait(s, active, back);
        DuringThen(old(world), before, world, s);
        if k !in world.markers {
          all := false;
        }
        rest := rest - {k};
      }
    }

    /** One turn of the drain loop: dead letters are remedied; without any, the markers are looked up. */
    method PollOnce(s: nat, active: set<Key>, budget: int, ghost back: set<Key>) returns (t: Turn, ghost at: nat)
      requires Valid() && Draining(strict, world, s, active, back, bag, load) && script != []
      modifies this`world, this`history, this`own, this`enqueued, this`script, this`answers
      modifies this`bag, this`load, this`skipped, this`skippedLoad
      ensures Valid() && During(old(world), world, s) && HeldBack(world, s, back) && s in world.manifests
      ensures t == Finished ==> Draining(strict, world, s, {}, back, bag, load)
      ensures t.Again? ==> Draining(strict, world, s, t.active, back, bag, load)
      ensures at <= |history|
      ensures var wd := RunSteps(p, start, history[..at]);
        TurnIs(wd, s, active, policy == Remediate, budget, old(own), own, old(answers), answers, t)
      ensures t.Again? && t.remedied ==>
        var wd := RunSteps(p, start, history[..at]);
        var dead := DeadIn(wd.queue.dlq, active);
        AllSentAfresh(p, start, history, |old(history)|, wd.tasks, dead, old(answers), |dead|)
      ensures strict ==> Within(Limit(start.queue), old(world).tasks, active, 1, old(own), own)
      ensures strict && t.Again? ==> Shrinks(old(world), active, world, t.active)
      ensures t.Again? ==> Lowers(p, old(world), After(history, |old(history)|), world, budget, t.remedied)
      ensures !(t.Again? && t.remedied) && t != GaveUp ==> own == old(own)
      ensures strict ==> Balances(world, s, bag, load)
      ensures policy != Remediate ==>
        && world.tasks == old(world).tasks && world.manifests == old(world).manifests
        && enqueued == old(enqueued) && own == old(own)
      ensures bag + skipped == old(bag) + old(skipped) && load + skippedLoad == old(load) + old(skippedLoad)
      ensures Light(old(world).tasks, s) ==> skippedLoad >= old(skippedLoad)
      ensures |script| < |old(script)| && old(history) <= history
      ensures t == Finished || (t.Again? && !t.remedied) ==> |old(script)| <= |script| + 1 + |active|
      ensures OnlyCame(old(enqueued), enqueued, s, back)
    {
      hide Inv, AllAllowed, RunSteps, Woven, Recorded, Draining, During, HeldBack, Balances, Waiting, Remedied, DeadIn, Own, OnlyCame;
      hide AllSentAfresh, Refused, Within, Shrinks, PaidFor, Lowers, DeliveryCount, L.Potential, Counted, FuelOf;
      ghost var limit := Limit(start.queue);
      Wait(s, active, back);
      ghost var w1, h1 := world, history;
      at := |history|;
      var dead := DeadIn(world.queue.dlq, active);
      if dead != [] {
        var ok, active' := Round(s, active, dead, budget, back);
        DuringThen(old(world), w1, world, s);
        assert history[..at] == h1;
        t := if ok then Again(active', true) else GaveUp;
        if strict { WithinFrom(limit, old(world), w1, active, old(own), own); }
        if ok {
          AllAfreshLater(p, start, history, history, |h1|, |old(history)|, w1.tasks, dead, old(answers), |dead|);
        }
        if strict && ok { ShrinksFrom(old(world), w1, active, world, active'); }
        Spent(old(history));
        if ok { TurnLowers(p, old(world), After(history, |old(history)|), world, budget, true, limit, old(own), own); }
        return;
      }
      CameNot(enqueued, s, back);
      var all := AllMarked(s, active, back);
      DuringThen(old(world), w1, world, s);
      BackIsReady(strict, world, s, active, back, bag, load);
      assert history[..at] == h1;
      t := Again(active, false);
      Spent(old(history));
      TurnLowers(p, old(world), After(history, |old(history)|), world, budget, false, limit, old(own), own);
      NothingAdded(limit, old(world).tasks, active, 1, own);
      ShrinksSelf(old(world), world, active);
      if all {
        AllCovered(strict, world, s, active, back, bag, load);
        t := Finished;
      }
    }

    /**
     Waits for the given tasks. On a normal return every chunk the manifest names is finished, except those held back.
     `rounds` counts the remediation rounds, and `why` says what a failed drain failed for.
     */
    method Drain(s: nat, tasks: set<Key>, gate: bool, ghost back: set<Key>)
      returns (r: Outcome, ghost rounds: nat, ghost why: Cause, ghost polls: seq<Polled>, ghost end: Carried)
      requires Valid() && Draining(strict, world, s, tasks, back, bag, load)
      modifies this`world, this`history, this`own, this`enqueued, this`script, this`answers
      modifies this`bag, this`load, this`skipped, this`skippedLoad
      ensures Valid() && During(old(world), world, s) && HeldBack(world, s, back) && s in world.manifests
      ensures r == Done ==> Draining(strict, world, s, {}, back, bag, load)
      ensures Justified(p, start, history, script, policy == Remediate, r, why)
      ensures var from := Carried(tasks, maxRemediations, old(own), old(answers));
        DrainIs(p, start, history, s, policy == Remediate, from, polls, end, why)
      ensures |old(script)| == |script| + Bursts(polls)
      ensures r == SmokeFailed ==> gate
      ensures why.Unremedied? ==>
        r == (if gate then SmokeFailed else StageFailed) && why.budget == maxRemediations - rounds
      ensures rounds <= if maxRemediations < 0 then 0 else maxRemediations
      ensures policy != Remediate ==> rounds == 0
      ensures PaidFor(p, old(world), After(history, |old(history)|), world, Limit(start.queue), old(own), own)
      ensures strict ==> Within(Limit(start.queue), old(world).tasks, tasks, rounds + 1, old(own), own)
      ensures strict ==> Balances(world, s, bag, load)
      ensures policy != Remediate ==>
        && world.tasks == old(world).tasks && world.manifests == old(world).manifests
        && enqueued == old(enqueued) && own == old(own)
      ensures bag + skipped == old(bag) + old(skipped) && load + skippedLoad == old(load) + old(skippedLoad)
      ensures Light(old(world).tasks, s) ==> skippedLoad >= old(skippedLoad)
      ensures old(history) <= history && OnlyCame(old(enqueued), enqueued, s, back)
    {
      hide Inv, AllAllowed, RunSteps, Woven, Recorded, Draining, During, HeldBack, Balances, Waiting, Remedied, DeadIn, Own, OnlyCame, Light;
      hide Refused, Within, Shrinks, PaidFor, Lowers, DeliveryCount, L.Potential, Counted, FuelOf;
      hide PollIs, Polls, DrainIs, TurnIs, Bursts, Stuck, AllSentAfresh, Justified, After;
      ghost var limit := Limit(start.queue);
      NothingAdded(limit, world.tasks, tasks, 0, own);
      ShrinksSelf(world, world, tasks);
      ghost var from := Carried(tasks, maxRemediations, own, answers);
      polls, end := [], from;
      NoPolls(p, start, history, s, policy == Remediate, from);
      var active, budget := tasks, maxRemediations;
      rounds := 0;
      DuringSelf(world, s);
      CameNot(enqueued, s, back);
      while script != []
        invariant Valid() && Draining(strict, world, s, active, back, bag, load) && During(old(world), world, s)
        invariant end == Carried(active, budget, own, answers) && |old(script)| == |script| + Bursts(polls)
        invariant Polls(p, start, history, s, policy == Remediate, from, polls, end)
        invariant budget + rounds == maxRemediations && (rounds > 0 ==> budget >= 0 && policy == Remediate)
        invariant policy != Remediate ==>
          && world.tasks == old(world).tasks && world.manifests == old(world).manifests
          && enqueued == old(enqueued) && own == old(own)
        invariant bag + skipped == old(bag) + old(skipped) && load + skippedLoad == old(load) + old(skippedLoad)
        invariant Light(old(world).tasks, s) ==> skippedLoad >= old(skippedLoad)
        invariant strict ==> Within(limit, old(world).tasks, tasks, rounds, old(own), own)
        invariant strict ==> Shrinks(old(world), tasks, world, active)
        invariant old(history) <= history && OnlyCame(old(enqueued), enqueued, s, back)
        decreases |script|
      {
        ghost var before, acts, came, spent, h1, left := world, answers, enqueued, own, history, |script|;
        ghost var at;
        var t;
        DuringLight(old(world), before, s);
        t, at := PollOnce(s, active, budget, back);
        DuringThen(old(world), before, world, s);
        CameThen(old(enqueued), came, enqueued, s, back);
        ghost var x := Polled(end, at, t, own, answers, left - |script|);
        PollMade(p, start, history, s, policy == Remediate, x);
        Excuse(p, start, history, script, policy == Remediate, at, active, budget, acts);
        TurnSays(RunSteps(p, start, history[..at]), s, active, policy == Remediate, budget, spent, own, acts, answers, t);
        OneMorePoll(p, start, h1, history, s, policy == Remediate, from, polls, x);
        polls := polls + [x];
        if strict {
          OneTurn(limit, old(world), tasks, before, active, rounds, old(own), spent, own);
          if t.Again? { ShrinksThen(old(world), tasks, before, active, world, t.active); }
        }
        if !t.Again? {
          Spent(old(history));
          r := if t == Finished then Done else if gate then SmokeFailed else StageFailed;
          why := if t == Finished then NoCause else Unremedied(at, active, budget, acts);
          return r, rounds, why, polls, end;
        }
        active := t.active;
        if t.remedied {
          budget, rounds := budget - 1, rounds + 1;
        }
        end := Onward(x);
      }
      BackIsReady(strict, world, s, active, back, bag, load);
      Spent(old(history));
      if strict {
        NothingAdded(limit, world.tasks, active, 1, own);
        OneTurn(limit, old(world), tasks, world, active, rounds, old(own), own, own);
      }
      DeadlineIs(p, start, history, s, policy == Remediate, from, polls, end);
      DeadlinePassed(p, start, history, script, policy == Remediate);
      return StageFailed, rounds, Deadline, polls, end;
    }

    // ---- a stage --------------------------------------------------------------------------------

    /** The planned tasks become known. */
    method RegisterAll(s: nat, ts: seq<Task>, ghost a: World)
      requires Valid() && s < |stages| && MayPlan(stages, a, s)
      requires ts == PlannedTasks(stages, a, s) && world.tasks == a.tasks
      modifies this`world, this`history, this`own, this`enqueued
      ensures Valid() && Advanced(strict, old(world), world, multiset{})
      ensures world == old(world).(tasks := WithTasks(a.tasks, ts, |ts|))
      ensures old(history) <= history
      ensures enqueued == old(enqueued)
      ensures own == old(own) + Registers(ts)
    {
      hide Inv, AllAllowed, RunSteps, Woven, Recorded, Advanced, MayPlan, Registrable, PlannedTasks, Registers, Own, Counted;
      NoSteps();
      AdvancedSelf(strict, world);
      var i := 0;
      while i < |ts|
        invariant 0 <= i <= |ts|
        invariant Valid() && Advanced(strict, old(world), world, multiset{})
        invariant world == old(world).(tasks := WithTasks(a.tasks, ts, i))
        invariant own == old(own) + Registers(ts[..i])
        invariant old(history) <= history && enqueued == old(enqueued)
      {
        ghost var before := world;
        PlanRegistrable(stages, a, world, s, i);
        DoQuiet(Register(ts[i]));
        AdvancedQuietly(strict, old(world), before, world);
        RegistersSnoc(ts, i);
        i := i + 1;
      }
      assert ts[..i] == ts;
    }

    /** The books of a stage open. */
    ghost method OpenBooks(bag': multiset<P.Ref>, load': real)
      requires Valid()
      modifies this`bag, this`load, this`skipped, this`skippedLoad
      ensures Valid() && bag == bag' && load == load' && skipped == multiset{} && skippedLoad == 0.0
    {
      hide Inv, AllAllowed, RunSteps, Woven, Recorded, Counted, Own;
      bag, load, skipped, skippedLoad := bag', load', multiset{}, 0.0;
    }

    /** `_plan`: the chunks, their manifest, their tasks. The books open on what the stage was planned over. */
    method Plan(s: nat) returns (ts: seq<Task>)
      requires Valid() && s < |stages| && MayPlan(stages, world, s) && (strict ==> DistinctUpstream(stages, world, s))
      modifies this`world, this`history, this`own, this`enqueued, this`bag, this`load, this`skipped, this`skippedLoad
      ensures Valid() && PlanMade(stages, old(world), world, s) && Advanced(strict, old(world), world, multiset{})
      ensures ts == PlannedTasks(stages, old(world), s) && world.markers == old(world).markers
      ensures Draining(strict, world, s, {}, KeySet(ts), bag, load)
      ensures bag == PlanBag(stages[s], Ups(stages, old(world), s)) && load == P.Weight(Ups(stages, old(world), s))
      ensures skipped == multiset{} && skippedLoad == 0.0
      ensures old(history) <= history
      ensures enqueued == old(enqueued)
      ensures own == old(own) + PlanSteps(stages, old(world), s)
    {
      hide Inv, AllAllowed, RunSteps, Woven, Recorded, Advanced, Draining, MayPlan, Planned, PlannedTasks, Ups, UpstreamChunks;
      hide PlanChunks, TasksFor, ManifestFor, P.Weight, WithTasks, PlanBag, PlanSteps, Registers, KeySet;
      hide Counted, Own, DistinctUpstream;
      var st := stages[s];
      UpstreamThere(stages, world, s);
      var ups := UpstreamChunks(st, if st.input.ReadsStage? then world.manifests[st.input.index] else []);
      PlanOver(stages, world, s, ups, own);
      var chunks := Cut(st, ups);
      DoQuiet(WriteManifest(s, ManifestFor(chunks)));
      ghost var w1 := world;
      ts := TasksFor(s, st, chunks);
      RegisterAll(s, ts, old(world));
      AdvancedQuietly(strict, old(world), w1, world);
      PlanDraining(stages, strict, old(world), world, s);
      OpenBooks(PlanBag(st, ups), P.Weight(ups));
    }

    /** The tasks without a marker, looked up one by one while the workers go on. */
    method LookUp(s: nat, ts: seq<Task>) returns (pending: seq<Task>)
      requires Valid() && Draining(strict, world, s, {}, KeySet(ts), bag, load)
      modifies this`world, this`history, this`script
      ensures Valid() && Draining(strict, world, s, {}, KeySet(pending), bag, load) && During(old(world), world, s)
      ensures pending == Unmarked(ts, old(world).markers)
      ensures world.tasks == old(world).tasks && world.manifests == old(world).manifests
      ensures |script| <= |old(script)| && old(history) <= history
    {
      hide Inv, AllAllowed, RunSteps, Woven, Recorded, Advanced, Draining, During, KeySet, Unmarked;
      pending := [];
      AdvancedSelf(strict, world);
      var i := 0;
      assert pending + ts[i..] == ts && pending + Unmarked(ts[i..], world.markers) == Unmarked(ts, world.markers);
      while i < |ts|
        invariant 0 <= i <= |ts| && Valid() && Advanced(strict, old(world), world, multiset{})
        invariant Draining(strict, world, s, {}, KeySet(pending + ts[i..]), bag, load)
        invariant Unmarked(ts, old(world).markers) == pending + Unmarked(ts[i..], old(world).markers)
        invariant world.tasks == old(world).tasks && world.manifests == old(world).manifests
        invariant |script| <= |old(script)| && old(history) <= history
      {
        ghost var before := world;
        Yield();
        AdvancedQuietly(strict, old(world), before, world);
        StillUnmarked(strict, old(world), world, s, ts, i, bag, load);
        ghost var found := pending;
        if ts[i].key !in world.markers {
          pending := pending + [ts[i]];
        }
        LookedUp(strict, before, world, s, found, pending, ts, i, bag, load);
        UnmarkedStep(found, pending, ts, i, old(world).markers);
        i := i + 1;
      }
      assert pending + ts[i..] == pending && ts[i..] == [];
      UnmarkedNone(old(world).markers);
      DrainYield(strict, old(world), world, s, {}, KeySet(ts), old(bag), old(load));
    }

    /** The smoke test: the heaviest pending chunk alone, before any other is enqueued. */
    method SmokeTest(s: nat, pending: seq<Task>)
      returns (r: Outcome, ghost why: Cause, ghost polls: seq<Polled>, ghost end: Carried)
      requires Valid() && Draining(strict, world, s, {}, KeySet(pending), bag, load) && |pending| > 1
      modifies this`world, this`history, this`own, this`enqueued, this`script, this`answers
      modifies this`bag, this`load, this`skipped, this`skippedLoad
      ensures Valid() && During(old(world), world, s) && HeldBack(world, s, BehindGate(pending)) && s in world.manifests
      ensures r == Done ==> Draining(strict, world, s, {}, BehindGate(pending), bag, load)
      ensures OnlyCame(old(enqueued), enqueued, s, BehindGate(pending))
      ensures strict ==> Balances(world, s, bag, load)
      ensures policy != Remediate ==> world.tasks == old(world).tasks && world.manifests == old(world).manifests
      ensures policy != Remediate ==> enqueued == old(enqueued) + {pending[0].key}
      ensures bag + skipped == old(bag) + old(skipped) && load + skippedLoad == old(load) + old(skippedLoad)
      ensures Light(old(world).tasks, s) ==> skippedLoad >= old(skippedLoad)
      ensures old(history) <= history
      ensures
        var from := Carried({pending[0].key}, maxRemediations, old(own) + Sends([pending[0].key]), old(answers));
        DrainIs(p, start, history, s, policy == Remediate, from, polls, end, why)
      ensures Justified(p, start, history, script, policy == Remediate, r, why)
      ensures policy != Remediate ==> own == old(own) + Sends([pending[0].key])
    {
      hide Inv, AllAllowed, RunSteps, Woven, Recorded, Advanced, During, Draining, HeldBack, Balances, Secured, Fed, PaidFor, Within, Light;
      hide Counted, Own, Justified, DrainIs, Bursts, WorkThen, OnlyCame, After;
      var k := pending[0].key;
      GateKeys(pending);
      BackIsReady(strict, world, s, {}, KeySet(pending), bag, load);
      assert pending[0] in pending && {} + SetOf([k]) == {k};
      assert Sends([k]) == [EnqueueTask(k)];
      YieldEnqueue(k);
      ghost var b := world;
      assert multiset([k]) == multiset{k};
      Sound();
      EnqueuedDraining(strict, old(world), b, s, {}, KeySet(pending), [k], bag, load);
      ghost var rounds;
      r, rounds, why, polls, end := Drain(s, {k}, true, BehindGate(pending));
      CameOne(old(enqueued), k, enqueued, s, BehindGate(pending));
      DuringThen(old(world), b, world, s);
    }

    /** All that is left is enqueued and waited for. */
    method FanOut(s: nat, rest: seq<Task>, ghost back: set<Key>)
      returns (r: Outcome, ghost why: Cause, ghost polls: seq<Polled>, ghost end: Carried)
      requires Valid() && Draining(strict, world, s, {}, back, bag, load) && back <= KeySet(rest)
      requires forall k :: k in KeySet(rest) ==> k.stage == s && Fed(world, k)
      requires strict ==> KeysDistinct(rest) && KeySet(rest) <= back
      modifies this`world, this`history, this`own, this`enqueued, this`script, this`answers
      modifies this`bag, this`load, this`skipped, this`skippedLoad
      ensures Valid() && During(old(world), world, s)
      ensures r == Done ==> Draining(strict, world, s, {}, {}, bag, load)
      ensures r != SmokeFailed && OnlyCame(old(enqueued), enqueued, s, {})
      ensures strict ==> Balances(world, s, bag, load)
      ensures policy != Remediate ==> world.tasks == old(world).tasks && world.manifests == old(world).manifests
      ensures policy != Remediate ==> enqueued == old(enqueued) + KeySet(rest)
      ensures bag + skipped == old(bag) + old(skipped) && load + skippedLoad == old(load) + old(skippedLoad)
      ensures Light(old(world).tasks, s) ==> skippedLoad >= old(skippedLoad)
      ensures old(history) <= history
      ensures var from := Carried(KeySet(rest), maxRemediations, old(own) + Sends(TaskKeys(rest)), old(answers));
        DrainIs(p, start, history, s, policy == Remediate, from, polls, end, why)
      ensures Justified(p, start, history, script, policy == Remediate, r, why)
      ensures policy != Remediate ==> own == old(own) + Sends(TaskKeys(rest))
    {
      hide Inv, AllAllowed, RunSteps, Woven, Recorded, Advanced, During, Draining, HeldBack, Balances, Secured, Fed, PaidFor, Within, Light;
      hide Counted, Own, Justified, DrainIs, Bursts, OnlyCame, After;
      var ks := TaskKeys(rest);
      BackIsReady(strict, world, s, {}, back, bag, load);
      assert {} + SetOf(ks) == SetOf(ks) && back - SetOf(ks) == {};
      assert forall k :: k in ks <==> k in SetOf(ks);
      EnqueueAll(ks);
      ghost var b := world;
      Sound();
      EnqueuedDraining(strict, old(world), b, s, {}, back, ks, bag, load);
      ghost var rounds;
      r, rounds, why, polls, end := Drain(s, SetOf(ks), false, {});
      CameAll(old(enqueued), ks, enqueued, s);
      DuringThen(old(world), b, world, s);
    }

    /** The first chunk alone, then, once everything else the manifest names is finished, the rest. */
    method RunGated(s: nat, pending: seq<Task>) returns (r: Outcome, ghost fanOut: nat, ghost why: Cause)
      requires Valid() && Draining(strict, world, s, {}, KeySet(pending), bag, load)
      requires strict ==> KeysDistinct(pending)
      requires |pending| > 1
      requires NoneOf(enqueued, s)
      modifies this`world, this`history, this`own, this`enqueued, this`script, this`answers
      modifies this`bag, this`load, this`skipped, this`skippedLoad
      ensures Valid() && During(old(world), world, s) && OnlyCame(old(enqueued), enqueued, s, {})
      ensures r == Done ==> Draining(strict, world, s, {}, {}, bag, load)
      ensures strict ==> Balances(world, s, bag, load)
      ensures policy != Remediate ==> world.tasks == old(world).tasks && world.manifests == old(world).manifests
      ensures policy != Remediate ==> enqueued <= old(enqueued) + KeySet(pending)
      ensures policy != Remediate ==> HandedOut(old(own), own, pending, r != Done)
      ensures Gated(p, start, history, fanOut, s, BehindGate(pending)) && (r == SmokeFailed ==> fanOut == |history|)
      ensures Justified(p, start, history, script, policy == Remediate, r, why)
      ensures bag + skipped == old(bag) + old(skipped) && load + skippedLoad == old(load) + old(skippedLoad)
      ensures Light(old(world).tasks, s) ==> skippedLoad >= old(skippedLoad)
      ensures old(history) <= history
    {
      hide Inv, AllAllowed, RunSteps, Woven, Recorded, During, Draining, HeldBack, Balances, Gated, HandedOut, Justified, Own, Sends, DrainIs;
      hide TaskKeys, Fed, Light, Counted, Covered, KeysDistinct;
      GateKeys(pending);
      ghost var back := BehindGate(pending);
      BackIsReady(strict, world, s, {}, KeySet(pending), bag, load);
      ghost var polls, end;
      r, why, polls, end := SmokeTest(s, pending);
      fanOut := |history|;
      var rest := pending[1..];
      BackOfStage(world, s, back);
      AtTheGate(p, start, history, s, old(enqueued), enqueued, back);
      if r != Done {
        GateAlone(old(own), own, pending);
        return;
      }
      DrainCovers(strict, world, s, back, bag, load);
      ghost var b, h := world, history;
      RestFed(old(world), b, s, pending);
      DuringLight(old(world), b, s);
      r, why, polls, end := FanOut(s, rest, back);
      PastTheGate(p, start, b, h, history, s, back);
      DuringThen(old(world), b, world, s);
      HandedBehindGate(old(own), pending, r != Done);
    }

    /** The unfinished chunks of a planned stage, heaviest first: one behind the smoke gate, then the rest. */
    method RunPending(s: nat, pending: seq<Task>) returns (r: Outcome, ghost fanOut: nat, ghost why: Cause)
      requires Valid() && Draining(strict, world, s, {}, KeySet(pending), bag, load)
      requires strict ==> KeysDistinct(pending)
      requires pending != []
      requires NoneOf(enqueued, s)
      modifies this`world, this`history, this`own, this`enqueued, this`script, this`answers
      modifies this`bag, this`load, this`skipped, this`skippedLoad
      ensures Valid() && During(old(world), world, s) && OnlyCame(old(enqueued), enqueued, s, {})
      ensures r == Done ==> Draining(strict, world, s, {}, {}, bag, load)
      ensures strict ==> Balances(world, s, bag, load)
      ensures policy != Remediate ==> world.tasks == old(world).tasks && world.manifests == old(world).manifests
      ensures policy != Remediate ==> enqueued <= old(enqueued) + KeySet(pending)
      ensures policy != Remediate ==> HandedOut(old(own), own, pending, smoke && r != Done)
      ensures smoke && |pending| > 1 ==> Gated(p, start, history, fanOut, s, BehindGate(pending))
      ensures r == SmokeFailed ==> smoke && |pending| > 1 && fanOut == |history|
      ensures Justified(p, start, history, script, policy == Remediate, r, why)
      ensures bag + skipped == old(bag) + old(skipped) && load + skippedLoad == old(load) + old(skippedLoad)
      ensures Light(old(world).tasks, s) ==> skippedLoad >= old(skippedLoad)
      ensures old(history) <= history
    {
      hide Inv, AllAllowed, RunSteps, Woven, Recorded, During, Draining, HeldBack, Balances, Gated, HandedOut, Justified, Own, Sends, DrainIs;
      hide TaskKeys;
      if smoke && |pending| > 1 {
        r, fanOut, why := RunGated(s, pending);
      } else {
        fanOut := |history|;
        BackIsReady(strict, world, s, {}, KeySet(pending), bag, load);
        ghost var polls, end;
        r, why, polls, end := FanOut(s, pending, KeySet(pending));
        AllHanded(old(own), pending);
      }
    }

    /** Plans the stage and finds the chunks to run. `b` is the world once it is planned. */
    method Prepare(s: nat) returns (todo: seq<Task>, ghost b: World)
      requires Valid() && s < |stages| && MayPlan(stages, world, s) && (strict ==> DistinctUpstream(stages, world, s))
      modifies this`world, this`history, this`own, this`enqueued, this`script
      modifies this`bag, this`load, this`skipped, this`skippedLoad
      ensures Valid() && Since(old(world), world, s) && During(b, world, s)
      ensures PlanMade(stages, old(world), b, s) && PlanMade(stages, old(world), world, s)
      ensures todo == Pending(PlannedTasks(stages, old(world), s), old(world).markers) && (strict ==> KeysDistinct(todo))
      ensures Descending(todo)
      ensures Draining(strict, world, s, {}, KeySet(todo), bag, load)
      ensures bag == PlanBag(stages[s], Ups(stages, old(world), s)) && load == P.Weight(Ups(stages, old(world), s))
      ensures skipped == multiset{} && skippedLoad == 0.0
      ensures old(history) <= history
      ensures enqueued == old(enqueued)
      ensures own == old(own) + PlanSteps(stages, old(world), s)
    {
      hide Inv, AllAllowed, RunSteps, Woven, Recorded, Since, OnlyPiecesCame, Draining, MayPlan, Unmarked, PlannedTasks, KeySet, HeaviestFirst;
      hide PlanMade, PlanBag, Ups, KeysDistinct, DistinctUpstream;
      ghost var a := world;
      MayPlanKeys(stages, a, s);
      var ts := Plan(s);
      b := world;
      PlanElsewhere(stages, strict, a, b, s);
      var unmarked := LookUp(s, ts);
      SinceThen(a, b, world, s);
      SamePlan(stages, a, b, world, s);
      PendingKeeps(ts, a.markers);
      todo := HeaviestFirst(unmarked);
    }

    /**
     One stage. When it returns normally every chunk its manifest names is finished: the barrier. Chunks that had a
     marker are not enqueued again.
     */
    method RunStage(s: nat) returns (r: Outcome, ghost pending: seq<Task>, ghost fanOut: nat, ghost why: Cause)
      requires Valid() && s < |stages| && MayPlan(stages, world, s) && NoneOf(enqueued, s)
      requires strict ==> DistinctUpstream(stages, world, s)
      modifies this`world, this`history, this`own, this`enqueued, this`script, this`answers
      modifies this`bag, this`load, this`skipped, this`skippedLoad
      ensures Valid() && Since(old(world), world, s) && OnlyCame(old(enqueued), enqueued, s, {})
      ensures r == Done ==> Complete(world, s) && Named(world.tasks, s, Manifest(world, s))
      ensures r == Done && strict ==> DistinctIds(Manifest(world, s))
      ensures strict ==> Balances(world, s, bag, load)
      ensures bag + skipped == PlanBag(stages[s], Ups(stages, old(world), s))
      ensures load + skippedLoad == P.Weight(Ups(stages, old(world), s))
      ensures OnlyPlanned(world.tasks, s, PlannedTasks(stages, old(world), s))
      ensures P.NonNegative(Ups(stages, old(world), s)) ==> Light(world.tasks, s) && skippedLoad >= 0.0
      ensures policy != Remediate ==> PlanMade(stages, old(world), world, s)
      ensures pending == Pending(PlannedTasks(stages, old(world), s), old(world).markers) && Descending(pending)
      ensures policy != Remediate ==> enqueued <= old(enqueued) + KeySet(pending)
      ensures smoke && |pending| > 1 ==> Gated(p, start, history, fanOut, s, BehindGate(pending))
      ensures r == SmokeFailed ==> smoke && |pending| > 1 && fanOut == |history|
      ensures old(history) <= history
      ensures Justified(p, start, history, script, policy == Remediate, r, why)
      ensures policy != Remediate ==>
        HandedOut(old(own) + PlanSteps(stages, old(world), s), own, pending, smoke && r != Done)
    {
      hide Inv, AllAllowed, RunSteps, Woven, Recorded, Since, Draining, Balances, Gated, MayPlan, Pending, PlannedTasks, Complete, Named;
      hide KeySet, OnlyPiecesCame, Light, OnlyPlanned, P.NonNegative, KeysDistinct, DistinctUpstream, BehindGate;
      ghost var a := world;
      var todo;
      ghost var b;
      todo, b := Prepare(s);
      ghost var c, planned := world, own;
      PlanLight(stages, a, b, s);
      DuringLight(b, c, s);
      pending, fanOut, r, why := todo, |history|, Done, NoCause;
      if todo == [] {
        NoKeys();
        NothingToHand(own, smoke);
      } else {
        r, fanOut, why := RunPending(s, todo);
        DuringThen(b, c, world, s);
        SinceThen(a, c, world, s);
      }
      DuringLight(b, world, s);
      DuringFollowed(stages, a, b, world, s);
      if r == Done {
        Sound();
        DrainedComplete(p, strict, world, s, bag, load);
      }
    }

    // ---- a run -----------------------------------------------------------------------------------

    /** One turn of the stage loop. */
    method NextStage(s: nat, ghost was: set<Key>, ghost skips: seq<multiset<P.Ref>>, ghost loads: seq<real>)
      returns (r: Outcome, ghost why: Cause, ghost sent: nat)
      requires Valid() && Scheduled(stages) && s < |stages|
      requires Underway(stages, policy != Remediate, strict, world, s, enqueued)
      requires strict ==> AllConserved(stages, world, s, skips, loads)
      requires was <= world.markers && (policy != Remediate ==> enqueued !! was)
      modifies this`world, this`history, this`own, this`enqueued, this`script, this`answers
      modifies this`bag, this`load, this`skipped, this`skippedLoad
      ensures Valid() && Later(old(world), world) && old(history) <= history
      ensures r == Done ==> Underway(stages, policy != Remediate, strict, world, s + 1, enqueued)
      ensures r == Done && strict ==> AllConserved(stages, world, s + 1, skips + [skipped], loads + [skippedLoad])
      ensures policy != Remediate ==> enqueued !! was && OnlyStatic(stages, world.tasks)
      ensures policy != Remediate ==>
        sent <= |Unmarked(StaticTasks(stages, s), was)| && ForTasks(Limit(start.queue), sent, old(own), own)
      ensures Justified(p, start, history, script, policy == Remediate, r, why)
    {
      hide Inv, AllAllowed, RunSteps, Woven, Recorded, Underway, OnlyStatic, AllConserved, Conserved, PlanMade, Pending, KeySet;
      hide PlannedTasks, PlanBag, Ups, Balances, Gated, OthersIdle, Complete, MayPlan, Named, OnlyPlanned, Light;
      hide P.NonNegative, DistinctUpstream, DistinctIds, BehindGate;
      ghost var a := world;
      StageMayRun(stages, policy != Remediate, strict, a, s, enqueued);
      ghost var pending, fanOut;
      r, pending, fanOut, why := RunStage(s);
      sent := |pending|;
      if policy != Remediate {
        PlanIsStaticUnder(stages, strict, a, s, old(enqueued));
        PendingFewer(PlannedTasks(stages, a, s), was, a.markers);
        HandedFuel(Limit(start.queue), stages, a, s, old(own), own, pending, smoke && r != Done);
        NotAgain(was, a.markers, old(enqueued), enqueued, PlannedTasks(stages, a, s));
        StageAsPlanned(stages, strict, a, world, s, old(enqueued));
      }
      if r == Done {
        StageWasRun(stages, policy != Remediate, strict, a, world, s, old(enqueued), enqueued);
        if strict {
          StageConserved(stages, a, world, s, bag, load, skipped, skippedLoad);
          StayConserved(stages, a, world, s, skips, loads, skipped, skippedLoad);
        }
      }
    }

    /**
     The stage loop. A normal return leaves every stage complete, with or without the lease discipline, remedies, and
     finished chunks found at the start. Without remedies the stages stand as planned and no chunk that had a marker at the
     start was enqueued. With them, under the discipline, every manifest stands for what its stage was planned over, less
     what was skipped.
     */
    method Run() returns (r: Outcome, ghost skips: seq<multiset<P.Ref>>, ghost loads: seq<real>, ghost why: Cause)
      requires Valid() && Scheduled(stages)
      requires Underway(stages, policy != Remediate, strict, world, 0, enqueued)
      modifies this`world, this`history, this`own, this`enqueued, this`script, this`answers
      modifies this`bag, this`load, this`skipped, this`skippedLoad
      ensures Valid() && Later(old(world), world) && old(history) <= history
      ensures r == Done ==> Underway(stages, policy != Remediate, strict, world, |stages|, enqueued)
      ensures r == Done && strict ==> AllConserved(stages, world, |stages|, skips, loads)
      ensures policy != Remediate ==> enqueued !! old(world).markers && OnlyStatic(stages, world.tasks)
      ensures var seg, limit := After(history, |old(history)|), Limit(start.queue);
        && PaidFor(p, old(world), seg, world, limit, old(own), own)
        && (policy != Remediate ==>
          FewDeliveries(p, old(world), seg, limit, Unfinished(stages, old(world).markers, |stages|)))
      ensures Justified(p, start, history, script, policy == Remediate, r, why)
    {
      hide Inv, AllAllowed, RunSteps, Woven, Recorded, Conserved, OnlyStatic, AsPlanned, Complete, Named, ForTasks, PaidFor, Unfinished;
      hide Counted, DeliveryCount, FewDeliveries, L.Potential, Own, FuelOf, Underway, Unmarked, Justified;
      ghost var limit, was := Limit(start.queue), world.markers;
      skips, loads := [], [];
      NoTasksYet(limit, own);
      NoneUnfinished(stages, was);
      r, why := Done, NoCause;
      NothingFailed(p, start, history, script, policy == Remediate);
      NothingUnderway(stages, policy != Remediate, strict, world, enqueued);
      var i := 0;
      while i < |stages| && r == Done
        invariant 0 <= i <= |stages| && Valid() && Later(old(world), world) && old(history) <= history
        invariant r == Done ==> Underway(stages, policy != Remediate, strict, world, i, enqueued)
        invariant r == Done && strict ==> AllConserved(stages, world, i, skips, loads)
        invariant policy != Remediate ==> enqueued !! was && ForTasks(limit, Unfinished(stages, was, i), old(own), own)
        invariant policy != Remediate ==> OnlyStatic(stages, world.tasks)
        invariant Justified(p, start, history, script, policy == Remediate, r, why)
      {
        ghost var before, mid := world, own;
        ghost var n;
        r, why, n := NextStage(i, was, skips, loads);
        LaterThen(old(world), before, world);
        if policy != Remediate {
          StageFuel(limit, stages, i, was, before.markers, old(own), mid, own, n);
        }
        skips, loads := skips + [skipped], loads + [skippedLoad];
        i := i + 1;
      }
      Spent(old(history));
      if policy != Remediate {
        UnfinishedGrows(stages, was, i, |stages|);
        RunDeliveries(p, old(world), After(history, |old(history)|), world, limit, old(own), own,
                      Unfinished(stages, was, i), Unfinished(stages, was, |stages|));
      }
    }
  }

  /**
   Crash resume. A run of the DAG, with remedies or without, is cut off after the steps `h`, and the DAG is run again, without
   remedies, over what that left in the store. If the first run gave no planned key to another task, as a run without
   remedies never does, and the new run completes, then every chunk holds the files it holds after any other completed run.
   No chunk that had a marker at the restart is enqueued, and the others are delivered, all together, at most as often as
   their number and the redeliveries allow.
   */
  method Resume(
      p: Program, stages: Stages, smoke: bool, policy: Policy, strict: bool, left: World, maxRedeliveries: int,
      script: seq<seq<Step>>, answers: seq<Action>, ghost start: World, ghost h: seq<Step>, ghost other: World)
    returns (c: Controller, r: Outcome, ghost why: Cause)
    requires policy != Remediate && Scheduled(stages)
    requires Inv(p, start) && AllAllowed(p, start, h) && left == RunSteps(p, start, h)
    requires Agree(left.tasks, Registry(stages))
    requires StoreOk(p, other) && RunDone(stages, other)
    ensures fresh(c) && c.Valid() && c.p == Over(p, left) && c.start == Fresh(left, maxRedeliveries)
    ensures c.given == script && Justified(c.p, c.start, c.history, c.script, false, r, why)
    ensures Later(c.start, c.world) && c.enqueued !! left.markers
    ensures DeliveryCount(c.p, c.start, c.history)
      <= Unfinished(stages, left.markers, |stages|) * (Limit(Empty(maxRedeliveries)) + 1)
    ensures r == Done ==> RunDone(stages, c.world)
    ensures r == Done ==> forall k :: k in other.tasks ==> k in c.world.markers && Dir(c.world, k) == Dir(other, k)
  {
    hide RunDone, Underway, OnlyStatic, StoreOk, ChunkOk, QueueOk, AllAllowed, Agree, FewDeliveries, DeliveryCount;
    hide Unfinished, PaidFor, AllConserved, Justified, Counted, Over, RunSteps, Later;
    RunsAreSound(p, start, h);
    FreshSound(p, stages, true, strict, left, maxRedeliveries);
    c := new Controller(Over(p, left), stages, smoke, policy, 0, strict, Fresh(left, maxRedeliveries), script, answers);
    ghost var skips, loads;
    r, skips, loads, why := c.Run();
    DeliveriesFromEmpty(c.p, c.start, c.history, maxRedeliveries, Unfinished(stages, left.markers, |stages|));
    if r == Done {
      UnderwayDone(stages, strict, c.world, c.enqueued);
      c.Sound();
      forall k | k in other.tasks ensures k in c.world.markers && Dir(c.world, k) == Dir(other, k) {
        RestartSame(p, stages, left, c.world, other, k);
      }
    }
  }
}
