/**
 The DAG without queue, workers or schedule: the plan of every stage, a sequential evaluation stage by stage and chunk by
 chunk, and the proof that a completed run holds exactly what that evaluation computes.
 */
module Reference {
  import opened Sequences
  import opened Queue
  import opened Machine
  import opened Soundness
  import opened Tracking
  import opened Planning
  import opened Remediation
  import opened Books
  import Interleave
  import opened Staging
  import P = Partition
  import S = Store

  // ---- the plan of every stage -----------------------------------------------------------------

  /** Stages come after what they read, and a source enumerates distinct chunk ids. */
  ghost predicate Scheduled(stages: Stages) {
    forall s :: 0 <= s < |stages| ==>
      match stages[s].input
      case ReadsNothing => true
      case ReadsSource(chunks) => DistinctChunkIds(chunks)
      case ReadsStage(j) => j < s
  }

  ghost function StaticUps(stages: Stages, s: nat): seq<P.Chunk>
    requires Scheduled(stages) && s < |stages|
    decreases s, 0
  {
    UpstreamChunks(stages[s], if stages[s].input.ReadsStage? then ManifestFor(StaticPlan(stages, stages[s].input.index)) else [])
  }

  /** The chunks of stage `s` when no remedy changes a manifest. */
  ghost function StaticPlan(stages: Stages, s: nat): seq<P.Packed>
    requires Scheduled(stages) && s < |stages|
    decreases s, 1
  {
    PlanChunks(stages[s], StaticUps(stages, s))
  }

  ghost function StaticTasks(stages: Stages, s: nat): seq<Task>
    requires Scheduled(stages) && s < |stages|
  {
    TasksFor(s, stages[s], StaticPlan(stages, s))
  }

  /** Every known task is in the plan of its stage. */
  ghost predicate OnlyStatic(stages: Stages, ts: Tasks)
    requires Scheduled(stages)
  {
    forall k :: k in ts ==> k.stage < |stages| && ts[k].key == k && ts[k] in StaticTasks(stages, k.stage)
  }

  /** Stage `s` stands as planned: its manifest is written and its tasks are known. */
  ghost predicate AsPlanned(stages: Stages, wd: World, s: nat)
    requires Scheduled(stages) && s < |stages|
  {
    && s in wd.manifests && wd.manifests[s] == ManifestFor(StaticPlan(stages, s))
    && KnownAs(wd.tasks, s, stages[s], StaticPlan(stages, s))
  }

  // ---- the run, stage by stage -------------------------------------------------------------------

  /** The first `n` stages are complete, and nothing of the later ones has begun. Under the lease discipline (`strict`) a
      manifest names no chunk twice; without remedies (`fixed`) the stages stand as planned. */
  ghost predicate Underway(stages: Stages, fixed: bool, strict: bool, wd: World, n: nat, enqueued: set<Key>)
    requires Scheduled(stages)
  {
    && n <= |stages|
    && (forall s :: 0 <= s < n ==>
          Complete(wd, s) && Named(wd.tasks, s, Manifest(wd, s)) && (strict ==> DistinctIds(Manifest(wd, s))))
    && (forall k: Key :: k.stage >= n ==> Untouched(wd, k) && k !in wd.tasks)
    && (forall k :: k in enqueued ==> k.stage < n)
    && (fixed ==> OnlyStatic(stages, wd.tasks) && forall s :: 0 <= s < n ==> AsPlanned(stages, wd, s))
  }

  lemma NothingUnderway(stages: Stages, fixed: bool, strict: bool, wd: World, enqueued: set<Key>)
    requires Scheduled(stages) && Underway(stages, fixed, strict, wd, 0, enqueued)
    ensures enqueued == {} && (fixed ==> OnlyStatic(stages, wd.tasks))
  {
  }

  /** Without remedies the plan a stage makes from the stored manifest is the static one. */
  lemma PlanIsStatic(stages: Stages, wd: World, s: nat)
    requires Scheduled(stages) && s < |stages|
    requires stages[s].input.ReadsStage? ==> AsPlanned(stages, wd, stages[s].input.index)
    ensures Ups(stages, wd, s) == StaticUps(stages, s) && Planned(stages, wd, s) == StaticPlan(stages, s)
    ensures PlannedTasks(stages, wd, s) == StaticTasks(stages, s)
  {
  }

  lemma StageMayRun(stages: Stages, fixed: bool, strict: bool, wd: World, s: nat, enqueued: set<Key>)
    requires Scheduled(stages) && s < |stages| && Underway(stages, fixed, strict, wd, s, enqueued)
    ensures MayPlan(stages, wd, s) && (strict ==> DistinctUpstream(stages, wd, s)) && NoneOf(enqueued, s)
  {
  }

  lemma PlanIsStaticUnder(stages: Stages, strict: bool, wd: World, s: nat, enqueued: set<Key>)
    requires Scheduled(stages) && s < |stages| && Underway(stages, true, strict, wd, s, enqueued)
    ensures PlannedTasks(stages, wd, s) == StaticTasks(stages, s)
  {
    PlanIsStatic(stages, wd, s);
  }

  /** What holds after a stage still holds after the next. */
  lemma StaysComplete(a: World, b: World, s: nat, t: nat)
    requires Complete(a, t) && Named(a.tasks, t, Manifest(a, t)) && t != s && Since(a, b, s)
    ensures Complete(b, t) && Manifest(b, t) == Manifest(a, t) && Named(b.tasks, t, Manifest(b, t))
  {
    var es := Manifest(a, t);
    assert Manifest(b, t) == es;
    forall i | 0 <= i < |es| ensures Key(t, es[i].id) in b.tasks && b.tasks[Key(t, es[i].id)].weight == es[i].weight {
      assert Key(t, es[i].id) in a.tasks;
    }
  }

  lemma StaysAsPlanned(stages: Stages, a: World, b: World, s: nat, t: nat)
    requires Scheduled(stages) && t < |stages| && t != s && AsPlanned(stages, a, t) && Since(a, b, s)
    ensures AsPlanned(stages, b, t)
  {
    var cs := StaticPlan(stages, t);
    assert Manifest(b, t) == Manifest(a, t);
    forall i | 0 <= i < |cs| ensures Key(t, cs[i].id) in b.tasks && b.tasks[Key(t, cs[i].id)] == TaskFor(t, stages[t], cs[i]) {
      assert Key(t, cs[i].id) in a.tasks;
    }
  }

  lemma MayPlanAre(stages: Stages, wd: World, s: nat)
    requires s < |stages| && MayPlan(stages, wd, s)
    ensures Consistent(PlannedTasks(stages, wd, s)) && NoneKnown(wd.tasks, s)
    ensures forall i :: 0 <= i < |PlannedTasks(stages, wd, s)| ==> PlannedTasks(stages, wd, s)[i].key.stage == s
  {
    PlannedKeys(stages, wd, s);
  }

  /** A stage that was planned and not remedied stands as planned. */
  lemma StageAsPlanned(stages: Stages, strict: bool, a: World, b: World, s: nat, enqueued: set<Key>)
    requires Scheduled(stages) && s < |stages| && Underway(stages, true, strict, a, s, enqueued) && PlanMade(stages, a, b, s)
    ensures AsPlanned(stages, b, s) && OnlyStatic(stages, b.tasks)
  {
    hide StaticPlan, PlannedTasks, Planned, WithTasks, MayPlan, Complete, Named, Untouched, DistinctIds, Consistent;
    var cs, planned := StaticPlan(stages, s), StaticTasks(stages, s);
    PlanIsStatic(stages, a, s);
    StageMayRun(stages, true, strict, a, s, enqueued);
    MayPlanAre(stages, a, s);
    WithTasksAre(a.tasks, s, planned, |planned|);
    forall i | 0 <= i < |cs| ensures Key(s, cs[i].id) in b.tasks && b.tasks[Key(s, cs[i].id)] == TaskFor(s, stages[s], cs[i]) {
      assert planned[i].key == Key(s, cs[i].id);
    }
    forall k | k in b.tasks ensures k.stage < |stages| && b.tasks[k].key == k && b.tasks[k] in StaticTasks(stages, k.stage) {
      if k.stage != s { assert k in a.tasks && b.tasks[k] == a.tasks[k]; }
    }
  }

  lemma StageWasRun(stages: Stages, fixed: bool, strict: bool, a: World, b: World, s: nat, before: set<Key>, after: set<Key>)
    requires Scheduled(stages) && s < |stages| && Underway(stages, fixed, strict, a, s, before)
    requires Since(a, b, s) && OnlyCame(before, after, s, {}) && Complete(b, s) && Named(b.tasks, s, Manifest(b, s))
    requires (fixed ==> PlanMade(stages, a, b, s)) && (strict ==> DistinctIds(Manifest(b, s)))
    ensures Underway(stages, fixed, strict, b, s + 1, after)
  {
    hide Complete, Named, AsPlanned, OnlyStatic, PlanMade, DistinctIds;
    if fixed {
      StageAsPlanned(stages, strict, a, b, s, before);
    }
    forall t | 0 <= t < s + 1
      ensures Complete(b, t) && Named(b.tasks, t, Manifest(b, t)) && (strict ==> DistinctIds(Manifest(b, t)))
      ensures fixed ==> AsPlanned(stages, b, t)
    {
      if t < s {
        StaysComplete(a, b, s, t);
        if fixed { StaysAsPlanned(stages, a, b, s, t); }
      }
    }
    forall k: Key | k.stage >= s + 1 ensures Untouched(b, k) && k !in b.tasks {
      assert Untouched(a, k);
    }
  }

  /** A chunk that had a marker is not among those to run. */
  lemma PendingUnmarked(ts: seq<Task>, markers: set<Key>)
    ensures KeySet(Pending(ts, markers)) !! markers
  {
    PendingKeeps(ts, markers);
  }

  /** What the manifest of a stage stands for, together with what was skipped, is exactly what the stage was planned over,
      its tasks are the planned ones and pieces of them, and where what it was planned over has no negative weight, neither
      have the stage's tasks and what was skipped. */
  ghost predicate Conserved(stages: Stages, wd: World, s: nat, skipped: multiset<P.Ref>, skippedLoad: real)
    requires s < |stages|
  {
    && Named(wd.tasks, s, Manifest(wd, s)) && DistinctIds(Manifest(wd, s))
    && Bag(wd.tasks, s, Manifest(wd, s)) + skipped == PlanBag(stages[s], Ups(stages, wd, s))
    && Load(Manifest(wd, s)) + skippedLoad == P.Weight(Ups(stages, wd, s))
    && OnlyPlanned(wd.tasks, s, PlannedTasks(stages, wd, s))
    && (P.NonNegative(Ups(stages, wd, s)) ==> Light(wd.tasks, s) && skippedLoad >= 0.0)
  }

  lemma SameUps(stages: Stages, a: World, b: World, s: nat, t: nat)
    requires t < |stages| && Since(a, b, s) && (stages[t].input.ReadsStage? ==> stages[t].input.index != s)
    ensures Ups(stages, b, t) == Ups(stages, a, t)
  {
  }

  lemma StaysConserved(stages: Stages, a: World, b: World, s: nat, t: nat, skipped: multiset<P.Ref>, skippedLoad: real)
    requires t < |stages| && t != s && Since(a, b, s) && (stages[t].input.ReadsStage? ==> stages[t].input.index != s)
    requires Conserved(stages, a, t, skipped, skippedLoad)
    ensures Conserved(stages, b, t, skipped, skippedLoad)
  {
    hide OnlyPlanned, Light, PlanBag, Ups;
    SameUps(stages, a, b, s, t);
    assert Manifest(b, t) == Manifest(a, t);
    BagStable(a.tasks, b.tasks, t, Manifest(a, t));
    TasksElsewhere(a, b, s, t, PlannedTasks(stages, a, t));
  }

  lemma TasksElsewhere(a: World, b: World, s: nat, t: nat, planned: seq<Task>)
    requires t != s && Since(a, b, s)
    ensures OnlyPlanned(a.tasks, t, planned) ==> OnlyPlanned(b.tasks, t, planned)
    ensures Light(a.tasks, t) ==> Light(b.tasks, t)
  {
    hide IsPiece;
    assert forall k :: k in b.tasks && k.stage == t ==> k in a.tasks && b.tasks[k] == a.tasks[k];
  }

  lemma StageConserved(
      stages: Stages, a: World, b: World, s: nat, bag: multiset<P.Ref>, load: real, skipped: multiset<P.Ref>, skippedLoad: real)
    requires Scheduled(stages) && s < |stages| && Since(a, b, s) && Balances(b, s, bag, load)
    requires bag + skipped == PlanBag(stages[s], Ups(stages, a, s)) && load + skippedLoad == P.Weight(Ups(stages, a, s))
    requires OnlyPlanned(b.tasks, s, PlannedTasks(stages, a, s))
    requires P.NonNegative(Ups(stages, a, s)) ==> Light(b.tasks, s) && skippedLoad >= 0.0
    ensures Conserved(stages, b, s, skipped, skippedLoad)
  {
    hide OnlyPlanned, Light, PlanBag, Ups, PiecesFresh, NoPieces, PlanChunks, Since, P.Weight, P.NonNegative;
    SameUps(stages, a, b, s, s);
  }

  /** Every stage before `n` is conserved. */
  ghost predicate AllConserved(stages: Stages, wd: World, n: nat, skips: seq<multiset<P.Ref>>, loads: seq<real>)
    requires n <= |stages|
  {
    |skips| == |loads| == n && forall s :: 0 <= s < n ==> Conserved(stages, wd, s, skips[s], loads[s])
  }

  lemma StayConserved(
      stages: Stages, a: World, b: World, s: nat, skips: seq<multiset<P.Ref>>, loads: seq<real>,
      skipped: multiset<P.Ref>, skippedLoad: real)
    requires Scheduled(stages) && s < |stages| && Since(a, b, s)
    requires AllConserved(stages, a, s, skips, loads) && Conserved(stages, b, s, skipped, skippedLoad)
    ensures AllConserved(stages, b, s + 1, skips + [skipped], loads + [skippedLoad])
  {
    hide Conserved, Since;
    forall t | 0 <= t < s ensures Conserved(stages, b, t, skips[t], loads[t]) {
      StaysConserved(stages, a, b, s, t, skips[t], loads[t]);
    }
  }

  /** Chunks that were finished at the start are not enqueued by one more stage either. */
  lemma NotAgain(was: set<Key>, now: set<Key>, before: set<Key>, after: set<Key>, ts: seq<Task>)
    requires was <= now && before !! was && after <= before + KeySet(Pending(ts, now))
    ensures after !! was
  {
    PendingUnmarked(ts, now);
  }

  // ---- what a completed run holds ------------------------------------------------------------------

  /** Every stage stands as planned and is complete; nothing else is known. */
  ghost predicate RunDone(stages: Stages, wd: World)
    requires Scheduled(stages)
  {
    OnlyStatic(stages, wd.tasks) && forall s :: 0 <= s < |stages| ==> AsPlanned(stages, wd, s) && Complete(wd, s)
  }

  lemma UnderwayDone(stages: Stages, strict: bool, wd: World, enqueued: set<Key>)
    requires Scheduled(stages) && Underway(stages, true, strict, wd, |stages|, enqueued)
    ensures RunDone(stages, wd)
  {
  }

  /** The plan fixes the tasks. */
  lemma TasksDetermined(stages: Stages, a: World, b: World)
    requires Scheduled(stages) && RunDone(stages, a) && RunDone(stages, b)
    ensures a.tasks == b.tasks
  {
    forall k | k in a.tasks ensures k in b.tasks && b.tasks[k] == a.tasks[k] { TaskKnownToBoth(stages, a, b, k); }
    forall k | k in b.tasks ensures k in a.tasks { TaskKnownToBoth(stages, b, a, k); }
  }

  lemma TaskKnownToBoth(stages: Stages, a: World, b: World, k: Key)
    requires Scheduled(stages) && RunDone(stages, a) && RunDone(stages, b) && k in a.tasks
    ensures k in b.tasks && b.tasks[k] == a.tasks[k]
  {
    var i := StaticIndex(stages, a.tasks, k);
    assert AsPlanned(stages, b, k.stage);
  }

  lemma StaticIndex(stages: Stages, ts: Tasks, k: Key) returns (i: nat)
    requires Scheduled(stages) && OnlyStatic(stages, ts) && k in ts
    ensures k.stage < |stages| && i < |StaticPlan(stages, k.stage)|
    ensures k == Key(k.stage, StaticPlan(stages, k.stage)[i].id)
    ensures ts[k] == TaskFor(k.stage, stages[k.stage], StaticPlan(stages, k.stage)[i])
  {
    i :| 0 <= i < |StaticTasks(stages, k.stage)| && StaticTasks(stages, k.stage)[i] == ts[k];
  }

  /**
   Schedule independence: any two completed runs without remedies over the same store, whatever their workers,
   interleavings, failures and crashes, hold the same finished chunks with the same files.
   */
  lemma SameOutputs(p: Program, stages: Stages, a: World, b: World, k: Key)
    requires Scheduled(stages) && StoreOk(p, a) && StoreOk(p, b) && RunDone(stages, a) && RunDone(stages, b)
    ensures k in a.tasks <==> k in b.tasks
    ensures k in a.tasks ==> k in a.markers && k in b.markers && Dir(a, k) == Dir(b, k)
  {
    TasksDetermined(stages, a, b);
    if k in a.tasks {
      PlannedMarked(stages, a, k);
      PlannedMarked(stages, b, k);
      MarkedChunk(p, a, k);
      MarkedChunk(p, b, k);
    }
  }

  lemma PlannedMarked(stages: Stages, wd: World, k: Key)
    requires Scheduled(stages) && RunDone(stages, wd) && k in wd.tasks
    ensures k in wd.markers
  {
    var i := StaticIndex(stages, wd.tasks, k);
    assert AsPlanned(stages, wd, k.stage) && Complete(wd, k.stage);
    assert Manifest(wd, k.stage)[i] in Manifest(wd, k.stage);
  }

  // ---- the sequential evaluation ---------------------------------------------------------------------

  /** The records each chunk has produced. */
  type Data = map<Key, seq<Record>>

  ghost function FetchOne(st: StageSpec, m: P.Ref, data: Data): seq<Record> {
    match st.input
    case ReadsNothing => []
    case ReadsSource(_) => m.params
    case ReadsStage(j) => if Key(j, m.id) in data then data[Key(j, m.id)] else []
  }

  ghost function Gather(st: StageSpec, ms: seq<P.Ref>, data: Data): seq<Record> {
    if ms == [] then [] else Gather(st, ms[..|ms| - 1], data) + FetchOne(st, ms[|ms| - 1], data)
  }

  /** The first `n` chunks of a stage, one at a time. */
  ghost function RunChunks(p: Program, st: StageSpec, s: nat, cs: seq<P.Packed>, n: nat, data: Data): Data
    requires n <= |cs|
  {
    if n == 0 then data else
    var before := RunChunks(p, st, s, cs, n - 1, data);
    before[Key(s, cs[n - 1].id) := p.run(s, Gather(st, if st.input.ReadsNothing? then [] else cs[n - 1].members, before))]
  }

  /** The first `n` stages, one after the other. Records go from chunk to chunk: no store, no parts, no tasks. */
  ghost function Sequential(p: Program, stages: Stages, n: nat): Data
    requires Scheduled(stages) && n <= |stages|
  {
    if n == 0 then map[] else
    var cs := StaticPlan(stages, n - 1);
    RunChunks(p, stages[n - 1], n - 1, cs, |cs|, Sequential(p, stages, n - 1))
  }

  lemma {:induction false} RunChunksFrame(p: Program, st: StageSpec, s: nat, cs: seq<P.Packed>, n: nat, data: Data, k: Key)
    requires n <= |cs| && k.stage != s
    ensures var r := RunChunks(p, st, s, cs, n, data); (k in r <==> k in data) && (k in data ==> r[k] == data[k])
  {
    if n > 0 { RunChunksFrame(p, st, s, cs, n - 1, data, k); }
  }

  /** Later stages do not touch what earlier ones produced. */
  lemma {:induction false} SequentialGrows(p: Program, stages: Stages, m: nat, n: nat, k: Key)
    requires Scheduled(stages) && m <= n <= |stages| && k.stage < m && k in Sequential(p, stages, m)
    ensures k in Sequential(p, stages, n) && Sequential(p, stages, n)[k] == Sequential(p, stages, m)[k]
  {
    hide StaticPlan, RunChunks;
    if m < n {
      SequentialGrows(p, stages, m, n - 1, k);
      var cs := StaticPlan(stages, n - 1);
      RunChunksFrame(p, stages[n - 1], n - 1, cs, |cs|, Sequential(p, stages, n - 1), k);
    }
  }

  /** No chunk makes more parts than their five digits can number in order. */
  ghost predicate Fits(p: Program, data: Data) {
    forall k :: k in data ==> |S.Blocks(data[k], Cap(p, k.stage))| <= 100000
  }

  /** The run started over an empty store. */
  ghost predicate CleanStart(p: Program) { p.found == map[] && p.cached == {} }

  lemma HeldAtCleanStart(p: Program, ts: Tasks, k: Key)
    requires CleanStart(p) && WellFormed(ts) && k in ts
    ensures Held(p, ts, k) == DirOf(p.format, Parts(p, ts, k), |Parts(p, ts, k)|)
  {
    hide DirOf, Parts;
  }

  /** Up to that many parts, what is read back is what was written. */
  lemma ReadbackIs(p: Program, out: seq<Record>, cap: nat)
    requires cap >= 1 && |S.Blocks(out, cap)| <= 100000
    ensures S.ReadAll(DirOf(p.format, S.Blocks(out, cap), |S.Blocks(out, cap)|), "/") == out
  {
    var parts := S.Blocks(out, cap);
    var dir := DirOf(p.format, parts, |parts|);
    forall i | 0 <= i < |parts| ensures S.PartKey("", i, p.format) in dir && dir[S.PartKey("", i, p.format)] == parts[i] {
      DirAt(p.format, parts, |parts|, i);
    }
    forall k | k in dir ensures k in S.PartKeys("", |parts|, p.format) {
      DirNames(p.format, parts, |parts|, k);
      var i :| 0 <= i < |parts| && k == S.PartKey("", i, p.format);
      assert S.PartKeys("", |parts|, p.format)[i] == k;
    }
    S.OutputRoundTrip(map[], dir, "", p.format, out, cap);
    assert "" + "/" == "/";
  }

  /** The known tasks are exactly the planned ones. */
  ghost predicate TasksAsPlanned(stages: Stages, ts: Tasks)
    requires Scheduled(stages)
  {
    && WellFormed(ts) && OnlyStatic(stages, ts)
    && forall s :: 0 <= s < |stages| ==> KnownAs(ts, s, stages[s], StaticPlan(stages, s))
  }

  /** The evaluation agrees with the tasks' outputs on the stages before `s` ... */
  ghost predicate Agrees(p: Program, ts: Tasks, data: Data, s: nat)
    requires WellFormed(ts)
  {
    forall k :: k in ts && k.stage < s ==> k in data && data[k] == Output(p, ts, k)
  }

  /** No chunk before stage `s` makes more parts than can be numbered in order. */
  ghost predicate Small(p: Program, ts: Tasks, s: nat)
    requires WellFormed(ts)
  {
    forall k :: k in ts && k.stage < s ==> |Parts(p, ts, k)| <= 100000
  }

  /** ... and on the first `n` chunks of stage `s`. */
  ghost predicate AgreesOn(p: Program, ts: Tasks, data: Data, s: nat, cs: seq<P.Packed>, n: nat)
    requires WellFormed(ts) && n <= |cs|
  {
    forall i :: 0 <= i < n ==>
      var k := Key(s, cs[i].id); k in ts && k in data && data[k] == Output(p, ts, k)
  }

  lemma {:induction false} GatherIs(p: Program, stages: Stages, ts: Tasks, data: Data, k: Key, n: nat)
    requires Scheduled(stages) && TasksAsPlanned(stages, ts) && k in ts && n <= |ts[k].members|
    requires CleanStart(p) && Agrees(p, ts, data, k.stage) && Small(p, ts, k.stage)
    ensures k.stage < |stages| && Gather(stages[k.stage], ts[k].members[..n], data) == InputUpTo(p, ts, k, n)
  {
    hide StaticPlan, StaticUps, DirOf, KnownAs, Output;
    var i := StaticIndex(stages, ts, k);
    if n > 0 {
      GatherIs(p, stages, ts, data, k, n - 1);
      var ms := ts[k].members[..n];
      assert ms[..n - 1] == ts[k].members[..n - 1] && ms[n - 1] == ts[k].members[n - 1];
      if ts[k].up.FromStage? {
        var mk := MemberKey(ts[k], ts[k].members[n - 1]);
        assert ReadsEarlier(ts, ts[k]);
        HeldAtCleanStart(p, ts, mk);
        ReadbackIs(p, Output(p, ts, mk), Cap(p, mk.stage));
      }
    }
  }

  lemma ChunkAgrees(p: Program, stages: Stages, ts: Tasks, data: Data, s: nat, n: nat)
    requires Scheduled(stages) && TasksAsPlanned(stages, ts) && s < |stages| && n < |StaticPlan(stages, s)|
    requires CleanStart(p) && Agrees(p, ts, data, s) && Small(p, ts, s)
    ensures var st, c := stages[s], StaticPlan(stages, s)[n];
      var k := Key(s, c.id);
      k in ts && p.run(s, Gather(st, if st.input.ReadsNothing? then [] else c.members, data)) == Output(p, ts, k)
  {
    var st, c := stages[s], StaticPlan(stages, s)[n];
    var k := Key(s, c.id);
    assert KnownAs(ts, s, st, StaticPlan(stages, s));
    assert ts[k] == TaskFor(s, st, c);
    GatherIs(p, stages, ts, data, k, |ts[k].members|);
    assert ts[k].members[..|ts[k].members|] == ts[k].members;
  }

  /** One more chunk of stage `s`. */
  lemma AgreesSnoc(p: Program, ts: Tasks, data: Data, s: nat, cs: seq<P.Packed>, n: nat, out: seq<Record>)
    requires WellFormed(ts) && n < |cs| && Agrees(p, ts, data, s) && AgreesOn(p, ts, data, s, cs, n)
    requires Key(s, cs[n].id) in ts && out == Output(p, ts, Key(s, cs[n].id))
    ensures Agrees(p, ts, data[Key(s, cs[n].id) := out], s)
    ensures AgreesOn(p, ts, data[Key(s, cs[n].id) := out], s, cs, n + 1)
  {
    hide Output;
  }

  lemma {:induction false} StageAgrees(p: Program, stages: Stages, ts: Tasks, data: Data, s: nat, cs: seq<P.Packed>, n: nat)
    requires Scheduled(stages) && TasksAsPlanned(stages, ts) && s < |stages| && cs == StaticPlan(stages, s) && n <= |cs|
    requires CleanStart(p) && Agrees(p, ts, data, s) && Small(p, ts, s)
    ensures Agrees(p, ts, RunChunks(p, stages[s], s, cs, n, data), s)
    ensures AgreesOn(p, ts, RunChunks(p, stages[s], s, cs, n, data), s, cs, n)
  {
    hide Output, Agrees, StaticPlan, Small, OnlyStatic, KnownAs, Gather;
    if n > 0 {
      hide AgreesOn;
      var st := stages[s];
      var before := RunChunks(p, st, s, cs, n - 1, data);
      StageAgrees(p, stages, ts, data, s, cs, n - 1);
      ChunkAgrees(p, stages, ts, before, s, n - 1);
      var input := Gather(st, if st.input.ReadsNothing? then [] else cs[n - 1].members, before);
      AgreesSnoc(p, ts, before, s, cs, n - 1, p.run(s, input));
    }
  }

  /** All chunks of a stage are its known tasks. */
  lemma WholeStage(p: Program, stages: Stages, ts: Tasks, data: Data, s: nat, cs: seq<P.Packed>)
    requires Scheduled(stages) && TasksAsPlanned(stages, ts) && s < |stages| && cs == StaticPlan(stages, s)
    requires Agrees(p, ts, data, s) && AgreesOn(p, ts, data, s, cs, |cs|)
    ensures Agrees(p, ts, data, s + 1)
  {
    hide Output, StaticPlan, KnownAs;
    forall k | k in ts && k.stage < s + 1 ensures k in data && data[k] == Output(p, ts, k) {
      if k.stage == s {
        var i := StaticIndex(stages, ts, k);
      }
    }
  }

  lemma SmallSoFar(p: Program, stages: Stages, ts: Tasks, n: nat)
    requires Scheduled(stages) && WellFormed(ts) && n <= |stages| && Fits(p, Sequential(p, stages, |stages|))
    requires Agrees(p, ts, Sequential(p, stages, n), n)
    ensures Small(p, ts, n)
  {
    hide Output, Sequential;
    forall k | k in ts && k.stage < n ensures |Parts(p, ts, k)| <= 100000 {
      SequentialGrows(p, stages, n, |stages|, k);
    }
  }

  /** The sequential evaluation computes what the tasks' outputs are. */
  lemma {:induction false} SequentialAgrees(p: Program, stages: Stages, ts: Tasks, n: nat)
    requires Scheduled(stages) && TasksAsPlanned(stages, ts) && n <= |stages| && CleanStart(p)
    requires Fits(p, Sequential(p, stages, |stages|))
    ensures Agrees(p, ts, Sequential(p, stages, n), n)
    ensures Small(p, ts, n)
  {
    hide Agrees, AgreesOn, StaticPlan, OnlyStatic, KnownAs, RunChunks, Small, Fits;
    if n == 0 {
      AgreesAtFirst(p, ts, Sequential(p, stages, n));
    } else {
      SequentialAgrees(p, stages, ts, n - 1);
      var cs := StaticPlan(stages, n - 1);
      StageAgrees(p, stages, ts, Sequential(p, stages, n - 1), n - 1, cs, |cs|);
      WholeStage(p, stages, ts, Sequential(p, stages, n), n - 1, cs);
      SmallSoFar(p, stages, ts, n);
    }
  }

  lemma AgreesAtFirst(p: Program, ts: Tasks, data: Data)
    requires WellFormed(ts)
    ensures Agrees(p, ts, data, 0) && Small(p, ts, 0)
  {
  }

  /** The parts the sequential evaluation gives a planned chunk are those its clean execution puts, and reading those gives
      the evaluation's records. */
  lemma SequentialParts(p: Program, stages: Stages, wd: World, s: nat, i: nat)
    requires Scheduled(stages) && CleanStart(p) && WellFormed(wd.tasks) && RunDone(stages, wd)
    requires Fits(p, Sequential(p, stages, |stages|))
    requires s < |stages| && i < |StaticPlan(stages, s)|
    ensures var k, data := Key(s, StaticPlan(stages, s)[i].id), Sequential(p, stages, |stages|);
      && k in wd.tasks && k in data && k in wd.markers && Parts(p, wd.tasks, k) == S.Blocks(data[k], Cap(p, s))
      && S.ReadAll(Held(p, wd.tasks, k), "/") == data[k]
  {
    var k := Key(s, StaticPlan(stages, s)[i].id);
    assert AsPlanned(stages, wd, s);
    assert TasksAsPlanned(stages, wd.tasks) by {
      forall t | 0 <= t < |stages| ensures KnownAs(wd.tasks, t, stages[t], StaticPlan(stages, t)) {
        assert AsPlanned(stages, wd, t);
      }
    }
    SequentialAgrees(p, stages, wd.tasks, |stages|);
    assert k in wd.tasks;
    PlannedMarked(stages, wd, k);
    HeldAtCleanStart(p, wd.tasks, k);
    ReadbackIs(p, Output(p, wd.tasks, k), Cap(p, s));
  }

  // ---- parts of a run -------------------------------------------------------------------------------

  lemma {:induction false} PrefixAllowed(p: Program, wd: World, steps: seq<Step>, n: nat)
    requires Inv(p, wd) && AllAllowed(p, wd, steps) && n <= |steps|
    ensures AllAllowed(p, wd, steps[..n]) && Later(RunSteps(p, wd, steps[..n]), RunSteps(p, wd, steps))
    decreases |steps|
  {
    if n == 0 {
      AllLater(p, wd, steps);
    } else {
      StepOk(p, wd, steps[0]);
      PrefixAllowed(p, Apply(p, wd, steps[0]), steps[1..], n - 1);
      assert steps[..n][0] == steps[0] && steps[..n][1..] == steps[1..][..n - 1];
    }
  }

  lemma {:induction false} AllLater(p: Program, wd: World, steps: seq<Step>)
    requires Inv(p, wd) && AllAllowed(p, wd, steps)
    ensures Later(wd, RunSteps(p, wd, steps))
    decreases |steps|
  {
    if steps != [] {
      StepOk(p, wd, steps[0]);
      StepLater(p, wd, steps[0]);
      AllLater(p, Apply(p, wd, steps[0]), steps[1..]);
      Interleave.LaterThen(wd, Apply(p, wd, steps[0]), RunSteps(p, wd, steps));
    }
  }
}
