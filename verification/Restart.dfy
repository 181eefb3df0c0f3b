/**
 Starting again over what an earlier run left in the store. A new process makes its tasks afresh, and takes every marker
 it finds for the work of the task that has the key now. Here is exactly when that is right.
 */
module Restart {
  import opened Sequences
  import opened Queue
  import opened Machine
  import opened Soundness
  import opened Tracking
  import opened Planning
  import opened Progress
  import opened Books
  import Interleave
  import opened Staging
  import opened Reference
  import P = Partition
  import S = Store

  // ---- a new process ------------------------------------------------------------------------

  /** The same program, started over the store as it is now. */
  function Over(p: Program, wd: World): Program { p.(found := wd.dirs, cached := wd.markers) }

  /** What a new process sees: the store as it was, an empty queue, no workers, no task objects. */
  function Fresh(wd: World, maxRedeliveries: int): World {
    World(map[], Empty(maxRedeliveries), wd.dirs, wd.markers, wd.manifests, map[], map[])
  }

  /** A run may begin over any store, whatever state of whatever run left it. */
  lemma FreshSound(p: Program, stages: Stages, fixed: bool, strict: bool, wd: World, maxRedeliveries: int)
    requires Scheduled(stages)
    ensures Inv(Over(p, wd), Fresh(wd, maxRedeliveries))
    ensures Underway(stages, fixed, strict, Fresh(wd, maxRedeliveries), 0, {}) && Counted(Fresh(wd, maxRedeliveries))
  {
  }

  // ---- the tasks of a run without remedies ----------------------------------------------------

  ghost function RegistryTo(stages: Stages, n: nat): Tasks
    requires Scheduled(stages) && n <= |stages|
  {
    if n == 0 then map[] else
    WithTasks(RegistryTo(stages, n - 1), StaticTasks(stages, n - 1), |StaticTasks(stages, n - 1)|)
  }

  /** Every planned task, by its key. */
  ghost function Registry(stages: Stages): Tasks
    requires Scheduled(stages)
  {
    RegistryTo(stages, |stages|)
  }

  lemma StaticConsistent(stages: Stages, s: nat)
    requires Scheduled(stages) && s < |stages|
    ensures DistinctIds(ManifestFor(StaticPlan(stages, s))) && Consistent(StaticTasks(stages, s))
    ensures forall i :: 0 <= i < |StaticTasks(stages, s)| ==> StaticTasks(stages, s)[i].key.stage == s
    decreases s
  {
    var ups, cs := StaticUps(stages, s), StaticPlan(stages, s);
    if stages[s].input.ReadsStage? {
      StaticConsistent(stages, stages[s].input.index);
    }
    assert DistinctChunkIds(ups);
    PlanIdsDistinct(stages[s], ups);
    forall i, j | 0 <= i < j < |cs| ensures StaticTasks(stages, s)[i].key != StaticTasks(stages, s)[j].key {
      assert ManifestFor(cs)[i].id != ManifestFor(cs)[j].id;
    }
  }

  lemma {:induction false} RegistryIs(stages: Stages, n: nat)
    requires Scheduled(stages) && n <= |stages|
    ensures var ts := RegistryTo(stages, n);
      && OnlyStatic(stages, ts) && (forall k :: k in ts ==> k.stage < n)
      && forall s :: 0 <= s < n ==> KnownAs(ts, s, stages[s], StaticPlan(stages, s))
  {
    hide StaticPlan, WithTasks;
    if n > 0 {
      RegistryIs(stages, n - 1);
      StaticConsistent(stages, n - 1);
      var was, ts, planned := RegistryTo(stages, n - 1), RegistryTo(stages, n), StaticTasks(stages, n - 1);
      WithTasksAre(was, n - 1, planned, |planned|);
      forall s | 0 <= s < n ensures KnownAs(ts, s, stages[s], StaticPlan(stages, s)) {
        var cs := StaticPlan(stages, s);
        forall i | 0 <= i < |cs| ensures Key(s, cs[i].id) in ts && ts[Key(s, cs[i].id)] == TaskFor(s, stages[s], cs[i]) {
          if s < n - 1 {
            assert KnownAs(was, s, stages[s], cs);
          } else {
            assert planned[i].key == Key(s, cs[i].id);
          }
        }
      }
    }
  }

  lemma RegistryReads(stages: Stages, k: Key)
    requires Scheduled(stages) && k in Registry(stages)
    ensures Registry(stages)[k].key == k && ReadsEarlier(Registry(stages), Registry(stages)[k])
  {
    var ts := Registry(stages);
    RegistryIs(stages, |stages|);
    var i := StaticIndex(stages, ts, k);
    var s, t := k.stage, ts[k];
    if t.up.FromStage? {
      var j := stages[s].input.index;
      forall m | 0 <= m < |t.members| ensures MemberKey(t, t.members[m]) in ts {
        MembersAreUpstream(stages[s], StaticUps(stages, s), i, m);
        var u :| 0 <= u < |StaticUps(stages, s)| && t.members[m] == P.ToRef(StaticUps(stages, s)[u]);
        assert KnownAs(ts, j, stages[j], StaticPlan(stages, j));
        assert Key(j, StaticPlan(stages, j)[u].id) in ts;
      }
    }
  }

  lemma RegistryWellFormed(stages: Stages)
    requires Scheduled(stages)
    ensures WellFormed(Registry(stages))
  {
    forall k | k in Registry(stages)
      ensures Registry(stages)[k].key == k && ReadsEarlier(Registry(stages), Registry(stages)[k])
    {
      RegistryReads(stages, k);
    }
  }

  /** A completed run without remedies knows exactly these tasks. */
  lemma DoneKnowsRegistry(stages: Stages, wd: World)
    requires Scheduled(stages) && RunDone(stages, wd)
    ensures wd.tasks == Registry(stages)
  {
    var ts := Registry(stages);
    RegistryIs(stages, |stages|);
    forall k | k in wd.tasks ensures k in ts && ts[k] == wd.tasks[k] {
      var i := StaticIndex(stages, wd.tasks, k);
      assert KnownAs(ts, k.stage, stages[k.stage], StaticPlan(stages, k.stage));
      assert Key(k.stage, StaticPlan(stages, k.stage)[i].id) in ts;
    }
    forall k | k in ts ensures k in wd.tasks {
      var i := StaticIndex(stages, ts, k);
      assert AsPlanned(stages, wd, k.stage);
      assert Key(k.stage, StaticPlan(stages, k.stage)[i].id) in wd.tasks;
    }
  }

  // ---- when what was found fits --------------------------------------------------------------------

  /** The same program over an empty store. */
  function Clean(p: Program): Program { p.(found := map[], cached := {}) }

  /** What was found under the chunk suits the task that has its key: all its files if there is a marker, and otherwise no
      file that the task does not write itself. */
  ghost predicate Suits(p: Program, ts: Tasks, k: Key)
    requires WellFormed(ts) && k in ts
  {
    var clean := Held(Clean(p), ts, k);
    if k in p.cached then Found(p, k) == clean else Found(p, k).Keys <= clean.Keys
  }

  /** What was found suits every planned task. This speaks of the stages and the store alone. */
  ghost predicate FoundFits(p: Program, stages: Stages)
    requires Scheduled(stages)
  {
    WellFormed(Registry(stages)) && forall k :: k in Registry(stages) ==> Suits(p, Registry(stages), k)
  }

  lemma {:induction false} HeldIsClean(p: Program, ts: Tasks, k: Key)
    requires WellFormed(ts) && k in ts && forall j :: j in ts ==> Suits(p, ts, j)
    ensures Output(p, ts, k) == Output(Clean(p), ts, k) && Held(p, ts, k) == Held(Clean(p), ts, k)
    decreases k.stage, 1, 0
  {
    InputIsClean(p, ts, k, |ts[k].members|);
    assert Suits(p, ts, k);
    HeldAtCleanStart(Clean(p), ts, k);
    var clean := Held(Clean(p), ts, k);
    if k !in p.cached {
      PlusAll(Found(p, k), clean);
    }
  }

  lemma {:induction false} InputIsClean(p: Program, ts: Tasks, k: Key, n: nat)
    requires WellFormed(ts) && k in ts && n <= |ts[k].members| && forall j :: j in ts ==> Suits(p, ts, j)
    ensures InputUpTo(p, ts, k, n) == InputUpTo(Clean(p), ts, k, n)
    decreases k.stage, 0, n
  {
    hide Held, Output, Suits, S.ReadAll;
    if n > 0 {
      InputIsClean(p, ts, k, n - 1);
      if ts[k].up.FromStage? {
        assert ReadsEarlier(ts, ts[k]);
        HeldIsClean(p, ts, MemberKey(ts[k], ts[k].members[n - 1]));
      }
    }
  }

  lemma PlusAll<K, V>(a: map<K, V>, b: map<K, V>)
    requires a.Keys <= b.Keys
    ensures a + b == b
  {
  }

  /**
   A run over any store, marked chunks and stray files and all, ends with every planned chunk as a run over an empty store
   would leave it, exactly when what it found fits.
   */
  lemma CleanIff(p: Program, stages: Stages, wd: World)
    requires Scheduled(stages) && StoreOk(p, wd) && RunDone(stages, wd)
    ensures (forall k :: k in wd.tasks ==> Dir(wd, k) == Held(Clean(p), wd.tasks, k)) <==> FoundFits(p, stages)
  {
    hide Suits, Held, RunDone, ChunkOk;
    var ts := wd.tasks;
    DoneKnowsRegistry(stages, wd);
    forall k | k in ts ensures Dir(wd, k) == Held(p, ts, k) {
      PlannedMarked(stages, wd, k);
      MarkedChunk(p, wd, k);
    }
    if FoundFits(p, stages) {
      forall k | k in ts ensures Dir(wd, k) == Held(Clean(p), ts, k) { HeldIsClean(p, ts, k); }
    }
    if forall k :: k in ts ==> Dir(wd, k) == Held(Clean(p), ts, k) {
      forall k | k in ts ensures Suits(p, ts, k) { SuitsIfClean(p, ts, k); }
    }
  }

  lemma SuitsIfClean(p: Program, ts: Tasks, k: Key)
    requires WellFormed(ts) && k in ts && Held(p, ts, k) == Held(Clean(p), ts, k)
    ensures Suits(p, ts, k)
  {
  }

  /** An empty store fits. */
  lemma EmptyFits(p: Program, stages: Stages)
    requires Scheduled(stages) && CleanStart(p)
    ensures FoundFits(p, stages)
  {
    RegistryWellFormed(stages);
    assert Clean(p) == p;
    forall k | k in Registry(stages) ensures Suits(p, Registry(stages), k) {}
  }

  /**
   A completed run without remedies, over an empty store or any that fits, holds under every planned chunk exactly the
   parts of the records the sequential evaluation gives it, and they read back as those records.
   */
  lemma MatchesSequential(p: Program, stages: Stages, wd: World, s: nat, i: nat)
    requires Scheduled(stages) && StoreOk(p, wd) && RunDone(stages, wd) && FoundFits(p, stages)
    requires Fits(p, Sequential(p, stages, |stages|))
    requires s < |stages| && i < |StaticPlan(stages, s)|
    ensures var k, data := Key(s, StaticPlan(stages, s)[i].id), Sequential(p, stages, |stages|);
      && k in data && k in wd.markers
      && Dir(wd, k) == DirOf(p.format, S.Blocks(data[k], Cap(p, s)), |S.Blocks(data[k], Cap(p, s))|)
      && S.ReadAll(Dir(wd, k), "/") == data[k]
  {
    hide RunDone, FoundFits, DirOf, Held, Fits;
    var q := Clean(p);
    SameEvaluation(p, q, stages, |stages|);
    assert Fits(q, Sequential(q, stages, |stages|)) by { SameFits(p, q, Sequential(p, stages, |stages|)); }
    SequentialParts(q, stages, wd, s, i);
    CleanIff(p, stages, wd);
    var k := Key(s, StaticPlan(stages, s)[i].id);
    HeldAtCleanStart(q, wd.tasks, k);
  }

  /** What a stage that reads nothing computes: its one chunk, on no input. */
  lemma OutputOfNothing(p: Program, ts: Tasks, k: Key)
    requires WellFormed(ts) && k in ts && ts[k].members == []
    ensures Output(p, ts, k) == p.run(k.stage, [])
  {
  }

  /** After a completed run its chunk, `all` unless the stage gives a target, is finished and holds what the stage writes on no
      input. */
  lemma StageOfNothing(p: Program, stages: Stages, wd: World, s: nat)
    requires Scheduled(stages) && StoreOk(p, wd) && RunDone(stages, wd) && FoundFits(p, stages)
    requires s < |stages| && stages[s].input.ReadsNothing?
    ensures var st := stages[s];
      var k := Key(s, if (if st.targetRows != 0 then st.targetRows else st.targetBytes) > 0 then "c0" else "all");
      var parts := S.Blocks(p.run(s, []), Cap(p, s));
      && s in wd.manifests && wd.manifests[s] == [Entry(k.chunk, 1.0)]
      && k in wd.markers && Dir(wd, k) == DirOf(p.format, parts, |parts|)
  {
    hide RunDone, FoundFits, Held, DirOf, Output, PlanChunks;
    var st := stages[s];
    PlanOfNothing(s, st, []);
    var k := Key(s, if (if st.targetRows != 0 then st.targetRows else st.targetBytes) > 0 then "c0" else "all");
    var cs := StaticPlan(stages, s);
    StaticOfNothing(stages, s);
    DoneAsPlanned(stages, wd, s);
    assert TasksFor(s, st, cs)[0] == TaskFor(s, st, cs[0]) && ManifestFor(cs)[0] == Entry(cs[0].id, cs[0].weight);
    PlannedMarked(stages, wd, k);
    CleanIff(p, stages, wd);
    HeldAtCleanStart(Clean(p), wd.tasks, k);
    OutputOfNothing(Clean(p), wd.tasks, k);
  }

  lemma StaticOfNothing(stages: Stages, s: nat)
    requires Scheduled(stages) && s < |stages| && stages[s].input.ReadsNothing?
    ensures StaticPlan(stages, s) == PlanChunks(stages[s], UpstreamChunks(stages[s], []))
  {
  }

  lemma DoneAsPlanned(stages: Stages, wd: World, s: nat)
    requires Scheduled(stages) && RunDone(stages, wd) && s < |stages|
    ensures AsPlanned(stages, wd, s)
  {
  }

  lemma SameFits(p: Program, q: Program, data: Data)
    requires q.capRows == p.capRows && Fits(p, data)
    ensures Fits(q, data)
  {
    forall k | k in data ensures |S.Blocks(data[k], Cap(q, k.stage))| <= 100000 {
      assert Cap(q, k.stage) == Cap(p, k.stage);
    }
  }

  /** The sequential evaluation knows no store. */
  lemma {:induction false} SameEvaluation(p: Program, q: Program, stages: Stages, n: nat)
    requires Scheduled(stages) && n <= |stages| && q.run == p.run
    ensures Sequential(p, stages, n) == Sequential(q, stages, n)
  {
    hide StaticPlan, RunChunks;
    if n > 0 {
      SameEvaluation(p, q, stages, n - 1);
      var cs := StaticPlan(stages, n - 1);
      SameChunks(p, q, stages[n - 1], n - 1, cs, |cs|, Sequential(p, stages, n - 1));
    }
  }

  lemma {:induction false} SameChunks(p: Program, q: Program, st: StageSpec, s: nat, cs: seq<P.Packed>, n: nat, data: Data)
    requires n <= |cs| && q.run == p.run
    ensures RunChunks(p, st, s, cs, n, data) == RunChunks(q, st, s, cs, n, data)
  {
    hide Gather;
    if n > 0 { SameChunks(p, q, st, s, cs, n - 1, data); }
  }

  // ---- what an earlier run left ------------------------------------------------------------------------

  lemma {:induction false} DirOfGrows(f: S.Format, parts: seq<seq<Record>>, n: nat, m: nat)
    requires n <= m <= |parts|
    ensures DirOf(f, parts, n).Keys <= DirOf(f, parts, m).Keys
  {
    if n < m { DirOfGrows(f, parts, n, m - 1); }
  }

  /** Putting all parts over the first few is putting them over what was there before. */
  lemma PutAgain(f: S.Format, was: S.Objects, parts: seq<seq<Record>>, n: nat)
    requires n <= |parts|
    ensures was + DirOf(f, parts, n) + DirOf(f, parts, |parts|) == was + DirOf(f, parts, |parts|)
  {
    hide DirOf;
    DirOfGrows(f, parts, n, |parts|);
    PlusTwice(was, DirOf(f, parts, n), DirOf(f, parts, |parts|));
  }

  lemma PlusTwice<K, V>(a: map<K, V>, b: map<K, V>, c: map<K, V>)
    requires b.Keys <= c.Keys
    ensures a + b + c == a + c
  {
  }

  /** Where an earlier run gave no key of `ts` to another task, starting again over what it left is as good as starting over
      what it found. The earlier run may have been remedied, and cut off anywhere. */
  lemma {:induction false} HeldOver(p: Program, wd: World, ts: Tasks, k: Key)
    requires StoreOk(p, wd) && WellFormed(ts) && Agree(wd.tasks, ts) && k in ts
    ensures Output(Over(p, wd), ts, k) == Output(p, ts, k) && Held(Over(p, wd), ts, k) == Held(p, ts, k)
    decreases k.stage, 1, 0
  {
    InputOver(p, wd, ts, k, |ts[k].members|);
    ChunkOver(p, wd, ts, k);
  }

  lemma ChunkOver(p: Program, wd: World, ts: Tasks, k: Key)
    requires StoreOk(p, wd) && WellFormed(ts) && Agree(wd.tasks, ts) && k in ts
    requires Output(Over(p, wd), ts, k) == Output(p, ts, k)
    ensures Held(Over(p, wd), ts, k) == Held(p, ts, k)
  {
    hide Output, DirOf;
    assert ChunkOk(p, wd, k);
    assert Found(Over(p, wd), k) == Dir(wd, k);
    var parts := Parts(p, ts, k);
    assert Parts(Over(p, wd), ts, k) == parts;
    if k !in p.cached && k in wd.tasks {
      OutputStable(p, wd.tasks, ts, k);
      PutAgain(p.format, Found(p, k), parts, Put(wd, k));
    }
  }

  lemma {:induction false} InputOver(p: Program, wd: World, ts: Tasks, k: Key, n: nat)
    requires StoreOk(p, wd) && WellFormed(ts) && Agree(wd.tasks, ts) && k in ts && n <= |ts[k].members|
    ensures InputUpTo(Over(p, wd), ts, k, n) == InputUpTo(p, ts, k, n)
    decreases k.stage, 0, n
  {
    hide Held, Output, S.ReadAll;
    if n > 0 {
      InputOver(p, wd, ts, k, n - 1);
      if ts[k].up.FromStage? {
        assert ReadsEarlier(ts, ts[k]);
        HeldOver(p, wd, ts, MemberKey(ts[k], ts[k].members[n - 1]));
      }
    }
  }

  /** A run without remedies knows planned tasks only, so no planned key is anything else in it, after any of its steps. */
  lemma StaticAgrees(stages: Stages, ts: Tasks)
    requires Scheduled(stages) && OnlyStatic(stages, ts)
    ensures Agree(ts, Registry(stages))
  {
    RegistryIs(stages, |stages|);
    forall k | k in ts && k in Registry(stages) ensures Registry(stages)[k] == ts[k] {
      var i := StaticIndex(stages, ts, k);
      var m := StaticIndex(stages, Registry(stages), k);
      StaticConsistent(stages, k.stage);
      assert StaticTasks(stages, k.stage)[i].key == StaticTasks(stages, k.stage)[m].key;
    }
  }

  /** A run may be cut off after any of its steps: what it knows then, it knows at the end. */
  lemma CutOffAgrees(p: Program, stages: Stages, start: World, h: seq<Step>, n: nat)
    requires Inv(p, start) && AllAllowed(p, start, h) && n <= |h|
    requires Scheduled(stages) && Agree(RunSteps(p, start, h).tasks, Registry(stages))
    ensures Inv(p, RunSteps(p, start, h[..n])) && Agree(RunSteps(p, start, h[..n]).tasks, Registry(stages))
  {
    PrefixAllowed(p, start, h, n);
    RunsAreSound(p, start, h[..n]);
  }

  /** A completed restart over what such a run left ends with the files of any completed run over the first store. */
  lemma RestartSame(p: Program, stages: Stages, left: World, wd: World, other: World, k: Key)
    requires Scheduled(stages) && StoreOk(p, left) && Agree(left.tasks, Registry(stages))
    requires StoreOk(Over(p, left), wd) && RunDone(stages, wd)
    requires StoreOk(p, other) && RunDone(stages, other) && k in other.tasks
    ensures k in wd.tasks && k in wd.markers && Dir(wd, k) == Dir(other, k)
  {
    hide Held, RunDone, ChunkOk;
    DoneKnowsRegistry(stages, wd);
    DoneKnowsRegistry(stages, other);
    PlannedMarked(stages, wd, k);
    PlannedMarked(stages, other, k);
    MarkedChunk(Over(p, left), wd, k);
    MarkedChunk(p, other, k);
    HeldOver(p, left, wd.tasks, k);
  }

  // ---- ... over an empty store -------------------------------------------------------------------------

  lemma DirInjective(f: S.Format, a: seq<seq<Record>>, b: seq<seq<Record>>)
    requires DirOf(f, a, |a|) == DirOf(f, b, |b|)
    ensures a == b
  {
    DirSize(f, a, |a|);
    DirSize(f, b, |b|);
    forall i | 0 <= i < |a| ensures a[i] == b[i] {
      DirAt(f, a, |a|, i);
      DirAt(f, b, |b|, i);
    }
  }

  lemma DirWithin(f: S.Format, a: seq<seq<Record>>, n: nat, b: seq<seq<Record>>)
    requires n <= |a|
    ensures DirOf(f, a, n).Keys <= DirOf(f, b, |b|).Keys <==> n <= |b|
  {
    if n <= |b| {
      forall name | name in DirOf(f, a, n) ensures name in DirOf(f, b, |b|) {
        DirNames(f, a, n, name);
        var i :| 0 <= i < n && name == S.PartKey("", i, f);
        DirAt(f, b, |b|, i);
      }
    } else {
      DirAt(f, a, n, |b|);
      var name := S.PartKey("", |b|, f);
      if name in DirOf(f, b, |b|) {
        DirNames(f, b, |b|, name);
        var i :| 0 <= i < |b| && name == S.PartKey("", i, f);
        S.PartKeyInjective("", i, |b|, f);
      }
    }
  }

  /** What the earlier task with this key put suits the planned one: the same parts if it was finished, and otherwise not
      more of them. */
  ghost predicate LeftSuits(p: Program, left: World, ts: Tasks, k: Key)
    requires WellFormed(left.tasks) && WellFormed(ts) && k in ts
  {
    k in left.tasks ==>
      if k in left.markers then Parts(p, left.tasks, k) == Parts(p, ts, k) else Put(left, k) <= |Parts(p, ts, k)|
  }

  lemma SuitsIff(p: Program, left: World, ts: Tasks, k: Key)
    requires CleanStart(p) && StoreOk(p, left) && WellFormed(ts) && k in ts
    ensures Suits(Over(p, left), ts, k) <==> LeftSuits(p, left, ts, k)
  {
    hide DirOf, Parts;
    assert ChunkOk(p, left, k);
    assert Clean(Over(p, left)) == p;
    assert Found(Over(p, left), k) == Dir(left, k);
    HeldAtCleanStart(p, ts, k);
    var b := Parts(p, ts, k);
    if k in left.tasks {
      var a, n := Parts(p, left.tasks, k), Put(left, k);
      assert Dir(left, k) == DirOf(p.format, a, n);
      if k in left.markers {
        if DirOf(p.format, a, |a|) == DirOf(p.format, b, |b|) { DirInjective(p.format, a, b); }
      } else {
        DirWithin(p.format, a, n, b);
      }
    }
  }

  /**
   Exactly when a restart is right. A run over an empty store, remedied or not, left `left`; a second run over that store
   completed. Every planned chunk is then as a run over an empty store would leave it if and only if every planned key that
   was marked had belonged to a task with the same output, and no other had got more parts than the planned task makes.
   */
  lemma RestartIff(p: Program, stages: Stages, left: World, wd: World)
    requires Scheduled(stages) && CleanStart(p) && StoreOk(p, left)
    requires StoreOk(Over(p, left), wd) && RunDone(stages, wd)
    ensures WellFormed(Registry(stages))
    ensures (forall k :: k in wd.tasks ==> Dir(wd, k) == Held(p, wd.tasks, k))
      <==> (forall k :: k in Registry(stages) ==> LeftSuits(p, left, Registry(stages), k))
  {
    hide Suits, LeftSuits, Held, RunDone, ChunkOk;
    RegistryWellFormed(stages);
    CleanIff(Over(p, left), stages, wd);
    assert Clean(Over(p, left)) == p;
    forall k | k in Registry(stages)
      ensures Suits(Over(p, left), Registry(stages), k) <==> LeftSuits(p, left, Registry(stages), k)
    {
      SuitsIff(p, left, Registry(stages), k);
    }
  }

  /** Without a key given to another task that is always so. */
  lemma AgreeSuits(p: Program, left: World, ts: Tasks, k: Key)
    requires CleanStart(p) && StoreOk(p, left) && WellFormed(ts) && Agree(left.tasks, ts) && k in ts
    ensures LeftSuits(p, left, ts, k)
  {
    assert ChunkOk(p, left, k);
    if k in left.tasks {
      OutputStable(p, left.tasks, ts, k);
    }
  }
}
