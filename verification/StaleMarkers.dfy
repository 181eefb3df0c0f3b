/**
 A run that shows what a restart over a remedied store can come to. Two files are read one to one, and packed into one chunk
 by the stage behind. The second file's task dies and is skipped, so that chunk is made of the first file alone. Run again,
 both files are read; but the packed chunk has the same id as before and a marker, and is left as it is.
 */
module StaleMarkers {
  import opened Sequences
  import opened Queue
  import opened Machine
  import opened Soundness
  import opened Planning
  import opened Remediation
  import opened Books
  import opened Staging
  import opened Reference
  import opened Restart
  import opened Trace
  import opened Runs
  import P = Partition
  import S = Store

  // ---- the pipeline -----------------------------------------------------------------------------

  /** Two files of one record each; the stage behind packs what fits ten rows. */
  function TwoStages(a: Record, b: Record): Stages {
    [StageSpec(ReadsSource([P.Chunk("a", [a], 1.0), P.Chunk("b", [b], 1.0)]), 0, 0), StageSpec(ReadsStage(0), 10, 0)]
  }

  const A: Key := Key(0, "a")
  const B: Key := Key(0, "b")
  const C: Key := Key(1, "c0")

  function TaskA(a: Record): Task { Task(A, FromSource, [P.Ref("a", [a])], 1.0) }

  function TaskB(b: Record): Task { Task(B, FromSource, [P.Ref("b", [b])], 1.0) }

  /** The packed chunk without the second file, and with it. */
  const Alone: Task := Task(C, FromStage(0), [P.Ref("a", [])], 1.0)
  const Both: Task := Task(C, FromStage(0), [P.Ref("a", []), P.Ref("b", [])], 2.0)

  const Full: seq<Entry> := [Entry("a", 1.0), Entry("b", 1.0)]
  const Less: seq<Entry> := [Entry("a", 1.0)]

  lemma FirstPlan(a: Record, b: Record)
    ensures var stages := TwoStages(a, b);
      var cs := PlanChunks(stages[0], UpstreamChunks(stages[0], []));
      ManifestFor(cs) == Full && TasksFor(0, stages[0], cs) == [TaskA(a), TaskB(b)]
  {
    var stages := TwoStages(a, b);
    var ups := UpstreamChunks(stages[0], []);
    var cs := PlanChunks(stages[0], ups);
    assert cs == P.OneToOne(ups);
    assert cs[0] == P.Packed("a", [P.Ref("a", [a])], 1.0) && cs[1] == P.Packed("b", [P.Ref("b", [b])], 1.0);
  }

  lemma SecondPlan(a: Record, b: Record, es: seq<Entry>)
    requires es == Full || es == Less
    ensures var stages := TwoStages(a, b);
      var cs := PlanChunks(stages[1], UpstreamChunks(stages[1], es));
      var t := if es == Full then Both else Alone;
      ManifestFor(cs) == [Entry("c0", t.weight)] && TasksFor(1, stages[1], cs) == [t]
  {
    hide PlanChunks;
    var stages := TwoStages(a, b);
    var x, y := P.Chunk("a", [], 1.0), P.Chunk("b", [], 1.0);
    var ups := UpstreamChunks(stages[1], es);
    assert ups == if es == Full then [x, y] else [x];
    ReplanReusesIds(stages[1], x, y);
    var cs := PlanChunks(stages[1], ups);
    assert |cs| == 1;
  }

  lemma StaticPlans(a: Record, b: Record)
    ensures var stages := TwoStages(a, b);
      && Scheduled(stages)
      && ManifestFor(StaticPlan(stages, 0)) == Full && StaticTasks(stages, 0) == [TaskA(a), TaskB(b)]
      && ManifestFor(StaticPlan(stages, 1)) == [Entry("c0", 2.0)] && StaticTasks(stages, 1) == [Both]
  {
    FirstPlan(a, b);
    SecondPlan(a, b, Full);
  }

  /** What lies under a chunk that has put one part. */
  function OneFile(f: S.Format, out: seq<Record>): S.Objects { map[S.PartKey("", 0, f) := out] }

  lemma OneFileReads(f: S.Format, out: seq<Record>)
    requires 1 <= |out| <= 10
    ensures S.ReadAll(OneFile(f, out), "/") == out
  {
    hide S.ReadAll;
    var p := Copying(f);
    assert S.Blocks(out, 10) == [out];
    ReadbackIs(p, out, 10);
    assert DirOf(f, [out], 1) == map[][S.PartKey("", 0, f) := out] == OneFile(f, out);
  }

  // ---- its first run -------------------------------------------------------------------------------

  /** A worker comes, and the first stage is planned. */
  function Opening(a: Record, b: Record): seq<Step> {
    [Spawn(0), WriteManifest(0, Full), Register(TaskA(a)), Register(TaskB(b))]
  }

  /** The first stage is planned. */
  function Making(a: Record, b: Record): seq<Step> {
    [WriteManifest(0, Full), Register(TaskA(a)), Register(TaskB(b))]
  }

  /** The second stage is planned. */
  function Behind(t: Task): seq<Step> { [WriteManifest(1, [Entry("c0", t.weight)]), Register(t)] }

  /** The dead task is skipped. */
  function Skipping(): seq<Step> { [WriteManifest(0, Less), TakeDeadTask(B)] }

  lemma Opens(p: Program, wd: World, a: Record, b: Record)
    requires wd.tasks == map[] && wd.workers == map[]
    ensures Reaches(p, wd, Opening(a, b), wd.(
      tasks := map[A := TaskA(a), B := TaskB(b)], manifests := wd.manifests[0 := Full], workers := map[0 := Idle]))
  {
    hide Reaches;
    var x := Opening(a, b);
    assert x[..1] == [] + [x[0]] && x[..2] == x[..1] + [x[1]] && x[..3] == x[..2] + [x[2]] && x == x[..3] + [x[3]];
    var w1 := wd.(workers := map[0 := Idle]);
    var w2 := w1.(manifests := wd.manifests[0 := Full]);
    var w3 := w2.(tasks := map[A := TaskA(a)]);
    assert Apply(p, wd, x[0]) == w1 && Apply(p, w1, x[1]) == w2 && Apply(p, w2, x[2]) == w3;
    Start(p, wd);
    Then(p, wd, [], wd, x[0]);
    Then(p, wd, x[..1], w1, x[1]);
    Then(p, wd, x[..2], w2, x[2]);
    Then(p, wd, x[..3], w3, x[3]);
  }

  lemma Sent(p: Program, wd: World, k: Key)
    requires Fed(wd, k)
    ensures Reaches(p, wd, Sends([k]), wd.(queue := Enqueue(wd.queue, k)))
  {
    Start(p, wd);
    Then(p, wd, [], wd, EnqueueTask(k));
    assert Sends([k]) == [] + [EnqueueTask(k)];
  }

  lemma Plans(p: Program, wd: World, t: Task)
    requires t.key == C && Registrable(wd, t)
    ensures Reaches(p, wd, Behind(t), wd.(
      tasks := wd.tasks[C := t], manifests := wd.manifests[1 := [Entry("c0", t.weight)]]))
  {
    hide Reaches;
    var w1 := wd.(manifests := wd.manifests[1 := [Entry("c0", t.weight)]]);
    Start(p, wd);
    Then(p, wd, [], wd, WriteManifest(1, [Entry("c0", t.weight)]));
    Then(p, wd, [] + [WriteManifest(1, [Entry("c0", t.weight)])], w1, Register(t));
    assert Behind(t) == [] + [WriteManifest(1, [Entry("c0", t.weight)])] + [Register(t)];
  }

  function Empty0(): World { World(map[], Empty(0), map[], {}, map[], map[], map[]) }

  function Sent0(a: Record, b: Record): World {
    World(map[A := TaskA(a), B := TaskB(b)], Queue(0, [A, B], [], [], map[A := 0, B := 0]), map[], {},
          map[0 := Full], map[0 := Idle], map[])
  }

  /** The first file's task is done, the second's is dead. */
  function Dead0(f: S.Format, a: Record, b: Record): World {
    World(map[A := TaskA(a), B := TaskB(b)], Queue(0, [], [], [B], map[A := 0, B := 1]), map[A := OneFile(f, [a])], {A},
          map[0 := Full], map[0 := Idle], map[A := 1])
  }

  /** The second file is skipped, the stage behind is planned and its one task enqueued. */
  function Sent1(f: S.Format, a: Record, b: Record): World {
    World(map[A := TaskA(a), B := TaskB(b), C := Alone], Queue(0, [C], [], [], map[A := 0, B := 1, C := 0]),
          map[A := OneFile(f, [a])], {A}, map[0 := Less, 1 := [Entry("c0", 1.0)]], map[0 := Idle], map[A := 1])
  }

  /** The run is over. */
  function Left(f: S.Format, a: Record, b: Record): World {
    World(map[A := TaskA(a), B := TaskB(b), C := Alone], Queue(0, [], [], [], map[A := 0, B := 1, C := 0]),
          map[A := OneFile(f, [a]), C := OneFile(f, [a])], {A, C}, map[0 := Less, 1 := [Entry("c0", 1.0)]],
          map[0 := Idle], map[A := 1, C := 1])
  }

  lemma Begins(f: S.Format, a: Record, b: Record)
    ensures Reaches(Copying(f), Empty0(), Opening(a, b) + Sends([A]) + Sends([B]), Sent0(a, b))
  {
    hide Reaches;
    var p, w := Copying(f), Empty0();
    var w1 := w.(tasks := map[A := TaskA(a), B := TaskB(b)], manifests := map[0 := Full], workers := map[0 := Idle]);
    var w2 := w1.(queue := Enqueue(w1.queue, A));
    Opens(p, w, a, b);
    assert Enqueue(w1.queue, A) == Queue(0, [A], [], [], map[A := 0]);
    assert Enqueue(w2.queue, B) == Sent0(a, b).queue;
    Sent(p, w1, A);
    Sent(p, w2, B);
    Joined(p, w, Opening(a, b), w1, Sends([A]), w2);
    Joined(p, w, Opening(a, b) + Sends([A]), w2, Sends([B]), Sent0(a, b));
  }

  lemma DiesInFirst(f: S.Format, a: Record, b: Record)
    ensures Reaches(Copying(f), Sent0(a, b), Executes() + Dies(), Dead0(f, a, b))
  {
    hide Reaches;
    var p, w := Copying(f), Sent0(a, b);
    assert [A, B] == [A] + [B] && [B] == [B] + [];
    Executed(p, w, A, [B], [a]);
    var w1 := AfterTask(p, w, A, [B], [a]);
    assert w1 == Sent0(a, b).(
      queue := w.queue.(ready := [B]), dirs := map[A := OneFile(f, [a])], markers := {A}, put := map[A := 1]);
    Died(p, w1, B, []);
    assert [] + [B] == [B] && map[A := 0, B := 0][B := 1] == map[A := 0, B := 1];
    Joined(p, w, Executes(), w1, Dies(), Dead0(f, a, b));
  }

  lemma Skips(f: S.Format, a: Record, b: Record)
    ensures var w := Dead0(f, a, b);
      Reaches(Copying(f), w, Skipping(), w.(manifests := map[0 := Less], queue := w.queue.(dlq := [])))
  {
    hide Reaches;
    var p, w := Copying(f), Dead0(f, a, b);
    var w1 := w.(manifests := map[0 := Less]);
    assert Apply(p, w, WriteManifest(0, Less)) == w1;
    Start(p, w);
    Then(p, w, [], w, WriteManifest(0, Less));
    assert RemoveFirst([B], B) == [];
    Then(p, w, [] + [WriteManifest(0, Less)], w1, TakeDeadTask(B));
    assert Skipping() == [] + [WriteManifest(0, Less)] + [TakeDeadTask(B)];
  }

  lemma GoesOn(f: S.Format, a: Record, b: Record)
    ensures var w := Dead0(f, a, b).(manifests := map[0 := Less], queue := Dead0(f, a, b).queue.(dlq := []));
      Reaches(Copying(f), w, Behind(Alone) + Sends([C]), Sent1(f, a, b))
  {
    hide Reaches;
    var p, w := Copying(f), Dead0(f, a, b).(manifests := map[0 := Less], queue := Dead0(f, a, b).queue.(dlq := []));
    var w1 := w.(tasks := Sent1(f, a, b).tasks, manifests := Sent1(f, a, b).manifests);
    assert w.tasks[C := Alone] == Sent1(f, a, b).tasks;
    assert w.manifests[1 := [Entry("c0", Alone.weight)]] == Sent1(f, a, b).manifests;
    Plans(p, w, Alone);
    assert Enqueue(w1.queue, C) == Sent1(f, a, b).queue;
    Sent(p, w1, C);
    Joined(p, w, Behind(Alone), w1, Sends([C]), Sent1(f, a, b));
  }

  lemma Ends(f: S.Format, a: Record, b: Record)
    ensures Reaches(Copying(f), Sent1(f, a, b), Executes(), Left(f, a, b))
  {
    hide Reaches, S.ReadAll;
    var p, w := Copying(f), Sent1(f, a, b);
    OneFileReads(f, [a]);
    assert [C] == [C] + [];
    Executed(p, w, C, [], [a]);
    assert AfterTask(p, w, C, [], [a]) == Left(f, a, b);
  }

  /** The steps of the first run. */
  function FirstRun(a: Record, b: Record): seq<Step> {
    Opening(a, b) + Sends([A]) + Sends([B]) + (Executes() + Dies()) + Skipping() + (Behind(Alone) + Sends([C])) + Executes()
  }

  lemma FirstRuns(f: S.Format, a: Record, b: Record)
    ensures Reaches(Copying(f), Empty0(), FirstRun(a, b), Left(f, a, b))
  {
    hide Reaches, Opening, Sends, Executes, Dies, Skipping, Behind, Empty0, Sent0, Dead0, Sent1, Left;
    var p, w := Copying(f), Empty0();
    var skipped := Dead0(f, a, b).(manifests := map[0 := Less], queue := Dead0(f, a, b).queue.(dlq := []));
    Begins(f, a, b);
    DiesInFirst(f, a, b);
    Skips(f, a, b);
    GoesOn(f, a, b);
    Ends(f, a, b);
    var h := Opening(a, b) + Sends([A]) + Sends([B]);
    Joined(p, w, h, Sent0(a, b), Executes() + Dies(), Dead0(f, a, b));
    Joined(p, w, h + (Executes() + Dies()), Dead0(f, a, b), Skipping(), skipped);
    Joined(p, w, h + (Executes() + Dies()) + Skipping(), skipped, Behind(Alone) + Sends([C]), Sent1(f, a, b));
    var g := h + (Executes() + Dies()) + Skipping() + (Behind(Alone) + Sends([C]));
    Joined(p, w, g, Sent1(f, a, b), Executes(), Left(f, a, b));
  }

  // ---- run again -----------------------------------------------------------------------------------

  /** What the second run leaves: the packed chunk is as it was. */
  function Again(f: S.Format, a: Record, b: Record): World {
    World(map[A := TaskA(a), B := TaskB(b), C := Both], Queue(0, [], [], [], map[B := 0]),
          map[A := OneFile(f, [a]), C := OneFile(f, [a]), B := OneFile(f, [b])], {A, B, C},
          map[0 := Full, 1 := [Entry("c0", 2.0)]], map[0 := Idle], map[B := 1])
  }

  function SecondRun(a: Record, b: Record): seq<Step> {
    Opening(a, b) + Sends([B]) + Executes() + Behind(Both)
  }

  /** The one file that has no marker is read. */
  function Reread(f: S.Format, a: Record, b: Record): World {
    Again(f, a, b).(
      tasks := map[A := TaskA(a), B := TaskB(b)], manifests := map[0 := Full, 1 := [Entry("c0", 1.0)]])
  }

  lemma Rereads(f: S.Format, a: Record, b: Record)
    ensures var left := Left(f, a, b);
      Reaches(Over(Copying(f), left), Fresh(left, 0), Opening(a, b) + Sends([B]) + Executes(), Reread(f, a, b))
  {
    hide Reaches, Opening, Sends, Executes;
    var left := Left(f, a, b);
    var q, w := Over(Copying(f), left), Fresh(left, 0);
    var w1 := w.(
      tasks := map[A := TaskA(a), B := TaskB(b)], manifests := w.manifests[0 := Full], workers := map[0 := Idle]);
    assert Enqueue(w1.queue, B) == Queue(0, [B], [], [], map[B := 0]);
    var w2 := w1.(queue := Queue(0, [B], [], [], map[B := 0]));
    Opens(q, w, a, b);
    Sent(q, w1, B);
    assert [B] == [B] + [];
    Executed(q, w2, B, [], [b]);
    assert AfterTask(q, w2, B, [], [b]) == Reread(f, a, b);
    Joined(q, w, Opening(a, b), w1, Sends([B]), w2);
    Joined(q, w, Opening(a, b) + Sends([B]), w2, Executes(), Reread(f, a, b));
  }

  lemma SecondRuns(f: S.Format, a: Record, b: Record)
    ensures var left := Left(f, a, b);
      Reaches(Over(Copying(f), left), Fresh(left, 0), SecondRun(a, b), Again(f, a, b))
  {
    hide Reaches, Opening, Sends, Executes, Behind, Over, Fresh, Left;
    var left := Left(f, a, b);
    var q := Over(Copying(f), left);
    Rereads(f, a, b);
    Plans(q, Reread(f, a, b), Both);
    var end := Reread(f, a, b);
    assert end.tasks[C := Both] == Again(f, a, b).tasks;
    assert end.manifests[1 := [Entry("c0", Both.weight)]] == Again(f, a, b).manifests;
    Joined(q, Fresh(left, 0), Opening(a, b) + Sends([B]) + Executes(), end, Behind(Both), Again(f, a, b));
  }

  lemma AgainAsPlanned(f: S.Format, a: Record, b: Record, s: nat)
    requires s < 2
    ensures Scheduled(TwoStages(a, b)) && AsPlanned(TwoStages(a, b), Again(f, a, b), s)
  {
    hide StaticPlan, Scheduled;
    var stages, wd := TwoStages(a, b), Again(f, a, b);
    StaticPlans(a, b);
    var cs := StaticPlan(stages, s);
    forall i | 0 <= i < |cs| ensures Key(s, cs[i].id) in wd.tasks && wd.tasks[Key(s, cs[i].id)] == TaskFor(s, stages[s], cs[i]) {
      assert TaskFor(s, stages[s], cs[i]) == StaticTasks(stages, s)[i];
      assert StaticTasks(stages, s)[i].key == Key(s, cs[i].id);
    }
  }

  lemma AgainStatic(f: S.Format, a: Record, b: Record)
    ensures Scheduled(TwoStages(a, b)) && OnlyStatic(TwoStages(a, b), Again(f, a, b).tasks)
  {
    hide StaticPlan, StaticTasks, Scheduled;
    var stages, wd := TwoStages(a, b), Again(f, a, b);
    StaticPlans(a, b);
    assert [TaskA(a), TaskB(b)][0] == TaskA(a) && [TaskA(a), TaskB(b)][1] == TaskB(b) && [Both][0] == Both;
  }

  lemma AgainDone(f: S.Format, a: Record, b: Record)
    ensures Scheduled(TwoStages(a, b)) && RunDone(TwoStages(a, b), Again(f, a, b))
  {
    hide OnlyStatic, AsPlanned, Scheduled;
    var stages, wd := TwoStages(a, b), Again(f, a, b);
    AgainStatic(f, a, b);
    forall s | 0 <= s < 2 ensures AsPlanned(stages, wd, s) && Complete(wd, s) {
      AgainAsPlanned(f, a, b, s);
    }
  }

  // ---- whose steps these are -------------------------------------------------------------------------

  lemma WorkOwn()
    ensures Own(Executes()) == [] && Own(Executes() + Dies()) == []
  {
    OwnNone(Executes());
    OwnNone(Executes() + Dies());
  }

  lemma OpeningOwn(a: Record, b: Record)
    ensures Own(Opening(a, b)) == Making(a, b)
  {
    assert Opening(a, b) == [Spawn(0)] + Making(a, b);
    OwnJoined([Spawn(0)], Making(a, b));
    OwnNone([Spawn(0)]);
    OwnAll(Making(a, b));
  }

  lemma FirstOwn(a: Record, b: Record)
    ensures Own(FirstRun(a, b))
      == Making(a, b) + Sends([A]) + Sends([B]) + Skipping() + (Behind(Alone) + Sends([C]))
  {
    hide Own, Opening, Executes, Dies;
    var x := Behind(Alone) + Sends([C]);
    var h1 := Opening(a, b) + Sends([A]);
    var h2 := h1 + Sends([B]);
    var h3 := h2 + (Executes() + Dies());
    var h4 := h3 + Skipping();
    WorkOwn();
    OpeningOwn(a, b);
    OwnAll(Sends([A]));
    OwnAll(Sends([B]));
    OwnAll(Skipping());
    OwnAll(x);
    OwnJoined(Opening(a, b), Sends([A]));
    OwnJoined(h1, Sends([B]));
    OwnJoined(h2, Executes() + Dies());
    OwnJoined(h3, Skipping());
    OwnJoined(h4, x);
    OwnJoined(h4 + x, Executes());
  }

  lemma SecondOwn(a: Record, b: Record)
    ensures Own(SecondRun(a, b)) == Making(a, b) + Sends([B]) + Behind(Both)
  {
    hide Own, Opening, Executes;
    var h1 := Opening(a, b) + Sends([B]);
    WorkOwn();
    OpeningOwn(a, b);
    OwnAll(Sends([B]));
    OwnAll(Behind(Both));
    OwnJoined(Opening(a, b), Sends([B]));
    OwnJoined(h1, Executes());
    OwnJoined(h1 + Executes(), Behind(Both));
  }

  /** Planning the first stage is the opening without the worker. */
  lemma PlanFirst(a: Record, b: Record, wd: World)
    ensures PlanSteps(TwoStages(a, b), wd, 0) == Making(a, b)
  {
    FirstPlan(a, b);
  }

  lemma PlanSecond(a: Record, b: Record, wd: World)
    requires Manifest(wd, 0) == Full || Manifest(wd, 0) == Less
    ensures PlanSteps(TwoStages(a, b), wd, 1) == Behind(if Manifest(wd, 0) == Full then Both else Alone)
  {
    SecondPlan(a, b, Manifest(wd, 0));
  }

  lemma SkipIsRemedy(ts: Tasks)
    requires B in ts
    ensures AllKnown(ts, [B]) && RoundSteps(ts, Full, [B], [Skip]) + Takes([B]) == Skipping()
  {
    assert [B][..0] == [] && [Skip][..0] == [];
    assert Drop(Full, "b") == Less by {
      assert Full[1..] == [Entry("b", 1.0)] && Full[1..][1..] == [];
      assert Drop(Full[1..], "b") == Drop(Full[1..][1..], "b") == [];
    }
    assert Replace(Full, "b", []) == Less;
  }

  /** The drain's turn at the poll that finds the second file's task dead, when the handler answers with a skip: the manifest
      forgets it, the dead letter is taken, and the first file's task is all that is waited for. */
  lemma TurnSkips(f: S.Format, a: Record, b: Record, own: seq<Step>)
    ensures TurnIs(Dead0(f, a, b), 0, {A, B}, true, 1, own, own + Skipping(), [Skip], [], Turn.Again({A}, true))
  {
    hide RoundSteps, RoundKeys, DeadIn, Remaining, Takes, AllKnown;
    var wd := Dead0(f, a, b);
    SkipIsRemedy(wd.tasks);
    SkippedOut(wd.tasks);
    assert [Skip][..1] == [Skip] && [Skip][1..] == [];
    assert own + RoundSteps(wd.tasks, Full, [B], [Skip]) + Takes([B]) == own + (RoundSteps(wd.tasks, Full, [B], [Skip]) + Takes([B]));
  }

  lemma SkippedOut(ts: Tasks)
    requires B in ts
    ensures DeadIn([B], {A, B}) == [B] && AllKnown(ts, [B])
    ensures Remaining({A, B}, [B], RoundKeys(ts, [B], [Skip])) == {A}
  {
    assert [B][1..] == [] && [B][..0] == [] && [Skip][..0] == [];
    assert DeadIn([B], {A, B}) == [B] + DeadIn([], {A, B});
    assert RoundKeys(ts, [B], [Skip]) == [] + [];
  }

  // ---- what should have come out ----------------------------------------------------------------------

  lemma PlannedChunks(a: Record, b: Record)
    ensures var stages := TwoStages(a, b);
      && Scheduled(stages) && |StaticPlan(stages, 0)| == 2 && |StaticPlan(stages, 1)| == 1
      && StaticPlan(stages, 0)[0].id == "a" && StaticPlan(stages, 0)[0].members == [P.Ref("a", [a])]
      && StaticPlan(stages, 0)[1].id == "b" && StaticPlan(stages, 0)[1].members == [P.Ref("b", [b])]
      && StaticPlan(stages, 1)[0].id == "c0" && StaticPlan(stages, 1)[0].members == Both.members
  {
    hide StaticPlan;
    var stages := TwoStages(a, b);
    StaticPlans(a, b);
    var cs, ds := StaticPlan(stages, 0), StaticPlan(stages, 1);
    assert StaticTasks(stages, 0)[0] == TaskFor(0, stages[0], cs[0]);
    assert StaticTasks(stages, 0)[1] == TaskFor(0, stages[0], cs[1]);
    assert StaticTasks(stages, 1)[0] == TaskFor(1, stages[1], ds[0]);
  }

  lemma RunsChunk(p: Program, st: StageSpec, s: nat, cs: seq<P.Packed>, n: nat, data: Data, input: seq<Record>)
    requires n < |cs| && !st.input.ReadsNothing? && p.run == Copying(p.format).run
    requires Gather(st, cs[n].members, RunChunks(p, st, s, cs, n, data)) == input
    ensures RunChunks(p, st, s, cs, n + 1, data) == RunChunks(p, st, s, cs, n, data)[Key(s, cs[n].id) := input]
  {
  }

  lemma EvaluatesFirst(p: Program, a: Record, b: Record)
    requires p.run == Copying(p.format).run
    ensures Scheduled(TwoStages(a, b)) && Sequential(p, TwoStages(a, b), 1) == map[A := [a], B := [b]]
  {
    hide StaticPlan, RunChunks, Gather, Scheduled;
    var stages := TwoStages(a, b);
    PlannedChunks(a, b);
    var cs := StaticPlan(stages, 0);
    var none: Data := map[];
    var one := none[A := [a]];
    NoChunks(p, stages[0], 0, cs, none);
    GatherOne(stages[0], P.Ref("a", [a]), none);
    RunsChunk(p, stages[0], 0, cs, 0, none, [a]);
    GatherOne(stages[0], P.Ref("b", [b]), one);
    RunsChunk(p, stages[0], 0, cs, 1, none, [b]);
    assert Sequential(p, stages, 0) == none;
  }

  lemma NoChunks(p: Program, st: StageSpec, s: nat, cs: seq<P.Packed>, data: Data)
    ensures RunChunks(p, st, s, cs, 0, data) == data
  {
  }

  lemma Evaluates(p: Program, a: Record, b: Record)
    requires p.run == Copying(p.format).run
    ensures var stages := TwoStages(a, b);
      Scheduled(stages) && C in Sequential(p, stages, 2) && Sequential(p, stages, 2)[C] == [a, b]
  {
    hide StaticPlan, RunChunks, Gather, Scheduled;
    var stages := TwoStages(a, b);
    PlannedChunks(a, b);
    EvaluatesFirst(p, a, b);
    var ds, two := StaticPlan(stages, 1), Sequential(p, stages, 1);
    NoChunks(p, stages[1], 1, ds, two);
    GatherTwo(stages[1], two);
    assert [a] + [b] == [a, b];
    RunsChunk(p, stages[1], 1, ds, 0, two, [a, b]);
  }

  lemma GatherOne(st: StageSpec, m: P.Ref, data: Data)
    ensures Gather(st, [m], data) == FetchOne(st, m, data)
  {
    assert [m][..0] == [];
    assert Gather(st, [], data) == [];
  }

  lemma GatherTwo(st: StageSpec, data: Data)
    requires st.input == ReadsStage(0) && A in data && B in data
    ensures Gather(st, [P.Ref("a", []), P.Ref("b", [])], data) == data[A] + data[B]
  {
    var ms := [P.Ref("a", []), P.Ref("b", [])];
    assert ms[..1] == [P.Ref("a", [])];
    GatherOne(st, P.Ref("a", []), data);
  }

  /**
   A remedied run and a second run over its store, both of them the controller's own doing with one worker. The second comes
   to its end with all stages as planned and complete. Its packed chunk has a marker and its task reads both files; what is
   stored for it is the first file alone.
   */
  lemma StaleAfterSkip(f: S.Format, a: Record, b: Record)
    ensures var p, stages, left := Copying(f), TwoStages(a, b), Left(f, a, b);
      && Scheduled(stages) && CleanStart(p)
      && Reaches(p, Empty0(), FirstRun(a, b), left)
      && AllKnown(Dead0(f, a, b).tasks, [B])
      && Own(FirstRun(a, b)) == PlanSteps(stages, Empty0(), 0) + Sends([A, B])
        + (RoundSteps(Dead0(f, a, b).tasks, Full, [B], [Skip]) + Takes([B]))
        + (PlanSteps(stages, Sent1(f, a, b), 1) + Sends([C]))
      && Reaches(Over(p, left), Fresh(left, 0), SecondRun(a, b), Again(f, a, b))
      && Own(SecondRun(a, b)) == PlanSteps(stages, Fresh(left, 0), 0) + Sends([B]) + PlanSteps(stages, Reread(f, a, b), 1)
    ensures RunDone(TwoStages(a, b), Again(f, a, b)) && C in Again(f, a, b).markers
    ensures S.ReadAll(Dir(Again(f, a, b), C), "/") == [a]
    ensures var data := Sequential(Copying(f), TwoStages(a, b), 2); C in data && data[C] == [a, b]
  {
    hide Reaches, Own, Opening, Executes, Dies, Behind, RunDone, AsPlanned, S.ReadAll, Sequential, RoundSteps, PlanSteps, Sends;
    FirstRuns(f, a, b);
    SecondRuns(f, a, b);
    FirstOwn(a, b);
    SecondOwn(a, b);
    PlanFirst(a, b, Empty0());
    PlanFirst(a, b, Fresh(Left(f, a, b), 0));
    PlanSecond(a, b, Sent1(f, a, b));
    PlanSecond(a, b, Reread(f, a, b));
    SkipIsRemedy(Dead0(f, a, b).tasks);
    SendsAppend([A], [B]);
    assert [A] + [B] == [A, B];
    AgainDone(f, a, b);
    OneFileReads(f, [a]);
    Evaluates(Copying(f), a, b);
    assert Making(a, b) + Sends([A]) + Sends([B]) == Making(a, b) + Sends([A, B]);
  }
}
