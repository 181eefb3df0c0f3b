/**
 Two runs that show what the lease discipline and the cap on remedies are about: a worker that reports a failure after its
 lease ran out puts a task among the dead letters twice, and a round that resplits both doubles the manifest; and one round
 under a cap of one remedies two chunks.
 */
module StaleFailures {
  import opened Sequences
  import opened Queue
  import opened Machine
  import opened Soundness
  import opened Planning
  import opened Remediation
  import opened Books
  import opened Staging
  import opened Trace
  import opened Runs
  import M = StaleMarkers
  import P = Partition
  import N = Names
  import S = Store

  // ---- a task resplit twice ---------------------------------------------------------------

  /** Two files packed into one chunk. */
  function OneStage(a: Record, b: Record): Stages {
    [StageSpec(ReadsSource([P.Chunk("a", [a], 1.0), P.Chunk("b", [b], 1.0)]), 10, 0)]
  }

  const K: Key := Key(0, "c0")

  function Packed(a: Record, b: Record): Task { Task(K, FromSource, [P.Ref("a", [a]), P.Ref("b", [b])], 2.0) }

  const Whole: seq<Entry> := [Entry("c0", 2.0)]

  /** The stage is planned, its one task handed out; the lease runs out, and then the worker reports a failure. */
  function Stale(a: Record, b: Record): seq<Step> {
    [Spawn(0), WriteManifest(0, Whole), Register(Packed(a, b)), EnqueueTask(K), ClaimTask(0, 0.0, 1.0), Poll(1.0), FailTask(0)]
  }

  function Twice(a: Record, b: Record): World {
    World(map[K := Packed(a, b)], Queue(0, [], [], [K, K], map[K := 2]), map[], {}, map[0 := Whole], map[0 := Idle], map[])
  }

  function With(a: Record, b: Record, q: Queue, x: Worker): World { Twice(a, b).(queue := q, workers := map[0 := x]) }

  const Handed: Queue := Queue(0, [], [Lease(K, 1.0)], [], map[K := 0])
  const Lost: Queue := Queue(0, [], [], [K], map[K := 1])

  lemma IsHanded(p: Program, a: Record, b: Record)
    ensures Apply(p, With(a, b, Queue(0, [K], [], [], map[K := 0]), Idle), ClaimTask(0, 0.0, 1.0))
      == With(a, b, Handed, Claimed(K))
  {
    var wd := With(a, b, Queue(0, [K], [], [], map[K := 0]), Idle);
    assert [K] == [K] + [];
    Claims(p, wd, K, []);
    assert Holding(wd, K, [], Claimed(K)) == With(a, b, Handed, Claimed(K));
  }

  lemma Expires()
    ensures Sweep(Handed, 1.0) == Lost
  {
    var q := Handed;
    assert [Lease(K, 1.0)][1..] == [] && [K][1..] == [];
    assert ExpiredKeys(q.inflight, 1.0) == [K] + ExpiredKeys([], 1.0) == [K];
    assert Pop(q.inflight, K) == [];
    assert map[K := 0][K := 1] == map[K := 1] && [] + [K] == [K];
    assert Fail(q, K) == Lost;
    assert ExpireAll(q, [K]) == ExpireAll(Fail(q, K), []);
  }

  lemma RunsOut(p: Program, a: Record, b: Record)
    ensures Apply(p, With(a, b, Handed, Claimed(K)), Poll(1.0)) == With(a, b, Lost, Claimed(K))
  {
    hide Sweep;
    Expires();
  }

  lemma IsReported(p: Program, a: Record, b: Record)
    ensures Apply(p, With(a, b, Lost, Claimed(K)), FailTask(0)) == Twice(a, b)
  {
    assert map[0 := Claimed(K)][0 := Idle] == map[0 := Idle];
    assert map[K := 1][K := 2] == map[K := 2] && [K] + [K] == [K, K];
    assert Fail(Lost, K) == Queue(0, [], [], [K, K], map[K := 2]);
  }

  lemma StaleRuns(p: Program, a: Record, b: Record)
    ensures Reaches(p, M.Empty0(), Stale(a, b), Twice(a, b))
  {
    hide Reaches;
    var x, w := Stale(a, b), M.Empty0();
    assert x[..1] == [] + [x[0]] && x[..2] == x[..1] + [x[1]] && x[..3] == x[..2] + [x[2]] && x[..4] == x[..3] + [x[3]];
    assert x[..5] == x[..4] + [x[4]] && x[..6] == x[..5] + [x[5]] && x == x[..6] + [x[6]];
    var w1 := w.(workers := map[0 := Idle]);
    var w2 := w1.(manifests := map[0 := Whole]);
    var w3 := With(a, b, Queue(0, [], [], [], map[]), Idle);
    StartsOff(p, a, b);
    IsHanded(p, a, b);
    RunsOut(p, a, b);
    IsReported(p, a, b);
    Start(p, w);
    Then(p, w, [], w, x[0]);
    Then(p, w, x[..1], w1, x[1]);
    Then(p, w, x[..2], w2, x[2]);
    Then(p, w, x[..3], w3, x[3]);
    Then(p, w, x[..4], With(a, b, Queue(0, [K], [], [], map[K := 0]), Idle), x[4]);
    Then(p, w, x[..5], With(a, b, Handed, Claimed(K)), x[5]);
    Then(p, w, x[..6], With(a, b, Lost, Claimed(K)), x[6]);
  }

  lemma StartsOff(p: Program, a: Record, b: Record)
    ensures var w := M.Empty0();
      var w1 := w.(workers := map[0 := Idle]);
      var w2 := w1.(manifests := map[0 := Whole]);
      var w3 := With(a, b, Queue(0, [], [], [], map[]), Idle);
      && Apply(p, w, Spawn(0)) == w1 && Apply(p, w1, WriteManifest(0, Whole)) == w2
      && Apply(p, w2, Register(Packed(a, b))) == w3
      && Apply(p, w3, EnqueueTask(K)) == With(a, b, Queue(0, [K], [], [], map[K := 0]), Idle)
  {
    assert [] + [K] == [K];
  }

  /** A chunk resplit twice in one round: its pieces stand in the manifest twice. */
  lemma {:induction false} ResplitTwice(ts: Tasks, m: seq<Entry>, t: Task)
    requires t.key in ts && ts[t.key] == t && |t.members| > 1 && IsPackedId(t.key.chunk)
    ensures AllKnown(ts, [t.key, t.key])
    ensures RoundManifest(ts, m, [t.key, t.key], [Resplit, Resplit])
      == Drop(m, t.key.chunk) + PieceEntries(t) + PieceEntries(t)
    ensures !DistinctIds(RoundManifest(ts, m, [t.key, t.key], [Resplit, Resplit]))
  {
    var k, id, ps := t.key, t.key.chunk, PieceEntries(t);
    var kept := Drop(m, id);
    assert [k, k][..1] == [k] && [Resplit, Resplit][..1] == [Resplit] && [k][..0] == [] && [Resplit][..0] == [];
    var once := RoundManifest(ts, m, [k], [Resplit]);
    assert once == kept + ps by { assert RoundManifest(ts, m, [], []) == m; }
    forall i | 0 <= i < |once| ensures once[i].id != id {
      if i < |kept| {
        assert kept[i] in kept;
      } else {
        PieceIdsUnique(id, i - |kept|, id, 0);
      }
    }
    DropAbsent(once, id);
    var both := kept + ps + ps;
    assert both[|kept|] == both[|kept| + |ps|];
  }

  lemma StalePlan(a: Record, b: Record, wd: World)
    ensures PlanSteps(OneStage(a, b), wd, 0) == [WriteManifest(0, Whole), Register(Packed(a, b))]
    ensures PlannedTasks(OneStage(a, b), wd, 0) == [Packed(a, b)]
  {
    var stages := OneStage(a, b);
    var x, y := P.Chunk("a", [a], 1.0), P.Chunk("b", [b], 1.0);
    ReplanReusesIds(stages[0], x, y);
    var cs := PlanChunks(stages[0], [x, y]);
    assert ManifestFor(cs) == Whole && TasksFor(0, stages[0], cs) == [Packed(a, b)];
  }

  /**
   Without the lease discipline a manifest may come to name a chunk twice. The controller planned one chunk and handed it
   out. Its lease ran out, which made it a dead letter, and then the worker that had lost it reported its failure, which made
   it another. A round that resplits every dead letter it finds then puts each piece into the manifest twice.
   */
  lemma StaleFailureDoubles(p: Program, a: Record, b: Record)
    ensures var wd := Twice(a, b);
      && Reaches(p, M.Empty0(), Stale(a, b), wd)
      && Own(Stale(a, b)) == PlanSteps(OneStage(a, b), M.Empty0(), 0) + Sends([K])
      && DeadIn(wd.queue.dlq, {K}) == [K, K] && Remediable(true, 1, [Resplit, Resplit], 2)
      && AllKnown(wd.tasks, [K, K])
      && RoundManifest(wd.tasks, Manifest(wd, 0), [K, K], [Resplit, Resplit])
        == [Entry("c0-m0", 1.0), Entry("c0-m1", 1.0), Entry("c0-m0", 1.0), Entry("c0-m1", 1.0)]
  {
    hide Reaches, Own, RoundManifest, PieceEntries, PieceId, PlanSteps, Sends, DeadIn, IsPackedId;
    var wd, t := Twice(a, b), Packed(a, b);
    StaleRuns(p, a, b);
    StalePlan(a, b, M.Empty0());
    var x := Stale(a, b);
    var mine := [WriteManifest(0, Whole), Register(t), EnqueueTask(K)];
    assert x == [Spawn(0)] + mine + x[4..];
    OwnNone([Spawn(0)]);
    OwnAll(mine);
    OwnNone(x[4..]);
    OwnJoined([Spawn(0)], mine);
    OwnJoined([Spawn(0)] + mine, x[4..]);
    SentAlone();
    BothDead();
    PieceNames(t);
    ResplitTwice(wd.tasks, Whole, t);
    assert Drop(Whole, "c0") == [] by { assert Whole[1..] == []; }
  }

  lemma SentAlone()
    ensures Sends([K]) == [EnqueueTask(K)]
  {
  }

  lemma BothDead()
    ensures DeadIn([K, K], {K}) == [K, K]
  {
    assert [K, K][1..] == [K] && [K][1..] == [];
    assert DeadIn([K], {K}) == [K] + DeadIn([], {K}) == [K];
  }

  lemma PieceNames(t: Task)
    requires |t.members| == 2 && t.key == K && t.weight == 2.0
    ensures IsPackedId("c0") && PieceEntries(t) == [Entry("c0-m0", 1.0), Entry("c0-m1", 1.0)]
  {
    hide PieceEntries, PieceEntry, PieceId;
    FirstIds();
    assert PieceEntries(t)[0] == PieceEntry(t, 0) && PieceEntries(t)[1] == PieceEntry(t, 1);
    PieceNamed(t, 0);
    PieceNamed(t, 1);
  }

  lemma PieceNamed(t: Task, j: nat)
    requires j < |t.members| == 2 && t.key == K && t.weight == 2.0
    ensures PieceEntry(t, j) == Entry(PieceId("c0", j), 1.0)
  {
  }

  lemma FirstIds()
    ensures IsPackedId("c0") && PieceId("c0", 0) == "c0-m0" && PieceId("c0", 1) == "c0-m1"
  {
    assert N.Dec(0) == "0" && N.Dec(1) == "1";
    assert "c" + N.Dec(0) == "c0";
    assert "c0" + "-m" == "c0-m" && "c0-m" + "0" == "c0-m0" && "c0-m" + "1" == "c0-m1";
  }

  // ---- two remedies under a cap of one ---------------------------------------------------------------

  /** Both tasks of a stage are handed out and die. */
  function TwoDie(a: Record, b: Record): seq<Step> { M.Opening(a, b) + Sends([M.A]) + Sends([M.B]) + Dies() + Dies() }

  function TwoDead(a: Record, b: Record): World {
    M.Sent0(a, b).(queue := Queue(0, [], [], [M.A, M.B], map[M.A := 1, M.B := 1]))
  }

  lemma TwoDieRuns(f: S.Format, a: Record, b: Record)
    ensures Reaches(Copying(f), M.Empty0(), TwoDie(a, b), TwoDead(a, b))
  {
    hide Reaches, M.Opening, Sends, Dies;
    var p, w := Copying(f), M.Sent0(a, b);
    var h := M.Opening(a, b) + Sends([M.A]) + Sends([M.B]);
    M.Begins(f, a, b);
    assert [M.A, M.B] == [M.A] + [M.B] && [M.B] == [M.B] + [];
    Died(p, w, M.A, [M.B]);
    assert [] + [M.A] == [M.A] && map[M.A := 0, M.B := 0][M.A := 1] == map[M.A := 1, M.B := 0];
    var w1 := w.(queue := Queue(0, [M.B], [], [M.A], map[M.A := 1, M.B := 0]));
    Died(p, w1, M.B, []);
    assert [M.A] + [M.B] == [M.A, M.B] && map[M.A := 1, M.B := 0][M.B := 1] == map[M.A := 1, M.B := 1];
    Joined(p, M.Empty0(), h, w, Dies(), w1);
    Joined(p, M.Empty0(), h + Dies(), w1, Dies(), TwoDead(a, b));
  }

  lemma RetriesBoth(ts: Tasks, m: seq<Entry>, x: Key, y: Key)
    requires x in ts && y in ts
    ensures AllKnown(ts, [x, y]) && RoundSteps(ts, m, [x, y], [RetryWith, RetryWith]) == RetrySteps(x) + RetrySteps(y)
    ensures RoundKeys(ts, [x, y], [RetryWith, RetryWith]) == [x, y]
  {
    assert [x, y][..1] == [x] && [RetryWith, RetryWith][..1] == [RetryWith] && [x][..0] == [] && [RetryWith][..0] == [];
    assert RoundSteps(ts, m, [x], [RetryWith]) == [] + RetrySteps(x) == RetrySteps(x);
    assert RoundKeys(ts, [x], [RetryWith]) == [] + [x];
  }

  /**
   The cap on remedies bounds rounds, not fixes. With a cap of one, and two dead chunks at one poll that the handler wants
   retried, the turn the drain takes retries both.
   */
  lemma CapIsOnRounds(f: S.Format, a: Record, b: Record, own: seq<Step>)
    ensures var wd, x, y := TwoDead(a, b), M.A, M.B;
      && Reaches(Copying(f), M.Empty0(), TwoDie(a, b), wd)
      && TurnIs(wd, 0, {x, y}, true, 1, own, own + RetrySteps(x) + RetrySteps(y) + Takes([x, y]),
                [RetryWith, RetryWith], [], Again({x, y}, true))
  {
    hide Reaches, RoundSteps, RoundKeys, DeadIn, Remaining, RetrySteps, Takes, AllKnown;
    var wd, x, y := TwoDead(a, b), M.A, M.B;
    TwoDieRuns(f, a, b);
    RetriesBoth(wd.tasks, Manifest(wd, 0), x, y);
    TwoFound();
    assert [RetryWith, RetryWith][..2] == [RetryWith, RetryWith] && [RetryWith, RetryWith][2..] == [];
    assert own + RetrySteps(x) + RetrySteps(y) == own + (RetrySteps(x) + RetrySteps(y));
  }

  lemma TwoFound()
    ensures var x, y := M.A, M.B;
      DeadIn([x, y], {x, y}) == [x, y] && Remaining({x, y}, [x, y], [x, y]) == {x, y}
  {
    var x, y := M.A, M.B;
    assert [x, y][1..] == [y] && [y][1..] == [];
    assert DeadIn([y], {x, y}) == [y] + DeadIn([], {x, y}) == [y];
  }
}
