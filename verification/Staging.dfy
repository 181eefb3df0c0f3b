/** From a plan to a running stage: what planning establishes, and what enqueueing the chunks held back keeps. */
module Staging {
  import opened Sequences
  import opened Queue
  import opened Machine
  import opened Soundness
  import opened Tracking
  import opened Interleave
  import opened Planning
  import opened Remediation
  import opened Books
  import P = Partition

  // ---- the plan ---------------------------------------------------------------------------

  /** What stage `s` is planned over. */
  function Ups(stages: Stages, wd: World, s: nat): seq<P.Chunk>
    requires s < |stages|
  {
    UpstreamChunks(stages[s], if stages[s].input.ReadsStage? then Manifest(wd, stages[s].input.index) else [])
  }

  function Planned(stages: Stages, wd: World, s: nat): seq<P.Packed>
    requires s < |stages|
  {
    PlanChunks(stages[s], Ups(stages, wd, s))
  }

  function PlannedTasks(stages: Stages, wd: World, s: nat): seq<Task>
    requires s < |stages|
  {
    TasksFor(s, stages[s], Planned(stages, wd, s))
  }

  /** The stage is over: every chunk its manifest names is known and has a marker. */
  ghost predicate Complete(wd: World, s: nat) {
    s in wd.manifests && forall e :: e in Manifest(wd, s) ==> Key(s, e.id) in wd.tasks && Key(s, e.id) in wd.markers
  }

  /** What the stage reads is there, all of it finished. An upstream manifest may name a chunk more than once. */
  ghost predicate UpstreamReady(stages: Stages, wd: World, s: nat)
    requires s < |stages|
  {
    match stages[s].input
    case ReadsNothing => true
    case ReadsSource(chunks) => DistinctChunkIds(chunks)
    case ReadsStage(j) => j < s && Complete(wd, j) && Named(wd.tasks, j, Manifest(wd, j))
  }

  /** The upstream manifest names every chunk once. */
  predicate DistinctUpstream(stages: Stages, wd: World, s: nat)
    requires s < |stages|
  {
    stages[s].input.ReadsStage? ==> DistinctIds(Manifest(wd, stages[s].input.index))
  }

  /** Nobody has any chunk of the stage. */
  ghost predicate StageIdle(wd: World, s: nat) { forall k: Key :: k.stage == s ==> Untouched(wd, k) }

  predicate KeysDistinct(planned: seq<Task>) {
    forall i, j :: 0 <= i < j < |planned| ==> planned[i].key != planned[j].key
  }

  /** A key that occurs more than once stands for one task. */
  predicate Consistent(planned: seq<Task>) {
    forall i, j :: 0 <= i < |planned| && 0 <= j < |planned| && planned[i].key == planned[j].key ==> planned[i] == planned[j]
  }

  /** No task of the stage is known. */
  ghost predicate NoneKnown(ts: Tasks, s: nat) { forall k :: k in ts ==> k.stage != s }

  /** The known tasks of the stage are among the planned ones. */
  ghost predicate KnownArePlanned(ts: Tasks, s: nat, planned: seq<Task>) {
    forall k :: k in ts && k.stage == s ==> ts[k].key == k && ts[k] in planned
  }

  /** The first `n` planned tasks are known too. */
  function WithTasks(ts: Tasks, planned: seq<Task>, n: nat): Tasks
    requires n <= |planned|
  {
    if n == 0 then ts else WithTasks(ts, planned, n - 1)[planned[n - 1].key := planned[n - 1]]
  }

  lemma {:induction false} WithTasksAre(ts: Tasks, s: nat, planned: seq<Task>, n: nat)
    requires n <= |planned| && Consistent(planned) && NoneKnown(ts, s)
    requires forall i :: 0 <= i < |planned| ==> planned[i].key.stage == s
    ensures var r := WithTasks(ts, planned, n);
      && KnownArePlanned(r, s, planned)
      && (forall k :: k in ts ==> k in r && r[k] == ts[k])
      && (forall k: Key :: k.stage != s && k in r ==> k in ts)
      && forall i :: 0 <= i < n ==> planned[i].key in r && r[planned[i].key] == planned[i]
  {
    if n > 0 {
      WithTasksAre(ts, s, planned, n - 1);
      assert WithTasks(ts, planned, n) == WithTasks(ts, planned, n - 1)[planned[n - 1].key := planned[n - 1]];
    }
  }

  /** Equal chunks to plan over, wherever they have the same id. */
  predicate SameIdSameChunk(ups: seq<P.Chunk>) {
    forall i, j :: 0 <= i < |ups| && 0 <= j < |ups| && ups[i].id == ups[j].id ==> ups[i] == ups[j]
  }

  lemma UpsConsistent(stages: Stages, wd: World, s: nat)
    requires s < |stages| && UpstreamReady(stages, wd, s)
    ensures SameIdSameChunk(Ups(stages, wd, s))
    ensures DistinctUpstream(stages, wd, s) ==> DistinctChunkIds(Ups(stages, wd, s))
  {
  }

  lemma PackedDistinct(st: StageSpec, ups: seq<P.Chunk>, target: real, i: nat, j: nat)
    requires target > 0.0 && PlanChunks(st, ups) == P.Packing(ups, target, "c") && i < j < |PlanChunks(st, ups)|
    ensures PlanChunks(st, ups)[i].id != PlanChunks(st, ups)[j].id
  {
    var blocks := P.GreedyBlocks(ups, target);
    if PlanChunks(st, ups)[i].id == PlanChunks(st, ups)[j].id { P.PackedIdsDistinct(blocks, "c", i, j); }
  }

  /** Planned chunks of one id are one chunk. */
  lemma PlanConsistent(st: StageSpec, ups: seq<P.Chunk>, i: nat, j: nat)
    requires SameIdSameChunk(ups) && i < j < |PlanChunks(st, ups)|
    ensures PlanChunks(st, ups)[i].id == PlanChunks(st, ups)[j].id ==> PlanChunks(st, ups)[i] == PlanChunks(st, ups)[j]
  {
    if st.targetRows > 0 {
      PackedDistinct(st, ups, st.targetRows as real, i, j);
    } else if st.targetRows == 0 && st.targetBytes > 0 {
      PackedDistinct(st, ups, st.targetBytes as real, i, j);
    }
  }

  lemma PlannedKeys(stages: Stages, wd: World, s: nat)
    requires s < |stages| && UpstreamReady(stages, wd, s)
    ensures Consistent(PlannedTasks(stages, wd, s))
    ensures forall i :: 0 <= i < |PlannedTasks(stages, wd, s)| ==> PlannedTasks(stages, wd, s)[i].key.stage == s
    ensures DistinctUpstream(stages, wd, s) ==>
      KeysDistinct(PlannedTasks(stages, wd, s)) && DistinctIds(ManifestFor(Planned(stages, wd, s)))
  {
    hide PlanChunks;
    var ups, cs, ts := Ups(stages, wd, s), Planned(stages, wd, s), PlannedTasks(stages, wd, s);
    UpsConsistent(stages, wd, s);
    forall i, j | 0 <= i < j < |ts| && ts[i].key == ts[j].key ensures ts[i] == ts[j] {
      PlanConsistent(stages[s], ups, i, j);
    }
    if DistinctUpstream(stages, wd, s) {
      PlanIdsDistinct(stages[s], ups);
      forall i, j | 0 <= i < j < |ts| ensures ts[i].key != ts[j].key {
        assert ManifestFor(cs)[i].id != ManifestFor(cs)[j].id;
      }
    }
  }

  /** What a planned task reads is known and finished. */
  lemma PlannedReads(stages: Stages, wd: World, s: nat, i: nat)
    requires s < |stages| && UpstreamReady(stages, wd, s) && i < |PlannedTasks(stages, wd, s)|
    ensures var t := PlannedTasks(stages, wd, s)[i];
      && ReadsEarlier(wd.tasks, t)
      && (t.up.FromStage? ==> forall m :: 0 <= m < |t.members| ==> MemberKey(t, t.members[m]) in wd.markers)
  {
    var ups, t := Ups(stages, wd, s), PlannedTasks(stages, wd, s)[i];
    if t.up.FromStage? {
      forall m | 0 <= m < |t.members| ensures MemberKey(t, t.members[m]) in wd.tasks && MemberKey(t, t.members[m]) in wd.markers {
        MembersAreUpstream(stages[s], ups, i, m);
        var u :| 0 <= u < |ups| && t.members[m] == P.ToRef(ups[u]);
        assert Manifest(wd, stages[s].input.index)[u] in Manifest(wd, stages[s].input.index);
      }
    }
  }

  // ---- what planning establishes ------------------------------------------------------------

  function KeySet(ts: seq<Task>): set<Key> { set t | t in ts :: t.key }

  /** The bag of members and the weight a plan stands for. */
  function PlanBag(st: StageSpec, ups: seq<P.Chunk>): multiset<P.Ref> {
    if st.input.ReadsNothing? then multiset{} else multiset(P.Refs(ups))
  }

  /** The planned tasks are known and their manifest is written. */
  ghost predicate PlanMade(stages: Stages, a: World, b: World, s: nat)
    requires s < |stages|
  {
    && b.tasks == WithTasks(a.tasks, PlannedTasks(stages, a, s), |PlannedTasks(stages, a, s)|)
    && b.manifests == a.manifests[s := ManifestFor(Planned(stages, a, s))]
  }

  ghost predicate MayPlan(stages: Stages, wd: World, s: nat)
    requires s < |stages|
  {
    UpstreamReady(stages, wd, s) && StageIdle(wd, s) && NoneKnown(wd.tasks, s)
  }

  lemma PlanKnown(stages: Stages, a: World, b: World, s: nat)
    requires s < |stages| && MayPlan(stages, a, s) && PlanMade(stages, a, b, s)
    ensures KnownArePlanned(b.tasks, s, PlannedTasks(stages, a, s))
    ensures forall i :: 0 <= i < |PlannedTasks(stages, a, s)| ==>
      var t := PlannedTasks(stages, a, s)[i]; t.key.stage == s && t.key in b.tasks && b.tasks[t.key] == t
  {
    PlannedKeys(stages, a, s);
    WithTasksAre(a.tasks, s, PlannedTasks(stages, a, s), |PlannedTasks(stages, a, s)|);
  }

  lemma PlanFed(stages: Stages, strict: bool, a: World, b: World, s: nat)
    requires s < |stages| && MayPlan(stages, a, s) && PlanMade(stages, a, b, s) && Advanced(strict, a, b, multiset{})
    ensures forall k :: k in KeySet(PlannedTasks(stages, a, s)) ==> k.stage == s && Fed(b, k) && Untouched(b, k)
  {
    var planned := PlannedTasks(stages, a, s);
    PlanKnown(stages, a, b, s);
    forall k | k in KeySet(planned) ensures k.stage == s && Fed(b, k) && Untouched(b, k) {
      var i :| 0 <= i < |planned| && planned[i].key == k;
      PlannedReads(stages, a, s, i);
      assert Untouched(a, k);
    }
  }

  /** Which of the planned chunks a known task of the stage is. */
  lemma PlannedIndex(stages: Stages, a: World, b: World, s: nat, k: Key) returns (i: nat)
    requires s < |stages| && MayPlan(stages, a, s) && PlanMade(stages, a, b, s) && k in b.tasks && k.stage == s
    ensures i < |Planned(stages, a, s)| && PlannedTasks(stages, a, s)[i] == b.tasks[k]
    ensures k.chunk == Planned(stages, a, s)[i].id
  {
    PlanKnown(stages, a, b, s);
    i :| 0 <= i < |PlannedTasks(stages, a, s)| && PlannedTasks(stages, a, s)[i] == b.tasks[k];
  }

  /** A planned chunk of several members has a packed id, and no planned chunk has the id of one of its pieces. */
  lemma PlanHasNoPieces(stages: Stages, a: World, b: World, s: nat, k: Key, x: Key, j: nat)
    requires s < |stages| && MayPlan(stages, a, s) && PlanMade(stages, a, b, s)
    requires k in b.tasks && k.stage == s && |b.tasks[k].members| > 1 && x in b.tasks && x.stage == s
    ensures IsPackedId(k.chunk) && IsPackedId(x.chunk) && x.chunk != PieceId(k.chunk, j)
  {
    var i := PlannedIndex(stages, a, b, s, k);
    var m := PlannedIndex(stages, a, b, s, x);
    SharedChunksAreNumbered(stages[s], Ups(stages, a, s), i, i);
    SharedChunksAreNumbered(stages[s], Ups(stages, a, s), i, m);
    PieceIdsUnique(k.chunk, j, x.chunk, 0);
  }

  lemma PlanPiecesNamed(stages: Stages, a: World, b: World, s: nat)
    requires s < |stages| && MayPlan(stages, a, s) && PlanMade(stages, a, b, s)
    ensures PiecesNamed(b.tasks, s)
  {
    PlanKnown(stages, a, b, s);
    forall k | k in b.tasks && k.stage == s && |b.tasks[k].members| > 1 ensures PiecesNamedOf(b.tasks, k) {
      PlanHasNoPieces(stages, a, b, s, k, k, 0);
      forall j | 0 <= j < |b.tasks[k].members| ensures Piece(b.tasks[k], j).key !in b.tasks {
        if Piece(b.tasks[k], j).key in b.tasks {
          PlanHasNoPieces(stages, a, b, s, k, Piece(b.tasks[k], j).key, j);
        }
      }
    }
  }

  lemma PlanHeldBack(stages: Stages, strict: bool, a: World, b: World, s: nat)
    requires s < |stages| && MayPlan(stages, a, s) && PlanMade(stages, a, b, s) && Advanced(strict, a, b, multiset{})
    ensures HeldBack(b, s, KeySet(PlannedTasks(stages, a, s)))
  {
    hide MayPlan, PlanMade, PlannedTasks, Advanced, Untouched, Fed;
    var planned := PlannedTasks(stages, a, s);
    PlanFed(stages, strict, a, b, s);
    PlanKnown(stages, a, b, s);
    forall k, j | k in b.tasks && k.stage == s && 0 <= j < |b.tasks[k].members| && |b.tasks[k].members| > 1
      ensures Piece(b.tasks[k], j).key !in KeySet(planned)
    {
      if Piece(b.tasks[k], j).key in KeySet(planned) {
        assert b.tasks[k].key == k;
        PlanHasNoPieces(stages, a, b, s, k, Piece(b.tasks[k], j).key, j);
      }
    }
  }

  lemma PlanCovered(stages: Stages, a: World, b: World, s: nat)
    requires s < |stages| && PlanMade(stages, a, b, s)
    ensures Covered(b, s, KeySet(PlannedTasks(stages, a, s)))
  {
    hide PlanChunks, Ups, WithTasks;
    var planned := PlannedTasks(stages, a, s);
    forall e | e in Manifest(b, s) ensures Key(s, e.id) in KeySet(planned) {
      var i :| 0 <= i < |planned| && Manifest(b, s)[i] == e;
      assert planned[i] in planned;
    }
  }

  lemma PlanNames(stages: Stages, a: World, b: World, s: nat)
    requires s < |stages| && PlanMade(stages, a, b, s)
    ensures forall k :: k in KeySet(PlannedTasks(stages, a, s)) ==> InManifest(b, s, k)
  {
    var planned := PlannedTasks(stages, a, s);
    forall k | k in KeySet(planned) ensures InManifest(b, s, k) {
      var i :| 0 <= i < |planned| && planned[i].key == k;
      assert Manifest(b, s)[i].id == k.chunk;
    }
  }

  // ---- the books at the start ------------------------------------------------------------------

  /** The tasks are known just as planned. */
  ghost predicate KnownAs(ts: Tasks, s: nat, st: StageSpec, cs: seq<P.Packed>) {
    forall i :: 0 <= i < |cs| ==> Key(s, cs[i].id) in ts && ts[Key(s, cs[i].id)] == TaskFor(s, st, cs[i])
  }

  lemma KnownAsNamed(ts: Tasks, s: nat, st: StageSpec, cs: seq<P.Packed>)
    requires KnownAs(ts, s, st, cs)
    ensures Named(ts, s, ManifestFor(cs))
  {
    var es := ManifestFor(cs);
    forall i | 0 <= i < |es| ensures Key(s, es[i].id) in ts && ts[Key(s, es[i].id)].weight == es[i].weight {
      assert Key(s, cs[i].id) in ts;
    }
  }

  lemma PlanTail(cs: seq<P.Packed>)
    requires cs != []
    ensures ManifestFor(cs)[1..] == ManifestFor(cs[1..])
    ensures Concat(P.MembersOf(cs)) == cs[0].members + Concat(P.MembersOf(cs[1..]))
  {
    assert P.MembersOf(cs)[1..] == P.MembersOf(cs[1..]);
  }

  lemma PlanNone()
    ensures ManifestFor([]) == [] && Concat(P.MembersOf([])) == []
  {
  }

  lemma {:induction false} BagOfPlan(ts: Tasks, s: nat, st: StageSpec, cs: seq<P.Packed>)
    requires KnownAs(ts, s, st, cs)
    ensures Named(ts, s, ManifestFor(cs))
    ensures Bag(ts, s, ManifestFor(cs)) == if st.input.ReadsNothing? then multiset{} else multiset(Concat(P.MembersOf(cs)))
  {
    hide Bag, Named, Concat, P.MembersOf;
    KnownAsNamed(ts, s, st, cs);
    if cs == [] {
      PlanNone();
      BagNone(ts, s);
    } else {
      KnownAsTail(ts, s, st, cs);
      BagOfPlan(ts, s, st, cs[1..]);
      PlanTail(cs);
      BagHead(ts, s, ManifestFor(cs));
    }
  }

  lemma KnownAsTail(ts: Tasks, s: nat, st: StageSpec, cs: seq<P.Packed>)
    requires KnownAs(ts, s, st, cs) && cs != []
    ensures KnownAs(ts, s, st, cs[1..])
  {
    forall i | 0 <= i < |cs| - 1 ensures Key(s, cs[1..][i].id) in ts && ts[Key(s, cs[1..][i].id)] == TaskFor(s, st, cs[1..][i]) {
      assert cs[1..][i] == cs[i + 1];
    }
  }

  lemma {:induction false} LoadOfPlan(cs: seq<P.Packed>)
    ensures Load(ManifestFor(cs)) == Sum(P.PackedWeights(cs))
  {
    if cs != [] {
      LoadOfPlan(cs[1..]);
      assert ManifestFor(cs)[1..] == ManifestFor(cs[1..]);
      assert P.PackedWeights(cs)[1..] == P.PackedWeights(cs[1..]);
    }
  }

  /** The planned chunks are known as planned. */
  lemma PlanKnownAs(stages: Stages, a: World, b: World, s: nat)
    requires s < |stages| && MayPlan(stages, a, s) && PlanMade(stages, a, b, s)
    ensures KnownAs(b.tasks, s, stages[s], Planned(stages, a, s)) && Named(b.tasks, s, Manifest(b, s))
  {
    var cs, planned := Planned(stages, a, s), PlannedTasks(stages, a, s);
    PlanKnown(stages, a, b, s);
    forall i | 0 <= i < |cs| ensures Key(s, cs[i].id) in b.tasks && b.tasks[Key(s, cs[i].id)] == TaskFor(s, stages[s], cs[i]) {
      assert planned[i] == TaskFor(s, stages[s], cs[i]);
    }
    KnownAsNamed(b.tasks, s, stages[s], cs);
  }

  lemma PlanBalanced(stages: Stages, a: World, b: World, s: nat)
    requires s < |stages| && MayPlan(stages, a, s) && DistinctUpstream(stages, a, s) && PlanMade(stages, a, b, s)
    ensures Balanced(b.tasks, s, Manifest(b, s), PlanBag(stages[s], Ups(stages, a, s)), P.Weight(Ups(stages, a, s)))
  {
    var cs := Planned(stages, a, s);
    PlannedKeys(stages, a, s);
    PlanKnownAs(stages, a, b, s);
    BagOfPlan(b.tasks, s, stages[s], cs);
    LoadOfPlan(cs);
    PlanConserves(stages[s], Ups(stages, a, s));
  }

  lemma PlanBalances(stages: Stages, strict: bool, a: World, b: World, s: nat)
    requires s < |stages| && MayPlan(stages, a, s) && PlanMade(stages, a, b, s) && Advanced(strict, a, b, multiset{})
    requires DistinctUpstream(stages, a, s)
    ensures InOrder(b, s, PlanBag(stages[s], Ups(stages, a, s)), P.Weight(Ups(stages, a, s)), [])
  {
    var es := Manifest(b, s);
    PlanBalanced(stages, a, b, s);
    forall k: Key | k.stage == s ensures Copies(b.queue, k) == 0 {
      assert Untouched(a, k);
      assert Untouched(b, k);
    }
    forall i, e, j | 0 <= i < |es| && e in es && 0 <= j < MemberCount(b.tasks, s, es[i].id) && MemberCount(b.tasks, s, es[i].id) > 1
      ensures e.id != PieceId(es[i].id, j)
    {
      var m :| 0 <= m < |es| && es[m] == e;
      PlanHasNoPieces(stages, a, b, s, Key(s, es[i].id), Key(s, e.id), j);
    }
  }

  /** Once a stage is planned, all its chunks are held back, and its books show exactly what it was planned over. */
  lemma PlanDraining(stages: Stages, strict: bool, a: World, b: World, s: nat)
    requires s < |stages| && MayPlan(stages, a, s) && PlanMade(stages, a, b, s) && Advanced(strict, a, b, multiset{})
    requires strict ==> DistinctUpstream(stages, a, s)
    ensures var ups := Ups(stages, a, s);
      Draining(strict, b, s, {}, KeySet(PlannedTasks(stages, a, s)), PlanBag(stages[s], ups), P.Weight(ups))
  {
    var all := KeySet(PlannedTasks(stages, a, s));
    PlanPiecesNamed(stages, a, b, s);
    PlanHeldBack(stages, strict, a, b, s);
    PlanCovered(stages, a, b, s);
    PlanNames(stages, a, b, s);
    PlanKnownAs(stages, a, b, s);
    if strict { PlanBalances(stages, strict, a, b, s); }
    assert {} + all == all;
  }

  /** Planning a stage leaves the others alone. */
  lemma PlanElsewhere(stages: Stages, strict: bool, a: World, b: World, s: nat)
    requires s < |stages| && MayPlan(stages, a, s) && PlanMade(stages, a, b, s) && Advanced(strict, a, b, multiset{})
    ensures Since(a, b, s)
  {
    PlannedKeys(stages, a, s);
    WithTasksAre(a.tasks, s, PlannedTasks(stages, a, s), |PlannedTasks(stages, a, s)|);
  }

  /** The known tasks of the stage are planned ones and pieces of planned ones. */
  ghost predicate OnlyPlanned(ts: Tasks, s: nat, planned: seq<Task>) {
    forall k :: k in ts && k.stage == s ==>
      ts[k] in planned || exists m :: 0 <= m < |planned| && IsPiece(planned[m], ts[k])
  }

  lemma PlanFollowed(stages: Stages, a: World, b: World, c: World, s: nat)
    requires s < |stages| && MayPlan(stages, a, s) && PlanMade(stages, a, b, s) && Later(b, c) && OnlyPiecesCame(b, c, s)
    ensures OnlyPlanned(c.tasks, s, PlannedTasks(stages, a, s))
  {
    hide PlannedTasks, MayPlan, IsPiece;
    var planned := PlannedTasks(stages, a, s);
    PlanKnown(stages, a, b, s);
    forall k | k in c.tasks && k.stage == s && k !in b.tasks
      ensures exists m :: 0 <= m < |planned| && IsPiece(planned[m], c.tasks[k])
    {
      var x :| x in b.tasks && x.stage == s && IsPiece(b.tasks[x], c.tasks[k]);
      var m :| 0 <= m < |planned| && planned[m] == b.tasks[x];
    }
  }

  lemma PlanNonNegative(st: StageSpec, ups: seq<P.Chunk>, i: nat)
    requires P.NonNegative(ups) && i < |PlanChunks(st, ups)|
    ensures PlanChunks(st, ups)[i].weight >= 0.0
  {
    var target := if st.targetRows != 0 then st.targetRows as real else st.targetBytes as real;
    if target > 0.0 {
      var blocks := P.GreedyBlocks(ups, target);
      P.GreedyBlocksAreGreedy(ups, target);
      P.BlockNonNegative(blocks, i);
      P.WeightNonNegative(blocks[i]);
    }
  }

  /** A plan over chunks of non-negative weight has no task of negative weight. */
  lemma PlanLight(stages: Stages, a: World, b: World, s: nat)
    requires s < |stages| && MayPlan(stages, a, s) && PlanMade(stages, a, b, s)
    ensures P.NonNegative(Ups(stages, a, s)) ==> Light(b.tasks, s)
  {
    if P.NonNegative(Ups(stages, a, s)) {
      forall k | k in b.tasks && k.stage == s ensures b.tasks[k].weight >= 0.0 {
        var i := PlannedIndex(stages, a, b, s, k);
        PlanNonNegative(stages[s], Ups(stages, a, s), i);
      }
    }
  }

  lemma DuringFollowed(stages: Stages, a: World, b: World, c: World, s: nat)
    requires s < |stages| && MayPlan(stages, a, s) && PlanMade(stages, a, b, s) && During(b, c, s)
    ensures OnlyPlanned(c.tasks, s, PlannedTasks(stages, a, s))
  {
    hide OnlyPlanned, MayPlan, PlanMade;
    PlanFollowed(stages, a, b, c, s);
  }

  lemma MayPlanKeys(stages: Stages, wd: World, s: nat)
    requires s < |stages| && MayPlan(stages, wd, s)
    ensures DistinctUpstream(stages, wd, s) ==> KeysDistinct(PlannedTasks(stages, wd, s))
  {
    PlannedKeys(stages, wd, s);
  }

  lemma SamePlan(stages: Stages, a: World, b: World, c: World, s: nat)
    requires s < |stages| && PlanMade(stages, a, b, s) && c.tasks == b.tasks && c.manifests == b.manifests
    ensures PlanMade(stages, a, c, s)
  {
  }

  lemma NoKeys()
    ensures KeySet([]) == {}
  {
  }

  lemma BackOfStage(wd: World, s: nat, back: set<Key>)
    requires HeldBack(wd, s, back)
    ensures forall k :: k in back ==> k.stage == s
  {
  }

  lemma DrainCovers(strict: bool, wd: World, s: nat, back: set<Key>, bag: multiset<P.Ref>, load: real)
    requires Draining(strict, wd, s, {}, back, bag, load)
    ensures Covered(wd, s, back) && (strict ==> Balances(wd, s, bag, load))
  {
    assert {} + back == back;
  }

  /** When nothing is waited for and nothing held back, the stage is complete. */
  lemma DrainedComplete(p: Program, strict: bool, wd: World, s: nat, bag: multiset<P.Ref>, load: real)
    requires Inv(p, wd) && Draining(strict, wd, s, {}, {}, bag, load)
    ensures Complete(wd, s) && Named(wd.tasks, s, Manifest(wd, s))
    ensures (strict ==> Balances(wd, s, bag, load) && DistinctIds(Manifest(wd, s)))
  {
  }

  // ---- fewer held back ---------------------------------------------------------------------------

  /** A chunk that turns out to be finished need not be enqueued. */
  lemma CachedDraining(
      strict: bool, wd: World, s: nat, active: set<Key>, back: set<Key>, fewer: set<Key>, bag: multiset<P.Ref>, load: real)
    requires Draining(strict, wd, s, active, back, bag, load)
    requires fewer <= back && forall k :: k in back && k !in fewer ==> k in wd.markers
    ensures Draining(strict, wd, s, active, fewer, bag, load)
  {
  }

  lemma EnqueuedBooks(a: World, b: World, s: nat, ks: seq<Key>, back: set<Key>, bag: multiset<P.Ref>, load: real)
    requires InOrder(a, s, bag, load, []) && HeldBack(a, s, back) && Distinct(ks) && forall k :: k in ks ==> k in back
    requires WellFormed(a.tasks)
    requires Advanced(true, a, b, multiset(ks)) && b.tasks == a.tasks && b.manifests == a.manifests
    ensures InOrder(b, s, bag, load, [])
  {
    DistinctOnce(ks);
    forall k: Key | k.stage == s ensures Copies(b.queue, k) <= 1 {
      assert Copies(a.queue, k) <= 1 + (if k in [] then 1 else 0);
      if k in ks { assert Untouched(a, k); }
      assert Copies(b.queue, k) <= Copies(a.queue, k) + multiset(ks)[k];
    }
    var es := Manifest(a, s);
    forall i, j | 0 <= i < |es| && 0 <= j < MemberCount(b.tasks, s, es[i].id) && MemberCount(b.tasks, s, es[i].id) > 1
      ensures Copies(b.queue, Key(s, PieceId(es[i].id, j))) == 0
    {
      var k := Key(s, es[i].id);
      assert Piece(a.tasks[k], j).key !in back;
      var x := Piece(a.tasks[k], j).key;
      assert Copies(a.queue, x) == 0;
      assert Copies(b.queue, x) <= Copies(a.queue, x) + multiset(ks)[x];
    }
  }

  lemma BackIsReady(strict: bool, wd: World, s: nat, active: set<Key>, back: set<Key>, bag: multiset<P.Ref>, load: real)
    requires Draining(strict, wd, s, active, back, bag, load)
    ensures s in wd.manifests && HeldBack(wd, s, back) && forall k :: k in back ==> k.stage == s && Fed(wd, k)
    ensures strict ==> Balances(wd, s, bag, load)
  {
  }

  /** Chunks held back are enqueued: from then on they are waited for. */
  lemma EnqueuedDraining(
      strict: bool, a: World, b: World, s: nat, active: set<Key>, back: set<Key>, ks: seq<Key>, bag: multiset<P.Ref>, load: real)
    requires Draining(strict, a, s, active, back, bag, load) && forall k :: k in ks ==> k.stage == s && Fed(a, k)
    requires strict ==> Distinct(ks) && forall k :: k in ks ==> k in back
    requires WellFormed(a.tasks)
    requires Advanced(strict, a, b, multiset(ks)) && b.tasks == a.tasks && b.manifests == a.manifests
    requires forall k :: k in ks ==> Secured(a, b, k)
    ensures Draining(strict, b, s, active + SetOf(ks), back - SetOf(ks), bag, load) && During(a, b, s)
  {
    hide Advanced, Fed, Safe, Secured, PiecesNamed, Named, InOrder, Untouched, Covered, Since;
    AdvancedWaiting(strict, a, b, multiset(ks), s, active);
    forall k | k in ks ensures k.stage == s && Fed(b, k) && Safe(b, k, 1) {
      AdvancedFed(strict, a, b, multiset(ks), k);
      SecuredSafe(a, b, k);
    }
    AdvancedCovered(strict, a, b, multiset(ks), s, active + back);
    CoveredMore(b, s, active + back, (active + SetOf(ks)) + (back - SetOf(ks)));
    assert HeldBack(a, s, back - SetOf(ks));
    AdvancedHeldBack(strict, a, b, multiset(ks), s, back - SetOf(ks));
    if strict {
      EnqueuedBooks(a, b, s, ks, back, bag, load);
    }
    EnqueuedElsewhere(strict, a, b, s, ks);
  }

  lemma SecuredSafe(a: World, b: World, k: Key)
    requires Secured(a, b, k)
    ensures Safe(b, k, 1)
  {
    assert Count(a.queue.dlq, k) >= 0;
  }

  lemma CoveredMore(wd: World, s: nat, ks: set<Key>, more: set<Key>)
    requires Covered(wd, s, ks) && ks <= more
    ensures Covered(wd, s, more)
  {
  }

  lemma EnqueuedElsewhere(strict: bool, a: World, b: World, s: nat, ks: seq<Key>)
    requires forall k :: k in ks ==> k.stage == s
    requires Advanced(strict, a, b, multiset(ks)) && b.tasks == a.tasks && b.manifests == a.manifests
    ensures During(a, b, s)
  {
    forall k: Key | k.stage != s && Untouched(a, k) ensures Untouched(b, k) {
      assert multiset(ks)[k] == 0;
    }
  }

  // ---- the chunks to run ---------------------------------------------------------------------------

  /** The tasks without a marker. */
  function Unmarked(ts: seq<Task>, markers: set<Key>): (r: seq<Task>)
    ensures forall t :: t in r <==> t in ts && t.key !in markers
  {
    if ts == [] then [] else
    assert ts == [ts[0]] + ts[1..];
    (if ts[0].key in markers then [] else [ts[0]]) + Unmarked(ts[1..], markers)
  }

  lemma {:induction false} UnmarkedDistinct(ts: seq<Task>, markers: set<Key>)
    requires KeysDistinct(ts)
    ensures KeysDistinct(Unmarked(ts, markers))
  {
    if ts != [] {
      UnmarkedDistinct(ts[1..], markers);
      var r := Unmarked(ts[1..], markers);
      forall i | 0 <= i < |r| ensures r[i].key != ts[0].key {
        assert r[i] in r;
        var j :| 0 <= j < |ts| - 1 && ts[1..][j] == r[i];
        assert ts[j + 1].key != ts[0].key;
      }
    }
  }

  /** The chunks to run, in the order they are handed out. */
  function Pending(ts: seq<Task>, markers: set<Key>): seq<Task> { HeaviestFirst(Unmarked(ts, markers)) }

  lemma PendingKeeps(ts: seq<Task>, markers: set<Key>)
    ensures multiset(Pending(ts, markers)) == multiset(Unmarked(ts, markers)) && Descending(Pending(ts, markers))
    ensures KeySet(Pending(ts, markers)) == KeySet(Unmarked(ts, markers))
    ensures KeysDistinct(ts) ==> KeysDistinct(Pending(ts, markers))
  {
    var u := Unmarked(ts, markers);
    HeaviestFirstLaws(u);
    assert forall t :: t in HeaviestFirst(u) <==> t in multiset(u);
    if KeysDistinct(ts) {
      UnmarkedDistinct(ts, markers);
      HeaviestFirstKeeps(u);
    }
  }

  lemma {:induction false} InsertKeeps(t: Task, ts: seq<Task>)
    requires KeysDistinct(ts) && forall x :: x in ts ==> x.key != t.key
    ensures KeysDistinct(InsertByWeight(t, ts))
    ensures forall x :: x in InsertByWeight(t, ts) <==> x == t || x in ts
  {
    if ts != [] && t.weight < ts[0].weight {
      InsertKeeps(t, ts[1..]);
      assert ts == [ts[0]] + ts[1..];
      var r := InsertByWeight(t, ts[1..]);
      forall i | 0 <= i < |r| ensures r[i].key != ts[0].key {
        assert r[i] in r;
        assert r[i] == t || r[i] in ts[1..];
      }
    }
  }

  /** Sorting by weight keeps the tasks. */
  lemma {:induction false} HeaviestFirstKeeps(ts: seq<Task>)
    requires KeysDistinct(ts)
    ensures KeysDistinct(HeaviestFirst(ts)) && forall x :: x in HeaviestFirst(ts) <==> x in ts
  {
    if ts != [] {
      HeaviestFirstKeeps(ts[1..]);
      assert ts == [ts[0]] + ts[1..];
      InsertKeeps(ts[0], HeaviestFirst(ts[1..]));
    }
  }

  /** A planned chunk nobody was given has a marker now just in case it had one then. */
  lemma StillUnmarked(strict: bool, a: World, b: World, s: nat, ts: seq<Task>, i: nat, bag: multiset<P.Ref>, load: real)
    requires Draining(strict, a, s, {}, KeySet(ts), bag, load) && Advanced(strict, a, b, multiset{}) && i < |ts|
    ensures ts[i].key in b.markers <==> ts[i].key in a.markers
  {
    assert ts[i] in ts;
    assert Untouched(a, ts[i].key);
  }

  lemma KeySetWithout(a: seq<Task>, t: Task, b: seq<Task>)
    ensures KeySet(a + b) <= KeySet(a + ([t] + b))
    ensures forall k :: k in KeySet(a + ([t] + b)) && k !in KeySet(a + b) ==> k == t.key
  {
  }

  /** `next` is what has been found pending once task `i` is looked up too. */
  predicate Extends(pending: seq<Task>, next: seq<Task>, t: Task, markers: set<Key>) {
    next == if t.key in markers then pending else pending + [t]
  }

  /** The tasks found pending so far, and those not looked up yet, are the chunks held back. */
  lemma LookedUp(
      strict: bool, a: World, b: World, s: nat, pending: seq<Task>, next: seq<Task>, ts: seq<Task>, i: nat,
      bag: multiset<P.Ref>, load: real)
    requires i < |ts| && Draining(strict, a, s, {}, KeySet(pending + ts[i..]), bag, load)
    requires Advanced(strict, a, b, multiset{}) && b.tasks == a.tasks && b.manifests == a.manifests
    requires Extends(pending, next, ts[i], b.markers)
    ensures Draining(strict, b, s, {}, KeySet(next + ts[i + 1..]), bag, load)
  {
    hide Draining, Advanced, KeySet;
    DrainYield(strict, a, b, s, {}, KeySet(pending + ts[i..]), bag, load);
    assert ts[i..] == [ts[i]] + ts[i + 1..];
    if ts[i].key in b.markers {
      KeySetWithout(pending, ts[i], ts[i + 1..]);
      CachedDraining(strict, b, s, {}, KeySet(pending + ts[i..]), KeySet(pending + ts[i + 1..]), bag, load);
    } else {
      assert next + ts[i + 1..] == pending + ts[i..];
    }
  }

  lemma UnmarkedNone(markers: set<Key>)
    ensures Unmarked([], markers) == []
  {
  }

  lemma UnmarkedAt(ts: seq<Task>, i: nat, markers: set<Key>)
    requires i < |ts|
    ensures Unmarked(ts[i..], markers) == (if ts[i].key in markers then [] else [ts[i]]) + Unmarked(ts[i + 1..], markers)
  {
    assert ts[i..][0] == ts[i] && ts[i..][1..] == ts[i + 1..];
  }

  lemma UnmarkedStep(pending: seq<Task>, next: seq<Task>, ts: seq<Task>, i: nat, markers: set<Key>)
    requires i < |ts| && Extends(pending, next, ts[i], markers)
    requires Unmarked(ts, markers) == pending + Unmarked(ts[i..], markers)
    ensures Unmarked(ts, markers) == next + Unmarked(ts[i + 1..], markers)
  {
    hide Unmarked;
    UnmarkedAt(ts, i, markers);
  }

  function TaskKeys(ts: seq<Task>): (r: seq<Key>)
    ensures |r| == |ts| && forall i :: 0 <= i < |r| ==> r[i] == ts[i].key
    ensures SetOf(r) == KeySet(ts)
    ensures KeysDistinct(ts) ==> Distinct(r)
  {
    var r := seq(|ts|, i requires 0 <= i < |ts| => ts[i].key);
    assert forall k :: k in SetOf(r) ==> exists i :: 0 <= i < |ts| && ts[i].key == k;
    assert forall t :: t in ts ==> t.key in r by {
      forall t | t in ts ensures t.key in r {
        var i :| 0 <= i < |ts| && ts[i] == t;
        assert r[i] == t.key;
      }
    }
    r
  }

  /** The chunks to run other than the first. */
  function BehindGate(pending: seq<Task>): set<Key>
    requires pending != []
  {
    KeySet(pending[1..]) - {pending[0].key}
  }

  lemma GateKeys(pending: seq<Task>)
    requires |pending| > 1
    ensures KeySet(pending) - SetOf([pending[0].key]) == BehindGate(pending)
    ensures SetOf([pending[0].key]) == {pending[0].key}
    ensures KeysDistinct(pending) ==> BehindGate(pending) == KeySet(pending[1..]) && KeysDistinct(pending[1..])
  {
    assert pending == [pending[0]] + pending[1..];
    forall t | t in pending[1..] && KeysDistinct(pending) ensures t.key != pending[0].key {
      var i :| 0 <= i < |pending| - 1 && pending[1..][i] == t;
      assert pending[i + 1].key != pending[0].key;
    }
  }

  /** What could run before the smoke test still can. */
  lemma RestFed(a: World, b: World, s: nat, pending: seq<Task>)
    requires pending != [] && During(a, b, s) && forall k :: k in KeySet(pending) ==> k.stage == s && Fed(a, k)
    ensures forall k :: k in KeySet(pending[1..]) ==> k.stage == s && Fed(b, k)
    ensures BehindGate(pending) <= KeySet(pending[1..])
  {
    forall k | k in KeySet(pending[1..]) ensures k.stage == s && Fed(b, k) {
      assert k in KeySet(pending);
      FedLater(a, b, k);
    }
  }

  /** The controller may make a planned task known. */
  lemma PlanRegistrable(stages: Stages, a: World, b: World, s: nat, i: nat)
    requires s < |stages| && MayPlan(stages, a, s) && i < |PlannedTasks(stages, a, s)|
    requires b.tasks == WithTasks(a.tasks, PlannedTasks(stages, a, s), i)
    ensures Registrable(b, PlannedTasks(stages, a, s)[i])
  {
    var planned := PlannedTasks(stages, a, s);
    PlannedKeys(stages, a, s);
    WithTasksAre(a.tasks, s, planned, i);
    PlannedReads(stages, a, s, i);
    var t := planned[i];
  }

  /**
   The smoke gate, over the first `n` steps of a run and all of it: none of the other chunks is enqueued in the first `n`
   steps, and either none ever is, or after `n` steps every chunk the manifest names is finished except those others.
   */
  ghost predicate Gated(p: Program, start: World, h: seq<Step>, n: nat, s: nat, others: set<Key>) {
    && n <= |h|
    && (forall k :: k in others ==> EnqueueTask(k) !in h[..n])
    && ((forall k :: k in others ==> EnqueueTask(k) !in h) || Covered(RunSteps(p, start, h[..n]), s, others))
  }

  /** The keys enqueued over the run. */
  ghost predicate Recorded(enqueued: set<Key>, h: seq<Step>) { forall k :: k in enqueued <==> EnqueueTask(k) in h }

  lemma RecordedNext(enqueued: set<Key>, h: seq<Step>, s: Step)
    requires Recorded(enqueued, h)
    ensures Recorded(enqueued + (if s.EnqueueTask? then {s.key} else {}), h + [s])
  {
  }

  /** No key of the stage was enqueued. */
  ghost predicate NoneOf(enqueued: set<Key>, s: nat) { forall k :: k in enqueued ==> k.stage != s }

  lemma RecordedWork(enqueued: set<Key>, h: seq<Step>, s: Step)
    requires Recorded(enqueued, h) && IsWorkerStep(s)
    ensures Recorded(enqueued, h + [s])
  {
  }

  /** At the gate: everything but the chunks held back is finished, or nothing more will be enqueued. */
  lemma AtTheGate(p: Program, start: World, h: seq<Step>, s: nat, before: set<Key>, enqueued: set<Key>, others: set<Key>)
    requires NoneOf(before, s) && OnlyCame(before, enqueued, s, others) && forall k :: k in others ==> k.stage == s
    requires Recorded(enqueued, h)
    ensures Gated(p, start, h, |h|, s, others)
  {
    assert h[..|h|] == h;
  }

  lemma PastTheGate(p: Program, start: World, wd: World, h: seq<Step>, h': seq<Step>, s: nat, others: set<Key>)
    requires Gated(p, start, h, |h|, s, others) && h <= h' && wd == RunSteps(p, start, h) && Covered(wd, s, others)
    ensures Gated(p, start, h', |h|, s, others)
  {
    assert h[..|h|] == h && h'[..|h|] == h;
  }
}
