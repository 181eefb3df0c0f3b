/** From a stage and its upstream to chunks, tasks and a manifest. */
module Planning {
  import opened Sequences
  import opened Machine
  import Names
  import P = Partition
  import Q = Queue

  /** What a stage reads: nothing, a source with its enumerated chunks, or the stage at an earlier place in the order. */
  datatype Reads = ReadsNothing | ReadsSource(chunks: seq<P.Chunk>) | ReadsStage(index: nat)

  /** A target of zero is one that was not given. */
  datatype StageSpec = StageSpec(input: Reads, targetRows: int, targetBytes: int)

  type Stages = seq<StageSpec>

  function Upstream(st: StageSpec): Machine.Upstream {
    match st.input
    case ReadsNothing => NoReads
    case ReadsSource(_) => FromSource
    case ReadsStage(j) => FromStage(j)
  }

  /** Manifest entries carry an id and a weight; the parameters of planned chunks are internal and not written. */
  function FromManifest(es: seq<Entry>): (r: seq<P.Chunk>)
    ensures |r| == |es| && forall i :: 0 <= i < |es| ==> r[i] == P.Chunk(es[i].id, [], es[i].weight)
  {
    seq(|es|, i requires 0 <= i < |es| => P.Chunk(es[i].id, [], es[i].weight))
  }

  /** `_upstream_chunks`; `manifest` is the upstream stage's. */
  function UpstreamChunks(st: StageSpec, manifest: seq<Entry>): seq<P.Chunk> {
    match st.input
    case ReadsNothing => [P.Chunk("all", [], 1.0)]
    case ReadsSource(chunks) => chunks
    case ReadsStage(_) => FromManifest(manifest)
  }

  function PlanChunks(st: StageSpec, ups: seq<P.Chunk>): seq<P.Packed> {
    if st.targetRows != 0 then P.Packing(ups, st.targetRows as real, "c")
    else if st.targetBytes != 0 then P.Packing(ups, st.targetBytes as real, "c")
    else P.OneToOne(ups)
  }

  /** Packed to the target the stage gives, or one to one. */
  method Cut(st: StageSpec, ups: seq<P.Chunk>) returns (chunks: seq<P.Packed>)
    ensures chunks == PlanChunks(st, ups)
  {
    if st.targetRows != 0 || st.targetBytes != 0 {
      var target := if st.targetRows != 0 then st.targetRows else st.targetBytes;
      chunks := P.Pack(ups, target as real, "c");
    } else {
      chunks := P.OneToOne(ups);
    }
  }

  // ---- what a plan is -------------------------------------------------------------------

  /**
   A stage with a target, its rows if it gives them and else its bytes, cuts its upstream into stretches: chunk `i` holds
   `ups[lo..hi]` and weighs what that weighs, at most the target unless it is a single chunk, and more than the target with the
   next one. The first stretch begins the upstream and the last ends it.
   */
  lemma PlanPacks(st: StageSpec, ups: seq<P.Chunk>, i: nat) returns (lo: nat, hi: nat)
    requires (if st.targetRows != 0 then st.targetRows else st.targetBytes) > 0 && i < |PlanChunks(st, ups)|
    ensures lo < hi <= |ups|
    ensures var c := PlanChunks(st, ups)[i];
      var target := (if st.targetRows != 0 then st.targetRows else st.targetBytes) as real;
      && c.id == "c" + Names.Dec(i) && c.members == P.Refs(ups[lo..hi]) && c.weight == P.Weight(ups[lo..hi])
      && (c.weight <= target || hi == lo + 1)
      && (hi < |ups| ==> c.weight + ups[hi].weight > target)
    ensures lo == 0 <==> i == 0
    ensures hi == |ups| <==> i + 1 == |PlanChunks(st, ups)|
  {
    var target := (if st.targetRows != 0 then st.targetRows else st.targetBytes) as real;
    assert PlanChunks(st, ups) == P.Packing(ups, target, "c");
    lo, hi := P.PackingCap(ups, target, "c", i);
  }

  /** With weights that are not negative this leaves no choice. */
  lemma PlanDetermined(st: StageSpec, ups: seq<P.Chunk>, blocks: seq<seq<P.Chunk>>)
    requires (if st.targetRows != 0 then st.targetRows else st.targetBytes) > 0 && P.NonNegative(ups)
    requires P.IsGreedyPacking(blocks, ups, (if st.targetRows != 0 then st.targetRows else st.targetBytes) as real)
    ensures PlanChunks(st, ups) == P.Render(blocks, "c")
  {
    P.GreedyPackingUnique(blocks, ups, (if st.targetRows != 0 then st.targetRows else st.targetBytes) as real);
  }

  /** A stage without a target takes its upstream chunks one by one, under their own ids. */
  lemma PlanKeeps(st: StageSpec, ups: seq<P.Chunk>)
    requires (if st.targetRows != 0 then st.targetRows else st.targetBytes) <= 0
    ensures |PlanChunks(st, ups)| == |ups|
    ensures forall i :: 0 <= i < |ups| ==> PlanChunks(st, ups)[i] == P.Packed(ups[i].id, [P.ToRef(ups[i])], ups[i].weight)
  {
  }

  /** Six files of weight one and a target of two bytes make three chunks of two files. */
  lemma SixFilesInPairs(st: StageSpec, ups: seq<P.Chunk>)
    requires st.targetRows == 0 && st.targetBytes == 2 && |ups| == 6 && forall i :: 0 <= i < 6 ==> ups[i].weight == 1.0
    ensures |PlanChunks(st, ups)| == 3
    ensures forall i :: 0 <= i < 3 ==> PlanChunks(st, ups)[i].members == P.Refs(ups[2 * i..2 * i + 2])
  {
    var blocks := [ups[0..2], ups[2..4], ups[4..6]];
    InPairs(ups);
    PairWeight(ups, 0);
    PairWeight(ups, 2);
    PairWeight(ups, 4);
    PlanDetermined(st, ups, blocks);
  }

  lemma InPairs(ups: seq<P.Chunk>)
    requires |ups| == 6
    ensures Concat([ups[0..2], ups[2..4], ups[4..6]]) == ups
  {
    var a, b, c := ups[0..2], ups[2..4], ups[4..6];
    assert [a, b, c][1..] == [b, c] && [b, c][1..] == [c] && [c][1..] == [];
    assert Concat([c]) == c + Concat([]) == c;
    assert Concat([b, c]) == b + c;
    assert a + (b + c) == ups;
  }

  lemma PairWeight(ups: seq<P.Chunk>, i: nat)
    requires i + 2 <= |ups| && ups[i].weight == 1.0 && ups[i + 1].weight == 1.0
    ensures P.Weight(ups[i..i + 2]) == 2.0
  {
    P.WeightSingle(ups[i]);
    P.WeightSingle(ups[i + 1]);
    P.WeightAppend([ups[i]], [ups[i + 1]]);
    assert ups[i..i + 2] == [ups[i]] + [ups[i + 1]];
  }

  /** A stage that reads nothing has one chunk of weight one, `all` unless it gives a target, and its task has no members. */
  lemma PlanOfNothing(s: nat, st: StageSpec, manifest: seq<Entry>)
    requires st.input.ReadsNothing?
    ensures var id := if (if st.targetRows != 0 then st.targetRows else st.targetBytes) > 0 then "c0" else "all";
      var cs := PlanChunks(st, UpstreamChunks(st, manifest));
      ManifestFor(cs) == [Entry(id, 1.0)] && TasksFor(s, st, cs) == [Task(Q.Key(s, id), NoReads, [], 1.0)]
  {
    hide PlanChunks;
    var ups := UpstreamChunks(st, manifest);
    assert |ups| == 1 && ups[0].id == "all" && ups[0].weight == 1.0;
    var cs := PlanChunks(st, ups);
    if (if st.targetRows != 0 then st.targetRows else st.targetBytes) > 0 {
      PlanConserves(st, ups);
      OneChunk(st, ups);
    } else {
      PlanKeeps(st, ups);
    }
  }

  lemma OneChunk(st: StageSpec, ups: seq<P.Chunk>)
    requires (if st.targetRows != 0 then st.targetRows else st.targetBytes) > 0 && |ups| == 1
    ensures |PlanChunks(st, ups)| == 1 && PlanChunks(st, ups)[0].id == "c0" && PlanChunks(st, ups)[0].weight == ups[0].weight
  {
    hide PlanChunks, P.Weight;
    var cs := PlanChunks(st, ups);
    PlanConserves(st, ups);
    assert |P.Refs(ups)| == 1;
    assert cs == [] ==> P.MembersOf(cs) == [];
    var lo, hi := PlanPacks(st, ups, 0);
    assert ups[lo..hi] == [ups[0]];
    P.WeightSingle(ups[0]);
    assert "c" + Names.Dec(0) == "c0";
  }

  function ChunkKey(s: nat, c: P.Packed): Q.Key { Q.Key(s, c.id) }

  /** A stage that reads nothing gets no `_in`, hence no members. */
  function TaskFor(s: nat, st: StageSpec, c: P.Packed): Task {
    Task(ChunkKey(s, c), Upstream(st), if st.input.ReadsNothing? then [] else c.members, c.weight)
  }

  function TasksFor(s: nat, st: StageSpec, cs: seq<P.Packed>): (r: seq<Task>)
    ensures |r| == |cs| && forall i :: 0 <= i < |cs| ==> r[i] == TaskFor(s, st, cs[i])
  {
    seq(|cs|, i requires 0 <= i < |cs| => TaskFor(s, st, cs[i]))
  }

  function ManifestFor(cs: seq<P.Packed>): (r: seq<Entry>)
    ensures |r| == |cs| && forall i :: 0 <= i < |cs| ==> r[i] == Entry(cs[i].id, cs[i].weight)
  {
    seq(|cs|, i requires 0 <= i < |cs| => Entry(cs[i].id, cs[i].weight))
  }

  // ---- ids ----------------------------------------------------------------------------

  predicate DistinctIds(es: seq<Entry>) {
    forall i, j :: 0 <= i < j < |es| ==> es[i].id != es[j].id
  }

  predicate DistinctChunkIds(cs: seq<P.Chunk>) {
    forall i, j :: 0 <= i < j < |cs| ==> cs[i].id != cs[j].id
  }

  /** `c<i>`: the id the packer gives. */
  ghost predicate IsPackedId(id: string) { exists i: nat :: id == "c" + Names.Dec(i) }

  /** `<parent>-m<j>`: the id a piece of a resplit chunk gets. */
  function PieceId(parent: string, j: nat): string { parent + "-m" + Names.Dec(j) }

  /** The digits of a numeral never contain the dash that starts a piece suffix. */
  lemma PackedIdHasNoDash(id: string)
    requires IsPackedId(id)
    ensures forall k :: 0 <= k < |id| ==> id[k] != '-'
  {
    var i: nat :| id == "c" + Names.Dec(i);
    forall k | 0 <= k < |id| ensures id[k] != '-' {
      if k > 0 { assert id[k] == Names.Dec(i)[k - 1]; }
    }
  }

  /** A piece's id names its parent and its place, and is no packed id. */
  lemma PieceIdsUnique(a: string, i: nat, b: string, j: nat)
    requires IsPackedId(a) && IsPackedId(b)
    ensures PieceId(a, i) == PieceId(b, j) ==> a == b && i == j
    ensures PieceId(a, i) != b
  {
    PackedIdHasNoDash(a);
    PackedIdHasNoDash(b);
    var x, y := PieceId(a, i), PieceId(b, j);
    assert x[|a|] == '-' && y[|b|] == '-';
    if x == y {
      assert a == x[..|a|] && b == y[..|b|];
      assert x[|a| + 2..] == Names.Dec(i) && y[|b| + 2..] == Names.Dec(j);
      Names.DecInjective(i, j);
    }
  }

  /** When one chunk of a plan has several members, every id of the plan is a packed id. */
  lemma SharedChunksAreNumbered(st: StageSpec, ups: seq<P.Chunk>, i: nat, m: nat)
    requires i < |PlanChunks(st, ups)| && m < |PlanChunks(st, ups)|
    ensures |PlanChunks(st, ups)[i].members| > 1 ==> IsPackedId(PlanChunks(st, ups)[m].id)
  {
  }

  lemma PlanIdsDistinct(st: StageSpec, ups: seq<P.Chunk>)
    requires DistinctChunkIds(ups)
    ensures DistinctIds(ManifestFor(PlanChunks(st, ups)))
  {
    var cs := PlanChunks(st, ups);
    forall i, j | 0 <= i < j < |cs| ensures cs[i].id != cs[j].id {
      if st.targetRows > 0 || (st.targetRows == 0 && st.targetBytes > 0) {
        var target := if st.targetRows != 0 then st.targetRows as real else st.targetBytes as real;
        var blocks := P.GreedyBlocks(ups, target);
        if cs[i].id == cs[j].id { P.PackedIdsDistinct(blocks, "c", i, j); }
      }
    }
  }

  /** Every member of a planned chunk is one of the upstream chunks. */
  lemma MembersAreUpstream(st: StageSpec, ups: seq<P.Chunk>, i: nat, m: nat)
    requires i < |PlanChunks(st, ups)| && m < |PlanChunks(st, ups)[i].members|
    ensures exists u :: 0 <= u < |ups| && PlanChunks(st, ups)[i].members[m] == P.ToRef(ups[u])
  {
    var cs := PlanChunks(st, ups);
    PlanConserves(st, ups);
    InConcat(P.MembersOf(cs), i, cs[i].members[m]);
    assert cs[i].members[m] in P.Refs(ups);
    var u :| 0 <= u < |ups| && P.Refs(ups)[u] == cs[i].members[m];
  }

  lemma {:induction false} InConcat<T>(ss: seq<seq<T>>, i: nat, x: T)
    requires i < |ss| && x in ss[i]
    ensures x in Concat(ss)
  {
    if i > 0 {
      InConcat(ss[1..], i - 1, x);
    }
  }

  lemma PlanConserves(st: StageSpec, ups: seq<P.Chunk>)
    ensures Concat(P.MembersOf(PlanChunks(st, ups))) == P.Refs(ups)
    ensures Sum(P.PackedWeights(PlanChunks(st, ups))) == P.Weight(ups)
  {
    P.PackingConserves(ups, st.targetRows as real, "c");
    P.PackingConserves(ups, st.targetBytes as real, "c");
    P.OneToOneConserves(ups);
  }

  /**
   Packed ids are positions, so a stage planned again over another upstream gives the same id to other work. After `b` was
   skipped, the one chunk of the stage that reads it stood for `a` alone; planned over both, it has the same id.
   */
  lemma ReplanReusesIds(st: StageSpec, a: P.Chunk, b: P.Chunk)
    requires st.targetRows > 0 && a.weight + b.weight <= st.targetRows as real
    ensures PlanChunks(st, [a]) == [P.Packed("c0", [P.ToRef(a)], a.weight)]
    ensures PlanChunks(st, [a, b]) == [P.Packed("c0", [P.ToRef(a), P.ToRef(b)], a.weight + b.weight)]
  {
    P.PackPair(a, b, st.targetRows as real, "c");
    assert "c" + "0" == "c0";
  }

  // ---- heaviest first --------------------------------------------------------------------

  function InsertByWeight(t: Task, ts: seq<Task>): (r: seq<Task>)
    ensures r != []
  {
    if ts == [] || t.weight >= ts[0].weight then [t] + ts else [ts[0]] + InsertByWeight(t, ts[1..])
  }

  /** `sorted(ts, key=lambda t: -t.weight)`: stable, so the first of equals stays first. */
  function HeaviestFirst(ts: seq<Task>): seq<Task> {
    if ts == [] then [] else InsertByWeight(ts[0], HeaviestFirst(ts[1..]))
  }

  predicate Descending(ts: seq<Task>) {
    forall i, j :: 0 <= i < j < |ts| ==> ts[i].weight >= ts[j].weight
  }

  lemma {:induction false} InsertBag(t: Task, ts: seq<Task>)
    ensures multiset(InsertByWeight(t, ts)) == multiset(ts) + multiset{t}
  {
    if ts != [] && t.weight < ts[0].weight {
      InsertBag(t, ts[1..]);
      assert ts == [ts[0]] + ts[1..];
    }
  }

  lemma {:induction false} InsertDescending(t: Task, ts: seq<Task>)
    requires Descending(ts)
    ensures Descending(InsertByWeight(t, ts))
    ensures InsertByWeight(t, ts)[0] == if ts == [] || t.weight >= ts[0].weight then t else ts[0]
  {
    if ts != [] && t.weight < ts[0].weight {
      var r := InsertByWeight(t, ts[1..]);
      InsertDescending(t, ts[1..]);
      forall i | 0 <= i < |r| ensures r[i].weight <= ts[0].weight {
        assert i > 0 ==> r[0].weight >= r[i].weight;
      }
    }
  }

  /** The same tasks, by descending weight. */
  lemma {:induction false} HeaviestFirstLaws(ts: seq<Task>)
    ensures multiset(HeaviestFirst(ts)) == multiset(ts)
    ensures Descending(HeaviestFirst(ts))
  {
    if ts != [] {
      HeaviestFirstLaws(ts[1..]);
      InsertBag(ts[0], HeaviestFirst(ts[1..]));
      InsertDescending(ts[0], HeaviestFirst(ts[1..]));
      assert ts == [ts[0]] + ts[1..];
    }
  }

  /** The tasks of one weight, in order. */
  function OfWeight(ts: seq<Task>, w: real): seq<Task> {
    if ts == [] then [] else (if ts[0].weight == w then [ts[0]] else []) + OfWeight(ts[1..], w)
  }

  lemma OfWeightHead(t: Task, ts: seq<Task>, w: real)
    ensures OfWeight([t] + ts, w) == (if t.weight == w then [t] else []) + OfWeight(ts, w)
  {
    assert ([t] + ts)[1..] == ts;
  }

  lemma {:induction false} InsertStable(t: Task, ts: seq<Task>, w: real)
    ensures OfWeight(InsertByWeight(t, ts), w) == (if t.weight == w then [t] else []) + OfWeight(ts, w)
  {
    hide OfWeight;
    if ts == [] || t.weight >= ts[0].weight {
      OfWeightHead(t, ts, w);
    } else {
      InsertStable(t, ts[1..], w);
      OfWeightHead(ts[0], InsertByWeight(t, ts[1..]), w);
      OfWeightHead(ts[0], ts[1..], w);
      assert ts == [ts[0]] + ts[1..];
    }
  }

  /** The sort is stable: tasks of equal weight keep their order. */
  lemma {:induction false} HeaviestFirstStable(ts: seq<Task>, w: real)
    ensures OfWeight(HeaviestFirst(ts), w) == OfWeight(ts, w)
  {
    if ts != [] {
      HeaviestFirstStable(ts[1..], w);
      InsertStable(ts[0], HeaviestFirst(ts[1..]), w);
    }
  }
}
