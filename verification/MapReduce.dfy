/**
 The group-by as two stages of the DAG: the map stage cuts the files into tasks, the reduce stage combines the partials.
 However the files were packed, and whatever the controller resplit while the map stage ran, the table is the same.
 */
module MapReduce {
  import opened Sequences
  import opened Machine
  import opened Planning
  import opened Remediation
  import opened Books
  import opened Staging
  import opened Reference
  import P = Partition
  import G = GroupBy
  import Q = Queue

  /** What a file holds. */
  type Files = P.Ref -> seq<G.Row>

  /** The rows of a list of files, one after the other. */
  function RowsOf(files: Files, ms: seq<P.Ref>): seq<G.Row> {
    if ms == [] then [] else files(ms[0]) + RowsOf(files, ms[1..])
  }

  /** The partitions of a map stage: the rows each task that the manifest names scans. */
  ghost function Partitions(files: Files, ts: Tasks, s: nat, es: seq<Entry>): (r: seq<seq<G.Row>>)
    requires Named(ts, s, es)
    ensures |r| == |es|
  {
    seq(|es|, i requires 0 <= i < |es| => RowsOf(files, ts[Q.Key(s, es[i].id)].members))
  }

  /** The files of all tasks a manifest names, in manifest order. */
  ghost function FilesIn(ts: Tasks, s: nat, es: seq<Entry>): (r: seq<P.Ref>)
    requires Named(ts, s, es)
    ensures multiset(r) == Bag(ts, s, es)
  {
    if es == [] then [] else ts[Q.Key(s, es[0].id)].members + FilesIn(ts, s, es[1..])
  }

  lemma {:induction false} RowsAppend(files: Files, a: seq<P.Ref>, b: seq<P.Ref>)
    ensures RowsOf(files, a + b) == RowsOf(files, a) + RowsOf(files, b)
  {
    if a == [] {
      assert a + b == b;
    } else {
      RowsAppend(files, a[1..], b);
      assert (a + b)[1..] == a[1..] + b;
    }
  }

  /** The same files in another order hold the same rows in another order. */
  lemma {:induction false} RowsPermuted(files: Files, a: seq<P.Ref>, b: seq<P.Ref>)
    requires multiset(a) == multiset(b)
    ensures multiset(RowsOf(files, a)) == multiset(RowsOf(files, b))
  {
    if a == [] {
      assert |multiset(b)| == 0;
    } else {
      assert a[0] in multiset(b);
      var i :| 0 <= i < |b| && b[i] == a[0];
      G.SameRest(a, b, i);
      RowsPermuted(files, a[1..], Without(b, i));
      RowsRemove(files, b, i);
    }
  }

  lemma RowsRemove(files: Files, b: seq<P.Ref>, i: nat)
    requires i < |b|
    ensures multiset(RowsOf(files, b)) == multiset(files(b[i])) + multiset(RowsOf(files, Without(b, i)))
  {
    assert b == b[..i] + ([b[i]] + b[i + 1..]);
    RowsAppend(files, b[..i], [b[i]] + b[i + 1..]);
    RowsAppend(files, b[..i], b[i + 1..]);
    assert ([b[i]] + b[i + 1..])[1..] == b[i + 1..];
  }

  lemma {:induction false} PartitionsHold(files: Files, ts: Tasks, s: nat, es: seq<Entry>)
    requires Named(ts, s, es)
    ensures Concat(Partitions(files, ts, s, es)) == RowsOf(files, FilesIn(ts, s, es))
  {
    if es != [] {
      PartitionsHold(files, ts, s, es[1..]);
      assert Partitions(files, ts, s, es)[1..] == Partitions(files, ts, s, es[1..]);
      RowsAppend(files, ts[Q.Key(s, es[0].id)].members, FilesIn(ts, s, es[1..]));
    }
  }

  /** Whether a query suits the rows does not depend on their order. */
  lemma WellFormedPermuted(aggs: seq<G.Agg>, a: seq<G.Row>, b: seq<G.Row>)
    requires multiset(a) == multiset(b) && G.WellFormed(aggs, a)
    ensures G.WellFormed(aggs, b)
  {
    forall i | 0 <= i < |aggs| && aggs[i].op != G.OpCount ensures G.HasCol(b, aggs[i].col) {
      forall j | 0 <= j < |b| ensures aggs[i].col in b[j].cells {
        assert b[j] in multiset(a);
      }
    }
  }

  /**
   The map stage ran, with any packing and any retries, resplits and skips, and `frames` are the partials of the tasks its
   manifest names. Then the reduce gives the one table that answers the user's query over the files that were not skipped:
   the table one group-by over all those files gives.
   */
  lemma ReducedTable(
      stages: Stages, wd: World, s: nat, skipped: multiset<P.Ref>, skippedLoad: real,
      files: Files, kept: seq<P.Ref>, keep: G.Row -> bool, aggs: seq<G.Agg>, frames: seq<seq<G.Row>>)
    requires s < |stages| && stages[s].input.ReadsSource? && Conserved(stages, wd, s, skipped, skippedLoad)
    requires multiset(kept) + skipped == multiset(P.Refs(stages[s].input.chunks))
    requires G.WellFormed(aggs, G.Filter(RowsOf(files, kept), keep))
    requires G.ArePartials(frames, G.FilterAll(Partitions(files, wd.tasks, s, Manifest(wd, s)), keep), G.PlanFor(aggs).mapExprs)
    ensures G.Resolves(G.PlanFor(aggs)) && G.AllFeed(Concat(frames), G.PlanFor(aggs).reduceExprs)
    ensures frames != [] ==>
      && G.ReduceTask(G.PlanFor(aggs), frames).Some?
      && G.Answers(G.ReduceTask(G.PlanFor(aggs), frames).value, aggs, G.Filter(RowsOf(files, kept), keep))
  {
    var es := Manifest(wd, s);
    var parts, used := Partitions(files, wd.tasks, s, es), FilesIn(wd.tasks, s, es);
    var rows, want := RowsOf(files, used), RowsOf(files, kept);
    SameBag(multiset(used), multiset(kept), skipped, multiset(P.Refs(stages[s].input.chunks)));
    PartitionsHold(files, wd.tasks, s, es);
    RowsPermuted(files, kept, used);
    G.FilterPermuted(want, rows, keep);
    WellFormedPermuted(aggs, G.Filter(want, keep), G.Filter(rows, keep));
    G.RewritePreserves(frames, parts, keep, aggs);
    if frames != [] {
      G.AnswersPermuted(G.ReduceTask(G.PlanFor(aggs), frames).value, aggs, G.Filter(rows, keep), G.Filter(want, keep));
    }
  }

  /** Two runs of the map stage over the same files, packed with any two targets and resplit in any two ways, are reduced
      to the same table. */
  lemma RepackedTable(
      stages: Stages, wd: World, s: nat, load: real, frames: seq<seq<G.Row>>,
      stages': Stages, wd': World, s': nat, load': real, frames': seq<seq<G.Row>>,
      files: Files, keep: G.Row -> bool, aggs: seq<G.Agg>)
    requires s < |stages| && s' < |stages'| && stages[s].input.ReadsSource? && stages'[s'].input == stages[s].input
    requires Conserved(stages, wd, s, multiset{}, load) && Conserved(stages', wd', s', multiset{}, load')
    requires G.WellFormed(aggs, G.Filter(RowsOf(files, P.Refs(stages[s].input.chunks)), keep))
    requires G.ArePartials(frames, G.FilterAll(Partitions(files, wd.tasks, s, Manifest(wd, s)), keep), G.PlanFor(aggs).mapExprs)
    requires G.ArePartials(frames', G.FilterAll(Partitions(files, wd'.tasks, s', Manifest(wd', s')), keep), G.PlanFor(aggs).mapExprs)
    requires frames != [] && frames' != []
    ensures G.Resolves(G.PlanFor(aggs))
    ensures G.AllFeed(Concat(frames), G.PlanFor(aggs).reduceExprs)
    ensures G.AllFeed(Concat(frames'), G.PlanFor(aggs).reduceExprs)
    ensures G.ReduceTask(G.PlanFor(aggs), frames) == G.ReduceTask(G.PlanFor(aggs), frames')
  {
    var all := P.Refs(stages[s].input.chunks);
    ReducedTable(stages, wd, s, multiset{}, load, files, all, keep, aggs, frames);
    ReducedTable(stages', wd', s', multiset{}, load', files, all, keep, aggs, frames');
    G.AnswersUnique(G.ReduceTask(G.PlanFor(aggs), frames).value, G.ReduceTask(G.PlanFor(aggs), frames').value, aggs,
                    G.Filter(RowsOf(files, all), keep), G.Filter(RowsOf(files, all), keep));
  }

  lemma SameBag(a: multiset<P.Ref>, b: multiset<P.Ref>, c: multiset<P.Ref>, all: multiset<P.Ref>)
    requires a + c == all && b + c == all
    ensures a == b
  {
    assert a == (a + c) - c;
    assert b == (b + c) - c;
  }

  // ---- the reduce stage ------------------------------------------------------------------------------

  /** `target_rows=10 ** 15` */
  const REDUCE_TARGET: int := 1_000_000_000_000_000

  ghost predicate IsReduceOf(st: StageSpec, j: nat) { st.input == ReadsStage(j) && st.targetRows == REDUCE_TARGET }

  lemma {:induction false} ManifestWeight(es: seq<Entry>)
    ensures P.Weight(FromManifest(es)) == Load(es)
  {
    if es != [] {
      ManifestWeight(es[1..]);
      assert FromManifest(es)[1..] == FromManifest(es[1..]);
      assert P.Weights(FromManifest(es))[1..] == P.Weights(FromManifest(es[1..]));
    }
  }

  /** The reduce is one task exactly when there is a partial and, unless it is the only one, the weights total at most
      10^15; its members are then all the partials, in manifest order. */
  lemma OneReduceTask(stages: Stages, wd: World, s: nat, j: nat)
    requires s < |stages| && IsReduceOf(stages[s], j)
    requires forall i :: 0 <= i < |Manifest(wd, j)| ==> Manifest(wd, j)[i].weight >= 0.0
    ensures var es := Manifest(wd, j);
      && (|Planned(stages, wd, s)| == 1 <==> es != [] && (|es| == 1 || Load(es) <= 1_000_000_000_000_000.0))
      && (|Planned(stages, wd, s)| == 1 ==> Planned(stages, wd, s)[0].members == P.Refs(FromManifest(es)))
  {
    var es := Manifest(wd, j);
    var ups, cs := FromManifest(es), Planned(stages, wd, s);
    ManifestWeight(es);
    P.SingleChunkIff(ups, REDUCE_TARGET as real, "c");
    PlanConserves(stages[s], ups);
    if |cs| == 1 {
      assert P.MembersOf(cs) == [cs[0].members];
      assert Concat([cs[0].members]) == cs[0].members + Concat([cs[0].members][1..]);
    }
  }

  /** A chunk planned over files has a file. */
  lemma PlannedHasMember(st: StageSpec, ups: seq<P.Chunk>, i: nat)
    requires i < |PlanChunks(st, ups)|
    ensures PlanChunks(st, ups)[i].members != []
  {
    if st.targetRows > 0 {
      var lo, hi := P.PackingCap(ups, st.targetRows as real, "c", i);
    } else if st.targetRows == 0 && st.targetBytes > 0 {
      var lo, hi := P.PackingCap(ups, st.targetBytes as real, "c", i);
    }
  }

  lemma EntryHasFile(stages: Stages, wd: World, j: nat, e: Entry)
    requires j < |stages| && stages[j].input.ReadsSource? && OnlyPlanned(wd.tasks, j, PlannedTasks(stages, wd, j))
    requires Q.Key(j, e.id) in wd.tasks
    ensures wd.tasks[Q.Key(j, e.id)].members != []
  {
    hide PlanChunks, Ups;
    var t, planned := wd.tasks[Q.Key(j, e.id)], PlannedTasks(stages, wd, j);
    if t in planned {
      var m :| 0 <= m < |planned| && planned[m] == t;
      PlannedHasMember(stages[j], Ups(stages, wd, j), m);
    }
  }

  /** The manifest is empty just when every file was skipped. */
  lemma SomethingLeft(stages: Stages, wd: World, j: nat, skipped: multiset<P.Ref>, skippedLoad: real)
    requires j < |stages| && stages[j].input.ReadsSource? && Conserved(stages, wd, j, skipped, skippedLoad)
    ensures Manifest(wd, j) == [] <==> skipped == multiset(P.Refs(stages[j].input.chunks))
  {
    hide OnlyPlanned, DistinctIds, PlannedTasks;
    var es, all := Manifest(wd, j), multiset(P.Refs(stages[j].input.chunks));
    var bag := Bag(wd.tasks, j, es);
    assert bag + skipped == all;
    if es == [] {
      BagNone(wd.tasks, j);
    } else {
      BagHead(wd.tasks, j, es);
      EntryHasFile(stages, wd, j, es[0]);
      var first := wd.tasks[Q.Key(j, es[0].id)].members[0];
      assert first in multiset(wd.tasks[Q.Key(j, es[0].id)].members);
      assert bag[first] > 0;
      assert all[first] == bag[first] + skipped[first];
    }
  }

  /**
   Files of non-negative weight totalling at most 10^15, packed in any way, whatever was retried, resplit and skipped: the
   reduce is one task exactly when some file was not skipped.
   */
  lemma FilesReducedOnce(stages: Stages, wd: World, s: nat, j: nat, skipped: multiset<P.Ref>, skippedLoad: real)
    requires s < |stages| && j < |stages| && IsReduceOf(stages[s], j) && Conserved(stages, wd, j, skipped, skippedLoad)
    requires stages[j].input.ReadsSource? && P.NonNegative(stages[j].input.chunks)
    requires P.Weight(stages[j].input.chunks) <= 1_000_000_000_000_000.0
    ensures |Planned(stages, wd, s)| == 1 <==> skipped != multiset(P.Refs(stages[j].input.chunks))
  {
    hide P.Weight, P.NonNegative, OnlyPlanned, DistinctIds, Bag, Load;
    var es := Manifest(wd, j);
    assert Ups(stages, wd, j) == stages[j].input.chunks;
    forall i | 0 <= i < |es| ensures es[i].weight >= 0.0 {
      assert Q.Key(j, es[i].id) in wd.tasks;
    }
    SomethingLeft(stages, wd, j, skipped, skippedLoad);
    OneReduceTask(stages, wd, s, j);
  }
}
