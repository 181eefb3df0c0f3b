/**
 Chunking: the greedy packer, the one-to-one planner and the heaviest-first order.
 Weights are reals.
 */
module Partition {
  import opened Sequences
  import Names

  /** An upstream chunk. `params` stands for the records a source's reader yields for it; a manifest entry has none. */
  datatype Chunk = Chunk(id: string, params: seq<Record>, weight: real)

  datatype Ref = Ref(id: string, params: seq<Record>)

  /** A planned chunk: its id, the upstream chunks it owns, their total weight. */
  datatype Packed = Packed(id: string, members: seq<Ref>, weight: real)

  function ToRef(m: Chunk): Ref { Ref(m.id, m.params) }

  function Refs(ms: seq<Chunk>): (r: seq<Ref>)
    ensures |r| == |ms|
  {
    seq(|ms|, i requires 0 <= i < |ms| => ToRef(ms[i]))
  }

  function Weights(ms: seq<Chunk>): (r: seq<real>)
    ensures |r| == |ms|
  {
    seq(|ms|, i requires 0 <= i < |ms| => ms[i].weight)
  }

  function Weight(ms: seq<Chunk>): real { Sum(Weights(ms)) }

  lemma WeightAppend(a: seq<Chunk>, b: seq<Chunk>)
    ensures Weight(a + b) == Weight(a) + Weight(b)
  {
    assert Weights(a + b) == Weights(a) + Weights(b);
    SumAppend(Weights(a), Weights(b));
  }

  lemma WeightSingle(m: Chunk)
    ensures Weight([m]) == m.weight
  {
    assert Weights([m]) == [m.weight];
    assert Sum([m.weight]) == m.weight + Sum([m.weight][1..]);
  }

  ghost predicate NonNegative(ms: seq<Chunk>) {
    forall i :: 0 <= i < |ms| ==> ms[i].weight >= 0.0
  }

  lemma WeightNonNegative(ms: seq<Chunk>)
    requires NonNegative(ms)
    ensures Weight(ms) >= 0.0
  {
    SumNonNegative(Weights(ms));
  }

  // ---- what a packing is -------------------------------------------------

  /** A block a packing may use: within the target, or a member nobody may split. */
  ghost predicate Fits(block: seq<Chunk>, target: real) {
    Weight(block) <= target || |block| <= 1
  }

  /** An order-preserving packing of `ms`: contiguous blocks, each within the cap. */
  ghost predicate IsPacking(blocks: seq<seq<Chunk>>, ms: seq<Chunk>, target: real) {
    && Concat(blocks) == ms
    && forall b :: b in blocks ==> Fits(b, target)
  }

  /** `b` could not have taken the first member of `next`. */
  ghost predicate Overflows(b: seq<Chunk>, next: seq<Chunk>, target: real) {
    next != [] && Weight(b) + next[0].weight > target
  }

  /** No block is empty, none could have taken the first member of the next one. */
  ghost predicate Saturated(blocks: seq<seq<Chunk>>, target: real) {
    && (forall i :: 0 <= i < |blocks| ==> blocks[i] != [])
    && forall i :: 0 <= i < |blocks| - 1 ==> Overflows(blocks[i], blocks[i + 1], target)
  }

  /** What the packer produces: a packing that leaves no room unused. */
  ghost predicate IsGreedyPacking(blocks: seq<seq<Chunk>>, ms: seq<Chunk>, target: real) {
    IsPacking(blocks, ms, target) && Saturated(blocks, target)
  }

  /** The planned chunk for one block: id `prefix` and its position, the block's refs, the block's weight. */
  function RenderBlock(block: seq<Chunk>, prefix: string, i: nat): Packed {
    Packed(prefix + Names.Dec(i), Refs(block), Weight(block))
  }

  function Render(blocks: seq<seq<Chunk>>, prefix: string): (r: seq<Packed>)
    ensures |r| == |blocks|
  {
    seq(|blocks|, i requires 0 <= i < |blocks| => RenderBlock(blocks[i], prefix, i))
  }

  /** Every upstream chunk on its own, keeping its id. */
  function OneToOne(ms: seq<Chunk>): (r: seq<Packed>)
    ensures |r| == |ms|
  {
    seq(|ms|, i requires 0 <= i < |ms| => Packed(ms[i].id, [ToRef(ms[i])], ms[i].weight))
  }

  // ---- the packing as a function -----------------------------------------

  /** How far the first block reaches, when its first `n` members are in it already. */
  function Reach(ms: seq<Chunk>, n: nat, target: real): (r: nat)
    requires 1 <= n <= |ms|
    ensures n <= r <= |ms|
    decreases |ms| - n
  {
    if n < |ms| && Weight(ms[..n]) + ms[n].weight <= target then Reach(ms, n + 1, target) else n
  }

  function GreedyBlocks(ms: seq<Chunk>, target: real): seq<seq<Chunk>>
    decreases |ms|
  {
    if ms == [] then [] else
    var n := Reach(ms, 1, target);
    [ms[..n]] + GreedyBlocks(ms[n..], target)
  }

  /** `pack(members, target, prefix)` */
  function Packing(ms: seq<Chunk>, target: real, prefix: string): seq<Packed> {
    if target <= 0.0 then OneToOne(ms) else Render(GreedyBlocks(ms, target), prefix)
  }

  lemma {:induction false} ReachFits(ms: seq<Chunk>, n: nat, target: real)
    requires 1 <= n <= |ms| && Fits(ms[..n], target)
    ensures var r := Reach(ms, n, target);
      Fits(ms[..r], target) && (r < |ms| ==> Weight(ms[..r]) + ms[r].weight > target)
    decreases |ms| - n
  {
    if n < |ms| && Weight(ms[..n]) + ms[n].weight <= target {
      assert ms[..n + 1] == ms[..n] + [ms[n]];
      WeightAppend(ms[..n], [ms[n]]);
      WeightSingle(ms[n]);
      ReachFits(ms, n + 1, target);
    }
  }

  lemma {:induction false} GreedyBlocksAreGreedy(ms: seq<Chunk>, target: real)
    ensures IsGreedyPacking(GreedyBlocks(ms, target), ms, target)
    decreases |ms|
  {
    if ms != [] {
      var n := Reach(ms, 1, target);
      ReachFits(ms, 1, target);
      var rest := GreedyBlocks(ms[n..], target);
      GreedyBlocksAreGreedy(ms[n..], target);
      var blocks := [ms[..n]] + rest;
      assert blocks[1..] == rest;
      assert ms[..n] + ms[n..] == ms;
      if rest != [] {
        assert rest[0] in rest;
        assert Concat(rest) == rest[0] + Concat(rest[1..]);
        assert ms[n..][0] == rest[0][0];
      }
      forall i | 0 <= i < |blocks| - 1
        ensures Overflows(blocks[i], blocks[i + 1], target)
      {
        if i > 0 {
          assert blocks[i] == rest[i - 1] && blocks[i + 1] == rest[i];
        }
      }
    }
  }

  /** With non-negative weights a longer stretch never weighs less. */
  lemma PrefixWeight(ms: seq<Chunk>, i: nat, j: nat)
    requires NonNegative(ms) && i <= j <= |ms|
    ensures Weight(ms[..i]) <= Weight(ms[..j])
  {
    assert ms[..j] == ms[..i] + ms[i..j];
    WeightAppend(ms[..i], ms[i..j]);
    WeightNonNegative(ms[i..j]);
  }

  /** With non-negative weights the first block reaches past every block of `k` members that fits. */
  lemma {:induction false} ReachAtLeast(ms: seq<Chunk>, n: nat, k: nat, target: real)
    requires NonNegative(ms) && 1 <= n <= k <= |ms| && Fits(ms[..k], target)
    ensures Reach(ms, n, target) >= k
    decreases k - n
  {
    if n < k {
      assert ms[..n + 1] == ms[..n] + [ms[n]];
      WeightAppend(ms[..n], [ms[n]]);
      WeightSingle(ms[n]);
      PrefixWeight(ms, n + 1, k);
      ReachAtLeast(ms, n + 1, k, target);
    }
  }

  /** ... and stops where the next member would overflow. */
  lemma {:induction false} ReachAtMost(ms: seq<Chunk>, n: nat, k: nat, target: real)
    requires 1 <= n <= k <= |ms|
    requires k < |ms| ==> Weight(ms[..k]) + ms[k].weight > target
    ensures Reach(ms, n, target) <= k
    decreases k - n
  {
    if n < k {
      ReachAtMost(ms, n + 1, k, target);
    }
  }

  /** With non-negative weights the laws leave no choice: any saturated packing is the one the packer makes. */
  lemma {:induction false} GreedyPackingUnique(blocks: seq<seq<Chunk>>, ms: seq<Chunk>, target: real)
    requires NonNegative(ms)
    requires IsGreedyPacking(blocks, ms, target)
    ensures blocks == GreedyBlocks(ms, target)
    decreases |ms|
  {
    hide Weight, Reach;
    if blocks != [] {
      var b: seq<Chunk>, rest: seq<seq<Chunk>> := blocks[0], blocks[1..];
      assert b in blocks && Concat(blocks) == b + Concat(rest);
      var n := |b|;
      assert ms[..n] == b && ms[n..] == Concat(rest);
      if rest != [] {
        assert blocks[1] == rest[0] && rest[0] in blocks;
        assert Concat(rest) == rest[0] + Concat(rest[1..]);
        assert ms[n] == rest[0][0];
      }
      ReachAtLeast(ms, 1, n, target);
      ReachAtMost(ms, 1, n, target);
      forall i | 0 <= i < |rest| - 1
        ensures Overflows(rest[i], rest[i + 1], target)
      {
        assert rest[i] == blocks[i + 1] && rest[i + 1] == blocks[i + 2];
      }
      GreedyPackingUnique(rest, ms[n..], target);
    }
  }

  // ---- optimality ---------------------------------------------------------

  lemma GreedyHead(ms: seq<Chunk>, target: real)
    ensures ms == [] ==> GreedyBlocks(ms, target) == []
    ensures ms != [] ==>
      var n := Reach(ms, 1, target); GreedyBlocks(ms, target) == [ms[..n]] + GreedyBlocks(ms[n..], target)
  {
  }

  /** Greedy stays ahead: packing what is left after dropping `d` members needs no more blocks than any packing of all. */
  lemma {:induction false} GreedyStaysAhead(ms: seq<Chunk>, d: nat, other: seq<seq<Chunk>>, target: real)
    requires NonNegative(ms) && d <= |ms|
    requires IsPacking(other, ms, target)
    ensures |GreedyBlocks(ms[d..], target)| <= |other|
    decreases |other|
  {
    hide GreedyBlocks, Weight, Reach, Fits, Overflows;
    GreedyHead(ms[d..], target);
    if other == [] || d == |ms| {
      assert ms[d..] == [];
    } else {
      var q, rest := other[0], other[1..];
      var tail := ms[|q|..];
      assert q in other && Concat(other) == q + Concat(rest);
      assert tail == Concat(rest);
      assert IsPacking(rest, tail, target);
      if d >= |q| {
        assert ms[d..] == tail[d - |q|..];
        GreedyStaysAhead(tail, d - |q|, rest, target);
      } else {
        var left := ms[d..];
        var k := |q| - d;
        SuffixFits(q, d, target);
        assert left[..k] == q[d..];
        ReachAtLeast(left, 1, k, target);
        var n := Reach(left, 1, target);
        assert left[n..] == tail[n - k..];
        GreedyStaysAhead(tail, n - k, rest, target);
      }
    }
  }

  lemma SuffixFits(q: seq<Chunk>, d: nat, target: real)
    requires NonNegative(q) && d <= |q| && Fits(q, target)
    ensures Fits(q[d..], target)
  {
    assert q == q[..d] + q[d..];
    WeightAppend(q[..d], q[d..]);
    WeightNonNegative(q[..d]);
  }

  /** No order-preserving packing under the same cap has fewer chunks. */
  lemma PackingOptimal(ms: seq<Chunk>, target: real, prefix: string, other: seq<seq<Chunk>>)
    requires NonNegative(ms) && target > 0.0
    requires IsPacking(other, ms, target)
    ensures |Packing(ms, target, prefix)| <= |other|
  {
    assert ms[0..] == ms;
    GreedyStaysAhead(ms, 0, other, target);
  }

  // ---- laws of the planned chunks ------------------------------------------

  function MembersOf(ps: seq<Packed>): seq<seq<Ref>> {
    seq(|ps|, i requires 0 <= i < |ps| => ps[i].members)
  }

  function PackedWeights(ps: seq<Packed>): seq<real> {
    seq(|ps|, i requires 0 <= i < |ps| => ps[i].weight)
  }

  lemma RefsAppend(a: seq<Chunk>, b: seq<Chunk>)
    ensures Refs(a + b) == Refs(a) + Refs(b)
  {
  }

  lemma {:induction false} ConcatRefs(blocks: seq<seq<Chunk>>)
    ensures Concat(seq(|blocks|, i requires 0 <= i < |blocks| => Refs(blocks[i]))) == Refs(Concat(blocks))
  {
    if blocks != [] {
      var rs := seq(|blocks|, i requires 0 <= i < |blocks| => Refs(blocks[i]));
      var rest := blocks[1..];
      assert rs[1..] == seq(|rest|, i requires 0 <= i < |rest| => Refs(rest[i]));
      ConcatRefs(rest);
      RefsAppend(blocks[0], Concat(rest));
    }
  }

  function BlockWeights(blocks: seq<seq<Chunk>>): (r: seq<real>)
    ensures |r| == |blocks| && forall i :: 0 <= i < |r| ==> r[i] == Weight(blocks[i])
  {
    seq(|blocks|, i requires 0 <= i < |blocks| => Weight(blocks[i]))
  }

  lemma {:induction false} SumWeights(blocks: seq<seq<Chunk>>)
    ensures Sum(BlockWeights(blocks)) == Weight(Concat(blocks))
  {
    if blocks != [] {
      var ws := BlockWeights(blocks);
      var rest := blocks[1..];
      assert ws[1..] == BlockWeights(rest);
      SumWeights(rest);
      WeightAppend(blocks[0], Concat(rest));
    }
  }

  /** Nothing is dropped, duplicated or reordered, and no weight appears or vanishes, whatever the target. */
  lemma PackingConserves(ms: seq<Chunk>, target: real, prefix: string)
    ensures Concat(MembersOf(Packing(ms, target, prefix))) == Refs(ms)
    ensures Sum(PackedWeights(Packing(ms, target, prefix))) == Weight(ms)
  {
    var ps := Packing(ms, target, prefix);
    if target <= 0.0 {
      OneToOneConserves(ms);
    } else {
      var blocks := GreedyBlocks(ms, target);
      GreedyBlocksAreGreedy(ms, target);
      ConcatRefs(blocks);
      SumWeights(blocks);
      assert MembersOf(ps) == seq(|blocks|, i requires 0 <= i < |blocks| => Refs(blocks[i]));
      assert PackedWeights(ps) == BlockWeights(blocks);
    }
  }

  lemma {:induction false} OneToOneConserves(ms: seq<Chunk>)
    ensures Concat(MembersOf(OneToOne(ms))) == Refs(ms)
    ensures Sum(PackedWeights(OneToOne(ms))) == Weight(ms)
  {
    if ms != [] {
      OneToOneConserves(ms[1..]);
      var ps := OneToOne(ms);
      assert MembersOf(ps)[1..] == MembersOf(OneToOne(ms[1..]));
      assert PackedWeights(ps)[1..] == PackedWeights(OneToOne(ms[1..]));
      assert Refs(ms) == [ToRef(ms[0])] + Refs(ms[1..]);
      assert Weights(ms)[1..] == Weights(ms[1..]);
    }
  }

  lemma {:induction false} BlockAt(blocks: seq<seq<Chunk>>, i: nat)
    requires i < |blocks|
    ensures var ms, lo := Concat(blocks), |Concat(blocks[..i])|;
      && lo + |blocks[i]| <= |ms| && ms[lo..lo + |blocks[i]|] == blocks[i]
      && (i + 1 == |blocks| ==> lo + |blocks[i]| == |ms|)
      && (i + 1 < |blocks| && blocks[i + 1] != [] ==> lo + |blocks[i]| < |ms| && ms[lo + |blocks[i]|] == blocks[i + 1][0])
  {
    var ms, lo := Concat(blocks), |Concat(blocks[..i])|;
    if i == 0 {
      if |blocks| > 1 { assert Concat(blocks[1..]) == blocks[1] + Concat(blocks[1..][1..]); }
    } else {
      BlockAt(blocks[1..], i - 1);
      assert blocks[..i][1..] == blocks[1..][..i - 1];
      var n, m := |blocks[0]|, lo - |blocks[0]|;
      assert ms[n..] == Concat(blocks[1..]) && ms[lo..lo + |blocks[i]|] == ms[n..][m..m + |blocks[i]|];
    }
  }

  lemma StartsAtFirst(blocks: seq<seq<Chunk>>, i: nat)
    requires i < |blocks| && blocks[0] != []
    ensures Concat(blocks[..i]) == [] <==> i == 0
  {
    if i > 0 {
      assert blocks[..i][0] == blocks[0];
    }
  }

  /**
   Chunk `i` is a non-empty stretch `ms[lo..hi]` of the list, with the refs and the total weight of that stretch. It weighs
   at most the target or has one member, and with the next member of the list it would weigh more than the target.
   */
  lemma PackingCap(ms: seq<Chunk>, target: real, prefix: string, i: nat) returns (lo: nat, hi: nat)
    requires target > 0.0 && i < |Packing(ms, target, prefix)|
    ensures lo < hi <= |ms|
    ensures var c := Packing(ms, target, prefix)[i];
      && c.members == Refs(ms[lo..hi]) && c.weight == Weight(ms[lo..hi])
      && (c.weight <= target || hi == lo + 1)
      && (hi < |ms| ==> c.weight + ms[hi].weight > target)
    ensures lo == 0 <==> i == 0
    ensures hi == |ms| <==> i + 1 == |Packing(ms, target, prefix)|
  {
    hide GreedyBlocks, Concat, Weight;
    var blocks := GreedyBlocks(ms, target);
    GreedyBlocksAreGreedy(ms, target);
    assert blocks[i] in blocks;
    BlockAt(blocks, i);
    StartsAtFirst(blocks, i);
    lo := |Concat(blocks[..i])|;
    hi := lo + |blocks[i]|;
    if i + 1 < |blocks| {
      assert Overflows(blocks[i], blocks[i + 1], target);
    }
  }

  /** Two neighbours together weigh more than the target. */
  lemma NeighboursOverflow(blocks: seq<seq<Chunk>>, ms: seq<Chunk>, target: real, i: nat)
    requires NonNegative(ms) && IsGreedyPacking(blocks, ms, target) && i + 1 < |blocks|
    ensures Weight(blocks[i]) + Weight(blocks[i + 1]) > target
  {
    var b := blocks[i + 1];
    assert b in blocks;
    BlockNonNegative(blocks, i + 1);
    assert b == [b[0]] + b[1..];
    WeightAppend([b[0]], b[1..]);
    WeightSingle(b[0]);
    WeightNonNegative(b[1..]);
  }

  lemma {:induction false} BlockNonNegative(blocks: seq<seq<Chunk>>, i: nat)
    requires NonNegative(Concat(blocks)) && i < |blocks|
    ensures NonNegative(blocks[i])
  {
    var b, rest := blocks[0], Concat(blocks[1..]);
    assert Concat(blocks) == b + rest;
    if i == 0 {
      forall j | 0 <= j < |b| ensures b[j].weight >= 0.0 { assert Concat(blocks)[j] == b[j]; }
    } else {
      forall j | 0 <= j < |rest| ensures rest[j].weight >= 0.0 { assert Concat(blocks)[|b| + j] == rest[j]; }
      BlockNonNegative(blocks[1..], i - 1);
    }
  }

  /** Neighbouring sums: each element is counted at most twice. */
  lemma {:induction false} PairBound(ws: seq<real>, target: real)
    requires |ws| >= 1
    requires forall i :: 0 <= i < |ws| ==> ws[i] >= 0.0
    requires forall i :: 0 <= i < |ws| - 1 ==> ws[i] + ws[i + 1] > target
    ensures (|ws| - 1) as real * target <= 2.0 * Sum(ws) - ws[0]
    ensures |ws| >= 2 ==> (|ws| - 1) as real * target < 2.0 * Sum(ws) - ws[0]
  {
    if |ws| == 1 {
      assert Sum(ws) == ws[0] + Sum(ws[1..]);
    } else {
      var rest := ws[1..];
      forall i | 0 <= i < |rest| - 1 ensures rest[i] + rest[i + 1] > target {
        assert rest[i] == ws[i + 1] && rest[i + 1] == ws[i + 2];
      }
      PairBound(rest, target);
      assert ws[0] + rest[0] > target;
      assert (|ws| - 1) as real * target == (|rest| - 1) as real * target + target;
    }
  }

  lemma GreedyBound(blocks: seq<seq<Chunk>>, ms: seq<Chunk>, target: real)
    requires IsGreedyPacking(blocks, ms, target) && NonNegative(ms) && target > 0.0 && |blocks| >= 2
    ensures (|blocks| - 1) as real * target < 2.0 * Weight(ms)
  {
    var ws := BlockWeights(blocks);
    forall i | 0 <= i < |ws| ensures ws[i] >= 0.0 {
      BlockNonNegative(blocks, i);
      WeightNonNegative(blocks[i]);
    }
    forall i | 0 <= i < |ws| - 1 ensures ws[i] + ws[i + 1] > target {
      NeighboursOverflow(blocks, ms, target, i);
    }
    PairBound(ws, target);
    SumWeights(blocks);
  }

  /** `k >= 2` chunks of total weight `W` satisfy `(k - 1) * target < 2 * W`. */
  lemma PackingBound(ms: seq<Chunk>, target: real, prefix: string)
    requires NonNegative(ms) && target > 0.0
    requires |Packing(ms, target, prefix)| >= 2
    ensures (|Packing(ms, target, prefix)| - 1) as real * target < 2.0 * Weight(ms)
  {
    hide GreedyBlocks, Weight, IsGreedyPacking, NonNegative;
    var blocks := GreedyBlocks(ms, target);
    GreedyBlocksAreGreedy(ms, target);
    GreedyBound(blocks, ms, target);
    assert |Packing(ms, target, prefix)| == |blocks|;
  }

  /** Exactly one chunk is planned when, and only when, everything fits one chunk. */
  lemma SingleChunkIff(ms: seq<Chunk>, target: real, prefix: string)
    requires NonNegative(ms) && target > 0.0
    ensures |Packing(ms, target, prefix)| == 1 <==> ms != [] && (|ms| == 1 || Weight(ms) <= target)
  {
    var blocks := GreedyBlocks(ms, target);
    GreedyBlocksAreGreedy(ms, target);
    assert Concat([ms]) == ms + Concat([ms][1..]);
    assert |Packing(ms, target, prefix)| == |blocks|;
    if |blocks| == 1 {
      assert blocks[1..] == [] && blocks[0] == ms;
      assert blocks[0] in blocks;
      assert Fits(ms, target);
    }
    if ms != [] && (|ms| == 1 || Weight(ms) <= target) {
      assert IsPacking([ms], ms, target);
      PackingOptimal(ms, target, prefix, [ms]);
      assert |blocks| <= 1 && blocks != [];
    }
  }

  // ---- pack itself -----------------------------------------------------------

  /** Where the packer stands: `blocks` are closed, `cur` is open, `rest` is still to come. */
  ghost predicate Underway(ms: seq<Chunk>, target: real, blocks: seq<seq<Chunk>>, cur: seq<Chunk>, rest: seq<Chunk>) {
    && GreedyBlocks(ms, target) == blocks + GreedyBlocks(cur + rest, target)
    && (cur != [] ==> Reach(cur + rest, 1, target) == Reach(cur + rest, |cur|, target))
  }

  lemma PackTake(ms: seq<Chunk>, target: real, blocks: seq<seq<Chunk>>, cur: seq<Chunk>, rest: seq<Chunk>)
    requires Underway(ms, target, blocks, cur, rest) && rest != []
    requires cur == [] || Weight(cur) + rest[0].weight <= target
    ensures Underway(ms, target, blocks, cur + [rest[0]], rest[1..])
  {
    var left := cur + rest;
    assert (cur + [rest[0]]) + rest[1..] == left;
    if cur != [] {
      assert left[..|cur|] == cur && left[|cur|] == rest[0];
    }
  }

  lemma PackFlush(ms: seq<Chunk>, target: real, blocks: seq<seq<Chunk>>, cur: seq<Chunk>, rest: seq<Chunk>)
    requires Underway(ms, target, blocks, cur, rest) && cur != []
    requires rest == [] || Weight(cur) + rest[0].weight > target
    ensures Underway(ms, target, blocks + [cur], [], rest)
  {
    var left := cur + rest;
    assert left[..|cur|] == cur && left[|cur|..] == rest;
    assert rest != [] ==> left[|cur|] == rest[0];
    assert Reach(left, |cur|, target) == |cur|;
    assert blocks + ([cur] + GreedyBlocks(rest, target)) == (blocks + [cur]) + GreedyBlocks(rest, target);
    assert [] + rest == rest;
  }

  /** The packer: one pass; a block is closed when the next member would push it over the target. */
  lemma PackStart(ms: seq<Chunk>, target: real)
    ensures Underway(ms, target, [], [], ms)
  {
    assert [] + ms == ms;
  }

  lemma PackDone(ms: seq<Chunk>, target: real, blocks: seq<seq<Chunk>>)
    requires Underway(ms, target, blocks, [], [])
    ensures GreedyBlocks(ms, target) == blocks
  {
  }

  method Pack(members: seq<Chunk>, target: real, prefix: string) returns (out: seq<Packed>)
    ensures out == Packing(members, target, prefix)
  {
    hide Underway, GreedyBlocks, Reach;
    if target <= 0.0 {
      return OneToOne(members);
    }
    out := [];
    var cur: seq<Chunk>, curW := [], 0.0;
    ghost var blocks: seq<seq<Chunk>> := [];
    var i := 0;
    PackStart(members, target);
    assert members[0..] == members;
    while i < |members|
      invariant 0 <= i <= |members|
      invariant curW == Weight(cur) && out == Render(blocks, prefix)
      invariant Underway(members, target, blocks, cur, members[i..])
    {
      var m := members[i];
      if cur != [] && curW + m.weight > target {
        PackFlush(members, target, blocks, cur, members[i..]);
        out := out + [Packed(prefix + Names.Dec(|out|), Refs(cur), curW)];
        blocks := blocks + [cur];
        cur, curW := [], 0.0;
      }
      PackTake(members, target, blocks, cur, members[i..]);
      assert members[i..][1..] == members[i + 1..];
      WeightAppend(cur, [m]);
      WeightSingle(m);
      cur := cur + [m];
      curW := curW + m.weight;
      i := i + 1;
    }
    if cur != [] {
      PackFlush(members, target, blocks, cur, members[i..]);
      out := out + [Packed(prefix + Names.Dec(|out|), Refs(cur), curW)];
      blocks := blocks + [cur];
    }
    assert members[i..] == [];
    PackDone(members, target, blocks);
  }

  /** Packed ids are `prefix` and a number: no two chunks share one. */
  lemma PackedIdsDistinct(blocks: seq<seq<Chunk>>, prefix: string, i: nat, j: nat)
    requires i < |blocks| && j < |blocks| && Render(blocks, prefix)[i].id == Render(blocks, prefix)[j].id
    ensures i == j
  {
    assert Names.Dec(i) == (prefix + Names.Dec(i))[|prefix|..];
    assert Names.Dec(j) == (prefix + Names.Dec(j))[|prefix|..];
    Names.DecInjective(i, j);
  }

  lemma FirstId(prefix: string)
    ensures prefix + Names.Dec(0) == prefix + "0"
  {
    assert Names.Dec(0) == [Names.DigitChar(0)] == "0";
  }

  lemma OneBlock(ms: seq<Chunk>, target: real, prefix: string)
    requires target > 0.0 && ms != [] && Reach(ms, 1, target) == |ms|
    ensures Packing(ms, target, prefix) == [RenderBlock(ms, prefix, 0)]
  {
    assert ms[..|ms|] == ms && ms[|ms|..] == [];
    assert GreedyBlocks(ms, target) == [ms] + [];
  }

  /** Two members that fit together share a chunk, and it is the first; so is the chunk of the one without the other. */
  lemma PackPair(a: Chunk, b: Chunk, target: real, prefix: string)
    requires target > 0.0 && a.weight + b.weight <= target
    ensures Packing([a], target, prefix) == [Packed(prefix + "0", [ToRef(a)], a.weight)]
    ensures Packing([a, b], target, prefix) == [Packed(prefix + "0", [ToRef(a), ToRef(b)], a.weight + b.weight)]
  {
    FirstId(prefix);
    WeightSingle(a);
    WeightSingle(b);
    WeightAppend([a], [b]);
    assert [a] + [b] == [a, b] && [a, b][..1] == [a];
    assert Reach([a, b], 1, target) == 2 && [a, b][..2] == [a, b] && [a, b][2..] == [];
    assert Reach([a], 1, target) == 1 && [a][..1] == [a] && [a][1..] == [];
    assert Refs([a]) == [ToRef(a)] && Refs([a, b]) == [ToRef(a), ToRef(b)];
    OneBlock([a], target, prefix);
    OneBlock([a, b], target, prefix);
  }
}
