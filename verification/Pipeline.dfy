/** The DAG of stages and the order in which they run. */
module Pipeline {
  import opened Sequences

  /** A registered stage and the name of what it reads: a stage, a source, or nothing. */
  datatype Stage = Stage(name: string, upstream: Option<string>)

  /** `self.stages`: a dict in insertion order, so names are distinct. */
  predicate DistinctNames(stages: seq<Stage>) {
    forall i, j :: 0 <= i < j < |stages| ==> stages[i].name != stages[j].name
  }

  function Find(stages: seq<Stage>, name: string): (r: Option<nat>)
    ensures r.Some? ==> r.value < |stages| && stages[r.value].name == name
    ensures r.None? ==> forall i :: 0 <= i < |stages| ==> stages[i].name != name
  {
    if stages == [] then None
    else if stages[|stages| - 1].name == name then Some(|stages| - 1)
    else Find(stages[..|stages| - 1], name)
  }

  /** The registered stage that stage `i` depends on. An upstream that is not registered by that name is a source. */
  function Dep(stages: seq<Stage>, i: nat): (r: Option<nat>)
    requires i < |stages|
    ensures r.Some? ==> r.value < |stages|
  {
    match stages[i].upstream
    case None => None
    case Some(up) => if up == "" then None else Find(stages, up)
  }

  /** Stage `i` names stage `j` as what it reads. */
  predicate Reads(stages: seq<Stage>, i: nat, j: nat)
    requires i < |stages| && j < |stages|
  {
    stages[i].upstream == Some(stages[j].name) && stages[j].name != ""
  }

  lemma DepIff(stages: seq<Stage>, i: nat, j: nat)
    requires DistinctNames(stages) && i < |stages| && j < |stages|
    ensures Dep(stages, i) == Some(j) <==> Reads(stages, i, j)
  {
  }

  /** `n` upstream links above stage `i`. */
  function Chain(stages: seq<Stage>, i: nat, n: nat): (r: Option<nat>)
    requires i < |stages|
    ensures r.Some? ==> r.value < |stages|
    decreases n
  {
    if n == 0 then Some(i) else
    match Dep(stages, i)
    case None => None
    case Some(j) => Chain(stages, j, n - 1)
  }

  ghost predicate Acyclic(stages: seq<Stage>) {
    forall i, n :: 0 <= i < |stages| && n >= 1 ==> Chain(stages, i, n) != Some(i)
  }

  lemma {:induction false} ChainSplit(stages: seq<Stage>, i: nat, a: nat, b: nat)
    requires i < |stages|
    ensures Chain(stages, i, a + b)
      == match Chain(stages, i, a) { case None => None case Some(j) => Chain(stages, j, b) }
    decreases a
  {
    if a > 0 && Dep(stages, i).Some? {
      ChainSplit(stages, Dep(stages, i).value, a - 1, b);
    }
  }

  lemma {:induction false} DistinctFit(s: seq<nat>, n: nat)
    requires Distinct(s) && forall i :: 0 <= i < |s| ==> s[i] < n
    ensures |s| <= n
  {
    forall x | x in Elements(s) ensures x in Below(n) {
      var i :| 0 <= i < |s| && s[i] == x;
    }
    SetOfDistinct(s);
    SubsetSize(Elements(s), Below(n));
  }

  function Below(n: nat): (r: set<nat>)
    ensures |r| == n && forall x: nat :: x in r <==> x < n
  {
    if n == 0 then {} else Below(n - 1) + {n - 1}
  }

  function Elements(s: seq<nat>): (r: set<nat>)
    ensures forall x :: x in r <==> x in s
  {
    if s == [] then {} else Elements(s[..|s| - 1]) + {s[|s| - 1]}
  }

  lemma {:induction false} SetOfDistinct(s: seq<nat>)
    requires Distinct(s)
    ensures |Elements(s)| == |s|
  {
    if s != [] {
      SetOfDistinct(s[..|s| - 1]);
    }
  }

  lemma {:induction false} SubsetSize(a: set<nat>, b: set<nat>)
    requires a <= b
    ensures |a| <= |b|
  {
    if a != {} {
      var x :| x in a;
      SubsetSize(a - {x}, b - {x});
    }
  }

  /** Without cycles no chain of upstream links is longer than there are stages. */
  lemma {:induction false} ChainsEnd(stages: seq<Stage>, i: nat)
    requires Acyclic(stages) && i < |stages|
    ensures Chain(stages, i, |stages|) == None
  {
    var n := |stages|;
    if Chain(stages, i, n) != None {
      forall k | 0 <= k <= n ensures Chain(stages, i, k).Some? {
        ChainSplit(stages, i, k, n - k);
      }
      var visited := seq(n + 1, k requires 0 <= k < n + 1 => Chain(stages, i, k).value);
      forall a, b | 0 <= a < b < |visited| ensures visited[a] != visited[b] {
        ChainSplit(stages, i, a, b - a);
      }
      DistinctFit(visited, n);
    }
  }

  /** The visit of stage `i` comes to a stage without upstream. */
  ghost predicate Ends(stages: seq<Stage>, i: nat)
    requires i < |stages|
  {
    exists n: nat :: Chain(stages, i, n) == None
  }

  /** The recursion follows the upstream chain and marks a stage only on the way back, so it ends everywhere exactly
      when there is no cycle. */
  lemma {:induction false} AcyclicIffChainsEnd(stages: seq<Stage>)
    ensures Acyclic(stages) <==> forall i :: 0 <= i < |stages| ==> Ends(stages, i)
  {
    if Acyclic(stages) {
      forall i | 0 <= i < |stages| ensures Ends(stages, i) {
        ChainsEnd(stages, i);
      }
    } else {
      var i, n :| 0 <= i < |stages| && n >= 1 && Chain(stages, i, n) == Some(i);
      forall m: nat ensures Chain(stages, i, m) != None {
        CycleGoesOn(stages, i, n, m);
      }
      assert !Ends(stages, i);
    }
  }

  lemma {:induction false} CycleGoesOn(stages: seq<Stage>, i: nat, n: nat, m: nat)
    requires i < |stages| && n >= 1 && Chain(stages, i, n) == Some(i)
    ensures Chain(stages, i, m) != None
    decreases m
  {
    if m >= n {
      ChainSplit(stages, i, n, m - n);
      CycleGoesOn(stages, i, n, m - n);
    } else {
      ChainSplit(stages, i, m, n - m);
    }
  }

  // ---- the visit ---------------------------------------------------------------

  /** No stage twice, and every stage after the one it reads. */
  ghost predicate IsSchedule(order: seq<nat>, stages: seq<Stage>) {
    && Distinct(order)
    && (forall p :: 0 <= p < |order| ==> order[p] < |stages|)
    && forall p :: 0 <= p < |order| ==> DepBefore(order, stages, p)
  }

  ghost predicate DepBefore(order: seq<nat>, stages: seq<Stage>, p: nat)
    requires p < |order| && order[p] < |stages|
  {
    Dep(stages, order[p]).Some? ==> Dep(stages, order[p]).value in order[..p]
  }

  lemma ScheduleSnoc(order: seq<nat>, stages: seq<Stage>, i: nat)
    requires IsSchedule(order, stages) && i < |stages| && i !in order
    requires Dep(stages, i).Some? ==> Dep(stages, i).value in order
    ensures IsSchedule(order + [i], stages)
  {
    var longer := order + [i];
    forall p | 0 <= p < |longer| ensures DepBefore(longer, stages, p) {
      if p < |order| {
        assert DepBefore(order, stages, p);
        assert longer[..p] == order[..p];
      } else {
        assert longer[..p] == order;
      }
    }
  }

  /** Stage `x` is stage `i`, one registered before it, or lies above one of these. */
  ghost predicate NeededBy(stages: seq<Stage>, i: nat, x: nat) {
    exists k :: 0 <= k <= i && k < |stages| && OnChain(stages, k, x)
  }

  /** A stage comes before one registered earlier only if that one, or one registered earlier still, needs it. */
  ghost predicate KeepsOrder(order: seq<nat>, stages: seq<Stage>) {
    forall p, q :: 0 <= p < q < |order| && order[q] < order[p] ==> NeededBy(stages, order[q], order[p])
  }

  lemma NothingOrdered(stages: seq<Stage>)
    ensures KeepsOrder([], stages)
  {
  }

  /** In a schedule what a stage names as what it reads comes before it. */
  lemma ReadBefore(order: seq<nat>, stages: seq<Stage>)
    requires DistinctNames(stages) && IsSchedule(order, stages)
    ensures forall p, j :: 0 <= p < |order| && 0 <= j < |stages| && Reads(stages, order[p], j) ==> j in order[..p]
  {
    hide Reads, Dep;
    forall p, j | 0 <= p < |order| && 0 <= j < |stages| && Reads(stages, order[p], j) ensures j in order[..p] {
      DepIff(stages, order[p], j);
      assert DepBefore(order, stages, p);
    }
  }

  lemma KeepsOrderOn(was: seq<nat>, order: seq<nat>, stages: seq<Stage>, i: nat)
    requires KeepsOrder(was, stages) && was <= order && Distinct(order) && i < |stages|
    requires forall x :: x in was ==> i > 0 && NeededBy(stages, i - 1, x)
    requires forall j: nat :: j < i ==> j in was
    requires forall x :: x in order ==> x in was || OnChain(stages, i, x)
    ensures KeepsOrder(order, stages) && forall x :: x in order ==> NeededBy(stages, i, x)
  {
    forall x | x in order ensures NeededBy(stages, i, x) {
      if x in was {
        var k :| 0 <= k <= i - 1 && k < |stages| && OnChain(stages, k, x);
      }
    }
    forall p, q | 0 <= p < q < |order| && order[q] < order[p] ensures NeededBy(stages, order[q], order[p]) {
      if q < |was| {
        assert was[q] == order[q] && was[p] == order[p];
      } else {
        assert forall m :: 0 <= m < |was| ==> was[m] == order[m] != order[q];
        assert order[q] !in was;
        assert order[q] >= i;
        assert order[p] in order;
        var k :| 0 <= k <= i && k < |stages| && OnChain(stages, k, order[p]);
      }
    }
  }

  /** Stages registered upstream first keep the order in which they were registered. */
  lemma RegisteredInOrder(order: seq<nat>, stages: seq<Stage>)
    requires IsSchedule(order, stages) && KeepsOrder(order, stages)
    requires forall i :: 0 <= i < |stages| ==> (Dep(stages, i).Some? ==> Dep(stages, i).value < i)
    ensures forall p, q :: 0 <= p < q < |order| ==> order[p] < order[q]
  {
    forall p, q | 0 <= p < q < |order| ensures order[p] < order[q] {
      assert order[p] != order[q];
      if order[q] < order[p] {
        var k :| 0 <= k <= order[q] && k < |stages| && OnChain(stages, k, order[p]);
        var n: nat :| Chain(stages, k, n) == Some(order[p]);
        ChainDescends(stages, k, n);
      }
    }
  }

  lemma {:induction false} ChainDescends(stages: seq<Stage>, i: nat, n: nat)
    requires i < |stages| && Chain(stages, i, n).Some?
    requires forall i :: 0 <= i < |stages| ==> (Dep(stages, i).Some? ==> Dep(stages, i).value < i)
    ensures Chain(stages, i, n).value <= i
    decreases n
  {
    if n > 0 { ChainDescends(stages, Dep(stages, i).value, n - 1); }
  }

  class Pipeline {
    var stages: seq<Stage>

    constructor ()
      ensures stages == []
    {
      stages := [];
    }

    /** `self.stages[st.name] = st`: a name used again replaces the stage in its old place. */
    method Register(st: Stage)
      requires DistinctNames(stages)
      modifies this
      ensures DistinctNames(stages)
      ensures match Find(old(stages), st.name) {
        case None => stages == old(stages) + [st]
        case Some(i) => stages == old(stages)[i := st] }
    {
      var at := Find(stages, st.name);
      stages := if at.None? then stages + [st] else stages[at.value := st];
    }

    /** Every registered stage exactly once, each after its upstream. */
    method TopoOrder() returns (order: seq<nat>)
      requires DistinctNames(stages) && Acyclic(stages)
      ensures IsSchedule(order, stages)
      ensures forall i: nat :: i in order <==> i < |stages|
      ensures |order| == |stages|
      ensures forall p, j :: 0 <= p < |order| && 0 <= j < |stages| && Reads(stages, order[p], j) ==> j in order[..p]
      ensures KeepsOrder(order, stages)
    {
      hide KeepsOrder, NeededBy, OnChain, Chain, Dep, DepBefore, Reads;
      var sort := new Visitor(stages);
      NothingOrdered(stages);
      for i := 0 to |stages|
        invariant IsSchedule(sort.order, stages) && sort.Valid() && fresh(sort) && sort.stages == stages
        invariant forall j: nat :: j < i ==> j in sort.order
        invariant KeepsOrder(sort.order, stages)
        invariant forall x :: x in sort.order ==> i > 0 && NeededBy(stages, i - 1, x)
      {
        ghost var was := sort.order;
        ChainsEnd(stages, i);
        sort.Visit(i, |stages|);
        KeepsOrderOn(was, sort.order, stages, i);
      }
      order := sort.order;
      ReadBefore(order, stages);
      SetOfDistinct(order);
      assert Elements(order) == Below(|stages|);
    }
  }

  /** The `seen` and `order` variables that the recursive `visit` closes over. */
  class Visitor {
    const stages: seq<Stage>
    var seen: set<string>
    var order: seq<nat>

    constructor (stages: seq<Stage>)
      requires DistinctNames(stages)
      ensures this.stages == stages && order == [] && Valid()
    {
      this.stages, seen, order := stages, {}, [];
    }

    ghost predicate Valid()
      reads this
    {
      && DistinctNames(stages) && IsSchedule(order, stages)
      && forall i :: 0 <= i < |stages| ==> (stages[i].name in seen <==> i in order)
    }

    method Visit(i: nat, ghost reach: nat)
      requires Valid() && i < |stages| && Chain(stages, i, reach) == None
      modifies this
      ensures Valid() && i in order && old(order) <= order
      ensures forall x :: x in order ==> x in old(order) || OnChain(stages, i, x)
      decreases reach
    {
      assert Chain(stages, i, 0) == Some(i);
      if stages[i].name in seen {
        return;
      }
      var up := Dep(stages, i);
      if up.Some? {
        Visit(up.value, reach - 1);
        ChainTail(stages, i, reach);
      }
      assert i !in order;
      ScheduleSnoc(order, stages, i);
      seen := seen + {stages[i].name};
      order := order + [i];
      assert OnChain(stages, i, i);
    }
  }

  /** `x` is stage `i` or lies above it. */
  ghost predicate OnChain(stages: seq<Stage>, i: nat, x: nat)
    requires i < |stages|
  {
    exists n: nat :: Chain(stages, i, n) == Some(x)
  }

  /** What lies above the upstream of `i` lies above `i`, and `i` itself is not there. */
  lemma {:induction false} ChainTail(stages: seq<Stage>, i: nat, reach: nat)
    requires i < |stages| && Dep(stages, i).Some? && Chain(stages, i, reach) == None
    ensures !OnChain(stages, Dep(stages, i).value, i)
    ensures forall x: nat :: OnChain(stages, Dep(stages, i).value, x) ==> OnChain(stages, i, x)
  {
    var up := Dep(stages, i).value;
    forall x: nat | OnChain(stages, up, x) ensures OnChain(stages, i, x) {
      var n: nat :| Chain(stages, up, n) == Some(x);
      assert Chain(stages, i, n + 1) == Some(x);
    }
    forall n: nat ensures Chain(stages, up, n) != Some(i) {
      if Chain(stages, up, n) == Some(i) {
        assert Chain(stages, i, n + 1) == Some(i);
        CycleGoesOn(stages, i, n + 1, reach);
      }
    }
  }
}
