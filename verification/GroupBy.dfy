/**
 The distributed group-by: one query becomes a partial query per partition and a combining query over the partials.
 Values are reals and no cell is null. The group columns of a row are its `key`, held apart from the value columns.
 */
module GroupBy {
  import opened Sequences

  type GroupKey(==, !new)
  type Col = string

  datatype Row = Row(key: GroupKey, cells: map<Col, real>)

  /** A grouped result. Polars does not fix the order of the groups, so a table is a map. */
  type Table = map<GroupKey, map<Col, real>>

  datatype Op = OpSum | OpMin | OpMax | OpCount | OpMean | Unsupported(name: string)

  /** `(name, op, col)` as the user writes it. */
  datatype Agg = Agg(name: Col, op: Op, col: Col)

  datatype Fn = SumOf | MinOf | MaxOf | Len

  /** `pl.col(col).fn().alias(alias)`; `Len` is `pl.len()`, which reads no column. */
  datatype Expr = Expr(fn: Fn, col: Col, alias: Col)

  /** `(pl.col(num) / pl.col(den)).alias(alias)` */
  datatype Ratio = Ratio(num: Col, den: Col, alias: Col)

  datatype Plan = Plan(mapExprs: seq<Expr>, reduceExprs: seq<Expr>, post: seq<Ratio>, final: seq<Col>)

  datatype Compiled = Ok(plan: Plan) | NonCombinable(op: string)

  // ---- compiling the aggregations ---------------------------------------------

  function SumCol(a: Agg): Col { a.name + "__s" }

  function CountCol(a: Agg): Col { a.name + "__n" }

  function MapExprs(a: Agg): seq<Expr>
    requires !a.op.Unsupported?
  {
    match a.op
    case OpSum => [Expr(SumOf, a.col, a.name)]
    case OpMin => [Expr(MinOf, a.col, a.name)]
    case OpMax => [Expr(MaxOf, a.col, a.name)]
    case OpCount => [Expr(Len, "", a.name)]
    case OpMean => [Expr(SumOf, a.col, SumCol(a)), Expr(Len, "", CountCol(a))]
  }

  /** The expression that combines the partial results of `e`: counts add up, the rest combine with themselves. */
  function Combiner(e: Expr): Expr {
    Expr(if e.fn == Len then SumOf else e.fn, e.alias, e.alias)
  }

  function Combiners(es: seq<Expr>): (r: seq<Expr>)
    ensures |r| == |es|
  {
    seq(|es|, i requires 0 <= i < |es| => Combiner(es[i]))
  }

  function Post(a: Agg): seq<Ratio> {
    if a.op == OpMean then [Ratio(SumCol(a), CountCol(a), a.name)] else []
  }

  /** The plan for supported aggregations, one after the other. */
  function PlanFor(aggs: seq<Agg>): Plan
    requires forall i :: 0 <= i < |aggs| ==> !aggs[i].op.Unsupported?
  {
    if aggs == [] then Plan([], [], [], []) else
    var a, p := aggs[|aggs| - 1], PlanFor(aggs[..|aggs| - 1]);
    Plan(p.mapExprs + MapExprs(a), p.reduceExprs + Combiners(MapExprs(a)), p.post + Post(a), p.final + [a.name])
  }

  ghost predicate FirstUnsupported(aggs: seq<Agg>, i: nat, op: string) {
    && i < |aggs|
    && aggs[i].op == Unsupported(op)
    && forall j :: 0 <= j < i ==> !aggs[j].op.Unsupported?
  }

  lemma PlanStep(aggs: seq<Agg>, k: nat)
    requires k < |aggs| && forall i :: 0 <= i <= k ==> !aggs[i].op.Unsupported?
    ensures var a, p := aggs[k], PlanFor(aggs[..k]);
      PlanFor(aggs[..k + 1])
      == Plan(p.mapExprs + MapExprs(a), p.reduceExprs + Combiners(MapExprs(a)), p.post + Post(a), p.final + [a.name])
  {
    assert aggs[..k + 1][..k] == aggs[..k];
  }

  /** `_compile_aggs`: the first operation that cannot be combined is reported. */
  method CompileAggs(aggs: seq<Agg>) returns (r: Compiled)
    ensures r.Ok? <==> forall i :: 0 <= i < |aggs| ==> !aggs[i].op.Unsupported?
    ensures r.Ok? ==> r.plan == PlanFor(aggs)
    ensures r.NonCombinable? ==> exists i :: FirstUnsupported(aggs, i, r.op)
  {
    var mapExprs: seq<Expr>, reduceExprs: seq<Expr> := [], [];
    var post: seq<Ratio>, final: seq<Col> := [], [];
    for k := 0 to |aggs|
      invariant forall i :: 0 <= i < k ==> !aggs[i].op.Unsupported?
      invariant Plan(mapExprs, reduceExprs, post, final) == PlanFor(aggs[..k])
    {
      var a := aggs[k];
      var mapOne: seq<Expr>, reduceOne: seq<Expr>, postOne: seq<Ratio> := [], [], [];
      match a.op {
        case OpSum =>
          mapOne, reduceOne := [Expr(SumOf, a.col, a.name)], [Expr(SumOf, a.name, a.name)];
        case OpMin =>
          mapOne, reduceOne := [Expr(MinOf, a.col, a.name)], [Expr(MinOf, a.name, a.name)];
        case OpMax =>
          mapOne, reduceOne := [Expr(MaxOf, a.col, a.name)], [Expr(MaxOf, a.name, a.name)];
        case OpCount =>
          mapOne, reduceOne := [Expr(Len, "", a.name)], [Expr(SumOf, a.name, a.name)];
        case OpMean =>
          var s, n := a.name + "__s", a.name + "__n";
          mapOne := [Expr(SumOf, a.col, s), Expr(Len, "", n)];
          reduceOne := [Expr(SumOf, s, s), Expr(SumOf, n, n)];
          postOne := [Ratio(s, n, a.name)];
        case Unsupported(name) =>
          assert FirstUnsupported(aggs, k, name);
          return NonCombinable(name);
      }
      PlanStep(aggs, k);
      assert mapOne == MapExprs(a) && reduceOne == Combiners(mapOne) && postOne == Post(a);
      mapExprs, reduceExprs := mapExprs + mapOne, reduceExprs + reduceOne;
      post, final := post + postOne, final + [a.name];
    }
    assert aggs[..|aggs|] == aggs;
    return Ok(Plan(mapExprs, reduceExprs, post, final));
  }

  // ---- what the queries mean -----------------------------------------------------

  function KeysOf(rows: seq<Row>): set<GroupKey> { set r | r in rows :: r.key }

  function Filter(rows: seq<Row>, keep: Row -> bool): seq<Row> {
    if rows == [] then [] else (if keep(rows[0]) then [rows[0]] else []) + Filter(rows[1..], keep)
  }

  /** Every row has a number in column `c`. */
  predicate HasCol(rows: seq<Row>, c: Col) { forall i :: 0 <= i < |rows| ==> c in rows[i].cells }

  predicate Feeds(rows: seq<Row>, e: Expr) { e.fn == Len || HasCol(rows, e.col) }

  /** Column `c` of the rows of group `k`. */
  function Vals(rows: seq<Row>, k: GroupKey, c: Col): seq<real>
    requires HasCol(rows, c)
  {
    if rows == [] then [] else
    (if rows[0].key == k then [rows[0].cells[c]] else []) + Vals(rows[1..], k, c)
  }

  function Size(rows: seq<Row>, k: GroupKey): nat {
    if rows == [] then 0 else (if rows[0].key == k then 1 else 0) + Size(rows[1..], k)
  }

  function MinOfSeq(s: seq<real>): real
    requires s != []
  {
    if |s| == 1 then s[0] else var m := MinOfSeq(s[1..]); if s[0] <= m then s[0] else m
  }

  function MaxOfSeq(s: seq<real>): real
    requires s != []
  {
    if |s| == 1 then s[0] else var m := MaxOfSeq(s[1..]); if s[0] >= m then s[0] else m
  }

  function Fold(fn: Fn, vals: seq<real>): real
    requires fn != Len && vals != []
  {
    match fn
    case SumOf => Sum(vals)
    case MinOf => MinOfSeq(vals)
    case MaxOf => MaxOfSeq(vals)
  }

  /** The value of one aggregation expression for one non-empty group. */
  function EvalExpr(e: Expr, rows: seq<Row>, k: GroupKey): real
    requires Feeds(rows, e) && k in KeysOf(rows)
  {
    GroupNonEmpty(rows, k, e);
    if e.fn == Len then Size(rows, k) as real else Fold(e.fn, Vals(rows, k, e.col))
  }

  lemma {:induction false} GroupNonEmpty(rows: seq<Row>, k: GroupKey, e: Expr)
    requires Feeds(rows, e)
    ensures k in KeysOf(rows) <==> Size(rows, k) > 0
    ensures e.fn != Len ==> |Vals(rows, k, e.col)| == Size(rows, k)
  {
    if rows != [] {
      assert rows == [rows[0]] + rows[1..];
      GroupNonEmpty(rows[1..], k, e);
    }
  }

  predicate AllFeed(rows: seq<Row>, es: seq<Expr>) {
    forall i :: 0 <= i < |es| ==> Feeds(rows, es[i])
  }

  /** The output cells of one group. */
  function Cells(es: seq<Expr>, rows: seq<Row>, k: GroupKey): map<Col, real>
    requires k in KeysOf(rows) && AllFeed(rows, es)
    ensures forall i :: 0 <= i < |es| ==> es[i].alias in Cells(es, rows, k)
  {
    if es == [] then map[] else
    var e := es[|es| - 1];
    Cells(es[..|es| - 1], rows, k)[e.alias := EvalExpr(e, rows, k)]
  }

  /** `rows.group_by(by).agg(es)` */
  function GroupAgg(rows: seq<Row>, es: seq<Expr>): Table
    requires AllFeed(rows, es)
  {
    map k | k in KeysOf(rows) :: Cells(es, rows, k)
  }

  /** Polars refuses two expressions with the same alias. */
  predicate DistinctAliases(es: seq<Expr>) {
    forall i, j :: 0 <= i < j < |es| ==> es[i].alias != es[j].alias
  }

  lemma {:induction false} CellsAt(es: seq<Expr>, rows: seq<Row>, k: GroupKey, i: nat)
    requires k in KeysOf(rows) && AllFeed(rows, es) && DistinctAliases(es) && i < |es|
    ensures es[i].alias in Cells(es, rows, k)
    ensures Cells(es, rows, k)[es[i].alias] == EvalExpr(es[i], rows, k)
  {
    if i < |es| - 1 {
      CellsAt(es[..|es| - 1], rows, k, i);
    }
  }

  /** A data frame that holds a table: one row per group, in some order. */
  ghost predicate Lists(frame: seq<Row>, table: Table) {
    && KeysOf(frame) == table.Keys
    && HoldsRowsOf(frame, table)
  }

  ghost predicate HoldsRowsOf(frame: seq<Row>, table: Table) {
    && (forall i :: 0 <= i < |frame| ==> frame[i].key in table && frame[i].cells == table[frame[i].key])
    && (forall i, j :: 0 <= i < j < |frame| ==> frame[i].key != frame[j].key)
  }

  lemma {:induction false} ListedVals(frame: seq<Row>, table: Table, k: GroupKey, c: Col)
    requires HoldsRowsOf(frame, table) && HasCol(frame, c)
    ensures Vals(frame, k, c) == if k in KeysOf(frame) then [table[k][c]] else []
  {
    if frame != [] {
      var rest := frame[1..];
      assert frame == [frame[0]] + rest;
      ListedVals(rest, table, k, c);
      if frame[0].key == k {
        forall i | 0 <= i < |rest| ensures rest[i].key != k {
          assert frame[i + 1] == rest[i];
        }
      }
    }
  }

  lemma ValsHead(rows: seq<Row>, k: GroupKey, c: Col)
    requires rows != [] && HasCol(rows, c)
    ensures HasCol(rows[1..], c)
    ensures Vals(rows, k, c) == (if rows[0].key == k then [rows[0].cells[c]] else []) + Vals(rows[1..], k, c)
  {
  }

  lemma ValsNone(k: GroupKey, c: Col)
    ensures Vals([], k, c) == []
  {
  }

  lemma ColAppend(a: seq<Row>, b: seq<Row>, c: Col)
    requires HasCol(a, c) && HasCol(b, c)
    ensures HasCol(a + b, c)
  {
  }

  lemma {:induction false} ValsAppend(a: seq<Row>, b: seq<Row>, k: GroupKey, c: Col)
    requires HasCol(a, c) && HasCol(b, c)
    ensures HasCol(a + b, c) && Vals(a + b, k, c) == Vals(a, k, c) + Vals(b, k, c)
  {
    hide Vals;
    ColAppend(a, b, c);
    if a == [] {
      ValsNone(k, c);
      assert a + b == b;
    } else {
      var head: seq<real> := if a[0].key == k then [a[0].cells[c]] else [];
      ValsHead(a, k, c);
      ValsAppend(a[1..], b, k, c);
      ValsHead(a + b, k, c);
      assert (a + b)[1..] == a[1..] + b && (a + b)[0] == a[0];
      assert head + (Vals(a[1..], k, c) + Vals(b, k, c)) == (head + Vals(a[1..], k, c)) + Vals(b, k, c);
    }
  }

  lemma {:induction false} SizeAppend(a: seq<Row>, b: seq<Row>, k: GroupKey)
    ensures Size(a + b, k) == Size(a, k) + Size(b, k)
  {
    if a == [] {
      assert a + b == b;
    } else {
      SizeAppend(a[1..], b, k);
      assert (a + b)[1..] == a[1..] + b;
    }
  }

  lemma KeysAppend(a: seq<Row>, b: seq<Row>)
    ensures KeysOf(a + b) == KeysOf(a) + KeysOf(b)
  {
  }

  lemma {:induction false} MinAppend(a: seq<real>, b: seq<real>)
    requires a != [] && b != []
    ensures MinOfSeq(a + b) == var x, y := MinOfSeq(a), MinOfSeq(b); if x <= y then x else y
  {
    assert (a + b)[1..] == a[1..] + b;
    if |a| > 1 {
      MinAppend(a[1..], b);
    } else {
      assert a[1..] + b == b;
    }
  }

  lemma {:induction false} MaxAppend(a: seq<real>, b: seq<real>)
    requires a != [] && b != []
    ensures MaxOfSeq(a + b) == var x, y := MaxOfSeq(a), MaxOfSeq(b); if x >= y then x else y
  {
    assert (a + b)[1..] == a[1..] + b;
    if |a| > 1 {
      MaxAppend(a[1..], b);
    } else {
      assert a[1..] + b == b;
    }
  }

  /** Folding one part's result with another part's column is folding the two parts together. */
  lemma FoldCombines(fn: Fn, a: seq<real>, b: seq<real>, partials: seq<real>)
    requires fn != Len && a != []
    requires b == [] <==> partials == []
    requires b != [] ==> Fold(fn, partials) == Fold(fn, b)
    ensures Fold(fn, [Fold(fn, a)] + partials) == Fold(fn, a + b)
  {
    var x := Fold(fn, a);
    assert ([x] + partials)[1..] == partials;
    SumAppend(a, b);
    if b == [] {
      assert a + b == a;
    } else if fn == MinOf {
      MinAppend(a, b);
      MinAppend([x], partials);
    } else if fn == MaxOf {
      MaxAppend(a, b);
      MaxAppend([x], partials);
    }
  }

  // ---- the generated reduce step ------------------------------------------------------

  function Div(x: real, y: real): real { if y == 0.0 then 0.0 else x / y }

  /** Every column the post step and the final selection read has been computed. */
  predicate Resolves(plan: Plan) {
    && (forall r :: r in plan.post ==> HasAlias(plan.reduceExprs, r.num) && HasAlias(plan.reduceExprs, r.den))
    && (forall c :: c in plan.final ==> HasAlias(plan.reduceExprs, c) || exists r :: r in plan.post && r.alias == c)
  }

  predicate HasAlias(es: seq<Expr>, c: Col) { exists i :: 0 <= i < |es| && es[i].alias == c }

  /** `with_columns(post)`: every ratio reads the columns as they were before. */
  function WithColumns(base: map<Col, real>, post: seq<Ratio>): (d: map<Col, real>)
    requires forall r :: r in post ==> r.num in base && r.den in base
    ensures forall c :: c in base ==> c in d
    ensures forall r :: r in post ==> r.alias in d
  {
    if post == [] then base else
    var r := post[|post| - 1];
    WithColumns(base, post[..|post| - 1])[r.alias := Div(base[r.num], base[r.den])]
  }

  function ReduceCells(plan: Plan, df: seq<Row>, k: GroupKey): map<Col, real>
    requires Resolves(plan) && AllFeed(df, plan.reduceExprs) && k in KeysOf(df)
  {
    var d := WithColumns(Cells(plan.reduceExprs, df, k), plan.post);
    map c | c in plan.final :: d[c]
  }

  function Reduce(plan: Plan, df: seq<Row>): Table
    requires Resolves(plan) && AllFeed(df, plan.reduceExprs)
  {
    map k | k in KeysOf(df) :: ReduceCells(plan, df, k)
  }

  // ---- the query the user wrote, over all rows at once -----------------------------------

  function Direct(a: Agg, rows: seq<Row>, k: GroupKey): real
    requires !a.op.Unsupported? && k in KeysOf(rows) && (a.op == OpCount || HasCol(rows, a.col))
  {
    GroupNonEmpty(rows, k, if a.op == OpCount then Expr(Len, "", "") else Expr(SumOf, a.col, ""));
    match a.op
    case OpCount => Size(rows, k) as real
    case OpSum => Sum(Vals(rows, k, a.col))
    case OpMin => MinOfSeq(Vals(rows, k, a.col))
    case OpMax => MaxOfSeq(Vals(rows, k, a.col))
    case OpMean => Sum(Vals(rows, k, a.col)) / (Size(rows, k) as real)
  }

  /** The aggregations can be compiled, their columns exist, and no two columns the plan makes share a name. */
  ghost predicate WellFormed(aggs: seq<Agg>, rows: seq<Row>) {
    && (forall i :: 0 <= i < |aggs| ==> !aggs[i].op.Unsupported?)
    && (forall i :: 0 <= i < |aggs| ==> aggs[i].op == OpCount || HasCol(rows, aggs[i].col))
    && (forall i, j :: 0 <= i < j < |aggs| ==> aggs[i].name != aggs[j].name)
    && DistinctAliases(PlanFor(aggs).mapExprs)
  }

  /** `t` is the answer to the query over `rows`: its groups, and in each group the named results and nothing else. */
  ghost predicate Answers(t: Table, aggs: seq<Agg>, rows: seq<Row>)
    requires WellFormed(aggs, rows)
  {
    && t.Keys == KeysOf(rows)
    && forall k :: k in t ==>
      && (forall c :: c in t[k] <==> exists i :: 0 <= i < |aggs| && aggs[i].name == c)
      && (forall i :: 0 <= i < |aggs| ==> aggs[i].name in t[k] && t[k][aggs[i].name] == Direct(aggs[i], rows, k))
  }

  // ---- the rewrite preserves meaning ----------------------------------------------------

  /** `frames[i]` is what the map task over `parts[i]` wrote. */
  ghost predicate ArePartials(frames: seq<seq<Row>>, parts: seq<seq<Row>>, es: seq<Expr>) {
    && |frames| == |parts|
    && (forall i :: 0 <= i < |parts| ==> AllFeed(parts[i], es))
    && (forall i :: 0 <= i < |parts| ==> Lists(frames[i], GroupAgg(parts[i], es)))
  }

  lemma PartialsTail(frames: seq<seq<Row>>, parts: seq<seq<Row>>, es: seq<Expr>)
    requires ArePartials(frames, parts, es) && parts != []
    ensures ArePartials(frames[1..], parts[1..], es)
  {
  }

  lemma PartialFeeds(frame: seq<Row>, part: seq<Row>, es: seq<Expr>, i: nat)
    requires AllFeed(part, es) && Lists(frame, GroupAgg(part, es)) && i < |es|
    ensures HasCol(frame, es[i].alias)
  {
  }

  lemma {:induction false} ConcatHasCol(parts: seq<seq<Row>>, c: Col)
    requires forall i :: 0 <= i < |parts| ==> HasCol(parts[i], c)
    ensures HasCol(Concat(parts), c)
  {
    if parts != [] {
      ConcatHasCol(parts[1..], c);
    }
  }

  lemma PartialsFeed(frames: seq<seq<Row>>, parts: seq<seq<Row>>, es: seq<Expr>, i: nat)
    requires ArePartials(frames, parts, es) && i < |es|
    ensures Feeds(Concat(parts), es[i]) && Feeds(Concat(frames), Combiner(es[i]))
  {
    forall j | 0 <= j < |parts| ensures HasCol(frames[j], es[i].alias) {
      PartialFeeds(frames[j], parts[j], es, i);
    }
    ConcatHasCol(frames, es[i].alias);
    if es[i].fn != Len {
      forall j | 0 <= j < |parts| ensures HasCol(parts[j], es[i].col) {
        assert Feeds(parts[j], es[i]);
      }
      ConcatHasCol(parts, es[i].col);
    }
  }

  /** One partial frame and the rest: the heart of the induction. */
  lemma CombineStep(frame: seq<Row>, part: seq<Row>, dfRest: seq<Row>, rest: seq<Row>, es: seq<Expr>, i: nat, k: GroupKey)
    requires AllFeed(part, es) && DistinctAliases(es) && i < |es|
    requires Lists(frame, GroupAgg(part, es))
    requires HasCol(frame, es[i].alias)
    requires Feeds(rest, es[i]) && Feeds(dfRest, Combiner(es[i]))
    requires k in KeysOf(dfRest) <==> k in KeysOf(rest)
    requires k in KeysOf(rest) ==> EvalExpr(Combiner(es[i]), dfRest, k) == EvalExpr(es[i], rest, k)
    requires Feeds(part + rest, es[i]) && Feeds(frame + dfRest, Combiner(es[i]))
    requires k in KeysOf(part + rest) && k in KeysOf(frame + dfRest)
    ensures EvalExpr(Combiner(es[i]), frame + dfRest, k) == EvalExpr(es[i], part + rest, k)
  {
    var e, c := es[i], Combiner(es[i]);
    KeysAppend(part, rest);
    ListedVals(frame, GroupAgg(part, es), k, e.alias);
    ValsAppend(frame, dfRest, k, e.alias);
    GroupNonEmpty(dfRest, k, c);
    GroupNonEmpty(part, k, e);
    GroupNonEmpty(rest, k, e);
    SizeAppend(part, rest, k);
    if e.fn != Len {
      ValsAppend(part, rest, k, e.col);
    }
    if k in KeysOf(part) {
      CellsAt(es, part, k, i);
      var partials := Vals(dfRest, k, e.alias);
      assert Vals(frame + dfRest, k, e.alias) == [EvalExpr(e, part, k)] + partials;
      if e.fn == Len {
        assert Sum([EvalExpr(e, part, k)] + partials) == EvalExpr(e, part, k) + Sum(partials) by {
          assert ([EvalExpr(e, part, k)] + partials)[1..] == partials;
        }
        assert Sum(partials) == Size(rest, k) as real;
      } else {
        FoldCombines(e.fn, Vals(part, k, e.col), Vals(rest, k, e.col), partials);
      }
    } else {
      assert Vals(frame + dfRest, k, e.alias) == Vals(dfRest, k, e.alias);
      assert e.fn != Len ==> Vals(part + rest, k, e.col) == Vals(rest, k, e.col);
    }
  }

  lemma {:induction false} PartialKeys(frames: seq<seq<Row>>, parts: seq<seq<Row>>, es: seq<Expr>)
    requires ArePartials(frames, parts, es)
    ensures KeysOf(Concat(frames)) == KeysOf(Concat(parts))
  {
    if parts != [] {
      PartialsTail(frames, parts, es);
      PartialKeys(frames[1..], parts[1..], es);
      KeysAppend(frames[0], Concat(frames[1..]));
      KeysAppend(parts[0], Concat(parts[1..]));
    }
  }

  /** Combining the partials of any partitioning gives, group by group, the value over all rows. */
  lemma {:induction false} CombineGroup(frames: seq<seq<Row>>, parts: seq<seq<Row>>, es: seq<Expr>, i: nat, k: GroupKey)
    requires ArePartials(frames, parts, es) && DistinctAliases(es) && i < |es|
    requires Feeds(Concat(parts), es[i]) && Feeds(Concat(frames), Combiner(es[i]))
    ensures KeysOf(Concat(frames)) == KeysOf(Concat(parts))
    ensures k in KeysOf(Concat(parts)) ==>
      EvalExpr(Combiner(es[i]), Concat(frames), k) == EvalExpr(es[i], Concat(parts), k)
  {
    PartialKeys(frames, parts, es);
    if parts != [] {
      var f, p := frames[0], parts[0];
      var fs, ps := Concat(frames[1..]), Concat(parts[1..]);
      PartialsTail(frames, parts, es);
      PartialsFeed(frames[1..], parts[1..], es, i);
      CombineGroup(frames[1..], parts[1..], es, i, k);
      if k in KeysOf(Concat(parts)) {
        PartialFeeds(f, p, es, i);
        CombineStep(f, p, fs, ps, es, i, k);
      }
    }
  }

  // ---- what the compiled plan computes -----------------------------------------------------

  lemma {:induction false} PlanShape(aggs: seq<Agg>)
    requires forall i :: 0 <= i < |aggs| ==> !aggs[i].op.Unsupported?
    ensures PlanFor(aggs).reduceExprs == Combiners(PlanFor(aggs).mapExprs)
    ensures |PlanFor(aggs).final| == |aggs|
    ensures forall i :: 0 <= i < |aggs| ==> PlanFor(aggs).final[i] == aggs[i].name
  {
    if aggs != [] {
      PlanShape(aggs[..|aggs| - 1]);
    }
  }

  /** Where the expressions of aggregation `j` stand in the plan. */
  lemma {:induction false} PlanEntry(aggs: seq<Agg>, j: nat) returns (at: nat)
    requires forall i :: 0 <= i < |aggs| ==> !aggs[i].op.Unsupported?
    requires j < |aggs|
    ensures var p := PlanFor(aggs);
      && at + |MapExprs(aggs[j])| <= |p.mapExprs|
      && p.mapExprs[at] == MapExprs(aggs[j])[0]
      && (aggs[j].op == OpMean ==> p.mapExprs[at + 1] == MapExprs(aggs[j])[1])
      && (aggs[j].op == OpMean ==> Post(aggs[j])[0] in p.post)
  {
    var init := aggs[..|aggs| - 1];
    if j == |aggs| - 1 {
      at := |PlanFor(init).mapExprs|;
    } else {
      at := PlanEntry(init, j);
      assert init[j] == aggs[j];
    }
  }

  /** A ratio column belongs to a mean. */
  lemma {:induction false} PostOfMean(aggs: seq<Agg>, r: Ratio) returns (j: nat)
    requires forall i :: 0 <= i < |aggs| ==> !aggs[i].op.Unsupported?
    requires r in PlanFor(aggs).post
    ensures j < |aggs| && aggs[j].op == OpMean && r == Post(aggs[j])[0]
  {
    var init, a := aggs[..|aggs| - 1], aggs[|aggs| - 1];
    if r in Post(a) {
      j := |aggs| - 1;
    } else {
      j := PostOfMean(init, r);
      assert init[j] == aggs[j];
    }
  }

  lemma {:induction false} PlanResolves(aggs: seq<Agg>)
    requires forall i :: 0 <= i < |aggs| ==> !aggs[i].op.Unsupported?
    ensures Resolves(PlanFor(aggs))
  {
    var plan := PlanFor(aggs);
    PlanShape(aggs);
    forall r | r in plan.post ensures HasAlias(plan.reduceExprs, r.num) && HasAlias(plan.reduceExprs, r.den) {
      var j := PostOfMean(aggs, r);
      var at := PlanEntry(aggs, j);
      assert plan.reduceExprs[at].alias == r.num && plan.reduceExprs[at + 1].alias == r.den;
    }
    forall c | c in plan.final ensures HasAlias(plan.reduceExprs, c) || exists r :: r in plan.post && r.alias == c {
      var j :| 0 <= j < |plan.final| && plan.final[j] == c;
      var at := PlanEntry(aggs, j);
      if aggs[j].op == OpMean {
        assert Post(aggs[j])[0] in plan.post && Post(aggs[j])[0].alias == c;
      } else {
        assert plan.reduceExprs[at].alias == c;
      }
    }
  }

  /** The post step: a name that is no ratio's keeps its value; a ratio's name gets the quotient of the old columns. */
  lemma {:induction false} WithColumnsAt(base: map<Col, real>, post: seq<Ratio>, c: Col)
    requires forall r :: r in post ==> r.num in base && r.den in base
    ensures c in base && (forall r :: r in post ==> r.alias != c) ==> WithColumns(base, post)[c] == base[c]
    ensures (forall q, r :: q in post && r in post && q.alias == c && r.alias == c ==> q == r) ==>
      forall r :: r in post && r.alias == c ==> WithColumns(base, post)[c] == Div(base[r.num], base[r.den])
  {
    if post != [] {
      var init := post[..|post| - 1];
      WithColumnsAt(base, init, c);
      assert post == init + [post[|post| - 1]];
    }
  }

  /** The partials of a group are at hand: the query fits the rows and the frames hold the group. */
  ghost predicate AtHand(frames: seq<seq<Row>>, parts: seq<seq<Row>>, aggs: seq<Agg>, k: GroupKey) {
    && WellFormed(aggs, Concat(parts)) && ArePartials(frames, parts, PlanFor(aggs).mapExprs)
    && k in KeysOf(Concat(parts)) && k in KeysOf(Concat(frames))
    && Resolves(PlanFor(aggs)) && AllFeed(Concat(frames), PlanFor(aggs).reduceExprs)
  }

  /** A column of the reduced partials is that column of one group-by over all rows. */
  lemma {:induction false} BaseCell(frames: seq<seq<Row>>, parts: seq<seq<Row>>, aggs: seq<Agg>, at: nat, k: GroupKey)
    requires AtHand(frames, parts, aggs, k) && at < |PlanFor(aggs).mapExprs|
    ensures var plan := PlanFor(aggs); var base := Cells(plan.reduceExprs, Concat(frames), k);
      && Feeds(Concat(parts), plan.mapExprs[at])
      && plan.mapExprs[at].alias in base && base[plan.mapExprs[at].alias] == EvalExpr(plan.mapExprs[at], Concat(parts), k)
  {
    var plan := PlanFor(aggs);
    PlanShape(aggs);
    CellsAt(plan.reduceExprs, Concat(frames), k, at);
    PartialsFeed(frames, parts, plan.mapExprs, at);
    CombineGroup(frames, parts, plan.mapExprs, at, k);
  }

  /** One named result of one group, read off the reduced partials. */
  lemma {:induction false} ReducedCell(frames: seq<seq<Row>>, parts: seq<seq<Row>>, aggs: seq<Agg>, j: nat, k: GroupKey)
    requires AtHand(frames, parts, aggs, k) && j < |aggs|
    ensures aggs[j].name in ReduceCells(PlanFor(aggs), Concat(frames), k)
    ensures ReduceCells(PlanFor(aggs), Concat(frames), k)[aggs[j].name] == Direct(aggs[j], Concat(parts), k)
  {
    if aggs[j].op == OpMean {
      MeanCell(frames, parts, aggs, j, k);
    } else {
      PlainCell(frames, parts, aggs, j, k);
    }
  }

  lemma {:induction false} PlainCell(frames: seq<seq<Row>>, parts: seq<seq<Row>>, aggs: seq<Agg>, j: nat, k: GroupKey)
    requires AtHand(frames, parts, aggs, k) && j < |aggs| && aggs[j].op != OpMean
    ensures aggs[j].name in ReduceCells(PlanFor(aggs), Concat(frames), k)
    ensures ReduceCells(PlanFor(aggs), Concat(frames), k)[aggs[j].name] == Direct(aggs[j], Concat(parts), k)
  {
    var plan, a := PlanFor(aggs), aggs[j];
    PlanShape(aggs);
    assert plan.final[j] == a.name;
    var at := PlanEntry(aggs, j);
    BaseCell(frames, parts, aggs, at, k);
    WithColumnsAt(Cells(plan.reduceExprs, Concat(frames), k), plan.post, a.name);
    forall q | q in plan.post ensures q.alias != a.name {
      var i := PostOfMean(aggs, q);
      assert i != j;
    }
  }

  /** Names are distinct, so a mean's name is given to its own ratio only. */
  lemma {:induction false} OneRatio(aggs: seq<Agg>, j: nat)
    requires (forall i :: 0 <= i < |aggs| ==> !aggs[i].op.Unsupported?) && j < |aggs| && aggs[j].op == OpMean
    requires forall i, m :: 0 <= i < m < |aggs| ==> aggs[i].name != aggs[m].name
    ensures forall q :: q in PlanFor(aggs).post && q.alias == aggs[j].name ==> q == Post(aggs[j])[0]
  {
    forall q | q in PlanFor(aggs).post && q.alias == aggs[j].name ensures q == Post(aggs[j])[0] {
      var i := PostOfMean(aggs, q);
      assert aggs[i].name == aggs[j].name;
    }
  }

  lemma {:induction false} MeanCell(frames: seq<seq<Row>>, parts: seq<seq<Row>>, aggs: seq<Agg>, j: nat, k: GroupKey)
    requires AtHand(frames, parts, aggs, k) && j < |aggs| && aggs[j].op == OpMean
    ensures aggs[j].name in ReduceCells(PlanFor(aggs), Concat(frames), k)
    ensures ReduceCells(PlanFor(aggs), Concat(frames), k)[aggs[j].name] == Direct(aggs[j], Concat(parts), k)
  {
    hide PlanFor, ArePartials, GroupAgg, Lists, Vals, Filter, DistinctAliases, WithColumns;
    var plan, a := PlanFor(aggs), aggs[j];
    PlanShape(aggs);
    assert plan.final[j] == a.name;
    var at := PlanEntry(aggs, j);
    BaseCell(frames, parts, aggs, at, k);
    BaseCell(frames, parts, aggs, at + 1, k);
    GroupNonEmpty(Concat(parts), k, plan.mapExprs[at + 1]);
    WithColumnsAt(Cells(plan.reduceExprs, Concat(frames), k), plan.post, a.name);
    OneRatio(aggs, j);
  }

  lemma FilterNone(keep: Row -> bool)
    ensures Filter([], keep) == []
  {
  }

  lemma FilterHead(rows: seq<Row>, keep: Row -> bool)
    requires rows != []
    ensures Filter(rows, keep) == (if keep(rows[0]) then [rows[0]] else []) + Filter(rows[1..], keep)
  {
  }

  lemma {:induction false} FilterAppend(a: seq<Row>, b: seq<Row>, keep: Row -> bool)
    ensures Filter(a + b, keep) == Filter(a, keep) + Filter(b, keep)
  {
    hide Filter;
    if a == [] {
      FilterNone(keep);
      assert a + b == b;
    } else {
      var head: seq<Row> := if keep(a[0]) then [a[0]] else [];
      FilterHead(a, keep);
      FilterAppend(a[1..], b, keep);
      FilterHead(a + b, keep);
      assert (a + b)[1..] == a[1..] + b && (a + b)[0] == a[0];
      assert head + (Filter(a[1..], keep) + Filter(b, keep)) == (head + Filter(a[1..], keep)) + Filter(b, keep);
    }
  }

  function FilterAll(parts: seq<seq<Row>>, keep: Row -> bool): (r: seq<seq<Row>>)
    ensures |r| == |parts|
  {
    seq(|parts|, i requires 0 <= i < |parts| => Filter(parts[i], keep))
  }

  lemma {:induction false} FilterConcat(parts: seq<seq<Row>>, keep: Row -> bool)
    ensures Concat(FilterAll(parts, keep)) == Filter(Concat(parts), keep)
  {
    if parts != [] {
      FilterConcat(parts[1..], keep);
      assert FilterAll(parts, keep)[1..] == FilterAll(parts[1..], keep);
      FilterAppend(parts[0], Concat(parts[1..]), keep);
    }
  }

  /** The reduce task. Without a single partial there is no frame to group and polars reports a missing column. */
  function ReduceTask(plan: Plan, frames: seq<seq<Row>>): Option<Table>
    requires Resolves(plan) && AllFeed(Concat(frames), plan.reduceExprs)
  {
    if frames == [] then None else Some(Reduce(plan, Concat(frames)))
  }

  lemma {:induction false} ReduceDefined(frames: seq<seq<Row>>, parts: seq<seq<Row>>, aggs: seq<Agg>)
    requires forall i :: 0 <= i < |aggs| ==> !aggs[i].op.Unsupported?
    requires ArePartials(frames, parts, PlanFor(aggs).mapExprs)
    ensures Resolves(PlanFor(aggs)) && AllFeed(Concat(frames), PlanFor(aggs).reduceExprs)
  {
    PlanResolves(aggs);
    PlanShape(aggs);
    var plan := PlanFor(aggs);
    forall i | 0 <= i < |plan.reduceExprs| ensures Feeds(Concat(frames), plan.reduceExprs[i]) {
      PartialsFeed(frames, parts, plan.mapExprs, i);
    }
  }

  /** Map then reduce answers the query the user wrote, for every partitioning, filter and list of combinable aggregations. */
  lemma {:induction false} RewritePreserves(frames: seq<seq<Row>>, parts: seq<seq<Row>>, keep: Row -> bool, aggs: seq<Agg>)
    requires WellFormed(aggs, Filter(Concat(parts), keep))
    requires ArePartials(frames, FilterAll(parts, keep), PlanFor(aggs).mapExprs)
    ensures Resolves(PlanFor(aggs)) && AllFeed(Concat(frames), PlanFor(aggs).reduceExprs)
    ensures frames == [] ==> ReduceTask(PlanFor(aggs), frames) == None
    ensures frames != [] ==>
      && ReduceTask(PlanFor(aggs), frames).Some?
      && Answers(ReduceTask(PlanFor(aggs), frames).value, aggs, Filter(Concat(parts), keep))
  {
    var ps := FilterAll(parts, keep);
    FilterConcat(parts, keep);
    ReduceDefined(frames, ps, aggs);
    PartialKeys(frames, ps, PlanFor(aggs).mapExprs);
    PlanShape(aggs);
    var rows, df := Concat(ps), Concat(frames);
    forall k | k in KeysOf(rows)
      ensures var cells := ReduceCells(PlanFor(aggs), df, k);
        && (forall c :: c in cells <==> exists i :: 0 <= i < |aggs| && aggs[i].name == c)
        && (forall i :: 0 <= i < |aggs| ==> aggs[i].name in cells && cells[aggs[i].name] == Direct(aggs[i], rows, k))
    {
      forall i | 0 <= i < |aggs|
        ensures aggs[i].name in ReduceCells(PlanFor(aggs), df, k)
        ensures ReduceCells(PlanFor(aggs), df, k)[aggs[i].name] == Direct(aggs[i], rows, k)
      {
        ReducedCell(frames, ps, aggs, i, k);
      }
    }
  }

  // ---- re-chunking -----------------------------------------------------------------------

  lemma {:induction false} ValsRemove(rows: seq<Row>, i: nat, k: GroupKey, c: Col)
    requires i < |rows| && HasCol(rows, c)
    ensures HasCol(Without(rows, i), c)
    ensures multiset(Vals(rows, k, c))
      == multiset(Vals(Without(rows, i), k, c)) + (if rows[i].key == k then multiset{rows[i].cells[c]} else multiset{})
  {
    var a, b := rows[..i], rows[i + 1..];
    assert rows == a + ([rows[i]] + b);
    ValsAppend(a, [rows[i]] + b, k, c);
    ValsAppend(a, b, k, c);
    assert ([rows[i]] + b)[1..] == b;
  }

  lemma {:induction false} ValsPermuted(a: seq<Row>, b: seq<Row>, k: GroupKey, c: Col)
    requires multiset(a) == multiset(b) && HasCol(a, c) && HasCol(b, c)
    ensures multiset(Vals(a, k, c)) == multiset(Vals(b, k, c))
  {
    if a == [] {
      assert |multiset(b)| == 0;
    } else {
      assert a[0] in multiset(b);
      var i :| 0 <= i < |b| && b[i] == a[0];
      SameRest(a, b, i);
      ValsRemove(b, i, k, c);
      ValsPermuted(a[1..], Without(b, i), k, c);
    }
  }

  lemma SameRest<T>(a: seq<T>, b: seq<T>, i: nat)
    requires a != [] && multiset(a) == multiset(b) && i < |b| && b[i] == a[0]
    ensures multiset(a[1..]) == multiset(Without(b, i))
  {
    WithoutMultiset(a, 0);
    WithoutMultiset(b, i);
    assert Without(a, 0) == a[1..];
    assert multiset(a[1..]) == multiset(a) - multiset{a[0]};
    assert multiset(Without(b, i)) == multiset(b) - multiset{a[0]};
  }

  lemma {:induction false} SizePermuted(a: seq<Row>, b: seq<Row>, k: GroupKey)
    requires multiset(a) == multiset(b)
    ensures Size(a, k) == Size(b, k)
  {
    if a == [] {
      assert |multiset(b)| == 0;
    } else {
      assert a[0] in multiset(b);
      var i :| 0 <= i < |b| && b[i] == a[0];
      SameRest(a, b, i);
      assert b == b[..i] + ([b[i]] + b[i + 1..]);
      SizeAppend(b[..i], [b[i]] + b[i + 1..], k);
      SizeAppend(b[..i], b[i + 1..], k);
      assert ([b[i]] + b[i + 1..])[1..] == b[i + 1..];
      SizePermuted(a[1..], Without(b, i), k);
    }
  }

  lemma {:induction false} FilterPermuted(a: seq<Row>, b: seq<Row>, keep: Row -> bool)
    requires multiset(a) == multiset(b)
    ensures multiset(Filter(a, keep)) == multiset(Filter(b, keep))
  {
    if a == [] {
      assert |multiset(b)| == 0;
    } else {
      assert a[0] in multiset(b);
      var i :| 0 <= i < |b| && b[i] == a[0];
      SameRest(a, b, i);
      assert b == b[..i] + ([b[i]] + b[i + 1..]);
      FilterAppend(b[..i], [b[i]] + b[i + 1..], keep);
      FilterAppend(b[..i], b[i + 1..], keep);
      assert ([b[i]] + b[i + 1..])[1..] == b[i + 1..];
      FilterPermuted(a[1..], Without(b, i), keep);
    }
  }

  /** A minimum is a member and a lower bound; that fixes it. */
  lemma {:induction false} MinSpec(s: seq<real>)
    requires s != []
    ensures MinOfSeq(s) in multiset(s) && forall x :: x in multiset(s) ==> MinOfSeq(s) <= x
  {
    if |s| > 1 {
      MinSpec(s[1..]);
      assert s == [s[0]] + s[1..];
    }
  }

  lemma {:induction false} MaxSpec(s: seq<real>)
    requires s != []
    ensures MaxOfSeq(s) in multiset(s) && forall x :: x in multiset(s) ==> MaxOfSeq(s) >= x
  {
    if |s| > 1 {
      MaxSpec(s[1..]);
      assert s == [s[0]] + s[1..];
    }
  }

  /** The answer depends on the rows, not on their order. */
  lemma {:induction false} DirectPermuted(a: Agg, rows: seq<Row>, rows': seq<Row>, k: GroupKey)
    requires multiset(rows) == multiset(rows') && !a.op.Unsupported? && k in KeysOf(rows) && k in KeysOf(rows')
    requires a.op == OpCount || (HasCol(rows, a.col) && HasCol(rows', a.col))
    ensures Direct(a, rows, k) == Direct(a, rows', k)
  {
    SizePermuted(rows, rows', k);
    if a.op != OpCount {
      var v, v' := Vals(rows, k, a.col), Vals(rows', k, a.col);
      ValsPermuted(rows, rows', k, a.col);
      GroupNonEmpty(rows, k, Expr(SumOf, a.col, ""));
      GroupNonEmpty(rows', k, Expr(SumOf, a.col, ""));
      SumMultiset(v, v');
      MinSpec(v);
      MinSpec(v');
      MaxSpec(v);
      MaxSpec(v');
    }
  }

  /** A table that answers the query over some rows answers it over the same rows in another order. */
  lemma AnswersPermuted(t: Table, aggs: seq<Agg>, rows: seq<Row>, rows': seq<Row>)
    requires multiset(rows) == multiset(rows') && WellFormed(aggs, rows) && WellFormed(aggs, rows')
    requires Answers(t, aggs, rows)
    ensures Answers(t, aggs, rows')
  {
    forall r | r in rows ensures r in rows' { assert r in multiset(rows'); }
    forall r | r in rows' ensures r in rows { assert r in multiset(rows); }
    assert KeysOf(rows) == KeysOf(rows');
    forall k, i | k in t && 0 <= i < |aggs| ensures t[k][aggs[i].name] == Direct(aggs[i], rows', k) {
      DirectPermuted(aggs[i], rows, rows', k);
    }
  }

  lemma {:induction false} OneAnswer(t: Table, t': Table, aggs: seq<Agg>, rows: seq<Row>)
    requires WellFormed(aggs, rows) && Answers(t, aggs, rows) && Answers(t', aggs, rows)
    ensures t == t'
  {
    hide WellFormed, Direct;
    forall k | k in t ensures t[k] == t'[k] {
      forall c | c in t[k] ensures t[k][c] == t'[k][c] {
        var i :| 0 <= i < |aggs| && aggs[i].name == c;
      }
      assert t[k].Keys == t'[k].Keys;
    }
  }

  /** Two tables that answer the same query over the same bag of rows are the same table. */
  lemma {:induction false} AnswersUnique(t: Table, t': Table, aggs: seq<Agg>, rows: seq<Row>, rows': seq<Row>)
    requires multiset(rows) == multiset(rows')
    requires WellFormed(aggs, rows) && WellFormed(aggs, rows')
    requires Answers(t, aggs, rows) && Answers(t', aggs, rows')
    ensures t == t'
  {
    hide WellFormed, Answers;
    AnswersPermuted(t, aggs, rows, rows');
    OneAnswer(t, t', aggs, rows');
  }

  /** However the same rows are cut into map partitions, in whatever order, the reduced table is the same. */
  lemma {:induction false} RechunkingInvisible(
      frames: seq<seq<Row>>, parts: seq<seq<Row>>, frames': seq<seq<Row>>, parts': seq<seq<Row>>,
      keep: Row -> bool, aggs: seq<Agg>)
    requires multiset(Concat(parts)) == multiset(Concat(parts'))
    requires WellFormed(aggs, Filter(Concat(parts), keep)) && WellFormed(aggs, Filter(Concat(parts'), keep))
    requires ArePartials(frames, FilterAll(parts, keep), PlanFor(aggs).mapExprs) && frames != []
    requires ArePartials(frames', FilterAll(parts', keep), PlanFor(aggs).mapExprs) && frames' != []
    ensures Resolves(PlanFor(aggs))
    ensures AllFeed(Concat(frames), PlanFor(aggs).reduceExprs) && AllFeed(Concat(frames'), PlanFor(aggs).reduceExprs)
    ensures ReduceTask(PlanFor(aggs), frames) == ReduceTask(PlanFor(aggs), frames')
  {
    RewritePreserves(frames, parts, keep, aggs);
    RewritePreserves(frames', parts', keep, aggs);
    FilterPermuted(Concat(parts), Concat(parts'), keep);
    AnswersUnique(Reduce(PlanFor(aggs), Concat(frames)), Reduce(PlanFor(aggs), Concat(frames')), aggs,
                  Filter(Concat(parts), keep), Filter(Concat(parts'), keep));
  }
}
