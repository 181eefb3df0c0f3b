/** What retry, resplit and skip do to a stage's manifest, and what they conserve. */
module Remediation {
  import opened Sequences
  import opened Machine
  import opened Planning
  import P = Partition
  import Q = Queue
  import N = Names

  /** `_manifest_replace`: the old entry goes, its replacements are appended. */
  function Replace(es: seq<Entry>, oldId: string, new_: seq<Entry>): seq<Entry> {
    Drop(es, oldId) + new_
  }

  function Drop(es: seq<Entry>, id: string): (r: seq<Entry>)
    ensures forall e :: e in r <==> e in es && e.id != id
  {
    if es == [] then [] else
    assert es == [es[0]] + es[1..];
    if es[0].id == id then Drop(es[1..], id) else [es[0]] + Drop(es[1..], id)
  }

  /** The pieces of a resplit task: one member each, an equal share of the weight. */
  function Piece(t: Task, j: nat): Task
    requires j < |t.members|
  {
    Task(Q.Key(t.key.stage, PieceId(t.key.chunk, j)), t.up, [t.members[j]], t.weight / (|t.members| as real))
  }

  function Pieces(t: Task): (r: seq<Task>)
    ensures |r| == |t.members| && forall j :: 0 <= j < |r| ==> r[j] == Piece(t, j)
  {
    seq(|t.members|, j requires 0 <= j < |t.members| => Piece(t, j))
  }

  /** The manifest entries of the pieces. */
  function PieceEntries(t: Task): (r: seq<Entry>)
    ensures |r| == |t.members| && forall j :: 0 <= j < |r| ==> r[j] == PieceEntry(t, j)
  {
    seq(|t.members|, j requires 0 <= j < |t.members| => PieceEntry(t, j))
  }

  function PieceEntry(t: Task, j: nat): Entry
    requires j < |t.members|
  {
    Entry(Piece(t, j).key.chunk, Piece(t, j).weight)
  }

  // ---- what a manifest stands for -------------------------------------------------------

  /** Every entry names a known task and carries its weight. */
  ghost predicate Named(ts: Tasks, s: nat, es: seq<Entry>) {
    forall i :: 0 <= i < |es| ==> Q.Key(s, es[i].id) in ts && ts[Q.Key(s, es[i].id)].weight == es[i].weight
  }

  /** The members of all tasks a manifest names. */
  ghost function Bag(ts: Tasks, s: nat, es: seq<Entry>): multiset<P.Ref>
    requires Named(ts, s, es)
  {
    if es == [] then multiset{} else multiset(ts[Q.Key(s, es[0].id)].members) + Bag(ts, s, es[1..])
  }

  ghost function Load(es: seq<Entry>): real {
    if es == [] then 0.0 else es[0].weight + Load(es[1..])
  }

  /** The manifest names each task once, and its tasks hold exactly this bag of members and this weight. */
  ghost predicate Balanced(ts: Tasks, s: nat, es: seq<Entry>, bag: multiset<P.Ref>, load: real) {
    Named(ts, s, es) && DistinctIds(es) && Bag(ts, s, es) == bag && Load(es) == load
  }

  lemma BagNone(ts: Tasks, s: nat)
    ensures Bag(ts, s, []) == multiset{}
  {
  }

  lemma {:induction false} BagAppend(ts: Tasks, s: nat, a: seq<Entry>, b: seq<Entry>)
    requires Named(ts, s, a) && Named(ts, s, b)
    ensures Named(ts, s, a + b)
    ensures Bag(ts, s, a + b) == Bag(ts, s, a) + Bag(ts, s, b)
  {
    hide Bag;
    if a == [] {
      BagNone(ts, s);
      assert a + b == b;
    } else {
      BagAppend(ts, s, a[1..], b);
      BagHead(ts, s, a);
      assert (a + b)[1..] == a[1..] + b && (a + b)[0] == a[0];
      BagHead(ts, s, a + b);
    }
  }

  lemma BagHead(ts: Tasks, s: nat, es: seq<Entry>)
    requires es != [] && Named(ts, s, es)
    ensures Bag(ts, s, es) == multiset(ts[Q.Key(s, es[0].id)].members) + Bag(ts, s, es[1..])
  {
  }

  lemma {:induction false} LoadAppend(a: seq<Entry>, b: seq<Entry>)
    ensures Load(a + b) == Load(a) + Load(b)
  {
    if a == [] {
      assert a + b == b;
    } else {
      LoadAppend(a[1..], b);
      assert (a + b)[1..] == a[1..] + b;
    }
  }

  lemma {:induction false} DropAbsent(es: seq<Entry>, id: string)
    requires forall i :: 0 <= i < |es| ==> es[i].id != id
    ensures Drop(es, id) == es
  {
    if es != [] {
      DropAbsent(es[1..], id);
    }
  }

  lemma {:induction false} DropDistinct(es: seq<Entry>, id: string)
    requires DistinctIds(es)
    ensures DistinctIds(Drop(es, id))
  {
    if es != [] {
      DropDistinct(es[1..], id);
      var r := Drop(es[1..], id);
      forall i | 0 <= i < |r| ensures r[i].id != es[0].id {
        assert r[i] in r;
        var j :| 0 <= j < |es| - 1 && es[1..][j] == r[i];
        assert es[j + 1].id != es[0].id;
      }
    }
  }

  lemma DropHead(es: seq<Entry>, id: string)
    requires es != []
    ensures Drop(es, id) == (if es[0].id == id then [] else [es[0]]) + Drop(es[1..], id)
  {
  }

  lemma NamedTail(ts: Tasks, s: nat, es: seq<Entry>)
    requires es != []
    ensures Named(ts, s, es) <==>
      Q.Key(s, es[0].id) in ts && ts[Q.Key(s, es[0].id)].weight == es[0].weight && Named(ts, s, es[1..])
  {
    assert es == [es[0]] + es[1..];
  }

  lemma LoadHead(es: seq<Entry>)
    requires es != []
    ensures Load(es) == es[0].weight + Load(es[1..])
  {
  }

  /** Dropping the entry of a task takes out its members and its weight, nothing else. */
  lemma {:induction false} DropBalance(ts: Tasks, s: nat, es: seq<Entry>, i: nat)
    requires Named(ts, s, es) && DistinctIds(es) && i < |es|
    ensures var id, r := es[i].id, Drop(es, es[i].id);
      && Named(ts, s, r)
      && Bag(ts, s, r) + multiset(ts[Q.Key(s, id)].members) == Bag(ts, s, es)
      && Load(r) + es[i].weight == Load(es)
  {
    hide Drop, Bag, Load;
    var id := es[i].id;
    DropHead(es, id);
    BagHead(ts, s, es);
    LoadHead(es);
    if i == 0 {
      DropAbsent(es[1..], id);
      assert Drop(es, id) == es[1..];
    } else {
      assert es[0].id != es[i].id;
      DropBalance(ts, s, es[1..], i - 1);
      var r, rest := Drop(es, id), Drop(es[1..], id);
      assert r[0] == es[0] && r[1..] == rest;
      NamedTail(ts, s, r);
      BagHead(ts, s, r);
      LoadHead(r);
    }
  }

  // ---- the pieces of one task ---------------------------------------------------------------

  /** Every piece of the task is known. */
  ghost predicate PiecesKnown(ts: Tasks, t: Task) {
    forall j :: 0 <= j < |t.members| ==> PieceKnown(ts, t, j)
  }

  ghost predicate PieceKnown(ts: Tasks, t: Task, j: nat)
    requires j < |t.members|
  {
    Piece(t, j).key in ts && ts[Piece(t, j).key] == Piece(t, j)
  }

  lemma PiecesNamedIn(ts: Tasks, t: Task)
    requires PiecesKnown(ts, t)
    ensures Named(ts, t.key.stage, PieceEntries(t))
  {
    var es := PieceEntries(t);
    forall i | 0 <= i < |es| ensures Q.Key(t.key.stage, es[i].id) in ts && ts[Q.Key(t.key.stage, es[i].id)].weight == es[i].weight {
      assert PieceKnown(ts, t, i);
    }
  }

  /** A manifest of one-member tasks stands for the list of those members. */
  lemma {:induction false} SinglesBag(ts: Tasks, s: nat, es: seq<Entry>, ms: seq<P.Ref>)
    requires Named(ts, s, es) && |es| == |ms|
    requires forall j :: 0 <= j < |es| ==> ts[Q.Key(s, es[j].id)].members == [ms[j]]
    ensures Bag(ts, s, es) == multiset(ms)
  {
    if es != [] {
      SinglesBag(ts, s, es[1..], ms[1..]);
      BagHead(ts, s, es);
      assert ms == [ms[0]] + ms[1..];
    }
  }

  lemma {:induction false} EqualLoad(es: seq<Entry>, w: real)
    requires forall j :: 0 <= j < |es| ==> es[j].weight == w
    ensures Load(es) == (|es| as real) * w
  {
    if es != [] {
      EqualLoad(es[1..], w);
      ShareStep(|es| - 1, w);
    }
  }

  lemma ShareStep(k: nat, w: real)
    ensures (k as real) * w + w == ((k + 1) as real) * w
  {
  }

  /** All pieces together: the parent's members, the parent's weight. */
  lemma PiecesBalance(ts: Tasks, t: Task)
    requires |t.members| > 0 && PiecesKnown(ts, t)
    ensures Named(ts, t.key.stage, PieceEntries(t))
    ensures Bag(ts, t.key.stage, PieceEntries(t)) == multiset(t.members)
    ensures Load(PieceEntries(t)) == t.weight
  {
    var n, es := |t.members|, PieceEntries(t);
    PiecesNamedIn(ts, t);
    forall j | 0 <= j < n ensures ts[Q.Key(t.key.stage, es[j].id)].members == [t.members[j]] {
      assert PieceKnown(ts, t, j);
    }
    SinglesBag(ts, t.key.stage, es, t.members);
    EqualLoad(es, t.weight / (n as real));
    assert (n as real) * (t.weight / (n as real)) == t.weight;
  }

  /** ... each with one of the members, in order, and an equal share of the weight. */
  lemma PiecesShare(t: Task, j: nat)
    requires j < |t.members|
    ensures Pieces(t)[j].members == [t.members[j]] && Pieces(t)[j].up == t.up
    ensures Pieces(t)[j].weight * (|t.members| as real) == t.weight
    ensures PieceEntries(t)[j] == Entry(t.key.chunk + "-m" + N.Dec(j), Pieces(t)[j].weight)
    ensures Pieces(t)[j].key == Q.Key(t.key.stage, t.key.chunk + "-m" + N.Dec(j))
  {
  }

  // ---- the three remedies ------------------------------------------------------------------

  /** Tasks of stage `s` that can be split have a packed id, and a key shaped like one of their pieces names that piece. */
  ghost predicate PiecesNamed(ts: Tasks, s: nat) {
    forall k :: k in ts && k.stage == s && |ts[k].members| > 1 ==> PiecesNamedOf(ts, k)
  }

  ghost predicate PiecesNamedOf(ts: Tasks, k: Q.Key)
    requires k in ts
  {
    && ts[k].key == k && IsPackedId(k.chunk)
    && forall j :: 0 <= j < |ts[k].members| && Piece(ts[k], j).key in ts ==> PieceKnown(ts, ts[k], j)
  }

  /** No piece of a splittable chunk in the manifest is in the manifest too. */
  ghost predicate NoPieces(ts: Tasks, s: nat, es: seq<Entry>) {
    forall i, e, j :: 0 <= i < |es| && e in es && 0 <= j < MemberCount(ts, s, es[i].id) && MemberCount(ts, s, es[i].id) > 1
      ==> e.id != PieceId(es[i].id, j)
  }

  ghost function MemberCount(ts: Tasks, s: nat, id: string): nat {
    if Q.Key(s, id) in ts then |ts[Q.Key(s, id)].members| else 0
  }

  /** Skipping a chunk takes exactly its members and weight out of the manifest. */
  lemma SkipConserves(ts: Tasks, s: nat, es: seq<Entry>, bag: multiset<P.Ref>, load: real, i: nat)
    requires Balanced(ts, s, es, bag, load) && i < |es|
    ensures var t := ts[Q.Key(s, es[i].id)];
      && multiset(t.members) <= bag
      && Balanced(ts, s, Replace(es, es[i].id, []), bag - multiset(t.members), load - t.weight)
  {
    DropBalance(ts, s, es, i);
    DropDistinct(es, es[i].id);
    assert Replace(es, es[i].id, []) == Drop(es, es[i].id);
  }

  /** Resplitting a chunk conserves the bag and the weight, and no id is used twice. */
  lemma ResplitConserves(ts: Tasks, s: nat, es: seq<Entry>, bag: multiset<P.Ref>, load: real, i: nat)
    requires Balanced(ts, s, es, bag, load) && i < |es|
    requires var t := ts[Q.Key(s, es[i].id)];
      && t.key == Q.Key(s, es[i].id) && |t.members| > 1 && IsPackedId(es[i].id)
      && PiecesKnown(ts, t)
    requires NoPieces(ts, s, es)
    ensures Balanced(ts, s, Replace(es, es[i].id, PieceEntries(ts[Q.Key(s, es[i].id)])), bag, load)
  {
    var id := es[i].id;
    var t := ts[Q.Key(s, id)];
    var ps := PieceEntries(t);
    var kept := Drop(es, id);
    DropBalance(ts, s, es, i);
    DropDistinct(es, id);
    PiecesBalance(ts, t);
    BagAppend(ts, s, kept, ps);
    LoadAppend(kept, ps);
    ReplacedDistinct(ts, s, es, i, t);
  }

  /** The manifest names the chunk. */
  predicate NamesChunk(es: seq<Entry>, id: string) { exists i :: 0 <= i < |es| && es[i].id == id }

  /** A resplit keeps the balance exactly when the manifest still names the chunk. Otherwise its members come in once more. */
  lemma ResplitConservesIff(ts: Tasks, s: nat, es: seq<Entry>, bag: multiset<P.Ref>, load: real, t: Task)
    requires Balanced(ts, s, es, bag, load) && NoPieces(ts, s, es)
    requires t.key in ts && ts[t.key] == t && t.key.stage == s && |t.members| > 1 && IsPackedId(t.key.chunk)
    requires PiecesKnown(ts, t)
    ensures Balanced(ts, s, Replace(es, t.key.chunk, PieceEntries(t)), bag, load) <==> NamesChunk(es, t.key.chunk)
    ensures !NamesChunk(es, t.key.chunk) ==>
      var r := Replace(es, t.key.chunk, PieceEntries(t)); Named(ts, s, r) && Bag(ts, s, r) == bag + multiset(t.members)
  {
    var id, ps := t.key.chunk, PieceEntries(t);
    if NamesChunk(es, id) {
      var i :| 0 <= i < |es| && es[i].id == id;
      ResplitConserves(ts, s, es, bag, load, i);
    } else {
      DropAbsent(es, id);
      PiecesBalance(ts, t);
      BagAppend(ts, s, es, ps);
      assert t.members[0] in multiset(t.members);
      assert (bag + multiset(t.members))[t.members[0]] == bag[t.members[0]] + multiset(t.members)[t.members[0]];
    }
  }

  lemma ReplacedDistinct(ts: Tasks, s: nat, es: seq<Entry>, i: nat, t: Task)
    requires DistinctIds(es) && i < |es| && NoPieces(ts, s, es) && IsPackedId(es[i].id)
    requires t.key == Q.Key(s, es[i].id) && t.key in ts && ts[t.key] == t && |t.members| > 1
    ensures DistinctIds(Drop(es, es[i].id) + PieceEntries(t))
  {
    hide PieceId;
    var id := es[i].id;
    var ps: seq<Entry>, kept: seq<Entry> := PieceEntries(t), Drop(es, id);
    DropDistinct(es, id);
    PieceEntriesDistinct(t);
    assert MemberCount(ts, s, id) == |t.members|;
    forall e, j | e in kept && 0 <= j < |ps| ensures e.id != ps[j].id {
      assert e in es;
    }
    ConcatDistinct(kept, ps);
  }

  lemma PieceEntriesDistinct(t: Task)
    requires IsPackedId(t.key.chunk)
    ensures DistinctIds(PieceEntries(t))
  {
    var ps := PieceEntries(t);
    forall a, b | 0 <= a < b < |ps| ensures ps[a].id != ps[b].id {
      PieceIdsUnique(t.key.chunk, a, t.key.chunk, b);
    }
  }

  lemma ConcatDistinct(a: seq<Entry>, b: seq<Entry>)
    requires DistinctIds(a) && DistinctIds(b)
    requires forall e, j :: e in a && 0 <= j < |b| ==> e.id != b[j].id
    ensures DistinctIds(a + b)
  {
    forall i, j | 0 <= i < j < |a| + |b| ensures (a + b)[i].id != (a + b)[j].id {
      if i < |a| <= j {
        assert a[i] in a && (a + b)[j] == b[j - |a|];
      }
    }
  }

  /** ... and afterwards the manifest still holds no piece beside its parent. */
  lemma ResplitNoPieces(ts: Tasks, s: nat, es: seq<Entry>, i: nat)
    requires i < |es| && Named(ts, s, es) && NoPieces(ts, s, es) && PiecesNamed(ts, s)
    requires var t := ts[Q.Key(s, es[i].id)];
      && t.key == Q.Key(s, es[i].id) && |t.members| > 1 && IsPackedId(es[i].id)
      && PiecesKnown(ts, t)
    ensures NoPieces(ts, s, Replace(es, es[i].id, PieceEntries(ts[Q.Key(s, es[i].id)])))
  {
    var id := es[i].id;
    var t := ts[Q.Key(s, id)];
    var ps := PieceEntries(t);
    var r := Replace(es, id, ps);
    forall a, e, j | 0 <= a < |r| && e in r && 0 <= j < MemberCount(ts, s, r[a].id) && MemberCount(ts, s, r[a].id) > 1
      ensures e.id != PieceId(r[a].id, j)
    {
      if a >= |Drop(es, id)| {
        PieceCount(ts, t, a - |Drop(es, id)|);
        assert false;
      } else {
        assert r[a] in Drop(es, id);
        var b :| 0 <= b < |es| && es[b] == r[a];
        if e in ps {
          var m :| 0 <= m < |ps| && ps[m] == e;
          assert PiecesNamedOf(ts, Q.Key(s, r[a].id));
          PieceIdsUnique(id, m, r[a].id, j);
        } else {
          assert e in es;
        }
      }
    }
  }

  lemma PieceCount(ts: Tasks, t: Task, j: nat)
    requires PiecesKnown(ts, t) && j < |t.members|
    ensures MemberCount(ts, t.key.stage, PieceEntries(t)[j].id) == 1
  {
    assert PieceKnown(ts, t, j);
  }

  lemma SkipNoPieces(ts: Tasks, s: nat, es: seq<Entry>, id: string)
    requires NoPieces(ts, s, es)
    ensures NoPieces(ts, s, Replace(es, id, []))
  {
    var r := Replace(es, id, []);
    forall a, e, j | 0 <= a < |r| && e in r && 0 <= j < MemberCount(ts, s, r[a].id) && MemberCount(ts, s, r[a].id) > 1
      ensures e.id != PieceId(r[a].id, j)
    {
      assert r[a] in Drop(es, id) && e in es;
      var b :| 0 <= b < |es| && es[b] == r[a];
    }
  }

  /** Making a piece known keeps the names of all pieces straight. */
  lemma PieceRegistered(ts: Tasks, s: nat, t: Task, j: nat)
    requires PiecesNamed(ts, s) && t.key in ts && ts[t.key] == t && t.key.stage == s && |t.members| > 1
    requires j < |t.members|
    ensures var ts' := ts[Piece(t, j).key := Piece(t, j)];
      && PiecesNamed(ts', s) && ts'[t.key] == t
      && (forall k :: k in ts ==> k in ts' && ts'[k] == ts[k])
      && forall i :: 0 <= i < |t.members| && (i == j || PieceKnown(ts, t, i)) ==> PieceKnown(ts', t, i)
  {
    var x := Piece(t, j);
    var ts' := ts[x.key := x];
    assert PiecesNamedOf(ts, t.key);
    assert x.key in ts ==> PieceKnown(ts, t, j);
    forall k | k in ts' && k.stage == s && |ts'[k].members| > 1 ensures PiecesNamedOf(ts', k) {
      assert k in ts && ts[k] == ts'[k];
      assert PiecesNamedOf(ts, k);
      forall i | 0 <= i < |ts[k].members| && Piece(ts[k], i).key in ts' ensures PieceKnown(ts', ts[k], i) {
        PieceIdsUnique(k.chunk, i, t.key.chunk, j);
        assert Piece(ts[k], i).key in ts ==> PieceKnown(ts, ts[k], i);
      }
    }
  }
}
