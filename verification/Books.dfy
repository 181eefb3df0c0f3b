/** The controller's view of a stage while it runs, and the balance its remedies keep. */
module Books {
  import opened Sequences
  import opened Queue
  import opened Machine
  import opened Soundness
  import opened Tracking
  import opened Interleave
  import opened Planning
  import opened Remediation
  import P = Partition

  // ---- stage predicates -----------------------------------------------------------------

  function Manifest(wd: World, s: nat): seq<Entry> { if s in wd.manifests then wd.manifests[s] else [] }

  /** Tasks the controller is waiting for: known, their input finished, and not lost. */
  ghost predicate Waiting(wd: World, s: nat, ks: set<Key>) {
    forall k :: k in ks ==> k.stage == s && Fed(wd, k) && Safe(wd, k, 1)
  }

  /** Every chunk the manifest names is finished or among `ks`. */
  ghost predicate Covered(wd: World, s: nat, ks: set<Key>) {
    forall e :: e in Manifest(wd, s) ==> Key(s, e.id) in wd.markers || Key(s, e.id) in ks
  }

  /** Chunks of this stage still to be enqueued. */
  ghost predicate HeldBack(wd: World, s: nat, ks: set<Key>) {
    && (forall k :: k in ks ==> k.stage == s && Fed(wd, k) && Untouched(wd, k))
    && (forall k, j :: k in wd.tasks && k.stage == s && 0 <= j < |wd.tasks[k].members| && |wd.tasks[k].members| > 1
          ==> Piece(wd.tasks[k], j).key !in ks)
  }

  /** A key of this stage is in one place at most, those in `over` in two. */
  ghost predicate Single(wd: World, s: nat, over: seq<Key>) {
    forall k: Key :: k.stage == s ==> Copies(wd.queue, k) <= 1 + (if k in over then 1 else 0)
  }

  /** No piece of a chunk the manifest still names whole has been enqueued. */
  ghost predicate PiecesFresh(wd: World, s: nat) {
    forall i, j :: 0 <= i < |Manifest(wd, s)| && 0 <= j < MemberCount(wd.tasks, s, Manifest(wd, s)[i].id)
      && MemberCount(wd.tasks, s, Manifest(wd, s)[i].id) > 1
      ==> Copies(wd.queue, Key(s, PieceId(Manifest(wd, s)[i].id, j))) == 0
  }

  /** The books of a stage balance: its manifest stands for exactly this bag of members and this weight. */
  ghost predicate Balances(wd: World, s: nat, bag: multiset<P.Ref>, load: real) {
    Balanced(wd.tasks, s, Manifest(wd, s), bag, load) && NoPieces(wd.tasks, s, Manifest(wd, s)) && PiecesFresh(wd, s)
  }

  lemma AdvancedWaiting(strict: bool, a: World, b: World, added: multiset<Key>, s: nat, ks: set<Key>)
    requires Advanced(strict, a, b, added) && Waiting(a, s, ks)
    ensures Waiting(b, s, ks)
  {
  }

  lemma AdvancedQuietly(strict: bool, a: World, b: World, c: World)
    requires Advanced(strict, a, b, multiset{}) && Advanced(strict, b, c, multiset{})
    ensures Advanced(strict, a, c, multiset{})
  {
    AdvancedThen(strict, a, b, c, multiset{}, multiset{});
  }

  lemma AdvancedPlus(strict: bool, a: World, b: World, c: World, added: multiset<Key>)
    requires Advanced(strict, a, b, multiset{}) && Advanced(strict, b, c, added)
    ensures Advanced(strict, a, c, added)
  {
    AdvancedThen(strict, a, b, c, multiset{}, added);
    assert multiset{} + added == added;
  }

  lemma AdvancedFed(strict: bool, a: World, b: World, added: multiset<Key>, k: Key)
    requires Advanced(strict, a, b, added) && Fed(a, k)
    ensures Fed(b, k)
  {
  }

  lemma AdvancedLater(strict: bool, a: World, b: World, added: multiset<Key>)
    requires Advanced(strict, a, b, added)
    ensures Later(a, b)
  {
  }

  lemma AdvancedCovered(strict: bool, a: World, b: World, added: multiset<Key>, s: nat, ks: set<Key>)
    requires Advanced(strict, a, b, added) && Covered(a, s, ks) && b.manifests == a.manifests
    ensures Covered(b, s, ks)
  {
  }

  lemma AdvancedHeldBack(strict: bool, a: World, b: World, added: multiset<Key>, s: nat, ks: set<Key>)
    requires Advanced(strict, a, b, added) && HeldBack(a, s, ks) && b.tasks == a.tasks
    requires forall k :: k in ks ==> added[k] == 0
    ensures HeldBack(b, s, ks)
  {
  }

  lemma AdvancedBooks(a: World, b: World, s: nat, bag: multiset<P.Ref>, load: real, over: seq<Key>)
    requires Advanced(true, a, b, multiset{}) && b.manifests == a.manifests && b.tasks == a.tasks
    requires Balances(a, s, bag, load) && Single(a, s, over)
    ensures Balances(b, s, bag, load) && Single(b, s, over)
  {
    forall k: Key | k.stage == s ensures Copies(b.queue, k) <= 1 + (if k in over then 1 else 0) {
      assert Copies(a.queue, k) <= 1 + (if k in over then 1 else 0);
    }
  }

  /** A known task of several members whose input is finished. */
  ghost predicate CanSplit(wd: World, t: Task) {
    && Fed(wd, t.key) && wd.tasks[t.key] == t && |t.members| > 1
    && PiecesNamed(wd.tasks, t.key.stage)
  }

  lemma PieceAllowed(wd: World, t: Task, j: nat)
    requires WellFormed(wd.tasks) && CanSplit(wd, t) && j < |t.members|
    ensures Registrable(wd, Piece(t, j))
  {
    assert ReadsEarlier(wd.tasks, t);
    assert PiecesNamedOf(wd.tasks, t.key);
    assert Piece(t, j).key in wd.tasks ==> PieceKnown(wd.tasks, t, j);
  }

  /** Only the manifest of stage `s` may differ. */
  ghost predicate SameOtherManifests(a: World, b: World, s: nat) {
    s in a.manifests && s in b.manifests && b.manifests == a.manifests[s := b.manifests[s]]
  }

  ghost predicate IsPiece(parent: Task, t: Task) {
    |parent.members| > 1 && exists j :: 0 <= j < |parent.members| && t == Piece(parent, j)
  }

  /** The tasks that became known are of stage `s`, and each is a piece of a task of that stage that was known. */
  ghost predicate OnlyPiecesCame(a: World, b: World, s: nat) {
    forall k :: k in b.tasks && k !in a.tasks ==>
      k.stage == s && exists x :: x in a.tasks && x.stage == s && IsPiece(a.tasks[x], b.tasks[k])
  }

  lemma PiecesCameNot(a: World, s: nat)
    ensures OnlyPiecesCame(a, a, s)
  {
  }

  lemma NoTasksCame(a: World, b: World, s: nat)
    requires b.tasks == a.tasks
    ensures OnlyPiecesCame(a, b, s)
  {
  }

  lemma PiecesCameThen(a: World, b: World, c: World, s: nat)
    requires OnlyPiecesCame(a, b, s) && OnlyPiecesCame(b, c, s) && Later(a, b) && Later(b, c)
    ensures OnlyPiecesCame(a, c, s)
  {
    forall k | k in c.tasks && k !in a.tasks
      ensures k.stage == s && exists x :: x in a.tasks && x.stage == s && IsPiece(a.tasks[x], c.tasks[k])
    {
      if k !in b.tasks {
        var x :| x in b.tasks && x.stage == s && IsPiece(b.tasks[x], c.tasks[k]);
        assert x in a.tasks && a.tasks[x] == b.tasks[x];
      }
    }
  }

  /** No task of the stage has a negative weight. */
  ghost predicate Light(ts: Tasks, s: nat) { forall k :: k in ts && k.stage == s ==> ts[k].weight >= 0.0 }

  /** The pieces of such tasks have none either. */
  lemma PiecesLight(a: World, b: World, s: nat)
    requires OnlyPiecesCame(a, b, s) && Later(a, b) && Light(a.tasks, s)
    ensures Light(b.tasks, s)
  {
    forall k | k in b.tasks && k.stage == s ensures b.tasks[k].weight >= 0.0 {
      if k !in a.tasks {
        var x :| x in a.tasks && x.stage == s && IsPiece(a.tasks[x], b.tasks[k]);
        ShareNonNegative(a.tasks[x].weight, |a.tasks[x].members|);
      }
    }
  }

  lemma ShareNonNegative(w: real, n: nat)
    requires w >= 0.0 && n > 0
    ensures w / (n as real) >= 0.0
  {
  }

  /** Every entry is one the manifest had before, for a chunk other than `gone`, or names a task in `added`. */
  ghost predicate Follows(a: World, b: World, s: nat, gone: seq<Key>, added: seq<Key>) {
    forall e :: e in Manifest(b, s) ==> (e in Manifest(a, s) && Key(s, e.id) !in gone) || Key(s, e.id) in added
  }

  /** What a remedy leaves to wait for: tasks that are known, can run and were enqueued. */
  ghost predicate FreshTasks(a: World, b: World, s: nat, ks: seq<Key>) {
    forall k :: k in ks ==> k.stage == s && Fed(b, k) && Secured(a, b, k)
  }

  /** What resplitting `k` did: its pieces took its place, or, with at most one member, it was retried. */
  ghost predicate ResplitEffect(a: World, b: World, k: Key, new_: seq<Key>) {
    k in a.tasks &&
    var t := a.tasks[k];
    if |t.members| <= 1 then
      new_ == [k] && b.tasks == a.tasks && b.manifests == a.manifests
    else
      new_ == PieceKeys(t) && PiecesKnown(b.tasks, t)
      && Manifest(b, k.stage) == Replace(Manifest(a, k.stage), k.chunk, PieceEntries(t))
  }

  ghost predicate IsPieceOf(ts: Tasks, k: Key, x: Key) {
    k in ts && |ts[k].members| > 1 && exists j :: 0 <= j < |ts[k].members| && x == Piece(ts[k], j).key
  }

  /** `k` was enqueued after `a`: however many of its dead letters of that time are spoken for, it is not lost. */
  ghost predicate Secured(a: World, b: World, k: Key) {
    forall n: nat :: n >= 1 && Count(a.queue.dlq, k) >= n - 1 ==> Safe(b, k, n)
  }

  lemma SecuredLater(strict: bool, a: World, b: World, c: World, d: World, k: Key, x: multiset<Key>, y: multiset<Key>)
    requires Advanced(strict, a, b, x) && Secured(b, c, k) && Advanced(strict, c, d, y)
    ensures Secured(a, d, k)
  {
    assert Count(b.queue.dlq, k) >= Count(a.queue.dlq, k);
  }

  /** One more key enqueued. */
  lemma SecuredSnoc(strict: bool, a: World, b: World, c: World, ks: seq<Key>, i: nat)
    requires i < |ks| && Advanced(strict, a, b, multiset(ks[..i])) && Advanced(strict, b, c, multiset{ks[i]})
    requires (forall k :: k in ks[..i] ==> Secured(a, b, k)) && Secured(b, c, ks[i])
    ensures Advanced(strict, a, c, multiset(ks[..i + 1])) && forall k :: k in ks[..i + 1] ==> Secured(a, c, k)
  {
    hide Secured, Advanced;
    AdvancedThen(strict, a, b, c, multiset(ks[..i]), multiset{ks[i]});
    assert ks[..i + 1] == ks[..i] + [ks[i]];
    AdvancedSelf(strict, a);
    AdvancedSelf(strict, c);
    forall k | k in ks[..i + 1] ensures Secured(a, c, k) {
      if k in ks[..i] {
        SecuredLater(strict, a, a, b, c, k, multiset{}, multiset{ks[i]});
      } else {
        SecuredLater(strict, a, b, c, c, k, multiset(ks[..i]), multiset{});
      }
    }
  }

  // ---- remedies and the books ------------------------------------------------------------

  ghost predicate InManifest(wd: World, s: nat, k: Key) {
    k.stage == s && exists i :: 0 <= i < |Manifest(wd, s)| && Manifest(wd, s)[i].id == k.chunk
  }

  function PieceKeys(t: Task): (r: seq<Key>)
    ensures |r| == |t.members| && forall j :: 0 <= j < |r| ==> r[j] == Piece(t, j).key
  {
    seq(|t.members|, j requires 0 <= j < |t.members| => Piece(t, j).key)
  }

  lemma PieceKeysDistinct(t: Task)
    requires IsPackedId(t.key.chunk)
    ensures Distinct(PieceKeys(t)) && forall k :: multiset(PieceKeys(t))[k] <= 1
  {
    var ks := PieceKeys(t);
    forall a, b | 0 <= a < b < |ks| ensures ks[a] != ks[b] {
      PieceIdsUnique(t.key.chunk, a, t.key.chunk, b);
    }
    DistinctOnce(ks);
  }

  lemma {:induction false} DistinctOnce(ks: seq<Key>)
    requires Distinct(ks)
    ensures forall k :: multiset(ks)[k] <= 1
  {
    if ks != [] {
      DistinctOnce(ks[1..]);
      assert ks == [ks[0]] + ks[1..];
      forall i | 0 <= i < |ks| - 1 ensures ks[1..][i] != ks[0] {
        assert ks[i + 1] != ks[0];
      }
    }
  }

  lemma {:induction false} BagStable(ts: Tasks, ts': Tasks, s: nat, es: seq<Entry>)
    requires Named(ts, s, es) && forall k :: k in ts ==> k in ts' && ts'[k] == ts[k]
    ensures Named(ts', s, es) && Bag(ts', s, es) == Bag(ts, s, es)
  {
    if es != [] {
      BagStable(ts, ts', s, es[1..]);
      BagHead(ts, s, es);
      BagHead(ts', s, es);
    }
  }

  lemma NoPiecesStable(ts: Tasks, ts': Tasks, s: nat, es: seq<Entry>)
    requires Named(ts, s, es) && NoPieces(ts, s, es) && forall k :: k in ts ==> k in ts' && ts'[k] == ts[k]
    ensures NoPieces(ts', s, es)
  {
    forall i | 0 <= i < |es| ensures MemberCount(ts', s, es[i].id) == MemberCount(ts, s, es[i].id) {
      assert Key(s, es[i].id) in ts;
    }
  }

  /** A retried dead letter is in two places until the old one is taken. */
  lemma RetryBooks(a: World, b: World, s: nat, k: Key, bag: multiset<P.Ref>, load: real, over: seq<Key>)
    requires Balances(a, s, bag, load) && Single(a, s, over) && k.stage == s && k !in over && Copies(a.queue, k) >= 1
    requires Advanced(true, a, b, multiset{k}) && b.tasks == a.tasks && b.manifests == a.manifests
    ensures Balances(b, s, bag, load) && Single(b, s, over + [k])
  {
    forall x: Key | x.stage == s ensures Copies(b.queue, x) <= 1 + (if x in over + [k] then 1 else 0) {
      assert Copies(b.queue, x) <= Copies(a.queue, x) + multiset{k}[x];
      assert Copies(a.queue, x) <= 1 + (if x in over then 1 else 0);
    }
    forall i, j | 0 <= i < |Manifest(b, s)| && 0 <= j < MemberCount(b.tasks, s, Manifest(b, s)[i].id)
      && MemberCount(b.tasks, s, Manifest(b, s)[i].id) > 1
      ensures Copies(b.queue, Key(s, PieceId(Manifest(b, s)[i].id, j))) == 0
    {
      var x := Key(s, PieceId(Manifest(a, s)[i].id, j));
      assert Copies(a.queue, x) == 0;
      assert Copies(b.queue, x) <= Copies(a.queue, x) + multiset{k}[x];
    }
  }

  /** Enqueueing the pieces of a split chunk. */
  lemma ResplitSingle(a: World, b: World, s: nat, t: Task, i: nat, over: seq<Key>)
    requires i < |Manifest(a, s)| && t.key == Key(s, Manifest(a, s)[i].id) && t.key in a.tasks && a.tasks[t.key] == t
    requires |t.members| > 1 && IsPackedId(t.key.chunk) && PiecesFresh(a, s) && Single(a, s, over)
    requires Advanced(true, a, b, multiset(PieceKeys(t)))
    ensures Single(b, s, over)
  {
    PieceKeysDistinct(t);
    forall x: Key | x.stage == s ensures Copies(b.queue, x) <= 1 + (if x in over then 1 else 0) {
      assert Copies(b.queue, x) <= Copies(a.queue, x) + multiset(PieceKeys(t))[x];
      assert Copies(a.queue, x) <= 1 + (if x in over then 1 else 0);
      if x in PieceKeys(t) {
        var j :| 0 <= j < |t.members| && PieceKeys(t)[j] == x;
        assert MemberCount(a.tasks, s, Manifest(a, s)[i].id) == |t.members|;
        assert Copies(a.queue, Key(s, PieceId(Manifest(a, s)[i].id, j))) == 0;
      }
    }
  }

  /** The pieces of the chunks that stay whole are still fresh. */
  lemma ResplitFresh(a: World, b: World, s: nat, t: Task, i: nat)
    requires i < |Manifest(a, s)| && t.key == Key(s, Manifest(a, s)[i].id) && t.key in a.tasks && a.tasks[t.key] == t
    requires |t.members| > 1 && IsPackedId(t.key.chunk) && PiecesFresh(a, s)
    requires Advanced(true, a, b, multiset(PieceKeys(t)))
    requires PiecesNamed(b.tasks, s) && PiecesKnown(b.tasks, t) && Named(a.tasks, s, Manifest(a, s))
    requires Manifest(b, s) == Replace(Manifest(a, s), t.key.chunk, PieceEntries(t))
    ensures PiecesFresh(b, s)
  {
    var es, es' := Manifest(a, s), Manifest(b, s);
    forall m, j | 0 <= m < |es'| && 0 <= j < MemberCount(b.tasks, s, es'[m].id) && MemberCount(b.tasks, s, es'[m].id) > 1
      ensures Copies(b.queue, Key(s, PieceId(es'[m].id, j))) == 0
    {
      var id, kept := es'[m].id, Drop(es, t.key.chunk);
      if m >= |kept| {
        PieceCount(b.tasks, t, m - |kept|);
        assert false;
      } else {
        assert es'[m] in kept;
        var n :| 0 <= n < |es| && es[n] == es'[m];
        assert Key(s, id) in a.tasks && b.tasks[Key(s, id)] == a.tasks[Key(s, id)];
        var x := Key(s, PieceId(id, j));
        assert Copies(a.queue, x) == 0;
        assert PiecesNamedOf(b.tasks, Key(s, id));
        if x in PieceKeys(t) {
          var l :| 0 <= l < |t.members| && PieceKeys(t)[l] == x;
          PieceIdsUnique(t.key.chunk, l, id, j);
        }
        assert Copies(b.queue, x) <= Copies(a.queue, x) + multiset(PieceKeys(t))[x];
      }
    }
  }

  lemma ResplitBooks(a: World, b: World, s: nat, t: Task, i: nat, bag: multiset<P.Ref>, load: real, over: seq<Key>)
    requires i < |Manifest(a, s)| && t.key == Key(s, Manifest(a, s)[i].id) && t.key in a.tasks && a.tasks[t.key] == t
    requires |t.members| > 1 && PiecesNamed(a.tasks, s) && Balances(a, s, bag, load) && Single(a, s, over)
    requires Advanced(true, a, b, multiset(PieceKeys(t)))
    requires PiecesNamed(b.tasks, s) && PiecesKnown(b.tasks, t)
    requires Manifest(b, s) == Replace(Manifest(a, s), t.key.chunk, PieceEntries(t))
    ensures Balances(b, s, bag, load) && Single(b, s, over)
  {
    var es := Manifest(a, s);
    assert PiecesNamedOf(a.tasks, t.key);
    ResplitSingle(a, b, s, t, i, over);
    ResplitFresh(a, b, s, t, i);
    BagStable(a.tasks, b.tasks, s, es);
    NoPiecesStable(a.tasks, b.tasks, s, es);
    ResplitConserves(b.tasks, s, es, bag, load, i);
    ResplitNoPieces(b.tasks, s, es, i);
  }

  lemma SkipFresh(a: World, b: World, s: nat, id: string, over: seq<Key>)
    requires PiecesFresh(a, s) && Single(a, s, over)
    requires Advanced(true, a, b, multiset{}) && b.tasks == a.tasks
    requires Manifest(b, s) == Replace(Manifest(a, s), id, [])
    ensures PiecesFresh(b, s) && Single(b, s, over)
  {
    var es, es' := Manifest(a, s), Manifest(b, s);
    forall x: Key | x.stage == s ensures Copies(b.queue, x) <= 1 + (if x in over then 1 else 0) {
      assert Copies(a.queue, x) <= 1 + (if x in over then 1 else 0);
    }
    forall m, j | 0 <= m < |es'| && 0 <= j < MemberCount(b.tasks, s, es'[m].id) && MemberCount(b.tasks, s, es'[m].id) > 1
      ensures Copies(b.queue, Key(s, PieceId(es'[m].id, j))) == 0
    {
      assert es'[m] in Drop(es, id);
      var n :| 0 <= n < |es| && es[n] == es'[m];
      assert Copies(a.queue, Key(s, PieceId(es[n].id, j))) == 0;
    }
  }

  lemma SkipBooks(a: World, b: World, s: nat, t: Task, i: nat, bag: multiset<P.Ref>, load: real, over: seq<Key>)
    requires i < |Manifest(a, s)| && t.key == Key(s, Manifest(a, s)[i].id) && t.key in a.tasks && a.tasks[t.key] == t
    requires Balances(a, s, bag, load) && Single(a, s, over)
    requires Advanced(true, a, b, multiset{}) && b.tasks == a.tasks
    requires Manifest(b, s) == Replace(Manifest(a, s), t.key.chunk, [])
    ensures multiset(t.members) <= bag
    ensures Balances(b, s, bag - multiset(t.members), load - t.weight) && Single(b, s, over)
  {
    SkipConserves(a.tasks, s, Manifest(a, s), bag, load, i);
    SkipNoPieces(a.tasks, s, Manifest(a, s), t.key.chunk);
    SkipFresh(a, b, s, t.key.chunk, over);
  }

  // ---- one remedy, as the failure loop sees it ----------------------------------------------

  /** The stage's books, while the dead letters in `over` still wait to be taken. */
  ghost predicate InOrder(wd: World, s: nat, bag: multiset<P.Ref>, load: real, over: seq<Key>) {
    Balances(wd, s, bag, load) && Single(wd, s, over)
  }

  lemma SkipInOrder(a: World, b: World, k: Key, bag: multiset<P.Ref>, load: real, over: seq<Key>)
    requires InOrder(a, k.stage, bag, load, over) && InManifest(a, k.stage, k) && k in a.tasks && a.tasks[k].key == k
    requires Advanced(true, a, b, multiset{}) && b.tasks == a.tasks
    requires Manifest(b, k.stage) == Replace(Manifest(a, k.stage), k.chunk, [])
    ensures multiset(a.tasks[k].members) <= bag
    ensures InOrder(b, k.stage, bag - multiset(a.tasks[k].members), load - a.tasks[k].weight, over)
  {
    var i :| 0 <= i < |Manifest(a, k.stage)| && Manifest(a, k.stage)[i].id == k.chunk;
    SkipBooks(a, b, k.stage, a.tasks[k], i, bag, load, over);
  }

  lemma MoveOver(bag: multiset<P.Ref>, skipped: multiset<P.Ref>, ms: multiset<P.Ref>)
    requires ms <= bag
    ensures (bag - ms) + (skipped + ms) == bag + skipped
  {
  }

  /** The manifest still names what it named, except perhaps `d`, and all of `ks`. */
  ghost predicate StillNames(a: World, b: World, s: nat, d: Key, ks: seq<Key>) {
    && (forall x :: InManifest(a, s, x) && x != d ==> InManifest(b, s, x))
    && forall x :: x in ks ==> InManifest(b, s, x)
  }

  lemma RetryFollows(a: World, b: World, s: nat, d: Key)
    requires b.manifests == a.manifests && d.stage == s
    ensures Follows(a, b, s, [d], [d])
    ensures InManifest(a, s, d) ==> StillNames(a, b, s, d, [d])
  {
  }

  lemma ReplaceFollows(a: World, b: World, s: nat, d: Key, t: Task, ks: seq<Key>, ps: seq<Entry>)
    requires d.stage == s && Manifest(b, s) == Replace(Manifest(a, s), d.chunk, ps)
    requires |ks| == |ps| && forall j :: 0 <= j < |ks| ==> ks[j] == Key(s, ps[j].id)
    ensures Follows(a, b, s, [d], ks) && StillNames(a, b, s, d, ks)
  {
    var es, kept := Manifest(a, s), Drop(Manifest(a, s), d.chunk);
    forall e | e in Manifest(b, s) ensures (e in es && Key(s, e.id) !in [d]) || Key(s, e.id) in ks {
      if e !in kept {
        assert e in ps;
        var j :| 0 <= j < |ps| && ps[j] == e;
        assert ks[j] in ks;
      }
    }
    forall x | InManifest(a, s, x) && x != d ensures InManifest(b, s, x) {
      var i :| 0 <= i < |es| && es[i].id == x.chunk;
      assert es[i] in kept;
      var m :| 0 <= m < |kept| && kept[m] == es[i];
      assert Manifest(b, s)[m] == es[i];
    }
    forall x | x in ks ensures InManifest(b, s, x) {
      var j :| 0 <= j < |ks| && ks[j] == x;
      assert Manifest(b, s)[|kept| + j] == ps[j];
    }
  }

  /** Every entry of the manifest still names a known task once some were replaced by entries that do. */
  lemma ReplaceNamed(ts: Tasks, ts': Tasks, s: nat, es: seq<Entry>, id: string, ps: seq<Entry>)
    requires Named(ts, s, es) && Named(ts', s, ps) && forall k :: k in ts ==> k in ts' && ts'[k] == ts[k]
    ensures Named(ts', s, Replace(es, id, ps))
  {
    var kept := Drop(es, id);
    forall i | 0 <= i < |kept| + |ps|
      ensures var e := (kept + ps)[i]; Key(s, e.id) in ts' && ts'[Key(s, e.id)].weight == e.weight
    {
      if i < |kept| {
        assert kept[i] in kept;
        var m :| 0 <= m < |es| && es[m] == kept[i];
        assert Key(s, es[m].id) in ts;
      }
    }
  }

  lemma ResplitNamed(a: World, b: World, s: nat, d: Key, new_: seq<Key>)
    requires d.stage == s && d in a.tasks && a.tasks[d].key == d && ResplitEffect(a, b, d, new_) && Later(a, b)
    requires Named(a.tasks, s, Manifest(a, s))
    ensures Named(b.tasks, s, Manifest(b, s))
  {
    var t := a.tasks[d];
    if |t.members| > 1 {
      PiecesNamedIn(b.tasks, t);
      ReplaceNamed(a.tasks, b.tasks, s, Manifest(a, s), d.chunk, PieceEntries(t));
    }
  }

  lemma SkipNamed(ts: Tasks, s: nat, es: seq<Entry>, id: string)
    requires Named(ts, s, es)
    ensures Named(ts, s, Replace(es, id, []))
  {
    ReplaceNamed(ts, ts, s, es, id, []);
  }

  lemma DeadLight(wd: World, d: Key)
    requires d in wd.tasks
    ensures Light(wd.tasks, d.stage) ==> wd.tasks[d].weight >= 0.0
  {
  }

  /** ... in the middle of a round too. */
  lemma RoundLight(strict: bool, a: World, b: World, s: nat, done: seq<Key>, enq: seq<Key>)
    requires RoundSoFar(strict, a, b, s, done, enq)
    ensures Light(a.tasks, s) ==> Light(b.tasks, s)
  {
    if Light(a.tasks, s) { PiecesLight(a, b, s); }
  }

  lemma SingleMore(wd: World, s: nat, over: seq<Key>, d: Key)
    requires Single(wd, s, over)
    ensures Single(wd, s, over + [d])
  {
    forall k: Key | k.stage == s ensures Copies(wd.queue, k) <= 1 + (if k in over + [d] then 1 else 0) {
      assert Copies(wd.queue, k) <= 1 + (if k in over then 1 else 0);
    }
  }

  lemma ResplitFollows(a: World, b: World, s: nat, d: Key, new_: seq<Key>)
    requires d.stage == s && d in a.tasks && a.tasks[d].key == d && ResplitEffect(a, b, d, new_)
    ensures Follows(a, b, s, [d], new_) && (InManifest(a, s, d) ==> StillNames(a, b, s, d, new_))
    ensures forall x :: x in new_ ==> x == d || IsPieceOf(a.tasks, d, x)
  {
    var t := a.tasks[d];
    if |t.members| <= 1 {
      RetryFollows(a, b, s, d);
    } else {
      ReplaceFollows(a, b, s, d, t, new_, PieceEntries(t));
    }
  }

  lemma ResplitKept(a: World, b: World, s: nat, d: Key, new_: seq<Key>, bag: multiset<P.Ref>, load: real, over: seq<Key>)
    requires d in a.tasks && a.tasks[d].key == d && ResplitEffect(a, b, d, new_)
    requires PiecesNamed(a.tasks, s) && PiecesNamed(b.tasks, s)
    requires InOrder(a, s, bag, load, over) && InManifest(a, s, d) && d !in over && Copies(a.queue, d) >= 1
    requires Advanced(true, a, b, multiset(new_))
    ensures InOrder(b, s, bag, load, over + [d])
  {
    var t := a.tasks[d];
    if |t.members| <= 1 {
      assert multiset([d]) == multiset{d};
      RetryBooks(a, b, s, d, bag, load, over);
    } else {
      var i :| 0 <= i < |Manifest(a, s)| && Manifest(a, s)[i].id == d.chunk;
      ResplitBooks(a, b, s, t, i, bag, load, over);
      SingleMore(b, s, over, d);
    }
  }

  // ---- a round of remedies --------------------------------------------------------------------

  /** `x` is one of the dead tasks or a piece of one. */
  ghost predicate FromDead(ts: Tasks, dead: seq<Key>, x: Key) {
    x in dead || exists i :: 0 <= i < |dead| && IsPieceOf(ts, dead[i], x)
  }

  /** How far a round has come: the dead tasks in `done` are dealt with, the tasks in `enq` were enqueued for them. */
  ghost predicate RoundSoFar(strict: bool, a: World, b: World, s: nat, done: seq<Key>, enq: seq<Key>) {
    && Advanced(strict, a, b, multiset(enq))
    && PiecesNamed(b.tasks, s) && SameOtherManifests(a, b, s) && OnlyPiecesCame(a, b, s)
    && Named(b.tasks, s, Manifest(b, s))
    && FreshTasks(a, b, s, enq) && Follows(a, b, s, done, enq)
    && forall x :: x in enq ==> FromDead(a.tasks, done, x)
  }

  lemma RoundStart(strict: bool, a: World, s: nat)
    requires s in a.manifests && PiecesNamed(a.tasks, s) && Named(a.tasks, s, Manifest(a, s))
    ensures RoundSoFar(strict, a, a, s, [], [])
  {
    AdvancedSelf(strict, a);
    assert a.manifests == a.manifests[s := a.manifests[s]];
  }

  lemma DeadKnown(strict: bool, a: World, b: World, s: nat, done: seq<Key>, enq: seq<Key>, d: Key)
    requires RoundSoFar(strict, a, b, s, done, enq) && Fed(a, d)
    ensures d in b.tasks && b.tasks[d] == a.tasks[d]
  {
  }

  lemma FreshTasksThen(strict: bool, a: World, b: World, c: World, s: nat, enq: seq<Key>, more: seq<Key>)
    requires Advanced(strict, a, b, multiset(enq)) && Advanced(strict, b, c, multiset(more))
    requires FreshTasks(a, b, s, enq) && FreshTasks(b, c, s, more)
    ensures FreshTasks(a, c, s, enq + more)
  {
    AdvancedSelf(strict, a);
    AdvancedSelf(strict, c);
    forall k | k in enq + more ensures k.stage == s && Fed(c, k) && Secured(a, c, k) {
      if k in enq {
        SecuredLater(strict, a, a, b, c, k, multiset{}, multiset(more));
        AdvancedFed(strict, b, c, multiset(more), k);
      } else {
        SecuredLater(strict, a, b, c, c, k, multiset(enq), multiset{});
      }
    }
  }

  lemma FollowsThen(a: World, b: World, c: World, s: nat, done: seq<Key>, d: Key, enq: seq<Key>, more: seq<Key>)
    requires Follows(a, b, s, done, enq) && Follows(b, c, s, [d], more)
    ensures Follows(a, c, s, done + [d], enq + more)
  {
  }

  lemma FromDeadThen(a: Tasks, b: Tasks, done: seq<Key>, d: Key, enq: seq<Key>, more: seq<Key>)
    requires d in a && d in b && a[d] == b[d]
    requires (forall x :: x in enq ==> FromDead(a, done, x)) && (forall x :: x in more ==> x == d || IsPieceOf(b, d, x))
    ensures forall x :: x in enq + more ==> FromDead(a, done + [d], x)
  {
    var all := done + [d];
    forall x | x in enq + more ensures FromDead(a, all, x) {
      if x in enq {
        if x !in done {
          var i :| 0 <= i < |done| && IsPieceOf(a, done[i], x);
          assert IsPieceOf(a, all[i], x);
        }
      } else if x != d {
        assert IsPieceOf(a, all[|done|], x);
      }
    }
  }

  /** One more dead task dealt with. */
  lemma RoundStep(strict: bool, a: World, b: World, c: World, s: nat, done: seq<Key>, d: Key, enq: seq<Key>, more: seq<Key>)
    requires RoundSoFar(strict, a, b, s, done, enq) && Fed(a, d)
    requires Advanced(strict, b, c, multiset(more)) && FreshTasks(b, c, s, more)
    requires PiecesNamed(c.tasks, s) && SameOtherManifests(b, c, s) && OnlyPiecesCame(b, c, s)
    requires Named(c.tasks, s, Manifest(c, s))
    requires Follows(b, c, s, [d], more)
    requires forall x :: x in more ==> x == d || IsPieceOf(b.tasks, d, x)
    ensures RoundSoFar(strict, a, c, s, done + [d], enq + more)
  {
    hide Advanced, FreshTasks, Follows, OnlyPiecesCame, PiecesNamed, Named, FromDead, IsPieceOf;
    AdvancedLater(strict, a, b, multiset(enq));
    AdvancedLater(strict, b, c, multiset(more));
    AdvancedThen(strict, a, b, c, multiset(enq), multiset(more));
    assert multiset(enq + more) == multiset(enq) + multiset(more);
    PiecesCameThen(a, b, c, s);
    FreshTasksThen(strict, a, b, c, s, enq, more);
    FollowsThen(a, b, c, s, done, d, enq, more);
    AdvancedFed(strict, a, b, multiset(enq), d);
    FromDeadThen(a.tasks, b.tasks, done, d, enq, more);
  }

  /** The manifest names every task the controller still waits for; nothing enqueued this round is still to be dealt with. */
  ghost predicate RoundNames(a: World, b: World, s: nat, done: seq<Key>, todo: seq<Key>, enq: seq<Key>) {
    && (forall x :: InManifest(a, s, x) && x !in done ==> InManifest(b, s, x))
    && (forall x :: x in enq ==> InManifest(b, s, x) && x !in todo)
    && (forall x :: x in todo ==> InManifest(b, s, x) && Count(b.queue.dlq, x) >= 1)
  }

  lemma RoundNamesStep(
      a: World, b: World, c: World, s: nat, done: seq<Key>, d: Key, todo: seq<Key>, enq: seq<Key>, more: seq<Key>)
    requires RoundNames(a, b, s, done, [d] + todo, enq) && StillNames(b, c, s, d, more) && d !in todo
    requires forall x :: x in more ==> x !in todo
    requires forall x :: x in todo ==> Count(c.queue.dlq, x) >= 1
    ensures RoundNames(a, c, s, done + [d], todo, enq + more)
  {
    forall x | InManifest(a, s, x) && x !in done + [d] ensures InManifest(c, s, x) {
      assert InManifest(b, s, x);
    }
    forall x | x in enq + more ensures InManifest(c, s, x) && x !in todo {
      if x in enq { assert x !in [d] + todo; }
    }
    forall x | x in todo ensures InManifest(c, s, x) && Count(c.queue.dlq, x) >= 1 {
      assert x in [d] + todo;
    }
  }

  /** A piece that has not been enqueued is in no place, so it is none of the dead letters. */
  lemma PiecesAreNotDead(b: World, s: nat, d: Key, todo: seq<Key>, more: seq<Key>)
    requires PiecesFresh(b, s) && InManifest(b, s, d) && d !in todo
    requires forall x :: x in more ==> x == d || (IsPieceOf(b.tasks, d, x) && b.tasks[d].key == d)
    requires forall x :: x in todo ==> Count(b.queue.dlq, x) >= 1
    ensures forall x :: x in more ==> x !in todo
  {
    forall x | x in more ensures x !in todo {
      if x != d {
        var i :| 0 <= i < |Manifest(b, s)| && Manifest(b, s)[i].id == d.chunk;
        var j :| 0 <= j < |b.tasks[d].members| && x == Piece(b.tasks[d], j).key;
        assert MemberCount(b.tasks, s, Manifest(b, s)[i].id) == |b.tasks[d].members|;
        assert Copies(b.queue, Key(s, PieceId(Manifest(b, s)[i].id, j))) == 0;
      }
    }
  }

  /** The workers go on during a round. */
  lemma RoundYield(strict: bool, a: World, b: World, c: World, s: nat, done: seq<Key>, enq: seq<Key>)
    requires RoundSoFar(strict, a, b, s, done, enq)
    requires Advanced(strict, b, c, multiset{}) && c.tasks == b.tasks && c.manifests == b.manifests
    ensures RoundSoFar(strict, a, c, s, done, enq)
  {
    AdvancedThen(strict, a, b, c, multiset(enq), multiset{});
    assert multiset(enq) + multiset{} == multiset(enq);
    FreshTasksThen(strict, a, b, c, s, enq, []);
    assert enq + [] == enq;
  }

  lemma RoundNamesYield(a: World, b: World, c: World, s: nat, done: seq<Key>, todo: seq<Key>, enq: seq<Key>)
    requires RoundNames(a, b, s, done, todo, enq)
    requires Advanced(true, b, c, multiset{}) && c.manifests == b.manifests
    ensures RoundNames(a, c, s, done, todo, enq)
  {
    assert Manifest(c, s) == Manifest(b, s);
    forall x | x in todo ensures Count(c.queue.dlq, x) >= 1 {
      assert Count(c.queue.dlq, x) >= Count(b.queue.dlq, x);
    }
  }

  /** The state of a round under the lease discipline. */
  ghost predicate StrictRound(
      a: World, b: World, s: nat, bag: multiset<P.Ref>, load: real, done: seq<Key>, todo: seq<Key>, enq: seq<Key>)
  {
    InOrder(b, s, bag, load, done) && RoundNames(a, b, s, done, todo, enq)
  }

  lemma StrictRoundYield(
      a: World, b: World, c: World, s: nat, bag: multiset<P.Ref>, load: real, done: seq<Key>, todo: seq<Key>, enq: seq<Key>)
    requires StrictRound(a, b, s, bag, load, done, todo, enq)
    requires Advanced(true, b, c, multiset{}) && c.manifests == b.manifests && c.tasks == b.tasks
    ensures StrictRound(a, c, s, bag, load, done, todo, enq)
  {
    AdvancedBooks(b, c, s, bag, load, done);
    RoundNamesYield(a, b, c, s, done, todo, enq);
  }

  lemma DeadStay(a: World, b: World, added: multiset<Key>, ks: seq<Key>)
    requires Advanced(true, a, b, added) && forall x :: x in ks ==> Count(a.queue.dlq, x) >= 1
    ensures forall x :: x in ks ==> Count(b.queue.dlq, x) >= 1
  {
    forall x | x in ks ensures Count(b.queue.dlq, x) >= 1 {
      assert Count(b.queue.dlq, x) >= Count(a.queue.dlq, x);
    }
  }

  lemma RoundNamesRemedied(
      a: World, b: World, c: World, s: nat, done: seq<Key>, d: Key, todo: seq<Key>, enq: seq<Key>, more: seq<Key>)
    requires RoundNames(a, b, s, done, [d] + todo, enq) && PiecesFresh(b, s) && d !in todo
    requires d in b.tasks && b.tasks[d].key == d
    requires Advanced(true, b, c, multiset(more)) && StillNames(b, c, s, d, more)
    requires forall x :: x in more ==> x == d || IsPieceOf(b.tasks, d, x)
    ensures RoundNames(a, c, s, done + [d], todo, enq + more)
  {
    forall x | x in todo ensures Count(b.queue.dlq, x) >= 1 { assert x in [d] + todo; }
    assert d in [d] + todo;
    PiecesAreNotDead(b, s, d, todo, more);
    DeadStay(b, c, multiset(more), todo);
    RoundNamesStep(a, b, c, s, done, d, todo, enq, more);
  }

  // ---- after a round ---------------------------------------------------------------------------

  /** Every key in `ks` is safe even when the dead letters in `todo` are gone. */
  ghost predicate SafeWithout(wd: World, ks: set<Key>, todo: seq<Key>) {
    && (forall k :: k in ks ==> Safe(wd, k, 1 + Count(todo, k)))
    && (forall k :: Count(wd.queue.dlq, k) >= Count(todo, k))
  }

  lemma SafeWithoutYield(strict: bool, a: World, b: World, ks: set<Key>, todo: seq<Key>)
    requires SafeWithout(a, ks, todo) && Advanced(strict, a, b, multiset{})
    ensures SafeWithout(b, ks, todo)
  {
    forall k ensures Count(b.queue.dlq, k) >= Count(todo, k) {
      assert Count(b.queue.dlq, k) >= Count(a.queue.dlq, k) >= Count(todo, k);
    }
  }

  lemma SafeWithoutTaken(a: World, b: World, ks: set<Key>, d: Key, todo: seq<Key>)
    requires SafeWithout(a, ks, [d] + todo) && Taken(a, b, d)
    ensures SafeWithout(b, ks, todo)
  {
    forall k ensures Count([d] + todo, k) == Count(todo, k) + (if k == d then 1 else 0) {
    }
    assert Count(a.queue.dlq, d) >= Count([d] + todo, d) >= 1;
    forall k | k in ks ensures Safe(b, k, 1 + Count(todo, k)) {
      TakenSafe(a, b, d, k, 1 + Count(todo, k));
    }
    forall k ensures Count(b.queue.dlq, k) >= Count(todo, k) {
      assert Count(a.queue.dlq, k) >= Count([d] + todo, k);
    }
  }

  lemma TakenInOrder(a: World, b: World, s: nat, d: Key, todo: seq<Key>, bag: multiset<P.Ref>, load: real)
    requires InOrder(a, s, bag, load, [d] + todo) && Taken(a, b, d) && Count(a.queue.dlq, d) >= 1 && d !in todo
    ensures InOrder(b, s, bag, load, todo)
  {
    forall k ensures Copies(b.queue, k) == Copies(a.queue, k) - (if k == d then 1 else 0) {
      assert Live(b.queue, k) == Live(a.queue, k);
    }
    forall k: Key | k.stage == s ensures Copies(b.queue, k) <= 1 + (if k in todo then 1 else 0) {
      assert Copies(a.queue, k) <= 1 + (if k in [d] + todo then 1 else 0);
    }
  }

  /** When a round is done, what is left to wait for is safe even without the old dead letters. */
  lemma RoundSafe(strict: bool, a: World, b: World, s: nat, active: set<Key>, dead: seq<Key>, enq: seq<Key>)
    requires RoundSoFar(strict, a, b, s, dead, enq) && Waiting(a, s, active)
    requires forall k :: Count(a.queue.dlq, k) >= Count(dead, k)
    ensures SafeWithout(b, Remaining(active, dead, enq), dead)
  {
    forall k | k in Remaining(active, dead, enq) ensures Safe(b, k, 1 + Count(dead, k)) {
      if k in enq {
        assert Secured(a, b, k);
        assert Count(a.queue.dlq, k) >= Count(dead, k);
      } else {
        assert Safe(a, k, 1) && Count(dead, k) == 0;
      }
    }
    forall k ensures Count(b.queue.dlq, k) >= Count(dead, k) {
      assert Count(b.queue.dlq, k) >= Count(a.queue.dlq, k) >= Count(dead, k);
    }
  }

  function SetOf(ks: seq<Key>): set<Key> { set k | k in ks }

  lemma SetOfNone()
    ensures SetOf([]) == {}
  {
  }

  lemma SetOfSnoc(ks: seq<Key>, i: nat)
    requires i < |ks|
    ensures SetOf(ks[..i + 1]) == SetOf(ks[..i]) + {ks[i]}
  {
    assert ks[..i + 1] == ks[..i] + [ks[i]];
  }

  lemma SetOfPlus(a: seq<Key>, b: seq<Key>)
    ensures SetOf(a + b) == SetOf(a) + SetOf(b)
  {
  }

  /** Every key enqueued since is of stage `s` and not held back. */
  ghost predicate OnlyCame(a: set<Key>, b: set<Key>, s: nat, back: set<Key>) {
    a <= b && forall k :: k in b && k !in a ==> k.stage == s && k !in back
  }

  lemma CameFrom(before: set<Key>, enq: seq<Key>, s: nat, back: set<Key>)
    requires forall k :: k in enq ==> k.stage == s && k !in back
    ensures OnlyCame(before, before + SetOf(enq), s, back)
    ensures enq == [] ==> before + SetOf(enq) == before
  {
  }

  lemma CameNot(enqueued: set<Key>, s: nat, back: set<Key>)
    ensures OnlyCame(enqueued, enqueued, s, back)
  {
  }

  lemma CameThen(a: set<Key>, b: set<Key>, c: set<Key>, s: nat, back: set<Key>)
    requires OnlyCame(a, b, s, back) && OnlyCame(b, c, s, back)
    ensures OnlyCame(a, c, s, back)
  {
  }

  /** `active` after a round: the dead tasks go, the new ones come. */
  function Remaining(active: set<Key>, dead: seq<Key>, enq: seq<Key>): set<Key> {
    (active - SetOf(dead)) + SetOf(enq)
  }

  lemma RoundCovered(strict: bool, a: World, b: World, s: nat, active: set<Key>, back: set<Key>, dead: seq<Key>, enq: seq<Key>)
    requires RoundSoFar(strict, a, b, s, dead, enq) && Covered(a, s, active + back)
    requires forall d :: d in dead ==> d in active && d !in back
    ensures Covered(b, s, Remaining(active, dead, enq) + back)
  {
  }

  lemma RoundHeldBack(strict: bool, a: World, b: World, s: nat, active: set<Key>, back: set<Key>, dead: seq<Key>, enq: seq<Key>)
    requires RoundSoFar(strict, a, b, s, dead, enq) && HeldBack(a, s, back) && active !! back
    requires forall d :: d in dead ==> d in active && d.stage == s
    ensures HeldBack(b, s, back) && Remaining(active, dead, enq) !! back && SetOf(enq) !! back
  {
    forall x | x in enq ensures x !in back {
      assert FromDead(a.tasks, dead, x);
      if x !in dead {
        var i :| 0 <= i < |dead| && IsPieceOf(a.tasks, dead[i], x);
        var j :| 0 <= j < |a.tasks[dead[i]].members| && x == Piece(a.tasks[dead[i]], j).key;
        assert dead[i] in dead;
      }
    }
    forall k | k in back ensures k.stage == s && Fed(b, k) && Untouched(b, k) {
      assert multiset(enq)[k] == 0;
      AdvancedFed(strict, a, b, multiset(enq), k);
    }
  }

  // ---- draining ---------------------------------------------------------------------------------

  /** What holds at every poll of a drain. `active` is waited for, `back` is not enqueued yet. */
  ghost predicate Draining(strict: bool, wd: World, s: nat, active: set<Key>, back: set<Key>, bag: multiset<P.Ref>, load: real) {
    && s in wd.manifests && PiecesNamed(wd.tasks, s) && Named(wd.tasks, s, Manifest(wd, s))
    && Waiting(wd, s, active) && Covered(wd, s, active + back)
    && HeldBack(wd, s, back) && active !! back
    && (strict ==> InOrder(wd, s, bag, load, []) && forall k :: k in active + back ==> InManifest(wd, s, k))
  }

  /** Other stages were left alone: no chunk was given out, no task became known, no manifest was written. */
  ghost predicate OthersIdle(a: World, b: World, s: nat) {
    && (forall k: Key :: k.stage != s && Untouched(a, k) ==> Untouched(b, k))
    && (forall k: Key :: k.stage != s && k in b.tasks ==> k in a.tasks)
    && forall t: nat :: t != s ==> (t in a.manifests <==> t in b.manifests) && Manifest(b, t) == Manifest(a, t)
  }

  /** Nothing was undone, and other stages were left alone. */
  ghost predicate Since(a: World, b: World, s: nat) {
    Later(a, b) && OthersIdle(a, b, s)
  }

  lemma SinceThen(a: World, b: World, c: World, s: nat)
    requires Since(a, b, s) && Since(b, c, s)
    ensures Since(a, c, s)
  {
    LaterThen(a, b, c);
  }

  /** While a planned stage runs: besides, no tasks become known but pieces. */
  ghost predicate During(a: World, b: World, s: nat) {
    Since(a, b, s) && OnlyPiecesCame(a, b, s)
  }

  lemma DuringThen(a: World, b: World, c: World, s: nat)
    requires During(a, b, s) && During(b, c, s)
    ensures During(a, c, s)
  {
    SinceThen(a, b, c, s);
    PiecesCameThen(a, b, c, s);
  }

  lemma DuringLight(a: World, b: World, s: nat)
    requires During(a, b, s)
    ensures Since(a, b, s) && (Light(a.tasks, s) ==> Light(b.tasks, s)) && (Light(b.tasks, s) ==> Light(a.tasks, s))
  {
    if Light(a.tasks, s) { PiecesLight(a, b, s); }
    forall k | k in a.tasks && k.stage == s ensures k in b.tasks && b.tasks[k] == a.tasks[k] {}
  }

  lemma DrainYield(
      strict: bool, a: World, b: World, s: nat, active: set<Key>, back: set<Key>, bag: multiset<P.Ref>, load: real)
    requires Draining(strict, a, s, active, back, bag, load)
    requires Advanced(strict, a, b, multiset{}) && b.tasks == a.tasks && b.manifests == a.manifests
    ensures Draining(strict, b, s, active, back, bag, load) && During(a, b, s)
  {
    AdvancedWaiting(strict, a, b, multiset{}, s, active);
    AdvancedCovered(strict, a, b, multiset{}, s, active + back);
    AdvancedHeldBack(strict, a, b, multiset{}, s, back);
    if strict {
      AdvancedBooks(a, b, s, bag, load, []);
    }
  }

  /** `[t for t in dlq if t.key in active]` */
  function DeadIn(dlq: seq<Key>, active: set<Key>): (r: seq<Key>)
    ensures forall d :: d in r ==> d in active && d in dlq
    ensures forall k :: Count(r, k) == if k in active then Count(dlq, k) else 0
  {
    if dlq == [] then [] else
    assert dlq == [dlq[0]] + dlq[1..];
    (if dlq[0] in active then [dlq[0]] else []) + DeadIn(dlq[1..], active)
  }

  lemma {:induction false} OnceDistinct(ks: seq<Key>)
    requires forall k :: k in ks ==> Count(ks, k) <= 1
    ensures Distinct(ks)
  {
    forall i, j | 0 <= i < j < |ks| ensures ks[i] != ks[j] {
      var a, b := ks[..j], ks[j..];
      assert ks == a + b && a[i] == ks[i] && b[0] == ks[j];
      assert multiset(ks) == multiset(a) + multiset(b);
      assert ks[i] in multiset(a) && ks[j] in multiset(b);
      assert Count(ks, ks[i]) <= 1;
    }
  }

  /** A round may start. */
  lemma RoundReady(strict: bool, wd: World, s: nat, active: set<Key>, back: set<Key>, bag: multiset<P.Ref>, load: real)
    requires Draining(strict, wd, s, active, back, bag, load)
    ensures s in wd.manifests && PiecesNamed(wd.tasks, s) && Named(wd.tasks, s, Manifest(wd, s))
    ensures var dead := DeadIn(wd.queue.dlq, active);
      && (forall d :: d in dead ==> d.stage == s && Fed(wd, d))
      && (forall k :: Count(wd.queue.dlq, k) >= Count(dead, k))
      && (strict ==> Distinct(dead) && StrictRound(wd, wd, s, bag, load, [], dead, []))
  {
    var dead := DeadIn(wd.queue.dlq, active);
    if strict {
      forall k | k in dead ensures Count(dead, k) <= 1 && InManifest(wd, s, k) && Count(wd.queue.dlq, k) >= 1 {
        assert k in active && Copies(wd.queue, k) <= 1;
        assert k in wd.queue.dlq;
      }
      OnceDistinct(dead);
    }
  }

  /** A round is over: `c` is the world once the dead letters are taken. */
  lemma RoundOver(
      strict: bool, a: World, b: World, c: World, s: nat, active: set<Key>, back: set<Key>, dead: seq<Key>, enq: seq<Key>,
      bag: multiset<P.Ref>, load: real)
    requires RoundSoFar(strict, a, b, s, dead, enq)
    requires c.tasks == b.tasks && c.manifests == b.manifests
    requires Waiting(c, s, Remaining(active, dead, enq)) && Covered(c, s, Remaining(active, dead, enq) + back)
    requires HeldBack(c, s, back) && Remaining(active, dead, enq) !! back
    requires strict ==> InOrder(c, s, bag, load, []) && RoundNames(a, b, s, dead, [], enq)
    requires active !! back && forall d :: d in dead ==> d in active
    requires strict ==> forall k :: k in active + back ==> InManifest(a, s, k)
    ensures Draining(strict, c, s, Remaining(active, dead, enq), back, bag, load)
  {
    if strict {
      forall k | k in Remaining(active, dead, enq) + back ensures InManifest(c, s, k) {
        assert Manifest(c, s) == Manifest(b, s);
        if k !in enq {
          assert InManifest(a, s, k) && k !in dead;
        }
        assert InManifest(b, s, k);
      }
    }
  }

  lemma FedLater(a: World, b: World, k: Key)
    requires Fed(a, k) && Later(a, b)
    ensures Fed(b, k)
  {
  }

  /** What is left to wait for after a round, once the dead letters are gone. */
  lemma RoundWaiting(strict: bool, a: World, b: World, c: World, s: nat, active: set<Key>, dead: seq<Key>, enq: seq<Key>)
    requires RoundSoFar(strict, a, b, s, dead, enq) && Waiting(a, s, active)
    requires Later(b, c) && SafeWithout(c, Remaining(active, dead, enq), [])
    ensures Waiting(c, s, Remaining(active, dead, enq))
  {
    forall k | k in Remaining(active, dead, enq) ensures k.stage == s && Fed(c, k) && Safe(c, k, 1) {
      if k !in enq { AdvancedFed(strict, a, b, multiset(enq), k); }
      FedLater(b, c, k);
      assert Safe(c, k, 1 + Count([], k));
    }
  }

  lemma CoveredLater(b: World, c: World, s: nat, ks: set<Key>)
    requires Covered(b, s, ks) && Later(b, c) && c.manifests == b.manifests
    ensures Covered(c, s, ks)
  {
  }

  lemma HeldBackLater(b: World, c: World, s: nat, ks: set<Key>)
    requires HeldBack(b, s, ks) && Later(b, c) && c.tasks == b.tasks
    requires forall k :: Untouched(b, k) ==> Untouched(c, k)
    ensures HeldBack(c, s, ks)
  {
    forall k | k in ks ensures k.stage == s && Fed(c, k) && Untouched(c, k) {
      FedLater(b, c, k);
    }
  }

  lemma RoundOthersIdle(strict: bool, a: World, b: World, s: nat, done: seq<Key>, enq: seq<Key>)
    requires RoundSoFar(strict, a, b, s, done, enq)
    ensures During(a, b, s)
  {
    forall k: Key | k.stage != s && Untouched(a, k) ensures Untouched(b, k) {
      assert k !in enq;
      assert multiset(enq)[k] == 0;
    }
  }

  /** Whatever a round of remedies comes to: the chunks held back and other stages were left alone. */
  lemma RoundStops(
      strict: bool, a: World, b: World, s: nat, active: set<Key>, back: set<Key>, bag: multiset<P.Ref>, load: real,
      dead: seq<Key>, upTo: nat, enq: seq<Key>)
    requires Draining(strict, a, s, active, back, bag, load)
    requires dead == DeadIn(a.queue.dlq, active) && upTo <= |dead| && RoundSoFar(strict, a, b, s, dead[..upTo], enq)
    ensures During(a, b, s) && HeldBack(b, s, back) && s in b.manifests
    ensures forall k :: k in enq ==> k.stage == s && k !in back
  {
    RoundOthersIdle(strict, a, b, s, dead[..upTo], enq);
    RoundHeldBack(strict, a, b, s, active, back, dead[..upTo], enq);
  }

  /** ... and a round that comes to its end leaves the drain in order: `b` is before, `c` after the dead letters are taken. */
  lemma RoundEnds(
      strict: bool, a: World, b: World, c: World, s: nat, active: set<Key>, back: set<Key>, dead: seq<Key>, enq: seq<Key>,
      bag: multiset<P.Ref>, load: real, bag': multiset<P.Ref>, load': real)
    requires Draining(strict, a, s, active, back, bag, load)
    requires dead == DeadIn(a.queue.dlq, active) && RoundSoFar(strict, a, b, s, dead, enq)
    requires Later(b, c) && c.tasks == b.tasks && c.manifests == b.manifests
    requires forall k :: Untouched(b, k) ==> Untouched(c, k)
    requires SafeWithout(c, Remaining(active, dead, enq), [])
    requires strict ==> InOrder(c, s, bag', load', []) && RoundNames(a, b, s, dead, [], enq)
    ensures Draining(strict, c, s, Remaining(active, dead, enq), back, bag', load') && During(a, c, s)
  {
    RoundOthersIdle(strict, a, b, s, dead, enq);
    RoundHeldBack(strict, a, b, s, active, back, dead, enq);
    RoundCovered(strict, a, b, s, active, back, dead, enq);
    RoundWaiting(strict, a, b, c, s, active, dead, enq);
    CoveredLater(b, c, s, Remaining(active, dead, enq) + back);
    HeldBackLater(b, c, s, back);
    LaterThen(a, b, c);
    RoundOver(strict, a, b, c, s, active, back, dead, enq, bag', load');
  }

  lemma DuringSelf(a: World, s: nat)
    ensures During(a, a, s)
  {
  }

  /** With every active task marked, only what was held back is still to be covered. */
  lemma AllCovered(strict: bool, wd: World, s: nat, active: set<Key>, back: set<Key>, bag: multiset<P.Ref>, load: real)
    requires Draining(strict, wd, s, active, back, bag, load) && active <= wd.markers
    ensures Draining(strict, wd, s, {}, back, bag, load)
  {
  }

  // ---- small steps of the controller's methods ---------------------------------------------------

  lemma DistinctRest(dead: seq<Key>, i: nat)
    requires Distinct(dead) && i < |dead|
    ensures dead[i] !in dead[..i] && dead[i] !in dead[i + 1..]
  {
  }

  lemma PiecesFed(wd: World, t: Task)
    requires Fed(wd, t.key) && wd.tasks[t.key] == t && PiecesKnown(wd.tasks, t)
    ensures forall k :: k in PieceKeys(t) ==> k.stage == t.key.stage && Fed(wd, k)
  {
    forall k | k in PieceKeys(t) ensures k.stage == t.key.stage && Fed(wd, k) {
      var j :| 0 <= j < |t.members| && PieceKeys(t)[j] == k;
      assert PieceKnown(wd.tasks, t, j);
    }
  }

  lemma SecuredAll(strict: bool, a: World, b: World, c: World, ks: seq<Key>)
    requires Advanced(strict, a, b, multiset{}) && forall k :: k in ks ==> Secured(b, c, k)
    ensures forall k :: k in ks ==> Secured(a, c, k)
  {
    AdvancedSelf(strict, c);
    forall k | k in ks ensures Secured(a, c, k) {
      SecuredLater(strict, a, b, c, c, k, multiset{}, multiset{});
    }
  }
}
