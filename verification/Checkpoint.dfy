/** Block-wise training that survives crashes: after every block the whole model is saved under its round count. */
module Ckpt {
  import opened Sequences

  type Model(==, !new)

  /** `clf.fit(..., xgb_model=base)` with `n_estimators=n`: continue `base`, or start afresh, for `n` rounds. */
  type Trainer = (Option<Model>, nat) -> Model

  /** Continuing a model is the same as having trained it in one go. */
  ghost predicate Additive(train: Trainer) {
    forall m: Option<Model>, a: nat, b: nat :: a >= 1 && b >= 1 ==>
      train(Some(train(m, a)), b) == train(m, a + b)
  }

  lemma TrainsOn(train: Trainer, booster: Option<Model>, done: nat, block: nat)
    requires Additive(train) && block >= 1 && booster == if done == 0 then None else Some(train(None, done))
    ensures train(booster, block) == train(None, done + block)
  {
  }

  /** What an uninterrupted fit of `n` rounds returns; nothing is trained for no rounds. */
  function Uninterrupted(train: Trainer, n: int): Option<Model> {
    if n <= 0 then None else Some(train(None, n))
  }

  datatype Outcome = Crashed | Returned(model: Option<Model>)

  predicate IsBest(saved: map<nat, Model>, best: nat) {
    && (best == 0 || best in saved)
    && forall k :: k in saved ==> k <= best
  }

  class Checkpoint {
    /** The store's `round-<k>.json` objects by round count. */
    var saved: map<nat, Model>

    constructor ()
      ensures saved == map[]
    {
      saved := map[];
    }

    /** Every saved model is the one uninterrupted training has after that many rounds. */
    ghost predicate Valid(train: Trainer)
      reads this
    {
      forall k :: k in saved ==> saved[k] == train(None, k)
    }

    /** The latest checkpoint: the listing is scanned for the highest round. */
    method Restore() returns (booster: Option<Model>, best: nat)
      ensures IsBest(saved, best)
      ensures booster == if best == 0 then None else Some(saved[best])
    {
      booster, best := None, 0;
      var rest := saved.Keys;
      while rest != {}
        invariant rest <= saved.Keys
        invariant best == 0 || best in saved
        invariant forall j :: j in saved && j !in rest ==> j <= best
        invariant booster == if best == 0 then None else Some(saved[best])
        decreases |rest|
      {
        var k :| k in rest;
        if k > best {
          booster, best := Some(saved[k]), k;
        }
        rest := rest - {k};
      }
    }

    method Save(model: Model, rounds: nat)
      modifies this
      ensures saved == old(saved)[rounds := model]
    {
      saved := saved[rounds := model];
    }

    /**
     One attempt. `life` is how many steps the process lives (training a block is a step, saving it is one); `None`
     means it is not killed. `blocks` are the rounds of each training step, `saves` is how many checkpoints were saved.
     What an attempt trains and saves is fixed by where it starts, `rounds`, `every` and `life`, exactly.
     */
    method Fit(train: Trainer, rounds: int, every: nat, life: Option<nat>)
      returns (r: Outcome, trained: nat, ghost first: nat, ghost last: nat, ghost blocks: seq<nat>, ghost saves: nat)
      requires Additive(train) && every >= 1 && Valid(train)
      modifies this
      ensures Valid(train) && IsBest(old(saved), first) && IsBest(saved, last) && first <= last
      ensures forall k :: k in saved <==> k in old(saved) || SavedWithin(first, rounds, every, saves, k)
      ensures r.Returned? <==> life == None || Reached(first, rounds, every, life.value / 2)
      ensures r.Returned? ==> Reached(first, rounds, every, saves) && |blocks| == saves
      ensures r.Crashed? ==> saves == life.value / 2 && |blocks| == (life.value + 1) / 2
      ensures saves > 0 ==> !Reached(first, rounds, every, saves - 1)
      ensures |blocks| <= saves + 1 && forall i :: 0 <= i < |blocks| ==> blocks[i] == Block(first, rounds, every, i)
      ensures trained == Total(blocks)
      ensures r.Returned? ==> r.model == Uninterrupted(train, if first > rounds then first else rounds)
      ensures r.Returned? ==> trained == last - first && (rounds >= first ==> last == if rounds <= 0 then 0 else rounds)
      ensures r.Crashed? ==> trained <= last - first + every
    {
      hide Mark, Reached, Block, Total, SavedWithin, Additive;
      var booster, done := Restore();
      MarkIs(done, rounds, every, 0);
      NoneSaved(done, rounds, every);
      assert Total([]) == 0 by { TotalNone(); }
      first, last, trained, blocks, saves := done, done, 0, [], 0;
      if done >= rounds && booster != None {
        if life.Some? { ReachedMore(first, rounds, every, 0, life.value / 2); }
        return Returned(booster), trained, first, last, blocks, saves;
      }
      var left := life;
      while done < rounds
        invariant done == last && IsBest(saved, last) && Valid(train)
        invariant first <= last && (last <= rounds || last == first)
        invariant booster == if done == 0 then None else Some(train(None, done))
        invariant trained == last - first == Total(blocks) && |blocks| == saves
        invariant done == Mark(first, rounds, every, saves) && (saves > 0 ==> !Reached(first, rounds, every, saves - 1))
        invariant forall i :: 0 <= i < |blocks| ==> blocks[i] == Block(first, rounds, every, i)
        invariant if life == None then left == None else left.Some? && 0 <= left.value == life.value - 2 * saves
        invariant forall k :: k in saved <==> k in old(saved) || SavedWithin(first, rounds, every, saves, k)
      {
        MarkIs(first, rounds, every, saves);
        if left == Some(0) {
          return Crashed, trained, first, last, blocks, saves;
        }
        var block := if every < rounds - done then every else rounds - done;
        var model := train(booster, block);
        trained := trained + block;
        TrainsOn(train, booster, done, block);
        NextMark(first, rounds, every, saves);
        TotalSnoc(blocks, block);
        blocks := blocks + [block];
        if left == Some(1) {
          return Crashed, trained, first, last, blocks, saves;
        }
        done := done + block;
        Save(model, done);
        last := done;
        booster := Some(model);
        left := if left == None then None else Some(left.value - 2);
        SavedOneMore(first, rounds, every, saves);
        saves := saves + 1;
      }
      MarkIs(first, rounds, every, saves);
      if life.Some? { ReachedMore(first, rounds, every, saves, life.value / 2); }
      return Returned(booster), trained, first, last, blocks, saves;
    }

    /**
     A task redelivered until one attempt completes: attempt `i` dies after `lives[i]` steps, the last is not killed. Crashes
     change neither the model nor, from an empty store, which checkpoints there are in the end: one after every block.
     */
    method FitThroughCrashes(train: Trainer, rounds: int, every: nat, lives: seq<nat>)
      returns (model: Option<Model>, total: nat)
      requires Additive(train) && every >= 1 && Valid(train)
      requires forall k :: k in saved ==> k <= rounds
      modifies this
      ensures Valid(train)
      ensures model == Uninterrupted(train, rounds)
      ensures total <= (if rounds <= 0 then 0 else rounds) + |lives| * every
      ensures old(saved) == map[] ==> forall k :: k in saved <==> IsMark(rounds, every, k)
    {
      hide Mark, Reached, SavedWithin, Block, Total, Marked, IsMark;
      total := 0;
      ghost var reached: nat := 0;
      ghost var marks: nat := 0;
      SavedNone(rounds, every);
      for i := 0 to |lives|
        invariant Valid(train) && forall k :: k in saved ==> k <= rounds
        invariant forall k :: IsBest(saved, k) ==> reached <= k
        invariant total <= reached + i * every
        invariant old(saved) == map[] ==> Marked(saved, rounds, every, marks)
      {
        ghost var was := saved;
        var r, trained, first, last, blocks, saves := Fit(train, rounds, every, Some(lives[i]));
        total := total + trained;
        OneMoreBlock(i, |lives|, every);
        SavedBelow(first, rounds, every, saves);
        if old(saved) == map[] {
          MarkedOn(was, saved, rounds, every, marks, first, saves);
          marks := marks + saves;
          if r.Returned? { AllMarked(saved, rounds, every, marks); }
        }
        BestUnique(saved, last);
        if r.Returned? {
          assert last <= if rounds <= 0 then 0 else rounds;
          return r.model, total;
        }
        reached := last;
      }
      ghost var was := saved;
      var r, trained, first, last, blocks, saves := Fit(train, rounds, every, None);
      SavedBelow(first, rounds, every, saves);
      if old(saved) == map[] {
        MarkedOn(was, saved, rounds, every, marks, first, saves);
        AllMarked(saved, rounds, every, marks + saves);
      }
      total := total + trained;
      model := r.model;
    }
  }

  // ---- which checkpoints there are ----------------------------------------------------------------

  /** After `n` blocks of `every` rounds from `first` nothing is left to train. */
  predicate Reached(first: nat, rounds: int, every: nat, n: nat) { first + n * every >= rounds }

  /** Where training stands after `n` blocks, the last of them cut to `rounds`. */
  function Mark(first: nat, rounds: int, every: nat, n: nat): nat {
    if !Reached(first, rounds, every, n) then first + n * every else if first >= rounds then first else rounds
  }

  /** The rounds of the block after `n` blocks: `every`, or what is left. */
  function Block(first: nat, rounds: int, every: nat, n: nat): int {
    var left := rounds - (first + n * every);
    if every < left then every else left
  }

  ghost predicate SavedWithin(first: nat, rounds: int, every: nat, n: nat, k: nat) {
    exists i :: 1 <= i <= n && k == Mark(first, rounds, every, i)
  }

  /** One of the counts an uninterrupted fit saves at: a multiple of `every` below `rounds`, or `rounds` itself. */
  ghost predicate IsMark(rounds: int, every: nat, k: nat) {
    exists i: nat :: i >= 1 && (i - 1) * every < rounds && k == if i * every < rounds then i * every else rounds
  }

  function Total(blocks: seq<nat>): nat {
    if blocks == [] then 0 else Total(blocks[..|blocks| - 1]) + blocks[|blocks| - 1]
  }

  lemma TotalSnoc(blocks: seq<nat>, b: nat)
    ensures Total(blocks + [b]) == Total(blocks) + b
  {
    assert (blocks + [b])[..|blocks|] == blocks;
  }

  lemma Multiples(i: nat, j: nat, every: nat)
    requires i <= j
    ensures j * every == i * every + (j - i) * every && i * every <= j * every
  {
  }

  lemma ReachedMore(first: nat, rounds: int, every: nat, m: nat, n: nat)
    requires Reached(first, rounds, every, m) && m <= n
    ensures Reached(first, rounds, every, n)
  {
    Multiples(m, n, every);
  }

  lemma MarkIs(first: nat, rounds: int, every: nat, n: nat)
    ensures Mark(first, rounds, every, n) < rounds <==> !Reached(first, rounds, every, n)
    ensures Mark(first, rounds, every, 0) == first
  {
    assert n * every >= 0 && 0 * every == 0;
  }

  /** One block further. */
  lemma NextMark(first: nat, rounds: int, every: nat, n: nat)
    requires !Reached(first, rounds, every, n) && every >= 1
    ensures var left := rounds - Mark(first, rounds, every, n);
      left >= 1 && Block(first, rounds, every, n) == if every < left then every else left
    ensures Mark(first, rounds, every, n + 1) == Mark(first, rounds, every, n) + Block(first, rounds, every, n)
  {
    Multiples(n, n + 1, every);
  }

  /** No checkpoint is past `rounds`. */
  lemma SavedBelow(first: nat, rounds: int, every: nat, n: nat)
    requires n > 0 ==> !Reached(first, rounds, every, n - 1)
    ensures forall k: nat :: SavedWithin(first, rounds, every, n, k) ==> k <= rounds
  {
    forall k: nat | SavedWithin(first, rounds, every, n, k) ensures k <= rounds {
      var i :| 1 <= i <= n && k == Mark(first, rounds, every, i);
      assert (n - 1) * every >= 0;
    }
  }

  lemma NoneSaved(first: nat, rounds: int, every: nat)
    ensures forall k: nat :: !SavedWithin(first, rounds, every, 0, k)
  {
  }

  lemma TotalNone()
    ensures Total([]) == 0
  {
  }

  lemma SavedOneMore(first: nat, rounds: int, every: nat, n: nat)
    ensures forall k :: SavedWithin(first, rounds, every, n + 1, k) <==>
      SavedWithin(first, rounds, every, n, k) || k == Mark(first, rounds, every, n + 1)
  {
    hide Mark;
    forall k ensures SavedWithin(first, rounds, every, n + 1, k) <==>
      (SavedWithin(first, rounds, every, n, k) || k == Mark(first, rounds, every, n + 1)) {
      if SavedWithin(first, rounds, every, n + 1, k) {
        var i :| 1 <= i <= n + 1 && k == Mark(first, rounds, every, i);
        assert i <= n || i == n + 1;
      }
    }
  }

  /** The checkpoints are the first `n` an uninterrupted fit saves. */
  ghost predicate Marked(saved: map<nat, Model>, rounds: int, every: nat, n: nat) {
    && (n > 0 ==> !Reached(0, rounds, every, n - 1))
    && forall k :: k in saved <==> SavedWithin(0, rounds, every, n, k)
  }

  lemma SavedNone(rounds: int, every: nat)
    ensures Marked(map[], rounds, every, 0)
  {
  }

  lemma MarksGrow(rounds: int, every: nat, i: nat, n: nat)
    requires i <= n && (n > 0 ==> !Reached(0, rounds, every, n - 1))
    ensures Mark(0, rounds, every, i) <= Mark(0, rounds, every, n)
  {
    Multiples(i, n, every);
    if i < n { Multiples(i, n - 1, every); }
  }

  /** The best checkpoint is the last of them, and the next attempt goes on where it stands. */
  lemma BestMark(saved: map<nat, Model>, rounds: int, every: nat, n: nat, first: nat)
    requires Marked(saved, rounds, every, n) && IsBest(saved, first)
    ensures first == Mark(0, rounds, every, n)
  {
    hide Mark, Reached;
    MarkNought(rounds, every);
    if n == 0 {
      assert forall k :: k !in saved;
    } else {
      assert SavedWithin(0, rounds, every, n, Mark(0, rounds, every, n));
      MarkPositive(rounds, every, n);
      assert SavedWithin(0, rounds, every, n, first);
      var i :| 1 <= i <= n && first == Mark(0, rounds, every, i);
      MarksGrow(rounds, every, i, n);
    }
  }

  lemma MarkNought(rounds: int, every: nat)
    ensures Mark(0, rounds, every, 0) == 0
  {
  }

  lemma MarkPositive(rounds: int, every: nat, n: nat)
    requires n > 0 && !Reached(0, rounds, every, n - 1)
    ensures Mark(0, rounds, every, n) == 0 ==> every == 0
  {
    Multiples(n - 1, n, every);
  }

  lemma MarkShift(rounds: int, every: nat, n: nat, i: nat)
    requires !Reached(0, rounds, every, n)
    ensures Mark(Mark(0, rounds, every, n), rounds, every, i) == Mark(0, rounds, every, n + i)
    ensures Reached(Mark(0, rounds, every, n), rounds, every, i) <==> Reached(0, rounds, every, n + i)
  {
    Multiples(n, n + i, every);
  }

  /** After one more attempt the checkpoints are still the first few, `saves` more of them. */
  lemma MarkedOn(
      was: map<nat, Model>, now: map<nat, Model>, rounds: int, every: nat, n: nat, first: nat, saves: nat)
    requires Marked(was, rounds, every, n) && IsBest(was, first) && every >= 1
    requires forall k :: k in now <==> k in was || SavedWithin(first, rounds, every, saves, k)
    requires saves > 0 ==> !Reached(first, rounds, every, saves - 1)
    ensures Marked(now, rounds, every, n + saves)
    ensures Reached(first, rounds, every, saves) ==> Reached(0, rounds, every, n + saves)
  {
    hide Mark, Reached;
    BestMark(was, rounds, every, n, first);
    if Reached(0, rounds, every, n) {
      NothingLeft(rounds, every, n, saves);
      assert saves == 0;
      assert forall k :: !SavedWithin(first, rounds, every, saves, k);
    } else {
      MarkShift(rounds, every, n, saves);
      if saves > 0 { MarkShift(rounds, every, n, saves - 1); }
      forall k ensures k in now <==> SavedWithin(0, rounds, every, n + saves, k) {
        SavedShift(rounds, every, n, saves, k);
      }
    }
  }

  lemma NothingLeft(rounds: int, every: nat, n: nat, saves: nat)
    requires Reached(0, rounds, every, n)
    ensures saves > 0 ==> Reached(Mark(0, rounds, every, n), rounds, every, saves - 1)
  {
    if saves > 0 { assert (saves - 1) * every >= 0; }
  }

  lemma SavedShift(rounds: int, every: nat, n: nat, saves: nat, k: nat)
    requires !Reached(0, rounds, every, n)
    ensures SavedWithin(0, rounds, every, n + saves, k) <==>
      SavedWithin(0, rounds, every, n, k) || SavedWithin(Mark(0, rounds, every, n), rounds, every, saves, k)
  {
    hide Mark, Reached;
    var first := Mark(0, rounds, every, n);
    if SavedWithin(0, rounds, every, n + saves, k) {
      var i :| 1 <= i <= n + saves && k == Mark(0, rounds, every, i);
      if i > n {
        MarkShift(rounds, every, n, i - n);
        assert 1 <= i - n <= saves && k == Mark(first, rounds, every, i - n);
      }
    }
    if SavedWithin(first, rounds, every, saves, k) {
      var i :| 1 <= i <= saves && k == Mark(first, rounds, every, i);
      MarkShift(rounds, every, n, i);
      assert 1 <= n + i <= n + saves && k == Mark(0, rounds, every, n + i);
    }
  }

  /** When nothing is left to train the checkpoints are all those of an uninterrupted fit. */
  lemma AllMarked(saved: map<nat, Model>, rounds: int, every: nat, n: nat)
    requires Marked(saved, rounds, every, n) && Reached(0, rounds, every, n)
    ensures forall k :: k in saved <==> IsMark(rounds, every, k)
  {
    hide Mark, Reached, SavedWithin, IsMark;
    forall k: nat ensures SavedWithin(0, rounds, every, n, k) <==> IsMark(rounds, every, k) {
      if SavedWithin(0, rounds, every, n, k) { SavedIsMark(rounds, every, n, k); }
      if IsMark(rounds, every, k) { MarkIsSaved(rounds, every, n, k); }
    }
  }

  lemma SavedIsMark(rounds: int, every: nat, n: nat, k: nat)
    requires SavedWithin(0, rounds, every, n, k) && (n > 0 ==> !Reached(0, rounds, every, n - 1))
    ensures IsMark(rounds, every, k)
  {
    hide Mark, Reached;
    var i :| 1 <= i <= n && k == Mark(0, rounds, every, i);
    NoughtReached(rounds, every, i - 1, n - 1);
    NoughtMark(rounds, every, i);
  }

  lemma MarkIsSaved(rounds: int, every: nat, n: nat, k: nat)
    requires IsMark(rounds, every, k) && Reached(0, rounds, every, n)
    ensures SavedWithin(0, rounds, every, n, k)
  {
    hide Mark, Reached;
    var i: nat :| i >= 1 && (i - 1) * every < rounds && k == if i * every < rounds then i * every else rounds;
    NoughtMark(rounds, every, i);
    NoughtReached(rounds, every, i - 1, i - 1);
    if i > n {
      ReachedMore(0, rounds, every, n, i - 1);
    }
    assert 1 <= i <= n && k == Mark(0, rounds, every, i);
  }

  lemma NoughtReached(rounds: int, every: nat, i: nat, n: nat)
    requires i <= n
    ensures Reached(0, rounds, every, n) <==> n * every >= rounds
    ensures !Reached(0, rounds, every, n) ==> i * every < rounds
  {
    Multiples(i, n, every);
  }

  lemma NoughtMark(rounds: int, every: nat, i: nat)
    requires i >= 1 && (i - 1) * every < rounds
    ensures Mark(0, rounds, every, i) == if i * every < rounds then i * every else rounds
  {
    assert (i - 1) * every >= 0;
  }

  lemma OneMoreBlock(i: nat, n: nat, every: nat)
    requires i < n
    ensures i * every + every == (i + 1) * every <= n * every
  {
    assert n * every == (i + 1) * every + (n - (i + 1)) * every;
  }

  lemma BestUnique(saved: map<nat, Model>, best: nat)
    requires IsBest(saved, best)
    ensures forall k :: IsBest(saved, k) ==> k == best
  {
  }
}
