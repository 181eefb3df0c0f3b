/** What the controller can rely on across whatever the workers do between two of its own steps. */
module Interleave {
  import opened Sequences
  import opened Queue
  import opened Machine
  import opened Soundness
  import opened Tracking

  /**
   From `a` to `b`, with the keys in `added` enqueued along the way: nothing done is undone, no chunk is lost, no dead
   letter is taken, chunks that were not enqueued stay untouched and unmarked, and (under the lease discipline) a key is
   held in no more places than it was enqueued.
   */
  ghost predicate Advanced(strict: bool, a: World, b: World, added: multiset<Key>) {
    && Later(a, b)
    && (forall k, n: nat :: n >= 1 && Safe(a, k, n) ==> Safe(b, k, n))
    && (forall k :: Count(b.queue.dlq, k) >= Count(a.queue.dlq, k))
    && (forall k :: Untouched(a, k) && added[k] == 0 ==> Untouched(b, k) && (k in b.markers <==> k in a.markers))
    && (strict ==> forall k :: Copies(b.queue, k) <= Copies(a.queue, k) + added[k])
  }

  lemma AdvancedSelf(strict: bool, a: World)
    ensures Advanced(strict, a, a, multiset{})
  {
  }

  lemma AdvancedThen(strict: bool, a: World, b: World, c: World, x: multiset<Key>, y: multiset<Key>)
    requires Advanced(strict, a, b, x) && Advanced(strict, b, c, y)
    ensures Advanced(strict, a, c, x + y)
  {
    if strict {
      forall k ensures Copies(c.queue, k) <= Copies(a.queue, k) + (x + y)[k] {
        assert Copies(b.queue, k) <= Copies(a.queue, k) + x[k];
      }
    }
    forall k | Untouched(a, k) && (x + y)[k] == 0
      ensures Untouched(c, k) && (k in c.markers <==> k in a.markers)
    {
      assert Untouched(b, k);
    }
    LaterThen(a, b, c);
  }

  lemma LaterSelf(a: World)
    ensures Later(a, a)
  {
  }

  lemma AdvancedIs(strict: bool, a: World, b: World)
    requires Advanced(strict, a, b, multiset{})
    ensures Later(a, b) && forall k :: Untouched(a, k) ==> Untouched(b, k)
  {
  }

  lemma LaterThen(a: World, b: World, c: World)
    requires Later(a, b) && Later(b, c)
    ensures Later(a, c)
  {
    forall k ensures Dir(a, k).Keys <= Dir(c, k).Keys {
      assert Dir(a, k).Keys <= Dir(b, k).Keys;
    }
  }

  /** May a worker take this step? Under the discipline a stale worker may not report a failure. */
  ghost predicate Admissible(strict: bool, wd: World, s: Step) {
    IsWorkerStep(s) && (strict ==> Disciplined(wd, s))
  }

  /** What happens of a burst of steps: those that workers may take, each where the ones before have led. */
  ghost function Admitted(p: Program, strict: bool, wd: World, burst: seq<Step>): (r: seq<Step>)
    ensures forall i :: 0 <= i < |r| ==> IsWorkerStep(r[i])
    decreases |burst|
  {
    if burst == [] then []
    else if Admissible(strict, wd, burst[0]) then [burst[0]] + Admitted(p, strict, Apply(p, wd, burst[0]), burst[1..])
    else Admitted(p, strict, wd, burst[1..])
  }

  lemma AdmittedNext(p: Program, strict: bool, wd: World, burst: seq<Step>)
    ensures burst == [] ==> Admitted(p, strict, wd, burst) == []
    ensures burst != [] && Admissible(strict, wd, burst[0]) ==>
      Admitted(p, strict, wd, burst) == [burst[0]] + Admitted(p, strict, Apply(p, wd, burst[0]), burst[1..])
    ensures burst != [] && !Admissible(strict, wd, burst[0]) ==>
      Admitted(p, strict, wd, burst) == Admitted(p, strict, wd, burst[1..])
  {
  }

  /** Without the discipline everything workers and clocks can do happens: every interleaving is some script's. */
  lemma {:induction false} EverythingHappens(p: Program, wd: World, burst: seq<Step>)
    requires forall i :: 0 <= i < |burst| ==> IsWorkerStep(burst[i])
    ensures Admitted(p, false, wd, burst) == burst
    decreases |burst|
  {
    if burst != [] { EverythingHappens(p, Apply(p, wd, burst[0]), burst[1..]); }
  }

  /** The run `h` is the controller's steps with these bursts between them, every burst played in full. */
  ghost predicate Woven(p: Program, strict: bool, wd: World, h: seq<Step>, bursts: seq<seq<Step>>)
    decreases |h| + |bursts|
  {
    || (h == [] && bursts == [])
    || (h != [] && !IsWorkerStep(h[0]) && Woven(p, strict, Apply(p, wd, h[0]), h[1..], bursts))
    || (bursts != [] &&
        var done := Admitted(p, strict, wd, bursts[0]);
        done <= h && Woven(p, strict, RunSteps(p, wd, done), h[|done|..], bursts[1..]))
  }

  /** It begins with a step of the controller, or with a burst. */
  ghost predicate BeginsWithStep(p: Program, strict: bool, wd: World, h: seq<Step>, bursts: seq<seq<Step>>) {
    h != [] && !IsWorkerStep(h[0]) && Woven(p, strict, Apply(p, wd, h[0]), h[1..], bursts)
  }

  ghost predicate BeginsWithBurst(p: Program, strict: bool, wd: World, h: seq<Step>, bursts: seq<seq<Step>>) {
    bursts != [] &&
    var done := Admitted(p, strict, wd, bursts[0]);
    done <= h && Woven(p, strict, RunSteps(p, wd, done), h[|done|..], bursts[1..])
  }

  lemma WovenCases(p: Program, strict: bool, wd: World, h: seq<Step>, bursts: seq<seq<Step>>)
    ensures Woven(p, strict, wd, h, bursts) <==>
      ((h == [] && bursts == []) || BeginsWithStep(p, strict, wd, h, bursts) || BeginsWithBurst(p, strict, wd, h, bursts))
  {
    hide Apply, RunSteps, Admitted;
  }

  /** One more step of the controller. */
  lemma {:induction false} WovenStep(p: Program, strict: bool, wd: World, h: seq<Step>, bursts: seq<seq<Step>>, s: Step)
    requires Woven(p, strict, wd, h, bursts) && !IsWorkerStep(s)
    ensures Woven(p, strict, wd, h + [s], bursts)
    decreases |h| + |bursts|
  {
    hide Apply, RunSteps, Admitted, Woven;
    WovenCases(p, strict, wd, h, bursts);
    WovenCases(p, strict, wd, h + [s], bursts);
    if h == [] && bursts == [] {
      assert (h + [s])[0] == s && (h + [s])[1..] == [];
      WovenCases(p, strict, Apply(p, wd, s), [], []);
    } else if BeginsWithStep(p, strict, wd, h, bursts) {
      WovenStep(p, strict, Apply(p, wd, h[0]), h[1..], bursts, s);
      assert (h + [s])[0] == h[0] && (h + [s])[1..] == h[1..] + [s];
    } else {
      var done := Admitted(p, strict, wd, bursts[0]);
      WovenStep(p, strict, RunSteps(p, wd, done), h[|done|..], bursts[1..], s);
      assert done <= h + [s] && (h + [s])[|done|..] == h[|done|..] + [s];
    }
  }

  /** One more burst. */
  lemma {:induction false} WovenBurst(
      p: Program, strict: bool, wd: World, h: seq<Step>, bursts: seq<seq<Step>>, burst: seq<Step>)
    requires Woven(p, strict, wd, h, bursts)
    ensures Woven(p, strict, wd, h + Admitted(p, strict, RunSteps(p, wd, h), burst), bursts + [burst])
    decreases |h| + |bursts|
  {
    hide Apply, RunSteps, Admitted, Woven;
    var more := Admitted(p, strict, RunSteps(p, wd, h), burst);
    WovenCases(p, strict, wd, h, bursts);
    WovenCases(p, strict, wd, h + more, bursts + [burst]);
    if h == [] && bursts == [] {
      assert (bursts + [burst])[0] == burst && (bursts + [burst])[1..] == [];
      assert h + more == more && more[|more|..] == [];
      StandsStill(p, wd);
      WovenCases(p, strict, RunSteps(p, wd, more), [], []);
    } else if BeginsWithStep(p, strict, wd, h, bursts) {
      FirstStep(p, wd, h);
      WovenBurst(p, strict, Apply(p, wd, h[0]), h[1..], bursts, burst);
      assert (h + more)[0] == h[0] && (h + more)[1..] == h[1..] + more;
    } else {
      var done := Admitted(p, strict, wd, bursts[0]);
      assert h == done + h[|done|..];
      RunJoined(p, wd, done, h[|done|..]);
      WovenBurst(p, strict, RunSteps(p, wd, done), h[|done|..], bursts[1..], burst);
      assert (bursts + [burst])[0] == bursts[0] && (bursts + [burst])[1..] == bursts[1..] + [burst];
      assert done <= h + more && (h + more)[|done|..] == h[|done|..] + more;
    }
  }

  lemma StandsStill(p: Program, wd: World)
    ensures RunSteps(p, wd, []) == wd
  {
  }

  lemma FirstStep(p: Program, wd: World, h: seq<Step>)
    requires h != []
    ensures RunSteps(p, wd, h) == RunSteps(p, Apply(p, wd, h[0]), h[1..])
  {
  }

  lemma WorkerAdvanced(p: Program, strict: bool, wd: World, s: Step)
    requires Inv(p, wd) && Admissible(strict, wd, s)
    ensures Inv(p, Apply(p, wd, s)) && Advanced(strict, wd, Apply(p, wd, s), multiset{})
    ensures Apply(p, wd, s).tasks == wd.tasks && Apply(p, wd, s).manifests == wd.manifests
  {
    var b := Apply(p, wd, s);
    StepOk(p, wd, s);
    StepLater(p, wd, s);
    forall k, n: nat | n >= 1 && Safe(wd, k, n) ensures Safe(b, k, n) {
      StepSafe(p, wd, s, k, n);
    }
    forall k ensures Count(b.queue.dlq, k) >= Count(wd.queue.dlq, k) {
      StepQueue(p, wd, s);
      if !s.AckTask? { StepKept(wd, s, k); }
    }
    forall k | Untouched(wd, k) ensures Untouched(b, k) && (k in b.markers <==> k in wd.markers) {
      StepUntouched(p, wd, s, k);
      StepUnmarked(p, wd, s, k);
    }
    if strict {
      forall k ensures Copies(b.queue, k) <= Copies(wd.queue, k) {
        StepCopies(p, wd, s, k);
      }
    }
    WorkerFrame(p, wd, s);
  }

  lemma WorkerFrame(p: Program, wd: World, s: Step)
    requires IsWorkerStep(s)
    ensures Apply(p, wd, s).tasks == wd.tasks && Apply(p, wd, s).manifests == wd.manifests
  {
  }

  /** The controller's steps on tasks, manifests and counters. */
  lemma QuietAdvanced(p: Program, strict: bool, wd: World, s: Step)
    requires Inv(p, wd) && Allowed(wd, s) && (s.Register? || s.WriteManifest? || s.ResetAttempt?)
    ensures Inv(p, Apply(p, wd, s)) && Advanced(strict, wd, Apply(p, wd, s), multiset{})
  {
    StepOk(p, wd, s);
    StepLater(p, wd, s);
    var b := Apply(p, wd, s);
    assert b.queue.ready == wd.queue.ready && b.queue.inflight == wd.queue.inflight && b.queue.dlq == wd.queue.dlq;
  }

  lemma EnqueueAdvanced(p: Program, strict: bool, wd: World, k: Key)
    requires Inv(p, wd) && Fed(wd, k)
    ensures var b := Apply(p, wd, EnqueueTask(k));
      && Inv(p, b) && Advanced(strict, wd, b, multiset{k})
      && forall n: nat :: n >= 1 && Count(wd.queue.dlq, k) >= n - 1 ==> Safe(b, k, n)
  {
    EnqueueOk(p, wd, k);
    StepLater(p, wd, EnqueueTask(k));
  }

  lemma TakeCounts(q: Queue, d: Key, k: Key)
    ensures var t := TakeDead(q, d);
      && Live(t, k) == Live(q, k)
      && Count(t.dlq, k) == Count(q.dlq, k) - (if k == d && Count(q.dlq, d) >= 1 then 1 else 0)
  {
  }

  /** One dead letter was taken: that key is in one place fewer, every other key is where it was. */
  ghost predicate Taken(a: World, b: World, d: Key) {
    && (forall k :: Live(b.queue, k) == Live(a.queue, k))
    && (forall k :: Count(b.queue.dlq, k) == Count(a.queue.dlq, k) - (if k == d && Count(a.queue.dlq, d) >= 1 then 1 else 0))
    && b == a.(queue := b.queue)
  }

  lemma TakeEffect(p: Program, wd: World, d: Key)
    requires Inv(p, wd)
    ensures Inv(p, Apply(p, wd, TakeDeadTask(d))) && Taken(wd, Apply(p, wd, TakeDeadTask(d)), d)
  {
    hide Inv, TakeDead;
    TakeOk(p, wd, d);
    var t := TakeDead(wd.queue, d);
    forall k
      ensures Live(t, k) == Live(wd.queue, k)
      ensures Count(t.dlq, k) == Count(wd.queue.dlq, k) - (if k == d && Count(wd.queue.dlq, d) >= 1 then 1 else 0)
    {
      TakeCounts(wd.queue, d, k);
    }
  }

  lemma TakenSafe(a: World, b: World, d: Key, k: Key, n: nat)
    requires Taken(a, b, d) && n >= 1 && Safe(a, k, if k == d then n + 1 else n)
    ensures Safe(b, k, n)
  {
    assert Live(b.queue, k) == Live(a.queue, k);
  }

  lemma TakenLater(a: World, b: World, d: Key)
    requires Taken(a, b, d)
    ensures Later(a, b) && forall k :: Untouched(a, k) ==> Untouched(b, k)
  {
    forall k | Untouched(a, k) ensures Untouched(b, k) {
      assert Live(b.queue, k) == Live(a.queue, k);
    }
  }
}
