/**
 Marker soundness: whatever workers do, in every reachable state what the run has put for a chunk is a prefix of what one
 clean execution of it puts, over the files the run found; a completion marker means that all of it is there, or that the
 run found the marker and has left the chunk alone. No lease discipline is assumed.
 */
module Soundness {
  import opened Sequences
  import opened Queue
  import opened Machine
  import S = Store

  /** The task is known and every upstream chunk it reads is finished. */
  ghost predicate Fed(wd: World, k: Key) {
    && k in wd.tasks
    && (wd.tasks[k].up.FromStage? ==>
          forall i :: 0 <= i < |wd.tasks[k].members| ==> MemberKey(wd.tasks[k], wd.tasks[k].members[i]) in wd.markers)
  }

  /** A chunk that was found finished is as it was found. Of any other a prefix of its parts was put over what was found;
      with a marker, all of them. */
  ghost predicate ChunkOk(p: Program, wd: World, k: Key)
    requires WellFormed(wd.tasks)
  {
    if k in p.cached then Dir(wd, k) == Found(p, k)
    else if k in wd.tasks then
      var parts, n := Parts(p, wd.tasks, k), Put(wd, k);
      n <= |parts| && Dir(wd, k) == Found(p, k) + DirOf(p.format, parts, n) && (k in wd.markers ==> n == |parts|)
    else
      Dir(wd, k) == Found(p, k) && Put(wd, k) == 0 && k !in wd.markers
  }

  /** A worker's private state agrees with a clean execution of its task, which was not found finished. */
  ghost predicate WorkerOk(p: Program, wd: World, x: Worker)
    requires WellFormed(wd.tasks)
  {
    match x
    case Idle => true
    case Claimed(k) => Fed(wd, k)
    case Reading(k, n, got) =>
      k !in p.cached && Fed(wd, k) && n <= |wd.tasks[k].members| && got == InputUpTo(p, wd.tasks, k, n)
    case Writing(k, parts, n) =>
      k !in p.cached && Fed(wd, k) && parts == Parts(p, wd.tasks, k) && n <= |parts| && n <= Put(wd, k)
    case Marked(k) => Fed(wd, k) && k in wd.markers
  }

  ghost predicate QueueOk(wd: World, q: Queue) {
    DistinctLeases(q.inflight) && forall k :: Copies(q, k) >= 1 ==> Fed(wd, k)
  }

  ghost predicate StoreOk(p: Program, wd: World) {
    WellFormed(wd.tasks) && p.cached <= wd.markers && forall k :: ChunkOk(p, wd, k)
  }

  ghost predicate Inv(p: Program, wd: World) {
    && StoreOk(p, wd)
    && QueueOk(wd, wd.queue)
    && forall w :: w in wd.workers ==> WorkerOk(p, wd, wd.workers[w])
  }

  // ---- frames ----------------------------------------------------------------------------

  /** Same tasks, no marker lost, no part lost. */
  ghost predicate Grows(a: World, b: World) {
    && a.tasks == b.tasks && a.markers <= b.markers
    && forall k :: Put(a, k) <= Put(b, k) && Dir(a, k).Keys <= Dir(b, k).Keys
  }

  lemma WorkerGrows(p: Program, a: World, b: World, x: Worker)
    requires WellFormed(a.tasks) && Grows(a, b) && WorkerOk(p, a, x)
    ensures WorkerOk(p, b, x)
  {
  }

  /** A step that touches the queue and one worker. */
  lemma QueueStep(p: Program, wd: World, q: Queue, w: nat, x: Worker)
    requires Inv(p, wd) && QueueOk(wd, q) && WorkerOk(p, wd, x)
    ensures Inv(p, Moved(wd.(queue := q), w, x))
  {
    var b := Moved(wd.(queue := q), w, x);
    forall k ensures ChunkOk(p, b, k) { assert ChunkOk(p, wd, k); }
    forall k | Copies(q, k) >= 1 ensures Fed(b, k) { assert Fed(wd, k); }
    forall v | v in b.workers ensures WorkerOk(p, b, b.workers[v]) {
      WorkerGrows(p, wd, b, b.workers[v]);
    }
  }

  /** A step that touches the queue alone. */
  lemma QueueOnlyStep(p: Program, wd: World, q: Queue)
    requires Inv(p, wd) && QueueOk(wd, q)
    ensures Inv(p, wd.(queue := q))
  {
    var b := wd.(queue := q);
    forall k ensures ChunkOk(p, b, k) { assert ChunkOk(p, wd, k); }
    forall k | Copies(q, k) >= 1 ensures Fed(b, k) { assert Fed(wd, k); }
    forall v | v in b.workers ensures WorkerOk(p, b, b.workers[v]) {
      WorkerGrows(p, wd, b, wd.workers[v]);
    }
  }

  lemma QueueFewer(wd: World, q: Queue, q': Queue)
    requires QueueOk(wd, q) && DistinctLeases(q'.inflight)
    requires forall k :: Copies(q', k) >= 1 ==> Copies(q, k) >= 1 || Fed(wd, k)
    ensures QueueOk(wd, q')
  {
  }

  // ---- the steps ------------------------------------------------------------------------

  lemma ClaimOk(p: Program, wd: World, w: nat, now: real, lease: real)
    requires Inv(p, wd)
    ensures Inv(p, Apply(p, wd, ClaimTask(w, now, lease)))
  {
    if w in wd.workers && wd.workers[w].Idle? {
      var q, q' := wd.queue, Claim(wd.queue, now, lease);
      forall k | Copies(q', k) >= 1 ensures Copies(q, k) >= 1 {
        ClaimCounts(q, now, lease, k);
      }
      ClaimCounts(q, now, lease, Key(0, ""));
      QueueFewer(wd, q, q');
      var next := Next(q, now);
      if next.Some? {
        SweepCounts(q, now, next.value);
        assert next.value in multiset(Sweep(q, now).ready);
        QueueStep(p, wd, q', w, Claimed(next.value));
      } else {
        QueueOnlyStep(p, wd, q');
      }
    }
  }

  lemma FailOk(p: Program, wd: World, w: nat)
    requires Inv(p, wd)
    ensures Inv(p, Apply(p, wd, FailTask(w)))
  {
    if Holds(wd, w) {
      var q, k := wd.queue, wd.workers[w].key;
      FailLeases(q, k);
      assert WorkerOk(p, wd, wd.workers[w]);
      forall x | Copies(Fail(q, k), x) >= 1 ensures Copies(q, x) >= 1 || Fed(wd, x) {
        FailCounts(q, k, x);
      }
      QueueFewer(wd, q, Fail(q, k));
      QueueStep(p, wd, Fail(q, k), w, Idle);
    }
  }

  lemma AckOk(p: Program, wd: World, w: nat)
    requires Inv(p, wd)
    ensures Inv(p, Apply(p, wd, AckTask(w)))
  {
    if w in wd.workers && wd.workers[w].Marked? {
      var q, k := wd.queue, wd.workers[w].key;
      PopDistinct(q.inflight, k);
      QueueFewer(wd, q, Ack(q, k));
      QueueStep(p, wd, Ack(q, k), w, Idle);
    }
  }

  lemma HeartbeatOk(p: Program, wd: World, k: Key, now: real, lease: real)
    requires Inv(p, wd)
    ensures Inv(p, Apply(p, wd, Heartbeat(k, now, lease)))
  {
    var q := wd.queue;
    var q' := Extend(q, k, now, lease);
    AssignDistinct(q.inflight, k, now + lease);
    forall x ensures Copies(q', x) == Copies(q, x) {}
    QueueFewer(wd, q, q');
    QueueOnlyStep(p, wd, q');
  }

  lemma PollOk(p: Program, wd: World, now: real)
    requires Inv(p, wd)
    ensures Inv(p, Apply(p, wd, Poll(now)))
  {
    forall x ensures Copies(Sweep(wd.queue, now), x) == Copies(wd.queue, x) {
      SweepCounts(wd.queue, now, x);
    }
    SweepCounts(wd.queue, now, Key(0, ""));
    QueueFewer(wd, wd.queue, Sweep(wd.queue, now));
    QueueOnlyStep(p, wd, Sweep(wd.queue, now));
  }

  /** A finished upstream chunk reads back as what its clean execution wrote. */
  lemma ReadOneIs(p: Program, wd: World, k: Key, i: nat)
    requires StoreOk(p, wd) && Fed(wd, k) && i < |wd.tasks[k].members|
    ensures ReadOne(wd, wd.tasks[k], i) == MemberData(p, wd.tasks, k, i)
  {
    var t := wd.tasks[k];
    if t.up.FromStage? {
      assert ChunkOk(p, wd, MemberKey(t, t.members[i]));
    }
  }

  lemma LocalStep(p: Program, wd: World, w: nat, x: Worker)
    requires Inv(p, wd) && WorkerOk(p, wd, x)
    ensures Inv(p, Moved(wd, w, x))
  {
    QueueStep(p, wd, wd.queue, w, x);
    assert wd.(queue := wd.queue) == wd;
  }

  lemma ReadOk(p: Program, wd: World, w: nat)
    requires Inv(p, wd)
    ensures Inv(p, Apply(p, wd, ReadMember(w)))
    ensures Inv(p, Apply(p, wd, CheckMarker(w)))
    ensures Inv(p, Apply(p, wd, Compute(w)))
    ensures Inv(p, Apply(p, wd, Spawn(w)))
  {
    if w !in wd.workers {
      LocalStep(p, wd, w, Idle);
    } else {
      var x := wd.workers[w];
      assert WorkerOk(p, wd, x);
      if x.Claimed? {
        LocalStep(p, wd, w, if x.key in wd.markers then Marked(x.key) else Reading(x.key, 0, []));
      } else if x.Reading? && x.n < |wd.tasks[x.key].members| {
        ReadOneIs(p, wd, x.key, x.n);
        LocalStep(p, wd, w, Reading(x.key, x.n + 1, x.got + ReadOne(wd, wd.tasks[x.key], x.n)));
      } else if x.Reading? {
        LocalStep(p, wd, w, Writing(x.key, Parts(p, wd.tasks, x.key), 0));
      }
    }
  }

  /** A step that touches the store alone. */
  lemma StoreStep(p: Program, a: World, b: World)
    requires Inv(p, a) && Grows(a, b) && a.queue == b.queue && a.workers == b.workers
    requires forall k :: ChunkOk(p, b, k)
    ensures Inv(p, b)
  {
    forall k | Copies(b.queue, k) >= 1 ensures Fed(b, k) { assert Fed(a, k); }
    forall v | v in b.workers ensures WorkerOk(p, b, b.workers[v]) {
      WorkerGrows(p, a, b, a.workers[v]);
    }
  }

  /** Putting a part under its name, when the parts before it are there. */
  lemma PutPartOk(p: Program, wd: World, k: Key, i: nat) returns (b: World)
    requires Inv(p, wd) && k in wd.tasks && k !in p.cached && i < |Parts(p, wd.tasks, k)| && i <= Put(wd, k)
    ensures b == PutPartAt(p, wd, k, i, Parts(p, wd.tasks, k)[i])
    ensures Inv(p, b) && Grows(wd, b) && i + 1 <= Put(b, k)
  {
    hide DirOf, Parts, ChunkOk, S.PartKey, QueueOk, WorkerOk, ReadsEarlier;
    var data := Parts(p, wd.tasks, k)[i];
    b := PutPartAt(p, wd, k, i, data);
    PutFrame(p, wd, k, i, data);
    forall j ensures Put(wd, j) <= Put(b, j) && Dir(wd, j).Keys <= Dir(b, j).Keys && ChunkOk(p, b, j) {
      assert ChunkOk(p, wd, j);
      if j == k { PutChunk(p, wd, k, i); } else { PutElsewhere(p, wd, k, i, data, j); }
    }
    StoreStep(p, wd, b);
  }

  lemma PutFrame(p: Program, wd: World, k: Key, i: nat, data: seq<Record>)
    ensures var b := PutPartAt(p, wd, k, i, data);
      && b.queue == wd.queue && b.workers == wd.workers && b.tasks == wd.tasks && b.manifests == wd.manifests
      && b.markers == wd.markers && i + 1 <= Put(b, k)
  {
  }

  /** The chunk whose part is put. */
  lemma PutChunk(p: Program, wd: World, k: Key, i: nat)
    requires WellFormed(wd.tasks) && ChunkOk(p, wd, k)
    requires k in wd.tasks && k !in p.cached && i < |Parts(p, wd.tasks, k)| && i <= Put(wd, k)
    ensures var b := PutPartAt(p, wd, k, i, Parts(p, wd.tasks, k)[i]);
      ChunkOk(p, b, k) && Put(wd, k) <= Put(b, k) && Dir(wd, k).Keys <= Dir(b, k).Keys
  {
    hide DirOf, Parts, S.PartKey;
    PutOver(p.format, Found(p, k), Parts(p, wd.tasks, k), Put(wd, k), i);
  }

  lemma PutElsewhere(p: Program, wd: World, k: Key, i: nat, data: seq<Record>, j: Key)
    requires WellFormed(wd.tasks) && ChunkOk(p, wd, j) && j != k
    ensures var b := PutPartAt(p, wd, k, i, data);
      ChunkOk(p, b, j) && Put(wd, j) == Put(b, j) && Dir(wd, j) == Dir(b, j)
  {
    hide DirOf, Parts, S.PartKey;
    var b := PutPartAt(p, wd, k, i, data);
    assert Dir(b, j) == Dir(wd, j) && Put(b, j) == Put(wd, j);
  }

  /** The same over what was there before. */
  lemma PutOver(f: S.Format, was: S.Objects, parts: seq<seq<Record>>, n: nat, i: nat)
    requires i <= n <= |parts| && i < |parts|
    ensures (was + DirOf(f, parts, n))[S.PartKey("", i, f) := parts[i]] == was + DirOf(f, parts, if i == n then n + 1 else n)
  {
    hide DirOf;
    DirOfPut(f, parts, n, i);
    PutLast(was, DirOf(f, parts, n), S.PartKey("", i, f), parts[i]);
  }

  lemma PutLast<K, V>(a: map<K, V>, b: map<K, V>, k: K, v: V)
    ensures (a + b)[k := v] == a + b[k := v]
  {
  }

  /** Every part a worker puts is the part a clean execution puts there: a second execution changes nothing. */
  lemma PutOk(p: Program, wd: World, w: nat)
    requires Inv(p, wd)
    ensures Inv(p, Apply(p, wd, PutPart(w))) && Grows(wd, Apply(p, wd, PutPart(w)))
  {
    if w in wd.workers && wd.workers[w].Writing? && wd.workers[w].n < |wd.workers[w].parts| {
      var x := wd.workers[w];
      hide PutPartAt, QueueOk, ChunkOk, DirOf, Parts;
      assert WorkerOk(p, wd, x);
      var b := PutPartOk(p, wd, x.key, x.n);
      WorkerGrows(p, wd, b, x);
      LocalStep(p, b, w, Writing(x.key, x.parts, x.n + 1));
    }
  }

  /** A marker is written when the last part is stored. */
  lemma MarkOk(p: Program, wd: World, w: nat)
    requires Inv(p, wd)
    ensures Inv(p, Apply(p, wd, WriteMarker(w))) && Grows(wd, Apply(p, wd, WriteMarker(w)))
  {
    hide DirOf;
    if w in wd.workers && wd.workers[w].Writing? && wd.workers[w].n >= |wd.workers[w].parts| {
      var x := wd.workers[w];
      var b := wd.(markers := wd.markers + {x.key});
      assert WorkerOk(p, wd, x) && ChunkOk(p, wd, x.key);
      forall j ensures ChunkOk(p, b, j) { assert ChunkOk(p, wd, j); }
      StoreStep(p, wd, b);
      LocalStep(p, b, w, Marked(x.key));
    }
  }

  lemma CrashOk(p: Program, wd: World, w: nat)
    requires Inv(p, wd)
    ensures Inv(p, Apply(p, wd, Crash(w)))
  {
    var b := Apply(p, wd, Crash(w));
    forall k ensures ChunkOk(p, b, k) { assert ChunkOk(p, wd, k); }
    forall k | Copies(b.queue, k) >= 1 ensures Fed(b, k) { assert Fed(wd, k); }
    forall v | v in b.workers ensures WorkerOk(p, b, b.workers[v]) {
      WorkerGrows(p, wd, b, wd.workers[v]);
    }
  }

  // ---- the controller's steps --------------------------------------------------------------

  /** Two registries have no key in common for different tasks. */
  ghost predicate Agree(ts: Tasks, ts': Tasks) {
    forall k :: k in ts && k in ts' ==> ts'[k] == ts[k]
  }

  /** What a task produces depends on the tasks it reads, however indirectly, and on no others. */
  lemma {:induction false} OutputStable(p: Program, ts: Tasks, ts': Tasks, k: Key)
    requires WellFormed(ts) && WellFormed(ts') && k in ts && k in ts' && Agree(ts, ts')
    ensures Output(p, ts, k) == Output(p, ts', k) && Held(p, ts, k) == Held(p, ts', k)
    decreases k.stage, 1, 0
  {
    InputStable(p, ts, ts', k, |ts[k].members|);
  }

  lemma {:induction false} InputStable(p: Program, ts: Tasks, ts': Tasks, k: Key, n: nat)
    requires WellFormed(ts) && WellFormed(ts') && k in ts && k in ts' && Agree(ts, ts') && n <= |ts[k].members|
    ensures InputUpTo(p, ts, k, n) == InputUpTo(p, ts', k, n)
    decreases k.stage, 0, n
  {
    if n > 0 {
      InputStable(p, ts, ts', k, n - 1);
      if ts[k].up.FromStage? {
        assert ReadsEarlier(ts, ts[k]) && ReadsEarlier(ts', ts'[k]);
        OutputStable(p, ts, ts', MemberKey(ts[k], ts[k].members[n - 1]));
      }
    }
  }

  /** A task may be made known when its key is new or names the same task, and what it reads is known. */
  ghost predicate Registrable(wd: World, t: Task) {
    ReadsEarlier(wd.tasks, t) && (t.key in wd.tasks ==> wd.tasks[t.key] == t)
  }

  lemma RegisterWorker(p: Program, a: World, b: World, x: Worker)
    requires WellFormed(a.tasks) && WellFormed(b.tasks) && WorkerOk(p, a, x)
    requires b == a.(tasks := b.tasks) && forall j :: j in a.tasks ==> j in b.tasks && b.tasks[j] == a.tasks[j]
    ensures WorkerOk(p, b, x)
  {
    match x {
      case Idle =>
      case Claimed(k) =>
      case Reading(k, n, got) => InputStable(p, a.tasks, b.tasks, k, n);
      case Writing(k, parts, n) => OutputStable(p, a.tasks, b.tasks, k);
      case Marked(k) =>
    }
  }

  lemma RegisterChunk(p: Program, a: World, b: World, t: Task, k: Key)
    requires StoreOk(p, a) && WellFormed(b.tasks) && ChunkOk(p, a, k) && Registrable(a, t)
    requires b == a.(tasks := a.tasks[t.key := t])
    ensures ChunkOk(p, b, k)
  {
    hide Output;
    if k in a.tasks {
      OutputStable(p, a.tasks, b.tasks, k);
    }
  }

  lemma RegisterOk(p: Program, wd: World, t: Task)
    requires Inv(p, wd) && Registrable(wd, t)
    ensures Inv(p, Apply(p, wd, Register(t)))
  {
    hide ChunkOk;
    var b := Apply(p, wd, Register(t));
    forall k | k in b.tasks ensures b.tasks[k].key == k && ReadsEarlier(b.tasks, b.tasks[k]) {
      if k != t.key { assert ReadsEarlier(wd.tasks, wd.tasks[k]); }
    }
    forall k ensures ChunkOk(p, b, k) {
      RegisterChunk(p, wd, b, t, k);
    }
    forall k | Copies(b.queue, k) >= 1 ensures Fed(b, k) { assert Fed(wd, k); }
    forall v | v in b.workers ensures WorkerOk(p, b, b.workers[v]) {
      RegisterWorker(p, wd, b, wd.workers[v]);
    }
  }

  lemma ManifestOk(p: Program, wd: World, stage: nat, entries: seq<Entry>)
    requires Inv(p, wd)
    ensures Inv(p, Apply(p, wd, WriteManifest(stage, entries)))
  {
    var b := Apply(p, wd, WriteManifest(stage, entries));
    forall k ensures ChunkOk(p, b, k) { assert ChunkOk(p, wd, k); }
    StoreStep(p, wd, b);
  }

  lemma EnqueueOk(p: Program, wd: World, k: Key)
    requires Inv(p, wd) && Fed(wd, k)
    ensures Inv(p, Apply(p, wd, EnqueueTask(k)))
  {
    QueueFewer(wd, wd.queue, Enqueue(wd.queue, k));
    QueueOnlyStep(p, wd, Enqueue(wd.queue, k));
  }

  lemma ResetOk(p: Program, wd: World, k: Key)
    requires Inv(p, wd)
    ensures Inv(p, Apply(p, wd, ResetAttempt(k)))
  {
    QueueFewer(wd, wd.queue, Reset(wd.queue, k));
    QueueOnlyStep(p, wd, Reset(wd.queue, k));
  }

  lemma TakeOk(p: Program, wd: World, k: Key)
    requires Inv(p, wd)
    ensures Inv(p, Apply(p, wd, TakeDeadTask(k)))
  {
    QueueFewer(wd, wd.queue, TakeDead(wd.queue, k));
    QueueOnlyStep(p, wd, TakeDead(wd.queue, k));
  }

  /** What the controller must see to before two of its steps; workers may always step. */
  ghost predicate Allowed(wd: World, s: Step) {
    && (s.Register? ==> Registrable(wd, s.task))
    && (s.EnqueueTask? ==> Fed(wd, s.key))
  }

  lemma WorkersMay(wd: World, s: Step)
    requires IsWorkerStep(s)
    ensures Allowed(wd, s)
  {
  }

  lemma StepOk(p: Program, wd: World, s: Step)
    requires Inv(p, wd) && Allowed(wd, s)
    ensures Inv(p, Apply(p, wd, s))
  {
    match s {
      case Spawn(w) => ReadOk(p, wd, w);
      case ClaimTask(w, now, lease) => ClaimOk(p, wd, w, now, lease);
      case CheckMarker(w) => ReadOk(p, wd, w);
      case ReadMember(w) => ReadOk(p, wd, w);
      case Compute(w) => ReadOk(p, wd, w);
      case PutPart(w) => PutOk(p, wd, w);
      case WriteMarker(w) => MarkOk(p, wd, w);
      case AckTask(w) => AckOk(p, wd, w);
      case FailTask(w) => FailOk(p, wd, w);
      case Crash(w) => CrashOk(p, wd, w);
      case Heartbeat(k, now, lease) => HeartbeatOk(p, wd, k, now, lease);
      case Poll(now) => PollOk(p, wd, now);
      case Register(t) => RegisterOk(p, wd, t);
      case WriteManifest(stage, entries) => ManifestOk(p, wd, stage, entries);
      case EnqueueTask(k) => EnqueueOk(p, wd, k);
      case ResetAttempt(k) => ResetOk(p, wd, k);
      case TakeDeadTask(k) => TakeOk(p, wd, k);
    }
  }

  ghost predicate AllAllowed(p: Program, wd: World, steps: seq<Step>)
    decreases |steps|
  {
    steps == [] || (Allowed(wd, steps[0]) && AllAllowed(p, Apply(p, wd, steps[0]), steps[1..]))
  }

  lemma {:induction false} AllowedSnoc(p: Program, wd: World, steps: seq<Step>, s: Step)
    requires AllAllowed(p, wd, steps) && Allowed(RunSteps(p, wd, steps), s)
    ensures AllAllowed(p, wd, steps + [s])
    decreases |steps|
  {
    if steps == [] {
      assert [] + [s] == [s] && [s][1..] == [];
    } else {
      assert (steps + [s])[1..] == steps[1..] + [s];
      AllowedSnoc(p, Apply(p, wd, steps[0]), steps[1..], s);
    }
  }

  /** Marker soundness over every run. */
  lemma {:induction false} RunsAreSound(p: Program, wd: World, steps: seq<Step>)
    requires Inv(p, wd) && AllAllowed(p, wd, steps)
    ensures Inv(p, RunSteps(p, wd, steps))
    decreases |steps|
  {
    if steps != [] {
      StepOk(p, wd, steps[0]);
      RunsAreSound(p, Apply(p, wd, steps[0]), steps[1..]);
    }
  }

  /** No marker and no file is ever lost, and no known task changes. */
  ghost predicate Later(a: World, b: World) {
    && a.markers <= b.markers
    && (forall k :: Dir(a, k).Keys <= Dir(b, k).Keys)
    && forall k :: k in a.tasks ==> k in b.tasks && b.tasks[k] == a.tasks[k]
  }

  /** What the other steps do to the store and to what is known. */
  lemma StepFrame(p: Program, wd: World, s: Step)
    requires !s.PutPart? && !s.WriteMarker?
    ensures Apply(p, wd, s).dirs == wd.dirs && Apply(p, wd, s).markers == wd.markers
    ensures Apply(p, wd, s).tasks == if s.Register? then wd.tasks[s.task.key := s.task] else wd.tasks
  {
    hide Claim, Next, Sweep, Fail, Extend, Ack, Enqueue, Reset, TakeDead, Cap, ReadOne, S.Blocks;
  }

  lemma {:induction false} StepLater(p: Program, wd: World, s: Step)
    requires Inv(p, wd) && Allowed(wd, s)
    ensures Later(wd, Apply(p, wd, s))
  {
    hide Inv, StoreOk, Apply;
    if s.PutPart? {
      PutOk(p, wd, s.w);
    } else if s.WriteMarker? {
      MarkOk(p, wd, s.w);
    } else {
      StepFrame(p, wd, s);
    }
  }

  /** In a sound world a marked chunk holds exactly the files of one clean execution over what was found, or, if it was
      found finished, those that were found. */
  lemma MarkedChunk(p: Program, wd: World, k: Key)
    requires StoreOk(p, wd) && k in wd.markers && k in wd.tasks
    ensures Dir(wd, k) == Held(p, wd.tasks, k)
  {
    assert ChunkOk(p, wd, k);
  }
}
