/**
 The task protocol as one state machine: the queue, the object store, the completion markers, the workers, and the
 controller's single steps on them. A run is any sequence of steps, so what holds over all runs holds for every number
 of workers and every interleaving.
 */
module Machine {
  import opened Sequences
  import opened Queue
  import S = Store
  import P = Partition

  datatype Upstream = NoReads | FromSource | FromStage(index: nat)

  /** A task: the upstream chunks it owns. A source member carries the records its reader yields. */
  datatype Task = Task(key: Key, up: Upstream, members: seq<P.Ref>, weight: real)

  type Tasks = map<Key, Task>

  /**
   What is given to a run. The stage functions say what a stage writes for a given input; they are deterministic and use
   nothing else. `found` and `cached` are the store the run starts over: the files under each chunk, and the chunks that
   have a marker.
   */
  datatype Program = Program(
    run: (nat, seq<Record>) -> seq<Record>, capRows: nat -> int, format: S.Format,
    found: map<Key, S.Objects>, cached: set<Key>)

  datatype Entry = Entry(id: string, weight: real)

  /** Where a worker is in `run_task`; a worker that is not in the map is gone. */
  datatype Worker =
    | Idle
    | Claimed(key: Key)
    | Reading(key: Key, n: nat, got: seq<Record>)
    | Writing(key: Key, parts: seq<seq<Record>>, n: nat)
    | Marked(key: Key)

  /** `dirs[k]` is what lies under `data/<stage>/<chunk>/`, by file name; `put[k]` is how many of the chunk's parts have
      been put since the run began. `tasks` are the task objects the run has made. */
  datatype World = World(
    tasks: Tasks, queue: Queue, dirs: map<Key, S.Objects>, markers: set<Key>,
    manifests: map<nat, seq<Entry>>, workers: map<nat, Worker>, put: map<Key, nat>)

  datatype Step =
    | Spawn(w: nat)
    | ClaimTask(w: nat, now: real, lease: real)
    | CheckMarker(w: nat)
    | ReadMember(w: nat)
    | Compute(w: nat)
    | PutPart(w: nat)
    | WriteMarker(w: nat)
    | AckTask(w: nat)
    | FailTask(w: nat)
    | Crash(w: nat)
    | Heartbeat(key: Key, now: real, lease: real)
    | Poll(now: real)
    | Register(task: Task)
    | WriteManifest(stage: nat, entries: seq<Entry>)
    | EnqueueTask(key: Key)
    | ResetAttempt(key: Key)
    | TakeDeadTask(key: Key)

  /** The steps of workers and clocks, as opposed to the controller's. */
  predicate IsWorkerStep(s: Step) {
    !(s.Register? || s.WriteManifest? || s.EnqueueTask? || s.ResetAttempt? || s.TakeDeadTask?)
  }

  function Busy(x: Worker): bool { !x.Idle? }

  predicate Holds(wd: World, w: nat) { w in wd.workers && Busy(wd.workers[w]) }

  function Dir(wd: World, k: Key): S.Objects { if k in wd.dirs then wd.dirs[k] else map[] }

  /** What the run found under the chunk. */
  function Found(p: Program, k: Key): S.Objects { if k in p.found then p.found[k] else map[] }

  function Put(wd: World, k: Key): nat { if k in wd.put then wd.put[k] else 0 }

  function Cap(p: Program, stage: nat): nat { if p.capRows(stage) < 1 then 1 else p.capRows(stage) }

  function MemberKey(t: Task, m: P.Ref): Key
    requires t.up.FromStage?
  {
    Key(t.up.index, m.id)
  }

  /** What a worker reads for member `i`: the parts of a finished upstream chunk, in listing order. */
  function ReadOne(wd: World, t: Task, i: nat): seq<Record>
    requires i < |t.members|
  {
    match t.up
    case NoReads => []
    case FromSource => t.members[i].params
    case FromStage(_) => S.ReadAll(Dir(wd, MemberKey(t, t.members[i])), "/")
  }

  function Moved(wd: World, w: nat, x: Worker): World { wd.(workers := wd.workers[w := x]) }

  /** Part `i` of a chunk is put. */
  function PutPartAt(p: Program, wd: World, k: Key, i: nat, data: seq<Record>): World {
    wd.(dirs := wd.dirs[k := Dir(wd, k)[S.PartKey("", i, p.format) := data]],
        put := wd.put[k := if i < Put(wd, k) then Put(wd, k) else i + 1])
  }

  /**
   One atomic step. A step that is not possible changes nothing. A heartbeat may come from anyone, at any time: also from
   the thread of a worker that has lost its lease. `Register` stands for the making of a task object.
   */
  function Apply(p: Program, wd: World, s: Step): World {
    match s
    case Spawn(w) => if w in wd.workers then wd else Moved(wd, w, Idle)
    case ClaimTask(w, now, lease) =>
      if !(w in wd.workers && wd.workers[w].Idle?) then wd else
      var next := Next(wd.queue, now);
      var wd1 := wd.(queue := Claim(wd.queue, now, lease));
      if next.None? then wd1 else Moved(wd1, w, Claimed(next.value))
    case CheckMarker(w) =>
      if !(w in wd.workers && wd.workers[w].Claimed?) then wd else
      var k := wd.workers[w].key;
      Moved(wd, w, if k in wd.markers then Marked(k) else Reading(k, 0, []))
    case ReadMember(w) =>
      if !(w in wd.workers && wd.workers[w].Reading? && wd.workers[w].key in wd.tasks) then wd else
      var x, t := wd.workers[w], wd.tasks[wd.workers[w].key];
      if x.n >= |t.members| then wd else
      Moved(wd, w, Reading(x.key, x.n + 1, x.got + ReadOne(wd, t, x.n)))
    case Compute(w) =>
      if !(w in wd.workers && wd.workers[w].Reading? && wd.workers[w].key in wd.tasks) then wd else
      var x := wd.workers[w];
      if x.n < |wd.tasks[x.key].members| then wd else
      Moved(wd, w, Writing(x.key, S.Blocks(p.run(x.key.stage, x.got), Cap(p, x.key.stage)), 0))
    case PutPart(w) =>
      if !(w in wd.workers && wd.workers[w].Writing?) then wd else
      var x := wd.workers[w];
      if x.n >= |x.parts| then wd else
      Moved(PutPartAt(p, wd, x.key, x.n, x.parts[x.n]), w, Writing(x.key, x.parts, x.n + 1))
    case WriteMarker(w) =>
      if !(w in wd.workers && wd.workers[w].Writing?) then wd else
      var x := wd.workers[w];
      if x.n < |x.parts| then wd else
      Moved(wd.(markers := wd.markers + {x.key}), w, Marked(x.key))
    case AckTask(w) =>
      if !(w in wd.workers && wd.workers[w].Marked?) then wd else
      Moved(wd.(queue := Ack(wd.queue, wd.workers[w].key)), w, Idle)
    case FailTask(w) =>
      if !Holds(wd, w) then wd else
      Moved(wd.(queue := Fail(wd.queue, wd.workers[w].key)), w, Idle)
    case Crash(w) => wd.(workers := wd.workers - {w})
    case Heartbeat(k, now, lease) => wd.(queue := Extend(wd.queue, k, now, lease))
    case Poll(now) => wd.(queue := Sweep(wd.queue, now))
    case Register(t) => wd.(tasks := wd.tasks[t.key := t])
    case WriteManifest(stage, entries) => wd.(manifests := wd.manifests[stage := entries])
    case EnqueueTask(k) => wd.(queue := Enqueue(wd.queue, k))
    case ResetAttempt(k) => wd.(queue := Reset(wd.queue, k))
    case TakeDeadTask(k) => wd.(queue := TakeDead(wd.queue, k))
  }

  function RunSteps(p: Program, wd: World, steps: seq<Step>): World
    decreases |steps|
  {
    if steps == [] then wd else RunSteps(p, Apply(p, wd, steps[0]), steps[1..])
  }

  lemma {:induction false} RunSnoc(p: Program, wd: World, steps: seq<Step>, s: Step)
    ensures RunSteps(p, wd, steps + [s]) == Apply(p, RunSteps(p, wd, steps), s)
    decreases |steps|
  {
    if steps == [] {
      assert [] + [s] == [s] && [s][1..] == [];
    } else {
      assert (steps + [s])[1..] == steps[1..] + [s];
      RunSnoc(p, Apply(p, wd, steps[0]), steps[1..], s);
    }
  }

  lemma {:induction false} RunJoined(p: Program, wd: World, h: seq<Step>, g: seq<Step>)
    ensures RunSteps(p, wd, h + g) == RunSteps(p, RunSteps(p, wd, h), g)
    decreases |h|
  {
    hide Apply;
    if h == [] {
      assert h + g == g;
    } else {
      RunJoined(p, Apply(p, wd, h[0]), h[1..], g);
      assert (h + g)[1..] == h[1..] + g;
    }
  }

  // ---- what a chunk's output is --------------------------------------------------------

  /** Every task reads tasks of an earlier stage. */
  ghost predicate WellFormed(ts: Tasks) {
    forall k :: k in ts ==> ts[k].key == k && ReadsEarlier(ts, ts[k])
  }

  ghost predicate ReadsEarlier(ts: Tasks, t: Task) {
    t.up.FromStage? ==>
      t.up.index < t.key.stage && forall i :: 0 <= i < |t.members| ==> MemberKey(t, t.members[i]) in ts
  }

  /** The directory after the first `n` parts have been put, by one clean execution. */
  function DirOf(f: S.Format, parts: seq<seq<Record>>, n: nat): S.Objects
    requires n <= |parts|
  {
    if n == 0 then map[] else DirOf(f, parts, n - 1)[S.PartKey("", n - 1, f) := parts[n - 1]]
  }

  /** What a chunk-by-chunk evaluation of the tasks reads and writes. */
  ghost function Output(p: Program, ts: Tasks, k: Key): seq<Record>
    requires WellFormed(ts) && k in ts
    decreases k.stage, 1, 0
  {
    p.run(k.stage, InputUpTo(p, ts, k, |ts[k].members|))
  }

  ghost function InputUpTo(p: Program, ts: Tasks, k: Key, n: nat): seq<Record>
    requires WellFormed(ts) && k in ts && n <= |ts[k].members|
    decreases k.stage, 0, n
  {
    if n == 0 then [] else InputUpTo(p, ts, k, n - 1) + MemberData(p, ts, k, n - 1)
  }

  ghost function MemberData(p: Program, ts: Tasks, k: Key, i: nat): seq<Record>
    requires WellFormed(ts) && k in ts && i < |ts[k].members|
    decreases k.stage, 0, i
  {
    match ts[k].up
    case NoReads => []
    case FromSource => ts[k].members[i].params
    case FromStage(j) => S.ReadAll(Held(p, ts, MemberKey(ts[k], ts[k].members[i])), "/")
  }

  /** The parts one clean execution of the task puts. */
  ghost function Parts(p: Program, ts: Tasks, k: Key): seq<seq<Record>>
    requires WellFormed(ts) && k in ts
    decreases k.stage, 2, 0
  {
    S.Blocks(Output(p, ts, k), Cap(p, k.stage))
  }

  /** The files of a finished chunk: those that were found when it had its marker already, else the parts, put over
      whatever files were found. */
  ghost function Held(p: Program, ts: Tasks, k: Key): S.Objects
    requires WellFormed(ts) && k in ts
    decreases k.stage, 3, 0
  {
    if k in p.cached then Found(p, k) else
    var parts := Parts(p, ts, k);
    Found(p, k) + DirOf(p.format, parts, |parts|)
  }

  lemma {:induction false} DirAt(f: S.Format, parts: seq<seq<Record>>, n: nat, i: nat)
    requires i < n <= |parts|
    ensures S.PartKey("", i, f) in DirOf(f, parts, n) && DirOf(f, parts, n)[S.PartKey("", i, f)] == parts[i]
  {
    hide S.PartKey;
    var name, last := S.PartKey("", i, f), S.PartKey("", n - 1, f);
    if i < n - 1 {
      DirAt(f, parts, n - 1, i);
      if name == last { S.PartKeyInjective("", i, n - 1, f); }
    }
    assert DirOf(f, parts, n) == DirOf(f, parts, n - 1)[last := parts[n - 1]];
  }

  ghost predicate IsPartName(name: string, n: nat, f: S.Format) {
    exists i :: 0 <= i < n && name == S.PartKey("", i, f)
  }

  lemma {:induction false} DirNames(f: S.Format, parts: seq<seq<Record>>, n: nat, name: string)
    requires n <= |parts| && name in DirOf(f, parts, n)
    ensures IsPartName(name, n, f)
  {
    if name != S.PartKey("", n - 1, f) {
      DirNames(f, parts, n - 1, name);
    }
  }

  lemma {:induction false} DirSize(f: S.Format, parts: seq<seq<Record>>, n: nat)
    requires n <= |parts|
    ensures |DirOf(f, parts, n)| == n
  {
    if n > 0 {
      DirSize(f, parts, n - 1);
      var name := S.PartKey("", n - 1, f);
      if name in DirOf(f, parts, n - 1) {
        DirNames(f, parts, n - 1, name);
        var i :| 0 <= i < n - 1 && name == S.PartKey("", i, f);
        S.PartKeyInjective("", i, n - 1, f);
      }
    }
  }

  /** Putting part `i` again changes nothing; putting the next part extends the prefix. */
  lemma DirOfPut(f: S.Format, parts: seq<seq<Record>>, n: nat, i: nat)
    requires i <= n <= |parts| && i < |parts|
    ensures DirOf(f, parts, n)[S.PartKey("", i, f) := parts[i]] == DirOf(f, parts, if i == n then n + 1 else n)
  {
    if i < n {
      DirAt(f, parts, n, i);
    }
  }
}
