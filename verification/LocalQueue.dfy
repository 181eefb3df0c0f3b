/** The queue object the workers and the controller share. Times are parameters; the lock makes every method atomic. */
module LocalQueue {
  import opened Sequences
  import Q = Queue

  /** A task object. Its key is globally unique; the queue counts its deliveries in place. */
  class Task {
    const key: Q.Key
    var attempt: nat

    constructor (key: Q.Key)
      ensures this.key == key && attempt == 0
    {
      this.key, attempt := key, 0;
    }
  }

  /** One entry of the `_inflight` dict, under `task.key`. */
  datatype Entry = Entry(task: Task, deadline: real)

  /** `d.pop(k, None)` */
  function PopEntry(es: seq<Entry>, k: Q.Key): (r: seq<Entry>)
    ensures forall e :: e in r ==> e in es
  {
    if es == [] then [] else
    if es[0].task.key == k then PopEntry(es[1..], k) else [es[0]] + PopEntry(es[1..], k)
  }

  /** `d[e.task.key] = e` */
  function AssignEntry(es: seq<Entry>, e: Entry): (r: seq<Entry>)
    ensures forall x :: x in r ==> x in es || x == e
  {
    if es == [] then [e]
    else if es[0].task.key == e.task.key then [e] + es[1..]
    else [es[0]] + AssignEntry(es[1..], e)
  }

  /** `d.get(k)` */
  function Lookup(es: seq<Entry>, k: Q.Key): (r: Option<Entry>)
    ensures r.Some? ==> r.value in es && r.value.task.key == k
  {
    if es == [] then None else if es[0].task.key == k then Some(es[0]) else Lookup(es[1..], k)
  }

  ghost predicate SameLeases(es: seq<Entry>, ls: seq<Q.Lease>) {
    |es| == |ls| && forall i :: 0 <= i < |es| ==> ls[i] == Q.Lease(es[i].task.key, es[i].deadline)
  }

  ghost predicate SameKeys(ts: seq<Task>, ks: seq<Q.Key>) {
    |ts| == |ks| && forall i :: 0 <= i < |ts| ==> ks[i] == ts[i].key
  }

  lemma {:induction false} PopSame(es: seq<Entry>, ls: seq<Q.Lease>, k: Q.Key)
    requires SameLeases(es, ls)
    ensures SameLeases(PopEntry(es, k), Q.Pop(ls, k))
  {
    if es != [] {
      PopSame(es[1..], ls[1..], k);
    }
  }

  lemma {:induction false} AssignSame(es: seq<Entry>, ls: seq<Q.Lease>, e: Entry)
    requires SameLeases(es, ls)
    ensures SameLeases(AssignEntry(es, e), Q.Assign(ls, e.task.key, e.deadline))
  {
    if es != [] {
      AssignSame(es[1..], ls[1..], e);
    }
  }

  lemma {:induction false} LookupSame(es: seq<Entry>, ls: seq<Q.Lease>, k: Q.Key)
    requires SameLeases(es, ls)
    ensures Lookup(es, k).Some? <==> k in Q.LeasedKeys(ls)
  {
    if es != [] {
      LookupSame(es[1..], ls[1..], k);
      assert ls == [ls[0]] + ls[1..];
    }
  }

  lemma ExpiredStep(ls: seq<Q.Lease>, i: nat, now: real)
    requires i < |ls|
    ensures Q.ExpiredKeys(ls[i..], now) == (if ls[i].deadline <= now then [ls[i].key] else []) + Q.ExpiredKeys(ls[i + 1..], now)
  {
    assert ls[i..][0] == ls[i] && ls[i..][1..] == ls[i + 1..];
  }

  class LocalQueue {
    const maxRedeliveries: int
    var ready: seq<Task>
    var inflight: seq<Entry>
    var dlq: seq<Task>
    /** Every task object ever enqueued. */
    ghost var known: set<Task>
    /** The queue as a value; `Valid` ties it to the fields above and to the counters in the task objects. */
    ghost var model: Q.Queue

    constructor (maxRedeliveries: int)
      ensures Valid() && model == Q.Empty(maxRedeliveries) && known == {}
    {
      this.maxRedeliveries := maxRedeliveries;
      ready, inflight, dlq, known := [], [], [], {};
      model := Q.Empty(maxRedeliveries);
    }

    ghost predicate Valid()
      reads this, known
    {
      && model.maxRedeliveries == maxRedeliveries
      && SameKeys(ready, model.ready) && SameLeases(inflight, model.inflight) && SameKeys(dlq, model.dlq)
      && Registered()
      && (forall t :: t in known ==> t.key in model.attempt && model.attempt[t.key] == t.attempt)
    }

    /** The queue holds task objects it was given, and a key names one object. */
    ghost predicate Registered()
      reads this
    {
      && (forall t :: t in ready ==> t in known)
      && (forall t :: t in dlq ==> t in known)
      && (forall e :: e in inflight ==> e.task in known)
      && (forall t, u :: t in known && u in known && t.key == u.key ==> t == u)
    }

    /** `task.attempt = 0`, done by the controller to a task the queue was given. */
    method Reset(task: Task)
      requires Valid() && task in known
      modifies this`model, task
      ensures Valid() && task.attempt == 0
      ensures model == Q.Reset(old(model), task.key)
    {
      model := Q.Reset(model, task.key);
      task.attempt := 0;
    }

    /** The controller hands in a task it has just made, or one the queue knows, as for a retry. */
    method Enqueue(task: Task)
      requires Valid()
      requires task in known || (task.attempt == 0 && task.key !in model.attempt)
      modifies this
      ensures Valid() && known == old(known) + {task}
      ensures model == Q.Enqueue(old(model), task.key)
    {
      model := Q.Enqueue(model, task.key);
      known := known + {task};
      ready := ready + [task];
    }

    method Ack(task: Task)
      requires Valid()
      modifies this
      ensures Valid() && known == old(known)
      ensures model == Q.Ack(old(model), task.key)
    {
      PopSame(inflight, model.inflight, task.key);
      model := Q.Ack(model, task.key);
      inflight := PopEntry(inflight, task.key);
    }

    /** A delivery has come to nothing: the entry goes, the counter goes up, the task goes round again or is dead. */
    method Redeliver(task: Task)
      requires Valid() && task in known
      modifies this, task
      ensures Valid() && known == old(known)
      ensures model == Q.Fail(old(model), task.key)
    {
      Ack(task);
      model := Q.Redeliver(model, task.key);
      task.attempt := task.attempt + 1;
      if task.attempt > maxRedeliveries {
        dlq := dlq + [task];
      } else {
        ready := ready + [task];
      }
    }

    method Fail(task: Task)
      requires Valid() && task in known
      modifies this, task
      ensures Valid() && known == old(known)
      ensures model == Q.Fail(old(model), task.key)
    {
      Redeliver(task);
    }

    lemma LeaseAt(i: nat)
      requires Valid() && i < |inflight|
      ensures |inflight| == |model.inflight| && inflight[i].task in known
      ensures model.inflight[i] == Q.Lease(inflight[i].task.key, inflight[i].deadline)
    {
    }

    lemma SameCount()
      requires Valid()
      ensures |inflight| == |model.inflight|
    {
    }

    /** The tasks whose lease has run out, in the order of the dict. */
    method Expired(now: real) returns (expired: seq<Task>)
      requires Valid()
      ensures SameKeys(expired, Q.ExpiredKeys(model.inflight, now))
      ensures forall t :: t in expired ==> t in known
    {
      hide Valid, Registered, SameLeases;
      SameCount();
      expired := [];
      ghost var ks: seq<Q.Key> := [];
      ghost var ls := model.inflight;
      assert ls[0..] == ls;
      var i := 0;
      while i < |inflight|
        invariant 0 <= i <= |inflight| == |ls|
        invariant SameKeys(expired, ks) && ks + Q.ExpiredKeys(ls[i..], now) == Q.ExpiredKeys(ls, now)
        invariant forall t :: t in expired ==> t in known
      {
        var e := inflight[i];
        LeaseAt(i);
        ExpiredStep(ls, i, now);
        if e.deadline <= now {
          expired := expired + [e.task];
          ks := ks + [e.task.key];
        }
        i := i + 1;
      }
    }

    method Sweep(now: real)
      requires Valid()
      modifies this, known
      ensures Valid() && known == old(known)
      ensures model == Q.Sweep(old(model), now)
    {
      var expired := Expired(now);
      ghost var ks := Q.ExpiredKeys(model.inflight, now);
      assert ks[0..] == ks;
      var j := 0;
      while j < |expired|
        invariant 0 <= j <= |expired|
        invariant Valid() && known == old(known)
        invariant Q.ExpireAll(model, ks[j..]) == Q.Sweep(old(model), now)
      {
        assert ks[j..][0] == expired[j].key && ks[j..][1..] == ks[j + 1..];
        Redeliver(expired[j]);
        j := j + 1;
      }
    }

    /** `_inflight[task.key] = (task, deadline)` */
    method SetLease(task: Task, deadline: real)
      requires Valid() && task in known
      modifies this
      ensures Valid() && known == old(known)
      ensures model == old(model).(inflight := Q.Assign(old(model).inflight, task.key, deadline))
    {
      AssignSame(inflight, model.inflight, Entry(task, deadline));
      model := model.(inflight := Q.Assign(model.inflight, task.key, deadline));
      inflight := AssignEntry(inflight, Entry(task, deadline));
    }

    /** `_ready.popleft()` */
    method PopLeft() returns (r: Task)
      requires Valid() && ready != []
      modifies this
      ensures Valid() && known == old(known) && r in known
      ensures old(model).ready != [] && r.key == old(model).ready[0]
      ensures model == old(model).(ready := old(model).ready[1..])
    {
      r := ready[0];
      ready := ready[1..];
      model := model.(ready := model.ready[1..]);
    }

    method Claim(now: real, lease: real) returns (r: Task?)
      requires Valid()
      modifies this, known
      ensures Valid() && known == old(known)
      ensures model == Q.Claim(old(model), now, lease)
      ensures Q.Next(old(model), now) == if r == null then None else Some(r.key)
      ensures r != null ==> r in known
    {
      hide SameLeases, Q.Sweep;
      Sweep(now);
      if ready == [] {
        return null;
      }
      r := PopLeft();
      SetLease(r, now + lease);
    }

    method Extend(task: Task, now: real, lease: real)
      requires Valid()
      modifies this
      ensures Valid() && known == old(known)
      ensures model == Q.Extend(old(model), task.key, now, lease)
    {
      hide SameLeases;
      LookupSame(inflight, model.inflight, task.key);
      var e := Lookup(inflight, task.key);
      if e.Some? {
        SetLease(e.value.task, now + lease);
      }
    }

    method Depth(now: real) returns (n: nat)
      requires Valid()
      modifies this, known
      ensures Valid() && known == old(known)
      ensures model == Q.Sweep(old(model), now)
      ensures n == Q.Depth(old(model), now)
    {
      Sweep(now);
      n := |ready| + |inflight|;
    }

    /** `dlq.remove(task)`, done by the controller: the first occurrence goes. */
    method TakeDead(task: Task)
      requires Valid() && task in known
      modifies this
      ensures Valid() && known == old(known)
      ensures model == Q.TakeDead(old(model), task.key)
    {
      RemoveSame(dlq, model.dlq, task, known);
      model := Q.TakeDead(model, task.key);
      dlq := RemoveTask(dlq, task);
    }
  }

  /** `list.remove` */
  function RemoveTask(ts: seq<Task>, t: Task): (r: seq<Task>)
    ensures forall x :: x in r ==> x in ts
  {
    if ts == [] then [] else if ts[0] == t then ts[1..] else [ts[0]] + RemoveTask(ts[1..], t)
  }

  lemma {:induction false} RemoveSame(ts: seq<Task>, ks: seq<Q.Key>, t: Task, known: set<Task>)
    requires SameKeys(ts, ks) && t in known && (forall x :: x in ts ==> x in known)
    requires forall x, y :: x in known && y in known && x.key == y.key ==> x == y
    ensures SameKeys(RemoveTask(ts, t), Q.RemoveFirst(ks, t.key))
  {
    if ts != [] {
      assert ts[0] in known && (ts[0] == t <==> ks[0] == t.key);
      assert SameKeys(ts[1..], ks[1..]);
      RemoveSame(ts[1..], ks[1..], t, known);
    }
  }
}
