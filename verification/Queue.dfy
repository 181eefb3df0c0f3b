/**
 The leased queue. `Queue` is its state as a value and the functions below are its operations; the class `LocalQueue`
 is the object the workers share, proved to do what the functions say.
 */
module Queue {
  import opened Sequences

  /** A task key, `<stage>/<chunk>`. Stages are numbered by their place in topological order. */
  datatype Key = Key(stage: nat, chunk: string)

  datatype Lease = Lease(key: Key, deadline: real)

  /** `inflight` is a dict in insertion order; `attempt` holds the counter each enqueued task object carries. */
  datatype Queue = Queue(maxRedeliveries: int, ready: seq<Key>, inflight: seq<Lease>, dlq: seq<Key>, attempt: map<Key, nat>)

  function Empty(maxRedeliveries: int): Queue { Queue(maxRedeliveries, [], [], [], map[]) }

  /** Redeliveries a task is granted; a negative setting grants none. */
  function Limit(q: Queue): nat { if q.maxRedeliveries < 0 then 0 else q.maxRedeliveries }

  function Attempt(q: Queue, k: Key): nat { if k in q.attempt then q.attempt[k] else 0 }

  function LeasedKeys(ls: seq<Lease>): set<Key> { set l | l in ls :: l.key }

  predicate InFlight(q: Queue, k: Key) { k in LeasedKeys(q.inflight) }

  /** `d.pop(key, None)` */
  function Pop(ls: seq<Lease>, k: Key): (r: seq<Lease>)
    ensures LeasedKeys(r) == LeasedKeys(ls) - {k}
    ensures |r| <= |ls| && (k in LeasedKeys(ls) ==> |r| < |ls|)
  {
    if ls == [] then [] else
    assert ls == [ls[0]] + ls[1..];
    var r := Pop(ls[1..], k);
    if ls[0].key == k then r else
    assert LeasedKeys([ls[0]] + r) == {ls[0].key} + LeasedKeys(r);
    [ls[0]] + r
  }

  /** `d[key] = ...`: an existing key keeps its place, a new one goes last. */
  function Assign(ls: seq<Lease>, k: Key, deadline: real): (r: seq<Lease>)
    ensures LeasedKeys(r) == LeasedKeys(ls) + {k}
    ensures |r| == |ls| + (if k in LeasedKeys(ls) then 0 else 1)
  {
    if ls == [] then [Lease(k, deadline)] else
    assert ls == [ls[0]] + ls[1..];
    if ls[0].key == k then
      assert LeasedKeys([Lease(k, deadline)] + ls[1..]) == {k} + LeasedKeys(ls[1..]);
      [Lease(k, deadline)] + ls[1..]
    else
      var r := Assign(ls[1..], k, deadline);
      assert LeasedKeys([ls[0]] + r) == {ls[0].key} + LeasedKeys(r);
      [ls[0]] + r
  }

  /** One more attempt has failed: back to the ready queue, or to the dead letters once the redeliveries are used up. */
  function Redeliver(q: Queue, k: Key): Queue {
    var a := Attempt(q, k) + 1;
    var q1 := q.(attempt := q.attempt[k := a]);
    if a > q.maxRedeliveries then q1.(dlq := q1.dlq + [k]) else q1.(ready := q1.ready + [k])
  }

  function Fail(q: Queue, k: Key): Queue {
    Redeliver(q.(inflight := Pop(q.inflight, k)), k)
  }

  function ExpiredKeys(ls: seq<Lease>, now: real): seq<Key> {
    if ls == [] then [] else
    (if ls[0].deadline <= now then [ls[0].key] else []) + ExpiredKeys(ls[1..], now)
  }

  /** Expiry does to a task what a negative acknowledgement does. */
  function ExpireAll(q: Queue, ks: seq<Key>): Queue
    decreases |ks|
  {
    if ks == [] then q else ExpireAll(Fail(q, ks[0]), ks[1..])
  }

  function Sweep(q: Queue, now: real): Queue {
    ExpireAll(q, ExpiredKeys(q.inflight, now))
  }

  function Enqueue(q: Queue, k: Key): Queue {
    q.(ready := q.ready + [k], attempt := q.attempt[k := Attempt(q, k)])
  }

  /** `task.attempt = 0` */
  function Reset(q: Queue, k: Key): Queue {
    q.(attempt := q.attempt[k := 0])
  }

  function Next(q: Queue, now: real): Option<Key> {
    var s := Sweep(q, now);
    if s.ready == [] then None else Some(s.ready[0])
  }

  function Claim(q: Queue, now: real, lease: real): Queue {
    var s := Sweep(q, now);
    if s.ready == [] then s else HandOut(s, now + lease)
  }

  /** The front task goes out under a lease. */
  function HandOut(s: Queue, deadline: real): Queue
    requires s.ready != []
  {
    s.(ready := s.ready[1..], inflight := Assign(s.inflight, s.ready[0], deadline))
  }

  function Extend(q: Queue, k: Key, now: real, lease: real): Queue {
    if InFlight(q, k) then q.(inflight := Assign(q.inflight, k, now + lease)) else q
  }

  function Ack(q: Queue, k: Key): Queue {
    q.(inflight := Pop(q.inflight, k))
  }

  function Depth(q: Queue, now: real): nat {
    var s := Sweep(q, now);
    |s.ready| + |s.inflight|
  }

  /** `dlq.remove(task)`: the first occurrence, and nothing when there is none. */
  function RemoveFirst(ks: seq<Key>, k: Key): (r: seq<Key>)
    ensures multiset(r) == multiset(ks) - multiset{k}
  {
    if ks == [] then [] else
    assert ks == [ks[0]] + ks[1..];
    if ks[0] == k then ks[1..] else [ks[0]] + RemoveFirst(ks[1..], k)
  }

  function TakeDead(q: Queue, k: Key): Queue {
    q.(dlq := RemoveFirst(q.dlq, k))
  }

  // ---- where a key is ------------------------------------------------------------

  function Count(ks: seq<Key>, k: Key): nat { multiset(ks)[k] }

  /** In how many places the queue holds the key. */
  function Copies(q: Queue, k: Key): nat {
    Count(q.ready, k) + (if InFlight(q, k) then 1 else 0) + Count(q.dlq, k)
  }

  function Live(q: Queue, k: Key): nat {
    Count(q.ready, k) + (if InFlight(q, k) then 1 else 0)
  }

  lemma RedeliverCounts(q: Queue, k: Key, x: Key)
    ensures Live(Redeliver(q, k), x) + Count(Redeliver(q, k).dlq, x)
      == Live(q, x) + Count(q.dlq, x) + (if x == k then 1 else 0)
    ensures Count(Redeliver(q, k).dlq, x) >= Count(q.dlq, x) && Live(Redeliver(q, k), x) >= Live(q, x)
  {
  }

  /** A key the queue held is still held: alive, or once more among the dead letters, which only grow. */
  ghost predicate Kept(q: Queue, q': Queue, x: Key) {
    && Count(q'.dlq, x) >= Count(q.dlq, x)
    && (Live(q, x) >= 1 ==> Live(q', x) >= 1 || Count(q'.dlq, x) > Count(q.dlq, x))
  }

  /** The key is where it was, and as often. */
  predicate SamePlaces(q: Queue, q': Queue, x: Key) {
    && Count(q'.ready, x) == Count(q.ready, x) && Count(q'.dlq, x) == Count(q.dlq, x)
    && (InFlight(q', x) <==> InFlight(q, x)) && Attempt(q', x) == Attempt(q, x)
  }

  /** Failing a key that is in flight moves it; failing one that is not adds a copy. No other key is touched. */
  lemma FailCounts(q: Queue, k: Key, x: Key)
    ensures Kept(q, Fail(q, k), x)
    ensures Copies(Fail(q, k), x) == Copies(q, x) + (if x == k && !InFlight(q, k) then 1 else 0)
    ensures Copies(Fail(q, k), k) >= 1
    ensures x != k ==> SamePlaces(q, Fail(q, k), x)
    ensures !InFlight(Fail(q, k), k)
    ensures var dead := Attempt(q, k) + 1 > q.maxRedeliveries;
      && Count(Fail(q, k).ready, k) == Count(q.ready, k) + (if dead then 0 else 1)
      && Count(Fail(q, k).dlq, k) == Count(q.dlq, k) + (if dead then 1 else 0)
  {
    RedeliverCounts(q.(inflight := Pop(q.inflight, k)), k, x);
    RedeliverCounts(q.(inflight := Pop(q.inflight, k)), k, k);
  }

  // ---- leases -----------------------------------------------------------------------

  predicate DistinctLeases(ls: seq<Lease>) {
    forall i, j :: 0 <= i < j < |ls| ==> ls[i].key != ls[j].key
  }

  lemma {:induction false} PopKeeps(ls: seq<Lease>, k: Key, x: Lease)
    ensures x in Pop(ls, k) <==> x in ls && x.key != k
  {
    if ls != [] {
      PopKeeps(ls[1..], k, x);
      assert ls == [ls[0]] + ls[1..];
    }
  }

  lemma {:induction false} PopDistinct(ls: seq<Lease>, k: Key)
    requires DistinctLeases(ls)
    ensures DistinctLeases(Pop(ls, k))
  {
    if ls != [] {
      PopDistinct(ls[1..], k);
      forall x | x in Pop(ls[1..], k) ensures x.key != ls[0].key {
        PopKeeps(ls[1..], k, x);
        var i :| 0 <= i < |ls| - 1 && ls[1..][i] == x;
        assert ls[i + 1].key != ls[0].key;
      }
    }
  }

  lemma {:induction false} AssignDistinct(ls: seq<Lease>, k: Key, d: real)
    requires DistinctLeases(ls)
    ensures DistinctLeases(Assign(ls, k, d))
  {
    if ls != [] && ls[0].key != k {
      AssignDistinct(ls[1..], k, d);
      var r := Assign(ls[1..], k, d);
      forall i | 0 <= i < |r| ensures r[i].key != ls[0].key {
        assert r[i].key in LeasedKeys(r);
      }
    }
  }

  ghost predicate HasExpired(ls: seq<Lease>, k: Key, now: real) {
    exists i :: 0 <= i < |ls| && ls[i].key == k && ls[i].deadline <= now
  }

  lemma {:induction false} ExpiredKeysAre(ls: seq<Lease>, now: real, k: Key)
    ensures k in ExpiredKeys(ls, now) <==> HasExpired(ls, k, now)
  {
    if ls != [] {
      ExpiredKeysAre(ls[1..], now, k);
      if HasExpired(ls[1..], k, now) {
        var i :| 0 <= i < |ls| - 1 && ls[1..][i].key == k && ls[1..][i].deadline <= now;
        assert ls[i + 1].key == k;
      }
      if HasExpired(ls, k, now) && !(ls[0].key == k && ls[0].deadline <= now) {
        var i :| 0 <= i < |ls| && ls[i].key == k && ls[i].deadline <= now;
        assert ls[1..][i - 1].key == k;
      }
    }
  }

  lemma {:induction false} ExpiredKeysDistinct(ls: seq<Lease>, now: real)
    requires DistinctLeases(ls)
    ensures Distinct(ExpiredKeys(ls, now))
  {
    if ls != [] {
      ExpiredKeysDistinct(ls[1..], now);
      ExpiredKeysAre(ls[1..], now, ls[0].key);
      forall i | 0 <= i < |ls| - 1 ensures ls[1..][i].key != ls[0].key {
        assert ls[i + 1].key != ls[0].key;
      }
    }
  }

  // ---- the sweep ---------------------------------------------------------------------

  lemma {:induction false} ExpireAllCounts(q: Queue, ks: seq<Key>, x: Key)
    requires DistinctLeases(q.inflight) && Distinct(ks)
    requires forall i :: 0 <= i < |ks| ==> InFlight(q, ks[i])
    ensures Copies(ExpireAll(q, ks), x) == Copies(q, x) && Kept(q, ExpireAll(q, ks), x)
    ensures InFlight(ExpireAll(q, ks), x) <==> InFlight(q, x) && x !in ks
    decreases |ks|
  {
    hide Fail, Redeliver, Pop;
    if ks != [] {
      var q1 := Fail(q, ks[0]);
      FailCounts(q, ks[0], x);
      FailLeases(q, ks[0]);
      forall i | 0 <= i < |ks| - 1 ensures InFlight(q1, ks[1..][i]) {
        assert ks[i + 1] != ks[0];
      }
      ExpireAllCounts(q1, ks[1..], x);
      assert ks == [ks[0]] + ks[1..];
    }
  }

  lemma FailLeases(q: Queue, k: Key)
    requires DistinctLeases(q.inflight)
    ensures LeasedKeys(Fail(q, k).inflight) == LeasedKeys(q.inflight) - {k}
    ensures DistinctLeases(Fail(q, k).inflight)
  {
    assert Fail(q, k).inflight == Pop(q.inflight, k);
    PopDistinct(q.inflight, k);
  }

  lemma {:induction false} ExpireAllLeases(q: Queue, ks: seq<Key>)
    requires DistinctLeases(q.inflight)
    ensures DistinctLeases(ExpireAll(q, ks).inflight) && ExpireAll(q, ks).maxRedeliveries == q.maxRedeliveries
    decreases |ks|
  {
    if ks != [] {
      FailLeases(q, ks[0]);
      ExpireAllLeases(Fail(q, ks[0]), ks[1..]);
    }
  }

  lemma ExpiredInFlight(q: Queue, now: real)
    requires DistinctLeases(q.inflight)
    ensures var ks := ExpiredKeys(q.inflight, now);
      Distinct(ks) && forall i :: 0 <= i < |ks| ==> InFlight(q, ks[i])
  {
    var ks := ExpiredKeys(q.inflight, now);
    ExpiredKeysDistinct(q.inflight, now);
    forall i | 0 <= i < |ks| ensures InFlight(q, ks[i]) {
      ExpiredKeysAre(q.inflight, now, ks[i]);
    }
  }

  /** A sweep moves expired keys and touches no other; it never loses or copies one. */
  lemma SweepCounts(q: Queue, now: real, x: Key)
    requires DistinctLeases(q.inflight)
    ensures Copies(Sweep(q, now), x) == Copies(q, x) && Kept(q, Sweep(q, now), x)
    ensures DistinctLeases(Sweep(q, now).inflight) && Sweep(q, now).maxRedeliveries == q.maxRedeliveries
    ensures InFlight(Sweep(q, now), x) <==> InFlight(q, x) && !HasExpired(q.inflight, x, now)
  {
    var ks := ExpiredKeys(q.inflight, now);
    ExpiredInFlight(q, now);
    ExpireAllCounts(q, ks, x);
    ExpireAllLeases(q, ks);
    ExpiredKeysAre(q.inflight, now, x);
  }

  /** The key goes from the front of the ready queue to the leases; one that is leased already loses a copy. */
  lemma HandOutCounts(s: Queue, deadline: real, x: Key)
    requires s.ready != []
    ensures Copies(HandOut(s, deadline), x) == Copies(s, x) - (if x == s.ready[0] && InFlight(s, x) then 1 else 0)
    ensures Kept(s, HandOut(s, deadline), x)
    ensures InFlight(HandOut(s, deadline), s.ready[0])
  {
    assert s.ready == [s.ready[0]] + s.ready[1..];
  }

  lemma HandOutLeases(s: Queue, deadline: real)
    requires s.ready != []
    ensures HandOut(s, deadline).inflight == Assign(s.inflight, s.ready[0], deadline)
  {
  }

  /** Claiming keeps every key and every copy, except that it merges two copies of a key handed out while still leased. */
  lemma ClaimCounts(q: Queue, now: real, lease: real, x: Key)
    requires DistinctLeases(q.inflight)
    ensures var merged := Next(q, now) == Some(x) && InFlight(q, x) && !HasExpired(q.inflight, x, now);
      Copies(Claim(q, now, lease), x) == Copies(q, x) - (if merged then 1 else 0)
    ensures Kept(q, Claim(q, now, lease), x)
    ensures DistinctLeases(Claim(q, now, lease).inflight)
  {
    hide Sweep, Copies, HandOut;
    var s := Sweep(q, now);
    SweepCounts(q, now, x);
    if s.ready != [] {
      HandOutLeases(s, now + lease);
      HandOutCounts(s, now + lease, x);
      AssignDistinct(s.inflight, s.ready[0], now + lease);
    }
  }
}
