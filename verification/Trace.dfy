/** The controller's own steps, exactly: what each remedy and each round of remedies makes it do. */
module Trace {
  import opened Sequences
  import opened Queue
  import opened Machine
  import opened Soundness
  import opened Tracking
  import opened Planning
  import opened Remediation
  import opened Books
  import opened Staging
  import opened Attempts
  import P = Partition

  /** What the failure handler can answer. No answer, or one without an action, is a report. */
  datatype Action = RetryWith | Resplit | Skip | ReportOnly | Abort | Unknown

  /** The steps of a run that are not the workers' or the clock's. */
  function Own(h: seq<Step>): seq<Step> {
    if h == [] then [] else
    Own(h[..|h| - 1]) + (if IsWorkerStep(h[|h| - 1]) then [] else [h[|h| - 1]])
  }

  lemma OwnSnoc(h: seq<Step>, s: Step)
    ensures Own(h + [s]) == Own(h) + (if IsWorkerStep(s) then [] else [s])
  {
    assert (h + [s])[..|h|] == h;
  }

  function Sends(ks: seq<Key>): (r: seq<Step>)
    ensures |r| == |ks| && forall i :: 0 <= i < |r| ==> r[i] == EnqueueTask(ks[i])
  {
    seq(|ks|, i requires 0 <= i < |ks| => EnqueueTask(ks[i]))
  }

  function Registers(ts: seq<Task>): (r: seq<Step>)
    ensures |r| == |ts| && forall i :: 0 <= i < |r| ==> r[i] == Register(ts[i])
  {
    seq(|ts|, i requires 0 <= i < |ts| => Register(ts[i]))
  }

  function Takes(ks: seq<Key>): (r: seq<Step>)
    ensures |r| == |ks| && forall i :: 0 <= i < |r| ==> r[i] == TakeDeadTask(ks[i])
  {
    seq(|ks|, i requires 0 <= i < |ks| => TakeDeadTask(ks[i]))
  }

  lemma SendsSnoc(ks: seq<Key>, i: nat)
    requires i < |ks|
    ensures Sends(ks[..i + 1]) == Sends(ks[..i]) + [EnqueueTask(ks[i])]
  {
  }

  lemma TakesSnoc(ks: seq<Key>, i: nat)
    requires i < |ks|
    ensures Takes(ks[..i + 1]) == Takes(ks[..i]) + [TakeDeadTask(ks[i])]
  {
  }

  lemma RegistersSnoc(ts: seq<Task>, i: nat)
    requires i < |ts|
    ensures Registers(ts[..i + 1]) == Registers(ts[..i]) + [Register(ts[i])]
  {
  }

  lemma NoSteps()
    ensures Sends([]) == Takes([]) == Registers([]) == []
  {
  }

  // ---- remedies ---------------------------------------------------------------------------

  /** The counter is reset, the task enqueued. */
  function RetrySteps(k: Key): seq<Step> { [ResetAttempt(k), EnqueueTask(k)] }

  /** The pieces are made, the manifest names them in place of the task, and they are enqueued in order. */
  function ResplitSteps(t: Task, m: seq<Entry>): seq<Step> {
    if |t.members| <= 1 then RetrySteps(t.key) else
    Registers(Pieces(t)) + [WriteManifest(t.key.stage, Replace(m, t.key.chunk, PieceEntries(t)))] + Sends(PieceKeys(t))
  }

  /** What the controller does for the dead task `d` when the handler answers `act` and the manifest is `m`. */
  function RemedySteps(ts: Tasks, m: seq<Entry>, d: Key, act: Action): seq<Step>
    requires d in ts
  {
    match act
    case RetryWith => RetrySteps(d)
    case Resplit => ResplitSteps(ts[d], m)
    case Skip => [WriteManifest(d.stage, Replace(m, d.chunk, []))]
    case _ => []
  }

  lemma ResplitTrace(ts: Tasks, m: seq<Entry>, k: Key, own: seq<Step>)
    requires k in ts && ts[k].key == k
    ensures own + RemedySteps(ts, m, k, Resplit) ==
      if |ts[k].members| <= 1 then own + RetrySteps(k) else
      own + Registers(Pieces(ts[k])) + [WriteManifest(k.stage, Replace(m, k.chunk, PieceEntries(ts[k])))] + Sends(PieceKeys(ts[k]))
  {
  }

  /** The manifest afterwards. */
  function RemedyManifest(ts: Tasks, m: seq<Entry>, d: Key, act: Action): seq<Entry>
    requires d in ts
  {
    if act == Skip then Replace(m, d.chunk, [])
    else if act == Resplit && |ts[d].members| > 1 then Replace(m, d.chunk, PieceEntries(ts[d]))
    else m
  }

  /** What there is to wait for instead of `d`. */
  function RemedyKeys(ts: Tasks, d: Key, act: Action): seq<Key>
    requires d in ts
  {
    match act
    case RetryWith => [d]
    case Resplit => if |ts[d].members| <= 1 then [d] else PieceKeys(ts[d])
    case _ => []
  }

  lemma RetryIs(ts: Tasks, m: seq<Entry>, d: Key)
    requires d in ts
    ensures RemedySteps(ts, m, d, RetryWith) == RetrySteps(d) && RemedyManifest(ts, m, d, RetryWith) == m
    ensures RemedyKeys(ts, d, RetryWith) == [d]
  {
  }

  lemma ResplitIs(a: World, b: World, d: Key, new_: seq<Key>)
    requires ResplitEffect(a, b, d, new_)
    ensures RemedyManifest(a.tasks, Manifest(a, d.stage), d, Resplit) == Manifest(b, d.stage)
    ensures RemedyKeys(a.tasks, d, Resplit) == new_
  {
  }

  lemma SkipIs(ts: Tasks, m: seq<Entry>, d: Key)
    requires d in ts
    ensures RemedySteps(ts, m, d, Skip) == [WriteManifest(d.stage, Replace(m, d.chunk, []))]
    ensures RemedyManifest(ts, m, d, Skip) == Replace(m, d.chunk, []) && RemedyKeys(ts, d, Skip) == []
  {
  }

  lemma NoRemedyIs(ts: Tasks, m: seq<Entry>, d: Key, act: Action)
    requires d in ts && !Usable(act)
    ensures RemedySteps(ts, m, d, act) == [] && RemedyManifest(ts, m, d, act) == m && RemedyKeys(ts, d, act) == []
  {
  }

  /** The answer comes to a retry of `d`: it says so, or asks to resplit a task that cannot be split. */
  predicate Retries(ts: Tasks, d: Key, act: Action) {
    act == RetryWith || (act == Resplit && d in ts && |ts[d].members| <= 1)
  }

  /** Every one of the first `n` dead tasks whose answer comes to a retry was sent afresh. */
  ghost predicate AllSentAfresh(
      p: Program, start: World, h: seq<Step>, from: nat, ts: Tasks, dead: seq<Key>, acts: seq<Action>, n: nat)
  {
    forall i :: 0 <= i < n && i < |dead| && i < |acts| && Retries(ts, dead[i], acts[i]) ==>
      SentAfresh(p, start, h, from, dead[i])
  }

  lemma NoneSentAfresh(p: Program, start: World, h: seq<Step>, from: nat, ts: Tasks, dead: seq<Key>, acts: seq<Action>)
    ensures AllSentAfresh(p, start, h, from, ts, dead, acts, 0)
  {
  }

  lemma OneMoreAfresh(
      p: Program, start: World, h: seq<Step>, h': seq<Step>, from: nat, ts: Tasks, dead: seq<Key>, acts: seq<Action>, n: nat)
    requires AllSentAfresh(p, start, h, from, ts, dead, acts, n) && h <= h' && from <= |h| && n < |dead| && n < |acts|
    requires Retries(ts, dead[n], acts[n]) ==> SentAfresh(p, start, h', |h|, dead[n])
    ensures AllSentAfresh(p, start, h', from, ts, dead, acts, n + 1)
  {
    hide SentAfresh;
    forall i | 0 <= i < n + 1 && Retries(ts, dead[i], acts[i]) ensures SentAfresh(p, start, h', from, dead[i]) {
      if i < n {
        AfreshLater(p, start, h, h', from, from, dead[i]);
      } else {
        AfreshLater(p, start, h', h', |h|, from, dead[i]);
      }
    }
  }

  lemma AllAfreshLater(
      p: Program, start: World, h: seq<Step>, h': seq<Step>, from: nat, from': nat, ts: Tasks, dead: seq<Key>, acts: seq<Action>,
      n: nat)
    requires AllSentAfresh(p, start, h, from, ts, dead, acts, n) && h <= h' && from' <= from
    ensures AllSentAfresh(p, start, h', from', ts, dead, acts, n)
  {
    hide SentAfresh, Retries;
    forall i | 0 <= i < n && i < |dead| && i < |acts| && Retries(ts, dead[i], acts[i])
      ensures SentAfresh(p, start, h', from', dead[i])
    {
      AfreshLater(p, start, h, h', from, from', dead[i]);
    }
  }

  lemma SameRetries(ts: Tasks, ts': Tasks, d: Key, act: Action)
    requires d in ts && d in ts' && ts[d] == ts'[d]
    ensures Retries(ts, d, act) <==> Retries(ts', d, act)
  {
  }

  predicate Usable(act: Action) { act == RetryWith || act == Resplit || act == Skip }

  /** A round over `n` dead tasks deals with all of them: only under the remediate policy, within budget, and when every
      answer is a remedy. */
  predicate Remediable(remediate: bool, budget: int, answers: seq<Action>, n: nat) {
    remediate && budget > 0 && n <= |answers| && forall i :: 0 <= i < n ==> Usable(answers[i])
  }

  /** The first dead task that is not remedied when not all of `n` are. */
  predicate FirstRefused(remediate: bool, budget: int, answers: seq<Action>, n: nat, at: nat) {
    && at < n && at <= |answers|
    && (at > 0 ==> Remediable(remediate, budget, answers, at)) && !Remediable(remediate, budget, answers, at + 1)
  }

  // ---- a round of remedies ------------------------------------------------------------------

  ghost predicate AllKnown(ts: Tasks, ks: seq<Key>) { forall k :: k in ks ==> k in ts }

  function RoundManifest(ts: Tasks, m: seq<Entry>, dead: seq<Key>, acts: seq<Action>): seq<Entry>
    requires |acts| == |dead| && AllKnown(ts, dead)
    decreases |dead|
  {
    if dead == [] then m else
    var n := |dead| - 1;
    RemedyManifest(ts, RoundManifest(ts, m, dead[..n], acts[..n]), dead[n], acts[n])
  }

  /** Dead task after dead task, each over the manifest the ones before left. */
  function RoundSteps(ts: Tasks, m: seq<Entry>, dead: seq<Key>, acts: seq<Action>): seq<Step>
    requires |acts| == |dead| && AllKnown(ts, dead)
    decreases |dead|
  {
    if dead == [] then [] else
    var n := |dead| - 1;
    RoundSteps(ts, m, dead[..n], acts[..n]) + RemedySteps(ts, RoundManifest(ts, m, dead[..n], acts[..n]), dead[n], acts[n])
  }

  function RoundKeys(ts: Tasks, dead: seq<Key>, acts: seq<Action>): seq<Key>
    requires |acts| == |dead| && AllKnown(ts, dead)
    decreases |dead|
  {
    if dead == [] then [] else
    var n := |dead| - 1;
    RoundKeys(ts, dead[..n], acts[..n]) + RemedyKeys(ts, dead[n], acts[n])
  }

  /** The first `n` dead tasks of a round were dealt with as the first `n` answers say. */
  ghost predicate AsAnswered(
      a: World, b: World, s: nat, before: seq<Step>, after: seq<Step>, dead: seq<Key>, acts: seq<Action>, n: nat, enq: seq<Key>)
  {
    && n <= |dead| && n <= |acts| && AllKnown(a.tasks, dead)
    && after == before + RoundSteps(a.tasks, Manifest(a, s), dead[..n], acts[..n])
    && Manifest(b, s) == RoundManifest(a.tasks, Manifest(a, s), dead[..n], acts[..n])
    && enq == RoundKeys(a.tasks, dead[..n], acts[..n])
  }

  lemma NothingAnswered(a: World, s: nat, own: seq<Step>, dead: seq<Key>, acts: seq<Action>)
    requires AllKnown(a.tasks, dead)
    ensures AsAnswered(a, a, s, own, own, dead, acts, 0, [])
  {
  }

  lemma SameRemedy(ts: Tasks, ts': Tasks, m: seq<Entry>, d: Key, act: Action)
    requires d in ts && d in ts' && ts[d] == ts'[d]
    ensures RemedySteps(ts, m, d, act) == RemedySteps(ts', m, d, act)
    ensures RemedyManifest(ts, m, d, act) == RemedyManifest(ts', m, d, act)
    ensures RemedyKeys(ts, d, act) == RemedyKeys(ts', d, act)
  {
  }

  lemma {:induction false} RoundSnoc(ts: Tasks, m: seq<Entry>, dead: seq<Key>, acts: seq<Action>, n: nat)
    requires n < |dead| && n < |acts| && AllKnown(ts, dead)
    ensures var was := RoundManifest(ts, m, dead[..n], acts[..n]);
      && RoundManifest(ts, m, dead[..n + 1], acts[..n + 1]) == RemedyManifest(ts, was, dead[n], acts[n])
      && RoundSteps(ts, m, dead[..n + 1], acts[..n + 1])
        == RoundSteps(ts, m, dead[..n], acts[..n]) + RemedySteps(ts, was, dead[n], acts[n])
      && RoundKeys(ts, dead[..n + 1], acts[..n + 1]) == RoundKeys(ts, dead[..n], acts[..n]) + RemedyKeys(ts, dead[n], acts[n])
  {
    hide RemedyManifest, RemedySteps, RemedyKeys;
    var ds, xs := dead[..n + 1], acts[..n + 1];
    assert ds[..n] == dead[..n] && xs[..n] == acts[..n] && ds[n] == dead[n] && xs[n] == acts[n];
  }

  lemma OneMoreAnswer(
      a: World, b: World, c: World, s: nat, before: seq<Step>, mid: seq<Step>, after: seq<Step>,
      dead: seq<Key>, acts: seq<Action>, n: nat, enq: seq<Key>)
    requires n < |dead| && n < |acts| && AsAnswered(a, b, s, before, mid, dead, acts, n, enq)
    requires dead[n] in b.tasks && b.tasks[dead[n]] == a.tasks[dead[n]]
    requires after == mid + RemedySteps(b.tasks, Manifest(b, s), dead[n], acts[n])
    requires Manifest(c, s) == RemedyManifest(b.tasks, Manifest(b, s), dead[n], acts[n])
    ensures AsAnswered(a, c, s, before, after, dead, acts, n + 1, enq + RemedyKeys(b.tasks, dead[n], acts[n]))
  {
    hide RemedyManifest, RemedySteps, RemedyKeys, RoundManifest, RoundSteps, RoundKeys;
    SameRemedy(a.tasks, b.tasks, Manifest(b, s), dead[n], acts[n]);
    RoundSnoc(a.tasks, Manifest(a, s), dead, acts, n);
    var done := RoundSteps(a.tasks, Manifest(a, s), dead[..n], acts[..n]);
    assert before + done + RemedySteps(a.tasks, Manifest(b, s), dead[n], acts[n])
      == before + (done + RemedySteps(a.tasks, Manifest(b, s), dead[n], acts[n]));
  }

  /** The workers change no manifest. */
  lemma AnswersStand(
      a: World, b: World, c: World, s: nat, before: seq<Step>, after: seq<Step>,
      dead: seq<Key>, acts: seq<Action>, n: nat, enq: seq<Key>)
    requires AsAnswered(a, b, s, before, after, dead, acts, n, enq) && c.manifests == b.manifests
    ensures AsAnswered(a, c, s, before, after, dead, acts, n, enq)
  {
  }

  /** Everything a round keeps when its first `n` dead tasks are dealt with. */
  ghost predicate InRound(
      strict: bool, a: World, b: World, s: nat, bag: multiset<P.Ref>, load: real, before: seq<Step>, after: seq<Step>,
      dead: seq<Key>, acts: seq<Action>, n: nat, enq: seq<Key>)
  {
    && n <= |dead| && RoundSoFar(strict, a, b, s, dead[..n], enq)
    && AsAnswered(a, b, s, before, after, dead, acts, n, enq)
    && (strict ==> StrictRound(a, b, s, bag, load, dead[..n], dead[n..], enq))
  }

  lemma RoundOpens(
      strict: bool, a: World, s: nat, bag: multiset<P.Ref>, load: real, own: seq<Step>, dead: seq<Key>, acts: seq<Action>)
    requires s in a.manifests && PiecesNamed(a.tasks, s) && forall d :: d in dead ==> Fed(a, d)
    requires Named(a.tasks, s, Manifest(a, s))
    requires strict ==> StrictRound(a, a, s, bag, load, [], dead, [])
    ensures InRound(strict, a, a, s, bag, load, own, own, dead, acts, 0, [])
  {
    hide StrictRound, AsAnswered, RoundSoFar;
    assert dead[..0] == [] && dead[0..] == dead;
    RoundStart(strict, a, s);
    NothingAnswered(a, s, own, dead, acts);
  }

  /** A round went through: the controller took exactly the steps the answers ask for, took the dead letters, and waits for
      what took their place. */
  ghost predicate Remedied(
      a: World, s: nat, active: set<Key>, dead: seq<Key>, before: seq<Step>, after: seq<Step>,
      acts: seq<Action>, left: seq<Action>, active': set<Key>)
  {
    && |dead| <= |acts| && AllKnown(a.tasks, dead) && left == acts[|dead|..]
    && after == before + RoundSteps(a.tasks, Manifest(a, s), dead, acts[..|dead|]) + Takes(dead)
    && active' == Remaining(active, dead, RoundKeys(a.tasks, dead, acts[..|dead|]))
  }

  /** A round was given up: the dead tasks before the first that is not remedied were dealt with as answered, and nothing
      else was done. */
  ghost predicate Refused(
      a: World, s: nat, dead: seq<Key>, remediate: bool, budget: int, before: seq<Step>, after: seq<Step>, acts: seq<Action>)
  {
    && AllKnown(a.tasks, dead)
    && exists n: nat ::
      FirstRefused(remediate, budget, acts, |dead|, n)
      && after == before + RoundSteps(a.tasks, Manifest(a, s), dead[..n], acts[..n])
  }

  lemma PartlyAnswered(
      strict: bool, a: World, b: World, s: nat, bag: multiset<P.Ref>, load: real, before: seq<Step>, after: seq<Step>,
      dead: seq<Key>, acts: seq<Action>, n: nat, enq: seq<Key>, remediate: bool, budget: int)
    requires InRound(strict, a, b, s, bag, load, before, after, dead, acts, n, enq)
    requires FirstRefused(remediate, budget, acts, |dead|, n)
    ensures Refused(a, s, dead, remediate, budget, before, after, acts)
  {
    hide StrictRound, RoundSoFar, FirstRefused, RoundSteps;
  }

  lemma AllAnswered(
      a: World, b: World, s: nat, active: set<Key>, before: seq<Step>, after: seq<Step>,
      dead: seq<Key>, acts: seq<Action>, enq: seq<Key>)
    requires AsAnswered(a, b, s, before, after, dead, acts, |dead|, enq)
    ensures Remedied(a, s, active, dead, before, after + Takes(dead), acts, acts[|dead|..], Remaining(active, dead, enq))
  {
    assert dead[..|dead|] == dead;
  }

  /** However a round ends, the chunks held back and the other stages were left alone; a round that went through leaves what
      it waits for safe without the old dead letters. */
  lemma RoundCloses(
      strict: bool, a: World, b: World, s: nat, active: set<Key>, back: set<Key>,
      bag: multiset<P.Ref>, load: real, bag': multiset<P.Ref>, load': real,
      before: seq<Step>, after: seq<Step>, dead: seq<Key>, acts: seq<Action>, n: nat, enq: seq<Key>)
    requires Draining(strict, a, s, active, back, bag, load) && dead == DeadIn(a.queue.dlq, active)
    requires InRound(strict, a, b, s, bag', load', before, after, dead, acts, n, enq)
    ensures During(a, b, s) && HeldBack(b, s, back) && s in b.manifests && (strict ==> Balances(b, s, bag', load'))
    ensures forall k :: k in enq ==> k.stage == s && k !in back
    ensures n == |dead| ==>
      SafeWithout(b, Remaining(active, dead, enq), dead) && (strict ==> Distinct(dead) && InOrder(b, s, bag', load', dead))
  {
    RoundStops(strict, a, b, s, active, back, bag, load, dead, n, enq);
    if n == |dead| {
      assert dead[..n] == dead;
      RoundReady(strict, a, s, active, back, bag, load);
      RoundSafe(strict, a, b, s, active, dead, enq);
    }
  }

  /** ... and once those are taken the drain is in order again. */
  lemma RoundIsOver(
      strict: bool, a: World, b: World, c: World, s: nat, active: set<Key>, back: set<Key>,
      bag: multiset<P.Ref>, load: real, bag': multiset<P.Ref>, load': real,
      before: seq<Step>, after: seq<Step>, dead: seq<Key>, acts: seq<Action>, enq: seq<Key>)
    requires Draining(strict, a, s, active, back, bag, load) && dead == DeadIn(a.queue.dlq, active)
    requires InRound(strict, a, b, s, bag', load', before, after, dead, acts, |dead|, enq)
    requires Later(b, c) && c.tasks == b.tasks && c.manifests == b.manifests
    requires forall k :: Untouched(b, k) ==> Untouched(c, k)
    requires SafeWithout(c, Remaining(active, dead, enq), []) && (strict ==> InOrder(c, s, bag', load', []))
    ensures Draining(strict, c, s, Remaining(active, dead, enq), back, bag', load') && During(a, c, s)
    ensures HeldBack(c, s, back) && s in c.manifests && (strict ==> Balances(c, s, bag', load'))
    ensures Remedied(a, s, active, dead, before, after + Takes(dead), acts, acts[|dead|..], Remaining(active, dead, enq))
  {
    hide AsAnswered, RoundNames, PiecesNamed, Remedied, Untouched, SafeWithout;
    assert dead[..|dead|] == dead && dead[|dead|..] == [];
    RoundEnds(strict, a, b, c, s, active, back, dead, enq, bag, load, bag', load');
    AllAnswered(a, b, s, active, before, after, dead, acts, enq);
  }

  // ---- a turn of the drain loop --------------------------------------------------------------------

  /** What one turn of the drain loop came to. */
  datatype Turn = Finished | GaveUp | Again(active: set<Key>, remedied: bool)

  /** What a stage failed for: the drain's deadline, or what a poll saw after the first `at` steps of the run. */
  datatype Cause = NoCause | Deadline | Unremedied(at: nat, active: set<Key>, budget: int, answers: seq<Action>)

  /** A poll that sees `wd` finds dead letters among what it waits for, and the policy, the budget or an answer rules a
      remedy out. */
  ghost predicate Stuck(wd: World, active: set<Key>, remediate: bool, budget: int, acts: seq<Action>) {
    var dead := DeadIn(wd.queue.dlq, active);
    dead != [] && !Remediable(remediate, budget, acts, |dead|)
  }

  /**
   The turn of a loop that polls when the world is `wd`. With dead letters it is a round of remedies, if they can all be
   remedied, and gives up otherwise. Without, the controller does nothing, and stops when all it waits for is marked.
   */
  ghost predicate TurnIs(
      wd: World, s: nat, active: set<Key>, remediate: bool, budget: int, before: seq<Step>, after: seq<Step>,
      acts: seq<Action>, left: seq<Action>, t: Turn)
  {
    var dead := DeadIn(wd.queue.dlq, active);
    if dead == [] then
      && after == before && left == acts && (t == Finished || t == Again(active, false))
      && (active <= wd.markers ==> t == Finished)
    else if Remediable(remediate, budget, acts, |dead|) then
      t.Again? && t.remedied && Remedied(wd, s, active, dead, before, after, acts, left, t.active)
    else
      t == GaveUp && Refused(wd, s, dead, remediate, budget, before, after, acts)
  }

  // ---- a drain -----------------------------------------------------------------------------------------

  /** What the drain loop carries from turn to turn. */
  datatype Carried = Carried(active: set<Key>, budget: int, own: seq<Step>, answers: seq<Action>)

  /** One turn: what it started from, after how many steps of the run it polled, what it came to, and how many bursts of the
      workers went by. */
  datatype Polled = Polled(from: Carried, at: nat, turn: Turn, own: seq<Step>, answers: seq<Action>, bursts: nat)

  /** What the next turn starts from: a round costs one of the budget. */
  function Onward(x: Polled): Carried
    requires x.turn.Again?
  {
    Carried(x.turn.active, if x.turn.remedied then x.from.budget - 1 else x.from.budget, x.own, x.answers)
  }

  /** The turn is what its poll saw, and without a round of remedies it lets no more than one burst go by before the poll and
      one for each marker it looks up. */
  ghost predicate PollIs(p: Program, start: World, h: seq<Step>, s: nat, remediate: bool, x: Polled) {
    && x.at <= |h|
    && TurnIs(RunSteps(p, start, h[..x.at]), s, x.from.active, remediate, x.from.budget, x.from.own, x.own,
              x.from.answers, x.answers, x.turn)
    && (x.turn == Finished || (x.turn.Again? && !x.turn.remedied) ==> x.bursts <= 1 + |x.from.active|)
  }

  /** Turn after turn, each of which went on, leads from the one to the other. */
  ghost predicate Polls(
      p: Program, start: World, h: seq<Step>, s: nat, remediate: bool, from: Carried, polls: seq<Polled>, to: Carried)
    decreases |polls|
  {
    if polls == [] then to == from else
    var x := polls[|polls| - 1];
    && PollIs(p, start, h, s, remediate, x) && x.turn.Again? && to == Onward(x)
    && Polls(p, start, h, s, remediate, from, polls[..|polls| - 1], x.from)
  }

  /** A drain: turns that went on, and then either one that finished or gave up, or the deadline. */
  ghost predicate DrainIs(
      p: Program, start: World, h: seq<Step>, s: nat, remediate: bool, from: Carried, polls: seq<Polled>, to: Carried, why: Cause)
  {
    match why
    case Deadline => Polls(p, start, h, s, remediate, from, polls, to)
    case NoCause => EndsIn(p, start, h, s, remediate, from, polls, to) && polls[|polls| - 1].turn == Finished
    case Unremedied(at, active, budget, acts) =>
      && EndsIn(p, start, h, s, remediate, from, polls, to) && polls[|polls| - 1].turn == GaveUp
      && at == polls[|polls| - 1].at && active == to.active && budget == to.budget && acts == to.answers
  }

  /** The last turn starts from `to`. */
  ghost predicate EndsIn(
      p: Program, start: World, h: seq<Step>, s: nat, remediate: bool, from: Carried, polls: seq<Polled>, to: Carried)
  {
    && polls != [] && PollIs(p, start, h, s, remediate, polls[|polls| - 1]) && polls[|polls| - 1].from == to
    && Polls(p, start, h, s, remediate, from, polls[..|polls| - 1], to)
  }

  lemma TurnSays(
      wd: World, s: nat, active: set<Key>, remediate: bool, budget: int, before: seq<Step>, after: seq<Step>,
      acts: seq<Action>, left: seq<Action>, t: Turn)
    requires TurnIs(wd, s, active, remediate, budget, before, after, acts, left, t)
    ensures t.Again? && t.remedied ==> remediate && budget > 0
    ensures t == GaveUp ==> Stuck(wd, active, remediate, budget, acts)
  {
  }

  lemma PollMade(p: Program, start: World, h: seq<Step>, s: nat, remediate: bool, x: Polled)
    requires x.at <= |h|
    requires TurnIs(RunSteps(p, start, h[..x.at]), s, x.from.active, remediate, x.from.budget, x.from.own, x.own,
                    x.from.answers, x.answers, x.turn)
    requires x.turn == Finished || (x.turn.Again? && !x.turn.remedied) ==> x.bursts <= 1 + |x.from.active|
    ensures PollIs(p, start, h, s, remediate, x)
  {
  }

  lemma DeadlineIs(
      p: Program, start: World, h: seq<Step>, s: nat, remediate: bool, from: Carried, polls: seq<Polled>, to: Carried)
    requires Polls(p, start, h, s, remediate, from, polls, to)
    ensures DrainIs(p, start, h, s, remediate, from, polls, to, Deadline)
  {
  }

  function Bursts(polls: seq<Polled>): nat {
    if polls == [] then 0 else Bursts(polls[..|polls| - 1]) + polls[|polls| - 1].bursts
  }

  lemma NoPolls(p: Program, start: World, h: seq<Step>, s: nat, remediate: bool, from: Carried)
    ensures Polls(p, start, h, s, remediate, from, [], from) && Bursts([]) == 0
  {
  }

  lemma {:induction false} PollsLater(
      p: Program, start: World, h: seq<Step>, h': seq<Step>, s: nat, remediate: bool, from: Carried, polls: seq<Polled>, to: Carried)
    requires Polls(p, start, h, s, remediate, from, polls, to) && h <= h'
    ensures Polls(p, start, h', s, remediate, from, polls, to)
    decreases |polls|
  {
    hide TurnIs;
    if polls != [] {
      var x := polls[|polls| - 1];
      assert h'[..x.at] == h[..x.at];
      PollsLater(p, start, h, h', s, remediate, from, polls[..|polls| - 1], x.from);
    }
  }

  /** One turn more, and where it leads. */
  lemma OneMorePoll(
      p: Program, start: World, h: seq<Step>, h': seq<Step>, s: nat, remediate: bool, from: Carried, polls: seq<Polled>, x: Polled)
    requires Polls(p, start, h, s, remediate, from, polls, x.from) && h <= h' && PollIs(p, start, h', s, remediate, x)
    ensures Bursts(polls + [x]) == Bursts(polls) + x.bursts
    ensures x.turn.Again? ==> Polls(p, start, h', s, remediate, from, polls + [x], Onward(x))
    ensures x.turn == Finished ==> DrainIs(p, start, h', s, remediate, from, polls + [x], x.from, NoCause)
    ensures x.turn == GaveUp ==>
      DrainIs(p, start, h', s, remediate, from, polls + [x], x.from,
              Unremedied(x.at, x.from.active, x.from.budget, x.from.answers))
  {
    hide PollIs;
    PollsLater(p, start, h, h', s, remediate, from, polls, x.from);
    assert (polls + [x])[..|polls|] == polls && (polls + [x])[|polls|] == x;
  }

  // ---- a stage -----------------------------------------------------------------------------------------

  /** Planning: the manifest is written, the tasks are made. */
  function PlanSteps(stages: Stages, wd: World, s: nat): seq<Step>
    requires s < |stages|
  {
    [WriteManifest(s, ManifestFor(Planned(stages, wd, s)))] + Registers(PlannedTasks(stages, wd, s))
  }

  /** What planning over `ups` makes. */
  lemma PlanOver(stages: Stages, wd: World, s: nat, ups: seq<P.Chunk>, own: seq<Step>)
    requires s < |stages| && (stages[s].input.ReadsStage? ==> stages[s].input.index in wd.manifests)
    requires ups == UpstreamChunks(stages[s], if stages[s].input.ReadsStage? then wd.manifests[stages[s].input.index] else [])
    ensures Ups(stages, wd, s) == ups && Planned(stages, wd, s) == PlanChunks(stages[s], ups)
    ensures PlannedTasks(stages, wd, s) == TasksFor(s, stages[s], PlanChunks(stages[s], ups))
    ensures own + PlanSteps(stages, wd, s)
      == own + [WriteManifest(s, ManifestFor(Planned(stages, wd, s)))] + Registers(PlannedTasks(stages, wd, s))
  {
  }

  lemma UpstreamThere(stages: Stages, wd: World, s: nat)
    requires s < |stages| && MayPlan(stages, wd, s)
    ensures stages[s].input.ReadsStage? ==> stages[s].input.index in wd.manifests
  {
  }

  /** The pending tasks were enqueued in order, all of them, or the first alone when the smoke gate failed. */
  ghost predicate HandedOut(before: seq<Step>, after: seq<Step>, pending: seq<Task>, failed: bool) {
    || after == before + Sends(TaskKeys(pending))
    || (failed && |pending| > 1 && after == before + Sends([pending[0].key]))
  }

  lemma SendsAppend(a: seq<Key>, b: seq<Key>)
    ensures Sends(a + b) == Sends(a) + Sends(b)
  {
  }

  lemma HandedBehindGate(before: seq<Step>, pending: seq<Task>, failed: bool)
    requires |pending| > 1
    ensures HandedOut(before, before + Sends([pending[0].key]) + Sends(TaskKeys(pending[1..])), pending, failed)
  {
    hide Sends, TaskKeys;
    var k, ks := [pending[0].key], TaskKeys(pending[1..]);
    GateKeyFirst(pending);
    SendsAppend(k, ks);
    assert before + Sends(k) + Sends(ks) == before + (Sends(k) + Sends(ks));
  }

  lemma GateKeyFirst(pending: seq<Task>)
    requires pending != []
    ensures TaskKeys(pending) == [pending[0].key] + TaskKeys(pending[1..])
  {
  }

  lemma AllHanded(before: seq<Step>, pending: seq<Task>)
    ensures forall failed :: HandedOut(before, before + Sends(TaskKeys(pending)), pending, failed)
  {
  }

  lemma GateAlone(before: seq<Step>, after: seq<Step>, pending: seq<Task>)
    requires |pending| > 1
    ensures after == before + Sends([pending[0].key]) ==> HandedOut(before, after, pending, true)
  {
  }

  lemma NothingToHand(own: seq<Step>, failed: bool)
    ensures HandedOut(own, own, [], failed)
  {
    assert Sends(TaskKeys([])) == [];
  }
}
