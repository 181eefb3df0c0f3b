/**
 From the one flat store of the classes to the machine's directory per chunk: a context that finishes leaves in the store
 exactly the directory the machine's worker leaves, and reading it back is reading that directory.
 */
module Bridge {
  import opened Sequences
  import opened Names
  import opened Store
  import opened Context
  import M = Machine
  import Q = Queue
  import Soundness

  /** The rest of each key under a prefix. */
  function Tails(objects: Objects, prefix: string): set<string> {
    set k | k in objects && StartsWith(k, prefix + "/") :: k[|prefix|..]
  }

  /** What lies under a chunk's prefix, by the rest of the key. */
  function Sub(objects: Objects, prefix: string): Objects {
    map name | name in Tails(objects, prefix) && prefix + name in objects :: objects[prefix + name]
  }

  lemma SubKeys(objects: Objects, prefix: string, name: string)
    ensures name in Sub(objects, prefix) <==> StartsWith(name, "/") && prefix + name in objects
    ensures name in Sub(objects, prefix) ==> Sub(objects, prefix)[name] == objects[prefix + name]
  {
    var k := prefix + name;
    assert k[|prefix|..] == name;
    Tail(prefix, "/", name);
    forall x | StartsWith(x, prefix + "/") && x[|prefix|..] == name ensures StartsWith(name, "/") {
      assert x == prefix + name by { assert x[..|prefix|] == (prefix + "/")[..|prefix|] == prefix; }
    }
  }

  /** A put of some chunk's part, as a chunk's directory sees it: not at all, unless the one's path is the other's or lies
      below it. So with no such paths every chunk has a directory of its own. */
  lemma SubOfPut(
      objects: Objects, stage: string, chunk: string, stage': string, chunk': string, i: nat, f: Format, data: seq<Record>)
    ensures var prefix, key := ChunkPrefix(stage, chunk), PartKey(ChunkPrefix(stage', chunk'), i, f);
      var after := Sub(objects[key := data], prefix);
      if prefix == ChunkPrefix(stage', chunk') || prefix + "/" <= ChunkPrefix(stage', chunk')
      then |prefix| <= |key| && after == Sub(objects, prefix)[key[|prefix|..] := data]
      else after == Sub(objects, prefix)
  {
    hide ChunkPrefix, PartKey, Sub;
    SeenIff(stage, chunk, stage', chunk', i, f);
    SubOfUpdate(objects, ChunkPrefix(stage, chunk), PartKey(ChunkPrefix(stage', chunk'), i, f), data);
  }

  lemma SubOfUpdate(objects: Objects, prefix: string, key: string, data: seq<Record>)
    ensures StartsWith(key, prefix + "/") ==> |prefix| <= |key|
    ensures Sub(objects[key := data], prefix) ==
      if StartsWith(key, prefix + "/") then Sub(objects, prefix)[key[|prefix|..] := data] else Sub(objects, prefix)
  {
    hide Sub;
    var a, b := Sub(objects, prefix), Sub(objects[key := data], prefix);
    var want := if StartsWith(key, prefix + "/") then a[key[|prefix|..] := data] else a;
    if StartsWith(key, prefix + "/") {
      assert key[..|prefix|] == (prefix + "/")[..|prefix|] == prefix;
      assert key == prefix + key[|prefix|..];
    }
    forall name ensures (name in b <==> name in want) && (name in b ==> b[name] == want[name]) {
      SubKeys(objects, prefix, name);
      SubKeys(objects[key := data], prefix, name);
      Tail(prefix, "/", name);
      assert (prefix + name)[|prefix|..] == name;
    }
  }

  lemma PartKeyShift(prefix: string, i: nat, f: Format)
    ensures PartKey(prefix, i, f) == prefix + PartKey("", i, f)
  {
    var tail := Pad5(i) + ("." + Ext(f));
    assert prefix + "/part-" + tail == prefix + ("" + "/part-" + tail);
  }

  /** The parts of a finished chunk were put over what lay under its prefix. */
  lemma SubAfterParts(before: Objects, after: Objects, prefix: string, f: Format, parts: seq<seq<Record>>)
    requires Stored(after, prefix, f, parts) && SameElsewhere(before, after, prefix, f, |parts|)
    ensures Sub(after, prefix) == Sub(before, prefix) + M.DirOf(f, parts, |parts|)
  {
    hide Sub, M.DirOf, PartKey, Stored, SameElsewhere;
    var dir, a, b := M.DirOf(f, parts, |parts|), Sub(before, prefix), Sub(after, prefix);
    forall name | name in dir ensures name in b && b[name] == dir[name] {
      M.DirNames(f, parts, |parts|, name);
      var i :| 0 <= i < |parts| && name == PartKey("", i, f);
      M.DirAt(f, parts, |parts|, i);
      PartInSub(after, prefix, f, parts, i);
    }
    forall name | name !in dir ensures (name in b <==> name in a) && (name in a ==> b[name] == a[name]) {
      OtherName(before, after, prefix, f, parts, name);
    }
  }

  lemma OtherName(before: Objects, after: Objects, prefix: string, f: Format, parts: seq<seq<Record>>, name: string)
    requires SameElsewhere(before, after, prefix, f, |parts|) && name !in M.DirOf(f, parts, |parts|)
    ensures name in Sub(after, prefix) <==> name in Sub(before, prefix)
    ensures name in Sub(before, prefix) ==> Sub(after, prefix)[name] == Sub(before, prefix)[name]
  {
    hide Sub, M.DirOf, PartKey;
    SubKeys(before, prefix, name);
    SubKeys(after, prefix, name);
    if prefix + name in PartKeys(prefix, |parts|, f) {
      var i :| 0 <= i < |parts| && PartKeys(prefix, |parts|, f)[i] == prefix + name;
      PartKeyShift(prefix, i, f);
      SameRests(prefix, name, PartKey("", i, f));
      M.DirAt(f, parts, |parts|, i);
      assert false;
    }
  }

  lemma PartInSub(objects: Objects, prefix: string, f: Format, parts: seq<seq<Record>>, i: nat)
    requires Stored(objects, prefix, f, parts) && i < |parts|
    ensures PartKey("", i, f) in Sub(objects, prefix) && Sub(objects, prefix)[PartKey("", i, f)] == parts[i]
  {
    PartKeyShift(prefix, i, f);
    PartKeyTail("", i, f);
    assert PartKey(prefix, i, f) in objects;
    SubKeys(objects, prefix, PartKey("", i, f));
    assert "" + "/" == "/";
    Tail("/", "", PartTail(i, f));
  }

  /** No key under the prefix has a second slash right after the first. */
  ghost predicate Plain(objects: Objects, prefix: string) {
    forall k :: k in objects ==> !StartsWith(k, prefix + "//")
  }

  lemma PlainScope(objects: Objects, prefix: string)
    requires Plain(objects, prefix)
    ensures Scope(objects, prefix + "/") == prefix + "/"
    ensures Scope(Sub(objects, prefix), "/") == "/"
  {
    assert prefix + "/" + "/" == prefix + "//";
    forall k | k in Sub(objects, prefix) ensures !StartsWith(k, "/" + "/") {
      SubKeys(objects, prefix, k);
      Tail(prefix, "//", k);
      assert "/" + "/" == "//";
    }
  }

  lemma SubListed(objects: Objects, prefix: string, name: string)
    requires Plain(objects, prefix) && StartsWith(name, "/")
    ensures Listed(Sub(objects, prefix), "/", name) <==> Listed(objects, prefix + "/", prefix + name)
  {
    PlainScope(objects, prefix);
    SubKeys(objects, prefix, name);
    Tail(prefix, "/", name);
    SameSuffix(prefix, name);
  }

  /** A name that starts with a slash ends in `.part` by itself or not at all. */
  lemma SameSuffix(prefix: string, name: string)
    requires StartsWith(name, "/")
    ensures EndsWith(prefix + name, ".part") <==> EndsWith(name, ".part")
  {
    var k := prefix + name;
    assert k[|prefix|] == '/';
    if |name| >= 5 {
      assert k[|k| - 5..] == name[|name| - 5..];
    } else if |k| >= 5 {
      assert k[|k| - 5..][5 - |name|] == '/';
    }
  }

  function Prefixed(prefix: string, names: seq<string>): (r: seq<string>)
    ensures |r| == |names| && forall i :: 0 <= i < |r| ==> r[i] == prefix + names[i]
  {
    seq(|names|, i requires 0 <= i < |names| => prefix + names[i])
  }

  lemma PrefixedAscending(prefix: string, names: seq<string>)
    requires Ascending(names)
    ensures Ascending(Prefixed(prefix, names))
  {
    forall i, j | 0 <= i < j < |names| ensures Less(prefix + names[i], prefix + names[j]) {
      LessPrefix(prefix, names[i], names[j]);
    }
  }

  lemma ListedStartsWithSlash(dir: Objects, name: string)
    requires Listed(dir, "/", name)
    ensures StartsWith(name, "/")
  {
    assert "/" + "/" == "//";
    if StartsWith(name, "//") { assert name[0] == '/'; }
  }

  /** Listing a chunk lists its directory. */
  lemma SubListing(objects: Objects, prefix: string)
    requires Plain(objects, prefix)
    ensures Listing(objects, prefix + "/") == Prefixed(prefix, Listing(Sub(objects, prefix), "/"))
  {
    var l, dir := Listing(Sub(objects, prefix), "/"), Sub(objects, prefix);
    var keys := Prefixed(prefix, l);
    PrefixedAscending(prefix, l);
    PlainScope(objects, prefix);
    forall k ensures k in keys <==> Listed(objects, prefix + "/", k) {
      if k in keys {
        var i :| 0 <= i < |l| && keys[i] == k;
        assert l[i] in l;
        ListedStartsWithSlash(dir, l[i]);
        SubListed(objects, prefix, l[i]);
      }
      if Listed(objects, prefix + "/", k) {
        var name := k[|prefix|..];
        assert k == prefix + name by { assert k[..|prefix|] == (prefix + "/")[..|prefix|] == prefix; }
        Tail(prefix, "/", name);
        SubListed(objects, prefix, name);
        assert name in l;
        var i :| 0 <= i < |l| && l[i] == name;
        assert keys[i] == k;
      }
    }
    ListingUnique(keys, Listing(objects, prefix + "/"), objects, prefix + "/");
  }

  /** Reading a chunk out of the flat store is reading its directory. */
  lemma ReadsAgree(objects: Objects, prefix: string)
    requires Plain(objects, prefix)
    ensures ReadAll(objects, prefix + "/") == ReadAll(Sub(objects, prefix), "/")
  {
    var dir := Sub(objects, prefix);
    var l, keys := Listing(dir, "/"), Listing(objects, prefix + "/");
    SubListing(objects, prefix);
    ListedKeysExist(dir, "/", l);
    ListedKeysExist(objects, prefix + "/", keys);
    var a, b := Fetch(objects, keys), Fetch(dir, l);
    forall i | 0 <= i < |l| ensures a[i] == b[i] {
      SubKeys(objects, prefix, l[i]);
    }
    assert a == b;
  }

  lemma StaysPlain(before: Objects, after: Objects, prefix: string, f: Format, n: nat)
    requires Plain(before, prefix) && SameElsewhere(before, after, prefix, f, n)
    ensures Plain(after, prefix)
  {
    hide PartKey;
    forall k | k in after ensures !StartsWith(k, prefix + "//") {
      if k in PartKeys(prefix, n, f) {
        var i :| 0 <= i < n && PartKeys(prefix, n, f)[i] == k;
        PartKeyTail(prefix, i, f);
        assert k[|prefix| + 1] == PartTail(i, f)[0] == 'p';
        assert (prefix + "//")[|prefix| + 1] == '/';
      }
    }
  }

  /**
   A chunk that finished: the context stored the parts of what was written, over whatever lay there, as parts of an attempt
   that was abandoned. Its place in the store is then the machine's directory after a clean execution over what lay there,
   and reads back as the machine reads it.
   */
  lemma FinishedChunk(before: Objects, after: Objects, prefix: string, f: Format, written: seq<Record>, cap: nat)
    requires cap >= 1
    requires var parts := Blocks(written, cap);
      SameElsewhere(before, after, prefix, f, |parts|) && Stored(after, prefix, f, parts)
    ensures var parts := Blocks(written, cap);
      var dir := Sub(before, prefix) + M.DirOf(f, parts, |parts|);
      Sub(after, prefix) == dir && (Plain(before, prefix) ==> ReadAll(after, prefix + "/") == ReadAll(dir, "/"))
  {
    hide Sub, M.DirOf, PartKey, Stored, SameElsewhere, ReadAll, Plain;
    var parts := Blocks(written, cap);
    SubAfterParts(before, after, prefix, f, parts);
    if Plain(before, prefix) {
      StaysPlain(before, after, prefix, f, |parts|);
      ReadsAgree(after, prefix);
    }
  }

  // ---- what a task reads -----------------------------------------------------------------

  /** The `_in` entry of a task's parameters, with the stages' names. */
  function SpecOf(t: M.Task, name: nat -> string): InSpec {
    match t.up
    case NoReads => NoInput
    case FromSource => FromSource(t.members)
    case FromStage(j) => FromStage(name(j), t.members)
  }

  /** The store holds, under every member of a stage, that chunk's directory. */
  ghost predicate HoldsMembers(objects: Objects, wd: M.World, t: M.Task, name: nat -> string) {
    t.up.FromStage? ==> forall i :: 0 <= i < |t.members| ==>
      var prefix := ChunkPrefix(name(t.up.index), t.members[i].id);
      Plain(objects, prefix) && Sub(objects, prefix) == M.Dir(wd, M.MemberKey(t, t.members[i]))
  }

  /** What the machine's worker reads for the first `n` members. */
  function ReadsOf(wd: M.World, t: M.Task, n: nat): (r: seq<seq<Record>>)
    requires n <= |t.members|
    ensures |r| == n && forall i :: 0 <= i < n ==> r[i] == M.ReadOne(wd, t, i)
  {
    seq(n, i requires 0 <= i < n => M.ReadOne(wd, t, i))
  }

  lemma {:induction false} ConcatNothing(ss: seq<seq<Record>>)
    requires forall i :: 0 <= i < |ss| ==> ss[i] == []
    ensures Concat(ss) == []
  {
    if ss != [] { ConcatNothing(ss[1..]); }
  }

  /** What a context's `input` returns for a task is what the machine's worker reads for its members, one after the other. */
  lemma InputIsRead(objects: Objects, wd: M.World, t: M.Task, name: nat -> string)
    requires HoldsMembers(objects, wd, t, name)
    ensures InputRecords(objects, SpecOf(t, name), Members(SpecOf(t, name))) == Concat(ReadsOf(wd, t, |t.members|))
  {
    hide ReadAll, ChunkPrefix, Sub, Plain;
    var spec := SpecOf(t, name);
    InputIs(objects, spec, Members(spec));
    var all := ReadsOf(wd, t, |t.members|);
    match t.up {
      case NoReads => ConcatNothing(all);
      case FromSource => assert all == Yielded(t.members);
      case FromStage(j) =>
        forall i | 0 <= i < |t.members|
          ensures ReadAll(objects, ChunkPrefix(name(j), t.members[i].id) + "/") == M.ReadOne(wd, t, i)
        {
          ReadsAgree(objects, ChunkPrefix(name(j), t.members[i].id));
        }
        assert all == StoredFor(objects, name(j), t.members);
    }
  }

  lemma {:induction false} GotIsRead(p: M.Program, wd: M.World, k: Q.Key, n: nat)
    requires Soundness.StoreOk(p, wd) && Soundness.Fed(wd, k) && n <= |wd.tasks[k].members|
    ensures M.InputUpTo(p, wd.tasks, k, n) == Concat(ReadsOf(wd, wd.tasks[k], n))
  {
    hide M.ReadOne, M.MemberData, Soundness.ChunkOk;
    var t := wd.tasks[k];
    if n > 0 {
      GotIsRead(p, wd, k, n - 1);
      Soundness.ReadOneIs(p, wd, k, n - 1);
      assert ReadsOf(wd, t, n) == ReadsOf(wd, t, n - 1) + [M.ReadOne(wd, t, n - 1)];
      ConcatSnoc(ReadsOf(wd, t, n - 1), M.ReadOne(wd, t, n - 1));
    }
  }

  /** A worker of the machine that has read all members of its task holds what the context's `input` returns. The stage
      function is run on this, and its output cut into parts of as many rows as the context's writer puts into one. */
  lemma WorkerHasInput(p: M.Program, wd: M.World, w: nat, objects: Objects, name: nat -> string)
    requires Soundness.Inv(p, wd) && w in wd.workers && wd.workers[w].Reading? && wd.workers[w].key in wd.tasks
    requires wd.workers[w].n == |wd.tasks[wd.workers[w].key].members|
    requires HoldsMembers(objects, wd, wd.tasks[wd.workers[w].key], name)
    ensures var x, t := wd.workers[w], wd.tasks[wd.workers[w].key];
      var input := InputRecords(objects, SpecOf(t, name), Members(SpecOf(t, name)));
      && x.got == input
      && M.Apply(p, wd, M.Compute(w)).workers[w]
        == M.Writing(x.key, Blocks(p.run(x.key.stage, input), if p.capRows(x.key.stage) < 1 then 1 else p.capRows(x.key.stage)), 0)
  {
    hide Blocks, HoldsMembers, SpecOf, InputRecords, Soundness.ChunkOk, Soundness.QueueOk;
    var x, t := wd.workers[w], wd.tasks[wd.workers[w].key];
    InputIsRead(objects, wd, t, name);
    assert Soundness.WorkerOk(p, wd, x);
    GotIsRead(p, wd, x.key, x.n);
  }
}
