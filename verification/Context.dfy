/** What a stage function is given: its slice of the upstream data, and a streamed output of its own. */
module Context {
  import opened Sequences
  import opened Store
  import Names
  import P = Partition

  /** The `_in` entry of a task's parameters. A source member's `params` stand for the records its reader yields. */
  datatype InSpec = NoInput | FromSource(members: seq<P.Ref>) | FromStage(name: string, members: seq<P.Ref>)

  function ChunkPrefix(stage: string, chunk: string): string {
    "data/" + stage + "/" + chunk
  }

  /** The records of one member. */
  ghost function MemberRecords(objects: Objects, spec: InSpec, m: P.Ref): seq<Record> {
    match spec
    case NoInput => []
    case FromSource(_) => m.params
    case FromStage(name, _) => ReadAll(objects, ChunkPrefix(name, m.id) + "/")
  }

  function Members(spec: InSpec): seq<P.Ref> {
    if spec.NoInput? then [] else spec.members
  }

  ghost function InputRecords(objects: Objects, spec: InSpec, ms: seq<P.Ref>): seq<Record> {
    if ms == [] then [] else MemberRecords(objects, spec, ms[0]) + InputRecords(objects, spec, ms[1..])
  }

  lemma {:induction false} InputSnoc(objects: Objects, spec: InSpec, ms: seq<P.Ref>, m: P.Ref)
    ensures InputRecords(objects, spec, ms + [m]) == InputRecords(objects, spec, ms) + MemberRecords(objects, spec, m)
  {
    hide MemberRecords;
    if ms == [] {
      assert ms + [m] == [m] && [m][1..] == [];
    } else {
      InputSnoc(objects, spec, ms[1..], m);
      assert (ms + [m])[1..] == ms[1..] + [m] && (ms + [m])[0] == ms[0];
    }
  }

  /** The records of each member of a source, as its reader yields them. */
  function Yielded(ms: seq<P.Ref>): (r: seq<seq<Record>>)
    ensures |r| == |ms| && forall i :: 0 <= i < |r| ==> r[i] == ms[i].params
  {
    seq(|ms|, i requires 0 <= i < |ms| => ms[i].params)
  }

  /** What lies stored under each member of a stage. */
  ghost function StoredFor(objects: Objects, name: string, ms: seq<P.Ref>): (r: seq<seq<Record>>)
    ensures |r| == |ms| && forall i :: 0 <= i < |r| ==> r[i] == ReadAll(objects, ChunkPrefix(name, ms[i].id) + "/")
  {
    seq(|ms|, i requires 0 <= i < |ms| => ReadAll(objects, ChunkPrefix(name, ms[i].id) + "/"))
  }

  /** The input of a task: of a source the records its members yield, of a stage what is stored for its members, one after
      the other; of nothing none. */
  lemma {:induction false} InputIs(objects: Objects, spec: InSpec, ms: seq<P.Ref>)
    ensures InputRecords(objects, spec, ms) ==
      match spec
      case NoInput => []
      case FromSource(_) => Concat(Yielded(ms))
      case FromStage(name, _) => Concat(StoredFor(objects, name, ms))
    decreases |ms|
  {
    hide ReadAll, ChunkPrefix;
    if ms != [] {
      InputIs(objects, spec, ms[1..]);
      assert Yielded(ms)[1..] == Yielded(ms[1..]);
      if spec.FromStage? { assert StoredFor(objects, spec.name, ms)[1..] == StoredFor(objects, spec.name, ms[1..]); }
    }
  }

  predicate NoSlash(s: string) { '/' !in s }

  /** What follows the first slash. */
  lemma HeadsMatch(a: string, x: string, b: string, y: string)
    requires NoSlash(a) && NoSlash(b)
    ensures a + "/" + x <= b + "/" + y <==> a == b && x <= y
  {
    var s, t := a + "/" + x, b + "/" + y;
    assert s[|a|] == '/' && t[|b|] == '/';
    assert s[..|a|] == a && t[..|b|] == b && s[|a| + 1..] == x && t[|b| + 1..] == y;
    if s <= t {
      assert s[|a|] == t[|a|];
      assert |a| == |b|;
      assert t[..|a|] == s[..|a|];
      assert forall i :: 0 <= i < |x| ==> x[i] == s[|a| + 1 + i] == t[|a| + 1 + i] == y[i];
    }
  }

  lemma Tail(d: string, x: string, y: string)
    ensures d + x <= d + y <==> x <= y
  {
    if d + x <= d + y {
      assert forall i :: 0 <= i < |x| ==> x[i] == (d + x)[|d| + i] == (d + y)[|d| + i] == y[i];
    }
  }

  /** A name without a slash that follows `y/` is under `x/` exactly when `x` is `y` or a directory above it. */
  lemma UnderIff(x: string, y: string, part: string)
    requires NoSlash(part)
    ensures x + "/" <= y + "/" + part <==> x == y || x + "/" <= y
  {
    var s, t := x + "/", y + "/" + part;
    assert s[|x|] == '/';
    if |y| < |x| < |t| {
      assert t[|x|] == part[|x| - |y| - 1] != '/';
    }
    if s <= t {
      assert t[|x|] == '/';
      assert forall i :: 0 <= i < |x| ==> x[i] == s[i] == t[i] == y[i];
      assert |x| < |y| ==> y[|x|] == t[|x|];
    }
    if x + "/" <= y {
      assert t == y + ("/" + part);
    }
  }

  lemma PartTailHasNoSlash(i: nat, f: Format)
    ensures NoSlash(PartTail(i, f))
  {
    var digits: string := Names.Pad5(i);
    assert NoSlash("part-") && NoSlash(".") && NoSlash(Ext(f));
    assert NoSlash(digits);
  }

  /**
   Exactly when listing one chunk sees a part of another: when their paths are the same, or the path of the first, with a
   slash, begins that of the second.
   */
  lemma SeenIff(stage: string, chunk: string, stage': string, chunk': string, i: nat, f: Format)
    ensures StartsWith(PartKey(ChunkPrefix(stage', chunk'), i, f), ChunkPrefix(stage, chunk) + "/")
      <==> (ChunkPrefix(stage, chunk) == ChunkPrefix(stage', chunk')
        || ChunkPrefix(stage, chunk) + "/" <= ChunkPrefix(stage', chunk'))
  {
    PartTailHasNoSlash(i, f);
    PartKeyTail(ChunkPrefix(stage', chunk'), i, f);
    UnderIff(ChunkPrefix(stage, chunk), ChunkPrefix(stage', chunk'), PartTail(i, f));
  }

  /** Without slashes in names that comes down to being the same chunk of the same stage. */
  lemma ChunksApart(stage: string, chunk: string, stage': string, chunk': string, i: nat, f: Format)
    requires NoSlash(stage) && NoSlash(chunk) && NoSlash(stage') && NoSlash(chunk')
    ensures StartsWith(PartKey(ChunkPrefix(stage', chunk'), i, f), ChunkPrefix(stage, chunk) + "/")
      <==> stage == stage' && chunk == chunk'
  {
    SeenIff(stage, chunk, stage', chunk', i, f);
    PathsMatch("data/", stage, chunk, stage', chunk');
  }

  lemma NotBelow(a: string, b: string)
    requires NoSlash(b)
    ensures !(a + "/" <= b)
  {
    assert (a + "/")[|a|] == '/';
    if |a| < |b| {
      assert b[|a|] in b;
    }
  }

  lemma PathsMatch(d: string, stage: string, chunk: string, stage': string, chunk': string)
    requires NoSlash(stage) && NoSlash(chunk) && NoSlash(stage') && NoSlash(chunk')
    ensures var x, y := d + stage + "/" + chunk, d + stage' + "/" + chunk';
      (x == y || x + "/" <= y) <==> stage == stage' && chunk == chunk'
  {
    var x, y := d + stage + "/" + chunk, d + stage' + "/" + chunk';
    assert x == d + (stage + "/" + chunk) && y == d + (stage' + "/" + chunk');
    assert x + "/" == d + (stage + "/" + (chunk + "/"));
    Tail(d, stage + "/" + chunk, stage' + "/" + chunk');
    Tail(d, stage + "/" + (chunk + "/"), stage' + "/" + chunk');
    HeadsMatch(stage, chunk, stage', chunk');
    HeadsMatch(stage, chunk + "/", stage', chunk');
    if x == y {
      HeadsMatch(stage', chunk', stage, chunk);
      assert x <= y && |chunk| == |chunk'|;
    }
    NotBelow(chunk, chunk');
  }

  lemma PathBelow(stage: string, a: string, b: string)
    ensures ChunkPrefix(stage, a) + "/" <= ChunkPrefix(stage, a + "/" + b)
  {
    assert ChunkPrefix(stage, a + "/" + b) == ChunkPrefix(stage, a) + "/" + b;
  }

  /** With a slash in a chunk id another chunk is seen: the parts of `a/b` lie under `a`. */
  lemma SlashesMixChunks(stage: string, a: string, b: string, i: nat, f: Format)
    ensures StartsWith(PartKey(ChunkPrefix(stage, a + "/" + b), i, f), ChunkPrefix(stage, a) + "/")
  {
    hide ChunkPrefix, PartKey;
    SeenIff(stage, a, stage, a + "/" + b, i, f);
    PathBelow(stage, a, b);
  }

  /** How keys are spelled: part 7 of chunk `c` of stage `s`. */
  lemma KeySpelled()
    ensures ChunkPrefix("s", "c") == "data/s/c"
    ensures PartTail(7, Jsonl) == "part-00007.jsonl" && PartTail(7, Parquet) == "part-00007.parquet"
    ensures PartKey("data/s/c", 7, Jsonl) == "data/s/c" + "/" + PartTail(7, Jsonl)
  {
    hide PartKey;
    SevenPadded();
    PartKeyTail("data/s/c", 7, Jsonl);
    assert "part-" + "00007" + "." == "part-00007.";
    assert "part-00007." + "jsonl" == "part-00007.jsonl" && "part-00007." + "parquet" == "part-00007.parquet";
  }

  lemma SevenPadded()
    ensures Names.Pad5(7) == "00007"
  {
    assert Names.Digits(0, 0) == "";
    assert Names.Digits(0, 1) == Names.Digits(0, 0) + [Names.DigitChar(0)] == "0";
    assert Names.Digits(0, 2) == Names.Digits(0, 1) + [Names.DigitChar(0)] == "00";
    assert Names.Digits(0, 3) == Names.Digits(0, 2) + [Names.DigitChar(0)] == "000";
    assert Names.Digits(0, 4) == Names.Digits(0, 3) + [Names.DigitChar(0)] == "0000";
    assert Names.Digits(7, 5) == Names.Digits(0, 4) + [Names.DigitChar(7)] == "00007";
  }

  class Ctx {
    const store: LocalStore
    const outPrefix: string
    const capRows: int
    const format: Format
    var writer: PartWriter?
    var outputs: seq<string>

    constructor (store: LocalStore, stage: string, chunk: string, capRows: int, format: Format)
      ensures Valid() && Written() == [] && outputs == []
      ensures this.store == store && outPrefix == ChunkPrefix(stage, chunk) && this.capRows == capRows
      ensures this.format == format
    {
      this.store, outPrefix, this.capRows, this.format := store, ChunkPrefix(stage, chunk), capRows, format;
      writer, outputs := null, [];
    }

    ghost predicate Valid()
      reads this, writer, store
    {
      writer != null ==>
        && writer.store == store && writer.prefix == RStrip(outPrefix)
        && writer.cap == capRows && writer.format == format
        && writer.Streaming()
    }

    /** The records this chunk has written so far. */
    ghost function Written(): seq<Record>
      reads this, writer
    {
      if writer == null then [] else writer.Written()
    }

    /** The task's slice, member after member. */
    method Input(spec: InSpec) returns (out: seq<Record>)
      ensures out == InputRecords(store.objects, spec, Members(spec))
      ensures out == match spec
        case NoInput => []
        case FromSource(ms) => Concat(Yielded(ms))
        case FromStage(name, ms) => Concat(StoredFor(store.objects, name, ms))
    {
      hide ReadAll, ChunkPrefix;
      InputIs(store.objects, spec, Members(spec));
      out := [];
      var ms := Members(spec);
      for i := 0 to |ms|
        invariant out == InputRecords(store.objects, spec, ms[..i])
      {
        InputSnoc(store.objects, spec, ms[..i], ms[i]);
        assert ms[..i + 1] == ms[..i] + [ms[i]];
        if spec.FromSource? {
          out := out + ms[i].params;
        } else {
          var got := ReadMember(spec.name, ms[i].id);
          out := out + got;
        }
      }
      assert ms[..|ms|] == ms;
    }

    method ReadMember(stage: string, chunk: string) returns (got: seq<Record>)
      ensures got == ReadAll(store.objects, ChunkPrefix(stage, chunk) + "/")
    {
      hide ChunkPrefix, Listed, Scope, Listing;
      var prefix := ChunkPrefix(stage, chunk) + "/";
      var keys := store.List(prefix);
      ListingUnique(keys, Listing(store.objects, prefix), store.objects, prefix);
      ListedKeysExist(store.objects, prefix, keys);
      got := [];
      for j := 0 to |keys|
        invariant got == Concat(Fetch(store.objects, keys)[..j])
      {
        var parts := Fetch(store.objects, keys);
        ConcatSnoc(parts[..j], parts[j]);
        assert parts[..j + 1] == parts[..j] + [parts[j]];
        got := got + store.objects[keys[j]];
      }
      assert Fetch(store.objects, keys)[..|keys|] == Fetch(store.objects, keys);
    }

    method Write(records: seq<Record>)
      requires Valid()
      modifies this, writer, store
      ensures Valid() && Written() == old(Written()) + records && outputs == old(outputs)
      ensures old(writer) == null ==> fresh(writer)
      ensures old(writer) != null ==> writer == old(writer)
      ensures exists n: nat :: SameElsewhere(old(store.objects), store.objects, RStrip(outPrefix), format, n)
    {
      if writer == null {
        writer := new PartWriter(store, outPrefix, capRows, format);
      }
      writer.Write(records);
    }

    /** The keys of everything this chunk wrote; a chunk that never called `write` has none. */
    method Finalize() returns (keys: seq<string>)
      requires Valid() && outputs == []
      modifies this, writer, store
      ensures keys == outputs
      ensures var cap, p := if capRows < 1 then 1 else capRows, RStrip(outPrefix);
        var parts := Blocks(old(Written()), cap);
        && keys == PartKeys(p, |parts|, format)
        && Stored(store.objects, p, format, parts)
        && SameElsewhere(old(store.objects), store.objects, p, format, |parts|)
    {
      if writer != null {
        var ks := writer.Close();
        outputs := outputs + ks;
      }
      keys := outputs;
    }
  }
}
