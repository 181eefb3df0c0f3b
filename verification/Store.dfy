/**
 The object store, the part writer that streams a chunk's output into it, and the reader that lists the parts back.
 A stored object is the list of records it decodes to; a put is one atomic step.
 */
module Store {
  import opened Sequences
  import opened Names

  type Objects = map<string, seq<Record>>

  predicate StartsWith(s: string, p: string) { p <= s }

  predicate EndsWith(s: string, t: string) { |t| <= |s| && s[|s| - |t|..] == t }

  /** What `list(prefix)` walks: a prefix that names a directory means what is inside it. */
  function Scope(objects: Objects, prefix: string): string {
    if exists k :: k in objects && StartsWith(k, prefix + "/") then prefix + "/" else prefix
  }

  predicate Listed(objects: Objects, prefix: string, k: string) {
    k in objects && StartsWith(k, Scope(objects, prefix)) && !EndsWith(k, ".part")
  }

  /** `out` is what `list(prefix)` returns: the keys in scope, temporary files left out, in ascending order. */
  ghost predicate IsListing(out: seq<string>, objects: Objects, prefix: string) {
    && Ascending(out)
    && forall k :: k in out <==> Listed(objects, prefix, k)
  }

  class LocalStore {
    var objects: Objects

    constructor ()
      ensures objects == map[]
    {
      objects := map[];
    }

    method PutBytes(key: string, data: seq<Record>)
      modifies this
      ensures objects == old(objects)[key := data]
    {
      objects := objects[key := data];
    }

    method List(prefix: string) returns (out: seq<string>)
      ensures IsListing(out, objects, prefix)
    {
      var isDir := false;
      var scan := objects.Keys;
      while scan != {}
        invariant scan <= objects.Keys
        invariant isDir <==> exists k :: k in objects.Keys - scan && StartsWith(k, prefix + "/")
        decreases |scan|
      {
        var k :| k in scan;
        isDir := isDir || StartsWith(k, prefix + "/");
        scan := scan - {k};
      }
      var scope := if isDir then prefix + "/" else prefix;
      assert scope == Scope(objects, prefix);
      var found: seq<string> := [];
      var rest := objects.Keys;
      while rest != {}
        invariant rest <= objects.Keys
        invariant forall k :: k in found <==> k in objects.Keys - rest && StartsWith(k, scope) && !EndsWith(k, ".part")
        decreases |rest|
      {
        var k :| k in rest;
        if StartsWith(k, scope) && !EndsWith(k, ".part") {
          found := found + [k];
        }
        rest := rest - {k};
      }
      SortAscending(found);
      out := Sort(found);
    }
  }

  /** The listing of a prefix is unique: two callers who list the same store see the same keys in the same order. */
  lemma ListingUnique(a: seq<string>, b: seq<string>, objects: Objects, prefix: string)
    requires IsListing(a, objects, prefix) && IsListing(b, objects, prefix)
    ensures a == b
  {
    AscendingUnique(a, b);
  }

  /** Whether a key is listed, from the keys alone: it begins with the prefix, a temporary file is never listed, and when
      there are keys inside the directory the prefix names, only those are. */
  lemma ListedIff(out: seq<string>, objects: Objects, prefix: string, k: string)
    requires IsListing(out, objects, prefix)
    ensures k in out ==> k in objects && prefix <= k && (|k| < 5 || k[|k| - 5..] != ".part")
    ensures k in out && prefix + "/" <= k ==> forall x :: x in out ==> prefix + "/" <= x
    ensures k in objects && prefix + "/" <= k && (|k| < 5 || k[|k| - 5..] != ".part") ==> k in out
    ensures k in objects && prefix <= k && (|k| < 5 || k[|k| - 5..] != ".part") && k !in out ==>
      !(prefix + "/" <= k) && exists x :: x in objects && prefix + "/" <= x
  {
    if k in out && StartsWith(k, prefix + "/") {
      forall i | 0 <= i < |prefix| ensures k[i] == prefix[i] { assert (prefix + "/")[i] == prefix[i]; }
    }
  }

  // ---- parts --------------------------------------------------------------------

  datatype Format = Parquet | Jsonl

  function Ext(f: Format): string { if f == Parquet then "parquet" else "jsonl" }

  /** `f"{prefix}/part-{i:05d}.{fmt}"` */
  function PartKey(prefix: string, i: nat, f: Format): string {
    prefix + "/part-" + (Pad5(i) + ("." + Ext(f)))
  }

  /** A part's file name. */
  function PartTail(i: nat, f: Format): string { "part-" + Pad5(i) + "." + Ext(f) }

  lemma PartKeyTail(prefix: string, i: nat, f: Format)
    ensures PartKey(prefix, i, f) == prefix + "/" + PartTail(i, f)
  {
    SlashPart(prefix, Pad5(i), Ext(f));
  }

  lemma SlashPart(prefix: string, a: string, b: string)
    ensures prefix + "/part-" + a + "." + b == prefix + "/" + ("part-" + a + "." + b)
  {
    assert "/" + "part-" == "/part-";
    assert prefix + "/part-" == prefix + "/" + "part-";
  }

  function PartKeys(prefix: string, n: nat, f: Format): (r: seq<string>)
    ensures |r| == n
  {
    seq(n, i requires 0 <= i < n => PartKey(prefix, i, f))
  }

  lemma PartKeyInjective(prefix: string, i: nat, j: nat, f: Format)
    requires PartKey(prefix, i, f) == PartKey(prefix, j, f)
    ensures i == j
  {
    var head, ext := prefix + "/part-", "." + Ext(f);
    assert PartKey(prefix, i, f)[|head|..] == Pad5(i) + ext;
    assert PartKey(prefix, j, f)[|head|..] == Pad5(j) + ext;
    var x, y := Pad5(i) + ext, Pad5(j) + ext;
    assert Pad5(i) == x[..|x| - |ext|] && Pad5(j) == y[..|y| - |ext|];
    Pad5Injective(i, j);
  }

  lemma PartKeyIsListed(prefix: string, i: nat, f: Format)
    ensures StartsWith(PartKey(prefix, i, f), prefix + "/")
    ensures !EndsWith(PartKey(prefix, i, f), ".part")
  {
    PartKeyTail(prefix, i, f);
    NoTempFile(prefix + "/part-" + Pad5(i) + ".", Ext(f));
    LongerTail(prefix + "/part-", Pad5(i), ".", Ext(f));
  }

  lemma LongerTail(a: string, b: string, c: string, d: string)
    ensures a + (b + (c + d)) == a + b + c + d
  {
  }

  lemma NoTempFile(x: string, ext: string)
    requires |ext| >= 5 && ext[|ext| - 5] != '.'
    ensures !EndsWith(x + ext, ".part")
  {
    var k := x + ext;
    assert k[|k| - 5..][0] == ext[|ext| - 5];
  }

  /** Part names sort in part order exactly up to 100000 parts; the next one gets a sixth digit and sorts too early. */
  lemma PartOrderIff(prefix: string, n: nat, f: Format)
    ensures Ascending(PartKeys(prefix, n, f)) <==> n <= 100000
  {
    var head, ext := prefix + "/part-", "." + Ext(f);
    if n <= 100000 {
      forall i, j | 0 <= i < j < n ensures Less(PartKey(prefix, i, f), PartKey(prefix, j, f)) {
        Pad5Order(i, j, ext);
        LessPrefix(head, Pad5(i) + ext, Pad5(j) + ext);
      }
    } else {
      var a, b := Pad5(99999) + ext, Pad5(100000) + ext;
      SixthDigit();
      assert b[0] == '1' && a[0] == '9';
      assert Less(b, a);
      LessPrefix(head, b, a);
      var ks := PartKeys(prefix, n, f);
      assert Less(ks[100000], ks[99999]);
      if Less(ks[99999], ks[100000]) {
        LessTransitive(ks[99999], ks[100000], ks[99999]);
        LessIrreflexive(ks[99999]);
      }
    }
  }

  // ---- what a reader sees ------------------------------------------------------------

  lemma {:induction false} FirstExists(ks: set<string>)
    requires ks != {}
    ensures exists m :: IsFirst(m, ks)
  {
    var k :| k in ks;
    var rest := ks - {k};
    if rest == {} {
      assert ks == {k};
      assert IsFirst(k, ks);
    } else {
      FirstExists(rest);
      var m :| IsFirst(m, rest);
      LessTotal(k, m);
      if Less(k, m) {
        forall x | x in ks && x != k ensures Less(k, x) {
          if x != m { LessTransitive(k, m, x); }
        }
        assert IsFirst(k, ks);
      } else {
        assert IsFirst(m, ks);
      }
    }
  }

  predicate IsFirst(m: string, ks: set<string>) {
    m in ks && forall x :: x in ks ==> x == m || Less(m, x)
  }

  /** A set of keys in ascending order. */
  function Ordered(ks: set<string>): (out: seq<string>)
    ensures Ascending(out) && forall k :: k in out <==> k in ks
  {
    if ks == {} then [] else
    FirstExists(ks);
    FirstUnique(ks);
    var m :| m in ks && IsFirst(m, ks);
    [m] + Ordered(ks - {m})
  }

  lemma FirstUnique(ks: set<string>)
    ensures forall m, n :: IsFirst(m, ks) && IsFirst(n, ks) ==> m == n
  {
    forall m, n | IsFirst(m, ks) && IsFirst(n, ks) ensures m == n {
      if m != n {
        LessTransitive(m, n, m);
        LessIrreflexive(m);
      }
    }
  }

  /** `list(prefix)` as a function of the store. */
  function Listing(objects: Objects, prefix: string): (out: seq<string>)
    ensures IsListing(out, objects, prefix)
  {
    Ordered(set k | k in objects && Listed(objects, prefix, k))
  }

  function Fetch(objects: Objects, keys: seq<string>): (r: seq<seq<Record>>)
    requires forall i :: 0 <= i < |keys| ==> keys[i] in objects
    ensures |r| == |keys|
  {
    seq(|keys|, i requires 0 <= i < |keys| => objects[keys[i]])
  }

  /** Every record under a prefix, part after part in listing order. */
  function ReadAll(objects: Objects, prefix: string): seq<Record> {
    var keys := Listing(objects, prefix);
    ListedKeysExist(objects, prefix, keys);
    Concat(Fetch(objects, keys))
  }

  lemma ListedKeysExist(objects: Objects, prefix: string, keys: seq<string>)
    requires IsListing(keys, objects, prefix)
    ensures forall i :: 0 <= i < |keys| ==> keys[i] in objects
  {
    forall i | 0 <= i < |keys| ensures keys[i] in objects {
      assert keys[i] in keys;
      assert Listed(objects, prefix, keys[i]);
    }
  }

  // ---- cutting a stream into parts ----------------------------------------------------

  /** The parts a stream of records makes: `cap` rows each, the last one what is left. */
  function Blocks(s: seq<Record>, cap: nat): seq<seq<Record>>
    requires cap >= 1
  {
    if s == [] then [] else if |s| <= cap then [s] else [s[..cap]] + Blocks(s[cap..], cap)
  }

  /** Parts lose nothing, and every part but the last is full. */
  lemma {:induction false} BlocksLaws(s: seq<Record>, cap: nat)
    requires cap >= 1
    ensures Concat(Blocks(s, cap)) == s
    ensures forall i :: 0 <= i < |Blocks(s, cap)| ==> 1 <= |Blocks(s, cap)[i]| <= cap
    ensures forall i :: 0 <= i < |Blocks(s, cap)| - 1 ==> |Blocks(s, cap)[i]| == cap
  {
    if |s| > cap {
      BlocksLaws(s[cap..], cap);
      assert s == s[..cap] + s[cap..];
      assert Blocks(s, cap)[1..] == Blocks(s[cap..], cap);
    } else if s != [] {
      assert Concat([s]) == s + Concat([s][1..]);
    }
  }

  ghost predicate AllFull(full: seq<seq<Record>>, cap: nat) {
    forall i :: 0 <= i < |full| ==> |full[i]| == cap
  }

  /** Full parts and a shorter rest are the parts of the whole stream. */
  lemma {:induction false} BlocksOf(full: seq<seq<Record>>, rest: seq<Record>, cap: nat)
    requires cap >= 1 && AllFull(full, cap) && |rest| <= cap
    ensures Blocks(Concat(full) + rest, cap) == full + (if rest == [] then [] else [rest])
  {
    if full != [] {
      var tail := Concat(full[1..]) + rest;
      BlocksOf(full[1..], rest, cap);
      var s := Concat(full) + rest;
      assert s == full[0] + tail;
      assert s[..cap] == full[0] && s[cap..] == tail;
      assert full == [full[0]] + full[1..];
    } else {
      assert Concat(full) + rest == rest;
    }
  }

  /** Part `i` of the stream is stored, for every `i`. */
  ghost predicate Stored(objects: Objects, prefix: string, f: Format, parts: seq<seq<Record>>) {
    forall i :: 0 <= i < |parts| ==> PartKey(prefix, i, f) in objects && objects[PartKey(prefix, i, f)] == parts[i]
  }

  /** The two stores agree on everything but the first `n` parts of the prefix. */
  ghost predicate SameElsewhere(a: Objects, b: Objects, prefix: string, f: Format, n: nat) {
    forall k :: k !in PartKeys(prefix, n, f) ==> (k in a <==> k in b) && (k in a ==> a[k] == b[k])
  }

  /** Nothing lies under the prefix but some of its first `n` parts: a fresh chunk, or one an earlier attempt began. */
  ghost predicate OnlyParts(objects: Objects, prefix: string, f: Format, n: nat) {
    forall k :: k in objects && StartsWith(k, prefix + "/") ==> k in PartKeys(prefix, n, f)
  }

  /** Storing one more part. */
  lemma StorePart(objects: Objects, prefix: string, f: Format, full: seq<seq<Record>>, data: seq<Record>, key: string)
    requires Stored(objects, prefix, f, full) && key == PartKey(prefix, |full|, f)
    ensures Stored(objects[key := data], prefix, f, full + [data])
  {
    forall i | 0 <= i < |full| + 1
      ensures PartKey(prefix, i, f) in objects[key := data]
        && objects[key := data][PartKey(prefix, i, f)] == (full + [data])[i]
    {
      if i < |full| && PartKey(prefix, i, f) == key {
        PartKeyInjective(prefix, i, |full|, f);
      }
    }
  }

  lemma OneMorePart(objects: Objects, prefix: string, f: Format, n: nat, data: seq<Record>, key: string)
    requires key == PartKey(prefix, n, f)
    ensures PartKeys(prefix, n + 1, f) == PartKeys(prefix, n, f) + [key]
    ensures SameElsewhere(objects, objects[key := data], prefix, f, n + 1)
  {
    hide PartKey;
    assert PartKeys(prefix, n + 1, f)[n] == key;
  }

  class PartWriter {
    const store: LocalStore
    const prefix: string
    const cap: int
    const format: Format
    var buf: seq<Record>
    var part: nat
    var keys: seq<string>
    /** The parts already in the store. */
    ghost var full: seq<seq<Record>>

    constructor (store: LocalStore, prefix: string, cap: int, format: Format)
      ensures Streaming() && Written() == [] && part == 0
      ensures this.store == store && this.cap == cap && this.format == format && this.prefix == RStrip(prefix)
    {
      this.store, this.prefix, this.cap, this.format := store, RStrip(prefix), cap, format;
      buf, part, keys, full := [], 0, [], [];
    }

    /** A cap below one still flushes after every record. */
    function Cap(): nat { if cap < 1 then 1 else cap }

    ghost function Written(): seq<Record>
      reads this
    {
      Concat(full) + buf
    }

    /** Between writes: the buffer is short of a part, and what was cut off is stored under its name. */
    ghost predicate Streaming()
      reads this, store
    {
      && part == |full| && |buf| < Cap() && AllFull(full, Cap())
      && keys == PartKeys(prefix, part, format)
      && Stored(store.objects, prefix, format, full)
    }

    method Flush()
      requires part == |full| && keys == PartKeys(prefix, part, format)
      requires Stored(store.objects, prefix, format, full)
      modifies this, store
      ensures Written() == old(Written()) && buf == []
      ensures full == old(full) + (if old(buf) == [] then [] else [old(buf)])
      ensures part == |full| && keys == PartKeys(prefix, part, format)
      ensures Stored(store.objects, prefix, format, full)
      ensures SameElsewhere(old(store.objects), store.objects, prefix, format, part)
    {
      if buf == [] {
        return;
      }
      var key := PartKey(prefix, part, format);
      StorePart(store.objects, prefix, format, full, buf, key);
      OneMorePart(store.objects, prefix, format, part, buf, key);
      ConcatSnoc(full, buf);
      store.PutBytes(key, buf);
      keys := keys + [key];
      full := full + [buf];
      part := part + 1;
      buf := [];
    }

    /** One record of a write: buffered, and the buffer rolled into a part when it is full. */
    method Append(r: Record)
      requires Streaming()
      modifies this, store
      ensures Streaming() && Written() == old(Written()) + [r]
      ensures part >= old(part) && SameElsewhere(old(store.objects), store.objects, prefix, format, part)
    {
      buf := buf + [r];
      assert Written() == old(Written()) + [r];
      if |buf| >= Cap() {
        Flush();
      }
    }

    method Write(records: seq<Record>)
      requires Streaming()
      modifies this, store
      ensures Streaming() && Written() == old(Written()) + records
      ensures part >= old(part) && SameElsewhere(old(store.objects), store.objects, prefix, format, part)
    {
      hide Streaming, Written;
      var i := 0;
      while i < |records|
        invariant 0 <= i <= |records|
        invariant Streaming() && Written() == old(Written()) + records[..i]
        invariant part >= old(part) && SameElsewhere(old(store.objects), store.objects, prefix, format, part)
      {
        ghost var before, n := store.objects, part;
        Append(records[i]);
        MoreParts(old(store.objects), before, store.objects, prefix, format, n, part);
        assert records[..i + 1] == records[..i] + [records[i]];
        i := i + 1;
      }
      assert records[..i] == records;
    }

    /** Flushes what is left; the keys of all parts, in part order. */
    method Close() returns (r: seq<string>)
      requires Streaming()
      modifies this, store
      ensures var parts := Blocks(old(Written()), Cap());
        && r == PartKeys(prefix, |parts|, format)
        && Stored(store.objects, prefix, format, parts)
        && SameElsewhere(old(store.objects), store.objects, prefix, format, |parts|)
    {
      BlocksOf(full, buf, Cap());
      Flush();
      r := keys;
    }
  }

  lemma MoreParts(a: Objects, b: Objects, c: Objects, prefix: string, f: Format, n: nat, m: nat)
    requires n <= m && SameElsewhere(a, b, prefix, f, n) && SameElsewhere(b, c, prefix, f, m)
    ensures SameElsewhere(a, c, prefix, f, m)
  {
    assert PartKeys(prefix, n, f) == PartKeys(prefix, m, f)[..n];
  }

  /** `s.rstrip("/")` */
  function RStrip(s: string): string {
    if s != "" && s[|s| - 1] == '/' then RStrip(s[..|s| - 1]) else s
  }

  /** Stripping takes the trailing slashes and nothing else. */
  lemma {:induction false} RStripIs(s: string)
    ensures RStrip(s) <= s && (RStrip(s) == "" || RStrip(s)[|RStrip(s)| - 1] != '/')
    ensures forall i :: |RStrip(s)| <= i < |s| ==> s[i] == '/'
  {
    if s != "" && s[|s| - 1] == '/' { RStripIs(s[..|s| - 1]); }
  }

  // ---- the round trip -----------------------------------------------------------------

  lemma ScopeOfChunk(objects: Objects, prefix: string, f: Format, n: nat)
    requires OnlyParts(objects, prefix, f, n)
    ensures Scope(objects, prefix + "/") == prefix + "/"
  {
    var p := prefix + "/";
    forall k | k in objects ensures !StartsWith(k, p + "/") {
      if StartsWith(k, p) {
        var i :| 0 <= i < n && PartKeys(prefix, n, f)[i] == k;
        PartKeyHead(prefix, i, f);
        assert (p + "/")[|p|] == '/';
      } else {
        assert p == (p + "/")[..|p|];
      }
    }
  }

  lemma PartKeyHead(prefix: string, i: nat, f: Format)
    ensures var k := PartKey(prefix, i, f); |k| > |prefix| + 1 && k[|prefix| + 1] == 'p'
  {
    assert PartKey(prefix, i, f)[|prefix| + 1] == (prefix + "/part-")[|prefix| + 1];
  }

  /** The listing of a finished chunk is its part keys in part order exactly when there are at most 100000 of them. */
  lemma ListingOfParts(objects: Objects, prefix: string, f: Format, parts: seq<seq<Record>>)
    requires Stored(objects, prefix, f, parts) && OnlyParts(objects, prefix, f, |parts|)
    ensures Listing(objects, prefix + "/") == PartKeys(prefix, |parts|, f) <==> |parts| <= 100000
  {
    var n := |parts|;
    var keys := PartKeys(prefix, n, f);
    PartOrderIff(prefix, n, f);
    ScopeOfChunk(objects, prefix, f, n);
    forall k ensures k in keys <==> Listed(objects, prefix + "/", k) {
      if k in keys {
        var i :| 0 <= i < n && keys[i] == k;
        PartKeyIsListed(prefix, i, f);
        assert PartKey(prefix, i, f) in objects;
      }
    }
    if n <= 100000 {
      ListingUnique(keys, Listing(objects, prefix + "/"), objects, prefix + "/");
    }
  }

  /** Reading a chunk back gives exactly the records that were written, however they were batched and whatever part of
      an earlier attempt was there before. */
  lemma OutputRoundTrip(before: Objects, after: Objects, prefix: string, f: Format, written: seq<Record>, cap: nat)
    requires cap >= 1
    requires var n := |Blocks(written, cap)|;
      n <= 100000 && OnlyParts(before, prefix, f, n) && SameElsewhere(before, after, prefix, f, n)
    requires Stored(after, prefix, f, Blocks(written, cap))
    ensures ReadAll(after, prefix + "/") == written
  {
    hide Blocks, PartKey, Scope, Listed;
    var parts := Blocks(written, cap);
    assert OnlyParts(after, prefix, f, |parts|);
    ListingOfParts(after, prefix, f, parts);
    assert Fetch(after, PartKeys(prefix, |parts|, f)) == parts;
    BlocksLaws(written, cap);
  }

  // ---- past the hundred-thousandth part ---------------------------------------------------

  ghost predicate NoneEmpty(parts: seq<seq<Record>>) { forall i :: 0 <= i < |parts| ==> parts[i] != [] }

  ghost predicate FirstsDiffer(parts: seq<seq<Record>>)
    requires NoneEmpty(parts)
  {
    forall i, j :: 0 <= i < j < |parts| ==> parts[i][0] != parts[j][0]
  }

  lemma {:induction false} FirstInConcat(parts: seq<seq<Record>>, j: nat) returns (m: nat)
    requires NoneEmpty(parts) && j < |parts|
    ensures m < |Concat(parts)| && Concat(parts)[m] == parts[j][0]
  {
    if j == 0 {
      m := 0;
    } else {
      var n := FirstInConcat(parts[1..], j - 1);
      m := |parts[0]| + n;
    }
  }

  /** When all records differ, so do the first records of the parts. */
  lemma {:induction false} DistinctFirsts(parts: seq<seq<Record>>)
    requires NoneEmpty(parts) && Distinct(Concat(parts))
    ensures FirstsDiffer(parts)
  {
    if parts != [] {
      var head, rest := parts[0], Concat(parts[1..]);
      assert Concat(parts) == head + rest;
      forall i, j | 0 <= i < j < |rest| ensures rest[i] != rest[j] {
        assert rest[i] == Concat(parts)[|head| + i] && rest[j] == Concat(parts)[|head| + j];
      }
      DistinctFirsts(parts[1..]);
      forall j | 0 < j < |parts| ensures parts[0][0] != parts[j][0] {
        var m := FirstInConcat(parts[1..], j - 1);
        assert Concat(parts)[0] == parts[0][0] && Concat(parts)[|head| + m] == parts[j][0];
      }
      forall i, j | 0 <= i < j < |parts| ensures parts[i][0] != parts[j][0] {
        if i > 0 { assert parts[1..][i - 1][0] != parts[1..][j - 1][0]; }
      }
    }
  }

  lemma ConcatFrom(parts: seq<seq<Record>>, d: nat)
    requires d < |parts|
    ensures Concat(parts[d..]) == parts[d] + Concat(parts[d + 1..])
  {
    assert parts[d..][1..] == parts[d + 1..];
  }

  ghost predicate NamesParts(keys: seq<string>, objects: Objects, prefix: string, f: Format, n: nat) {
    forall i :: 0 <= i < |keys| ==> keys[i] in PartKeys(prefix, n, f) && keys[i] in objects
  }

  /** Reading the same records back from some place on means reading the same part there. */
  lemma SameNext(objects: Objects, prefix: string, f: Format, parts: seq<seq<Record>>, keys: seq<string>, d: nat)
    requires Stored(objects, prefix, f, parts) && NoneEmpty(parts) && FirstsDiffer(parts)
    requires NamesParts(keys, objects, prefix, f, |parts|) && d < |keys| && d <= |parts|
    requires Concat(Fetch(objects, keys)[d..]) == Concat(parts[d..])
    ensures d < |parts| && keys[d] == PartKeys(prefix, |parts|, f)[d]
    ensures Concat(Fetch(objects, keys)[d + 1..]) == Concat(parts[d + 1..])
  {
    hide Concat, PartKey, Stored;
    var got := Fetch(objects, keys);
    var j := PartOf(objects, prefix, f, parts, keys, d);
    assert got[d] == parts[j];
    ConcatFrom(got, d);
    if d == |parts| {
      assert parts[d..] == [];
      NothingToRead();
    } else {
      ConcatFrom(parts, d);
      var x, y := Concat(got[d + 1..]), Concat(parts[d + 1..]);
      assert (parts[j] + x)[0] == parts[j][0] && (parts[d] + y)[0] == parts[d][0];
      assert j == d;
      SameRests(parts[d], x, y);
    }
  }

  lemma NothingToRead()
    ensures Concat<Record>([]) == []
  {
  }

  lemma {:induction false} SameFrom(
      objects: Objects, prefix: string, f: Format, parts: seq<seq<Record>>, keys: seq<string>, d: nat)
    requires Stored(objects, prefix, f, parts) && NoneEmpty(parts) && FirstsDiffer(parts)
    requires NamesParts(keys, objects, prefix, f, |parts|) && d <= |keys| && d <= |parts|
    requires Concat(Fetch(objects, keys)[d..]) == Concat(parts[d..])
    ensures keys[d..] == PartKeys(prefix, |parts|, f)[d..]
    decreases |keys| - d
  {
    hide Concat, PartKey, Stored, FirstsDiffer;
    var all := PartKeys(prefix, |parts|, f);
    if d == |keys| {
      assert Fetch(objects, keys)[d..] == [];
      NothingToRead();
      if d < |parts| { ConcatFrom(parts, d); }
    } else {
      SameNext(objects, prefix, f, parts, keys, d);
      SameFrom(objects, prefix, f, parts, keys, d + 1);
      assert keys[d..] == [keys[d]] + keys[d + 1..] && all[d..] == [all[d]] + all[d + 1..];
    }
  }

  lemma PartOf(objects: Objects, prefix: string, f: Format, parts: seq<seq<Record>>, keys: seq<string>, d: nat) returns (j: nat)
    requires Stored(objects, prefix, f, parts) && NamesParts(keys, objects, prefix, f, |parts|) && d < |keys|
    ensures j < |parts| && keys[d] == PartKey(prefix, j, f) && objects[keys[d]] == parts[j]
  {
    j :| 0 <= j < |parts| && PartKeys(prefix, |parts|, f)[j] == keys[d];
  }

  /** A chunk of distinct records reads back as it was written if and only if it has at most 100000 parts. */
  lemma ReadBackIff(before: Objects, after: Objects, prefix: string, f: Format, written: seq<Record>, cap: nat)
    requires cap >= 1 && Distinct(written)
    requires var n := |Blocks(written, cap)|;
      OnlyParts(before, prefix, f, n) && SameElsewhere(before, after, prefix, f, n)
    requires Stored(after, prefix, f, Blocks(written, cap))
    ensures ReadAll(after, prefix + "/") == written <==> |Blocks(written, cap)| <= 100000
  {
    var parts := Blocks(written, cap);
    BlocksLaws(written, cap);
    ListingOfParts(after, prefix, f, parts);
    if |parts| <= 100000 {
      OutputRoundTrip(before, after, prefix, f, written, cap);
    } else if ReadAll(after, prefix + "/") == written {
      var keys := Listing(after, prefix + "/");
      ListedKeysExist(after, prefix + "/", keys);
      DistinctFirsts(parts);
      OnlyPartsListed(after, prefix, f, |parts|, keys);
      assert Fetch(after, keys)[0..] == Fetch(after, keys) && parts[0..] == parts;
      SameFrom(after, prefix, f, parts, keys, 0);
    }
  }

  lemma OnlyPartsListed(objects: Objects, prefix: string, f: Format, n: nat, keys: seq<string>)
    requires OnlyParts(objects, prefix, f, n) && IsListing(keys, objects, prefix + "/")
    ensures NamesParts(keys, objects, prefix, f, n)
  {
    ScopeOfChunk(objects, prefix, f, n);
    forall i | 0 <= i < |keys| ensures keys[i] in PartKeys(prefix, n, f) && keys[i] in objects {
      assert keys[i] in keys;
      assert Listed(objects, prefix + "/", keys[i]);
    }
  }
}
