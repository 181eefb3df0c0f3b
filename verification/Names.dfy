/**
 Decimal numerals, zero padding, and the order Python's `sorted` puts strings in.
 Chunk ids and part-file names are built from these, and a reader sees parts in name order.
 */
module Names {

  function DigitChar(d: nat): (c: char)
    requires d < 10
  {
    "0123456789"[d]
  }

  lemma DigitCharOrder(a: nat, b: nat)
    requires a < 10 && b < 10
    ensures DigitChar(a) < DigitChar(b) <==> a < b
    ensures DigitChar(a) == DigitChar(b) <==> a == b
  {
  }

  /** `str(n)` */
  function Dec(n: nat): (s: string)
    ensures |s| >= 1
    ensures forall i :: 0 <= i < |s| ==> '0' <= s[i] <= '9'
  {
    if n < 10 then [DigitChar(n)] else Dec(n / 10) + [DigitChar(n % 10)]
  }

  lemma {:induction false} DecInjective(a: nat, b: nat)
    requires Dec(a) == Dec(b)
    ensures a == b
  {
    var x, y := Dec(a), Dec(b);
    assert x[|x| - 1] == DigitChar(a % 10);
    assert y[|y| - 1] == DigitChar(b % 10);
    DigitCharOrder(a % 10, b % 10);
    if a >= 10 && b >= 10 {
      assert x[..|x| - 1] == Dec(a / 10);
      assert y[..|y| - 1] == Dec(b / 10);
      DecInjective(a / 10, b / 10);
    }
  }

  /** The number a row of digits stands for. */
  function Value(s: string): nat
    requires forall i :: 0 <= i < |s| ==> '0' <= s[i] <= '9'
  {
    if s == "" then 0 else 10 * Value(s[..|s| - 1]) + (s[|s| - 1] - '0') as nat
  }

  /** `str(n)` is the numeral of `n`, without leading zeros. */
  lemma {:induction false} DecValue(n: nat)
    ensures Value(Dec(n)) == n && (n > 0 ==> Dec(n)[0] != '0')
  {
    if n >= 10 {
      DecValue(n / 10);
      assert Dec(n)[..|Dec(n)| - 1] == Dec(n / 10);
    } else {
      assert Dec(n)[..0] == "";
    }
  }

  /** The last `width` decimal digits of `n`, leading zeros kept. */
  function Digits(n: nat, width: nat): (s: string)
    ensures |s| == width
    ensures forall i :: 0 <= i < |s| ==> '0' <= s[i] <= '9'
  {
    if width == 0 then "" else Digits(n / 10, width - 1) + [DigitChar(n % 10)]
  }

  /** `f"{n:05d}"`: at least five digits; a longer number is not cut. */
  function Pad5(n: nat): (s: string) {
    if n < 100000 then Digits(n, 5) else Dec(n)
  }

  lemma {:induction false} DigitsValue(n: nat, width: nat)
    requires n < Power10(width)
    ensures Value(Digits(n, width)) == n
  {
    if width > 0 {
      DigitsValue(n / 10, width - 1);
      assert Digits(n, width)[..width - 1] == Digits(n / 10, width - 1);
    }
  }

  /** `f"{n:05d}"` is a numeral of `n` of at least five digits. */
  lemma Pad5Value(n: nat)
    ensures |Pad5(n)| >= 5 && (forall i :: 0 <= i < |Pad5(n)| ==> '0' <= Pad5(n)[i] <= '9') && Value(Pad5(n)) == n
  {
    if n < 100000 { DigitsValue(n, 5); } else { DecValue(n); DecLong(n); }
  }

  lemma DecLong(n: nat)
    requires n >= 10000
    ensures |Dec(n)| >= 5
  {
    assert n / 10 >= 1000 && n / 10 / 10 >= 100 && n / 10 / 10 / 10 >= 10 && n / 10 / 10 / 10 / 10 >= 1;
    assert |Dec(n)| == |Dec(n / 10)| + 1 && |Dec(n / 10)| == |Dec(n / 10 / 10)| + 1;
    assert |Dec(n / 10 / 10)| == |Dec(n / 10 / 10 / 10)| + 1;
    assert |Dec(n / 10 / 10 / 10)| == |Dec(n / 10 / 10 / 10 / 10)| + 1;
  }

  /** Python's `<` on strings: by code point, a proper prefix first. */
  predicate Less(a: string, b: string) {
    b != [] && (a == [] || a[0] < b[0] || (a[0] == b[0] && Less(a[1..], b[1..])))
  }

  lemma {:induction false} LessTransitive(a: string, b: string, c: string)
    requires Less(a, b) && Less(b, c)
    ensures Less(a, c)
  {
    if a != [] && a[0] == b[0] == c[0] {
      LessTransitive(a[1..], b[1..], c[1..]);
    }
  }

  lemma {:induction false} LessIrreflexive(a: string)
    ensures !Less(a, a)
  {
    if a != [] {
      LessIrreflexive(a[1..]);
    }
  }

  lemma {:induction false} LessTotal(a: string, b: string)
    ensures Less(a, b) || a == b || Less(b, a)
  {
    if a != [] && b != [] && a[0] == b[0] {
      LessTotal(a[1..], b[1..]);
      assert a == [a[0]] + a[1..] && b == [b[0]] + b[1..];
    }
  }

  lemma {:induction false} LessPrefix(p: string, a: string, b: string)
    ensures Less(p + a, p + b) <==> Less(a, b)
  {
    if p == [] {
      assert p + a == a && p + b == b;
    } else {
      LessPrefix(p[1..], a, b);
      assert (p + a)[1..] == p[1..] + a;
      assert (p + b)[1..] == p[1..] + b;
    }
  }

  /** Words of equal length that differ are ordered the same way whatever follows them. */
  lemma {:induction false} LessExtend(a: string, b: string, x: string, y: string)
    requires |a| == |b| && Less(a, b)
    ensures Less(a + x, b + y)
  {
    if a[0] == b[0] {
      LessExtend(a[1..], b[1..], x, y);
      assert (a + x)[1..] == a[1..] + x;
      assert (b + y)[1..] == b[1..] + y;
    }
  }

  lemma {:induction false} DigitsOrder(a: nat, b: nat, width: nat, bound: nat)
    requires a < b < bound && bound == Power10(width)
    ensures Less(Digits(a, width), Digits(b, width))
  {
    var x, y := Digits(a / 10, width - 1), Digits(b / 10, width - 1);
    if a / 10 == b / 10 {
      DigitCharOrder(a % 10, b % 10);
      LessPrefix(x, [DigitChar(a % 10)], [DigitChar(b % 10)]);
    } else {
      DigitsOrder(a / 10, b / 10, width - 1, Power10(width - 1));
      LessExtend(x, y, [DigitChar(a % 10)], [DigitChar(b % 10)]);
    }
  }

  function Power10(n: nat): (p: nat)
    ensures p >= 1
  {
    if n == 0 then 1 else 10 * Power10(n - 1)
  }

  /** Five padded digits sort like the numbers they stand for. */
  lemma Pad5Order(a: nat, b: nat, suffix: string)
    requires a < b < 100000
    ensures Less(Pad5(a) + suffix, Pad5(b) + suffix)
  {
    Power10Five();
    DigitsOrder(a, b, 5, 100000);
    LessExtend(Pad5(a), Pad5(b), suffix, suffix);
  }

  lemma {:induction false} DigitsInjective(a: nat, b: nat, width: nat)
    requires a < Power10(width) && b < Power10(width) && Digits(a, width) == Digits(b, width)
    ensures a == b
  {
    if width > 0 {
      var x, y := Digits(a, width), Digits(b, width);
      assert x[..width - 1] == Digits(a / 10, width - 1) && y[..width - 1] == Digits(b / 10, width - 1);
      assert x[width - 1] == DigitChar(a % 10) && y[width - 1] == DigitChar(b % 10);
      DigitCharOrder(a % 10, b % 10);
      DigitsInjective(a / 10, b / 10, width - 1);
    }
  }

  lemma {:induction false} DecLength(n: nat, width: nat)
    requires n >= Power10(width)
    ensures |Dec(n)| > width
  {
    if width > 0 {
      DecLength(n / 10, width - 1);
    }
  }

  lemma Power10Five()
    ensures Power10(5) == 100000
  {
    assert Power10(1) == 10 && Power10(2) == 100 && Power10(3) == 1000 && Power10(4) == 10000;
  }

  lemma Pad5Injective(a: nat, b: nat)
    requires Pad5(a) == Pad5(b)
    ensures a == b
  {
    Power10Five();
    if a < 100000 && b < 100000 {
      DigitsInjective(a, b, 5);
    } else if a >= 100000 && b >= 100000 {
      DecInjective(a, b);
    } else {
      DecLength(if a >= 100000 then a else b, 5);
    }
  }

  /** The first name of six digits starts with a smaller digit than the last name of five. */
  lemma SixthDigit()
    ensures Pad5(99999)[0] == '9' && Pad5(100000)[0] == '1'
  {
    Heads(99999, 5);
    Heads(9999, 4);
    Heads(999, 3);
    Heads(99, 2);
    assert Digits(9, 1) == Digits(0, 0) + [DigitChar(9)];
    Heads(100000, 2);
    Heads(10000, 2);
    Heads(1000, 2);
    Heads(100, 2);
    Heads(10, 2);
    assert Dec(1) == [DigitChar(1)];
  }

  lemma Heads(n: nat, width: nat)
    requires width >= 2 && n >= 10
    ensures Digits(n, width)[0] == Digits(n / 10, width - 1)[0] && Dec(n)[0] == Dec(n / 10)[0]
  {
  }

  /** Strictly ascending, hence without duplicates: what `sorted` makes of distinct strings. */
  predicate Ascending(s: seq<string>) {
    forall i, j :: 0 <= i < j < |s| ==> Less(s[i], s[j])
  }

  /** There is only one way to list a set of strings in ascending order. */
  lemma {:induction false} AscendingUnique(a: seq<string>, b: seq<string>)
    requires Ascending(a) && Ascending(b)
    requires forall x :: x in a <==> x in b
    ensures a == b
  {
    assert b != [] ==> b[0] in a;
    assert a != [] ==> a[0] in b;
    if a != [] {
      HeadsAgree(a, b);
      forall x ensures x in a[1..] <==> x in b[1..] {
        TailMembers(a, x);
        TailMembers(b, x);
      }
      AscendingUnique(a[1..], b[1..]);
      assert a == [a[0]] + a[1..] && b == [b[0]] + b[1..];
    }
  }

  lemma HeadsAgree(a: seq<string>, b: seq<string>)
    requires Ascending(a) && Ascending(b) && a != [] && b != []
    requires forall x :: x in a <==> x in b
    ensures a[0] == b[0]
  {
    assert a[0] in b && b[0] in a;
    var i :| 0 <= i < |b| && b[i] == a[0];
    var j :| 0 <= j < |a| && a[j] == b[0];
    if i > 0 && j > 0 {
      assert Less(b[0], b[i]) && Less(a[0], a[j]);
      LessTransitive(a[0], b[0], a[0]);
      LessIrreflexive(a[0]);
    }
  }

  lemma TailMembers(a: seq<string>, x: string)
    requires Ascending(a) && a != []
    ensures x in a[1..] <==> x in a && x != a[0]
  {
    LessIrreflexive(a[0]);
    if x in a && x != a[0] {
      var i :| 0 <= i < |a| && a[i] == x;
      assert a[1..][i - 1] == x;
    }
    if x in a[1..] {
      var i :| 0 <= i < |a| - 1 && a[1..][i] == x;
      assert Less(a[0], a[i + 1]);
    }
  }

  /** `x` put at its place in an ascending list. */
  function Insert(x: string, s: seq<string>): (r: seq<string>) {
    if s == [] then [x]
    else if x == s[0] then s
    else if Less(x, s[0]) then [x] + s
    else [s[0]] + Insert(x, s[1..])
  }

  /** Python's built-in `sorted` on distinct strings. */
  function Sort(s: seq<string>): (r: seq<string>) {
    if s == [] then [] else Insert(s[0], Sort(s[1..]))
  }

  lemma {:induction false} InsertAscending(x: string, s: seq<string>)
    requires Ascending(s)
    ensures Ascending(Insert(x, s))
    ensures forall y :: y in Insert(x, s) <==> y == x || y in s
  {
    if s != [] && x != s[0] {
      LessTotal(x, s[0]);
      if Less(x, s[0]) {
        forall j | 0 <= j < |s| ensures Less(x, s[j]) {
          if j > 0 { LessTransitive(x, s[0], s[j]); }
        }
      } else {
        var rest := Insert(x, s[1..]);
        InsertAscending(x, s[1..]);
        assert s == [s[0]] + s[1..];
        forall j | 0 <= j < |rest| ensures Less(s[0], rest[j]) {
          assert rest[j] in rest;
        }
      }
    }
  }

  lemma {:induction false} SortAscending(s: seq<string>)
    ensures Ascending(Sort(s))
    ensures forall y :: y in Sort(s) <==> y in s
  {
    if s != [] {
      SortAscending(s[1..]);
      InsertAscending(s[0], Sort(s[1..]));
      assert s == [s[0]] + s[1..];
    }
  }
}
