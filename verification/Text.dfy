/**
  Text as the program stores and compares it: bytewise order, dotted and line-separated
  lists, and decimal numerals. UTF-8 keeps code-point order, so comparing `char`s is
  comparing bytes.
 */
module Text {

  datatype Option<+T> = None | Some(value: T)

  // ---------------------------------------------------------------- order

  /** `a` sorts strictly before `b`, byte by byte. */
  predicate Precedes(a: string, b: string) {
    if b == "" then false
    else if a == "" then true
    else if a[0] != b[0] then a[0] < b[0]
    else Precedes(a[1..], b[1..])
  }

  lemma {:induction false} PrecedesAsymmetric(a: string, b: string)
    ensures !(Precedes(a, b) && Precedes(b, a))
    ensures Precedes(a, b) || Precedes(b, a) || a == b
  {
    if a != "" && b != "" && a[0] == b[0] {
      PrecedesAsymmetric(a[1..], b[1..]);
      assert a == [a[0]] + a[1..] && b == [b[0]] + b[1..];
    }
  }

  lemma {:induction false} PrecedesTransitive(a: string, b: string, c: string)
    requires Precedes(a, b) && Precedes(b, c)
    ensures Precedes(a, c)
  {
    if a != "" && b != "" && c != "" && a[0] == b[0] == c[0] {
      PrecedesTransitive(a[1..], b[1..], c[1..]);
    }
  }

  /** Prefixes of equal length decide the order unless they are equal. */
  lemma {:induction false} PrecedesByPrefix(p: string, q: string, a: string, b: string)
    requires |p| == |q|
    ensures Precedes(p + a, q + b) <==> Precedes(p, q) || (p == q && Precedes(a, b))
  {
    if p == "" {
      assert p + a == a && q + b == b;
    } else {
      assert (p + a)[1..] == p[1..] + a && (q + b)[1..] == q[1..] + b;
      assert p == [p[0]] + p[1..] && q == [q[0]] + q[1..];
      PrecedesByPrefix(p[1..], q[1..], a, b);
    }
  }

  // ---------------------------------------------------------------- lists in text

  /** Rust's `str::split(sep)`: always at least one part. */
  function Split(s: string, sep: char): (parts: seq<string>)
    ensures |parts| >= 1
  {
    if s == "" then [""]
    else
      var rest := Split(s[1..], sep);
      if s[0] == sep then [""] + rest else [[s[0]] + rest[0]] + rest[1..]
  }

  function Join(parts: seq<string>, sep: char): string
    requires |parts| >= 1
  {
    if |parts| == 1 then parts[0] else parts[0] + [sep] + Join(parts[1..], sep)
  }

  predicate AllFree(parts: seq<string>, sep: char) {
    forall i :: 0 <= i < |parts| ==> sep !in parts[i]
  }

  lemma {:induction false} SplitWhole(s: string, sep: char)
    requires sep !in s
    ensures Split(s, sep) == [s]
  {
    if s != "" {
      SplitWhole(s[1..], sep);
      assert [s[0]] + s[1..] == s;
    }
  }

  lemma {:induction false} SplitHead(p: string, s: string, sep: char)
    requires sep !in p
    ensures Split(p + [sep] + s, sep) == [p] + Split(s, sep)
  {
    var t := p + [sep] + s;
    if p == "" {
      assert t[1..] == s;
    } else {
      assert t[1..] == p[1..] + [sep] + s;
      SplitHead(p[1..], s, sep);
      assert [p[0]] + p[1..] == p;
    }
  }

  lemma {:induction false} SplitJoin(parts: seq<string>, sep: char)
    requires |parts| >= 1 && AllFree(parts, sep)
    ensures Split(Join(parts, sep), sep) == parts
  {
    if |parts| == 1 {
      SplitWhole(parts[0], sep);
    } else {
      SplitJoin(parts[1..], sep);
      SplitHead(parts[0], Join(parts[1..], sep), sep);
      assert [parts[0]] + parts[1..] == parts;
    }
  }

  lemma {:induction false} JoinSplit(s: string, sep: char)
    ensures Join(Split(s, sep), sep) == s
  {
    if s != "" {
      JoinSplit(s[1..], sep);
      var rest := Split(s[1..], sep);
      var all := Split(s, sep);
      if s[0] == sep {
        assert all[1..] == rest;
      } else if |rest| > 1 {
        assert all[1..] == rest[1..];
      }
    }
  }

  lemma {:induction false} SplitCount(p: string, s: string, sep: char)
    ensures |Split(p + [sep] + s, sep)| == |Split(p, sep)| + |Split(s, sep)|
  {
    var t := p + [sep] + s;
    if p == "" {
      assert t[1..] == s;
    } else {
      assert t[1..] == p[1..] + [sep] + s;
      SplitCount(p[1..], s, sep);
    }
  }

  lemma {:induction false} SplitManyCount(s: string, sep: char)
    requires sep in s
    ensures |Split(s, sep)| > 1
  {
    if s[0] != sep { SplitManyCount(s[1..], sep); }
  }

  /** A list survives joining and splitting exactly when no part holds the separator. */
  lemma {:induction false} SplitJoinExact(parts: seq<string>, sep: char)
    requires |parts| >= 1
    ensures |Split(Join(parts, sep), sep)| >= |parts|
    ensures |Split(Join(parts, sep), sep)| == |parts| <==> AllFree(parts, sep)
    ensures Split(Join(parts, sep), sep) == parts <==> AllFree(parts, sep)
  {
    if AllFree(parts, sep) { SplitJoin(parts, sep); }
    if sep in parts[0] { SplitManyCount(parts[0], sep); } else { SplitWhole(parts[0], sep); }
    if |parts| > 1 {
      SplitCount(parts[0], Join(parts[1..], sep), sep);
      SplitJoinExact(parts[1..], sep);
      assert AllFree(parts, sep) <==> sep !in parts[0] && AllFree(parts[1..], sep) by {
        assert parts == [parts[0]] + parts[1..];
      }
    }
  }

  lemma {:induction false} JoinAppend(parts: seq<string>, last: string, sep: char)
    requires |parts| >= 1
    ensures Join(parts + [last], sep) == Join(parts, sep) + [sep] + last
  {
    if |parts| == 1 {
      assert (parts + [last])[1..] == [last];
    } else {
      assert (parts + [last])[1..] == parts[1..] + [last];
      JoinAppend(parts[1..], last, sep);
    }
  }

  // ---------------------------------------------------------------- numerals

  predicate IsDigit(c: char) { '0' <= c <= '9' }

  predicate AllDigits(s: string) {
    forall i :: 0 <= i < |s| ==> IsDigit(s[i])
  }

  function DigitChar(d: nat): (c: char)
    requires d < 10
    ensures IsDigit(c) && DigitValue(c) == d
  {
    '0' + (d as char)
  }

  function DigitValue(c: char): (d: nat)
    requires IsDigit(c)
    ensures d < 10
  {
    (c - '0') as nat
  }

  /** The decimal numeral of `n`, with no leading zero. */
  function Digits(n: nat): (s: string)
    ensures |s| >= 1 && AllDigits(s)
  {
    if n < 10 then [DigitChar(n)] else Digits(n / 10) + [DigitChar(n % 10)]
  }

  function Value(s: string): nat
    requires AllDigits(s)
  {
    if s == "" then 0 else 10 * Value(s[..|s| - 1]) + DigitValue(s[|s| - 1])
  }

  lemma {:induction false} ValueOfDigits(n: nat)
    ensures Value(Digits(n)) == n
  {
    if n >= 10 {
      var s := Digits(n);
      ValueOfDigits(n / 10);
      assert s[..|s| - 1] == Digits(n / 10);
    }
  }

  /** The last `w` decimal digits of `n`, zero-padded. */
  function Pad(n: nat, w: nat): (s: string)
    ensures |s| == w && AllDigits(s)
  {
    if w == 0 then "" else Pad(n / 10, w - 1) + [DigitChar(n % 10)]
  }

  function Pow10(w: nat): (p: nat)
    ensures p >= 1
  {
    if w == 0 then 1 else 10 * Pow10(w - 1)
  }

  /** Numerals of one width sort as their numbers do. */
  lemma {:induction false} PadOrder(m: nat, n: nat, w: nat)
    requires m < Pow10(w) && n < Pow10(w)
    ensures Precedes(Pad(m, w), Pad(n, w)) <==> m < n
    ensures Pad(m, w) == Pad(n, w) <==> m == n
  {
    if w > 0 {
      PadOrder(m / 10, n / 10, w - 1);
      var p, q := Pad(m / 10, w - 1), Pad(n / 10, w - 1);
      var a, b := [DigitChar(m % 10)], [DigitChar(n % 10)];
      PrecedesByPrefix(p, q, a, b);
      assert Pad(m, w)[..w - 1] == p && Pad(n, w)[..w - 1] == q;
      assert Pad(m, w)[w - 1] == a[0] && Pad(n, w)[w - 1] == b[0];
      assert m == 10 * (m / 10) + m % 10 && n == 10 * (n / 10) + n % 10;
      assert DigitValue(a[0]) < DigitValue(b[0]) <==> a[0] < b[0];
    }
  }

  /** A padded numeral that has room for its number reads back. */
  lemma {:induction false} PadReads(n: nat, w: nat)
    requires n < Pow10(w)
    ensures Value(Pad(n, w)) == n
  {
    if w > 0 {
      PadReads(n / 10, w - 1);
      assert Pad(n, w)[..w - 1] == Pad(n / 10, w - 1);
    }
  }

  lemma PadDropThree(n: nat, w: nat)
    requires w >= 3
    ensures Pad(n, w) == Pad(n / 1000, w - 3) + Pad(n % 1000, 3)
  {
    assert n / 10 / 10 / 10 == n / 1000;
    assert n % 1000 / 10 % 10 == n / 10 % 10 && n % 1000 % 10 == n % 10;
    assert n % 1000 / 10 / 10 % 10 == n / 10 / 10 % 10;
    var a, b, c := DigitChar(n / 10 / 10 % 10), DigitChar(n / 10 % 10), DigitChar(n % 10);
    assert Pad(n, w) == Pad(n / 10, w - 1) + [c];
    assert Pad(n / 10, w - 1) == Pad(n / 10 / 10, w - 2) + [b];
    assert Pad(n / 10 / 10, w - 2) == Pad(n / 1000, w - 3) + [a];
    var r := n % 1000;
    assert Pad(r, 3) == Pad(r / 10, 2) + [c];
    assert Pad(r / 10, 2) == Pad(r / 10 / 10, 1) + [b];
    assert Pad(r / 10 / 10, 1) == Pad(r / 10 / 10 / 10, 0) + [a] == [a];
    assert Pad(r, 3) == [a] + [b] + [c];
  }

  /** Rust's `i64` as text. */
  function PrintInt(n: int): (s: string)
    ensures |s| >= 1
  {
    if n < 0 then "-" + Digits(-n) else Digits(n)
  }

  const I64_MIN: int := -0x8000_0000_0000_0000
  const I64_MAX: int := 0x7FFF_FFFF_FFFF_FFFF
  const U32_MAX: int := 0xFFFF_FFFF

  /** `str::parse::<i64>()`: an optional sign, at least one digit, no overflow. */
  function ParseI64(s: string): Option<int> {
    if s == "" then None
    else
      var body := if s[0] == '+' || s[0] == '-' then s[1..] else s;
      if body == "" || !AllDigits(body) then None
      else
        var n: int := if s[0] == '-' then 0 - Value(body) else Value(body);
        if I64_MIN <= n <= I64_MAX then Some(n) else None
  }

  /** `str::parse::<u32>()`: an optional `+`, at least one digit, no overflow. */
  function ParseU32(s: string): Option<nat> {
    if s == "" then None
    else
      var body := if s[0] == '+' then s[1..] else s;
      if body == "" || !AllDigits(body) then None
      else if Value(body) <= U32_MAX then Some(Value(body)) else None
  }

  lemma NegativeReadsBack(n: int)
    requires n < 0
    ensures ParseI64(PrintInt(n)) == if I64_MIN <= n then Some(n) else None
  {
    ValueOfDigits(-n);
    var s := PrintInt(n);
    assert s[0] == '-' && s[1..] == Digits(-n);
    assert Value(s[1..]) == -n;
  }

  lemma I64RoundTrip(n: int)
    ensures ParseI64(PrintInt(n)) == if I64_MIN <= n <= I64_MAX then Some(n) else None
  {
    if n < 0 {
      NegativeReadsBack(n);
    } else {
      ValueOfDigits(n);
      assert IsDigit(PrintInt(n)[0]);
    }
  }

  lemma U32RoundTrip(n: nat)
    ensures ParseU32(Digits(n)) == if n <= U32_MAX then Some(n) else None
  {
    ValueOfDigits(n);
    assert IsDigit(Digits(n)[0]);
  }

  /** A numeral holds no separator or wildcard. */
  lemma NumeralChars(n: int, c: char)
    requires c != '-' && !IsDigit(c)
    ensures c !in PrintInt(n)
  {
    assert AllDigits(Digits(if n < 0 then -n else n));
  }
}
