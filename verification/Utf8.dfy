/**
  File names as the walk turns them into text: bytes, of which ill-formed stretches are each
  replaced by U+FFFD, and backslashes by slashes. A byte string is a `string` of small chars.
 */
module Utf8 {

  predicate Tail(c: char) { 0x80 <= c as int <= 0xBF }

  /** Which second byte may follow the lead byte `a`: table 3-7 of the Unicode Standard. */
  predicate Second(a: int, c: char) {
    match a
    case 0xE0 => 0xA0 <= c as int <= 0xBF
    case 0xED => 0x80 <= c as int <= 0x9F
    case 0xF0 => 0x90 <= c as int <= 0xBF
    case 0xF4 => 0x80 <= c as int <= 0x8F
    case _ => Tail(c)
  }

  /** How many bytes the well-formed character at the front has, 0 if there is none. */
  function Width(s: string): (n: nat)
    ensures n <= |s| && n <= 4
  {
    if s == "" then 0
    else
      var a := s[0] as int;
      if a < 0x80 then 1
      else if 0xC2 <= a <= 0xDF then if |s| >= 2 && Tail(s[1]) then 2 else 0
      else if 0xE0 <= a <= 0xEF then if |s| >= 3 && Second(a, s[1]) && Tail(s[2]) then 3 else 0
      else if 0xF0 <= a <= 0xF4 then if |s| >= 4 && Second(a, s[1]) && Tail(s[2]) && Tail(s[3]) then 4 else 0
      else 0
  }

  /** How many bytes one U+FFFD stands for: the longest start of a character, or one byte. */
  function Junk(s: string): (n: nat)
    requires s != "" && Width(s) == 0
    ensures 1 <= n <= |s|
  {
    var a := s[0] as int;
    if 0xE0 <= a <= 0xF4 && |s| >= 2 && Second(a, s[1])
    then if a >= 0xF0 && |s| >= 3 && Tail(s[2]) then 3 else 2
    else 1
  }

  predicate Valid(s: string) { s == "" || (Width(s) > 0 && Valid(s[Width(s)..])) }

  const REPLACEMENT: string := ['\U{EF}', '\U{BF}', '\U{BD}']

  /** `to_string_lossy`. */
  function Lossy(s: string): string {
    if s == "" then ""
    else if Width(s) > 0 then s[..Width(s)] + Lossy(s[Width(s)..])
    else REPLACEMENT + Lossy(s[Junk(s)..])
  }

  /** `replace('\\', "/")`. */
  function Slashed(s: string): (n: string)
    ensures |n| == |s|
  {
    seq(|s|, i requires 0 <= i < |s| => if s[i] == '\\' then '/' else s[i])
  }

  /** A character's width is decided by its own bytes. */
  lemma WidthIsLocal(s: string, t: string)
    requires Width(s) > 0 && Width(s) <= |t| && s[..Width(s)] == t[..Width(s)]
    ensures Width(t) == Width(s)
  {
    var n := Width(s);
    assert forall i :: 0 <= i < n ==> s[i] == s[..n][i] == t[i];
  }

  lemma {:induction false} LossyIsValid(s: string)
    ensures Valid(Lossy(s))
  {
    if s != "" {
      var head := if Width(s) > 0 then s[..Width(s)] else REPLACEMENT;
      var rest := s[if Width(s) > 0 then Width(s) else Junk(s)..];
      LossyIsValid(rest);
      var n := |head|;
      assert Width(head) == n by { if Width(s) > 0 { WidthIsLocal(s, head); } }
      WidthIsLocal(head, head + Lossy(rest));
      assert (head + Lossy(rest))[n..] == Lossy(rest);
    }
  }

  /** Exactly the well-formed names survive. */
  lemma {:induction false} LossyIsSame(s: string)
    ensures Lossy(s) == s <==> Valid(s)
  {
    if s != "" && Width(s) > 0 {
      var n := Width(s);
      LossyIsSame(s[n..]);
      assert s == s[..n] + s[n..];
      if Lossy(s) == s { assert Lossy(s)[n..] == Lossy(s[n..]); }
    } else if s != "" {
      WidthIsLocal(REPLACEMENT, REPLACEMENT + Lossy(s[Junk(s)..]));
    }
  }

  lemma {:induction false} LossyAddsNoBackslash(s: string)
    requires '\\' !in s
    ensures '\\' !in Lossy(s)
  {
    if s != "" { LossyAddsNoBackslash(s[if Width(s) > 0 then Width(s) else Junk(s)..]); }
  }

  lemma {:induction false} SlashedIsValid(s: string)
    requires Valid(s)
    ensures Valid(Slashed(s))
  {
    if s != "" {
      var n := Width(s);
      SlashedIsValid(s[n..]);
      assert Width(Slashed(s)) == n;
      assert Slashed(s)[n..] == Slashed(s[n..]);
    }
  }

  lemma SlashedIsSame(s: string)
    ensures '\\' !in Slashed(s) && (Slashed(s) == s <==> '\\' !in s)
  {
    if '\\' in s { var i :| 0 <= i < |s| && s[i] == '\\'; assert Slashed(s)[i] == '/'; }
  }

  // ---------------------------------------------------------------- what well-formed means

  /** A Unicode scalar value. */
  predicate Scalar(c: int) { 0 <= c < 0xD800 || 0xE000 <= c < 0x11_0000 }

  function Byte(b: int): char
    requires 0 <= b < 0x100
  {
    b as char
  }

  /** Its encoding: as many bytes as it needs, six bits in each but the first. */
  function Encode(c: int): (s: string)
    requires Scalar(c)
    ensures 1 <= |s| <= 4
  {
    if c < 0x80 then [Byte(c)]
    else if c < 0x800 then [Byte(0xC0 + c / 64), Byte(0x80 + c % 64)]
    else if c < 0x1_0000 then [Byte(0xE0 + c / 4096), Byte(0x80 + c / 64 % 64), Byte(0x80 + c % 64)]
    else [Byte(0xF0 + c / 262144), Byte(0x80 + c / 4096 % 64), Byte(0x80 + c / 64 % 64), Byte(0x80 + c % 64)]
  }

  predicate AllScalar(cs: seq<int>) { forall c :: c in cs ==> Scalar(c) }

  function EncodeAll(cs: seq<int>): string
    requires AllScalar(cs)
  {
    if cs == [] then "" else Encode(cs[0]) + EncodeAll(cs[1..])
  }

  lemma EncodedWidth(c: int)
    requires Scalar(c)
    ensures Width(Encode(c)) == |Encode(c)|
  {}

  lemma SixBits(hi: int, lo: int, c: int)
    requires hi >= 0 && 0 <= lo < 64 && c == hi * 64 + lo
    ensures c / 64 == hi && c % 64 == lo
  {}

  lemma DecodeTwo(s: string, c: int)
    requires Width(s) == 2 && c == (s[0] as int - 0xC0) * 64 + (s[1] as int - 0x80)
    ensures Scalar(c) && s[..2] == Encode(c)
  {
    SixBits(s[0] as int - 0xC0, s[1] as int - 0x80, c);
  }

  lemma DecodeThree(s: string, hi: int, c: int)
    requires Width(s) == 3 && hi == (s[0] as int - 0xE0) * 64 + (s[1] as int - 0x80)
    requires c == hi * 64 + (s[2] as int - 0x80)
    ensures Scalar(c) && s[..3] == Encode(c)
  {
    SixBits(s[0] as int - 0xE0, s[1] as int - 0x80, hi);
    SixBits(hi, s[2] as int - 0x80, c);
    assert c / 4096 == c / 64 / 64;
  }

  lemma DecodeFour(s: string, top: int, hi: int, c: int)
    requires Width(s) == 4 && top == (s[0] as int - 0xF0) * 64 + (s[1] as int - 0x80)
    requires hi == top * 64 + (s[2] as int - 0x80) && c == hi * 64 + (s[3] as int - 0x80)
    ensures Scalar(c) && s[..4] == Encode(c)
  {
    SixBits(s[0] as int - 0xF0, s[1] as int - 0x80, top);
    SixBits(top, s[2] as int - 0x80, hi);
    SixBits(hi, s[3] as int - 0x80, c);
    assert c / 4096 == c / 64 / 64 && c / 262144 == c / 64 / 64 / 64;
  }

  /** The character at the front of a text is some scalar value's encoding. */
  lemma FrontIsEncoded(s: string) returns (c: int)
    requires Width(s) > 0
    ensures Scalar(c) && s[..Width(s)] == Encode(c)
  {
    if Width(s) == 1 {
      c := s[0] as int;
    } else if Width(s) == 2 {
      c := (s[0] as int - 0xC0) * 64 + (s[1] as int - 0x80);
      DecodeTwo(s, c);
    } else if Width(s) == 3 {
      var hi := (s[0] as int - 0xE0) * 64 + (s[1] as int - 0x80);
      c := hi * 64 + (s[2] as int - 0x80);
      DecodeThree(s, hi, c);
    } else {
      var top := (s[0] as int - 0xF0) * 64 + (s[1] as int - 0x80);
      var hi := top * 64 + (s[2] as int - 0x80);
      c := hi * 64 + (s[3] as int - 0x80);
      DecodeFour(s, top, hi, c);
    }
  }

  lemma {:induction false} EncodedIsValid(cs: seq<int>)
    requires AllScalar(cs)
    ensures Valid(EncodeAll(cs))
  {
    if cs != [] {
      var head, rest := Encode(cs[0]), EncodeAll(cs[1..]);
      EncodedWidth(cs[0]);
      WidthIsLocal(head, head + rest);
      EncodedIsValid(cs[1..]);
      assert (head + rest)[|head|..] == rest;
    }
  }

  lemma {:induction false} ValidIsEncoded(s: string) returns (cs: seq<int>)
    requires Valid(s)
    ensures AllScalar(cs) && EncodeAll(cs) == s
  {
    if s == "" {
      cs := [];
    } else {
      var c := FrontIsEncoded(s);
      var rest := ValidIsEncoded(s[Width(s)..]);
      cs := [c] + rest;
      assert cs[1..] == rest && s == s[..Width(s)] + s[Width(s)..];
    }
  }

  /** A text is well-formed exactly if it is the encoding of some scalar values. */
  lemma ValidMeansEncoded(s: string)
    ensures Valid(s) <==> exists cs :: AllScalar(cs) && EncodeAll(cs) == s
  {
    if Valid(s) { var cs := ValidIsEncoded(s); }
    if cs :| AllScalar(cs) && EncodeAll(cs) == s { EncodedIsValid(cs); }
  }
}
