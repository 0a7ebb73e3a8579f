/**
 * UTF-16 as defined in section 2 of RFC 2781: a Unicode scalar value below 0x10000 is one
 * code unit; any other is a surrogate pair. Decoding is the lossy decoding the `widestring`
 * crate uses for `to_string_lossy`: an unpaired surrogate becomes U+FFFD.
 */
module Utf16 {
  type CodeUnit = x: int | 0 <= x < 0x1_0000

  const REPLACEMENT_CHARACTER: char := '\U{FFFD}'

  predicate IsHighSurrogate(u: CodeUnit) { 0xD800 <= u < 0xDC00 }
  predicate IsLowSurrogate(u: CodeUnit) { 0xDC00 <= u < 0xE000 }
  predicate IsSurrogate(u: CodeUnit) { 0xD800 <= u < 0xE000 }

  /** Section 2.1 of RFC 2781: one scalar value to one or two code units. */
  function EncodeChar(c: char): seq<CodeUnit> {
    var v := c as int;
    if v < 0x1_0000 then [v]
    else
      var u := v - 0x1_0000;
      [0xD800 + u / 0x400, 0xDC00 + u % 0x400]
  }

  function Encode(s: string): seq<CodeUnit> {
    if s == [] then [] else EncodeChar(s[0]) + Encode(s[1..])
  }

  /** Section 2.2 of RFC 2781: a high surrogate followed by a low surrogate. */
  function Combine(hi: CodeUnit, lo: CodeUnit): char
    requires IsHighSurrogate(hi) && IsLowSurrogate(lo)
  {
    (0x1_0000 + (hi - 0xD800) * 0x400 + (lo - 0xDC00)) as char
  }

  function DecodeLossy(u: seq<CodeUnit>): string
    decreases |u|
  {
    if u == [] then []
    else if |u| >= 2 && IsHighSurrogate(u[0]) && IsLowSurrogate(u[1]) then
      [Combine(u[0], u[1])] + DecodeLossy(u[2..])
    else if IsSurrogate(u[0]) then [REPLACEMENT_CHARACTER] + DecodeLossy(u[1..])
    else [u[0] as char] + DecodeLossy(u[1..])
  }

  /** The code units before the first 0, or all of them when there is no 0. */
  function UnitsBeforeNul(u: seq<CodeUnit>): (r: seq<CodeUnit>)
    ensures 0 !in r
    ensures r <= u
    ensures |r| < |u| ==> u[|r|] == 0
  {
    if u == [] then []
    else if u[0] == 0 then []
    else [u[0]] + UnitsBeforeNul(u[1..])
  }

  /** The characters before the first NUL, or all of them when there is none. */
  function TextBeforeNul(s: string): (r: string)
    ensures '\0' !in r
    ensures r <= s
    ensures |r| < |s| ==> s[|r|] == '\0'
  {
    if s == [] then []
    else if s[0] == '\0' then []
    else [s[0]] + TextBeforeNul(s[1..])
  }

  lemma EncodeCharShape(c: char)
    ensures |EncodeChar(c)| == 1 ==> !IsSurrogate(EncodeChar(c)[0]) && EncodeChar(c)[0] == c as int
    ensures |EncodeChar(c)| == 2 ==> IsHighSurrogate(EncodeChar(c)[0]) && IsLowSurrogate(EncodeChar(c)[1])
    ensures |EncodeChar(c)| == 2 ==> Combine(EncodeChar(c)[0], EncodeChar(c)[1]) == c
    ensures 1 <= |EncodeChar(c)| <= 2
    ensures (0 in EncodeChar(c)) == (c == '\0')
  {
    var v := c as int;
    if v >= 0x1_0000 {
      var u := v - 0x1_0000;
      assert u == (u / 0x400) * 0x400 + u % 0x400;
    }
  }

  lemma {:induction false} EncodeAppend(s: string, t: string)
    ensures Encode(s + t) == Encode(s) + Encode(t)
  {
    if s == [] {
      assert s + t == t;
    } else {
      assert (s + t)[1..] == s[1..] + t;
      EncodeAppend(s[1..], t);
    }
  }

  /** Lossy decoding undoes encoding: every string survives the round trip through UTF-16. */
  lemma {:induction false} DecodeEncode(s: string)
    ensures DecodeLossy(Encode(s)) == s
  {
    if s != [] {
      var e := EncodeChar(s[0]);
      var rest := Encode(s[1..]);
      EncodeCharShape(s[0]);
      DecodeEncode(s[1..]);
      var u := e + rest;
      if |e| == 1 {
        assert u[1..] == rest;
      } else {
        assert u[2..] == rest;
      }
    }
  }

  /** Encoding puts a 0 unit exactly where the text has a NUL. */
  lemma {:induction false} EncodeHasNul(s: string)
    ensures (0 in Encode(s)) == ('\0' in s)
  {
    if s != [] {
      EncodeCharShape(s[0]);
      EncodeHasNul(s[1..]);
      assert s == [s[0]] + s[1..];
    }
  }

  /** Truncating the encoding at its first 0 unit is encoding the text before its first NUL. */
  lemma {:induction false} EncodeBeforeNul(s: string)
    ensures UnitsBeforeNul(Encode(s)) == Encode(TextBeforeNul(s))
  {
    if s != [] {
      EncodeCharShape(s[0]);
      var e := EncodeChar(s[0]);
      EncodeBeforeNul(s[1..]);
      if s[0] == '\0' {
        assert e == [0];
      } else {
        UnitsBeforeNulOfNonZeroPrefix(e, Encode(s[1..]));
        assert TextBeforeNul(s) == [s[0]] + TextBeforeNul(s[1..]);
        EncodeAppend([s[0]], TextBeforeNul(s[1..]));
        assert Encode([s[0]]) == e by { assert [s[0]][1..] == []; }
      }
    }
  }

  lemma {:induction false} UnitsBeforeNulOfNonZeroPrefix(p: seq<CodeUnit>, q: seq<CodeUnit>)
    requires 0 !in p
    ensures UnitsBeforeNul(p + q) == p + UnitsBeforeNul(q)
  {
    if p != [] {
      assert (p + q)[1..] == p[1..] + q;
      UnitsBeforeNulOfNonZeroPrefix(p[1..], q);
      assert p == [p[0]] + p[1..];
    } else {
      assert p + q == q;
    }
  }

  /** Text without a NUL is its own prefix before the first NUL. */
  lemma {:induction false} TextBeforeNulOfNulFree(s: string)
    requires '\0' !in s
    ensures TextBeforeNul(s) == s
  {
    if s != [] { TextBeforeNulOfNulFree(s[1..]); }
  }

  /** Code units without a 0 are their own prefix before the first 0. */
  lemma {:induction false} UnitsBeforeNulOfNulFree(u: seq<CodeUnit>)
    requires 0 !in u
    ensures UnitsBeforeNul(u) == u
  {
    if u != [] { UnitsBeforeNulOfNulFree(u[1..]); }
  }

  /** A terminator ends the scan: the units before the first 0 of `u + [0]` are those of `u`. */
  lemma {:induction false} BeforeNulOfTerminated(u: seq<CodeUnit>)
    ensures UnitsBeforeNul(u + [0]) == UnitsBeforeNul(u)
  {
    if u != [] {
      assert (u + [0])[1..] == u[1..] + [0];
      BeforeNulOfTerminated(u[1..]);
    }
  }

  /** Encoding never shrinks the text and at most doubles it. */
  lemma {:induction false} EncodeLength(s: string)
    ensures |s| <= |Encode(s)| <= 2 * |s|
  {
    if s != [] {
      EncodeCharShape(s[0]);
      EncodeLength(s[1..]);
    }
  }
}
