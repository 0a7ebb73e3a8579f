/**
 * `WideString` and `WideStringArray`: owned NUL-terminated UTF-16 buffers and arrays of
 * pointers to them, as the bindings hand them to the host.
 */
module WideStr {
  import opened Wrappers
  import opened Utf16
  import opened Ffi

  /** The content of a C wide string: code units with no 0 among them. */
  type NulFreeUnits = u: seq<CodeUnit> | 0 !in u

  /** An owned, NUL-terminated UTF-16 buffer, held as its content. */
  datatype WideString = WideString(units: NulFreeUnits) {
    /** The owned buffer as the host sees it: the content and one terminating 0. */
    function Buffer(): (b: seq<CodeUnit>)
      ensures |b| == |units| + 1 && b[|units|] == 0 && b[..|units|] == units
      ensures UnitsBeforeNul(b) == units
    {
      BeforeNulOfTerminated(units);
      UnitsBeforeNulOfNulFree(units);
      units + [0]
    }
  }

  /** `WideString::new`: the empty string. */
  function New(): (w: WideString)
    ensures w.units == [] && w.Buffer() == [0]
  {
    WideString([])
  }

  /** `as_ptr`: a pointer to the owned buffer. */
  function AsPtr(w: WideString): (p: WPtr)
    ensures p.Some? && p.value == w.Buffer()
  {
    Some(w.Buffer())
  }

  /** A pointer to the buffer of `w` when there is one, null otherwise (the `map_or(null, as_ptr)` idiom). */
  function AsPtrOrNull(w: Option<WideString>): (p: WPtr)
    ensures p.None? <==> w.None?
    ensures w.Some? ==> p == AsPtr(w.value)
  {
    match w
    case None => None
    case Some(s) => AsPtr(s)
  }

  /** `s.as_ref().map(|s| WideString::from(s.as_str()))`: an owned copy of an optional text. */
  function FromOptStr(s: Option<string>): (w: Option<WideString>)
    ensures w.Some? <==> s.Some?
    ensures s.Some? ==> w.value == FromStr(s.value)
  {
    match s
    case None => None
    case Some(t) => Some(FromStr(t))
  }

  /** `from_ptr_str`: copies the code units before the first 0 the pointer addresses. */
  function FromPtrStr(p: WPtr): (w: WideString)
    requires p.Some?
    ensures w.units <= p.value
    ensures |w.units| < |p.value| ==> p.value[|w.units|] == 0
  {
    WideString(UnitsBeforeNul(p.value))
  }

  /**
   * `From<&str>`: the UTF-16 encoding of `s`. An `s` with an interior NUL is refused by
   * `from_str` and then read by `from_str_with_nul`, which keeps what comes before the NUL.
   */
  function FromStr(s: string): (w: WideString)
    ensures w.units == Encode(TextBeforeNul(s))
    ensures '\0' !in s ==> w.units == Encode(s)
  {
    EncodeHasNul(s);
    EncodeBeforeNul(s);
    if '\0' !in s then
      TextBeforeNulOfNulFree(s);
      WideString(Encode(s))
    else
      WideString(UnitsBeforeNul(Encode(s)))
  }

  /**
   * `From<&[wchar_t]>`: a slice holding a 0 is read up to its first 0 (`from_slice_with_nul`);
   * any other slice gets a 0 appended and is kept whole. It never fails.
   */
  function FromSlice(u: seq<CodeUnit>): (w: WideString)
    ensures w.units == UnitsBeforeNul(u)
    ensures 0 !in u ==> w.units == u
    ensures 0 in u ==> w.units < u && u[|w.units|] == 0
  {
    if 0 in u then
      WideString(UnitsBeforeNul(u))
    else
      var v := u + [0];
      BeforeNulOfTerminated(u);
      UnitsBeforeNulOfNulFree(u);
      WideString(UnitsBeforeNul(v))
  }

  /** `to_string_lossy`: decodes the content, each unpaired surrogate becoming U+FFFD. */
  function ToStringLossy(w: WideString): (s: string)
    ensures '\0' !in s
    ensures |s| <= |w.units|
  {
    DecodeLossyNulFree(w.units);
    DecodeLossy(w.units)
  }

  /** `Clone`: an independent buffer with the same content. */
  function Clone(w: WideString): (c: WideString)
    ensures c.units == w.units && c.Buffer() == w.Buffer()
  {
    WideString(w.units)
  }

  /** `Display`: prints the lossy decoding. */
  function Display(w: WideString): (s: string)
    ensures '\0' !in s && |s| <= |w.units|
  {
    ToStringLossy(w)
  }

  /** Decoding code units without a 0 gives text without a NUL and no longer than the units. */
  lemma {:induction false} DecodeLossyNulFree(u: seq<CodeUnit>)
    requires 0 !in u
    ensures '\0' !in DecodeLossy(u) && |DecodeLossy(u)| <= |u|
    decreases |u|
  {
    if |u| == 0 {
    } else if |u| >= 2 && IsHighSurrogate(u[0]) && IsLowSurrogate(u[1]) {
      assert 0 !in u[2..] by { assert forall k :: 0 <= k < |u| - 2 ==> u[2..][k] == u[k + 2]; }
      DecodeLossyNulFree(u[2..]);
    } else {
      assert 0 !in u[1..] by { assert forall k :: 0 <= k < |u| - 1 ==> u[1..][k] == u[k + 1]; }
      DecodeLossyNulFree(u[1..]);
    }
  }

  /** For every NUL-free text, converting to a wide string and back gives the text. */
  lemma StrRoundTrip(s: string)
    requires '\0' !in s
    ensures ToStringLossy(FromStr(s)) == s
    ensures Display(FromStr(s)) == s
  {
    DecodeEncode(s);
  }

  /** Any text comes back cut at its first NUL. */
  lemma StrRoundTripWithNul(s: string)
    ensures ToStringLossy(FromStr(s)) == TextBeforeNul(s)
  {
    DecodeEncode(TextBeforeNul(s));
  }

  /** Reading a pointer to an owned buffer, or re-reading its content as a slice, gives the string back. */
  lemma PointerRoundTrip(w: WideString)
    ensures FromPtrStr(AsPtr(w)) == w
    ensures FromSlice(w.Buffer()) == w && FromSlice(w.units) == w
  {
    UnitsBeforeNulOfNulFree(w.units);
  }

  /**
   * `WideStringArray`: the owned strings, the array of pointers to them that the host reads,
   * and its length.
   */
  datatype WideStringArray = WideStringArray(buf: seq<WideString>, ptrs: seq<WPtr>, len: nat) {
    /** `ptrs[i]` points at `buf[i]`, and both have `len` entries. */
    predicate Valid() {
      |buf| == len && |ptrs| == len && forall i :: 0 <= i < len ==> ptrs[i] == AsPtr(buf[i])
    }
  }

  /** `as_ptr`: the pointer array; each entry reads back as the string it stands for. */
  function ArrayAsPtr(a: WideStringArray): (p: seq<WPtr>)
    requires a.Valid()
    ensures |p| == a.len
    ensures forall i :: 0 <= i < a.len ==> p[i].Some? && FromPtrStr(p[i]) == a.buf[i]
  {
    forall i | 0 <= i < a.len ensures FromPtrStr(a.ptrs[i]) == a.buf[i] {
      PointerRoundTrip(a.buf[i]);
    }
    a.ptrs
  }

  /** `len` */
  function ArrayLen(a: WideStringArray): (n: nat)
    requires a.Valid()
    ensures n == |a.buf| == |a.ptrs|
  {
    a.len
  }

  /** `WideStringArray::new`: no strings and no pointers. */
  function ArrayNew(): (a: WideStringArray)
    ensures a.Valid() && a.len == 0 && a.buf == [] && a.ptrs == []
  {
    WideStringArray([], [], 0)
  }

  /** `From<Vec<WideString>>`: takes the strings over and points at each of them. */
  function ArrayFromWide(v: seq<WideString>): (a: WideStringArray)
    ensures a.Valid() && a.buf == v && a.len == |v|
  {
    WideStringArray(v, seq(|v|, i requires 0 <= i < |v| => AsPtr(v[i])), |v|)
  }

  /** `From<&[String]>`: converts each text and points at the results. */
  function ArrayFromStrings(s: seq<string>): (a: WideStringArray)
    ensures a.Valid() && a.len == |s|
    ensures forall i :: 0 <= i < |s| ==> a.buf[i] == FromStr(s[i])
  {
    ArrayFromWide(seq(|s|, i requires 0 <= i < |s| => FromStr(s[i])))
  }

  /** The host reads pointer `i` of an array built from texts as the encoding of text `i`. */
  lemma ArrayFromStringsContent(s: seq<string>, i: nat)
    requires i < |s|
    ensures ArrayFromStrings(s).ptrs[i].Some?
    ensures FromPtrStr(ArrayFromStrings(s).ptrs[i]).units == Encode(TextBeforeNul(s[i]))
    ensures '\0' !in s[i] ==> ToStringLossy(FromPtrStr(ArrayFromStrings(s).ptrs[i])) == s[i]
  {
    var a := ArrayFromStrings(s);
    PointerRoundTrip(a.buf[i]);
    if '\0' !in s[i] {
      StrRoundTrip(s[i]);
    }
  }
}
