/** JavaScript strings and their UTF-8 bytes.

    A string is a sequence of UTF-16 code units, surrogates included, because
    that is what lengths, slices and regular expressions see. `TextEncode` and
    `TextDecode` follow TextEncoder and the non-fatal TextDecoder; the byte
    layout is the one of section 3 of RFC 3629. */
module Text {
  type CodeUnit = x: int | 0 <= x < 0x1_0000
  type Byte = x: int | 0 <= x < 0x100
  type Scalar = x: int | 0 <= x < 0xD800 || 0xE000 <= x < 0x11_0000

  type JsString = seq<CodeUnit>
  type Bytes = seq<Byte>

  const REPLACEMENT: Scalar := 0xFFFD
  const BYTE_ORDER_MARK: Scalar := 0xFEFF

  /** A Dafny literal as a JavaScript string; every literal in the model is ASCII. */
  function Ascii(s: string): (r: JsString)
    requires forall i | 0 <= i < |s| :: s[i] < 128 as char
    ensures |r| == |s|
    ensures forall i | 0 <= i < |r| :: r[i] == s[i] as int && r[i] < 0x80
  {
    seq(|s|, i requires 0 <= i < |s| => s[i] as int)
  }

  // ---- UTF-16 ----

  predicate IsHigh(u: CodeUnit) { 0xD800 <= u < 0xDC00 }

  predicate IsLow(u: CodeUnit) { 0xDC00 <= u < 0xE000 }

  /** The first code point of `s` and the number of units it takes; a lone
      surrogate reads as U+FFFD, as every conversion to UTF-8 does. */
  function FirstScalar(s: JsString): (r: (Scalar, nat))
    requires s != []
    ensures 1 <= r.1 <= 2 && r.1 <= |s|
  {
    if IsHigh(s[0]) && |s| >= 2 && IsLow(s[1]) then
      (0x1_0000 + (s[0] as int - 0xD800) * 0x400 + (s[1] as int - 0xDC00), 2)
    else if IsHigh(s[0]) || IsLow(s[0]) then (REPLACEMENT, 1)
    else (s[0], 1)
  }

  function Scalars(s: JsString): (r: seq<Scalar>)
  {
    if s == [] then []
    else var (c, n) := FirstScalar(s); [c] + Scalars(s[n..])
  }

  function Units(c: Scalar): (r: JsString)
    ensures 1 <= |r| <= 2
  {
    if c < 0x1_0000 then [c]
    else [0xD800 + (c - 0x1_0000) / 0x400, 0xDC00 + (c - 0x1_0000) % 0x400]
  }

  function FromScalars(cs: seq<Scalar>): (r: JsString)
  {
    if cs == [] then [] else Units(cs[0]) + FromScalars(cs[1..])
  }

  /** The string with each lone surrogate replaced by U+FFFD. */
  function ToWellFormed(s: JsString): JsString { FromScalars(Scalars(s)) }

  predicate WellFormed(s: JsString) { ToWellFormed(s) == s }

  lemma {:induction false} ScalarsFromScalars(cs: seq<Scalar>)
    ensures Scalars(FromScalars(cs)) == cs
  {
    if cs != [] {
      var u, rest := Units(cs[0]), FromScalars(cs[1..]);
      assert FirstScalar(u + rest) == (cs[0], |u|);
      assert (u + rest)[|u|..] == rest;
      ScalarsFromScalars(cs[1..]);
    }
  }

  /** Replacement loses exactly the lone surrogates: two strings have the same
      code points if and only if they have the same replaced form. */
  lemma SameScalars(s: JsString, t: JsString)
    ensures Scalars(s) == Scalars(t) <==> ToWellFormed(s) == ToWellFormed(t)
    ensures WellFormed(s) && WellFormed(t) && Scalars(s) == Scalars(t) ==> s == t
  {
    ScalarsFromScalars(Scalars(s));
    ScalarsFromScalars(Scalars(t));
  }

  lemma {:induction false} ScalarsConcat(s: JsString, t: JsString)
    requires s == [] || t == [] || !IsHigh(s[|s| - 1]) || !IsLow(t[0])
    ensures Scalars(s + t) == Scalars(s) + Scalars(t)
  {
    if s == [] {
      assert s + t == t;
    } else {
      var n := FirstScalar(s).1;
      assert FirstScalar(s + t) == FirstScalar(s);
      assert (s + t)[n..] == s[n..] + t;
      ScalarsConcat(s[n..], t);
    }
  }

  lemma {:induction false} AsciiScalars(s: JsString)
    requires forall i | 0 <= i < |s| :: s[i] < 0x80
    ensures Scalars(s) == s && WellFormed(s)
  {
    if s != [] {
      AsciiScalars(s[1..]);
      assert [s[0]] + s[1..] == s;
      assert FromScalars(s) == [s[0]] + FromScalars(s[1..]);
    }
  }

  // ---- UTF-8 ----

  function Utf8Scalar(c: Scalar): (b: Bytes)
    ensures 1 <= |b| <= 4
  {
    if c < 0x80 then [c]
    else if c < 0x800 then [0xC0 + c / 0x40, 0x80 + c % 0x40]
    else if c < 0x1_0000 then [0xE0 + c / 0x1000, 0x80 + c / 0x40 % 0x40, 0x80 + c % 0x40]
    else [0xF0 + c / 0x4_0000, 0x80 + c / 0x1000 % 0x40, 0x80 + c / 0x40 % 0x40, 0x80 + c % 0x40]
  }

  function Utf8(cs: seq<Scalar>): (b: Bytes)
  {
    if cs == [] then [] else Utf8Scalar(cs[0]) + Utf8(cs[1..])
  }

  /** `new TextEncoder().encode(s)`. */
  function TextEncode(s: JsString): Bytes { Utf8(Scalars(s)) }

  predicate IsContinuation(b: Byte) { 0x80 <= b < 0xC0 }

  /** The second byte allowed after lead byte `lead` of a three- or four-byte
      form: overlong forms, surrogates and values past U+10FFFF are cut off here. */
  predicate IsSecond(lead: Byte, b: Byte)
  {
    (if lead == 0xE0 then 0xA0 else if lead == 0xF0 then 0x90 else 0x80) <= b
    && b < (if lead == 0xED then 0xA0 else if lead == 0xF4 then 0x90 else 0xC0)
  }

  /** One step of the decoder: a code point and the bytes it consumed, or U+FFFD
      and the longest prefix of a form that the input breaks off. */
  function DecodeStep(b: Bytes): (r: (Scalar, nat))
    requires b != []
    ensures 1 <= r.1 <= 4 && r.1 <= |b|
  {
    var n := |b|;
    if b[0] < 0x80 then (b[0], 1)
    else if 0xC2 <= b[0] < 0xE0 then
      if n >= 2 && IsContinuation(b[1]) then ((b[0] as int - 0xC0) * 0x40 + (b[1] as int - 0x80), 2)
      else (REPLACEMENT, 1)
    else if 0xE0 <= b[0] < 0xF0 then
      if !(n >= 2 && IsSecond(b[0], b[1])) then (REPLACEMENT, 1)
      else if !(n >= 3 && IsContinuation(b[2])) then (REPLACEMENT, 2)
      else ((b[0] as int - 0xE0) * 0x1000 + (b[1] as int - 0x80) * 0x40 + (b[2] as int - 0x80), 3)
    else if 0xF0 <= b[0] < 0xF5 then
      if !(n >= 2 && IsSecond(b[0], b[1])) then (REPLACEMENT, 1)
      else if !(n >= 3 && IsContinuation(b[2])) then (REPLACEMENT, 2)
      else if !(n >= 4 && IsContinuation(b[3])) then (REPLACEMENT, 3)
      else ((b[0] as int - 0xF0) * 0x4_0000 + (b[1] as int - 0x80) * 0x1000 + (b[2] as int - 0x80) * 0x40
            + (b[3] as int - 0x80), 4)
    else (REPLACEMENT, 1)
  }

  function DecodeUtf8(b: Bytes): (cs: seq<Scalar>)
  {
    if b == [] then []
    else var (c, n) := DecodeStep(b); [c] + DecodeUtf8(b[n..])
  }

  /** `new TextDecoder().decode(b)`: a leading byte order mark is dropped. */
  function TextDecode(b: Bytes): JsString
  {
    var cs := DecodeUtf8(b);
    FromScalars(if cs != [] && cs[0] == BYTE_ORDER_MARK then cs[1..] else cs)
  }

  /** UTF-8 is a prefix code: after the form of `c` the decoder stops, whatever follows. */
  lemma DecodeStepUtf8(c: Scalar, rest: Bytes)
    ensures DecodeStep(Utf8Scalar(c) + rest) == (c, |Utf8Scalar(c)|)
  {
    var u := Utf8Scalar(c);
    var b := u + rest;
    assert forall i | 0 <= i < |u| :: b[i] == u[i];
    Digits64(c);
    if c < 0x80 {
      assert b[0] == c;
    } else if c < 0x800 {
      assert b[0] == 0xC0 + c / 0x40 && b[1] == 0x80 + c % 0x40;
    } else if c < 0x1_0000 {
      assert b[0] == 0xE0 + c / 0x1000 && b[1] == 0x80 + c / 0x40 % 0x40 && b[2] == 0x80 + c % 0x40;
      assert IsSecond(b[0], b[1]);
    } else {
      assert b[0] == 0xF0 + c / 0x4_0000 && b[1] == 0x80 + c / 0x1000 % 0x40;
      assert b[2] == 0x80 + c / 0x40 % 0x40 && b[3] == 0x80 + c % 0x40;
      assert IsSecond(b[0], b[1]);
    }
  }

  /** A code point is the number written by its six-bit digits. */
  lemma Digits64(c: nat)
    ensures c == c / 0x40 * 0x40 + c % 0x40
    ensures c / 0x40 == c / 0x1000 * 0x40 + c / 0x40 % 0x40
    ensures c / 0x1000 == c / 0x4_0000 * 0x40 + c / 0x1000 % 0x40
  {
  }

  lemma {:induction false} DecodeUtf8Utf8(cs: seq<Scalar>)
    ensures DecodeUtf8(Utf8(cs)) == cs
  {
    if cs != [] {
      var first, rest := Utf8Scalar(cs[0]), Utf8(cs[1..]);
      DecodeStepUtf8(cs[0], rest);
      assert (first + rest)[|first|..] == rest;
      DecodeUtf8Utf8(cs[1..]);
    }
  }

  /** Equal bytes come from strings that agree up to lone surrogates, and only from those. */
  lemma TextEncodeInjective(s: JsString, t: JsString)
    ensures TextEncode(s) == TextEncode(t) <==> ToWellFormed(s) == ToWellFormed(t)
  {
    DecodeUtf8Utf8(Scalars(s));
    DecodeUtf8Utf8(Scalars(t));
    SameScalars(s, t);
  }

  /** Decoding the encoding of a string gives back its well-formed version, except
      that a leading byte order mark is lost. */
  lemma TextRoundTrip(s: JsString)
    ensures var w := ToWellFormed(s);
            TextDecode(TextEncode(s)) == if w != [] && w[0] == BYTE_ORDER_MARK then w[1..] else w
  {
    DecodeUtf8Utf8(Scalars(s));
    var cs := Scalars(s);
    if cs != [] {
      assert FromScalars(cs) == Units(cs[0]) + FromScalars(cs[1..]);
    }
  }

  lemma {:induction false} Utf8Concat(a: seq<Scalar>, b: seq<Scalar>)
    ensures Utf8(a + b) == Utf8(a) + Utf8(b)
  {
    if a == [] {
      assert a + b == b;
    } else {
      assert (a + b)[1..] == a[1..] + b;
      Utf8Concat(a[1..], b);
    }
  }

  lemma EncodeConcat(s: JsString, t: JsString)
    requires s == [] || t == [] || !IsHigh(s[|s| - 1]) || !IsLow(t[0])
    ensures TextEncode(s + t) == TextEncode(s) + TextEncode(t)
  {
    ScalarsConcat(s, t);
    Utf8Concat(Scalars(s), Scalars(t));
  }

  lemma {:induction false} EncodeAscii(s: JsString)
    requires forall i | 0 <= i < |s| :: s[i] < 0x80
    ensures TextEncode(s) == s
  {
    AsciiScalars(s);
    if s != [] {
      EncodeAscii(s[1..]);
      AsciiScalars(s[1..]);
      assert [s[0]] + s[1..] == s;
    }
  }

  /** White space and line terminators as `String.prototype.trim` sees them. */
  predicate IsJsSpace(u: CodeUnit)
  {
    0x09 <= u <= 0x0D || u == 0x20 || u == 0xA0 || u == 0x1680 || 0x2000 <= u <= 0x200A
    || u == 0x2028 || u == 0x2029 || u == 0x202F || u == 0x205F || u == 0x3000 || u == 0xFEFF
  }

  function TrimStart(s: JsString): JsString
  {
    if s != [] && IsJsSpace(s[0]) then TrimStart(s[1..]) else s
  }

  function TrimEnd(s: JsString): JsString
  {
    if s != [] && IsJsSpace(s[|s| - 1]) then TrimEnd(s[..|s| - 1]) else s
  }

  function Trim(s: JsString): JsString { TrimEnd(TrimStart(s)) }

  lemma {:induction false} TrimEndKeepsStart(s: JsString)
    requires s != [] && !IsJsSpace(s[0])
    ensures TrimEnd(s) != [] && TrimEnd(s)[0] == s[0]
  {
    if IsJsSpace(s[|s| - 1]) { TrimEndKeepsStart(s[..|s| - 1]); }
  }

  /** Trimming is idempotent, and a string without outer white space is its own trim. */
  lemma TrimIdempotent(s: JsString)
    ensures Trim(Trim(s)) == Trim(s)
    ensures s != [] && !IsJsSpace(s[0]) && !IsJsSpace(s[|s| - 1]) ==> Trim(s) == s
  {
    var t := TrimStart(s);
    TrimStartDone(s);
    if t != [] { TrimEndKeepsStart(t); TrimEndDone(t); }
  }

  lemma {:induction false} TrimStartDone(s: JsString)
    ensures var t := TrimStart(s); t != [] ==> !IsJsSpace(t[0])
  {
    if s != [] && IsJsSpace(s[0]) { TrimStartDone(s[1..]); }
  }

  lemma {:induction false} TrimEndDone(s: JsString)
    ensures var t := TrimEnd(s); t != [] ==> !IsJsSpace(t[|t| - 1])
  {
    if s != [] && IsJsSpace(s[|s| - 1]) { TrimEndDone(s[..|s| - 1]); }
  }

  predicate AllSpace(s: JsString) { forall i | 0 <= i < |s| :: IsJsSpace(s[i]) }

  lemma {:induction false} TrimStartDrops(s: JsString) returns (a: JsString)
    ensures s == a + TrimStart(s) && AllSpace(a)
  {
    if s != [] && IsJsSpace(s[0]) {
      var b := TrimStartDrops(s[1..]);
      a := [s[0]] + b;
      assert s == [s[0]] + s[1..];
    } else {
      a := [];
      assert s == [] + s;
    }
  }

  lemma {:induction false} TrimEndDrops(s: JsString) returns (b: JsString)
    ensures s == TrimEnd(s) + b && AllSpace(b)
  {
    if s != [] && IsJsSpace(s[|s| - 1]) {
      var a := TrimEndDrops(s[..|s| - 1]);
      b := a + [s[|s| - 1]];
      assert s == s[..|s| - 1] + [s[|s| - 1]];
    } else {
      b := [];
      assert s == s + [];
    }
  }

  /** Trimming takes off outer white space, all of it and nothing else. */
  lemma TrimDrops(s: JsString) returns (a: JsString, b: JsString)
    ensures s == a + Trim(s) + b && AllSpace(a) && AllSpace(b)
    ensures Trim(s) != [] ==> !IsJsSpace(Trim(s)[0]) && !IsJsSpace(Trim(s)[|Trim(s)| - 1])
  {
    a := TrimStartDrops(s);
    b := TrimEndDrops(TrimStart(s));
    assert s == a + Trim(s) + b;
    TrimStartDone(s);
    TrimEndDone(TrimStart(s));
  }

  /** Code points of the examples in section 7 of RFC 3629, the last one a surrogate pair. */
  lemma Rfc3629Examples()
    ensures Utf8Scalar(0x41) == [0x41] && Utf8Scalar(0x391) == [0xCE, 0x91]
    ensures Utf8Scalar(0x2262) == [0xE2, 0x89, 0xA2] && Utf8Scalar(0xD55C) == [0xED, 0x95, 0x9C]
    ensures Utf8Scalar(0x233B4) == [0xF0, 0xA3, 0x8E, 0xB4] && FirstScalar([0xD84C, 0xDFB4]) == (0x233B4, 2)
  {
  }
}
