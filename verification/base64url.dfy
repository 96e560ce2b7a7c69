/** The unpadded base64url codec of the frontend (section 5 of RFC 4648), built
    as the source builds it: on `btoa` and `atob`, the latter with the forgiving
    decoder of the WHATWG Infra standard (section 7). */
module Base64Url {
  import opened Options
  import opened Text

  type Sextet = x: int | 0 <= x < 64

  const PLUS: CodeUnit := '+' as int
  const SLASH: CodeUnit := '/' as int
  const DASH: CodeUnit := '-' as int
  const UNDERSCORE: CodeUnit := '_' as int
  const EQUALS: CodeUnit := '=' as int

  // ---- the alphabets ----

  predicate IsAlphanumeric(u: CodeUnit)
  {
    'A' as int <= u <= 'Z' as int || 'a' as int <= u <= 'z' as int || '0' as int <= u <= '9' as int
  }

  predicate IsStd(u: CodeUnit) { IsAlphanumeric(u) || u == PLUS || u == SLASH }

  predicate IsUrl(u: CodeUnit) { IsAlphanumeric(u) || u == DASH || u == UNDERSCORE }

  predicate AllUrl(s: JsString) { forall i | 0 <= i < |s| :: IsUrl(s[i]) }

  /** Section 4 of RFC 4648, table 1. */
  function StdChar(x: Sextet): (u: CodeUnit)
    ensures IsStd(u) && StdValue(u) == x
  {
    if x < 26 then 'A' as int + x
    else if x < 52 then 'a' as int + (x - 26)
    else if x < 62 then '0' as int + (x - 52)
    else if x == 62 then PLUS else SLASH
  }

  function StdValue(u: CodeUnit): (x: Sextet)
    requires IsStd(u)
  {
    if 'A' as int <= u <= 'Z' as int then u - 'A' as int
    else if 'a' as int <= u <= 'z' as int then u - 'a' as int + 26
    else if '0' as int <= u <= '9' as int then u - '0' as int + 52
    else if u == PLUS then 62 else 63
  }

  function ToUrl(u: CodeUnit): CodeUnit { if u == PLUS then DASH else if u == SLASH then UNDERSCORE else u }

  function ToStd(u: CodeUnit): CodeUnit { if u == DASH then PLUS else if u == UNDERSCORE then SLASH else u }

  function UrlChar(x: Sextet): CodeUnit { ToUrl(StdChar(x)) }

  function UrlValue(u: CodeUnit): Sextet
    requires IsUrl(u)
  {
    StdValue(ToStd(u))
  }

  lemma UrlAlphabet()
    ensures forall x: Sextet :: IsUrl(UrlChar(x)) && UrlValue(UrlChar(x)) == x
    ensures forall u: CodeUnit | IsUrl(u) :: UrlChar(UrlValue(u)) == u
  {
  }

  /** The tables of RFC 4648, section 4 (table 1) and section 5 (table 2). */
  lemma AlphabetTables()
    ensures forall x: Sextet | x < 62 :: StdChar(x) == UrlChar(x)
    ensures forall x: Sextet | x < 26 :: UrlChar(x) == 'A' as int + x
    ensures forall x: Sextet | 26 <= x < 52 :: UrlChar(x) == 'a' as int + (x - 26)
    ensures forall x: Sextet | 52 <= x < 62 :: UrlChar(x) == '0' as int + (x - 52)
    ensures StdChar(62) == '+' as int && StdChar(63) == '/' as int
    ensures UrlChar(62) == '-' as int && UrlChar(63) == '_' as int
  {
  }

  // ---- bytes and sextets ----

  function Sextet0(a: Byte): Sextet { a / 4 }

  function Sextet1(a: Byte, b: Byte): Sextet { a % 4 * 16 + b / 16 }

  function Sextet2(b: Byte, c: Byte): Sextet { b % 16 * 4 + c / 64 }

  function Sextet3(c: Byte): Sextet { c % 64 }

  /** Three bytes are four sextets; a tail of one or two bytes is padded with zero bits. */
  function Sextets(b: Bytes): (x: seq<Sextet>)
  {
    if b == [] then []
    else if |b| == 1 then [Sextet0(b[0]), Sextet1(b[0], 0)]
    else if |b| == 2 then [Sextet0(b[0]), Sextet1(b[0], b[1]), Sextet2(b[1], 0)]
    else [Sextet0(b[0]), Sextet1(b[0], b[1]), Sextet2(b[1], b[2]), Sextet3(b[2])] + Sextets(b[3..])
  }

  function Octet0(x: Sextet, y: Sextet): Byte { x as int * 4 + y / 16 }

  function Octet1(y: Sextet, z: Sextet): Byte { y % 16 as int * 16 + z / 4 }

  function Octet2(z: Sextet, w: Sextet): Byte { z % 4 as int * 64 + w }

  /** The bytes of a sextet string; leftover bits are dropped. */
  function Octets(x: seq<Sextet>): (b: Bytes)
    requires |x| % 4 != 1
  {
    if x == [] then []
    else if |x| == 2 then [Octet0(x[0], x[1])]
    else if |x| == 3 then [Octet0(x[0], x[1]), Octet1(x[1], x[2])]
    else [Octet0(x[0], x[1]), Octet1(x[1], x[2]), Octet2(x[2], x[3])] + Octets(x[4..])
  }

  /** The bits of the last sextet that carry no byte are zero. */
  predicate ZeroTail(x: seq<Sextet>)
  {
    && (|x| % 4 == 2 ==> x[|x| - 1] % 16 == 0)
    && (|x| % 4 == 3 ==> x[|x| - 1] % 4 == 0)
  }

  lemma {:induction false} SextetCount(b: Bytes)
    ensures |Sextets(b)| == (4 * |b| + 2) / 3
    ensures |Sextets(b)| % 4 == [0, 2, 3][|b| % 3]
  {
    hide Sextet0, Sextet1, Sextet2, Sextet3;
    if |b| >= 3 {
      SextetCount(b[3..]);
      assert |Sextets(b)| == 4 + |Sextets(b[3..])|;
    }
  }

  lemma OneBlockLess(n: nat)
    requires n >= 4
    ensures n * 3 / 4 == 3 + (n - 4) * 3 / 4 && n % 4 == (n - 4) % 4
  {
  }

  lemma {:induction false} OctetCount(x: seq<Sextet>)
    requires |x| % 4 != 1
    ensures |Octets(x)| == |x| * 3 / 4
  {
    hide Octet0, Octet1, Octet2;
    if |x| >= 4 {
      OneBlockLess(|x|);
      var rest := x[4..];
      OctetCount(rest);
      assert |Octets(x)| == 3 + |Octets(rest)|;
    } else {
      assert |x| == 0 || |x| == 2 || |x| == 3;
    }
  }

  lemma BlockOctets(a: Byte, b: Byte, c: Byte)
    ensures Octet0(Sextet0(a), Sextet1(a, b)) == a
    ensures Octet1(Sextet1(a, b), Sextet2(b, c)) == b
    ensures Octet2(Sextet2(b, c), Sextet3(c)) == c
  {
  }

  lemma BlockSextets(x: Sextet, y: Sextet, z: Sextet, w: Sextet)
    ensures Sextet0(Octet0(x, y)) == x
    ensures Sextet1(Octet0(x, y), Octet1(y, z)) == y
    ensures Sextet2(Octet1(y, z), Octet2(z, w)) == z
    ensures Sextet3(Octet2(z, w)) == w
    ensures Sextet1(Octet0(x, y), 0) == y <==> y % 16 == 0
    ensures Sextet2(Octet1(y, z), 0) == z <==> z % 4 == 0
  {
  }

  lemma ZeroTailCons(x: seq<Sextet>)
    requires |x| >= 4
    ensures ZeroTail(x) <==> ZeroTail(x[4..])
  {
    var rest := x[4..];
    assert |x| % 4 == |rest| % 4;
    if rest != [] { assert x[|x| - 1] == rest[|rest| - 1]; }
  }

  lemma ZeroBits(a: Byte)
    ensures Sextet1(a, 0) % 16 == 0 && Sextet2(a, 0) % 4 == 0
  {
    var q: int, r: int := a % 4, a % 16;
    assert Sextet1(a, 0) == 16 * q && Sextet2(a, 0) == 4 * r;
  }

  lemma TailForms(x: Sextet, y: Sextet, z: Sextet)
    ensures Octets([x, y]) == [Octet0(x, y)] && (ZeroTail([x, y]) <==> y % 16 == 0)
    ensures Octets([x, y, z]) == [Octet0(x, y), Octet1(y, z)] && (ZeroTail([x, y, z]) <==> z % 4 == 0)
  {
  }

  lemma TailOctets(a: Byte, b: Byte)
    ensures Octets([Sextet0(a), Sextet1(a, 0)]) == [a] && ZeroTail([Sextet0(a), Sextet1(a, 0)])
    ensures Octets([Sextet0(a), Sextet1(a, b), Sextet2(b, 0)]) == [a, b]
    ensures ZeroTail([Sextet0(a), Sextet1(a, b), Sextet2(b, 0)])
  {
    hide *;
    BlockOctets(a, 0, 0);
    BlockOctets(a, b, 0);
    ZeroBits(a);
    ZeroBits(b);
    TailForms(Sextet0(a), Sextet1(a, 0), 0);
    TailForms(Sextet0(a), Sextet1(a, b), Sextet2(b, 0));
  }

  lemma {:induction false} OctetsSextets(b: Bytes)
    ensures |Sextets(b)| % 4 != 1 && Octets(Sextets(b)) == b && ZeroTail(Sextets(b))
  {
    hide Octet0, Octet1, Octet2, Sextet0, Sextet1, Sextet2, Sextet3;
    SextetCount(b);
    var x := Sextets(b);
    if |b| == 1 {
      TailOctets(b[0], 0);
      assert x == [Sextet0(b[0]), Sextet1(b[0], 0)];
      assert b == [b[0]];
    } else if |b| == 2 {
      TailOctets(b[0], b[1]);
      assert x == [Sextet0(b[0]), Sextet1(b[0], b[1]), Sextet2(b[1], 0)];
      assert b == [b[0], b[1]];
    } else if |b| >= 3 {
      OctetsSextets(b[3..]);
      BlockOctets(b[0], b[1], b[2]);
      ZeroTailCons(x);
      assert x[4..] == Sextets(b[3..]);
      assert Octets(x) == [b[0], b[1], b[2]] + Octets(x[4..]);
      assert b == [b[0], b[1], b[2]] + b[3..];
    }
  }

  lemma {:induction false} SextetsOctets(x: seq<Sextet>)
    requires |x| % 4 != 1
    ensures Sextets(Octets(x)) == x <==> ZeroTail(x)
  {
    hide Octet0, Octet1, Octet2, Sextet0, Sextet1, Sextet2, Sextet3;
    var b := Octets(x);
    if |x| == 2 {
      BlockSextets(x[0], x[1], 0, 0);
    } else if |x| == 3 {
      BlockSextets(x[0], x[1], x[2], 0);
    } else if |x| >= 4 {
      var rest := x[4..];
      SextetsOctets(rest);
      BlockSextets(x[0], x[1], x[2], x[3]);
      ZeroTailCons(x);
      assert b[3..] == Octets(rest);
      assert x == [x[0], x[1], x[2], x[3]] + rest;
      assert Sextets(b) == [x[0], x[1], x[2], x[3]] + Sextets(b[3..]);
      assert Sextets(b)[4..] == Sextets(b[3..]);
    }
  }

  // ---- btoa, atob and the string replacements ----

  function ReplaceAll(s: JsString, from: CodeUnit, to: CodeUnit): (r: JsString)
    ensures |r| == |s|
    ensures forall i | 0 <= i < |s| :: r[i] == if s[i] == from then to else s[i]
  {
    seq(|s|, i requires 0 <= i < |s| => if s[i] == from then to else s[i])
  }

  /** `s.replace(/=+$/, "")` */
  function StripPadding(s: JsString): JsString
  {
    if s != [] && s[|s| - 1] == EQUALS then StripPadding(s[..|s| - 1]) else s
  }

  function Btoa(binary: Bytes): (r: JsString)
  {
    var x := Sextets(binary);
    seq(|x|, i requires 0 <= i < |x| => StdChar(x[i]))
    + (if |binary| % 3 == 1 then [EQUALS, EQUALS] else if |binary| % 3 == 2 then [EQUALS] else [])
  }

  predicate IsAsciiSpace(u: CodeUnit) { u == 0x09 || u == 0x0A || u == 0x0C || u == 0x0D || u == 0x20 }

  function RemoveSpaces(s: JsString): JsString
  {
    if s == [] then [] else (if IsAsciiSpace(s[0]) then [] else [s[0]]) + RemoveSpaces(s[1..])
  }

  /** At most two padding characters, and only when they complete a group of four. */
  function DropPadding(s: JsString): JsString
  {
    var n := |s|;
    if n > 0 && n % 4 == 0 && s[n - 1] == EQUALS then
      if s[n - 2] == EQUALS then s[..n - 2] else s[..n - 1]
    else s
  }

  function StdSextets(s: JsString): (x: seq<Sextet>)
    requires forall i | 0 <= i < |s| :: IsStd(s[i])
    ensures |x| == |s|
  {
    seq(|s|, i requires 0 <= i < |s| => StdValue(s[i]))
  }

  function Atob(data: JsString): Option<Bytes>
  {
    var s := DropPadding(RemoveSpaces(data));
    if |s| % 4 == 1 || exists i | 0 <= i < |s| :: !IsStd(s[i]) then None
    else Some(Octets(StdSextets(s)))
  }

  /** The padding `base64UrlDecode` adds; a remainder of one gets three signs. */
  function AddPadding(s: JsString): JsString
  {
    s + (if |s| % 4 == 0 then [] else seq(4 - |s| % 4, _ => EQUALS))
  }

  // ---- the codec ----

  function Encode(bytes: Bytes): (r: JsString)
    ensures |r| == |Sextets(bytes)|
  {
    var x := Sextets(bytes);
    seq(|x|, i requires 0 <= i < |x| => UrlChar(x[i]))
  }

  function Decode(s: JsString): Option<Bytes>
  {
    Atob(AddPadding(ReplaceAll(ReplaceAll(s, DASH, PLUS), UNDERSCORE, SLASH)))
  }

  function UrlSextets(s: JsString): (x: seq<Sextet>)
    requires AllUrl(s)
    ensures |x| == |s|
  {
    seq(|s|, i requires 0 <= i < |s| => UrlValue(s[i]))
  }

  lemma {:induction false} StripPaddingTail(s: JsString, n: nat)
    requires n <= |s|
    requires forall i | n <= i < |s| :: s[i] == EQUALS
    requires n > 0 ==> s[n - 1] != EQUALS
    ensures StripPadding(s) == s[..n]
  {
    if n < |s| {
      StripPaddingTail(s[..|s| - 1], n);
      assert s[..|s| - 1][..n] == s[..n];
    } else {
      assert s[..n] == s;
    }
  }

  /** `base64UrlEncode`: the binary string is grown byte by byte, then handed to
      `btoa` and rewritten into the URL alphabet without padding. */
  method Base64UrlEncode(bytes: array<Byte>) returns (r: JsString)
    ensures r == Encode(bytes[..])
  {
    var binary: Bytes := [];
    for i := 0 to bytes.Length
      invariant binary == bytes[..i]
    {
      binary := binary + [bytes[i]];
    }
    assert binary == bytes[..];
    var b64 := Btoa(binary);
    var replaced := ReplaceAll(ReplaceAll(b64, PLUS, DASH), SLASH, UNDERSCORE);
    ghost var n := |Sextets(binary)|;
    assert forall i | 0 <= i < n :: replaced[i] == UrlChar(Sextets(binary)[i]);
    StripPaddingTail(replaced, n);
    r := StripPadding(replaced);
  }

  /** `base64UrlDecode`; `None` is the exception `atob` throws. */
  method Base64UrlDecode(s: JsString) returns (r: Option<Bytes>)
    ensures r == Decode(s)
  {
    var b64 := ReplaceAll(ReplaceAll(s, DASH, PLUS), UNDERSCORE, SLASH);
    var pad := |b64| % 4;
    if pad != 0 {
      b64 := b64 + seq(4 - pad, _ => EQUALS);
    }
    assert b64 == AddPadding(ReplaceAll(ReplaceAll(s, DASH, PLUS), UNDERSCORE, SLASH));
    var binary := Atob(b64);
    if binary.None? {
      r := None;
      return;
    }
    var bytes := new Byte[|binary.value|](_ => 0);
    for i := 0 to |binary.value|
      invariant bytes[..i] == binary.value[..i]
    {
      bytes[i] := binary.value[i];
    }
    assert bytes[..] == bytes[..|binary.value|] == binary.value;
    r := Some(bytes[..]);
  }

  // ---- what the codec promises ----

  lemma {:induction false} RemoveSpacesNone(s: JsString)
    requires forall i | 0 <= i < |s| :: !IsAsciiSpace(s[i])
    ensures RemoveSpaces(s) == s
  {
    if s != [] { RemoveSpacesNone(s[1..]); }
  }

  lemma PadMod(n: nat)
    requires n % 4 != 0
    ensures (n + (3 - n % 4)) % 4 == 3
  {
  }

  lemma DropOne(u: JsString)
    requires |u| % 4 == 3
    ensures DropPadding(u + [EQUALS]) == if u[|u| - 1] == EQUALS then u[..|u| - 1] else u
  {
    var t := u + [EQUALS];
    assert |t| % 4 == 0 && t[|t| - 1] == EQUALS && t[|t| - 2] == u[|u| - 1];
    assert t[..|t| - 2] == u[..|u| - 1] && t[..|t| - 1] == u;
  }

  /** Padding that was added is dropped again, except that after a remainder of one a
      padding sign is left over, on which `atob` fails. */
  lemma DropAddedPadding(s: JsString)
    requires forall i | 0 <= i < |s| :: IsStd(s[i])
    ensures RemoveSpaces(AddPadding(s)) == AddPadding(s)
    ensures DropPadding(AddPadding(s)) == if |s| % 4 == 1 then s + [EQUALS] else s
  {
    hide RemoveSpaces, DropPadding;
    var r, t := |s| % 4, AddPadding(s);
    RemoveSpacesNone(t);
    if r == 0 {
      assert t == s;
      DropNone(s);
    } else {
      var u := s + seq(3 - r, _ => EQUALS);
      PadMod(|s|);
      assert t == u + [EQUALS];
      DropOne(u);
      assert r == 3 ==> u == s;
      assert r == 2 ==> u == s + [EQUALS] && u[..|u| - 1] == s;
      assert r == 1 ==> u[..|u| - 1] == s + [EQUALS];
    }
  }

  lemma DropNone(s: JsString)
    requires forall i | 0 <= i < |s| :: IsStd(s[i])
    ensures DropPadding(s) == s
  {
  }

  /** On the URL alphabet the padding dance cancels out: decoding fails exactly for
      lengths of remainder one and otherwise reads the sextets off. */
  lemma DecodeUrl(s: JsString)
    requires AllUrl(s)
    ensures Decode(s) == if |s| % 4 == 1 then None else Some(Octets(UrlSextets(s)))
  {
    var std := ReplaceAll(ReplaceAll(s, DASH, PLUS), UNDERSCORE, SLASH);
    assert forall i | 0 <= i < |s| :: std[i] == ToStd(s[i]) && IsStd(std[i]);
    hide Octets, AddPadding, RemoveSpaces, DropPadding;
    DropAddedPadding(std);
    if |s| % 4 == 1 {
      var t := std + [EQUALS];
      assert !IsStd(t[|s|]);
    } else {
      hide StdValue, IsStd;
      assert StdSextets(std) == UrlSextets(s);
    }
  }

  /** Decoding undoes encoding, the encoding stays in the alphabet, and its length
      is 4n/3 rounded up. */
  lemma RoundTrip(b: Bytes)
    ensures AllUrl(Encode(b)) && |Encode(b)| == (4 * |b| + 2) / 3
    ensures Decode(Encode(b)) == Some(b)
  {
    UrlAlphabet();
    SextetCount(b);
    OctetsSextets(b);
    DecodeUrl(Encode(b));
    assert UrlSextets(Encode(b)) == Sextets(b);
  }

  /** Re-encoding a decoded string gives it back if and only if it is written in the
      URL alphabet with its unused trailing bits zero. */
  lemma Canonical(s: JsString)
    requires Decode(s).Some?
    ensures Encode(Decode(s).value) == s <==> AllUrl(s) && ZeroTail(UrlSextets(s))
  {
    UrlAlphabet();
    var b := Decode(s).value;
    RoundTrip(b);
    if AllUrl(s) {
      DecodeUrl(s);
      var x := UrlSextets(s);
      SextetsOctets(x);
      if ZeroTail(x) {
        assert Encode(b) == s;
      } else {
        assert UrlSextets(Encode(b)) == Sextets(b);
      }
    }
  }

  /** A string over the URL alphabet decodes to a fixed number of bytes, given by its length. */
  lemma DecodedLength(s: JsString)
    requires AllUrl(s)
    ensures Decode(s).Some? <==> |s| % 4 != 1
    ensures Decode(s).Some? ==> |Decode(s).value| == |s| * 3 / 4
    ensures Decode(s).Some? && |Decode(s).value| == 12 <==> |s| == 16
    ensures Decode(s).Some? && |Decode(s).value| == 16 <==> |s| == 22
    ensures Decode(s).Some? && |Decode(s).value| == 32 <==> |s| == 43
  {
    DecodeUrl(s);
    hide Decode, Octets, AllUrl, UrlValue;
    if |s| % 4 != 1 { OctetCount(UrlSextets(s)); }
    Lengths(|s|);
  }

  lemma Lengths(n: nat)
    ensures n % 4 != 1 && n * 3 / 4 == 12 <==> n == 16
    ensures n % 4 != 1 && n * 3 / 4 == 16 <==> n == 22
    ensures n % 4 != 1 && n * 3 / 4 == 32 <==> n == 43
  {
  }

  lemma {:induction false} OctetsIgnoreUnusedBits(x: seq<Sextet>, p: Sextet, q: Sextet)
    requires |x| % 4 == 1 && p / 16 == q / 16
    ensures Octets(x + [p]) == Octets(x + [q])
  {
    if |x| == 1 {
      assert x == [x[0]];
      TailForms(x[0], p, 0);
      TailForms(x[0], q, 0);
    } else {
      OctetsIgnoreUnusedBits(x[4..], p, q);
      assert (x + [p])[4..] == x[4..] + [p] && (x + [q])[4..] == x[4..] + [q];
    }
  }

  /** A message id has several spellings: two strings that differ only in the unused
      bits of their last character decode to the same bytes. */
  lemma DecodeIgnoresUnusedBits(s: JsString, u: CodeUnit, v: CodeUnit)
    requires AllUrl(s) && |s| % 4 == 1 && IsUrl(u) && IsUrl(v)
    requires UrlValue(u) / 16 == UrlValue(v) / 16
    ensures Decode(s + [u]).Some? && Decode(s + [u]) == Decode(s + [v])
  {
    hide Decode, Octets;
    DecodeUrl(s + [u]);
    DecodeUrl(s + [v]);
    OctetsIgnoreUnusedBits(UrlSextets(s), UrlValue(u), UrlValue(v));
    assert UrlSextets(s + [u]) == UrlSextets(s) + [UrlValue(u)];
    assert UrlSextets(s + [v]) == UrlSextets(s) + [UrlValue(v)];
  }
}
