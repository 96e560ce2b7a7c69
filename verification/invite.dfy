/** Invite links: what the app prints and what `parseInvite` reads back. */
module Invites {
  import opened Options
  import opened Text
  import opened Base64Url
  import opened Envelopes

  const PERCENT: CodeUnit := '%' as int
  const HASH: CodeUnit := '#' as int
  const AMPERSAND: CodeUnit := '&' as int

  datatype Invite = Invite(id: JsString, key: Option<JsString>)

  function RoomPath(): JsString { Ascii("/r/") }

  function KeyMark(): JsString { Ascii("#k=") }

  // ---- decodeURIComponent ----

  predicate IsHex(u: CodeUnit)
  {
    '0' as int <= u <= '9' as int || 'A' as int <= u <= 'F' as int || 'a' as int <= u <= 'f' as int
  }

  function HexValue(u: CodeUnit): (v: int)
    requires IsHex(u)
    ensures 0 <= v < 16
  {
    if u <= '9' as int then u - '0' as int else if u <= 'F' as int then u - 'A' as int + 10 else u - 'a' as int + 10
  }

  /** The byte of an escape `%XX` at the start of `s`. */
  function EscapedByte(s: JsString): Option<Byte>
  {
    if |s| >= 3 && s[0] == PERCENT && IsHex(s[1]) && IsHex(s[2])
    then Some(HexValue(s[1]) * 16 + HexValue(s[2])) else None
  }

  function EscapedBytes(s: JsString, n: nat): Option<Bytes>
  {
    if n == 0 then Some([])
    else
      var b := EscapedByte(s);
      if b.None? then None
      else
        var rest := EscapedBytes(s[3..], n - 1);
        if rest.None? then None else Some([b.value] + rest.value)
  }

  lemma {:induction false} EscapedBytesLength(s: JsString, n: nat)
    ensures EscapedBytes(s, n).Some? ==> |EscapedBytes(s, n).value| == n && |s| >= 3 * n
  {
    if n > 0 && EscapedByte(s).Some? { EscapedBytesLength(s[3..], n - 1); }
  }

  /** `decodeURIComponent`; `None` is a URIError. */
  function DecodeUri(s: JsString): Option<JsString>
    decreases |s|
  {
    if s == [] then Some([])
    else if s[0] != PERCENT then
      var rest := DecodeUri(s[1..]);
      if rest.None? then None else Some([s[0]] + rest.value)
    else
      var lead := EscapedByte(s);
      if lead.None? then None
      else
        var n := if lead.value < 0x80 then 1 else if lead.value < 0xE0 then 2 else if lead.value < 0xF0 then 3 else 4;
        var bytes := EscapedBytes(s, n);
        if bytes.None? then None
        else
          EscapedBytesLength(s, n);
          var (c, used) := DecodeStep(bytes.value);
          if used != n then None
          else
            var rest := DecodeUri(s[3 * n..]);
            if rest.None? then None else Some(Units(c) + rest.value)
  }

  // ---- encodeURIComponent ----

  /** A-Z a-z 0-9 - _ . ! ~ * ' ( ) */
  predicate IsUnreserved(u: CodeUnit)
  {
    IsUrl(u) || u == 0x2E || u == 0x21 || u == 0x7E || 0x27 <= u <= 0x2A
  }

  function HexChar(v: int): (u: CodeUnit)
    requires 0 <= v < 16
    ensures IsHex(u) && HexValue(u) == v
  {
    if v < 10 then '0' as int + v else 'A' as int + (v - 10)
  }

  function Escape(b: Bytes): JsString
  {
    if b == [] then [] else [PERCENT, HexChar(b[0] / 16), HexChar(b[0] % 16)] + Escape(b[1..])
  }

  /** `encodeURIComponent`; `None` is the URIError on a lone surrogate. */
  function EncodeUri(s: JsString): Option<JsString>
    decreases |s|
  {
    if s == [] then Some([])
    else
      var (c, n) := FirstScalar(s);
      var rest := EncodeUri(s[n..]);
      if rest.None? || (n == 1 && (IsHigh(s[0]) || IsLow(s[0]))) then None
      else if IsUnreserved(s[0]) then Some([s[0]] + rest.value)
      else Some(Escape(Utf8Scalar(c)) + rest.value)
  }

  lemma EscapedHead(b: Byte, rest: JsString)
    ensures var s := [PERCENT, HexChar(b / 16), HexChar(b % 16)] + rest;
            EscapedByte(s) == Some(b) && s[3..] == rest
  {
    hide IsHex, HexChar, HexValue;
  }

  lemma {:induction false} UnescapeEscaped(b: Bytes, rest: JsString)
    ensures EscapedBytes(Escape(b) + rest, |b|) == Some(b) && |Escape(b)| == 3 * |b|
  {
    if b != [] {
      var s := Escape(b) + rest;
      UnescapeEscaped(b[1..], rest);
      EscapedHead(b[0], Escape(b[1..]) + rest);
      assert s == [PERCENT, HexChar(b[0] / 16), HexChar(b[0] % 16)] + (Escape(b[1..]) + rest);
      hide IsHex, HexChar, HexValue, EscapedByte;
      assert b == [b[0]] + b[1..];
    }
  }

  /** The first byte of a form tells how long the form is. */
  lemma LeadByte(c: Scalar)
    ensures var b := Utf8Scalar(c);
            |b| == (if b[0] < 0x80 then 1 else if b[0] < 0xE0 then 2 else if b[0] < 0xF0 then 3 else 4)
            && (b[0] >= 0x80 ==> |b| > 1)
  {
  }

  /** An escaped code point is read back whole. */
  lemma DecodeEscaped(c: Scalar, rest: JsString)
    requires DecodeUri(rest).Some?
    ensures DecodeUri(Escape(Utf8Scalar(c)) + rest) == Some(Units(c) + DecodeUri(rest).value)
  {
    var b := Utf8Scalar(c);
    var e := Escape(b) + rest;
    UnescapeEscaped(b, rest);
    LeadByte(c);
    DecodeStepUtf8(c, []);
    assert b + [] == b;
    assert e[3 * |b|..] == rest;
    hide DecodeStep, Utf8Scalar, EscapedBytes;
    assert EscapedByte(e) == Some(b[0]);
    assert e[0] == PERCENT;
  }

  lemma FirstUnits(s: JsString)
    requires s != []
    ensures var (c, n) := FirstScalar(s);
            (n == 1 && (IsHigh(s[0]) || IsLow(s[0]))) || Units(c) == s[..n]
    ensures IsUnreserved(s[0]) ==> FirstScalar(s).1 == 1
  {
  }

  /** Decoding undoes encoding, whenever encoding does not throw. */
  lemma {:induction false} UriRoundTrip(s: JsString)
    ensures EncodeUri(s).Some? ==> DecodeUri(EncodeUri(s).value) == Some(s)
    decreases |s|
  {
    hide Utf8Scalar, Escape, EscapedBytes, EscapedByte, FirstScalar, Units, DecodeStep;
    if s != [] && EncodeUri(s).Some? {
      var (c, n) := FirstScalar(s);
      FirstUnits(s);
      UriRoundTrip(s[n..]);
      var rest := EncodeUri(s[n..]).value;
      assert s == s[..n] + s[n..];
      if IsUnreserved(s[0]) {
        DecodeUnescaped(s[0], rest);
        assert s[..n] == [s[0]];
      } else {
        DecodeEscaped(c, rest);
      }
      hide DecodeUri;
    }
  }

  lemma DecodeUnescaped(u: CodeUnit, rest: JsString)
    requires u != PERCENT && DecodeUri(rest).Some?
    ensures DecodeUri([u] + rest) == Some([u] + DecodeUri(rest).value)
  {
    assert ([u] + rest)[1..] == rest;
  }

  /** Base64url needs no escapes. */
  lemma {:induction false} EncodeUriPlain(s: JsString)
    requires AllUrl(s)
    ensures EncodeUri(s) == Some(s)
  {
    hide Escape, Utf8Scalar;
    if s != [] {
      assert IsUrl(s[0]);
      EncodeUriPlain(s[1..]);
      assert s == [s[0]] + s[1..];
    }
  }

  lemma {:induction false} DecodeUriPlain(s: JsString)
    requires PERCENT !in s
    ensures DecodeUri(s) == Some(s)
  {
    if s != [] {
      DecodeUriPlain(s[1..]);
      assert s == [s[0]] + s[1..];
    }
  }

  /** A malformed escape leaves the raw value. */
  function DecodeKeyParam(v: JsString): JsString { if DecodeUri(v).Some? then DecodeUri(v).value else v }

  lemma WellFormedStep(s: JsString)
    requires s != []
    ensures var n := FirstScalar(s).1;
            WellFormed(s) <==> !(n == 1 && (IsHigh(s[0]) || IsLow(s[0]))) && WellFormed(s[n..])
  {
    var (c, n) := FirstScalar(s);
    var t := ToWellFormed(s[n..]);
    FirstUnits(s);
    assert Scalars(s) == [c] + Scalars(s[n..]);
    assert ToWellFormed(s) == Units(c) + t;
    if n == 1 && (IsHigh(s[0]) || IsLow(s[0])) {
      assert (Units(c) + t)[0] == REPLACEMENT;
    } else {
      assert s == s[..n] + s[n..] && s[n..] == s[|Units(c)|..];
      assert (Units(c) + t)[|Units(c)|..] == t;
    }
  }

  /** Encoding throws exactly on strings with a lone surrogate. */
  lemma {:induction false} EncodesIffWellFormed(s: JsString)
    ensures EncodeUri(s).Some? <==> WellFormed(s)
    decreases |s|
  {
    hide Escape, Utf8Scalar, FirstScalar, IsUnreserved;
    if s != [] {
      WellFormedStep(s);
      EncodesIffWellFormed(s[FirstScalar(s).1..]);
      hide WellFormed;
    }
  }

  /** Whatever well-formed value is put behind `#k=` is what `decodeKeyParam` returns; a
      value that cannot be decoded is returned as it is, never an exception. */
  lemma KeyParamRoundTrip(v: JsString)
    ensures EncodeUri(v).Some? <==> WellFormed(v)
    ensures WellFormed(v) ==> DecodeKeyParam(EncodeUri(v).value) == v
    ensures DecodeUri(v).None? ==> DecodeKeyParam(v) == v
  {
    hide EncodeUri, DecodeUri, WellFormed;
    EncodesIffWellFormed(v);
    UriRoundTrip(v);
  }

  // ---- the regular expression ----

  predicate StartsWith(s: JsString, p: JsString) { |p| <= |s| && s[..|p|] == p }

  /** How far `[a-zA-Z0-9_-]{0,max}` runs, greedily. */
  function IdRun(s: JsString, max: nat): (n: nat)
    ensures n <= |s| && n <= max
  {
    if max == 0 || s == [] || !IsUrl(s[0]) then 0 else 1 + IdRun(s[1..], max - 1)
  }

  /** How far `[^&\\s]*` runs, greedily. */
  function KeyRun(s: JsString): (n: nat)
    ensures n <= |s|
  {
    if s == [] || s[0] == AMPERSAND || IsJsSpace(s[0]) then 0 else 1 + KeyRun(s[1..])
  }

  /** The match that starts at position `i`: the id is as long as it can be, and the key
      part is taken when it is there. */
  function MatchAt(s: JsString, i: nat): Option<Invite>
    requires i <= |s|
  {
    var t := s[i..];
    if !StartsWith(t, RoomPath()) then None
    else
      var afterPath := t[3..];
      var n := IdRun(afterPath, 64);
      if n == 0 then None
      else
        var rest := afterPath[n..];
        if StartsWith(rest, KeyMark()) && KeyRun(rest[3..]) > 0
        then Some(Invite(afterPath[..n], Some(DecodeKeyParam(rest[3..][..KeyRun(rest[3..])]))))
        else Some(Invite(afterPath[..n], None))
  }

  /** The leftmost match from `i` on. */
  function FirstMatch(s: JsString, i: nat): Option<Invite>
    requires i <= |s|
    decreases |s| - i
  {
    if MatchAt(s, i).Some? then MatchAt(s, i)
    else if i == |s| then None else FirstMatch(s, i + 1)
  }

  function ParseInvite(raw: JsString): Invite
  {
    var s := Trim(raw);
    var m := FirstMatch(s, 0);
    if m.Some? then m.value else Invite(s, None)
  }

  // ---- the link the app builds ----

  /** `${origin}/r/${id}#k=${encodeURIComponent(key)}` */
  function Link(origin: JsString, id: JsString, key: JsString): JsString
    requires AllUrl(key)
  {
    EncodeUriPlain(key);
    origin + (RoomPath() + (id + (KeyMark() + EncodeUri(key).value)))
  }

  lemma LinkText(origin: JsString, id: JsString, key: JsString)
    requires AllUrl(key)
    ensures Link(origin, id, key) == origin + (RoomPath() + (id + (KeyMark() + key)))
  {
    EncodeUriPlain(key);
  }

  lemma {:induction false} IdRunStops(id: JsString, rest: JsString, max: nat)
    requires AllUrl(id) && |id| <= max && (rest == [] || !IsUrl(rest[0]) || |id| == max)
    ensures IdRun(id + rest, max) == |id|
  {
    if id == [] {
      assert id + rest == rest;
    } else {
      assert (id + rest)[1..] == id[1..] + rest;
      IdRunStops(id[1..], rest, max - 1);
    }
  }

  lemma {:induction false} KeyRunsToEnd(key: JsString)
    requires AllUrl(key)
    ensures KeyRun(key) == |key|
  {
    if key != [] {
      assert IsUrl(key[0]);
      KeyRunsToEnd(key[1..]);
    }
  }

  lemma Cut(a: JsString, b: JsString)
    ensures (a + b)[..|a|] == a && (a + b)[|a|..] == b
  {
  }

  /** The match at the path of a link: the id, and the key when one follows. */
  lemma MatchAtPath(s: JsString, i: nat, id: JsString, key: JsString)
    requires ValidChannelId(id) && AllUrl(key) && key != []
    requires i <= |s| && s[i..] == RoomPath() + (id + (KeyMark() + key))
    ensures MatchAt(s, i) == Some(Invite(id, Some(key)))
  {
    hide DecodeUri, EncodeUri, IsJsSpace, IsUrl;
    var tail := KeyMark() + key;
    Cut(RoomPath(), id + tail);
    assert tail[0] == HASH;
    HashIsNoUrl();
    IdRunStops(id, tail, 64);
    Cut(id, tail);
    Cut(KeyMark(), key);
    KeyRunsToEnd(key);
    assert key[..|key|] == key;
    PlainKeyDecodes(key);
  }

  lemma HashIsNoUrl()
    ensures !IsUrl(HASH)
  {
  }

  lemma PlainKeyDecodes(key: JsString)
    requires AllUrl(key)
    ensures DecodeUri(key) == Some(key)
  {
    assert PERCENT !in key;
    DecodeUriPlain(key);
  }

  lemma MatchAtLink(origin: JsString, id: JsString, key: JsString)
    requires ValidChannelId(id) && AllUrl(key) && key != []
    ensures MatchAt(Link(origin, id, key), |origin|) == Some(Invite(id, Some(key)))
  {
    LinkText(origin, id, key);
    hide Link, MatchAt, RoomPath, KeyMark;
    Cut(origin, RoomPath() + (id + (KeyMark() + key)));
    MatchAtPath(Link(origin, id, key), |origin|, id, key);
  }

  lemma {:induction false} FirstMatchIs(s: JsString, i: nat, j: nat)
    requires i <= j <= |s| && MatchAt(s, j).Some?
    requires forall k | i <= k < j :: MatchAt(s, k).None?
    ensures FirstMatch(s, i) == MatchAt(s, j)
    decreases j - i
  {
    hide MatchAt;
    if i < j { FirstMatchIs(s, i + 1, j); }
  }

  lemma LinkIsTrimmed(origin: JsString, id: JsString, key: JsString)
    requires origin != [] && !IsJsSpace(origin[0]) && AllUrl(key) && key != []
    ensures Trim(Link(origin, id, key)) == Link(origin, id, key)
  {
    LinkText(origin, id, key);
    hide Trim, Link;
    var s := Link(origin, id, key);
    assert s[0] == origin[0] && s[|s| - 1] == key[|key| - 1];
    assert IsUrl(key[|key| - 1]);
    TrimIdempotent(s);
  }

  /** The link is read back, for any origin inside which the pattern does not match first. */
  lemma LinkRoundTrip(origin: JsString, id: JsString, key: JsString)
    requires ValidChannelId(id) && IsRoomKeyB64(key)
    requires origin != [] && !IsJsSpace(origin[0])
    requires forall i | 0 <= i < |origin| :: MatchAt(Link(origin, id, key), i).None?
    ensures ParseInvite(Link(origin, id, key)) == Invite(id, Some(key))
  {
    hide Trim, MatchAt, Link;
    LinkIsTrimmed(origin, id, key);
    MatchAtLink(origin, id, key);
    LinkLength(origin, id, key);
    FirstMatchIs(Link(origin, id, key), 0, |origin|);
  }

  lemma LinkLength(origin: JsString, id: JsString, key: JsString)
    requires AllUrl(key)
    ensures |origin| <= |Link(origin, id, key)|
  {
  }

  function Origin(scheme: JsString, host: JsString): JsString { scheme + (Ascii("://") + host) }

  const SLASH_UNIT: CodeUnit := '/' as int

  /** A web origin has its slashes in `://` only, so the pattern matches inside it only
      when the host is exactly "r". */
  lemma OriginMatches(scheme: JsString, host: JsString, id: JsString, key: JsString, i: nat)
    requires SLASH_UNIT !in scheme && SLASH_UNIT !in host && i < |Origin(scheme, host)| && AllUrl(key)
    requires MatchAt(Link(Origin(scheme, host), id, key), i).Some?
    ensures host == Ascii("r") && i == |scheme| + 2
  {
    var o := Origin(scheme, host);
    var s := Link(o, id, key);
    hide IdRun, KeyRun, DecodeKeyParam, EncodeUri;
    assert StartsWith(s[i..], RoomPath());
    assert s[i..][..3] == RoomPath();
    assert s[i] == s[i..][..3][0] == SLASH_UNIT;
    assert s[i + 1] == s[i..][..3][1] == 'r' as int;
    assert s[i + 2] == s[i..][..3][2] == SLASH_UNIT;
    assert forall k | 0 <= k < |o| :: s[k] == o[k];
    assert forall k | 0 <= k < |scheme| :: o[k] == scheme[k];
    assert forall k | 0 <= k < 3 :: o[|scheme| + k] == Ascii("://")[k];
    assert forall k | 0 <= k < |host| :: o[|scheme| + 3 + k] == host[k];
    assert s[|o|] == RoomPath()[0] && s[|o| + 1] == RoomPath()[1];
    assert i == |scheme| + 1 || i == |scheme| + 2;
    assert i == |scheme| + 2;
    assert |host| == 1 && host[0] == 'r' as int;
    assert host == Ascii("r");
  }

  /** On web origins a link round-trips if and only if the host is not exactly "r". */
  lemma WebLinkRoundTrip(scheme: JsString, host: JsString, id: JsString, key: JsString)
    requires ValidChannelId(id) && IsRoomKeyB64(key)
    requires scheme != [] && !IsJsSpace(scheme[0]) && SLASH_UNIT !in scheme && SLASH_UNIT !in host
    ensures ParseInvite(Link(Origin(scheme, host), id, key)) == Invite(id, Some(key)) <==> host != Ascii("r")
  {
    var o := Origin(scheme, host);
    var s := Link(o, id, key);
    assert o[0] == scheme[0];
    if host != Ascii("r") {
      forall i | 0 <= i < |o| ensures MatchAt(s, i).None? {
        if MatchAt(s, i).Some? { OriginMatches(scheme, host, id, key, i); }
      }
      LinkRoundTrip(o, id, key);
    } else {
      HostRMatches(scheme, id, key);
      var j := |scheme| + 2;
      forall k | 0 <= k < j ensures MatchAt(s, k).None? {
        if MatchAt(s, k).Some? { OriginMatches(scheme, host, id, key, k); }
      }
      LinkLength(o, id, key);
      hide MatchAt, Trim;
      FirstMatchIs(s, 0, j);
      LinkIsTrimmed(o, id, key);
    }
  }

  /** With host "r" the pattern takes the host for the room id. */
  lemma HostRMatches(scheme: JsString, id: JsString, key: JsString)
    requires AllUrl(key)
    ensures var s := Link(Origin(scheme, Ascii("r")), id, key);
            |scheme| + 2 <= |s| && MatchAt(s, |scheme| + 2) == Some(Invite(Ascii("r"), None))
  {
    LinkText(Origin(scheme, Ascii("r")), id, key);
    hide Link;
    var s := Link(Origin(scheme, Ascii("r")), id, key);
    var tail := Ascii("/") + (id + (KeyMark() + key));
    assert RoomPath() == Ascii("/r") + Ascii("/") == Ascii("/") + (Ascii("r") + Ascii("/"));
    assert Ascii("://") == Ascii(":/") + Ascii("/");
    var t := s[|scheme| + 2..];
    assert t == RoomPath() + (Ascii("r") + tail);
    assert t[..3] == RoomPath() && t[3..] == Ascii("r") + tail;
    assert !IsUrl(tail[0]) && AllUrl(Ascii("r"));
    IdRunStops(Ascii("r"), tail, 64);
    assert (Ascii("r") + tail)[..1] == Ascii("r") && (Ascii("r") + tail)[1..] == tail;
    assert KeyMark()[0] == HASH && tail[0] != HASH;
    assert !StartsWith(tail, KeyMark()) by { assert tail[..3][0] == tail[0]; }
  }

  // ---- what the pattern matches ----

  /** What ends a key: nothing more, an ampersand or white space. */
  predicate EndsKey(tail: JsString) { tail == [] || tail[0] == '&' as int || IsJsSpace(tail[0]) }

  predicate KeyText(key: JsString)
  {
    key != [] && forall i | 0 <= i < |key| :: key[i] != '&' as int && !IsJsSpace(key[i])
  }

  lemma {:induction false} KeyRunStops(key: JsString, tail: JsString)
    requires EndsKey(tail) && forall i | 0 <= i < |key| :: key[i] != '&' as int && !IsJsSpace(key[i])
    ensures KeyRun(key + tail) == |key|
  {
    hide IsJsSpace;
    if key == [] {
      assert key + tail == tail;
    } else {
      assert (key + tail)[1..] == key[1..] + tail;
      KeyRunStops(key[1..], tail);
    }
  }

  /** The id is as long as it can be, up to 64 characters. */
  predicate WholeId(id: JsString, rest: JsString)
  {
    ValidChannelId(id) && (rest == [] || !IsUrl(rest[0]) || |id| == 64)
  }

  /** A match with a key: the key ends at an ampersand, at white space or with the text. */
  lemma MatchWithKey(s: JsString, i: nat, id: JsString, key: JsString, tail: JsString)
    requires i <= |s| && s[i..] == Ascii("/r/") + (id + (Ascii("#k=") + (key + tail)))
    requires ValidChannelId(id) && KeyText(key) && EndsKey(tail)
    ensures MatchAt(s, i) == Some(Invite(id, Some(DecodeKeyParam(key))))
  {
    hide DecodeUri, IsJsSpace, IsUrl, DecodeKeyParam;
    var rest := KeyMark() + (key + tail);
    Cut(RoomPath(), id + rest);
    assert rest[0] == HASH;
    HashIsNoUrl();
    IdRunStops(id, rest, 64);
    Cut(id, rest);
    Cut(KeyMark(), key + tail);
    KeyRunStops(key, tail);
    Cut(key, tail);
  }

  /** A match without one: what follows the id is no key part with a character in it. */
  lemma MatchWithoutKey(s: JsString, i: nat, id: JsString, rest: JsString)
    requires i <= |s| && s[i..] == Ascii("/r/") + (id + rest) && WholeId(id, rest)
    requires Ascii("#k=") <= rest ==> EndsKey(rest[3..])
    ensures MatchAt(s, i) == Some(Invite(id, None))
  {
    hide DecodeUri, IsJsSpace, IsUrl, DecodeKeyParam;
    Cut(RoomPath(), id + rest);
    IdRunStops(id, rest, 64);
    Cut(id, rest);
    if StartsWith(rest, KeyMark()) { assert KeyMark() <= rest; }
  }

  lemma {:induction false} NoFirstMatch(s: JsString, i: nat)
    requires i <= |s| && forall k | i <= k <= |s| :: MatchAt(s, k).None?
    ensures FirstMatch(s, i).None?
    decreases |s| - i
  {
    hide MatchAt;
    if i < |s| { NoFirstMatch(s, i + 1); }
  }

  /** Text without a link is the room id itself, without outer white space and key. */
  lemma NoLinkIsId(raw: JsString)
    requires forall k | 0 <= k <= |Trim(raw)| :: MatchAt(Trim(raw), k).None?
    ensures ParseInvite(raw) == Invite(Trim(raw), None)
  {
    hide MatchAt, Trim;
    NoFirstMatch(Trim(raw), 0);
  }

  /** There is a match exactly where the path is followed by an id character. */
  lemma MatchesAtPath(s: JsString, i: nat)
    requires i <= |s|
    ensures MatchAt(s, i).Some? <==> |s| - i >= 4 && s[i..i + 3] == Ascii("/r/") && IsUrl(s[i + 3])
  {
    hide DecodeKeyParam, KeyRun;
    var t := s[i..];
    if |t| >= 3 {
      assert t[..3] == s[i..i + 3];
      if |t| >= 4 { assert t[3..][0] == s[i + 3]; }
    }
  }
}
