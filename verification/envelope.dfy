/** The end-to-end envelope `iv.messageId.ciphertext` and the room cipher.

    AES-GCM is ideal: a table records what was sealed, and a ciphertext opens only
    as the record it was made for, under the recorded key and associated data. */
module Envelopes {
  import opened Options
  import opened Text
  import opened Base64Url
  import opened SignedData

  const DOT: CodeUnit := '.' as int
  const MAX_WIRE := 8192
  const MAX_INNER_UTF8 := 6098

  // ---- String.prototype.split on one separator ----

  function Split(s: JsString, sep: CodeUnit): (parts: seq<JsString>)
    ensures parts != []
  {
    if s == [] then [[]]
    else
      var rest := Split(s[1..], sep);
      if s[0] == sep then [[]] + rest else [[s[0]] + rest[0]] + rest[1..]
  }

  lemma {:induction false} SplitNoSeparator(a: JsString, sep: CodeUnit)
    requires sep !in a
    ensures Split(a, sep) == [a]
  {
    if a != [] {
      SplitNoSeparator(a[1..], sep);
      assert a == [a[0]] + a[1..];
    }
  }

  lemma {:induction false} SplitFirst(a: JsString, x: JsString, sep: CodeUnit)
    requires sep !in a
    ensures Split(a + ([sep] + x), sep) == [a] + Split(x, sep)
  {
    var s := a + ([sep] + x);
    if a == [] {
      assert s == [sep] + x && s[1..] == x;
    } else {
      SplitFirst(a[1..], x, sep);
      assert s[1..] == a[1..] + ([sep] + x);
      assert a == [a[0]] + a[1..];
    }
  }

  lemma {:induction false} SplitParts(s: JsString, sep: CodeUnit)
    ensures var parts := Split(s, sep);
            sep !in parts[0]
            && (|parts| == 1 ==> s == parts[0])
            && (|parts| > 1 ==> exists x :: s == parts[0] + ([sep] + x) && Split(x, sep) == parts[1..])
  {
    if s != [] {
      var rest := s[1..];
      SplitParts(rest, sep);
      var parts, q := Split(s, sep), Split(rest, sep);
      if s[0] == sep {
        assert s == [] + ([sep] + rest) && parts[1..] == q;
      } else {
        assert s == [s[0]] + rest && parts[1..] == q[1..];
        if |q| > 1 {
          var x :| rest == q[0] + ([sep] + x) && Split(x, sep) == q[1..];
          assert s == parts[0] + ([sep] + x);
        }
      }
    }
  }

  function Join(iv: JsString, mid: JsString, ct: JsString): JsString { iv + ([DOT] + (mid + ([DOT] + ct))) }

  lemma UrlHasNoDot(s: JsString)
    requires AllUrl(s)
    ensures DOT !in s
  {
  }

  /** Splitting and joining three parts are inverse to each other. */
  lemma SplitJoin(iv: JsString, mid: JsString, ct: JsString)
    requires DOT !in iv && DOT !in mid && DOT !in ct
    ensures Split(Join(iv, mid, ct), DOT) == [iv, mid, ct]
  {
    SplitFirst(iv, mid + ([DOT] + ct), DOT);
    SplitFirst(mid, ct, DOT);
    SplitNoSeparator(ct, DOT);
  }

  lemma JoinSplit(s: JsString)
    requires |Split(s, DOT)| == 3
    ensures var p := Split(s, DOT); s == Join(p[0], p[1], p[2])
  {
    var p := Split(s, DOT);
    SplitParts(s, DOT);
    var x :| s == p[0] + ([DOT] + x) && Split(x, DOT) == p[1..];
    SplitParts(x, DOT);
    var y :| x == p[1] + ([DOT] + y) && Split(y, DOT) == p[1..][1..];
    SplitParts(y, DOT);
  }

  // ---- reading envelopes ----

  predicate IsBase64Url(s: JsString) { s != [] && AllUrl(s) }

  predicate IsRoomKeyB64(s: JsString) { |s| == 43 && AllUrl(s) }

  predicate ValidChannelId(c: JsString) { 1 <= |c| <= 64 && AllUrl(c) }

  predicate IsValidEnvelope(payload: JsString)
  {
    var parts := Split(payload, DOT);
    && |parts| == 3
    && IsBase64Url(parts[0]) && IsBase64Url(parts[1]) && IsBase64Url(parts[2])
    && var iv, mid, ct := Decode(parts[0]), Decode(parts[1]), Decode(parts[2]);
    && iv.Some? && mid.Some? && ct.Some?
    && |iv.value| == 12 && |mid.value| == 16 && |ct.value| >= 16
  }

  function ExtractMessageId(payload: JsString): Option<JsString>
  {
    var parts := Split(payload, DOT);
    if |parts| != 3 || parts[1] == [] then None else Some(parts[1])
  }

  ghost predicate EnvelopeShape(payload: JsString, iv: JsString, mid: JsString, ct: JsString)
  {
    && payload == Join(iv, mid, ct)
    && AllUrl(iv) && AllUrl(mid) && AllUrl(ct)
    && |iv| == 16 && |mid| == 22 && |ct| >= 22 && |ct| % 4 != 1
  }

  /** An envelope is valid if and only if it is three base64url parts of 16, 22 and at
      least 22 characters, the last of a decodable length. */
  lemma ValidEnvelopeShape(payload: JsString)
    ensures IsValidEnvelope(payload) <==> exists iv, mid, ct :: EnvelopeShape(payload, iv, mid, ct)
    ensures IsValidEnvelope(payload) ==> ExtractMessageId(payload).Some?
  {
    hide Decode;
    if IsValidEnvelope(payload) {
      var p := Split(payload, DOT);
      JoinSplit(payload);
      DecodedLength(p[0]); DecodedLength(p[1]); DecodedLength(p[2]);
      assert EnvelopeShape(payload, p[0], p[1], p[2]);
    }
    if iv, mid, ct :| EnvelopeShape(payload, iv, mid, ct) {
      UrlHasNoDot(iv); UrlHasNoDot(mid); UrlHasNoDot(ct);
      SplitJoin(iv, mid, ct);
      DecodedLength(iv); DecodedLength(mid); DecodedLength(ct);
    }
  }

  // ---- the ideal cipher ----

  /** A raw AES-256 key. */
  type Key = k: Bytes | |k| == 32 witness seq(32, _ => 0)

  datatype Sealed = Sealed(key: Key, aad: Bytes, plain: Bytes)

  /** Which record a nonce and ciphertext were made for. */
  type Seals = map<(Bytes, Bytes), Sealed>

  function Open(seals: Seals, key: Key, iv: Bytes, aad: Bytes, ct: Bytes): Option<Bytes>
  {
    if (iv, ct) in seals && seals[(iv, ct)].key == key && seals[(iv, ct)].aad == aad
    then Some(seals[(iv, ct)].plain) else None
  }

  function AadTag(): JsString { Ascii("v1|") }

  function Aad(channelId: JsString, messageId: JsString): JsString
  {
    AadTag() + (channelId + ([BAR] + messageId))
  }

  /** `encrypt`. The nonce, the message id and the bytes of the ciphertext are the
      environment's choice; `None` is a rejected preset message id. */
  function Encrypt(seals: Seals, key: Key, channelId: JsString, plain: JsString,
                   messageId: JsString, iv: Bytes, ct: Bytes): Option<(JsString, Seals)>
    requires |iv| == 12 && |ct| == |TextEncode(plain)| + 16 && (iv, ct) !in seals
  {
    if !IsBase64Url(messageId) || Decode(messageId).None? || |Decode(messageId).value| != 16 then None
    else Some((Join(Encode(iv), messageId, Encode(ct)),
               seals[(iv, ct) := Sealed(key, TextEncode(Aad(channelId, messageId)), TextEncode(plain))]))
  }

  /** The nonce and ciphertext an envelope carries, if it is well-formed. */
  function Carried(payload: JsString): Option<(Bytes, Bytes)>
  {
    var parts := Split(payload, DOT);
    if |parts| != 3 then None
    else
      var iv, mid, ct := Decode(parts[0]), Decode(parts[1]), Decode(parts[2]);
      if iv.None? || mid.None? || |iv.value| != 12 || |mid.value| != 16 || ct.None? then None
      else Some((iv.value, ct.value))
  }

  /** The plaintext bytes an envelope opens to. */
  function Unseal(seals: Seals, key: Key, channelId: JsString, payload: JsString): Option<Bytes>
  {
    if Carried(payload).None? then None
    else
      var (iv, ct) := Carried(payload).value;
      Open(seals, key, iv, TextEncode(Aad(channelId, Split(payload, DOT)[1])), ct)
  }

  /** `decrypt`; `None` is any of its exceptions. */
  function Decrypt(seals: Seals, key: Key, channelId: JsString, payload: JsString): Option<JsString>
  {
    var plain := Unseal(seals, key, channelId, payload);
    if plain.None? then None else Some(TextDecode(plain.value))
  }

  // ---- what the envelope promises ----

  /** Characters of the envelope for `n` bytes of plaintext: 40, and 4/3 of the
      ciphertext with its tag, rounded up. */
  function EnvelopeLength(n: nat): nat { 40 + (4 * (n + 16) + 2) / 3 }

  /** The plaintext budget is exact. */
  lemma BudgetExact(n: nat)
    ensures EnvelopeLength(n) <= MAX_WIRE <==> n <= MAX_INNER_UTF8
  {
  }

  /** The associated data in full: version, room and the spelling of the message id. */
  function BoundTo(channelId: JsString, messageId: JsString): JsString
  {
    Ascii("v1|") + (channelId + (Ascii("|") + messageId))
  }

  lemma AadText(channelId: JsString, messageId: JsString)
    ensures Aad(channelId, messageId) == BoundTo(channelId, messageId) && Ascii(".") == [DOT]
  {
    assert Ascii("|") == [BAR] && Ascii(".") == [DOT];
  }

  /** What `encrypt` produces is nonce, message id and ciphertext, sealed under the key
      and bound to room and id; it passes the envelope check, names its own message id, has
      the stated length and decrypts to the plaintext. */
  lemma EncryptDecrypt(seals: Seals, key: Key, channelId: JsString, plain: JsString,
                       messageId: JsString, iv: Bytes, ct: Bytes)
    requires |iv| == 12 && |ct| == |TextEncode(plain)| + 16 && (iv, ct) !in seals
    requires Encrypt(seals, key, channelId, plain, messageId, iv, ct).Some?
    ensures var (payload, seals') := Encrypt(seals, key, channelId, plain, messageId, iv, ct).value;
            && IsValidEnvelope(payload)
            && ExtractMessageId(payload) == Some(messageId)
            && |payload| == EnvelopeLength(|TextEncode(plain)|)
            && (|payload| <= MAX_WIRE <==> |TextEncode(plain)| <= MAX_INNER_UTF8)
            && payload == Encode(iv) + (Ascii(".") + (messageId + (Ascii(".") + Encode(ct))))
            && seals' == seals[(iv, ct) := Sealed(key, TextEncode(BoundTo(channelId, messageId)), TextEncode(plain))]
            && Carried(payload) == Some((iv, ct))
            && Decrypt(seals', key, channelId, payload) == Some(TextDecode(TextEncode(plain)))
  {
    AadText(channelId, messageId);
    PartsJoined(Encode(iv), messageId, Encode(ct));
    hide Decode, Encode, TextEncode, TextDecode, AllUrl, Join, BoundTo, Ascii;
    RoundTrip(iv);
    RoundTrip(ct);
    DecodedLength(messageId);
    UrlHasNoDot(Encode(iv)); UrlHasNoDot(messageId); UrlHasNoDot(Encode(ct));
    SplitJoin(Encode(iv), messageId, Encode(ct));
    JoinLength(Encode(iv), messageId, Encode(ct));
    BudgetExact(|TextEncode(plain)|);
  }

  lemma PartsJoined(iv: JsString, mid: JsString, ct: JsString)
    ensures Join(iv, mid, ct) == iv + (Ascii(".") + (mid + (Ascii(".") + ct)))
  {
    assert Ascii(".") == [DOT];
  }

  lemma JoinLength(iv: JsString, mid: JsString, ct: JsString)
    ensures |Join(iv, mid, ct)| == |iv| + |mid| + |ct| + 2
  {
  }

  /** Sealing more never changes what opened before. */
  lemma SealsGrow(seals: Seals, seals': Seals, key: Key, channelId: JsString, payload: JsString)
    requires forall r | r in seals :: r in seals' && seals'[r] == seals[r]
    requires Unseal(seals, key, channelId, payload).Some?
    ensures Decrypt(seals', key, channelId, payload) == Decrypt(seals, key, channelId, payload)
  {
    hide TextEncode, TextDecode, Carried;
  }

  lemma AadInjective(c: JsString, m: JsString, c': JsString, m': JsString)
    requires AllUrl(c) && AllUrl(m) && AllUrl(c') && AllUrl(m')
    requires TextEncode(Aad(c, m)) == TextEncode(Aad(c', m'))
    ensures c == c' && m == m'
  {
    EncodeAscii(Aad(c, m));
    EncodeAscii(Aad(c', m'));
    PrefixUnique(AadTag(), c + ([BAR] + m), c' + ([BAR] + m'));
    NoBar(c); NoBar(c');
    SplitUnique(c, m, c', m', BAR);
  }

  /** One sealed record opens under one key, in one room and under one spelling of its
      message id. The id string can therefore stand for the record. */
  lemma OneReading(seals: Seals, k: Key, c: JsString, p: JsString, k': Key, c': JsString, p': JsString)
    requires AllUrl(c) && AllUrl(c') && IsValidEnvelope(p) && IsValidEnvelope(p')
    requires Unseal(seals, k, c, p).Some? && Unseal(seals, k', c', p').Some?
    requires Carried(p) == Carried(p')
    ensures k == k' && c == c' && ExtractMessageId(p) == ExtractMessageId(p')
    ensures Unseal(seals, k, c, p) == Unseal(seals, k', c', p')
  {
    hide Decode, TextEncode, TextDecode;
    AadInjective(c, Split(p, DOT)[1], c', Split(p', DOT)[1]);
  }
}
