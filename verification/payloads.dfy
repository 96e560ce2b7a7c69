/** The inner plaintexts: signed messages, nickname and room-name updates, wrapped
    keys, and the identity signatures that two of them carry. */
module Payloads {
  import opened Options
  import opened Text
  import opened Base64Url
  import opened SignedData
  import opened Envelopes

  // ---- JSON text, as a pair of foreign functions ----

  datatype JsonValue = JString(s: JsString) | JNumber(n: int) | JTrue | JOther

  /** The fields of an object; absent keys read as undefined. An array is an object
      without named fields. */
  type JsonObject = map<string, JsonValue>

  datatype JsonText = JObject(fields: JsonObject) | NotAnObject

  /** `JSON.stringify` on objects and `JSON.parse`; `None` is a syntax error. */
  datatype Json = Json(stringify: JsonObject -> JsString, parse: JsString -> Option<JsonText>)

  const OPEN_BRACE: CodeUnit := '{' as int

  ghost predicate Simple(o: JsonObject)
  {
    forall k | k in o :: o[k].JString? || o[k] == JNumber(1) || o[k] == JNumber(2) || o[k].JTrue?
  }

  /** What the model needs of JSON: parsing undoes printing, and printing yields
      well-formed text (lone surrogates are escaped) that starts with a brace. */
  ghost predicate Lawful(json: Json)
  {
    forall o: JsonObject | Simple(o) ::
      var s := json.stringify(o);
      json.parse(s) == Some(JObject(o)) && WellFormed(s) && s != [] && s[0] == OPEN_BRACE
  }

  predicate HasString(o: JsonObject, k: string) { k in o && o[k].JString? }

  predicate FieldIs(o: JsonObject, k: string, v: JsonValue) { k in o && o[k] == v }

  /** The object of a plaintext that must start with a brace. */
  function ParseObject(json: Json, plain: JsString): Option<JsonObject>
  {
    if plain == [] || plain[0] != OPEN_BRACE then None else AnyObject(json, plain)
  }

  function AnyObject(json: Json, plain: JsString): Option<JsonObject>
  {
    var t := json.parse(plain);
    if t.None? || t.value.NotAnObject? then None else Some(t.value.fields)
  }

  /** Text survives sealing when it is well formed and has no leading byte order mark. */
  lemma JsonSurvives(json: Json, o: JsonObject)
    requires Lawful(json) && Simple(o)
    ensures var s := json.stringify(o);
            TextDecode(TextEncode(s)) == s && ParseObject(json, s) == AnyObject(json, s) == Some(o)
  {
    TextRoundTrip(json.stringify(o));
  }

  // ---- ideal signatures ----

  /** Which bytes a raw public key and signature were issued for. */
  type Signatures = map<(Bytes, Bytes), Bytes>

  const FP_LEN := 10

  function FpOf(pk: JsString): JsString { if |pk| < FP_LEN then pk else pk[..FP_LEN] }

  predicate VerifyIdentity(sigs: Signatures, pk: JsString, sig: JsString, data: JsString)
  {
    && IsRoomKeyB64(pk) && IsBase64Url(sig)
    && var s, p := Decode(sig), Decode(pk);
    && s.Some? && |s.value| == 64 && p.Some?
    && (p.value, s.value) in sigs && sigs[(p.value, s.value)] == TextEncode(data)
  }

  // ---- nicknames, room names ----

  const NEWLINE: CodeUnit := 0x0A

  predicate TrimmedBetween(s: JsString, max: nat)
  {
    var t := Trim(s);
    1 <= |t| <= max && NEWLINE !in t
  }

  predicate IsValidNick(s: JsString) { TrimmedBetween(s, 20) }

  predicate IsValidRoomName(s: JsString) { TrimmedBetween(s, 32) }

  // ---- signed messages ----

  datatype Signed = Signed(text: JsString, nick: JsString, pk: JsString, sig: JsString)

  function MsgType(): JsonValue { JString(Ascii("msg")) }

  function MessageObject(m: Signed): JsonObject
  {
    map["t" := MsgType(), "v" := JNumber(2), "text" := JString(m.text), "nick" := JString(m.nick),
        "pk" := JString(m.pk), "sig" := JString(m.sig)]
  }

  function ParseSigned(json: Json, plain: JsString): Option<Signed>
  {
    var obj := ParseObject(json, plain);
    if obj.None? then None
    else
      var o := obj.value;
      if !FieldIs(o, "t", MsgType()) || !FieldIs(o, "v", JNumber(2)) then None
      else if !HasString(o, "text") then None
      else if !HasString(o, "nick") || !IsValidNick(o["nick"].s) then None
      else if !HasString(o, "pk") || !IsRoomKeyB64(o["pk"].s) then None
      else if !HasString(o, "sig") || !IsBase64Url(o["sig"].s) then None
      else Some(Signed(o["text"].s, o["nick"].s, o["pk"].s, o["sig"].s))
  }

  /** The public key of an identity-v1 claim. */
  function StalePk(json: Json, plain: JsString): Option<JsString>
  {
    var obj := ParseObject(json, plain);
    if obj.None? then None
    else
      var o := obj.value;
      if !FieldIs(o, "t", MsgType()) || !FieldIs(o, "v", JNumber(1)) then None
      else if !HasString(o, "sig") || !IsBase64Url(o["sig"].s) then None
      else if !HasString(o, "pk") || !IsRoomKeyB64(o["pk"].s) then None
      else Some(o["pk"].s)
  }

  predicate IsUnknownStructured(json: Json, plain: JsString)
  {
    var obj := ParseObject(json, plain);
    obj.Some? && HasString(obj.value, "t")
  }

  predicate VerifySignedMessage(sigs: Signatures, channelId: JsString, messageId: JsString, m: Signed)
  {
    VerifyIdentity(sigs, m.pk, m.sig, MessageSigData(channelId, messageId, m.nick, m.text))
  }

  /** No plaintext is both a current and a stale claim, and either one would otherwise
      count as unknown: so what is rendered raw is exactly the untagged text. */
  lemma ClaimsAreStructured(json: Json, plain: JsString)
    ensures ParseSigned(json, plain).Some? ==> StalePk(json, plain).None?
    ensures ParseSigned(json, plain).Some? || StalePk(json, plain).Some? ==> IsUnknownStructured(json, plain)
  {
  }

  /** Printing and parsing a message give back its fields exactly when the nickname is
      valid; any other nickname makes the peer see an unknown payload. */
  lemma SignedRoundTrip(json: Json, m: Signed)
    requires Lawful(json) && IsRoomKeyB64(m.pk) && IsBase64Url(m.sig)
    ensures var s := json.stringify(MessageObject(m));
            && TextDecode(TextEncode(s)) == s
            && ParseSigned(json, s) == (if IsValidNick(m.nick) then Some(m) else None)
            && StalePk(json, s).None? && IsUnknownStructured(json, s)
  {
    JsonSurvives(json, MessageObject(m));
  }

  // ---- wrapped keys ----

  function KeyObject(k: JsString): JsonObject { map["k" := JString(k), "v" := JNumber(1)] }

  /** `unwrapNewKey` after decryption; `None` is any of its exceptions. */
  function ParseNewKey(json: Json, plain: JsString): Option<JsString>
  {
    var obj := AnyObject(json, plain);
    if obj.None? || !FieldIs(obj.value, "v", JNumber(1)) then None
    else if !HasString(obj.value, "k") || !IsRoomKeyB64(obj.value["k"].s) then None
    else Some(obj.value["k"].s)
  }

  /** `importRoomKey`, including its trim; `None` is an exception. */
  function ImportKey(b64: JsString): Option<Key>
  {
    var k := Trim(b64);
    if !IsRoomKeyB64(k) then None
    else
      var raw := Decode(k);
      if raw.None? || |raw.value| != 32 then None else Some(raw.value)
  }

  lemma UrlIsTrimmed(s: JsString)
    requires s != [] && AllUrl(s)
    ensures Trim(s) == s
  {
    TrimIdempotent(s);
    assert IsUrl(s[0]) && IsUrl(s[|s| - 1]);
  }

  /** Every 43-character key imports. */
  lemma KeysImport(b64: JsString)
    requires IsRoomKeyB64(b64)
    ensures ImportKey(b64).Some? && ImportKey(b64) == Decode(b64)
  {
    UrlIsTrimmed(b64);
    DecodedLength(b64);
  }

  /** What imports, white space around it aside, is exactly the 43-character keys. */
  lemma ImportsIff(text: JsString)
    ensures ImportKey(text).Some? <==> IsRoomKeyB64(Trim(text))
    ensures ImportKey(text).Some? ==> ImportKey(text) == Decode(Trim(text))
  {
    if IsRoomKeyB64(Trim(text)) {
      TrimIdempotent(text);
      KeysImport(Trim(text));
    }
    hide Trim, Decode;
  }

  /** Exporting a key, wrapping it, unwrapping and importing it gives the same key. */
  lemma KeyRoundTrip(json: Json, key: Key)
    requires Lawful(json)
    ensures IsRoomKeyB64(Encode(key))
    ensures var s := json.stringify(KeyObject(Encode(key)));
            && TextDecode(TextEncode(s)) == s
            && ParseNewKey(json, s) == Some(Encode(key))
            && ImportKey(Encode(key)) == Some(key)
  {
    hide Trim, Decode, Encode;
    RoundTrip(key);
    KeysImport(Encode(key));
    JsonSurvives(json, KeyObject(Encode(key)));
  }

  // ---- names ----

  datatype RoomName = RoomName(name: JsString, initial: bool)
  datatype NickClaim = NickClaim(nick: JsString, pk: Option<JsString>, sig: Option<JsString>)

  function ParseRoomName(json: Json, plain: JsString): Option<RoomName>
  {
    var obj := AnyObject(json, plain);
    if obj.None? then None
    else
      var o := obj.value;
      if !FieldIs(o, "t", JString(Ascii("room_name"))) || !FieldIs(o, "v", JNumber(1)) then None
      else if !HasString(o, "name") || !IsValidRoomName(o["name"].s) then None
      else Some(RoomName(Trim(o["name"].s), FieldIs(o, "initial", JTrue)))
  }

  /** Malformed identity fields are normalized to absent, not rejected. */
  function ParseNick(json: Json, plain: JsString): Option<NickClaim>
  {
    var obj := AnyObject(json, plain);
    if obj.None? then None
    else
      var o := obj.value;
      if !FieldIs(o, "t", JString(Ascii("nick"))) || !FieldIs(o, "v", JNumber(1)) then None
      else if !HasString(o, "nick") || !IsValidNick(o["nick"].s) then None
      else Some(NickClaim(
        Trim(o["nick"].s),
        if HasString(o, "pk") && IsRoomKeyB64(o["pk"].s) then Some(o["pk"].s) else None,
        if HasString(o, "sig") && IsBase64Url(o["sig"].s) then Some(o["sig"].s) else None))
  }

  predicate VerifySignedNick(sigs: Signatures, channelId: JsString, nick: JsString, pk: JsString, sig: JsString)
  {
    VerifyIdentity(sigs, pk, sig, NickSigData(channelId, nick))
  }

  function NickObject(nick: JsString, pk: JsString, sig: JsString): JsonObject
  {
    map["t" := JString(Ascii("nick")), "v" := JNumber(1), "nick" := JString(nick),
        "pk" := JString(pk), "sig" := JString(sig)]
  }

  /** A signed nickname update is parsed back with the trimmed name it was signed for. */
  lemma NickRoundTrip(json: Json, nick: JsString, pk: JsString, sig: JsString)
    requires Lawful(json) && IsRoomKeyB64(pk) && IsBase64Url(sig) && IsValidNick(nick)
    ensures var n := Trim(nick);
            var s := json.stringify(NickObject(n, pk, sig));
            TextDecode(TextEncode(s)) == s && ParseNick(json, s) == Some(NickClaim(n, Some(pk), Some(sig)))
  {
    hide Trim;
    TrimIdempotent(nick);
    JsonSurvives(json, NickObject(Trim(nick), pk, sig));
  }

  function RoomNameObject(name: JsString, initial: bool): JsonObject
  {
    map["t" := JString(Ascii("room_name")), "v" := JNumber(1), "name" := JString(name)]
    + (if initial then map["initial" := JTrue] else map[])
  }

  /** A room-name update is parsed back with the trimmed name and its announcement mark. */
  lemma RoomNameRoundTrip(json: Json, name: JsString, initial: bool)
    requires Lawful(json) && IsValidRoomName(name)
    ensures var n := Trim(name);
            var s := json.stringify(RoomNameObject(n, initial));
            TextDecode(TextEncode(s)) == s && ParseRoomName(json, s) == Some(RoomName(n, initial))
  {
    hide Trim;
    TrimIdempotent(name);
    JsonSurvives(json, RoomNameObject(Trim(name), initial));
  }

  /** An identity-v1 claim, whatever its text and nickname, is recognized as stale and
      never as a current message. */
  lemma StaleRecognized(json: Json, m: Signed)
    requires Lawful(json) && IsRoomKeyB64(m.pk) && IsBase64Url(m.sig)
    ensures var s := json.stringify(MessageObject(m)["v" := JNumber(1)]);
            TextDecode(TextEncode(s)) == s && StalePk(json, s) == Some(m.pk) && ParseSigned(json, s).None?
  {
    JsonSurvives(json, MessageObject(m)["v" := JNumber(1)]);
  }

  /** A signature speaks for one room, message, nickname and text only: whoever verifies
      it for other fields sees the same ones, up to the U+FFFD replacement. */
  lemma SignatureBindsFields(sigs: Signatures, c: JsString, mid: JsString, m: Signed, c': JsString, mid': JsString,
                             m': Signed)
    requires AllUrl(c) && AllUrl(mid) && AllUrl(c') && AllUrl(mid')
    requires VerifySignedMessage(sigs, c, mid, m) && VerifySignedMessage(sigs, c', mid', m')
    requires m.pk == m'.pk && m.sig == m'.sig
    ensures c == c' && mid == mid' && ToWellFormed(m.nick) == ToWellFormed(m'.nick)
      && ToWellFormed(m.text) == ToWellFormed(m'.text)
  {
    hide TextEncode, ToWellFormed, Decode;
    MessageSigDataInjective(c, mid, m.nick, m.text, c', mid', m'.nick, m'.text);
  }

  // ---- what is read, field by field ----

  predicate ShortLine(s: JsString, max: nat) { 1 <= |Trim(s)| <= max && 0x0A !in Trim(s) }

  /** A printed object is read as a signed message if and only if it has these fields. */
  lemma SignedReadIff(json: Json, o: JsonObject, m: Signed)
    requires Lawful(json) && Simple(o)
    ensures ParseSigned(json, json.stringify(o)) == Some(m)
       <==> && FieldIs(o, "t", JString(Ascii("msg"))) && FieldIs(o, "v", JNumber(2))
            && FieldIs(o, "text", JString(m.text)) && FieldIs(o, "nick", JString(m.nick))
            && FieldIs(o, "pk", JString(m.pk)) && FieldIs(o, "sig", JString(m.sig))
            && ShortLine(m.nick, 20) && |m.pk| == 43 && AllUrl(m.pk) && m.sig != [] && AllUrl(m.sig)
  {
    hide Trim;
    JsonSurvives(json, o);
  }

  /** As an identity-v1 claim it is read if and only if it has these. */
  lemma StaleReadIff(json: Json, o: JsonObject, pk: JsString)
    requires Lawful(json) && Simple(o)
    ensures StalePk(json, json.stringify(o)) == Some(pk)
       <==> && FieldIs(o, "t", JString(Ascii("msg"))) && FieldIs(o, "v", JNumber(1))
            && FieldIs(o, "pk", JString(pk)) && |pk| == 43 && AllUrl(pk)
            && "sig" in o && o["sig"].JString? && o["sig"].s != [] && AllUrl(o["sig"].s)
  {
    JsonSurvives(json, o);
  }

  /** A tag of type string is what makes it structured. */
  lemma UnknownIff(json: Json, o: JsonObject)
    requires Lawful(json) && Simple(o)
    ensures IsUnknownStructured(json, json.stringify(o)) <==> "t" in o && o["t"].JString?
  {
    JsonSurvives(json, o);
  }

  lemma KeyReadIff(json: Json, o: JsonObject, b64: JsString)
    requires Lawful(json) && Simple(o)
    ensures ParseNewKey(json, json.stringify(o)) == Some(b64)
       <==> FieldIs(o, "v", JNumber(1)) && FieldIs(o, "k", JString(b64)) && |b64| == 43 && AllUrl(b64)
  {
    JsonSurvives(json, o);
  }

  lemma RoomNameReadIff(json: Json, o: JsonObject, n: RoomName)
    requires Lawful(json) && Simple(o)
    ensures ParseRoomName(json, json.stringify(o)) == Some(n)
       <==> && FieldIs(o, "t", JString(Ascii("room_name"))) && FieldIs(o, "v", JNumber(1))
            && "name" in o && o["name"].JString? && ShortLine(o["name"].s, 32)
            && n.name == Trim(o["name"].s) && (n.initial <==> FieldIs(o, "initial", JTrue))
  {
    hide Trim;
    JsonSurvives(json, o);
  }

  /** Identity fields of a nickname update count only when they are well formed. */
  lemma NickReadIff(json: Json, o: JsonObject, c: NickClaim)
    requires Lawful(json) && Simple(o)
    ensures ParseNick(json, json.stringify(o)) == Some(c)
       <==> && FieldIs(o, "t", JString(Ascii("nick"))) && FieldIs(o, "v", JNumber(1))
            && "nick" in o && o["nick"].JString? && ShortLine(o["nick"].s, 20) && c.nick == Trim(o["nick"].s)
            && (c.pk.Some? <==> "pk" in o && o["pk"].JString? && |o["pk"].s| == 43 && AllUrl(o["pk"].s))
            && (c.pk.Some? ==> c.pk.value == o["pk"].s)
            && (c.sig.Some? <==> "sig" in o && o["sig"].JString? && o["sig"].s != [] && AllUrl(o["sig"].s))
            && (c.sig.Some? ==> c.sig.value == o["sig"].s)
  {
    hide Trim;
    JsonSurvives(json, o);
  }

  /** Text that does not start with a brace, or is no JSON object, carries no claim. */
  lemma RawTextUnread(json: Json, plain: JsString)
    requires plain == [] || plain[0] != OPEN_BRACE || json.parse(plain).None? || json.parse(plain).value.NotAnObject?
    ensures ParseSigned(json, plain).None? && StalePk(json, plain).None? && !IsUnknownStructured(json, plain)
  {
  }

  // ---- fingerprints ----

  /** A fingerprint is the first ten characters of the key: it tells two keys apart if
      and only if these differ. */
  lemma FingerprintIsPrefix(pk: JsString, pk': JsString)
    requires IsRoomKeyB64(pk) && IsRoomKeyB64(pk')
    ensures FpOf(pk) == pk[..10] && FpOf(pk') == pk'[..10]
    ensures FpOf(pk) == FpOf(pk') <==> pk[..10] == pk'[..10]
  {
  }

  /** A signature verifies if and only if key and signature decode to 32 and 64 bytes that
      were issued for exactly the signed text. */
  lemma VerifiedIff(sigs: Signatures, c: JsString, mid: JsString, m: Signed)
    ensures VerifySignedMessage(sigs, c, mid, m)
       <==> && |m.pk| == 43 && AllUrl(m.pk) && m.sig != [] && AllUrl(m.sig)
            && var p, s := Decode(m.pk), Decode(m.sig);
            && p.Some? && |p.value| == 32 && s.Some? && |s.value| == 64
            && (p.value, s.value) in sigs
            && sigs[(p.value, s.value)] == TextEncode(MessageSigData(c, mid, m.nick, m.text))
  {
    hide Decode, TextEncode, MessageSigData;
    if IsRoomKeyB64(m.pk) { DecodedLength(m.pk); }
  }
}
