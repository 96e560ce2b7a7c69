/** The signed path from `sendMessage` to a peer's timeline. */
module EndToEnd {
  import opened Options
  import opened Text
  import opened Base64Url
  import opened SignedData
  import opened Envelopes
  import opened Payloads
  import opened ReplayCaches
  import opened ChannelStores

  /** The raw bytes of an identity's public key. */
  type PublicKey = k: Bytes | |k| == 32 witness seq(32, _ => 0)

  function Anonymous(): JsString { Ascii("Anonymous") }

  /** The nickname a message claims. */
  function ClaimedNick(selfNick: JsString): JsString
  {
    if Trim(selfNick) == [] then Anonymous() else Trim(selfNick)
  }

  /** What the environment supplies for one message: the random message id, the bytes of
      the signature, the nonce and the bytes of the ciphertext. */
  datatype Choices = Choices(mid: Bytes, sig: Bytes, iv: Bytes, ct: Bytes)

  function SignedFields(pk: PublicKey, selfNick: JsString, text: JsString, ch: Choices): Signed
  {
    Signed(text, ClaimedNick(selfNick), Encode(pk), Encode(ch.sig))
  }

  function Inner(json: Json, pk: PublicKey, selfNick: JsString, text: JsString, ch: Choices): JsString
  {
    json.stringify(MessageObject(SignedFields(pk, selfNick, text, ch)))
  }

  function SignedOver(s: Store, selfNick: JsString, text: JsString, ch: Choices): Bytes
  {
    TextEncode(MessageSigData(s.channelId, Encode(ch.mid), ClaimedNick(selfNick), text))
  }

  /** Sizes are those of the algorithms; the ciphertext is new, and the signature was
      issued for no other data. */
  predicate Possible(w: World, s: Store, pk: PublicKey, selfNick: JsString, text: JsString, ch: Choices)
  {
    && |ch.mid| == 16 && |ch.sig| == 64 && |ch.iv| == 12
    && |ch.ct| == |TextEncode(Inner(w.json, pk, selfNick, text, ch))| + 16
    && (ch.iv, ch.ct) !in w.seals
    && ((pk, ch.sig) in w.sigs ==> w.sigs[(pk, ch.sig)] == SignedOver(s, selfNick, text, ch))
  }

  datatype SendResult = Blank | TooLong | Refused | NotConnected | Sent(payload: JsString, world: World)

  /** The wire check of `encode` for a `send_message` frame. */
  predicate WireAccepts(channelId: JsString, payload: JsString)
  {
    ValidChannelId(channelId) && |payload| <= MAX_WIRE
  }

  /** `sendMessage` with an identity. `accepted` is what the transport answers. */
  function SendMessage(w: World, s: Store, pk: PublicKey, selfNick: JsString, text: JsString,
                       ch: Choices, accepted: bool): SendResult
    requires Possible(w, s, pk, selfNick, text, ch)
  {
    if Trim(text) == [] then Blank
    else
      var inner := Inner(w.json, pk, selfNick, text, ch);
      var sigs := w.sigs[(pk, ch.sig) := SignedOver(s, selfNick, text, ch)];
      if |TextEncode(inner)| > MAX_INNER_UTF8 then TooLong
      else
        var sealed := Encrypt(w.seals, s.crypto, s.channelId, inner, Encode(ch.mid), ch.iv, ch.ct);
        if sealed.None? then Refused
        else if !WireAccepts(s.channelId, sealed.value.0) then Refused
        else if !accepted then NotConnected
        else Sent(sealed.value.0, World(w.json, sealed.value.1, sigs))
  }

  lemma OwnIdEncrypts(w: World, s: Store, pk: PublicKey, selfNick: JsString, text: JsString, ch: Choices)
    requires Possible(w, s, pk, selfNick, text, ch)
    ensures var inner := Inner(w.json, pk, selfNick, text, ch);
            Encrypt(w.seals, s.crypto, s.channelId, inner, Encode(ch.mid), ch.iv, ch.ct).Some?
  {
    hide Encode, Decode, TextEncode, Inner;
    RoundTrip(ch.mid);
  }

  /** The budget check makes the wire check redundant: in a valid room a text is sent if
      and only if it is not blank, its inner plaintext is within budget and the
      transport takes it; no generic encoding failure is left. */
  lemma SentIffWithinBudget(w: World, s: Store, pk: PublicKey, selfNick: JsString, text: JsString, ch: Choices,
                            accepted: bool)
    requires Possible(w, s, pk, selfNick, text, ch) && ValidChannelId(s.channelId)
    ensures var r := SendMessage(w, s, pk, selfNick, text, ch, accepted);
            && !r.Refused?
            && (r.Sent? <==> Trim(text) != [] && accepted
                             && |TextEncode(Inner(w.json, pk, selfNick, text, ch))| <= MAX_INNER_UTF8)
  {
    OwnIdEncrypts(w, s, pk, selfNick, text, ch);
    hide Trim, Encode, TextEncode, Inner, Encrypt, SignedOver;
    EncryptDecrypt(w.seals, s.crypto, s.channelId, Inner(w.json, pk, selfNick, text, ch), Encode(ch.mid), ch.iv, ch.ct);
  }

  /** A world in which at least as much has been sealed and signed. */
  ghost predicate Later(w: World, w': World)
  {
    && w'.json == w.json
    && (forall r | r in w.seals :: r in w'.seals && w'.seals[r] == w.seals[r])
    && (forall r | r in w.sigs :: r in w'.sigs && w'.sigs[r] == w.sigs[r])
  }

  /** The sender's own signature verifies for the fields the peer reads. */
  lemma OwnSignatureVerifies(w: World, s: Store, pk: PublicKey, selfNick: JsString, text: JsString, ch: Choices,
                             sigs: Signatures)
    requires |ch.sig| == 64
    requires (pk, ch.sig) in sigs && sigs[(pk, ch.sig)] == SignedOver(s, selfNick, text, ch)
    ensures VerifySignedMessage(sigs, s.channelId, Encode(ch.mid), SignedFields(pk, selfNick, text, ch))
    ensures IsRoomKeyB64(Encode(pk)) && IsBase64Url(Encode(ch.sig))
  {
    hide Encode, Decode, TextEncode, MessageSigData, ClaimedNick;
    RoundTrip(pk);
    RoundTrip(ch.sig);
  }

  /** What a peer with the sender's key and room reads from a sent frame. */
  lemma PeerReads(w: World, s: Store, pk: PublicKey, selfNick: JsString, text: JsString, ch: Choices, w': World)
    requires Lawful(w.json) && Possible(w, s, pk, selfNick, text, ch)
    requires SendMessage(w, s, pk, selfNick, text, ch, true).Sent?
    requires Later(SendMessage(w, s, pk, selfNick, text, ch, true).world, w')
    ensures var payload := SendMessage(w, s, pk, selfNick, text, ch, true).payload;
            var m, inner := SignedFields(pk, selfNick, text, ch), Inner(w.json, pk, selfNick, text, ch);
            && w'.json == w.json
            && IsValidEnvelope(payload) && ExtractMessageId(payload) == Some(Encode(ch.mid))
            && Decrypt(w'.seals, s.crypto, s.channelId, payload) == Some(inner)
            && ParseSigned(w.json, inner) == (if IsValidNick(m.nick) then Some(m) else None)
            && StalePk(w.json, inner).None? && IsUnknownStructured(w.json, inner)
            && VerifySignedMessage(w'.sigs, s.channelId, Encode(ch.mid), m)
  {
    OwnIdEncrypts(w, s, pk, selfNick, text, ch);
    hide Trim, Encode, TextEncode, Encrypt, SignedOver, Decrypt, ExtractMessageId, IsValidEnvelope, ClaimedNick,
      MessageObject, ParseSigned, StalePk, IsUnknownStructured, VerifySignedMessage, Lawful, TextDecode, IsRoomKeyB64,
      IsBase64Url;
    var inner := Inner(w.json, pk, selfNick, text, ch);
    var w1 := SendMessage(w, s, pk, selfNick, text, ch, true).world;
    EncryptDecrypt(w.seals, s.crypto, s.channelId, inner, Encode(ch.mid), ch.iv, ch.ct);
    assert w1.sigs[(pk, ch.sig)] == SignedOver(s, selfNick, text, ch);
    OwnSignatureVerifies(w, s, pk, selfNick, text, ch, w'.sigs);
    SignedRoundTrip(w.json, SignedFields(pk, selfNick, text, ch));
    SealsGrow(w1.seals, w'.seals, s.crypto, s.channelId, SendMessage(w, s, pk, selfNick, text, ch, true).payload);
  }

  lemma ClaimedNickIs(selfNick: JsString)
    ensures ClaimedNick(selfNick) == if Trim(selfNick) == [] then Ascii("Anonymous") else Trim(selfNick)
  {
  }

  /** End to end: a peer with the same room and key that has not seen the message id
      renders exactly the text and nickname if and only if the nickname is valid, in
      conflict when it is pinned to another fingerprint and verified otherwise; with any
      other nickname it silently ignores the message. */
  lemma TextArrives(w: World, s: Store, pk: PublicKey, selfNick: JsString, text: JsString, ch: Choices,
                    w': World, peer: Store, from: JsString, self: bool)
    requires Lawful(w.json) && Possible(w, s, pk, selfNick, text, ch)
    requires SendMessage(w, s, pk, selfNick, text, ch, true).Sent?
    requires Later(SendMessage(w, s, pk, selfNick, text, ch, true).world, w')
    requires peer.channelId == s.channelId && peer.crypto == s.crypto && !Seen(peer, Some(Encode(ch.mid)))
    ensures var msg := Message(s.channelId, SendMessage(w, s, pk, selfNick, text, ch, true).payload, from, self);
            var nick := if Trim(selfNick) == [] then Ascii("Anonymous") else Trim(selfNick);
            var after := Handle(w', peer, msg);
            if IsValidNick(nick) then
              && peer.messages < after.messages
              && var fp := FpOf(Encode(pk));
              && var owner := Truthy(peer.nickToFp, nick);
              && var status := if owner.Some? && owner.value != fp then Conflict else Verified;
              && after.messages[|peer.messages|] == Chat(s.channelId, Plain(text), from, self,
                                                         Some(Ident(fp, Some(nick), Encode(pk), status)))
            else after == Remember(peer, Some(Encode(ch.mid)))
  {
    hide SendMessage, Possible, Encode, Decrypt, ExtractMessageId, IsValidEnvelope, ClaimedNick, Inner, IsValidNick,
      ParseSigned, StalePk, IsUnknownStructured, VerifySignedMessage, Lawful, FpOf, Later, Handle, Remember, Seen,
      Truthy, MessageSigData;
    ClaimedNickIs(selfNick);
    PeerReads(w, s, pk, selfNick, text, ch, w');
    var msg := Message(s.channelId, SendMessage(w, s, pk, selfNick, text, ch, true).payload, from, self);
    ReadIsRendered(w', peer, msg, Encode(ch.mid), Inner(w.json, pk, selfNick, text, ch));
  }

  /** What a handler makes of a plaintext that is tagged as a message. */
  lemma ReadIsRendered(w: World, peer: Store, msg: ServerMsg, mid: Id, plain: JsString)
    requires msg.Message? && IsValidEnvelope(msg.payload) && ExtractMessageId(msg.payload) == Some(mid)
    requires !Seen(peer, Some(mid)) && Decrypt(w.seals, peer.crypto, peer.channelId, msg.payload) == Some(plain)
    requires StalePk(w.json, plain).None? && IsUnknownStructured(w.json, plain)
    ensures var parsed, after := ParseSigned(w.json, plain), Handle(w, peer, msg);
            if parsed.None? then after == Remember(peer, Some(mid))
            else
              var m, fp := parsed.value, FpOf(parsed.value.pk);
              var owner := Truthy(peer.nickToFp, m.nick);
              var status := if owner.Some? && owner.value != fp then Conflict else Verified;
              VerifySignedMessage(w.sigs, peer.channelId, mid, m) ==>
                && peer.messages < after.messages
                && after.messages[|peer.messages|]
                   == Chat(msg.channelId, Plain(m.text), msg.from, msg.self,
                           Some(Ident(fp, Some(m.nick), m.pk, status)))
  {
    hide Decrypt, ExtractMessageId, IsValidEnvelope, ParseSigned, StalePk, IsUnknownStructured, VerifySignedMessage,
      FpOf, Finish, Handle, Remember, Seen;
    HandleSteps(w, peer, msg);
    var p := Decrypting(msg, Some(mid), peer.crypto);
    assert Start(peer, msg) == (peer, Some(p));
    var parsed := ParseSigned(w.json, plain);
    if parsed.Some? && VerifySignedMessage(w.sigs, peer.channelId, mid, parsed.value) {
      var m := parsed.value;
      assert Resume(w, peer, p) == (peer, Some(Verifying(msg, Some(mid), m)));
      var (s1, ident) := RecordIdentity(peer, m.nick, m.pk);
      FinishShows(s1, msg, Some(mid), Plain(m.text), Some(ident));
    }
  }

  /** The bubble comes right after what was there. */
  lemma FinishShows(s: Store, msg: ServerMsg, mid: Option<Id>, content: Content, ident: Option<Ident>)
    requires msg.Message?
    requires ident.Some? && ident.value.status != Invalid ==> ident.value.nick.Some?
    ensures var after := Finish(s, msg, mid, content, ident);
            s.messages < after.messages
            && after.messages[|s.messages|] == Chat(msg.channelId, content, msg.from, msg.self, ident)
  {
    hide ConflictKey, Added;
  }
}
