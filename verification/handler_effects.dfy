/** What a handler does to the two things replay safety and rotation depend on: the key
    in place and the log of message ids. */
module HandlerEffects {
  import opened Options
  import opened Text
  import opened Envelopes
  import opened Payloads
  import opened ReplayCaches
  import opened ChannelStores

  /** The key that a resumed handler puts in place, if it puts one in place. */
  function KeyInstalled(s: Store, p: Pending): Option<Key>
  {
    if p.ImportingKey? && ValidChannelId(s.channelId) then ImportKey(p.b64) else None
  }

  /** The plaintext that a handler awaits. */
  function Plaintext(w: World, s: Store, p: Pending): Option<JsString>
    requires p.Typed() && (p.Decrypting? || p.UnwrappingKey? || p.UnwrappingName? || p.UnwrappingNick?)
  {
    Decrypt(w.seals, p.key, s.channelId, p.msg.payload)
  }

  /** In this piece the handler adds its message id to the cache: a message handler when
      it ends, the others when the payload has the right shape. */
  predicate TakesIn(w: World, s: Store, p: Pending)
    requires p.Typed()
  {
    match p
    case Decrypting(_, _, _) =>
      Plaintext(w, s, p).None? || ParseSigned(w.json, Plaintext(w, s, p).value).None?
    case Verifying(_, _, _) => true
    case UnwrappingKey(_, _, _) => false
    case ImportingKey(_, _, _) => KeyInstalled(s, p).Some?
    case UnwrappingName(_, _, _) =>
      Plaintext(w, s, p).Some? && ParseRoomName(w.json, Plaintext(w, s, p).value).Some?
    case UnwrappingNick(_, _, _) =>
      Plaintext(w, s, p).Some? && ParseNick(w.json, Plaintext(w, s, p).value).Some?
    case VerifyingNick(_, _, _) => false
  }

  /** The id a handler works on. */
  function MidOf(p: Pending): Option<Id> { if p.VerifyingNick? then None else p.mid }

  function LogAfter(w: World, s: Store, p: Pending): seq<Id>
    requires p.Typed()
  {
    if !TakesIn(w, s, p) then s.log
    else if p.ImportingKey? then Remember(s.(log := []), MidOf(p)).log
    else Remember(s, MidOf(p)).log
  }

  lemma FinishEffect(s: Store, msg: ServerMsg, mid: Option<Id>, content: Content, ident: Option<Ident>)
    requires msg.Message?
    requires ident.Some? && ident.value.status != Invalid ==> ident.value.nick.Some?
    ensures var s' := Finish(s, msg, mid, content, ident);
            s'.crypto == s.crypto && s'.log == Remember(s, mid).log && s'.channelId == s.channelId
  {
    hide ConflictKey, Added;
  }

  lemma DecryptingEffect(w: World, s: Store, p: Pending)
    requires p.Typed() && p.Decrypting?
    ensures var (s', q) := ResumeDecrypting(w, s, p);
            && s'.crypto == s.crypto && s'.channelId == s.channelId && s'.log == LogAfter(w, s, p)
            && (q.None? <==> TakesIn(w, s, p)) && (q.Some? ==> s' == s && q.value.msg == p.msg && q.value.mid == p.mid)
  {
    hide Decrypt, ParseSigned, StalePk, IsUnknownStructured, FpOf, Finish, Added;
    var plain := Plaintext(w, s, p);
    FinishEffect(s.(error := Some(DecryptFailed)), p.msg, p.mid, DecryptFailedWarning, None);
    if plain.Some? {
      var stale := StalePk(w.json, plain.value);
      FinishEffect(s, p.msg, p.mid, Plain(plain.value), None);
      if stale.Some? {
        FinishEffect(s.(error := Some(StaleSignature)), p.msg, p.mid, StaleSignatureWarning,
                     Some(Ident(FpOf(stale.value), None, stale.value, Invalid)));
      }
    }
  }

  lemma VerifyingEffect(w: World, s: Store, p: Pending)
    requires p.Typed() && p.Verifying?
    ensures var s' := ResumeVerifying(w, s, p);
            s'.crypto == s.crypto && s'.channelId == s.channelId && s'.log == LogAfter(w, s, p)
  {
    hide FpOf, VerifySignedMessage, Finish, Added;
    var m := p.signed;
    var (s1, id) := RecordIdentity(s, m.nick, m.pk);
    FinishEffect(s1, p.msg, p.mid, Plain(m.text), Some(id));
    FinishEffect(s.(error := Some(InvalidSignature)), p.msg, p.mid, InvalidSignatureWarning,
                 Some(Ident(FpOf(m.pk), Some(m.nick), m.pk, Invalid)));
  }

  /** The key, the room and the log after a resumed handler has run to its next await or
      to its end, and what it goes on with. */
  lemma ResumeEffect(w: World, s: Store, p: Pending)
    requires p.Typed()
    ensures var (s', q) := Resume(w, s, p);
            && s'.crypto == (if KeyInstalled(s, p).Some? then KeyInstalled(s, p).value else s.crypto)
            && s'.channelId == s.channelId && s'.log == LogAfter(w, s, p)
            && (q.Some? && !q.value.VerifyingNick? ==> q.value.msg == p.msg && q.value.mid == p.mid)
            && (q.Some? ==> (q.value.ImportingKey? <==> p.UnwrappingKey?))
  {
    hide Decrypt, ParseNick, ParseRoomName, ParseNewKey, ImportKey, FpOf, VerifySignedNick, Added, ResumeDecrypting,
      ResumeVerifying, ValidChannelId, ParseSigned;
    if p.Decrypting? {
      DecryptingEffect(w, s, p);
    } else if p.Verifying? {
      VerifyingEffect(w, s, p);
    }
  }

  /** Encrypted frames that are looked into: those of the four types, but not the echo of
      one's own key update. */
  predicate Encrypted(msg: ServerMsg)
  {
    msg.Message? || (msg.KeyUpdated? && !msg.self) || msg.RoomNameUpdated? || msg.NicknameUpdated?
  }

  function ReplayError(msg: ServerMsg): StoreError
    requires Encrypted(msg)
  {
    match msg
    case Message(_, _, _, _) => ReplayDropped
    case KeyUpdated(_, _, _, _) => KeyReplayDropped
    case RoomNameUpdated(_, _, _, _) => RoomNameReplayDropped
    case NicknameUpdated(_, _, _, _) => NickReplayDropped
  }

  /** The handler of a frame that has been let in. */
  function Opening(msg: ServerMsg, mid: Option<Id>, key: Key): (p: Pending)
    requires Encrypted(msg)
    ensures p.Typed() && MidOf(p) == mid
  {
    match msg
    case Message(_, _, _, _) => Decrypting(msg, mid, key)
    case KeyUpdated(_, _, _, _) => UnwrappingKey(msg, mid, key)
    case RoomNameUpdated(_, _, _, _) => UnwrappingName(msg, mid, key)
    case NicknameUpdated(_, _, _, _) => UnwrappingNick(msg, mid, key)
  }

  /** A valid envelope is dropped, leaving a banner only, if its id is remembered, and is
      let in otherwise; the four kinds of frames share one cache. */
  lemma StartEncrypted(s: Store, msg: ServerMsg)
    requires Encrypted(msg) && IsValidEnvelope(msg.payload)
    ensures var mid := ExtractMessageId(msg.payload);
            Start(s, msg) == if Seen(s, mid) then (s.(error := Some(ReplayError(msg))), None)
                             else (s, Some(Opening(msg, mid, s.crypto)))
  {
    hide IsValidEnvelope, ExtractMessageId, Recent;
  }

  lemma StartEffect(s: Store, msg: ServerMsg)
    ensures var (s1, p) := Start(s, msg);
            && s1.crypto == s.crypto && s1.channelId == s.channelId && s1.log == s.log
            && (p.Some? ==>
                  && s1 == s && Encrypted(msg) && IsValidEnvelope(msg.payload)
                  && !Seen(s, ExtractMessageId(msg.payload))
                  && p.value == Opening(msg, ExtractMessageId(msg.payload), s.crypto))
  {
    hide IsValidEnvelope, ExtractMessageId, Recent;
  }

  lemma ExtractedNonEmpty(payload: JsString)
    ensures ExtractMessageId(payload).Some? ==> ExtractMessageId(payload).value != []
  {
    hide Split;
  }

  lemma ValidNamesId(payload: JsString)
    requires IsValidEnvelope(payload)
    ensures ExtractMessageId(payload).Some? && ExtractMessageId(payload).value != []
  {
    ValidEnvelopeShape(payload);
    ExtractedNonEmpty(payload);
  }
}
