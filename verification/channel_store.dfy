/** The receiving side of a room: one handler per server frame, cut into the pieces
    that run between two awaits, and the class whose fields those pieces update. */
module ChannelStores {
  import opened Options
  import opened Text
  import opened SignedData
  import opened Envelopes
  import opened Payloads
  import opened ReplayCaches

  /** What the store consults but does not own: JSON, what was sealed, what was signed. */
  datatype World = World(json: Json, seals: Seals, sigs: Signatures)

  // ---- frames, timeline, errors ----

  datatype ServerMsg =
    | Joined(online: int)
    | Message(channelId: JsString, payload: JsString, from: JsString, self: bool)
    | KeyUpdated(channelId: JsString, payload: JsString, from: JsString, self: bool)
    | RoomNameUpdated(channelId: JsString, payload: JsString, from: JsString, self: bool)
    | NicknameUpdated(channelId: JsString, payload: JsString, from: JsString, self: bool)
    | OnlineCount(count: int)
    | ServerError(code: JsString, message: JsString)
    | Undecodable(reason: JsString)
    | OtherType

  datatype IdentStatus = Verified | Invalid | Conflict

  datatype Ident = Ident(fp: JsString, nick: Option<JsString>, pk: JsString, status: IdentStatus)

  /** What a bubble shows: decrypted text or one of the fixed warnings. */
  datatype Content =
    | Plain(text: JsString)
    | InvalidEnvelopeWarning
    | DecryptFailedWarning
    | InvalidSignatureWarning
    | StaleSignatureWarning

  datatype Entry =
    | Chat(channelId: JsString, content: Content, from: JsString, self: bool, ident: Option<Ident>)
    | RoomNameNotice(channelId: JsString, name: JsString, actor: JsString)
    | KeyRotationNotice(channelId: JsString, actor: JsString)
    | ConflictNotice(channelId: JsString, actor: JsString, nick: JsString, fp: JsString)

  datatype StoreError =
    | InvalidEnvelope | InvalidKeyEnvelope | InvalidRoomNameEnvelope | InvalidNickEnvelope
    | ReplayDropped | KeyReplayDropped | RoomNameReplayDropped | NickReplayDropped
    | DecryptFailed | InvalidSignature | StaleSignature | IdentityMismatch
    | KeyRotationFailed | RoomNameFailed | InvalidNickSignature | NickFailed
    | FromServer(code: JsString, message: JsString) | BadFrame(reason: JsString)

  const CACHE_MAX := 1000

  datatype Store = Store(
    channelId: JsString,
    messages: seq<Entry>,
    online: int,
    error: Option<StoreError>,
    crypto: Key,
    log: seq<Id>,
    lastRoomName: Option<JsString>,
    nickToFp: map<JsString, JsString>,
    fpByConn: map<JsString, JsString>,
    conflictWarned: set<JsString>)

  /** A handler suspended at an await, with what it captured before. */
  datatype Pending =
    | Decrypting(msg: ServerMsg, mid: Option<Id>, key: Key)
    | Verifying(msg: ServerMsg, mid: Option<Id>, signed: Signed)
    | UnwrappingKey(msg: ServerMsg, mid: Option<Id>, key: Key)
    | ImportingKey(msg: ServerMsg, mid: Option<Id>, b64: JsString)
    | UnwrappingName(msg: ServerMsg, mid: Option<Id>, key: Key)
    | UnwrappingNick(msg: ServerMsg, mid: Option<Id>, key: Key)
    | VerifyingNick(nick: JsString, pk: JsString, sig: JsString)
  {
    /** Handlers of encrypted frames only. */
    predicate Typed()
    {
      match this
      case Decrypting(m, _, _) => m.Message?
      case Verifying(m, _, _) => m.Message?
      case UnwrappingKey(m, _, _) => m.KeyUpdated?
      case ImportingKey(m, _, _) => m.KeyUpdated?
      case UnwrappingName(m, _, _) => m.RoomNameUpdated?
      case UnwrappingNick(m, _, _) => m.NicknameUpdated?
      case VerifyingNick(_, _, _) => true
    }
  }

  // ---- helpers of the handlers ----

  predicate Seen(s: Store, mid: Option<Id>)
  {
    mid.Some? && mid.value != [] && mid.value in Recent(s.log, CACHE_MAX)
  }

  function Remember(s: Store, mid: Option<Id>): Store
  {
    if mid.Some? && mid.value != [] then s.(log := Added(s.log, CACHE_MAX, mid.value)) else s
  }

  /** `map.get(k)`, with the empty string as falsy as an absent key. */
  function Truthy(m: map<JsString, JsString>, k: JsString): Option<JsString>
  {
    if k in m && m[k] != [] then Some(m[k]) else None
  }

  function RecordIdentity(s: Store, nick: JsString, pk: JsString): (Store, Ident)
  {
    var fp := FpOf(pk);
    var owner := Truthy(s.nickToFp, nick);
    if owner.Some? && owner.value != fp then (s, Ident(fp, Some(nick), pk, Conflict))
    else ((if owner.None? then s.(nickToFp := s.nickToFp[nick := fp]) else s), Ident(fp, Some(nick), pk, Verified))
  }

  function ConflictKey(nick: JsString, fp: JsString): JsString { nick + ([COLON] + fp) }

  function WarnConflict(s: Store, msg: ServerMsg, ident: Ident): Store
    requires msg.Message? && ident.nick.Some?
  {
    var key := ConflictKey(ident.nick.value, ident.fp);
    if ident.status != Conflict || key in s.conflictWarned then s
    else s.(conflictWarned := s.conflictWarned + {key},
            messages := s.messages + [ConflictNotice(msg.channelId, msg.from, ident.nick.value, ident.fp)])
  }

  function NoteConnection(s: Store, from: JsString, fp: JsString): Store
  {
    var prev := Truthy(s.fpByConn, from);
    if prev.Some? && prev.value != fp then s.(error := Some(IdentityMismatch))
    else s.(fpByConn := s.fpByConn[from := fp])
  }

  /** The common tail of the message handler: no await from here on. */
  function Finish(s: Store, msg: ServerMsg, mid: Option<Id>, content: Content, ident: Option<Ident>): Store
    requires msg.Message?
    requires ident.Some? && ident.value.status != Invalid ==> ident.value.nick.Some?
  {
    var s1 := Remember(s, mid);
    var s2 := s1.(messages := s1.messages + [Chat(msg.channelId, content, msg.from, msg.self, ident)]);
    if ident.Some? && ident.value.status != Invalid then
      NoteConnection(WarnConflict(s2, msg, ident.value), msg.from, ident.value.fp)
    else s2
  }

  // ---- the pieces between awaits ----

  /** A frame arrives: everything up to the first await. */
  function Start(s: Store, msg: ServerMsg): (r: (Store, Option<Pending>))
    ensures r.1.Some? ==> r.1.value.Typed()
  {
    match msg
    case Undecodable(reason) => (s.(error := Some(BadFrame(reason))), None)
    case Joined(n) => (s.(online := n), None)
    case OnlineCount(n) => (s.(online := n), None)
    case ServerError(c, m) => (s.(error := Some(FromServer(c, m))), None)
    case OtherType => (s, None)
    case Message(channelId, payload, from, self) =>
      var mid := ExtractMessageId(payload);
      if !IsValidEnvelope(payload) then
        (s.(error := Some(InvalidEnvelope),
            messages := s.messages + [Chat(channelId, InvalidEnvelopeWarning, from, self, None)]), None)
      else if Seen(s, mid) then (s.(error := Some(ReplayDropped)), None)
      else (s, Some(Decrypting(msg, mid, s.crypto)))
    case KeyUpdated(_, payload, _, self) =>
      var mid := ExtractMessageId(payload);
      if self then (s, None)
      else if !IsValidEnvelope(payload) then (s.(error := Some(InvalidKeyEnvelope)), None)
      else if Seen(s, mid) then (s.(error := Some(KeyReplayDropped)), None)
      else (s, Some(UnwrappingKey(msg, mid, s.crypto)))
    case RoomNameUpdated(_, payload, _, _) =>
      var mid := ExtractMessageId(payload);
      if !IsValidEnvelope(payload) then (s.(error := Some(InvalidRoomNameEnvelope)), None)
      else if Seen(s, mid) then (s.(error := Some(RoomNameReplayDropped)), None)
      else (s, Some(UnwrappingName(msg, mid, s.crypto)))
    case NicknameUpdated(_, payload, _, _) =>
      var mid := ExtractMessageId(payload);
      if !IsValidEnvelope(payload) then (s.(error := Some(InvalidNickEnvelope)), None)
      else if Seen(s, mid) then (s.(error := Some(NickReplayDropped)), None)
      else (s, Some(UnwrappingNick(msg, mid, s.crypto)))
  }

  function ResumeDecrypting(w: World, s: Store, p: Pending): (r: (Store, Option<Pending>))
    requires p.Decrypting? && p.Typed()
    ensures r.1.Some? ==> r.1.value.Verifying? && r.1.value.Typed()
  {
    var plain := Decrypt(w.seals, p.key, s.channelId, p.msg.payload);
    if plain.None? then
      (Finish(s.(error := Some(DecryptFailed)), p.msg, p.mid, DecryptFailedWarning, None), None)
    else
      var parsed, stale := ParseSigned(w.json, plain.value), StalePk(w.json, plain.value);
      if parsed.Some? then (s, Some(Verifying(p.msg, p.mid, parsed.value)))
      else if stale.Some? then
        var ident := Ident(FpOf(stale.value), None, stale.value, Invalid);
        (Finish(s.(error := Some(StaleSignature)), p.msg, p.mid, StaleSignatureWarning, Some(ident)), None)
      else if IsUnknownStructured(w.json, plain.value) then (Remember(s, p.mid), None)
      else (Finish(s, p.msg, p.mid, Plain(plain.value), None), None)
  }

  function ResumeVerifying(w: World, s: Store, p: Pending): Store
    requires p.Verifying? && p.Typed()
  {
    var m := p.signed;
    var mid := if p.mid.Some? then p.mid.value else [];
    if VerifySignedMessage(w.sigs, s.channelId, mid, m) then
      var (s1, ident) := RecordIdentity(s, m.nick, m.pk);
      Finish(s1, p.msg, p.mid, Plain(m.text), Some(ident))
    else
      var ident := Ident(FpOf(m.pk), Some(m.nick), m.pk, Invalid);
      Finish(s.(error := Some(InvalidSignature)), p.msg, p.mid, InvalidSignatureWarning, Some(ident))
  }

  function ResumeUnwrappingKey(w: World, s: Store, p: Pending): (r: (Store, Option<Pending>))
    requires p.UnwrappingKey? && p.Typed()
    ensures r.1.Some? ==> r.1.value.ImportingKey? && r.1.value.Typed()
  {
    var plain := Decrypt(w.seals, p.key, s.channelId, p.msg.payload);
    var b64 := if plain.None? then None else ParseNewKey(w.json, plain.value);
    if b64.None? then (s.(error := Some(KeyRotationFailed)), None)
    else (s, Some(ImportingKey(p.msg, p.mid, b64.value)))
  }

  /** The switch to the new key. */
  function ResumeImportingKey(s: Store, p: Pending): Store
    requires p.ImportingKey? && p.Typed()
  {
    var key := ImportKey(p.b64);
    if key.None? || !ValidChannelId(s.channelId) then s.(error := Some(KeyRotationFailed))
    else
      var s1 := Remember(s.(crypto := key.value, log := []), p.mid);
      s1.(messages := s1.messages + [KeyRotationNotice(p.msg.channelId, p.msg.from)], error := None)
  }

  function ResumeUnwrappingName(w: World, s: Store, p: Pending): Store
    requires p.UnwrappingName? && p.Typed()
  {
    var plain := Decrypt(w.seals, p.key, s.channelId, p.msg.payload);
    var name := if plain.None? then None else ParseRoomName(w.json, plain.value);
    if name.None? then s.(error := Some(RoomNameFailed))
    else
      var s1 := Remember(s, p.mid);
      if s1.lastRoomName == Some(name.value.name) then s1
      else
        s1.(lastRoomName := Some(name.value.name), error := None,
            messages := s1.messages + (if name.value.initial then []
                                       else [RoomNameNotice(p.msg.channelId, name.value.name, p.msg.from)]))
  }

  function ResumeUnwrappingNick(w: World, s: Store, p: Pending): (r: (Store, Option<Pending>))
    requires p.UnwrappingNick? && p.Typed()
    ensures r.1.Some? ==> r.1.value.VerifyingNick?
  {
    var plain := Decrypt(w.seals, p.key, s.channelId, p.msg.payload);
    var claim := if plain.None? then None else ParseNick(w.json, plain.value);
    if claim.None? then (s.(error := Some(NickFailed)), None)
    else
      var s1 := Remember(s, p.mid);
      var c := claim.value;
      if c.pk.Some? && c.sig.Some? then (s1, Some(VerifyingNick(c.nick, c.pk.value, c.sig.value)))
      else (s1.(error := None), None)
  }

  function ResumeVerifyingNick(w: World, s: Store, p: Pending): Store
    requires p.VerifyingNick?
  {
    if !VerifySignedNick(w.sigs, s.channelId, p.nick, p.pk, p.sig) then s.(error := Some(InvalidNickSignature))
    else RecordIdentity(s, p.nick, p.pk).0.(error := None)
  }

  /** An awaited result is in: run to the next await or to the end. */
  function Resume(w: World, s: Store, p: Pending): (r: (Store, Option<Pending>))
    requires p.Typed()
    ensures r.1.Some? ==> r.1.value.Typed() && AwaitsLeft(r.1.value) < AwaitsLeft(p)
  {
    match p
    case Decrypting(_, _, _) => ResumeDecrypting(w, s, p)
    case Verifying(_, _, _) => (ResumeVerifying(w, s, p), None)
    case UnwrappingKey(_, _, _) => ResumeUnwrappingKey(w, s, p)
    case ImportingKey(_, _, _) => (ResumeImportingKey(s, p), None)
    case UnwrappingName(_, _, _) => (ResumeUnwrappingName(w, s, p), None)
    case UnwrappingNick(_, _, _) => ResumeUnwrappingNick(w, s, p)
    case VerifyingNick(_, _, _) => (ResumeVerifyingNick(w, s, p), None)
  }

  function AwaitsLeft(p: Pending): nat
  {
    if p.Decrypting? || p.UnwrappingKey? || p.UnwrappingNick? then 2 else 1
  }

  /** `updateCrypto`: a local rotation. */
  function UpdateCrypto(s: Store, key: Key): Store { s.(crypto := key, log := []) }

  function Complete(w: World, s: Store, p: Option<Pending>): Store
    requires p.Some? ==> p.value.Typed()
    decreases if p.Some? then AwaitsLeft(p.value) else 0
  {
    if p.None? then s else var (s1, next) := Resume(w, s, p.value); Complete(w, s1, next)
  }

  /** A frame handled without interruption. */
  function Handle(w: World, s: Store, msg: ServerMsg): Store
  {
    var (s1, p) := Start(s, msg);
    Complete(w, s1, p)
  }

  /** No handler has more than two awaits. */
  lemma HandleSteps(w: World, s: Store, msg: ServerMsg)
    ensures var (s1, p) := Start(s, msg);
            if p.None? then Handle(w, s, msg) == s1
            else
              var (s2, q) := Resume(w, s1, p.value);
              if q.None? then Handle(w, s, msg) == s2
              else Handle(w, s, msg) == Resume(w, s2, q.value).0 && Resume(w, s2, q.value).1.None?
  {
    hide Start, Resume;
    var (s1, p) := Start(s, msg);
    if p.Some? {
      var (s2, q) := Resume(w, s1, p.value);
      if q.Some? {
        var (s3, r) := Resume(w, s2, q.value);
        assert r.None?;
        assert Complete(w, s2, q) == Complete(w, s3, r) == s3;
      } else {
        assert Complete(w, s2, q) == s2;
      }
    }
  }

  function NewStore(channelId: JsString, crypto: Key): Store
  {
    Store(channelId, [], 0, None, crypto, [], None, map[], map[], {})
  }

  // ---- the class ----

  class ChannelStore {
    const channelId: JsString
    var messages: seq<Entry>
    var online: int
    var error: Option<StoreError>
    var crypto: Key
    const replayCache: ReplayCache
    var lastRoomName: Option<JsString>
    var nickToFp: map<JsString, JsString>
    var fpByConn: map<JsString, JsString>
    var conflictWarned: set<JsString>

    ghost predicate Valid()
      reads this, replayCache
    {
      replayCache.Valid() && replayCache.max == CACHE_MAX
    }

    ghost function View(): Store
      reads this, replayCache
    {
      Store(channelId, messages, online, error, crypto, replayCache.log, lastRoomName,
            nickToFp, fpByConn, conflictWarned)
    }

    constructor (channelId: JsString, crypto: Key)
      ensures Valid() && fresh(replayCache)
      ensures View() == NewStore(channelId, crypto)
    {
      this.channelId, this.crypto := channelId, crypto;
      messages, online, error, lastRoomName := [], 0, None, None;
      nickToFp, fpByConn, conflictWarned := map[], map[], {};
      replayCache := new ReplayCache(CACHE_MAX);
    }

    method CheckSeen(mid: Option<Id>) returns (r: bool)
      requires Valid()
      ensures r == Seen(View(), mid)
    {
      r := false;
      if mid.Some? && mid.value != [] {
        r := replayCache.Has(mid.value);
      }
    }

    method RememberId(mid: Option<Id>)
      requires Valid()
      modifies replayCache
      ensures Valid() && View() == Remember(old(View()), mid)
    {
      if mid.Some? && mid.value != [] {
        replayCache.Add(mid.value);
      }
    }

    method UpdateKey(key: Key)
      requires Valid()
      modifies this, replayCache
      ensures Valid() && View() == UpdateCrypto(old(View()), key)
    {
      crypto := key;
      replayCache.Clear();
    }

    method Record(nick: JsString, pk: JsString) returns (ident: Ident)
      modifies this`nickToFp
      ensures (View(), ident) == RecordIdentity(old(View()), nick, pk)
    {
      var fp := FpOf(pk);
      ident := Ident(fp, Some(nick), pk, Verified);
      var owner := Truthy(nickToFp, nick);
      if owner.Some? && owner.value != fp {
        ident := ident.(status := Conflict);
      } else if owner.None? {
        nickToFp := nickToFp[nick := fp];
      }
    }

    /** A contested nickname and fingerprint are announced once. */
    method WarnOnce(msg: ServerMsg, ident: Ident)
      requires msg.Message? && ident.nick.Some?
      modifies this`conflictWarned, this`messages
      ensures View() == WarnConflict(old(View()), msg, ident)
    {
      hide ConflictKey;
      var key := ConflictKey(ident.nick.value, ident.fp);
      if ident.status == Conflict && key !in conflictWarned {
        conflictWarned := conflictWarned + {key};
        messages := messages + [ConflictNotice(msg.channelId, msg.from, ident.nick.value, ident.fp)];
      }
    }

    /** The fingerprint of a connection: one connection that shows two is an alarm. */
    method NoteFingerprint(from: JsString, fp: JsString)
      modifies this`error, this`fpByConn
      ensures View() == NoteConnection(old(View()), from, fp)
    {
      var prev := Truthy(fpByConn, from);
      if prev.Some? && prev.value != fp {
        error := Some(IdentityMismatch);
      } else {
        fpByConn := fpByConn[from := fp];
      }
    }

    method Render(msg: ServerMsg, mid: Option<Id>, content: Content, ident: Option<Ident>)
      requires Valid() && msg.Message?
      requires ident.Some? && ident.value.status != Invalid ==> ident.value.nick.Some?
      modifies this, replayCache
      ensures Valid() && View() == Finish(old(View()), msg, mid, content, ident)
    {
      hide Remember, WarnConflict, NoteConnection;
      RememberId(mid);
      messages := messages + [Chat(msg.channelId, content, msg.from, msg.self, ident)];
      if ident.None? || ident.value.status == Invalid { return; }
      WarnOnce(msg, ident.value);
      NoteFingerprint(msg.from, ident.value.fp);
    }

    /** A raw frame comes in. */
    method OnFrame(msg: ServerMsg) returns (p: Option<Pending>)
      requires Valid()
      modifies this
      ensures Valid() && (View(), p) == Start(old(View()), msg)
    {
      p := None;
      match msg
      case Undecodable(reason) => error := Some(BadFrame(reason));
      case Joined(n) => online := n;
      case OnlineCount(n) => online := n;
      case ServerError(c, m) => error := Some(FromServer(c, m));
      case OtherType =>
      case Message(_, _, _, _) =>
        if !IsValidEnvelope(msg.payload) {
          error := Some(InvalidEnvelope);
          messages := messages + [Chat(msg.channelId, InvalidEnvelopeWarning, msg.from, msg.self, None)];
          return;
        }
        var mid := ExtractMessageId(msg.payload);
        var seen := CheckSeen(mid);
        if seen {
          error := Some(ReplayDropped);
          return;
        }
        p := Some(Decrypting(msg, mid, crypto));
      case KeyUpdated(_, _, _, _) =>
        if msg.self { return; }
        if !IsValidEnvelope(msg.payload) {
          error := Some(InvalidKeyEnvelope);
          return;
        }
        var mid := ExtractMessageId(msg.payload);
        var seen := CheckSeen(mid);
        if seen {
          error := Some(KeyReplayDropped);
          return;
        }
        p := Some(UnwrappingKey(msg, mid, crypto));
      case RoomNameUpdated(_, _, _, _) =>
        if !IsValidEnvelope(msg.payload) {
          error := Some(InvalidRoomNameEnvelope);
          return;
        }
        var mid := ExtractMessageId(msg.payload);
        var seen := CheckSeen(mid);
        if seen {
          error := Some(RoomNameReplayDropped);
          return;
        }
        p := Some(UnwrappingName(msg, mid, crypto));
      case NicknameUpdated(_, _, _, _) =>
        if !IsValidEnvelope(msg.payload) {
          error := Some(InvalidNickEnvelope);
          return;
        }
        var mid := ExtractMessageId(msg.payload);
        var seen := CheckSeen(mid);
        if seen {
          error := Some(NickReplayDropped);
          return;
        }
        p := Some(UnwrappingNick(msg, mid, crypto));
    }

    method OnDecrypted(w: World, p: Pending) returns (next: Option<Pending>)
      requires Valid() && p.Decrypting? && p.Typed()
      modifies this, replayCache
      ensures Valid() && (View(), next) == ResumeDecrypting(w, old(View()), p)
    {
      next := None;
      var plain := Decrypt(w.seals, p.key, channelId, p.msg.payload);
      if plain.None? {
        error := Some(DecryptFailed);
        Render(p.msg, p.mid, DecryptFailedWarning, None);
        return;
      }
      var parsed := ParseSigned(w.json, plain.value);
      var stale := if parsed.Some? then None else StalePk(w.json, plain.value);
      if parsed.Some? {
        next := Some(Verifying(p.msg, p.mid, parsed.value));
      } else if stale.Some? {
        error := Some(StaleSignature);
        Render(p.msg, p.mid, StaleSignatureWarning, Some(Ident(FpOf(stale.value), None, stale.value, Invalid)));
      } else if IsUnknownStructured(w.json, plain.value) {
        RememberId(p.mid);
      } else {
        Render(p.msg, p.mid, Plain(plain.value), None);
      }
    }

    method OnVerified(w: World, p: Pending)
      requires Valid() && p.Verifying? && p.Typed()
      modifies this, replayCache
      ensures Valid() && View() == ResumeVerifying(w, old(View()), p)
    {
      var m := p.signed;
      if VerifySignedMessage(w.sigs, channelId, if p.mid.Some? then p.mid.value else [], m) {
        var ident := Record(m.nick, m.pk);
        Render(p.msg, p.mid, Plain(m.text), Some(ident));
      } else {
        error := Some(InvalidSignature);
        Render(p.msg, p.mid, InvalidSignatureWarning, Some(Ident(FpOf(m.pk), Some(m.nick), m.pk, Invalid)));
      }
    }

    method OnKeyImported(p: Pending)
      requires Valid() && p.ImportingKey? && p.Typed()
      modifies this, replayCache
      ensures Valid() && View() == ResumeImportingKey(old(View()), p)
    {
      var key := ImportKey(p.b64);
      if key.None? || !ValidChannelId(channelId) {
        error := Some(KeyRotationFailed);
        return;
      }
      crypto := key.value;
      replayCache.Clear();
      RememberId(p.mid);
      messages := messages + [KeyRotationNotice(p.msg.channelId, p.msg.from)];
      error := None;
    }

    method OnNameUnwrapped(w: World, p: Pending)
      requires Valid() && p.UnwrappingName? && p.Typed()
      modifies this, replayCache
      ensures Valid() && View() == ResumeUnwrappingName(w, old(View()), p)
    {
      hide Decrypt, ParseRoomName, Added, Recent, Spaced;
      var plain := Decrypt(w.seals, p.key, channelId, p.msg.payload);
      var parsed := if plain.None? then None else ParseRoomName(w.json, plain.value);
      if parsed.None? {
        error := Some(RoomNameFailed);
        return;
      }
      var RoomName(name, initial) := parsed.value;
      RememberId(p.mid);
      if lastRoomName == Some(name) { return; }
      lastRoomName := Some(name);
      if !initial {
        messages := messages + [RoomNameNotice(p.msg.channelId, name, p.msg.from)];
      }
      error := None;
    }

    method OnNickUnwrapped(w: World, p: Pending) returns (next: Option<Pending>)
      requires Valid() && p.UnwrappingNick? && p.Typed()
      modifies this, replayCache
      ensures Valid() && (View(), next) == ResumeUnwrappingNick(w, old(View()), p)
    {
      next := None;
      var plain := Decrypt(w.seals, p.key, channelId, p.msg.payload);
      var claim := if plain.None? then None else ParseNick(w.json, plain.value);
      if claim.None? {
        error := Some(NickFailed);
        return;
      }
      RememberId(p.mid);
      var NickClaim(nick, pk, sig) := claim.value;
      if pk.Some? && sig.Some? {
        next := Some(VerifyingNick(nick, pk.value, sig.value));
        return;
      }
      error := None;
    }

    /** The continuation of a suspended handler. */
    method Continue(w: World, p: Pending) returns (next: Option<Pending>)
      requires Valid() && p.Typed()
      modifies this, replayCache
      ensures Valid() && (View(), next) == Resume(w, old(View()), p)
    {
      next := None;
      match p
      case Decrypting(_, _, _) => next := OnDecrypted(w, p);
      case Verifying(_, _, _) => OnVerified(w, p);
      case UnwrappingKey(_, _, _) =>
        var plain := Decrypt(w.seals, p.key, channelId, p.msg.payload);
        var b64 := if plain.None? then None else ParseNewKey(w.json, plain.value);
        if b64.None? {
          error := Some(KeyRotationFailed);
        } else {
          next := Some(ImportingKey(p.msg, p.mid, b64.value));
        }
      case ImportingKey(_, _, _) => OnKeyImported(p);
      case UnwrappingName(_, _, _) => OnNameUnwrapped(w, p);
      case UnwrappingNick(_, _, _) => next := OnNickUnwrapped(w, p);
      case VerifyingNick(nick, pk, sig) =>
        if !VerifySignedNick(w.sigs, channelId, nick, pk, sig) {
          error := Some(InvalidNickSignature);
          return;
        }
        var ident := Record(nick, pk);
        error := None;
    }

    /** A frame whose handler is not interrupted. */
    method HandleFrame(w: World, msg: ServerMsg)
      requires Valid()
      modifies this, replayCache
      ensures Valid() && View() == Handle(w, old(View()), msg)
    {
      var p := OnFrame(msg);
      while p.Some?
        invariant Valid() && (p.Some? ==> p.value.Typed())
        invariant Complete(w, View(), p) == Handle(w, old(View()), msg)
        decreases if p.Some? then AwaitsLeft(p.value) else 0
      {
        p := Continue(w, p.value);
      }
    }
  }
}
