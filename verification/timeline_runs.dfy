/** Where the entries of the timeline come from, over runs in which handlers interleave
    freely: nothing is shown that an arrived frame does not say, under a key that was in
    place, and nothing that its signature does not cover. */
module TimelineRuns {
  import opened Options
  import opened Text
  import opened Base64Url
  import opened Envelopes
  import opened Payloads
  import opened ReplayCaches
  import opened ChannelStores
  import opened HandlerEffects
  import opened ReceiveRuns
  import opened ReplayRuns

  /** The frames that have arrived and the keys that have been in place. */
  datatype Past = Past(frames: set<ServerMsg>, keys: set<Key>)

  function Later(w: World, sys: Sys, past: Past, e: Event): Past
    requires AllTyped(sys.pending)
  {
    Past(past.frames + (if e.Arrive? then {e.msg} else {}), past.keys + {Next(w, sys, e).store.crypto})
  }

  function PastOf(w: World, sys: Sys, past: Past, es: seq<Event>): Past
    requires AllTyped(sys.pending)
    decreases |es|
  {
    if es == [] then past else PastOf(w, Next(w, sys, es[0]), Later(w, sys, past, es[0]), es[1..])
  }

  // ---- what an entry may show ----

  function MidString(payload: JsString): JsString
  {
    if ExtractMessageId(payload).Some? then ExtractMessageId(payload).value else []
  }

  predicate IsFp(fp: JsString, pk: JsString) { |pk| >= 10 && fp == pk[..10] }

  /** The claim that a plaintext carries, and whether its signature covers this room, the
      frame's message id, and the claimed nickname and text. */
  ghost predicate Claims(w: World, channelId: JsString, payload: JsString, plain: JsString, m: Signed, good: bool)
  {
    && ParseSigned(w.json, plain) == Some(m)
    && (good <==> VerifySignedMessage(w.sigs, channelId, MidString(payload), m))
  }

  predicate Untagged(json: Json, plain: JsString)
  {
    ParseSigned(json, plain).None? && StalePk(json, plain).None? && !IsUnknownStructured(json, plain)
  }

  /** What a bubble with this content and identity says about the frame it shows. */
  ghost predicate Bubble(w: World, channelId: JsString, content: Content, ident: Option<Ident>, payload: JsString,
                         plain: Option<JsString>)
  {
    match content
    case InvalidEnvelopeWarning => !IsValidEnvelope(payload) && ident.None?
    case DecryptFailedWarning => plain.None? && ident.None?
    case Plain(text) =>
      && plain.Some?
      && (ident.None? ==> plain.value == text && Untagged(w.json, text))
      && (ident.Some? ==>
            && ident.value.nick.Some? && ident.value.status != Invalid && IsFp(ident.value.fp, ident.value.pk)
            && exists sig :: Claims(w, channelId, payload, plain.value,
                                    Signed(text, ident.value.nick.value, ident.value.pk, sig), true))
    case InvalidSignatureWarning =>
      && plain.Some? && ident.Some? && ident.value.status == Invalid && ident.value.nick.Some?
      && IsFp(ident.value.fp, ident.value.pk)
      && exists text, sig :: Claims(w, channelId, payload, plain.value,
                                    Signed(text, ident.value.nick.value, ident.value.pk, sig), false)
    case StaleSignatureWarning =>
      && plain.Some? && ident.Some? && ident.value.status == Invalid && ident.value.nick.None?
      && IsFp(ident.value.fp, ident.value.pk) && StalePk(w.json, plain.value) == Some(ident.value.pk)
  }

  /** The entry shows this frame, opened under this key. */
  ghost predicate Shows(w: World, channelId: JsString, e: Entry, msg: ServerMsg, key: Key)
  {
    match e
    case Chat(c, content, from, self, ident) =>
      && msg.Message? && msg == Message(c, msg.payload, from, self)
      && (content.InvalidEnvelopeWarning? || IsValidEnvelope(msg.payload))
      && Bubble(w, channelId, content, ident, msg.payload, Decrypt(w.seals, key, channelId, msg.payload))
    case ConflictNotice(c, actor, nick, fp) =>
      && msg.Message? && msg.channelId == c && msg.from == actor
      && var plain := Decrypt(w.seals, key, channelId, msg.payload);
      && plain.Some?
      && exists text, pk, sig ::
           IsFp(fp, pk) && Claims(w, channelId, msg.payload, plain.value, Signed(text, nick, pk, sig), true)
    case RoomNameNotice(c, name, actor) =>
      && msg.RoomNameUpdated? && msg.channelId == c && msg.from == actor
      && var plain := Decrypt(w.seals, key, channelId, msg.payload);
      && plain.Some? && ParseRoomName(w.json, plain.value) == Some(RoomName(name, false))
    case KeyRotationNotice(c, actor) =>
      && msg.KeyUpdated? && !msg.self && msg.channelId == c && msg.from == actor
      && var plain := Decrypt(w.seals, key, channelId, msg.payload);
      && plain.Some? && ParseNewKey(w.json, plain.value).Some?
  }

  ghost predicate Backed(w: World, channelId: JsString, e: Entry, past: Past)
  {
    exists msg, key :: msg in past.frames && key in past.keys && Shows(w, channelId, e, msg, key)
  }

  // ---- what a waiting handler knows ----

  /** The handler works on a frame that has arrived, and on what it read in it. */
  ghost predicate Knows(w: World, channelId: JsString, p: Pending, key: Key)
    requires p.Typed() && !p.VerifyingNick?
  {
    var plain := Decrypt(w.seals, key, channelId, p.msg.payload);
    match p
    case Decrypting(_, _, k) => k == key
    case UnwrappingKey(_, _, k) => k == key && !p.msg.self
    case UnwrappingName(_, _, k) => k == key
    case UnwrappingNick(_, _, k) => k == key
    case Verifying(_, _, m) => plain.Some? && ParseSigned(w.json, plain.value) == Some(m)
    case ImportingKey(_, _, b64) => plain.Some? && ParseNewKey(w.json, plain.value) == Some(b64) && !p.msg.self
  }

  ghost predicate PendingBacked(w: World, channelId: JsString, p: Pending, past: Past)
  {
    && Holds(p)
    && (!p.VerifyingNick? ==>
          p.msg in past.frames && exists key :: key in past.keys && Knows(w, channelId, p, key))
  }

  ghost predicate TimelineBacked(w: World, sys: Sys, past: Past)
  {
    && AllTyped(sys.pending)
    && sys.store.crypto in past.keys
    && (forall p | p in sys.pending :: PendingBacked(w, sys.store.channelId, p, past))
    && (forall e | e in sys.store.messages :: Backed(w, sys.store.channelId, e, past))
  }

  lemma BackedLater(w: World, c: JsString, e: Entry, past: Past, past': Past)
    requires Backed(w, c, e, past) && past.frames <= past'.frames && past.keys <= past'.keys
    ensures Backed(w, c, e, past')
  {
    hide Shows;
  }

  lemma PendingLater(w: World, c: JsString, p: Pending, past: Past, past': Past)
    requires PendingBacked(w, c, p, past) && past.frames <= past'.frames && past.keys <= past'.keys
    ensures PendingBacked(w, c, p, past')
  {
    hide Knows, Holds;
  }

  /** Every entry that is new shows this frame under this key. */
  ghost predicate NewShow(w: World, s: Store, s': Store, msg: ServerMsg, key: Key)
  {
    s'.channelId == s.channelId && forall e | e in s'.messages :: e in s.messages || Shows(w, s.channelId, e, msg, key)
  }

  lemma PkHasPrefix(json: Json, plain: JsString)
    ensures var m := ParseSigned(json, plain); m.Some? ==> IsFp(FpOf(m.value.pk), m.value.pk)
    ensures var pk := StalePk(json, plain); pk.Some? ==> IsFp(FpOf(pk.value), pk.value)
  {
  }

  /** What a message handler adds: the bubble and at most one announcement. */
  lemma FinishAdds(s: Store, msg: ServerMsg, mid: Option<Id>, content: Content, ident: Option<Ident>)
    requires msg.Message?
    requires ident.Some? && ident.value.status != Invalid ==> ident.value.nick.Some?
    ensures var s' := Finish(s, msg, mid, content, ident);
            && s'.channelId == s.channelId
            && forall e | e in s'.messages ::
                 || e in s.messages
                 || e == Chat(msg.channelId, content, msg.from, msg.self, ident)
                 || (ident.Some? && ident.value.status == Conflict
                     && e == ConflictNotice(msg.channelId, msg.from, ident.value.nick.value, ident.value.fp))
  {
    hide ConflictKey, Added;
  }

  lemma DecryptingShows(w: World, s: Store, p: Pending)
    requires Holds(p) && p.Decrypting?
    ensures NewShow(w, s, ResumeDecrypting(w, s, p).0, p.msg, p.key)
    ensures var q := ResumeDecrypting(w, s, p).1; q.Some? ==> Knows(w, s.channelId, q.value, p.key)
  {
    hide Decrypt, ParseSigned, StalePk, IsUnknownStructured, FpOf, Finish, IsValidEnvelope, ExtractMessageId,
      VerifySignedMessage;
    var plain := Decrypt(w.seals, p.key, s.channelId, p.msg.payload);
    FinishAdds(s.(error := Some(DecryptFailed)), p.msg, p.mid, DecryptFailedWarning, None);
    if plain.Some? {
      PkHasPrefix(w.json, plain.value);
      var stale := StalePk(w.json, plain.value);
      FinishAdds(s, p.msg, p.mid, Plain(plain.value), None);
      if stale.Some? {
        FinishAdds(s.(error := Some(StaleSignature)), p.msg, p.mid, StaleSignatureWarning,
                   Some(Ident(FpOf(stale.value), None, stale.value, Invalid)));
      }
    }
  }

  lemma VerifyingShows(w: World, s: Store, p: Pending, key: Key)
    requires Holds(p) && p.Verifying? && Knows(w, s.channelId, p, key)
    ensures NewShow(w, s, ResumeVerifying(w, s, p), p.msg, key)
  {
    hide Decrypt, ParseSigned, FpOf, Finish, IsValidEnvelope, ExtractMessageId, VerifySignedMessage;
    var plain, m := Decrypt(w.seals, key, s.channelId, p.msg.payload).value, p.signed;
    PkHasPrefix(w.json, plain);
    var good := VerifySignedMessage(w.sigs, s.channelId, MidString(p.msg.payload), m);
    assert m == Signed(m.text, m.nick, m.pk, m.sig) && Claims(w, s.channelId, p.msg.payload, plain, m, good);
    if good {
      var (s1, id) := RecordIdentity(s, m.nick, m.pk);
      FinishAdds(s1, p.msg, p.mid, Plain(m.text), Some(id));
    } else {
      FinishAdds(s.(error := Some(InvalidSignature)), p.msg, p.mid, InvalidSignatureWarning,
                 Some(Ident(FpOf(m.pk), Some(m.nick), m.pk, Invalid)));
    }
  }

  lemma OthersShow(w: World, s: Store, p: Pending, key: Key)
    requires Holds(p) && !p.Decrypting? && !p.Verifying? && !p.VerifyingNick? && Knows(w, s.channelId, p, key)
    ensures NewShow(w, s, Resume(w, s, p).0, p.msg, key)
    ensures var q := Resume(w, s, p).1; q.Some? && !q.value.VerifyingNick? ==> Knows(w, s.channelId, q.value, key)
  {
    hide Decrypt, ParseNewKey, ParseRoomName, ParseNick, ImportKey, Added, IsValidEnvelope, ExtractMessageId,
      ValidChannelId;
  }

  lemma ResumeShows(w: World, s: Store, p: Pending, key: Key)
    requires Holds(p) && !p.VerifyingNick? && Knows(w, s.channelId, p, key)
    ensures NewShow(w, s, Resume(w, s, p).0, p.msg, key)
    ensures var q := Resume(w, s, p).1; q.Some? && !q.value.VerifyingNick? ==> Knows(w, s.channelId, q.value, key)
  {
    hide ResumeDecrypting, ResumeVerifying, Decrypt, NewShow, ResumeImportingKey, ResumeUnwrappingKey,
      ResumeUnwrappingName, ResumeUnwrappingNick, Holds;
    if p.Decrypting? {
      DecryptingShows(w, s, p);
    } else if p.Verifying? {
      VerifyingShows(w, s, p, key);
    } else {
      OthersShow(w, s, p, key);
    }
  }

  lemma StartShows(w: World, s: Store, msg: ServerMsg)
    ensures NewShow(w, s, Start(s, msg).0, msg, s.crypto)
    ensures Start(s, msg).1.Some? ==> Knows(w, s.channelId, Start(s, msg).1.value, s.crypto)
  {
    hide IsValidEnvelope, ExtractMessageId, Recent, Decrypt;
  }

  lemma NewEntriesBacked(w: World, s: Store, s': Store, msg: ServerMsg, key: Key, past: Past)
    requires NewShow(w, s, s', msg, key) && msg in past.frames && key in past.keys
    requires forall e | e in s.messages :: Backed(w, s.channelId, e, past)
    ensures forall e | e in s'.messages :: Backed(w, s'.channelId, e, past)
  {
    hide Shows;
  }

  lemma NextBacked(w: World, sys: Sys, past: Past, e: Event)
    requires TimelineBacked(w, sys, past)
    ensures TimelineBacked(w, Next(w, sys, e), Later(w, sys, past, e))
  {
    hide Shows, Knows, Holds;
    var s, sys', past' := sys.store, Next(w, sys, e), Later(w, sys, past, e);
    forall x | x in s.messages ensures Backed(w, s.channelId, x, past') {
      BackedLater(w, s.channelId, x, past, past');
    }
    forall p | p in sys.pending ensures PendingBacked(w, s.channelId, p, past') && Holds(p) {
      PendingLater(w, s.channelId, p, past, past');
    }
    NextHolds(w, sys, e);
    match e
    case Install(key) =>
    case Arrive(msg) =>
      StartShows(w, s, msg);
      StartEffect(s, msg);
      hide Start;
      NewEntriesBacked(w, s, sys'.store, msg, s.crypto, past');
      ArrivedPending(w, sys, past', msg);
    case Continue(i) =>
      if i < |sys.pending| {
        var p := sys.pending[i];
        assert p in sys.pending;
        if p.VerifyingNick? {
          NickShowsNothing(w, s, p);
          hide Resume;
          ContinuedPending(w, sys, past', i);
        } else {
          var key :| key in past.keys && Knows(w, s.channelId, p, key);
          ResumeShows(w, s, p, key);
          ResumeEffect(w, s, p);
          hide Resume, TakesIn, LogAfter, KeyInstalled;
          NewEntriesBacked(w, s, sys'.store, p.msg, key, past');
          ContinuedPending(w, sys, past', i);
        }
      }
  }

  lemma NickShowsNothing(w: World, s: Store, p: Pending)
    requires p.VerifyingNick?
    ensures var (s', q) := Resume(w, s, p); s'.messages == s.messages && s'.channelId == s.channelId && q.None?
  {
    hide VerifySignedNick, FpOf;
  }

  lemma ArrivedPending(w: World, sys: Sys, past: Past, msg: ServerMsg)
    requires AllTyped(sys.pending) && msg in past.frames && sys.store.crypto in past.keys
    requires forall p | p in sys.pending :: PendingBacked(w, sys.store.channelId, p, past)
    requires forall p | p in Next(w, sys, Arrive(msg)).pending :: Holds(p)
    ensures forall p | p in Next(w, sys, Arrive(msg)).pending :: PendingBacked(w, sys.store.channelId, p, past)
  {
    StartShows(w, sys.store, msg);
    StartEffect(sys.store, msg);
    hide Start, Knows, Holds;
    forall p | p in Next(w, sys, Arrive(msg)).pending ensures PendingBacked(w, sys.store.channelId, p, past) {
      assert p in sys.pending || Some(p) == Start(sys.store, msg).1;
    }
  }

  /** A handler that goes on knows what it has read so far. */
  lemma GoesOnBacked(w: World, s: Store, p: Pending, past: Past)
    requires PendingBacked(w, s.channelId, p, past)
    ensures var q := Resume(w, s, p).1;
            q.Some? && Holds(q.value) ==> PendingBacked(w, s.channelId, q.value, past)
  {
    var q := Resume(w, s, p).1;
    ResumeEffect(w, s, p);
    if p.VerifyingNick? {
      NickShowsNothing(w, s, p);
    } else {
      hide Resume, Knows, Holds, TakesIn, LogAfter, KeyInstalled, NewShow;
      var key :| key in past.keys && Knows(w, s.channelId, p, key);
      ResumeShows(w, s, p, key);
    }
  }

  lemma ContinuedPending(w: World, sys: Sys, past: Past, i: nat)
    requires AllTyped(sys.pending) && i < |sys.pending|
    requires forall p | p in sys.pending :: PendingBacked(w, sys.store.channelId, p, past)
    requires forall p | p in Next(w, sys, Continue(i)).pending :: Holds(p)
    ensures forall p | p in Next(w, sys, Continue(i)).pending :: PendingBacked(w, sys.store.channelId, p, past)
  {
    hide Resume, PendingBacked, Holds;
    var p := sys.pending[i];
    assert p in sys.pending;
    GoesOnBacked(w, sys.store, p, past);
    forall r | r in Next(w, sys, Continue(i)).pending ensures PendingBacked(w, sys.store.channelId, r, past) {
      assert r in sys.pending || Some(r) == Resume(w, sys.store, p).1;
    }
  }

  /** In every run every entry of the timeline shows a frame that has arrived, opened
      under a key that was in place. */
  lemma {:induction false} RunBacked(w: World, sys: Sys, past: Past, es: seq<Event>)
    requires TimelineBacked(w, sys, past)
    ensures TimelineBacked(w, Run(w, sys, es), PastOf(w, sys, past, es))
    decreases |es|
  {
    if es != [] {
      NextBacked(w, sys, past, es[0]);
      hide TimelineBacked, Next, Later;
      RunBacked(w, Next(w, sys, es[0]), Later(w, sys, past, es[0]), es[1..]);
    }
  }

  function Fresh(channelId: JsString, key: Key): Sys { Sys(NewStore(channelId, key), []) }

  /** The frames that arrive in a run of a fresh store, and the keys that are in place. */
  function PastOfFresh(w: World, channelId: JsString, key: Key, es: seq<Event>): Past
  {
    PastOf(w, Fresh(channelId, key), Past({}, {key}), es)
  }

  lemma FreshBacked(w: World, channelId: JsString, key: Key, es: seq<Event>)
    ensures forall e | e in Run(w, Fresh(channelId, key), es).store.messages ::
              Backed(w, channelId, e, PastOfFresh(w, channelId, key, es))
  {
    hide Shows, Run, PastOf, Knows;
    RunBacked(w, Fresh(channelId, key), Past({}, {key}), es);
    RunRoom(w, Fresh(channelId, key), es);
  }

  lemma {:induction false} RunRoom(w: World, sys: Sys, es: seq<Event>)
    requires AllTyped(sys.pending) && Spaced(sys.store.log, CACHE_MAX)
    ensures Run(w, sys, es).store.channelId == sys.store.channelId
    decreases |es|
  {
    hide Spaced, Run;
    RunLog(w, sys, es);
  }

  /** A claim whose signature did not verify, or is of the old version, never gets its text
      shown: in every run of a fresh store a bubble marked invalid holds a warning. */
  lemma InvalidClaimsShowNoText(w: World, channelId: JsString, key: Key, es: seq<Event>, e: Entry)
    requires e in Run(w, Fresh(channelId, key), es).store.messages && HasStatus(e, Invalid)
    ensures e.content == InvalidSignatureWarning || e.content == StaleSignatureWarning
  {
    hide Run, PastOf, Claims;
    FreshBacked(w, channelId, key, es);
  }

  /** Text shown under an identity is signed: in every run of a fresh store such a bubble
      comes from a frame that arrived, whose plaintext claims this text, nickname and key,
      and the signature of the claim covers the room and the frame's message id, too. */
  lemma SignedTextIsSigned(w: World, channelId: JsString, key: Key, es: seq<Event>, e: Entry, text: JsString)
    returns (msg: ServerMsg, k: Key, m: Signed)
    requires e in Run(w, Fresh(channelId, key), es).store.messages
    requires e.Chat? && e.content == Plain(text) && e.ident.Some?
    ensures var past := PastOfFresh(w, channelId, key, es); msg in past.frames && k in past.keys
    ensures msg.Message? && msg == Message(e.channelId, msg.payload, e.from, e.self) && IsValidEnvelope(msg.payload)
    ensures var plain := Decrypt(w.seals, k, channelId, msg.payload);
            plain.Some? && ParseSigned(w.json, plain.value) == Some(m)
    ensures m.text == text && Some(m.nick) == e.ident.value.nick && m.pk == e.ident.value.pk
    ensures |m.pk| >= 10 && e.ident.value.fp == m.pk[..10]
    ensures VerifySignedMessage(w.sigs, channelId, MidString(msg.payload), m)
  {
    hide Run, PastOf, ParseSigned, VerifySignedMessage, Decrypt, IsValidEnvelope;
    FreshBacked(w, channelId, key, es);
    var past := PastOfFresh(w, channelId, key, es);
    msg, k :| msg in past.frames && k in past.keys && Shows(w, channelId, e, msg, k);
    var plain := Decrypt(w.seals, k, channelId, msg.payload).value;
    var sig :| Claims(w, channelId, msg.payload, plain, Signed(text, e.ident.value.nick.value, e.ident.value.pk, sig),
                      true);
    m := Signed(text, e.ident.value.nick.value, e.ident.value.pk, sig);
  }

  /** Text shown without an identity is the untagged plaintext of a frame that arrived. */
  lemma RawTextIsPlaintext(w: World, channelId: JsString, key: Key, es: seq<Event>, e: Entry, text: JsString)
    returns (msg: ServerMsg, k: Key)
    requires e in Run(w, Fresh(channelId, key), es).store.messages
    requires e.Chat? && e.content == Plain(text) && e.ident.None?
    ensures var past := PastOfFresh(w, channelId, key, es); msg in past.frames && k in past.keys
    ensures msg.Message? && msg == Message(e.channelId, msg.payload, e.from, e.self) && IsValidEnvelope(msg.payload)
    ensures Decrypt(w.seals, k, channelId, msg.payload) == Some(text) && Untagged(w.json, text)
  {
    hide Run, PastOf, Untagged, Decrypt, IsValidEnvelope, Claims;
    FreshBacked(w, channelId, key, es);
    var past := PastOfFresh(w, channelId, key, es);
    msg, k :| msg in past.frames && k in past.keys && Shows(w, channelId, e, msg, k);
  }

  // ---- impostors ----

  /** A bubble shown as a conflict has another fingerprint than the pin of its nickname. */
  ghost predicate ConflictsDiffer(s: Store)
  {
    forall e | e in s.messages && HasStatus(e, Conflict) ::
      var id := e.ident.value;
      id.nick.Some? && id.nick.value in s.nickToFp && s.nickToFp[id.nick.value] != id.fp
  }

  lemma FinishConflicts(s: Store, msg: ServerMsg, mid: Option<Id>, content: Content, ident: Option<Ident>)
    requires msg.Message? && ConflictsDiffer(s)
    requires ident.Some? && ident.value.status != Invalid ==> ident.value.nick.Some?
    requires ident.Some? && ident.value.status == Conflict ==>
               ident.value.nick.value in s.nickToFp && s.nickToFp[ident.value.nick.value] != ident.value.fp
    ensures ConflictsDiffer(Finish(s, msg, mid, content, ident))
  {
    FinishAdds(s, msg, mid, content, ident);
    FinishKeepsPins(s, msg, mid, content, ident);
    hide Finish;
  }

  lemma RecordConflicts(s: Store, nick: JsString, pk: JsString)
    requires ConflictsDiffer(s) && forall n | n in s.nickToFp :: s.nickToFp[n] != []
    ensures var (s', id) := RecordIdentity(s, nick, pk);
            && ConflictsDiffer(s') && id.nick == Some(nick)
            && (id.status == Conflict ==> nick in s'.nickToFp && s'.nickToFp[nick] != id.fp)
  {
    hide FpOf;
  }

  lemma ResumeConflicts(w: World, s: Store, p: Pending)
    requires p.Typed() && ConflictsDiffer(s) && forall n | n in s.nickToFp :: s.nickToFp[n] != []
    ensures ConflictsDiffer(Resume(w, s, p).0)
  {
    hide Decrypt, ParseSigned, StalePk, IsUnknownStructured, ParseNick, ParseRoomName, ParseNewKey, ImportKey, FpOf,
      VerifySignedMessage, VerifySignedNick, Finish, Added, ValidChannelId;
    if p.Decrypting? {
      var plain := Decrypt(w.seals, p.key, s.channelId, p.msg.payload);
      FinishConflicts(s.(error := Some(DecryptFailed)), p.msg, p.mid, DecryptFailedWarning, None);
      if plain.Some? {
        var stale := StalePk(w.json, plain.value);
        FinishConflicts(s, p.msg, p.mid, Plain(plain.value), None);
        if stale.Some? {
          FinishConflicts(s.(error := Some(StaleSignature)), p.msg, p.mid, StaleSignatureWarning,
                          Some(Ident(FpOf(stale.value), None, stale.value, Invalid)));
        }
      }
    } else if p.Verifying? {
      var m := p.signed;
      RecordConflicts(s, m.nick, m.pk);
      var (s1, id) := RecordIdentity(s, m.nick, m.pk);
      FinishConflicts(s1, p.msg, p.mid, Plain(m.text), Some(id));
      FinishConflicts(s.(error := Some(InvalidSignature)), p.msg, p.mid, InvalidSignatureWarning,
                      Some(Ident(FpOf(m.pk), Some(m.nick), m.pk, Invalid)));
    } else if p.VerifyingNick? {
      RecordConflicts(s, p.nick, p.pk);
    }
  }

  lemma NextConflicts(w: World, sys: Sys, e: Event)
    requires AllTyped(sys.pending) && ConflictsDiffer(sys.store) && Tofu(w, sys.store)
    ensures ConflictsDiffer(Next(w, sys, e).store)
  {
    hide IsValidEnvelope, ExtractMessageId, Recent, Attested, Announced, EntryOk, Warnings;
    if e.Continue? && e.i < |sys.pending| {
      ResumeConflicts(w, sys.store, sys.pending[e.i]);
      hide Resume;
    }
  }

  lemma {:induction false} RunConflicts(w: World, sys: Sys, es: seq<Event>)
    requires AllTyped(sys.pending) && ConflictsDiffer(sys.store) && Tofu(w, sys.store)
    ensures ConflictsDiffer(Run(w, sys, es).store)
    decreases |es|
  {
    if es != [] {
      NextConflicts(w, sys, es[0]);
      NextKeepsTofu(w, sys, es[0]);
      hide Tofu, Next, ConflictsDiffer;
      RunConflicts(w, Next(w, sys, es[0]), es[1..]);
    }
  }

  /** Impostors are flagged, and nobody else is: in every run of a fresh store, of two
      bubbles shown under one nickname with signatures that hold, the first marked
      verified, the second is marked verified, too, if and only if their public keys agree
      in their first ten characters, and in conflict otherwise. */
  lemma ImpostorsFlagged(w: World, channelId: JsString, key: Key, es: seq<Event>, i: nat, j: nat)
    requires var m := Run(w, Fresh(channelId, key), es).store.messages;
             i < |m| && j < |m| && HasStatus(m[i], Verified) && (HasStatus(m[j], Verified) || HasStatus(m[j], Conflict))
             && m[i].ident.value.nick == m[j].ident.value.nick
    ensures var m := Run(w, Fresh(channelId, key), es).store.messages;
            var pk, pk' := m[i].ident.value.pk, m[j].ident.value.pk;
            |pk| >= 10 && |pk'| >= 10 && (HasStatus(m[j], Verified) <==> pk[..10] == pk'[..10])
  {
    hide Run, PastOf, Attested, Announced, Warnings, Claims;
    var s := Run(w, Fresh(channelId, key), es).store;
    NewStoreTofu(w, channelId, key);
    RunKeepsTofu(w, Fresh(channelId, key), es);
    RunConflicts(w, Fresh(channelId, key), es);
    FreshBacked(w, channelId, key, es);
    var a, b := s.messages[i], s.messages[j];
    assert a in s.messages && b in s.messages;
    IdentHasPrefix(w, channelId, a, PastOfFresh(w, channelId, key, es));
    IdentHasPrefix(w, channelId, b, PastOfFresh(w, channelId, key, es));
    hide Backed;
  }

  lemma IdentHasPrefix(w: World, channelId: JsString, e: Entry, past: Past)
    requires Backed(w, channelId, e, past) && e.Chat? && e.ident.Some?
    ensures IsFp(e.ident.value.fp, e.ident.value.pk)
  {
    hide Claims;
  }

  // ---- one connection, one fingerprint ----

  predicate Identified(e: Entry) { HasStatus(e, Verified) || HasStatus(e, Conflict) }

  /** The fingerprint of the first identified bubble from a connection. */
  function FirstFp(ms: seq<Entry>, from: JsString): Option<JsString>
  {
    if ms == [] then None
    else
      var e, before := ms[|ms| - 1], FirstFp(ms[..|ms| - 1], from);
      if before.None? && Identified(e) && e.from == from then Some(e.ident.value.fp) else before
  }

  lemma FirstFpAppend(ms: seq<Entry>, e: Entry, from: JsString)
    ensures FirstFp(ms + [e], from)
         == var before := FirstFp(ms, from);
            if before.None? && Identified(e) && e.from == from then Some(e.ident.value.fp) else before
  {
    assert (ms + [e])[..|ms|] == ms;
  }

  /** What is noted for a connection is its first fingerprint. */
  ghost predicate NotesFirst(s: Store)
  {
    && (forall c | c in s.fpByConn :: s.fpByConn[c] != [])
    && forall c: JsString :: FirstFp(s.messages, c) == (if c in s.fpByConn then Some(s.fpByConn[c]) else None)
  }

  lemma PlainAppendNotes(s: Store, s': Store, e: Entry)
    requires NotesFirst(s) && s'.messages == s.messages + [e] && s'.fpByConn == s.fpByConn && !Identified(e)
    ensures NotesFirst(s')
  {
    forall c: JsString ensures FirstFp(s'.messages, c) == FirstFp(s.messages, c) {
      FirstFpAppend(s.messages, e, c);
    }
    hide FirstFp;
  }

  lemma SameNotes(s: Store, s': Store)
    requires NotesFirst(s) && s'.messages == s.messages && s'.fpByConn == s.fpByConn
    ensures NotesFirst(s')
  {
  }

  lemma BubbleNotes(s: Store, s': Store, chat: Entry)
    requires NotesFirst(s) && Identified(chat) && chat.ident.value.fp != []
    requires s'.messages == s.messages + [chat]
    requires s'.fpByConn == NoteConnection(s, chat.from, chat.ident.value.fp).fpByConn
    ensures NotesFirst(s')
  {
    hide FirstFp;
    forall c: JsString
      ensures FirstFp(s'.messages, c) == if c in s'.fpByConn then Some(s'.fpByConn[c]) else None
    {
      FirstFpAppend(s.messages, chat, c);
    }
  }

  /** What a handler with an identity leaves behind: a bubble, and a notice perhaps. */
  lemma FinishIdentified(s: Store, msg: ServerMsg, mid: Option<Id>, content: Content, id: Ident)
    requires msg.Message? && id.nick.Some? && id.status != Invalid
    ensures var s' := Finish(s, msg, mid, content, Some(id));
            var ms := s.messages + [Chat(msg.channelId, content, msg.from, msg.self, Some(id))];
            && (s'.messages == ms
                || s'.messages == ms + [ConflictNotice(msg.channelId, msg.from, id.nick.value, id.fp)])
            && s'.fpByConn == NoteConnection(s, msg.from, id.fp).fpByConn
            && (msg.from in s.fpByConn && s.fpByConn[msg.from] != [] && s.fpByConn[msg.from] != id.fp ==>
                  s'.error == Some(IdentityMismatch))
  {
    hide ConflictKey, Added;
  }

  /** A bubble with an identity goes in: the first fingerprint of its connection is noted,
      and a later one that differs raises the alarm. */
  lemma FinishNotes(s: Store, msg: ServerMsg, mid: Option<Id>, content: Content, id: Ident)
    requires msg.Message? && NotesFirst(s) && id.nick.Some? && id.status != Invalid && id.fp != []
    ensures var s' := Finish(s, msg, mid, content, Some(id));
            && NotesFirst(s')
            && var first := FirstFp(s.messages, msg.from);
            first.Some? && first.value != id.fp ==> s'.error == Some(IdentityMismatch)
  {
    FinishIdentified(s, msg, mid, content, id);
    var s' := Finish(s, msg, mid, content, Some(id));
    var chat := Chat(msg.channelId, content, msg.from, msg.self, Some(id));
    var s1 := s'.(messages := s.messages + [chat]);
    hide Finish, FirstFp;
    BubbleNotes(s, s1, chat);
    assert FirstFp(s.messages, msg.from) == if msg.from in s.fpByConn then Some(s.fpByConn[msg.from]) else None;
    hide NotesFirst, NoteConnection;
    if s'.messages == s1.messages {
      SameNotes(s1, s');
    } else {
      PlainAppendNotes(s1, s', ConflictNotice(msg.channelId, msg.from, id.nick.value, id.fp));
    }
  }

  lemma FinishPlainNotes(s: Store, msg: ServerMsg, mid: Option<Id>, content: Content, ident: Option<Ident>)
    requires msg.Message? && NotesFirst(s) && (ident.Some? ==> ident.value.status == Invalid)
    ensures NotesFirst(Finish(s, msg, mid, content, ident))
  {
    hide Added, NotesFirst;
    PlainAppendNotes(s, Finish(s, msg, mid, content, ident), Chat(msg.channelId, content, msg.from, msg.self, ident));
  }

  lemma VerifyingNotes(w: World, s: Store, p: Pending)
    requires p.Typed() && p.Verifying? && NotesFirst(s)
    ensures NotesFirst(ResumeVerifying(w, s, p))
    ensures var first := FirstFp(s.messages, p.msg.from);
            ClaimVerifies(w, s, p) && first.Some? && (|p.signed.pk| < 10 || first.value != p.signed.pk[..10]) ==>
              ResumeVerifying(w, s, p).error == Some(IdentityMismatch)
  {
    hide VerifySignedMessage, Finish, FpOf;
    var m := p.signed;
    if ClaimVerifies(w, s, p) {
      VerifiedKey(w.sigs, s.channelId, if p.mid.Some? then p.mid.value else [], m);
      var (s1, id) := RecordIdentity(s, m.nick, m.pk);
      SameNotes(s, s1);
      hide NotesFirst;
      FinishNotes(s1, p.msg, p.mid, Plain(m.text), id);
    } else {
      SameNotes(s, s.(error := Some(InvalidSignature)));
      FinishPlainNotes(s.(error := Some(InvalidSignature)), p.msg, p.mid, InvalidSignatureWarning,
                       Some(Ident(FpOf(m.pk), Some(m.nick), m.pk, Invalid)));
    }
  }

  lemma VerifiedKey(sigs: Signatures, c: JsString, mid: JsString, m: Signed)
    requires VerifySignedMessage(sigs, c, mid, m)
    ensures IsRoomKeyB64(m.pk) && |m.pk| >= 10 && FpOf(m.pk) == m.pk[..10]
  {
  }

  lemma ResumeNotes(w: World, s: Store, p: Pending)
    requires p.Typed() && NotesFirst(s)
    ensures NotesFirst(Resume(w, s, p).0)
  {
    hide Decrypt, ParseSigned, StalePk, IsUnknownStructured, ParseNick, ParseRoomName, ParseNewKey, ImportKey, FpOf,
      VerifySignedNick, Finish, Added, ValidChannelId, ResumeVerifying, NotesFirst;
    var s' := Resume(w, s, p).0;
    if p.Decrypting? {
      var plain := Decrypt(w.seals, p.key, s.channelId, p.msg.payload);
      SameNotes(s, s.(error := Some(DecryptFailed)));
      SameNotes(s, s.(error := Some(StaleSignature)));
      SameNotes(s, Remember(s, p.mid));
      FinishPlainNotes(s.(error := Some(DecryptFailed)), p.msg, p.mid, DecryptFailedWarning, None);
      if plain.Some? {
        var stale := StalePk(w.json, plain.value);
        FinishPlainNotes(s, p.msg, p.mid, Plain(plain.value), None);
        if stale.Some? {
          FinishPlainNotes(s.(error := Some(StaleSignature)), p.msg, p.mid, StaleSignatureWarning,
                           Some(Ident(FpOf(stale.value), None, stale.value, Invalid)));
        }
      }
    } else if p.Verifying? {
      VerifyingNotes(w, s, p);
    } else if s'.messages == s.messages {
      SameNotes(s, s');
    } else {
      PlainAppendNotes(s, s', s'.messages[|s.messages|]);
    }
  }

  lemma NextNotes(w: World, sys: Sys, e: Event)
    requires AllTyped(sys.pending) && NotesFirst(sys.store)
    ensures NotesFirst(Next(w, sys, e).store)
  {
    hide IsValidEnvelope, ExtractMessageId, Recent, NotesFirst, Resume;
    var s, s' := sys.store, Next(w, sys, e).store;
    if e.Continue? && e.i < |sys.pending| {
      ResumeNotes(w, s, sys.pending[e.i]);
    } else if s'.messages == s.messages {
      SameNotes(s, s');
    } else {
      PlainAppendNotes(s, s', s'.messages[|s.messages|]);
    }
  }

  /** In every run what is noted for a connection is the fingerprint of its first
      identified bubble, whatever comes later. */
  lemma {:induction false} RunNotesFirst(w: World, sys: Sys, es: seq<Event>)
    requires AllTyped(sys.pending) && NotesFirst(sys.store)
    ensures NotesFirst(Run(w, sys, es).store)
    decreases |es|
  {
    if es != [] {
      NextNotes(w, sys, es[0]);
      hide NotesFirst, Next;
      RunNotesFirst(w, Next(w, sys, es[0]), es[1..]);
    }
  }

  /** One connection that shows two identities raises the alarm: after every run of a fresh
      store, when a claim verifies that comes over a connection whose first identified
      bubble had another fingerprint, the banner says so. */
  lemma MismatchIsReported(w: World, channelId: JsString, key: Key, es: seq<Event>, i: nat)
    requires var sys := Run(w, Fresh(channelId, key), es);
             && i < |sys.pending| && sys.pending[i].Verifying? && sys.pending[i].Typed()
             && ClaimVerifies(w, sys.store, sys.pending[i])
             && var first := FirstFp(sys.store.messages, sys.pending[i].msg.from);
             first.Some? && (|sys.pending[i].signed.pk| < 10 || first.value != sys.pending[i].signed.pk[..10])
    ensures Next(w, Run(w, Fresh(channelId, key), es), Continue(i)).store.error == Some(IdentityMismatch)
  {
    hide Run, VerifySignedMessage, ResumeVerifying;
    RunNotesFirst(w, Fresh(channelId, key), es);
    var sys := Run(w, Fresh(channelId, key), es);
    VerifyingNotes(w, sys.store, sys.pending[i]);
  }

  // ---- nothing is swallowed ----

  function BubbleCount(ms: seq<Entry>): nat
  {
    if ms == [] then 0 else BubbleCount(ms[..|ms| - 1]) + (if ms[|ms| - 1].Chat? then 1 else 0)
  }

  lemma BubbleCountAppend(ms: seq<Entry>, e: Entry)
    ensures BubbleCount(ms + [e]) == BubbleCount(ms) + (if e.Chat? then 1 else 0)
  {
    assert (ms + [e])[..|ms|] == ms;
  }

  /** How many bubbles an event owes: one for a message frame that is no valid envelope and
      one for each message handler that ends, except on an unknown structured payload. */
  function Owed(w: World, sys: Sys, e: Event): nat
    requires AllTyped(sys.pending)
  {
    match e
    case Install(_) => 0
    case Arrive(msg) => if msg.Message? && !IsValidEnvelope(msg.payload) then 1 else 0
    case Continue(i) =>
      if i >= |sys.pending| then 0
      else
        var p := sys.pending[i];
        if p.Verifying? then 1
        else if !p.Decrypting? then 0
        else
          var plain := Plaintext(w, sys.store, p);
          if plain.None? then 1
          else if ParseSigned(w.json, plain.value).Some? then 0
          else if StalePk(w.json, plain.value).Some? then 1
          else if IsUnknownStructured(w.json, plain.value) then 0 else 1
  }

  lemma FinishOwes(s: Store, msg: ServerMsg, mid: Option<Id>, content: Content, ident: Option<Ident>)
    requires msg.Message?
    requires ident.Some? && ident.value.status != Invalid ==> ident.value.nick.Some?
    ensures BubbleCount(Finish(s, msg, mid, content, ident).messages) == BubbleCount(s.messages) + 1
  {
    hide ConflictKey, Added, BubbleCount;
    var chat := Chat(msg.channelId, content, msg.from, msg.self, ident);
    BubbleCountAppend(s.messages, chat);
    if ident.Some? && ident.value.nick.Some? {
      BubbleCountAppend(s.messages + [chat],
                        ConflictNotice(msg.channelId, msg.from, ident.value.nick.value, ident.value.fp));
    }
  }

  lemma DecryptingOwes(w: World, s: Store, p: Pending)
    requires p.Typed() && p.Decrypting?
    ensures BubbleCount(Resume(w, s, p).0.messages)
         == BubbleCount(s.messages) + Owed(w, Sys(s, [p]), Continue(0))
  {
    hide Decrypt, ParseSigned, StalePk, IsUnknownStructured, FpOf, Finish, Added, BubbleCount;
    var plain := Plaintext(w, s, p);
    FinishOwes(s.(error := Some(DecryptFailed)), p.msg, p.mid, DecryptFailedWarning, None);
    if plain.Some? {
      var stale := StalePk(w.json, plain.value);
      FinishOwes(s, p.msg, p.mid, Plain(plain.value), None);
      if stale.Some? {
        FinishOwes(s.(error := Some(StaleSignature)), p.msg, p.mid, StaleSignatureWarning,
                   Some(Ident(FpOf(stale.value), None, stale.value, Invalid)));
      }
    }
  }

  lemma VerifyingOwes(w: World, s: Store, p: Pending)
    requires p.Typed() && p.Verifying?
    ensures BubbleCount(Resume(w, s, p).0.messages) == BubbleCount(s.messages) + 1
  {
    hide VerifySignedMessage, FpOf, Finish, BubbleCount;
    var m := p.signed;
    var (s1, id) := RecordIdentity(s, m.nick, m.pk);
    FinishOwes(s1, p.msg, p.mid, Plain(m.text), Some(id));
    FinishOwes(s.(error := Some(InvalidSignature)), p.msg, p.mid, InvalidSignatureWarning,
               Some(Ident(FpOf(m.pk), Some(m.nick), m.pk, Invalid)));
  }

  lemma OthersOwe(w: World, s: Store, p: Pending)
    requires p.Typed() && !p.Decrypting? && !p.Verifying?
    ensures BubbleCount(Resume(w, s, p).0.messages) == BubbleCount(s.messages)
  {
    hide Decrypt, ParseNewKey, ParseRoomName, ParseNick, ImportKey, Added, ValidChannelId, VerifySignedNick, FpOf,
      BubbleCount;
    var s' := Resume(w, s, p).0;
    if s'.messages != s.messages { BubbleCountAppend(s.messages, s'.messages[|s.messages|]); }
  }

  /** No message is swallowed and none is shown twice: each event adds exactly the bubbles
      it owes. */
  lemma BubblesAreOwed(w: World, sys: Sys, e: Event)
    requires AllTyped(sys.pending)
    ensures BubbleCount(Next(w, sys, e).store.messages) == BubbleCount(sys.store.messages) + Owed(w, sys, e)
  {
    hide BubbleCount, Resume, IsValidEnvelope, ExtractMessageId, Recent;
    var s := sys.store;
    if e.Continue? && e.i < |sys.pending| {
      var p := sys.pending[e.i];
      if p.Decrypting? {
        DecryptingOwes(w, s, p);
      } else if p.Verifying? {
        VerifyingOwes(w, s, p);
      } else {
        OthersOwe(w, s, p);
      }
    } else if e.Arrive? && e.msg.Message? {
      BubbleCountAppend(s.messages, Chat(e.msg.channelId, InvalidEnvelopeWarning, e.msg.from, e.msg.self, None));
    }
  }

  /** Bubbles owed over a run. */
  function OwedBy(w: World, sys: Sys, es: seq<Event>): nat
    requires AllTyped(sys.pending)
    decreases |es|
  {
    if es == [] then 0 else Owed(w, sys, es[0]) + OwedBy(w, Next(w, sys, es[0]), es[1..])
  }

  lemma {:induction false} RunPaysBubbles(w: World, sys: Sys, es: seq<Event>)
    requires AllTyped(sys.pending)
    ensures BubbleCount(Run(w, sys, es).store.messages) == BubbleCount(sys.store.messages) + OwedBy(w, sys, es)
    decreases |es|
  {
    if es != [] {
      BubblesAreOwed(w, sys, es[0]);
      hide BubbleCount, Next, Owed;
      RunPaysBubbles(w, Next(w, sys, es[0]), es[1..]);
    }
  }

  // ---- warnings and the member count ----

  /** A warning bubble comes with its banner. */
  predicate BannerFits(content: Content, error: Option<StoreError>)
  {
    match content
    case InvalidEnvelopeWarning => error == Some(InvalidEnvelope)
    case DecryptFailedWarning => error == Some(DecryptFailed)
    case InvalidSignatureWarning => error == Some(InvalidSignature)
    case StaleSignatureWarning => error == Some(StaleSignature)
    case Plain(_) => true
  }

  /** What else a message handler changes when it ends. */
  lemma FinishRest(s: Store, msg: ServerMsg, mid: Option<Id>, content: Content, ident: Option<Ident>)
    requires msg.Message?
    requires ident.Some? && ident.value.status != Invalid ==> ident.value.nick.Some?
    ensures var s' := Finish(s, msg, mid, content, ident);
            && s'.online == s.online
            && (ident.None? || ident.value.status == Invalid ==> s'.error == s.error)
            && s.messages <= s'.messages
            && forall k | |s.messages| <= k < |s'.messages| && s'.messages[k].Chat? :: s'.messages[k].content == content
  {
    hide ConflictKey, Added;
  }

  lemma DecryptingRest(w: World, s: Store, p: Pending)
    requires p.Typed() && p.Decrypting?
    ensures var s' := ResumeDecrypting(w, s, p).0;
            && s'.online == s.online
            && forall k | |s.messages| <= k < |s'.messages| && s'.messages[k].Chat? ::
                 BannerFits(s'.messages[k].content, s'.error)
  {
    hide Decrypt, ParseSigned, StalePk, IsUnknownStructured, FpOf, Finish, Added;
    var plain := Decrypt(w.seals, p.key, s.channelId, p.msg.payload);
    FinishRest(s.(error := Some(DecryptFailed)), p.msg, p.mid, DecryptFailedWarning, None);
    if plain.Some? {
      var stale := StalePk(w.json, plain.value);
      FinishRest(s, p.msg, p.mid, Plain(plain.value), None);
      if stale.Some? {
        FinishRest(s.(error := Some(StaleSignature)), p.msg, p.mid, StaleSignatureWarning,
                   Some(Ident(FpOf(stale.value), None, stale.value, Invalid)));
      }
    }
  }

  lemma VerifyingRest(w: World, s: Store, p: Pending)
    requires p.Typed() && p.Verifying?
    ensures var s' := ResumeVerifying(w, s, p);
            && s'.online == s.online
            && forall k | |s.messages| <= k < |s'.messages| && s'.messages[k].Chat? ::
                 BannerFits(s'.messages[k].content, s'.error)
  {
    hide VerifySignedMessage, FpOf, Finish;
    var m := p.signed;
    var (s1, id) := RecordIdentity(s, m.nick, m.pk);
    FinishRest(s1, p.msg, p.mid, Plain(m.text), Some(id));
    FinishRest(s.(error := Some(InvalidSignature)), p.msg, p.mid, InvalidSignatureWarning,
               Some(Ident(FpOf(m.pk), Some(m.nick), m.pk, Invalid)));
  }

  lemma OtherRest(w: World, s: Store, p: Pending)
    requires p.Typed() && !p.Decrypting? && !p.Verifying?
    ensures var s' := Resume(w, s, p).0;
            && s'.online == s.online
            && forall k | |s.messages| <= k < |s'.messages| :: !s'.messages[k].Chat?
  {
    hide Decrypt, ParseNewKey, ParseRoomName, ParseNick, ImportKey, Added, ValidChannelId, VerifySignedNick, FpOf;
  }

  lemma ResumeRest(w: World, s: Store, p: Pending)
    requires p.Typed()
    ensures var s' := Resume(w, s, p).0;
            && s'.online == s.online
            && forall k | |s.messages| <= k < |s'.messages| && s'.messages[k].Chat? ::
                 BannerFits(s'.messages[k].content, s'.error)
  {
    if p.Decrypting? {
      DecryptingRest(w, s, p);
    } else if p.Verifying? {
      VerifyingRest(w, s, p);
    } else {
      OtherRest(w, s, p);
    }
    hide ResumeDecrypting, ResumeVerifying, ResumeUnwrappingKey, ResumeImportingKey, ResumeUnwrappingName,
      ResumeUnwrappingNick, ResumeVerifyingNick, BannerFits;
  }

  lemma WarningsHaveBanners(w: World, sys: Sys, e: Event, k: nat)
    requires AllTyped(sys.pending)
    requires var ms := Next(w, sys, e).store.messages;
             |sys.store.messages| <= k < |ms| && ms[k].Chat?
    ensures BannerFits(Next(w, sys, e).store.messages[k].content, Next(w, sys, e).store.error)
  {
    hide IsValidEnvelope, ExtractMessageId, Recent, Resume;
    if e.Continue? && e.i < |sys.pending| { ResumeRest(w, sys.store, sys.pending[e.i]); }
  }

  function LastCount(es: seq<Event>, before: int): int
  {
    if es == [] then before
    else
      var e := es[|es| - 1];
      if e.Arrive? && e.msg.Joined? then e.msg.online
      else if e.Arrive? && e.msg.OnlineCount? then e.msg.count
      else LastCount(es[..|es| - 1], before)
  }

  lemma NextOnline(w: World, sys: Sys, e: Event)
    requires AllTyped(sys.pending)
    ensures Next(w, sys, e).store.online
         == if e.Arrive? && e.msg.Joined? then e.msg.online
            else if e.Arrive? && e.msg.OnlineCount? then e.msg.count else sys.store.online
  {
    hide IsValidEnvelope, ExtractMessageId, Recent, Resume;
    if e.Continue? && e.i < |sys.pending| { ResumeRest(w, sys.store, sys.pending[e.i]); }
  }

  /** The member count shown is the last one that the server announced. */
  lemma {:induction false} OnlineIsLast(w: World, sys: Sys, es: seq<Event>)
    requires AllTyped(sys.pending)
    ensures Run(w, sys, es).store.online == LastCount(es, sys.store.online)
    decreases |es|
  {
    if es != [] {
      var j := |es| - 1;
      OnlineIsLast(w, sys, es[..j]);
      RunStep(w, sys, es, j);
      assert es[..j + 1] == es;
      NextOnline(w, Run(w, sys, es[..j]), es[j]);
      hide Next, Run;
    }
  }

  // ---- room names ----

  /** The names announced in the timeline, in order. */
  function NamesShown(ms: seq<Entry>): seq<JsString>
  {
    if ms == [] then []
    else
      var e := ms[|ms| - 1];
      NamesShown(ms[..|ms| - 1]) + (if e.RoomNameNotice? then [e.name] else [])
  }

  lemma NamesShownAppend(ms: seq<Entry>, e: Entry)
    ensures NamesShown(ms + [e]) == NamesShown(ms) + (if e.RoomNameNotice? then [e.name] else [])
  {
    assert (ms + [e])[..|ms|] == ms;
  }

  /** The room-name update that a resumed handler reads. */
  function NameRead(w: World, sys: Sys, e: Event): Option<RoomName>
    requires AllTyped(sys.pending)
  {
    if !e.Continue? || e.i >= |sys.pending| || !sys.pending[e.i].UnwrappingName? then None
    else
      var plain := Plaintext(w, sys.store, sys.pending[e.i]);
      if plain.None? then None else ParseRoomName(w.json, plain.value)
  }

  /** What is announced of an update: a name that is a change and no re-announcement. */
  function NameDue(n: Option<RoomName>, last: Option<JsString>): seq<JsString>
  {
    if n.Some? && !n.value.initial && last != Some(n.value.name) then [n.value.name] else []
  }

  lemma FinishNames(s: Store, msg: ServerMsg, mid: Option<Id>, content: Content, ident: Option<Ident>)
    requires msg.Message?
    requires ident.Some? && ident.value.status != Invalid ==> ident.value.nick.Some?
    ensures var s' := Finish(s, msg, mid, content, ident);
            s'.lastRoomName == s.lastRoomName && NamesShown(s'.messages) == NamesShown(s.messages)
  {
    hide ConflictKey, Added, NamesShown;
    var chat := Chat(msg.channelId, content, msg.from, msg.self, ident);
    NamesShownAppend(s.messages, chat);
    if ident.Some? && ident.value.nick.Some? {
      NamesShownAppend(s.messages + [chat],
                       ConflictNotice(msg.channelId, msg.from, ident.value.nick.value, ident.value.fp));
    }
  }

  lemma MessagesNameNothing(w: World, s: Store, p: Pending)
    requires p.Typed() && (p.Decrypting? || p.Verifying?)
    ensures var s' := Resume(w, s, p).0;
            s'.lastRoomName == s.lastRoomName && NamesShown(s'.messages) == NamesShown(s.messages)
  {
    hide Decrypt, ParseSigned, StalePk, IsUnknownStructured, FpOf, VerifySignedMessage, Finish, Added, NamesShown;
    if p.Decrypting? {
      var plain := Plaintext(w, s, p);
      FinishNames(s.(error := Some(DecryptFailed)), p.msg, p.mid, DecryptFailedWarning, None);
      if plain.Some? {
        var stale := StalePk(w.json, plain.value);
        FinishNames(s, p.msg, p.mid, Plain(plain.value), None);
        if stale.Some? {
          FinishNames(s.(error := Some(StaleSignature)), p.msg, p.mid, StaleSignatureWarning,
                      Some(Ident(FpOf(stale.value), None, stale.value, Invalid)));
        }
      }
    } else {
      var m := p.signed;
      var (s1, id) := RecordIdentity(s, m.nick, m.pk);
      FinishNames(s1, p.msg, p.mid, Plain(m.text), Some(id));
      FinishNames(s.(error := Some(InvalidSignature)), p.msg, p.mid, InvalidSignatureWarning,
                  Some(Ident(FpOf(m.pk), Some(m.nick), m.pk, Invalid)));
    }
  }

  lemma OthersName(w: World, s: Store, p: Pending)
    requires p.Typed() && !p.Decrypting? && !p.Verifying?
    ensures var s', n := Resume(w, s, p).0, NameRead(w, Sys(s, [p]), Continue(0));
            && s'.lastRoomName == (if n.Some? then Some(n.value.name) else s.lastRoomName)
            && NamesShown(s'.messages) == NamesShown(s.messages) + NameDue(n, s.lastRoomName)
  {
    hide Decrypt, ParseNewKey, ParseRoomName, ParseNick, ImportKey, Added, ValidChannelId, VerifySignedNick, FpOf,
      NamesShown;
    var s' := Resume(w, s, p).0;
    assert s.messages + [] == s.messages;
    if s'.messages != s.messages { NamesShownAppend(s.messages, s'.messages[|s.messages|]); }
  }

  /** A room name is taken over by every update that is read, and announced if and only if
      it is a change and no re-announcement. */
  lemma NameStep(w: World, sys: Sys, e: Event)
    requires AllTyped(sys.pending)
    ensures var s, s', n := sys.store, Next(w, sys, e).store, NameRead(w, sys, e);
            && s'.lastRoomName == (if n.Some? then Some(n.value.name) else s.lastRoomName)
            && NamesShown(s'.messages) == NamesShown(s.messages) + NameDue(n, s.lastRoomName)
  {
    hide NamesShown, Resume, IsValidEnvelope, ExtractMessageId, Recent, ParseRoomName, Decrypt;
    var s := sys.store;
    if e.Continue? && e.i < |sys.pending| {
      var p := sys.pending[e.i];
      if p.Decrypting? || p.Verifying? { MessagesNameNothing(w, s, p); } else { OthersName(w, s, p); }
    } else if e.Arrive? && e.msg.Message? {
      NamesShownAppend(s.messages, Chat(e.msg.channelId, InvalidEnvelopeWarning, e.msg.from, e.msg.self, None));
    }
  }

  /** The names to announce over a run that starts with this room name. */
  function NamesDue(w: World, sys: Sys, es: seq<Event>, last: Option<JsString>): seq<JsString>
    requires AllTyped(sys.pending)
    decreases |es|
  {
    if es == [] then []
    else
      var n := NameRead(w, sys, es[0]);
      NameDue(n, last)
      + NamesDue(w, Next(w, sys, es[0]), es[1..], if n.Some? then Some(n.value.name) else last)
  }

  lemma NamesAssoc(a: seq<JsString>, b: seq<JsString>, c: seq<JsString>)
    ensures (a + b) + c == a + (b + c)
  {
  }

  /** Over every run the timeline announces exactly the changes of the room name. */
  lemma {:induction false} RunAnnouncesNames(w: World, sys: Sys, es: seq<Event>)
    requires AllTyped(sys.pending)
    ensures NamesShown(Run(w, sys, es).store.messages)
         == NamesShown(sys.store.messages) + NamesDue(w, sys, es, sys.store.lastRoomName)
    decreases |es|
  {
    if es != [] {
      NameStep(w, sys, es[0]);
      hide NamesShown, Next, NameRead, NameDue;
      var sys1, last := Next(w, sys, es[0]), sys.store.lastRoomName;
      RunAnnouncesNames(w, sys1, es[1..]);
      NamesAssoc(NamesShown(sys.store.messages), NameDue(NameRead(w, sys, es[0]), last),
                 NamesDue(w, sys1, es[1..], sys1.store.lastRoomName));
    } else {
      assert NamesShown(sys.store.messages) + [] == NamesShown(sys.store.messages);
    }
  }

  // ---- banners of refused frames ----

  function EnvelopeError(msg: ServerMsg): StoreError
    requires Encrypted(msg)
  {
    match msg
    case Message(_, _, _, _) => InvalidEnvelope
    case KeyUpdated(_, _, _, _) => InvalidKeyEnvelope
    case RoomNameUpdated(_, _, _, _) => InvalidRoomNameEnvelope
    case NicknameUpdated(_, _, _, _) => InvalidNickEnvelope
  }

  /** A frame that is not let in says why: the server's own error, an undecodable frame, a
      malformed envelope, a replay. Every other frame leaves the banner alone. */
  lemma RefusalsSayWhy(s: Store, msg: ServerMsg)
    ensures Start(s, msg).0.error
         == match msg
            case ServerError(code, text) => Some(FromServer(code, text))
            case Undecodable(reason) => Some(BadFrame(reason))
            case _ =>
              if !Encrypted(msg) then s.error
              else if !IsValidEnvelope(msg.payload) then Some(EnvelopeError(msg))
              else if Seen(s, ExtractMessageId(msg.payload)) then Some(ReplayError(msg)) else s.error
  {
    hide IsValidEnvelope, ExtractMessageId, Recent;
  }

  /** A key, room-name or nickname handler that ends says how it ended. */
  lemma OutcomesShow(w: World, s: Store, p: Pending)
    requires p.Typed() && !p.Decrypting? && !p.Verifying? && Resume(w, s, p).1.None?
    ensures var error := Resume(w, s, p).0.error;
            match p
            case VerifyingNick(nick, pk, sig) =>
              error == if VerifySignedNick(w.sigs, s.channelId, nick, pk, sig) then None else Some(InvalidNickSignature)
            case UnwrappingName(_, _, _) =>
              error == if !TakesIn(w, s, p) then Some(RoomNameFailed)
                       else if Some(NameRead(w, Sys(s, [p]), Continue(0)).value.name) == s.lastRoomName then s.error
                       else None
            case UnwrappingNick(_, _, _) => error == if TakesIn(w, s, p) then None else Some(NickFailed)
            case _ => error == if TakesIn(w, s, p) then None else Some(KeyRotationFailed)
  {
    hide Decrypt, ParseNewKey, ParseRoomName, ParseNick, ImportKey, Added, ValidChannelId, VerifySignedNick, FpOf;
  }
}
