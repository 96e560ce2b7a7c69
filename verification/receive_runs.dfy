/** Runs of the receiving store in which handlers interleave freely at their awaits. */
module ReceiveRuns {
  import opened Options
  import opened Text
  import opened Base64Url
  import opened SignedData
  import opened Envelopes
  import opened Payloads
  import opened ReplayCaches
  import opened ChannelStores

  /** The store and the handlers that wait on something. */
  datatype Sys = Sys(store: Store, pending: seq<Pending>)

  /** A frame comes in, the i-th waiting handler is resumed, or the app installs a key. */
  datatype Event = Arrive(msg: ServerMsg) | Continue(i: nat) | Install(key: Key)

  predicate AllTyped(ps: seq<Pending>) { forall i | 0 <= i < |ps| :: ps[i].Typed() }

  function Waiting(p: Option<Pending>): seq<Pending> { if p.Some? then [p.value] else [] }

  function Next(w: World, sys: Sys, e: Event): (r: Sys)
    requires AllTyped(sys.pending)
    ensures AllTyped(r.pending)
  {
    match e
    case Arrive(msg) =>
      var (s, p) := Start(sys.store, msg);
      Sys(s, sys.pending + Waiting(p))
    case Continue(i) =>
      if i >= |sys.pending| then sys
      else
        var (s, p) := Resume(w, sys.store, sys.pending[i]);
        Sys(s, sys.pending[..i] + sys.pending[i + 1..] + Waiting(p))
    case Install(key) => sys.(store := UpdateCrypto(sys.store, key))
  }

  function Run(w: World, sys: Sys, es: seq<Event>): (r: Sys)
    requires AllTyped(sys.pending)
    ensures AllTyped(r.pending)
    decreases |es|
  {
    if es == [] then sys else Run(w, Next(w, sys, es[0]), es[1..])
  }

  // ---- trust on first use ----

  /** The owner of a public key with fingerprint `fp` signed a message or a nickname
      update of this room under exactly this nickname. */
  ghost predicate Attested(w: World, channelId: JsString, nick: JsString, fp: JsString)
  {
    || (exists m: Signed, mid: JsString ::
          m.nick == nick && FpOf(m.pk) == fp && VerifySignedMessage(w.sigs, channelId, mid, m))
    || (exists pk: JsString, sig: JsString ::
          FpOf(pk) == fp && VerifySignedNick(w.sigs, channelId, nick, pk, sig))
  }

  predicate HasStatus(e: Entry, status: IdentStatus)
  {
    e.Chat? && e.ident.Some? && e.ident.value.status == status
  }

  /** The contested pairs announced in the timeline, in order. */
  function Announced(m: seq<Entry>): seq<(JsString, JsString)>
  {
    if m == [] then []
    else
      var e := m[|m| - 1];
      Announced(m[..|m| - 1]) + (if e.ConflictNotice? then [(e.nick, e.fp)] else [])
  }

  /** A verified bubble agrees with the pin of its nickname; a conflict has been announced. */
  ghost predicate EntryOk(e: Entry, pins: map<JsString, JsString>, announced: seq<(JsString, JsString)>)
  {
    && (HasStatus(e, Verified) ==>
          var id := e.ident.value;
          id.nick.Some? && id.nick.value in pins && pins[id.nick.value] == id.fp)
    && (HasStatus(e, Conflict) ==>
          var id := e.ident.value;
          id.nick.Some? && (id.nick.value, id.fp) in announced)
  }

  ghost predicate Pins(w: World, channelId: JsString, pins: map<JsString, JsString>)
  {
    forall n | n in pins :: pins[n] != [] && Attested(w, channelId, n, pins[n])
  }

  ghost predicate Warnings(announced: seq<(JsString, JsString)>, warned: set<JsString>)
  {
    && (forall i, j | 0 <= i < j < |announced| :: announced[i] != announced[j])
    && (forall p | p in announced :: COLON !in p.1)
    && warned == set p | p in announced :: ConflictKey(p.0, p.1)
  }

  /** The trust invariant, on the parts of the store it speaks about. */
  ghost predicate Trust(w: World, channelId: JsString, messages: seq<Entry>, pins: map<JsString, JsString>,
                        conns: map<JsString, JsString>, warned: set<JsString>)
  {
    && Pins(w, channelId, pins)
    && (forall e | e in messages :: EntryOk(e, pins, Announced(messages)))
    && Warnings(Announced(messages), warned)
    && (forall c | c in conns :: conns[c] != [])
  }

  ghost predicate Tofu(w: World, s: Store)
  {
    Trust(w, s.channelId, s.messages, s.nickToFp, s.fpByConn, s.conflictWarned)
  }

  /** The timeline only grows, and neither pins nor first fingerprints are overwritten. */
  ghost predicate Extends(s: Store, s': Store)
  {
    && s'.channelId == s.channelId
    && s.messages <= s'.messages
    && (forall n | n in s.nickToFp :: n in s'.nickToFp && s'.nickToFp[n] == s.nickToFp[n])
    && (forall c | c in s.fpByConn :: c in s'.fpByConn && s'.fpByConn[c] == s.fpByConn[c])
  }

  /** A fingerprint holds no colon, so the warning key splits at its last one. */
  lemma ConflictKeyInjective(n: JsString, f: JsString, n': JsString, f': JsString)
    requires COLON !in f && COLON !in f'
    requires ConflictKey(n, f) == ConflictKey(n', f')
    ensures n == n' && f == f'
  {
    var k, k' := ConflictKey(n, f), ConflictKey(n', f');
    assert forall i | |n| < i < |k| :: k[i] == f[i - |n| - 1];
    assert forall i | |n'| < i < |k'| :: k'[i] == f'[i - |n'| - 1];
    assert k[|n|] == COLON && k'[|n'|] == COLON;
    assert n == k[..|n|] && f == k[|n| + 1..];
    assert n' == k'[..|n'|] && f' == k'[|n'| + 1..];
  }

  lemma FingerprintShape(pk: JsString)
    requires IsRoomKeyB64(pk)
    ensures |FpOf(pk)| == FP_LEN && COLON !in FpOf(pk)
  {
  }

  lemma AnnouncedAppend(m: seq<Entry>, e: Entry)
    ensures Announced(m + [e]) == if e.ConflictNotice? then Announced(m) + [(e.nick, e.fp)] else Announced(m)
  {
    assert (m + [e])[..|m|] == m;
  }

  /** A key is in the warned set exactly when its pair has been announced. */
  lemma WarnedIffAnnounced(announced: seq<(JsString, JsString)>, warned: set<JsString>, nick: JsString, fp: JsString)
    requires Warnings(announced, warned) && COLON !in fp
    ensures ConflictKey(nick, fp) in warned <==> (nick, fp) in announced
  {
    if ConflictKey(nick, fp) in warned {
      var p :| p in announced && ConflictKey(p.0, p.1) == ConflictKey(nick, fp);
      ConflictKeyInjective(p.0, p.1, nick, fp);
    }
    assert (nick, fp) in announced ==> ConflictKey((nick, fp).0, (nick, fp).1) in warned;
  }

  lemma WarningsGrow(announced: seq<(JsString, JsString)>, warned: set<JsString>, nick: JsString, fp: JsString)
    requires Warnings(announced, warned) && COLON !in fp && (nick, fp) !in announced
    ensures Warnings(announced + [(nick, fp)], warned + {ConflictKey(nick, fp)})
  {
    var a, p := announced + [(nick, fp)], (nick, fp);
    hide ConflictKey;
    assert forall q :: q in a <==> q in announced || q == p;
    assert p in a;
    assert forall k :: k in warned + {ConflictKey(nick, fp)} <==> k in set q | q in a :: ConflictKey(q.0, q.1);
  }

  lemma EntryOkMonotone(e: Entry, pins: map<JsString, JsString>, a: seq<(JsString, JsString)>,
                        pins': map<JsString, JsString>, a': seq<(JsString, JsString)>)
    requires EntryOk(e, pins, a)
    requires forall n | n in pins :: n in pins' && pins'[n] == pins[n]
    requires a <= a'
    ensures EntryOk(e, pins', a')
  {
    if HasStatus(e, Conflict) {
      var p := (e.ident.value.nick.value, e.ident.value.fp);
      var i :| 0 <= i < |a| && a[i] == p;
      assert a'[i] == p;
    }
  }

  /** A bubble or a plain notice that is in order can be appended. */
  lemma AppendKeepsTrust(w: World, c: JsString, m: seq<Entry>, pins: map<JsString, JsString>,
                         conns: map<JsString, JsString>, warned: set<JsString>, e: Entry)
    requires Trust(w, c, m, pins, conns, warned)
    requires !e.ConflictNotice? && EntryOk(e, pins, Announced(m))
    ensures Trust(w, c, m + [e], pins, conns, warned)
  {
    AnnouncedAppend(m, e);
    hide Announced, Attested, EntryOk, Warnings;
    assert forall x | x in m + [e] :: x in m || x == e;
  }

  /** A conflict bubble and its first announcement are appended together. */
  lemma AnnounceKeepsTrust(w: World, c: JsString, m: seq<Entry>, pins: map<JsString, JsString>,
                           conns: map<JsString, JsString>, warned: set<JsString>, chat: Entry, notice: Entry)
    requires Trust(w, c, m, pins, conns, warned)
    requires HasStatus(chat, Conflict) && notice.ConflictNotice?
    requires chat.ident.value.nick == Some(notice.nick) && chat.ident.value.fp == notice.fp
    requires COLON !in notice.fp && (notice.nick, notice.fp) !in Announced(m)
    ensures Trust(w, c, m + [chat] + [notice], pins, conns, warned + {ConflictKey(notice.nick, notice.fp)})
  {
    hide Announced, Attested, ConflictKey, Warnings, Pins;
    var m' := m + [chat] + [notice];
    AnnouncedAppend(m, chat);
    AnnouncedAppend(m + [chat], notice);
    WarningsGrow(Announced(m), warned, notice.nick, notice.fp);
    var a, a' := Announced(m), Announced(m');
    assert a' == a + [(notice.nick, notice.fp)];
    assert a'[|a|] == (notice.nick, notice.fp);
    assert EntryOk(chat, pins, a') && EntryOk(notice, pins, a');
    hide EntryOk;
    forall e | e in m' ensures EntryOk(e, pins, a') {
      assert e in m || e == chat || e == notice;
      if e in m { EntryOkMonotone(e, pins, a, pins, a'); }
    }
  }

  /** Pinning a claim that verified keeps the invariant, and the answer agrees with the pins. */
  lemma RecordKeepsTofu(w: World, s: Store, nick: JsString, pk: JsString)
    requires Tofu(w, s) && IsRoomKeyB64(pk) && Attested(w, s.channelId, nick, FpOf(pk))
    ensures var (s', id) := RecordIdentity(s, nick, pk);
            && Tofu(w, s') && Extends(s, s')
            && id.nick == Some(nick) && id.fp == FpOf(pk) && id.status != Invalid
            && (id.status == Verified ==> nick in s'.nickToFp && s'.nickToFp[nick] == id.fp)
  {
    hide Attested, FpOf, IsRoomKeyB64, EntryOk, Warnings, Announced;
    FingerprintShape(pk);
    var s' := RecordIdentity(s, nick, pk).0;
    var a := Announced(s.messages);
    assert Pins(w, s.channelId, s'.nickToFp);
    forall e | e in s.messages ensures EntryOk(e, s'.nickToFp, a) {
      EntryOkMonotone(e, s.nickToFp, a, s'.nickToFp, a);
    }
  }

  /** A bubble goes in together with the announcement it needs. */
  lemma WarnKeepsTofu(w: World, s: Store, msg: ServerMsg, chat: Entry, id: Ident)
    requires msg.Message? && Tofu(w, s) && chat.Chat? && chat.ident == Some(id)
    requires id.nick.Some? && id.fp != [] && COLON !in id.fp && id.status != Invalid
    requires id.status == Verified ==> id.nick.value in s.nickToFp && s.nickToFp[id.nick.value] == id.fp
    ensures Tofu(w, WarnConflict(s.(messages := s.messages + [chat]), msg, id))
  {
    hide Attested, Announced, ConflictKey, Pins;
    var m, a, nick := s.messages, Announced(s.messages), id.nick.value;
    WarnedIffAnnounced(a, s.conflictWarned, nick, id.fp);
    hide Warnings;
    if id.status == Conflict && (nick, id.fp) !in a {
      AnnounceKeepsTrust(w, s.channelId, m, s.nickToFp, s.fpByConn, s.conflictWarned, chat,
                         ConflictNotice(msg.channelId, msg.from, nick, id.fp));
    } else {
      AppendKeepsTrust(w, s.channelId, m, s.nickToFp, s.fpByConn, s.conflictWarned, chat);
    }
    hide Trust;
  }

  /** The bubble, its announcement and the connection note go in without an await between. */
  lemma FinishKeepsTofu(w: World, s: Store, msg: ServerMsg, mid: Option<Id>, content: Content, ident: Option<Ident>)
    requires msg.Message? && Tofu(w, s)
    requires ident.Some? && ident.value.status != Invalid ==>
               ident.value.nick.Some? && ident.value.fp != [] && COLON !in ident.value.fp
    requires ident.Some? && ident.value.status == Verified ==>
               ident.value.nick.value in s.nickToFp && s.nickToFp[ident.value.nick.value] == ident.value.fp
    ensures Tofu(w, Finish(s, msg, mid, content, ident)) && Extends(s, Finish(s, msg, mid, content, ident))
  {
    hide Trust, ConflictKey, Added;
    var chat := Chat(msg.channelId, content, msg.from, msg.self, ident);
    var s1 := Remember(s, mid);
    if ident.Some? && ident.value.status != Invalid {
      var s3 := WarnConflict(s1.(messages := s1.messages + [chat]), msg, ident.value);
      WarnKeepsTofu(w, s1, msg, chat, ident.value);
      NoteKeepsTofu(w, s3, msg.from, ident.value.fp);
    } else {
      UnidentifiedKeepsTofu(w, s1, chat);
    }
  }

  lemma UnidentifiedKeepsTofu(w: World, s: Store, e: Entry)
    requires Tofu(w, s) && !e.ConflictNotice? && !HasStatus(e, Verified) && !HasStatus(e, Conflict)
    ensures Tofu(w, s.(messages := s.messages + [e]))
  {
    AppendKeepsTrust(w, s.channelId, s.messages, s.nickToFp, s.fpByConn, s.conflictWarned, e);
  }

  lemma NoteKeepsTofu(w: World, s: Store, from: JsString, fp: JsString)
    requires Tofu(w, s) && fp != []
    ensures Tofu(w, NoteConnection(s, from, fp)) && Extends(s, NoteConnection(s, from, fp))
  {
    hide Announced, Attested, EntryOk, Warnings;
  }

  lemma StartKeepsTofu(w: World, s: Store, msg: ServerMsg)
    requires Tofu(w, s)
    ensures Tofu(w, Start(s, msg).0) && Extends(s, Start(s, msg).0)
  {
    hide Trust, IsValidEnvelope, ExtractMessageId, Recent;
    if msg.Message? && !IsValidEnvelope(msg.payload) {
      UnidentifiedKeepsTofu(w, s, Chat(msg.channelId, InvalidEnvelopeWarning, msg.from, msg.self, None));
    }
  }

  lemma ResumeDecryptingKeepsTofu(w: World, s: Store, p: Pending)
    requires Tofu(w, s) && p.Decrypting? && p.Typed()
    ensures Tofu(w, ResumeDecrypting(w, s, p).0) && Extends(s, ResumeDecrypting(w, s, p).0)
  {
    hide Trust, Decrypt, ParseSigned, StalePk, IsUnknownStructured, FpOf, Finish, Added;
    var plain := Decrypt(w.seals, p.key, s.channelId, p.msg.payload);
    if plain.None? {
      FinishKeepsTofu(w, s.(error := Some(DecryptFailed)), p.msg, p.mid, DecryptFailedWarning, None);
    } else if ParseSigned(w.json, plain.value).None? {
      var stale := StalePk(w.json, plain.value);
      if stale.Some? {
        FinishKeepsTofu(w, s.(error := Some(StaleSignature)), p.msg, p.mid, StaleSignatureWarning,
                        Some(Ident(FpOf(stale.value), None, stale.value, Invalid)));
      } else if !IsUnknownStructured(w.json, plain.value) {
        FinishKeepsTofu(w, s, p.msg, p.mid, Plain(plain.value), None);
      }
    }
  }

  lemma ResumeVerifyingKeepsTofu(w: World, s: Store, p: Pending)
    requires Tofu(w, s) && p.Verifying? && p.Typed()
    ensures Tofu(w, ResumeVerifying(w, s, p)) && Extends(s, ResumeVerifying(w, s, p))
  {
    hide Trust, Finish, RecordIdentity, FpOf, Decode, TextEncode, MessageSigData;
    var m := p.signed;
    var mid := if p.mid.Some? then p.mid.value else [];
    if VerifySignedMessage(w.sigs, s.channelId, mid, m) {
      FingerprintShape(m.pk);
      RecordKeepsTofu(w, s, m.nick, m.pk);
      var (s1, id) := RecordIdentity(s, m.nick, m.pk);
      FinishKeepsTofu(w, s1, p.msg, p.mid, Plain(m.text), Some(id));
    } else {
      FinishKeepsTofu(w, s.(error := Some(InvalidSignature)), p.msg, p.mid, InvalidSignatureWarning,
                      Some(Ident(FpOf(m.pk), Some(m.nick), m.pk, Invalid)));
    }
  }

  lemma ImportingKeyKeepsTofu(w: World, s: Store, p: Pending)
    requires Tofu(w, s) && p.ImportingKey? && p.Typed()
    ensures Tofu(w, ResumeImportingKey(s, p)) && Extends(s, ResumeImportingKey(s, p))
  {
    hide Trust, ImportKey, Added;
    if ImportKey(p.b64).Some? {
      var s1 := Remember(s.(crypto := ImportKey(p.b64).value, log := []), p.mid);
      UnidentifiedKeepsTofu(w, s1, KeyRotationNotice(p.msg.channelId, p.msg.from));
    }
  }

  lemma UnwrappingNameKeepsTofu(w: World, s: Store, p: Pending)
    requires Tofu(w, s) && p.UnwrappingName? && p.Typed()
    ensures Tofu(w, ResumeUnwrappingName(w, s, p)) && Extends(s, ResumeUnwrappingName(w, s, p))
  {
    hide Trust, Decrypt, ParseRoomName, Added;
    var plain := Decrypt(w.seals, p.key, s.channelId, p.msg.payload);
    if plain.Some? && ParseRoomName(w.json, plain.value).Some? {
      var name := ParseRoomName(w.json, plain.value).value.name;
      UnidentifiedKeepsTofu(w, Remember(s, p.mid), RoomNameNotice(p.msg.channelId, name, p.msg.from));
    }
    assert s.messages + [] == s.messages;
  }

  lemma ResumeNickKeepsTofu(w: World, s: Store, p: Pending)
    requires Tofu(w, s) && p.VerifyingNick?
    ensures Tofu(w, ResumeVerifyingNick(w, s, p)) && Extends(s, ResumeVerifyingNick(w, s, p))
  {
    hide Trust, FpOf, Decode, TextEncode, NickSigData;
    if VerifySignedNick(w.sigs, s.channelId, p.nick, p.pk, p.sig) { RecordKeepsTofu(w, s, p.nick, p.pk); }
  }

  lemma ResumeKeepsTofu(w: World, s: Store, p: Pending)
    requires Tofu(w, s) && p.Typed()
    ensures Tofu(w, Resume(w, s, p).0) && Extends(s, Resume(w, s, p).0)
  {
    hide Trust, Decrypt, ParseNick, ParseNewKey, Added, ResumeDecrypting, ResumeVerifying, ResumeVerifyingNick,
      ResumeImportingKey, ResumeUnwrappingName;
    match p
    case Decrypting(_, _, _) => ResumeDecryptingKeepsTofu(w, s, p);
    case Verifying(_, _, _) => ResumeVerifyingKeepsTofu(w, s, p);
    case ImportingKey(_, _, _) => ImportingKeyKeepsTofu(w, s, p);
    case UnwrappingName(_, _, _) => UnwrappingNameKeepsTofu(w, s, p);
    case VerifyingNick(_, _, _) => ResumeNickKeepsTofu(w, s, p);
    case _ =>
  }

  lemma NextKeepsTofu(w: World, sys: Sys, e: Event)
    requires AllTyped(sys.pending) && Tofu(w, sys.store)
    ensures Tofu(w, Next(w, sys, e).store) && Extends(sys.store, Next(w, sys, e).store)
  {
    hide Trust, Start, Resume;
    match e
    case Arrive(msg) => StartKeepsTofu(w, sys.store, msg);
    case Continue(i) => if i < |sys.pending| { ResumeKeepsTofu(w, sys.store, sys.pending[i]); }
    case Install(key) =>
  }

  /** Whatever the interleaving: the trust invariant holds after every run, pins and
      first fingerprints never change, and the timeline only grows. */
  lemma {:induction false} RunKeepsTofu(w: World, sys: Sys, es: seq<Event>)
    requires AllTyped(sys.pending) && Tofu(w, sys.store)
    ensures Tofu(w, Run(w, sys, es).store) && Extends(sys.store, Run(w, sys, es).store)
    decreases |es|
  {
    if es != [] {
      NextKeepsTofu(w, sys, es[0]);
      hide Tofu, Next;
      RunKeepsTofu(w, Next(w, sys, es[0]), es[1..]);
    }
  }

  lemma FinishKeepsPins(s: Store, msg: ServerMsg, mid: Option<Id>, content: Content, ident: Option<Ident>)
    requires msg.Message?
    requires ident.Some? && ident.value.status != Invalid ==> ident.value.nick.Some?
    ensures Finish(s, msg, mid, content, ident).nickToFp == s.nickToFp
  {
    hide ConflictKey, Added;
  }

  /** The signature of the claim that a message handler has parsed is good. */
  predicate ClaimVerifies(w: World, s: Store, p: Pending)
    requires p.Verifying?
  {
    VerifySignedMessage(w.sigs, s.channelId, if p.mid.Some? then p.mid.value else [], p.signed)
  }

  /** Everything but the verified end of a handler leaves the pins alone. */
  lemma OtherResumesKeepPins(w: World, s: Store, p: Pending)
    requires p.Typed()
    requires p.Verifying? ==> !ClaimVerifies(w, s, p)
    requires p.VerifyingNick? ==> !VerifySignedNick(w.sigs, s.channelId, p.nick, p.pk, p.sig)
    ensures Resume(w, s, p).0.nickToFp == s.nickToFp
  {
    hide Decrypt, ParseSigned, StalePk, ParseNick, ParseRoomName, ParseNewKey, ImportKey, Added, FpOf,
      VerifySignedMessage, VerifySignedNick, Finish;
    if p.Decrypting? {
      var plain := Decrypt(w.seals, p.key, s.channelId, p.msg.payload);
      FinishKeepsPins(s.(error := Some(DecryptFailed)), p.msg, p.mid, DecryptFailedWarning, None);
      if plain.Some? {
        var stale := StalePk(w.json, plain.value);
        FinishKeepsPins(s, p.msg, p.mid, Plain(plain.value), None);
        if stale.Some? {
          FinishKeepsPins(s.(error := Some(StaleSignature)), p.msg, p.mid, StaleSignatureWarning,
                          Some(Ident(FpOf(stale.value), None, stale.value, Invalid)));
        }
      }
    } else if p.Verifying? {
      var m := p.signed;
      FinishKeepsPins(s.(error := Some(InvalidSignature)), p.msg, p.mid, InvalidSignatureWarning,
                      Some(Ident(FpOf(m.pk), Some(m.nick), m.pk, Invalid)));
    }
  }

  /** A pin is written only by a resumed handler whose claim verified, for a nickname
      not pinned before; stale, invalid and unsigned claims leave all pins alone. */
  lemma PinsWrittenByVerifiedClaims(w: World, sys: Sys, e: Event)
    requires AllTyped(sys.pending) && Tofu(w, sys.store)
    requires Next(w, sys, e).store.nickToFp != sys.store.nickToFp
    ensures e.Continue? && e.i < |sys.pending|
    ensures var p, s, pins := sys.pending[e.i], sys.store, Next(w, sys, e).store.nickToFp;
            || (p.Verifying? && ClaimVerifies(w, s, p)
                && p.signed.nick !in s.nickToFp && pins == s.nickToFp[p.signed.nick := FpOf(p.signed.pk)])
            || (p.VerifyingNick? && VerifySignedNick(w.sigs, s.channelId, p.nick, p.pk, p.sig)
                && p.nick !in s.nickToFp && pins == s.nickToFp[p.nick := FpOf(p.pk)])
  {
    hide Attested, ResumeDecrypting, ResumeUnwrappingKey, ResumeImportingKey, ResumeUnwrappingName,
      ResumeUnwrappingNick, FpOf, VerifySignedMessage, VerifySignedNick, IsValidEnvelope, ExtractMessageId, Recent,
      Warnings, Announced, EntryOk, Finish;
    if e.Continue? && e.i < |sys.pending| {
      var p, s := sys.pending[e.i], sys.store;
      if p.Verifying? && ClaimVerifies(w, s, p) {
        var (s1, id) := RecordIdentity(s, p.signed.nick, p.signed.pk);
        FinishKeepsPins(s1, p.msg, p.mid, Plain(p.signed.text), Some(id));
      } else if !(p.VerifyingNick? && VerifySignedNick(w.sigs, s.channelId, p.nick, p.pk, p.sig)) {
        OtherResumesKeepPins(w, s, p);
      }
    }
  }

  lemma NewStoreTofu(w: World, channelId: JsString, key: Key)
    ensures Tofu(w, NewStore(channelId, key))
  {
  }

  /** In every run of a fresh store: two bubbles shown as verified under one nickname
      have one fingerprint, and someone holding a key with that fingerprint signed
      for that nickname in this room. */
  lemma VerifiedNicksAgree(w: World, channelId: JsString, key: Key, es: seq<Event>, i: nat, j: nat)
    requires var m := Run(w, Sys(NewStore(channelId, key), []), es).store.messages;
             i < |m| && j < |m| && HasStatus(m[i], Verified) && HasStatus(m[j], Verified)
             && m[i].ident.value.nick == m[j].ident.value.nick
    ensures var m := Run(w, Sys(NewStore(channelId, key), []), es).store.messages;
            m[i].ident.value.fp == m[j].ident.value.fp && m[i].ident.value.nick.Some?
            && Attested(w, channelId, m[i].ident.value.nick.value, m[i].ident.value.fp)
  {
    hide Attested, Announced, Warnings, Run;
    NewStoreTofu(w, channelId, key);
    RunKeepsTofu(w, Sys(NewStore(channelId, key), []), es);
    var s := Run(w, Sys(NewStore(channelId, key), []), es).store;
    assert s.messages[i] in s.messages && s.messages[j] in s.messages;
  }

  /** In every run of a fresh store: each bubble shown as a conflict has an announcement
      of its nickname and fingerprint, and no pair is announced twice. */
  lemma ConflictsAnnouncedOnce(w: World, channelId: JsString, key: Key, es: seq<Event>)
    ensures var m := Run(w, Sys(NewStore(channelId, key), []), es).store.messages;
            && (forall e | e in m && HasStatus(e, Conflict) ::
                  e.ident.value.nick.Some? && (e.ident.value.nick.value, e.ident.value.fp) in Announced(m))
            && (forall i, j | 0 <= i < j < |Announced(m)| :: Announced(m)[i] != Announced(m)[j])
  {
    NewStoreTofu(w, channelId, key);
    hide Attested, Run, Announced;
    RunKeepsTofu(w, Sys(NewStore(channelId, key), []), es);
  }
}
