/** Key rotation: one member rotates and shares, everybody else follows its frames. */
module Rotation {
  import opened Options
  import opened Text
  import opened Base64Url
  import opened Envelopes
  import opened Payloads
  import opened ReplayCaches
  import opened ChannelStores
  import opened HandlerEffects

  /** Which frame a plaintext is sent in. */
  datatype Kind = ChatFrame | RoomNameFrame | NickFrame

  /** What the rotating member does: send a message, a room name or a nickname under its
      key, or wrap a new key with the old one, send it, and switch. Each send runs to
      completion. */
  datatype Op =
    | Say(kind: Kind, plain: JsString, mid: JsString, iv: Bytes, ct: Bytes)
    | Share(newKey: Key, mid: JsString, iv: Bytes, ct: Bytes)

  function PlainOf(json: Json, op: Op): JsString
  {
    match op
    case Say(_, plain, _, _, _) => plain
    case Share(newKey, _, _, _) => json.stringify(KeyObject(Encode(newKey)))
  }

  /** Message ids are well-formed, nonce and ciphertext are new. */
  predicate OpPossible(json: Json, seals: Seals, op: Op)
  {
    && IsBase64Url(op.mid) && |op.mid| == 22
    && |op.iv| == 12 && |op.ct| == |TextEncode(PlainOf(json, op))| + 16
    && (op.iv, op.ct) !in seals
  }

  function KeyAfter(key: Key, op: Op): Key { if op.Share? then op.newKey else key }

  lemma PresetAccepted(json: Json, seals: Seals, channelId: JsString, key: Key, op: Op)
    requires OpPossible(json, seals, op)
    ensures Encrypt(seals, key, channelId, PlainOf(json, op), op.mid, op.iv, op.ct).Some?
  {
    hide Decode, TextEncode, PlainOf;
    DecodedLength(op.mid);
  }

  /** The envelope of an operation and what is sealed afterwards. */
  function Perform(json: Json, seals: Seals, channelId: JsString, key: Key, op: Op): (r: (JsString, Seals))
    requires OpPossible(json, seals, op)
    ensures forall x | x in seals :: x in r.1 && r.1[x] == seals[x]
  {
    PresetAccepted(json, seals, channelId, key, op);
    Encrypt(seals, key, channelId, PlainOf(json, op), op.mid, op.iv, op.ct).value
  }

  predicate OpsPossible(json: Json, seals: Seals, channelId: JsString, key: Key, ops: seq<Op>)
    decreases |ops|
  {
    ops == []
    || (OpPossible(json, seals, ops[0])
        && OpsPossible(json, Perform(json, seals, channelId, key, ops[0]).1, channelId,
                       KeyAfter(key, ops[0]), ops[1..]))
  }

  function KeyAfterAll(key: Key, ops: seq<Op>): Key
    decreases |ops|
  {
    if ops == [] then key else KeyAfterAll(KeyAfter(key, ops[0]), ops[1..])
  }

  function SealsAfterAll(json: Json, seals: Seals, channelId: JsString, key: Key, ops: seq<Op>): (r: Seals)
    requires OpsPossible(json, seals, channelId, key, ops)
    ensures forall x | x in seals :: x in r && r[x] == seals[x]
    decreases |ops|
  {
    if ops == [] then seals
    else SealsAfterAll(json, Perform(json, seals, channelId, key, ops[0]).1, channelId, KeyAfter(key, ops[0]), ops[1..])
  }

  /** The frame the server relays for an operation. */
  function Relayed(channelId: JsString, from: JsString, payload: JsString, op: Op): ServerMsg
  {
    match op
    case Share(_, _, _, _) => KeyUpdated(channelId, payload, from, false)
    case Say(kind, _, _, _, _) =>
      match kind {
        case ChatFrame => Message(channelId, payload, from, false)
        case RoomNameFrame => RoomNameUpdated(channelId, payload, from, false)
        case NickFrame => NicknameUpdated(channelId, payload, from, false)
      }
  }

  // ---- one frame ----

  /** Ids a handled frame may add to the log. */
  predicate LogWithin(s: Store, s': Store, mid: Option<Id>)
  {
    forall id | id in s'.log :: id in s.log || Some(id) == mid
  }

  lemma RememberWithin(s: Store, mid: Option<Id>)
    ensures LogWithin(s, Remember(s, mid), mid)
  {
    hide Recent;
  }

  function PayloadMid(msg: ServerMsg): Option<Id>
  {
    match msg
    case Message(_, payload, _, _) => ExtractMessageId(payload)
    case KeyUpdated(_, payload, _, _) => ExtractMessageId(payload)
    case RoomNameUpdated(_, payload, _, _) => ExtractMessageId(payload)
    case NicknameUpdated(_, payload, _, _) => ExtractMessageId(payload)
    case _ => None
  }

  /** A handler that installs no key leaves the key alone and remembers at most its id. */
  lemma ResumeWithin(w: World, s: Store, p: Pending, mid: Option<Id>)
    requires p.Typed() && !p.ImportingKey? && (p.VerifyingNick? || p.mid == mid)
    ensures var (s', q) := Resume(w, s, p);
            && s'.crypto == s.crypto && s'.channelId == s.channelId && LogWithin(s, s', mid)
            && (q.Some? ==> (q.value.ImportingKey? <==> p.UnwrappingKey?)
                            && (q.value.VerifyingNick? || q.value.mid == mid))
  {
    ResumeEffect(w, s, p);
    RememberWithin(s, mid);
    hide Resume, TakesIn, Remember;
  }

  /** A frame that shares no key leaves the key alone and adds at most its own id. */
  lemma OtherFrames(w: World, s: Store, msg: ServerMsg)
    requires msg.KeyUpdated? ==> msg.self
    ensures var s' := Handle(w, s, msg);
            s'.crypto == s.crypto && s'.channelId == s.channelId && LogWithin(s, s', PayloadMid(msg))
  {
    HandleSteps(w, s, msg);
    StartEffect(s, msg);
    SelfEchoIgnored(w, s, msg);
    hide Start, Resume, ExtractMessageId;
    var (s1, p) := Start(s, msg);
    if p.Some? && !msg.KeyUpdated? {
      ResumeWithin(w, s1, p.value, PayloadMid(msg));
      var (s2, q) := Resume(w, s1, p.value);
      if q.Some? { ResumeWithin(w, s2, q.value, PayloadMid(msg)); }
    }
  }

  /** The rotator's own echo changes nothing. */
  lemma SelfEchoIgnored(w: World, s: Store, msg: ServerMsg)
    ensures msg.KeyUpdated? && msg.self ==> Handle(w, s, msg) == s
  {
    hide IsValidEnvelope, ExtractMessageId, Recent, Resume;
  }

  /** A key update wrapped under the receiver's key installs exactly the shared key;
      under any other key it changes no key at all. */
  lemma KeyUpdateEffect(w: World, s: Store, channelId: JsString, payload: JsString, from: JsString, newKey: Key)
    requires Lawful(w.json) && ValidChannelId(s.channelId)
    requires IsValidEnvelope(payload) && ExtractMessageId(payload).Some? && !Seen(s, ExtractMessageId(payload))
    ensures var plain := Decrypt(w.seals, s.crypto, s.channelId, payload);
            var s' := Handle(w, s, KeyUpdated(channelId, payload, from, false));
            && (plain == Some(w.json.stringify(KeyObject(Encode(newKey)))) ==>
                  s'.crypto == newKey && s'.channelId == s.channelId && s'.error == None
                  && (forall id | id in s'.log :: Some(id) == ExtractMessageId(payload))
                  && s'.messages == s.messages + [KeyRotationNotice(channelId, from)])
            && (plain == None ==> s' == s.(error := Some(KeyRotationFailed)))
  {
    hide Decrypt, IsValidEnvelope, ExtractMessageId, ImportKey, ParseNewKey, Encode, Lawful, ValidChannelId, Added,
      KeyObject;
    var msg := KeyUpdated(channelId, payload, from, false);
    var mid := ExtractMessageId(payload);
    KeyRoundTrip(w.json, newKey);
    HandleSteps(w, s, msg);
    RememberWithin(s.(crypto := newKey, log := []), mid);
  }

  // ---- the whole stream ----

  /** What a member receives: the rotator's next frame, or anything else. */
  datatype Input = Own | Other(msg: ServerMsg)

  /** The other traffic shares no keys and reuses no message id of the stream. */
  predicate Benign(inputs: seq<Input>, mids: set<Id>)
  {
    forall i | 0 <= i < |inputs| && inputs[i].Other? ::
      && (inputs[i].msg.KeyUpdated? ==> inputs[i].msg.self)
      && forall m | m in mids :: PayloadMid(inputs[i].msg) != Some(m)
  }

  function Mids(ops: seq<Op>): set<Id> { set op | op in ops :: op.mid }

  predicate DistinctMids(ops: seq<Op>) { forall i, j | 0 <= i < j < |ops| :: ops[i].mid != ops[j].mid }

  function OwnCount(inputs: seq<Input>): nat
  {
    if inputs == [] then 0 else (if inputs[0].Own? then 1 else 0) + OwnCount(inputs[1..])
  }

  /** The member's state after the inputs; the i-th `Own` is the frame of the i-th operation. */
  function Follow(w: World, channelId: JsString, member: Store, from: JsString, seals: Seals, key: Key,
                  ops: seq<Op>, inputs: seq<Input>): Store
    requires OpsPossible(w.json, seals, channelId, key, ops) && OwnCount(inputs) <= |ops|
    decreases |inputs|
  {
    if inputs == [] then member
    else if inputs[0].Other? then
      Follow(w, channelId, Handle(w, member, inputs[0].msg), from, seals, key, ops, inputs[1..])
    else
      var (payload, seals') := Perform(w.json, seals, channelId, key, ops[0]);
      var next := Handle(w, member, Relayed(channelId, from, payload, ops[0]));
      Follow(w, channelId, next, from, seals', KeyAfter(key, ops[0]), ops[1..], inputs[1..])
  }

  /** What the frame of an operation does to a member that can read it: a key update puts
      the shared key in place, a signed message is shown with its text, a room name is
      taken over, and a signed nickname is pinned. */
  ghost predicate TakesEffect(w: World, member: Store, next: Store, channelId: JsString, from: JsString, op: Op)
  {
    var plain := TextDecode(TextEncode(PlainOf(w.json, op)));
    match op
    case Share(newKey, _, _, _) =>
      next.crypto == newKey && next.messages == member.messages + [KeyRotationNotice(channelId, from)]
    case Say(kind, _, mid, _, _) =>
      match kind {
        case ChatFrame =>
          var m := ParseSigned(w.json, plain);
          m.Some? && VerifySignedMessage(w.sigs, member.channelId, mid, m.value) ==>
            ShowsText(member, next, m.value.text)
        case RoomNameFrame =>
          var name := ParseRoomName(w.json, plain);
          name.Some? ==> next.lastRoomName == Some(name.value.name)
        case NickFrame =>
          var c := ParseNick(w.json, plain);
          c.Some? && c.value.pk.Some? && c.value.sig.Some?
          && VerifySignedNick(w.sigs, member.channelId, c.value.nick, c.value.pk.value, c.value.sig.value) ==>
            c.value.nick in next.nickToFp
      }
  }

  predicate ShowsText(s: Store, s': Store, text: JsString)
  {
    && s.messages < s'.messages
    && s'.messages[|s.messages|].Chat? && s'.messages[|s.messages|].content == Plain(text)
  }

  /** Every frame of the stream is opened when it arrives: it is no replay, decrypts to
      the plaintext that was sent, and takes effect. */
  ghost predicate Opens(w: World, channelId: JsString, member: Store, from: JsString, seals: Seals, key: Key,
                        ops: seq<Op>, inputs: seq<Input>)
    requires OpsPossible(w.json, seals, channelId, key, ops) && OwnCount(inputs) <= |ops|
    decreases |inputs|
  {
    if inputs == [] then true
    else if inputs[0].Other? then
      Opens(w, channelId, Handle(w, member, inputs[0].msg), from, seals, key, ops, inputs[1..])
    else
      var (payload, seals') := Perform(w.json, seals, channelId, key, ops[0]);
      var next := Handle(w, member, Relayed(channelId, from, payload, ops[0]));
      && IsValidEnvelope(payload) && !Seen(member, ExtractMessageId(payload))
      && Decrypt(w.seals, member.crypto, channelId, payload) == Some(TextDecode(TextEncode(PlainOf(w.json, ops[0]))))
      && TakesEffect(w, member, next, channelId, from, ops[0])
      && Opens(w, channelId, next, from, seals', KeyAfter(key, ops[0]), ops[1..], inputs[1..])
  }

  /** The effect of an unseen frame that opens and shares no key. */
  lemma SayEffect(w: World, s: Store, from: JsString, payload: JsString, op: Op)
    requires op.Say? && !Seen(s, Some(op.mid))
    requires IsValidEnvelope(payload) && ExtractMessageId(payload) == Some(op.mid)
    requires Decrypt(w.seals, s.crypto, s.channelId, payload) == Some(TextDecode(TextEncode(op.plain)))
    ensures TakesEffect(w, s, Handle(w, s, Relayed(s.channelId, from, payload, op)), s.channelId, from, op)
  {
    hide Decrypt, IsValidEnvelope, ExtractMessageId, TextDecode, TextEncode, ParseSigned, ParseRoomName, ParseNick,
      VerifySignedMessage, VerifySignedNick, Handle, FpOf, Seen, Added, StalePk, IsUnknownStructured, Finish;
    var msg := Relayed(s.channelId, from, payload, op);
    HandleSteps(w, s, msg);
    if op.kind.ChatFrame? {
      var m := ParseSigned(w.json, TextDecode(TextEncode(op.plain)));
      if m.Some? {
        var (s1, id) := RecordIdentity(s, m.value.nick, m.value.pk);
        FinishShowsText(s1, msg, Some(op.mid), m.value.text, id);
      }
    }
  }

  /** Such a frame leaves the key alone and adds at most its own id. */
  lemma SayKeeps(w: World, s: Store, from: JsString, payload: JsString, op: Op)
    requires op.Say? && ExtractMessageId(payload) == Some(op.mid)
    ensures var next := Handle(w, s, Relayed(s.channelId, from, payload, op));
            next.crypto == s.crypto && next.channelId == s.channelId && LogWithin(s, next, Some(op.mid))
  {
    hide Handle, ExtractMessageId;
    OtherFrames(w, s, Relayed(s.channelId, from, payload, op));
  }

  lemma FinishShowsText(s: Store, msg: ServerMsg, mid: Option<Id>, text: JsString, id: Ident)
    requires msg.Message? && id.nick.Some?
    ensures ShowsText(s, Finish(s, msg, mid, Plain(text), Some(id)), text)
  {
    hide ConflictKey, Added;
  }

  lemma ShareEffect(w: World, s: Store, from: JsString, payload: JsString, op: Op)
    requires Lawful(w.json) && ValidChannelId(s.channelId)
    requires op.Share? && !Seen(s, Some(op.mid))
    requires IsValidEnvelope(payload) && ExtractMessageId(payload) == Some(op.mid)
    requires Decrypt(w.seals, s.crypto, s.channelId, payload) == Some(TextDecode(TextEncode(PlainOf(w.json, op))))
    ensures var next := Handle(w, s, Relayed(s.channelId, from, payload, op));
            && TakesEffect(w, s, next, s.channelId, from, op)
            && next.channelId == s.channelId && forall id | id in next.log :: id == op.mid
  {
    hide Decrypt, IsValidEnvelope, ExtractMessageId, Handle, Encode, Lawful, ValidChannelId, TextDecode, TextEncode,
      Seen, KeyObject, ParseNewKey, ImportKey;
    KeyRoundTrip(w.json, op.newKey);
    KeyUpdateEffect(w, s, s.channelId, payload, from, op.newKey);
  }

  /** The rotator's next frame is a valid envelope that a member in step decrypts. */
  lemma OwnFrameOpens(w: World, key: Key, channelId: JsString, seals: Seals, op: Op)
    requires OpPossible(w.json, seals, op)
    requires var seals' := Perform(w.json, seals, channelId, key, op).1;
             forall x | x in seals' :: x in w.seals && w.seals[x] == seals'[x]
    ensures var payload := Perform(w.json, seals, channelId, key, op).0;
            && IsValidEnvelope(payload) && ExtractMessageId(payload) == Some(op.mid)
            && Decrypt(w.seals, key, channelId, payload) == Some(TextDecode(TextEncode(PlainOf(w.json, op))))
  {
    PresetAccepted(w.json, seals, channelId, key, op);
    EncryptDecrypt(seals, key, channelId, PlainOf(w.json, op), op.mid, op.iv, op.ct);
    hide IsValidEnvelope, ExtractMessageId, Encrypt, TextDecode, TextEncode, PlainOf, Unseal;
    var (payload, seals') := Perform(w.json, seals, channelId, key, op);
    SealsGrow(seals', w.seals, key, channelId, payload);
  }

  /** The effect of the rotator's next frame on a member that is in step. */
  lemma OwnFrame(w: World, member: Store, from: JsString, seals: Seals, op: Op, rest: set<Id>)
    requires Lawful(w.json) && ValidChannelId(member.channelId) && OpPossible(w.json, seals, op)
    requires var seals' := Perform(w.json, seals, member.channelId, member.crypto, op).1;
             forall x | x in seals' :: x in w.seals && w.seals[x] == seals'[x]
    requires op.mid !in member.log && op.mid !in rest && forall m | m in rest :: m !in member.log
    ensures var payload := Perform(w.json, seals, member.channelId, member.crypto, op).0;
            var next := Handle(w, member, Relayed(member.channelId, from, payload, op));
            && IsValidEnvelope(payload) && !Seen(member, ExtractMessageId(payload))
            && Decrypt(w.seals, member.crypto, member.channelId, payload)
               == Some(TextDecode(TextEncode(PlainOf(w.json, op))))
            && next.channelId == member.channelId && next.crypto == KeyAfter(member.crypto, op)
            && TakesEffect(w, member, next, member.channelId, from, op)
            && forall m | m in rest :: m !in next.log
  {
    OwnFrameOpens(w, member.crypto, member.channelId, seals, op);
    NotSeen(member, op.mid);
    var payload := Perform(w.json, seals, member.channelId, member.crypto, op).0;
    hide Decrypt, IsValidEnvelope, ExtractMessageId, Handle, Lawful, ValidChannelId, TextDecode, TextEncode,
      OpPossible, Seen, Perform, Relayed;
    if op.Share? {
      ShareEffect(w, member, from, payload, op);
    } else {
      SayEffect(w, member, from, payload, op);
      SayKeeps(w, member, from, payload, op);
      hide TakesEffect;
    }
  }

  lemma NotSeen(s: Store, mid: Id)
    requires mid !in s.log
    ensures !Seen(s, Some(mid))
  {
  }

  /** Through any number of rotations and any interleaved benign traffic, a member that
      starts on the rotator's key opens every frame of its stream and ends on its key. */
  lemma {:induction false} MembersStayInStep(w: World, member: Store, from: JsString, seals: Seals, ops: seq<Op>,
                                             inputs: seq<Input>)
    requires Lawful(w.json) && ValidChannelId(member.channelId)
    requires OpsPossible(w.json, seals, member.channelId, member.crypto, ops) && DistinctMids(ops)
    requires OwnCount(inputs) == |ops| && Benign(inputs, Mids(ops))
    requires forall m | m in Mids(ops) :: m !in member.log
    requires var all := SealsAfterAll(w.json, seals, member.channelId, member.crypto, ops);
             forall x | x in all :: x in w.seals && w.seals[x] == all[x]
    ensures Opens(w, member.channelId, member, from, seals, member.crypto, ops, inputs)
    ensures Follow(w, member.channelId, member, from, seals, member.crypto, ops, inputs).crypto
         == KeyAfterAll(member.crypto, ops)
    decreases |inputs|
  {
    hide Handle, Perform, Decrypt, IsValidEnvelope, ExtractMessageId, Lawful, ValidChannelId, TextDecode, TextEncode,
      OpPossible, PayloadMid, Seen, Relayed, PlainOf;
    if inputs != [] {
      assert Benign(inputs[1..], Mids(ops));
      if inputs[0].Other? {
        OtherFrames(w, member, inputs[0].msg);
        MembersStayInStep(w, Handle(w, member, inputs[0].msg), from, seals, ops, inputs[1..]);
      } else {
        var op := ops[0];
        var rest := Mids(ops[1..]);
        assert ops == [op] + ops[1..];
        assert op in ops && op.mid in Mids(ops) && rest <= Mids(ops);
        assert op.mid !in rest;
        OwnFrame(w, member, from, seals, op, rest);
        var (payload, seals') := Perform(w.json, seals, member.channelId, member.crypto, op);
        var next := Handle(w, member, Relayed(member.channelId, from, payload, op));
        MembersStayInStep(w, next, from, seals', ops[1..], inputs[1..]);
      }
    }
  }

  // ---- several rotators ----

  /** A key update in flight: it was wrapped under `oldKey` and carries `newKey`. */
  datatype Update = Update(payload: JsString, from: JsString, oldKey: Key, newKey: Key)

  ghost predicate Wraps(w: World, channelId: JsString, u: Update)
  {
    && IsValidEnvelope(u.payload) && ExtractMessageId(u.payload).Some?
    && Decrypt(w.seals, u.oldKey, channelId, u.payload) == Some(w.json.stringify(KeyObject(Encode(u.newKey))))
  }

  function UpdateId(u: Update): Option<Id> { ExtractMessageId(u.payload) }

  function Hear(w: World, s: Store, u: Update): Store
  {
    Handle(w, s, KeyUpdated(s.channelId, u.payload, u.from, false))
  }

  lemma OneKeyOpens(w: World, channelId: JsString, u: Update, key: Key)
    requires Wraps(w, channelId, u) && key != u.oldKey
    ensures Decrypt(w.seals, key, channelId, u.payload).None?
  {
    hide Carried, TextDecode, TextEncode, IsValidEnvelope, ExtractMessageId;
  }

  /** Exactly when a rotation reaches a member: after an unseen update it is on the
      shared key if and only if it was on the key the update was wrapped under (or had
      the shared key already). A member on any other key stays where it is. */
  lemma UpdateTakenIff(w: World, s: Store, u: Update)
    requires Lawful(w.json) && ValidChannelId(s.channelId) && Wraps(w, s.channelId, u) && !Seen(s, UpdateId(u))
    ensures Hear(w, s, u).crypto == u.newKey <==> s.crypto == u.oldKey || s.crypto == u.newKey
    ensures s.crypto != u.oldKey ==> Hear(w, s, u) == s.(error := Some(KeyRotationFailed))
    ensures Hear(w, s, u).channelId == s.channelId
    ensures forall id | id in Hear(w, s, u).log :: id in s.log || Some(id) == UpdateId(u)
  {
    if s.crypto != u.oldKey { OneKeyOpens(w, s.channelId, u, s.crypto); }
    hide Decrypt, Handle, IsValidEnvelope, ExtractMessageId, Lawful, ValidChannelId, KeyObject, Encode, Seen;
    KeyUpdateEffect(w, s, s.channelId, u.payload, u.from, u.newKey);
  }

  /** What moves a member's key: its own rotation, or an update that arrives. */
  datatype Move = Switch(key: Key) | Arrival(update: Update)

  function Moved(w: World, s: Store, moves: seq<Move>): Store
    decreases |moves|
  {
    if moves == [] then s
    else if moves[0].Switch? then Moved(w, UpdateCrypto(s, moves[0].key), moves[1..])
    else Moved(w, Hear(w, s, moves[0].update), moves[1..])
  }

  /** The key a member ends on: an update counts only on the key it was wrapped under. */
  function KeyChain(key: Key, moves: seq<Move>): Key
    decreases |moves|
  {
    if moves == [] then key
    else if moves[0].Switch? then KeyChain(moves[0].key, moves[1..])
    else KeyChain(if key == moves[0].update.oldKey then moves[0].update.newKey else key, moves[1..])
  }

  /** The updates are wrapped in the room, have not been seen, and have different ids. */
  ghost predicate InFlight(w: World, s: Store, moves: seq<Move>)
  {
    && (forall i | 0 <= i < |moves| && moves[i].Arrival? ::
          Wraps(w, s.channelId, moves[i].update) && forall id | id in s.log :: Some(id) != UpdateId(moves[i].update))
    && (forall i, j | 0 <= i < j < |moves| && moves[i].Arrival? && moves[j].Arrival? ::
          UpdateId(moves[i].update) != UpdateId(moves[j].update))
  }

  /** With any number of rotators, in any order of arrival, the key of a member is the
      one the chain of updates that reached it leads to. Two members are on one key in
      the end if and only if their chains lead to one key. */
  lemma {:induction false} MembersFollowChain(w: World, s: Store, moves: seq<Move>)
    requires Lawful(w.json) && ValidChannelId(s.channelId) && InFlight(w, s, moves)
    ensures Moved(w, s, moves).crypto == KeyChain(s.crypto, moves)
    decreases |moves|
  {
    hide Handle, Hear, Wraps, Lawful, ValidChannelId, ExtractMessageId;
    if moves != [] {
      if moves[0].Switch? {
        MembersFollowChain(w, UpdateCrypto(s, moves[0].key), moves[1..]);
      } else {
        var u := moves[0].update;
        assert !Seen(s, UpdateId(u)) by { hide UpdateId; }
        UpdateTakenIff(w, s, u);
        UpdateTaken(w, s, u);
        var s1 := Hear(w, s, u);
        assert InFlight(w, s1, moves[1..]) by { hide UpdateId; }
        MembersFollowChain(w, s1, moves[1..]);
      }
    }
  }

  lemma UpdateTaken(w: World, s: Store, u: Update)
    requires Lawful(w.json) && ValidChannelId(s.channelId) && Wraps(w, s.channelId, u) && !Seen(s, UpdateId(u))
    ensures Hear(w, s, u).crypto == if s.crypto == u.oldKey then u.newKey else s.crypto
  {
    hide Handle, Wraps, Lawful, ValidChannelId, ExtractMessageId, Seen, Hear;
    UpdateTakenIff(w, s, u);
  }

  /** Two members rotate at once: both are on `k`, each shares a key of its own and
      switches before the other's update arrives. Each stays on its own key; everybody
      else goes with the update that comes first. */
  lemma ConcurrentRotationsDiverge(w: World, a: Store, b: Store, other: Store, k: Key, ua: Update, ub: Update)
    requires Lawful(w.json) && ValidChannelId(a.channelId)
    requires a.channelId == b.channelId == other.channelId && a.crypto == b.crypto == other.crypto == k
    requires ua.oldKey == ub.oldKey == k && k != ua.newKey && k != ub.newKey
    requires Wraps(w, a.channelId, ua) && Wraps(w, a.channelId, ub) && UpdateId(ua) != UpdateId(ub)
    requires forall id | id in other.log :: Some(id) != UpdateId(ua) && Some(id) != UpdateId(ub)
    ensures Moved(w, a, [Switch(ua.newKey), Arrival(ub)]).crypto == ua.newKey
    ensures Moved(w, b, [Switch(ub.newKey), Arrival(ua)]).crypto == ub.newKey
    ensures Moved(w, other, [Arrival(ua), Arrival(ub)]).crypto == ua.newKey
    ensures Moved(w, other, [Arrival(ub), Arrival(ua)]).crypto == ub.newKey
  {
    hide Handle, Hear, Wraps, Lawful, ValidChannelId, UpdateId;
    SwitchedStays(w, a, ua.newKey, ub);
    SwitchedStays(w, b, ub.newKey, ua);
    FirstWins(w, other, ua, ub);
    FirstWins(w, other, ub, ua);
  }

  lemma SwitchedStays(w: World, s: Store, own: Key, u: Update)
    requires Lawful(w.json) && ValidChannelId(s.channelId) && Wraps(w, s.channelId, u) && own != u.oldKey
    ensures Moved(w, s, [Switch(own), Arrival(u)]).crypto == own
  {
    hide Handle, Hear, Wraps, Lawful, ValidChannelId, UpdateId;
    var moves := [Switch(own), Arrival(u)];
    var s1 := UpdateCrypto(s, own);
    assert !Seen(s1, UpdateId(u));
    UpdateTaken(w, s1, u);
    assert moves[1..] == [Arrival(u)] && [Arrival(u)][1..] == [];
    assert Moved(w, s1, [Arrival(u)]) == Hear(w, s1, u);
  }

  lemma FirstWins(w: World, s: Store, first: Update, second: Update)
    requires Lawful(w.json) && ValidChannelId(s.channelId)
    requires first.oldKey == second.oldKey == s.crypto && s.crypto != first.newKey && s.crypto != second.newKey
    requires Wraps(w, s.channelId, first) && Wraps(w, s.channelId, second) && UpdateId(first) != UpdateId(second)
    requires forall id | id in s.log :: Some(id) != UpdateId(first) && Some(id) != UpdateId(second)
    ensures Moved(w, s, [Arrival(first), Arrival(second)]).crypto == first.newKey
  {
    hide Handle, Hear, Wraps, Lawful, ValidChannelId, UpdateId;
    var moves := [Arrival(first), Arrival(second)];
    assert InFlight(w, s, moves);
    MembersFollowChain(w, s, moves);
    assert moves[1..] == [Arrival(second)] && [Arrival(second)][1..] == [];
    assert KeyChain(first.newKey, [Arrival(second)]) == KeyChain(first.newKey, []);
  }
}
