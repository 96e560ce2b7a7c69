/** Replay protection over runs: what the dedup cache, its clearing on rotation and
    the binding of the message id to the ciphertext achieve together. */
module ReplayRuns {
  import opened Options
  import opened Text
  import opened Base64Url
  import opened Envelopes
  import opened Payloads
  import opened ReplayCaches
  import opened ChannelStores
  import opened HandlerEffects
  import opened ReceiveRuns

  /** The key an event puts in place, if it puts one in place. */
  function InstalledBy(sys: Sys, e: Event): Option<Key>
    requires AllTyped(sys.pending)
  {
    match e
    case Arrive(_) => None
    case Install(key) => Some(key)
    case Continue(i) => if i < |sys.pending| then KeyInstalled(sys.store, sys.pending[i]) else None
  }

  function Installs(w: World, sys: Sys, es: seq<Event>): (ks: seq<Key>)
    requires AllTyped(sys.pending)
    decreases |es|
  {
    if es == [] then []
    else
      var k := InstalledBy(sys, es[0]);
      (if k.Some? then [k.value] else []) + Installs(w, Next(w, sys, es[0]), es[1..])
  }

  // ---- what every waiting handler holds ----

  /** A valid envelope and the id it names. */
  predicate Holds(p: Pending)
  {
    p.Typed() && (!p.VerifyingNick? ==> IsValidEnvelope(p.msg.payload) && p.mid == ExtractMessageId(p.msg.payload))
  }

  ghost predicate Sound(sys: Sys)
  {
    && AllTyped(sys.pending)
    && (forall p | p in sys.pending :: Holds(p))
    && Spaced(sys.store.log, CACHE_MAX)
  }

  lemma NewStoreSound(channelId: JsString, key: Key)
    ensures Sound(Sys(NewStore(channelId, key), []))
  {
  }

  lemma RememberSpaced(s: Store, mid: Option<Id>)
    requires Spaced(s.log, CACHE_MAX)
    ensures Spaced(Remember(s, mid).log, CACHE_MAX) && s.log <= Remember(s, mid).log
  {
    if mid.Some? { AddedSpaced(s.log, CACHE_MAX, mid.value); }
  }

  lemma SpacedEmpty()
    ensures Spaced([], CACHE_MAX)
  {
  }

  /** A step that installs no key keeps the key and at most appends to the log. */
  lemma NextLog(w: World, sys: Sys, e: Event)
    requires AllTyped(sys.pending) && Spaced(sys.store.log, CACHE_MAX)
    ensures var s, s', k := sys.store, Next(w, sys, e).store, InstalledBy(sys, e);
            && s'.channelId == s.channelId && Spaced(s'.log, CACHE_MAX)
            && (if k.Some? then s'.crypto == k.value else s'.crypto == s.crypto && s.log <= s'.log)
  {
    var s := sys.store;
    SpacedEmpty();
    if e.Continue? && e.i < |sys.pending| {
      var p := sys.pending[e.i];
      ResumeEffect(w, s, p);
      RememberSpaced(s, MidOf(p));
      RememberSpaced(s.(log := []), MidOf(p));
    } else if e.Arrive? {
      StartEffect(s, e.msg);
    }
    hide Spaced, Resume, Start, Remember, KeyInstalled;
  }

  lemma NextHolds(w: World, sys: Sys, e: Event)
    requires AllTyped(sys.pending) && forall p | p in sys.pending :: Holds(p)
    ensures forall p | p in Next(w, sys, e).pending :: Holds(p)
  {
    hide IsValidEnvelope, ExtractMessageId;
    var sys' := Next(w, sys, e);
    if e.Continue? && e.i < |sys.pending| {
      var p, q := sys.pending[e.i], Resume(w, sys.store, sys.pending[e.i]).1;
      assert Holds(p);
      ResumeEffect(w, sys.store, p);
      hide Resume, TakesIn, LogAfter, KeyInstalled;
      forall r | r in sys'.pending ensures Holds(r) {
        assert r in sys.pending || Some(r) == q;
      }
    } else if e.Arrive? {
      StartEffect(sys.store, e.msg);
      hide Start;
      forall r | r in sys'.pending ensures Holds(r) {
        assert r in sys.pending || Some(r) == Start(sys.store, e.msg).1;
      }
    }
  }

  lemma NextKeepsSound(w: World, sys: Sys, e: Event)
    requires Sound(sys)
    ensures Sound(Next(w, sys, e))
  {
    hide Spaced, Holds, Next;
    NextLog(w, sys, e);
    NextHolds(w, sys, e);
  }

  /** In every run of a fresh store each waiting handler holds a valid envelope and the
      id it names, and equal log entries lie more than a window apart. */
  lemma {:induction false} RunKeepsSound(w: World, sys: Sys, es: seq<Event>)
    requires Sound(sys)
    ensures Sound(Run(w, sys, es))
    decreases |es|
  {
    if es != [] {
      NextKeepsSound(w, sys, es[0]);
      hide Next, Sound;
      RunKeepsSound(w, Next(w, sys, es[0]), es[1..]);
    }
  }

  /** Over a run: with no install the key stays and the log only grows; otherwise the
      key in place is one of those installed. */
  lemma {:induction false} RunLog(w: World, sys: Sys, es: seq<Event>)
    requires AllTyped(sys.pending) && Spaced(sys.store.log, CACHE_MAX)
    ensures var s, s', ks := sys.store, Run(w, sys, es).store, Installs(w, sys, es);
            && s'.channelId == s.channelId && Spaced(s'.log, CACHE_MAX)
            && (if ks == [] then s'.crypto == s.crypto && s.log <= s'.log else s'.crypto in ks)
    decreases |es|
  {
    if es != [] {
      NextLog(w, sys, es[0]);
      hide Next, InstalledBy, Spaced;
      RunLog(w, Next(w, sys, es[0]), es[1..]);
    }
  }

  /** The ids inserted in between are pairwise distinct over any 1000 of them. */
  lemma WindowDistinct(w: World, sys: Sys, es: seq<Event>)
    requires AllTyped(sys.pending) && Spaced(sys.store.log, CACHE_MAX)
    ensures Distinct(Recent(Run(w, sys, es).store.log, CACHE_MAX))
  {
    RunLog(w, sys, es);
    RecentDistinct(Run(w, sys, es).store.log, CACHE_MAX);
  }

  // ---- runs cut in two ----

  lemma {:induction false} RunConcat(w: World, sys: Sys, a: seq<Event>, b: seq<Event>)
    requires AllTyped(sys.pending)
    ensures Run(w, sys, a + b) == Run(w, Run(w, sys, a), b)
    decreases |a|
  {
    hide Next;
    if a == [] {
      assert a + b == b;
    } else {
      assert (a + b)[1..] == a[1..] + b;
      RunConcat(w, Next(w, sys, a[0]), a[1..], b);
    }
  }

  lemma RunStep(w: World, sys: Sys, es: seq<Event>, j: nat)
    requires AllTyped(sys.pending) && j < |es|
    ensures Run(w, sys, es[..j + 1]) == Next(w, Run(w, sys, es[..j]), es[j])
  {
    assert es[..j + 1] == es[..j] + [es[j]] && [es[j]][1..] == [];
    RunConcat(w, sys, es[..j], [es[j]]);
    hide Next;
    var mid := Run(w, sys, es[..j]);
    assert Run(w, mid, [es[j]]) == Run(w, Next(w, mid, es[j]), []);
  }

  lemma RunFrom(w: World, sys: Sys, es: seq<Event>, j: nat)
    requires AllTyped(sys.pending) && j <= |es|
    ensures Run(w, Run(w, sys, es[..j]), es[j..]) == Run(w, sys, es)
  {
    assert es == es[..j] + es[j..];
    RunConcat(w, sys, es[..j], es[j..]);
  }

  /** The state after `j` events of the run is that after `j - 1` events of its tail. */
  lemma RunTail(w: World, sys: Sys, es: seq<Event>, j: nat)
    requires AllTyped(sys.pending) && 1 <= j <= |es|
    ensures Run(w, sys, es[..j]) == Run(w, Next(w, sys, es[0]), es[1..][..j - 1])
  {
    assert es[..j][1..] == es[1..][..j - 1];
    hide Next;
  }

  // ---- when an id is taken in ----

  /** In this event a handler that holds the id takes it into the cache; it was not
      remembered before, or the cache is emptied in the same step. */
  predicate Inserts(w: World, sys: Sys, e: Event, mid: Id)
    requires AllTyped(sys.pending)
  {
    && e.Continue? && e.i < |sys.pending|
    && var p := sys.pending[e.i];
    && MidOf(p) == Some(mid) && TakesIn(w, sys.store, p)
    && (p.ImportingKey? || !Seen(sys.store, Some(mid)))
  }

  lemma InsertsAppends(w: World, sys: Sys, e: Event, mid: Id)
    requires AllTyped(sys.pending) && Inserts(w, sys, e, mid) && mid != []
    ensures Next(w, sys, e).store.log == (if sys.pending[e.i].ImportingKey? then [] else sys.store.log) + [mid]
  {
    ResumeEffect(w, sys.store, sys.pending[e.i]);
    hide Resume, TakesIn;
  }

  /** What is new in the log was inserted, at its end. */
  lemma NewWasInserted(w: World, sys: Sys, e: Event, p: nat)
    requires AllTyped(sys.pending) && p < |Next(w, sys, e).store.log|
    requires InstalledBy(sys, e).Some? || p >= |sys.store.log|
    ensures var log := Next(w, sys, e).store.log;
            Inserts(w, sys, e, log[p]) && p == |log| - 1
  {
    if e.Continue? && e.i < |sys.pending| {
      ResumeEffect(w, sys.store, sys.pending[e.i]);
      hide Resume;
    } else if e.Arrive? {
      StartEffect(sys.store, e.msg);
      hide Start;
    }
  }

  /** The id taken in by the `j`-th event is entry `p` of the log, up to the end. */
  ghost predicate InsertedAt(w: World, sys: Sys, es: seq<Event>, j: nat, mid: Id, p: int)
    requires AllTyped(sys.pending) && j < |es|
  {
    var after := Run(w, sys, es[..j + 1]);
    && Inserts(w, Run(w, sys, es[..j]), es[j], mid)
    && Installs(w, after, es[j + 1..]) == [] && |after.store.log| == p + 1
  }

  lemma InsertedEarlier(w: World, sys: Sys, es: seq<Event>, j: nat, mid: Id, p: int)
    requires AllTyped(sys.pending) && es != [] && j < |es[1..]|
    requires InsertedAt(w, Next(w, sys, es[0]), es[1..], j, mid, p)
    ensures InsertedAt(w, sys, es, j + 1, mid, p)
  {
    RunTail(w, sys, es, j + 1);
    RunTail(w, sys, es, j + 2);
    assert es[1..][j + 1..] == es[j + 2..] && es[1..][j] == es[j + 1];
    hide Next, Run, Inserts, Installs;
  }

  lemma FirstInserts(w: World, sys: Sys, es: seq<Event>, mid: Id, p: int)
    requires AllTyped(sys.pending) && es != [] && Inserts(w, sys, es[0], mid)
    requires Installs(w, Next(w, sys, es[0]), es[1..]) == [] && |Next(w, sys, es[0]).store.log| == p + 1
    ensures InsertedAt(w, sys, es, 0, mid, p)
  {
    assert es[..0] == [] && es[0 + 1..] == es[1..];
    RunStep(w, sys, es, 0);
    hide Next, Inserts, Installs;
  }

  /** Every entry of the log that a run has added goes back to one event that took it in,
      after which no key was installed. */
  lemma {:induction false} EntryWasInserted(w: World, sys: Sys, es: seq<Event>, p: nat) returns (j: nat)
    requires AllTyped(sys.pending) && Spaced(sys.store.log, CACHE_MAX) && p < |Run(w, sys, es).store.log|
    requires Installs(w, sys, es) != [] || p >= |sys.store.log|
    ensures j < |es| && InsertedAt(w, sys, es, j, Run(w, sys, es).store.log[p], p)
    decreases |es|
  {
    var sys1, rest := Next(w, sys, es[0]), es[1..];
    NextLog(w, sys, es[0]);
    RunLog(w, sys1, rest);
    hide Next, Inserts, InstalledBy, Spaced;
    if Installs(w, sys1, rest) != [] || p >= |sys1.store.log| {
      var i := EntryWasInserted(w, sys1, rest, p);
      InsertedEarlier(w, sys, es, i, Run(w, sys, es).store.log[p], p);
      j := i + 1;
    } else {
      NewWasInserted(w, sys, es[0], p);
      FirstInserts(w, sys, es, Run(w, sys, es).store.log[p], p);
      j := 0;
    }
  }

  // ---- exactly when a copy is dropped ----

  /** An id is remembered while fewer than 1000 entries follow it, and forgotten after
      that unless it is taken in again. */
  lemma StillRemembered(pre: seq<Id>, id: Id, log: seq<Id>)
    requires Spaced(log, CACHE_MAX) && pre + [id] <= log
    ensures var more := log[|pre| + 1..];
            && (|more| < CACHE_MAX ==> id in Recent(log, CACHE_MAX))
            && (|more| >= CACHE_MAX && id !in more ==> id !in Recent(log, CACHE_MAX))
  {
    var more := log[|pre| + 1..];
    assert log == pre + [id] + more;
    assert log[|pre|] == id;
    hide Spaced, Recent;
    if |more| < CACHE_MAX { RecentPosition(log, CACHE_MAX, |pre|); }
    if id !in more { RememberedFor(pre, CACHE_MAX, id, more); }
  }

  /** The `j`-th event takes the id in, no later event installs a key, and fewer than
      1000 ids have been taken in since. */
  ghost predicate TakenRecently(w: World, sys: Sys, es: seq<Event>, j: nat, mid: Id)
    requires AllTyped(sys.pending) && j < |es|
  {
    var after := Run(w, sys, es[..j + 1]);
    && Inserts(w, Run(w, sys, es[..j]), es[j], mid)
    && Installs(w, after, es[j + 1..]) == []
    && |Run(w, sys, es).store.log| - |after.store.log| < CACHE_MAX
  }

  lemma TakenIsSeen(w: World, sys: Sys, es: seq<Event>, j: nat, mid: Id)
    requires AllTyped(sys.pending) && Spaced(sys.store.log, CACHE_MAX) && mid != []
    requires j < |es| && TakenRecently(w, sys, es, j, mid)
    ensures Seen(Run(w, sys, es).store, Some(mid))
  {
    var before, after, end := Run(w, sys, es[..j]), Run(w, sys, es[..j + 1]), Run(w, sys, es).store;
    RunStep(w, sys, es, j);
    InsertsAppends(w, before, es[j], mid);
    RunFrom(w, sys, es, j + 1);
    RunLog(w, sys, es[..j + 1]);
    RunLog(w, after, es[j + 1..]);
    var pre := if before.pending[es[j].i].ImportingKey? then [] else before.store.log;
    hide Next, Run, Inserts, Installs, Spaced, Recent;
    StillRemembered(pre, mid, end.log);
  }

  lemma SeenWasTaken(w: World, sys: Sys, es: seq<Event>, mid: Id) returns (j: nat)
    requires AllTyped(sys.pending) && Spaced(sys.store.log, CACHE_MAX) && mid !in sys.store.log
    requires Seen(Run(w, sys, es).store, Some(mid))
    ensures j < |es| && TakenRecently(w, sys, es, j, mid)
  {
    var end := Run(w, sys, es).store;
    RunLog(w, sys, es);
    hide Run, Installs, Spaced, Inserts;
    var p := RecentIndex(end.log, mid);
    assert Installs(w, sys, es) == [] ==> forall i | 0 <= i < |sys.store.log| :: end.log[i] == sys.store.log[i];
    j := EntryWasInserted(w, sys, es, p);
  }

  lemma RecentIndex(log: seq<Id>, mid: Id) returns (p: nat)
    requires mid in Recent(log, CACHE_MAX)
    ensures p < |log| && log[p] == mid && |log| - p <= CACHE_MAX
  {
    var r := Recent(log, CACHE_MAX);
    var i :| 0 <= i < |r| && r[i] == mid;
    p := i + |log| - |r|;
  }

  /** Replay protection, exactly, for every interleaving. Whatever has happened, a valid
      envelope that arrives in any of the four kinds of frames is dropped, leaving a
      banner only, if and only if some handler of the same message id has taken it in,
      with no key installed and fewer than 1000 ids taken in after that. In every other
      case it is let in: when no handler of that id has ended yet, however many copies
      have arrived, when the cache has been emptied, and after 1000 other ids. */
  lemma CopyDroppedIff(w: World, sys: Sys, es: seq<Event>, msg: ServerMsg)
    requires Sound(sys) && Encrypted(msg) && IsValidEnvelope(msg.payload)
    requires forall id | id in sys.store.log :: Some(id) != ExtractMessageId(msg.payload)
    ensures ExtractMessageId(msg.payload).Some?
    ensures var s, mid := Run(w, sys, es).store, ExtractMessageId(msg.payload);
            if exists j | 0 <= j < |es| :: TakenRecently(w, sys, es, j, mid.value)
            then Start(s, msg) == (s.(error := Some(ReplayError(msg))), None)
            else Start(s, msg) == (s, Some(Opening(msg, mid, s.crypto)))
  {
    ValidNamesId(msg.payload);
    var s, mid := Run(w, sys, es).store, ExtractMessageId(msg.payload).value;
    StartEncrypted(s, msg);
    hide Start, TakenRecently, Run, Seen, IsValidEnvelope, ExtractMessageId;
    if j :| 0 <= j < |es| && TakenRecently(w, sys, es, j, mid) { TakenIsSeen(w, sys, es, j, mid); }
    if Seen(s, Some(mid)) {
      var j := SeenWasTaken(w, sys, es, mid);
    }
  }

  /** What is let in is shown, whatever the cache holds by the time its handler goes on:
      raw text at once, a signed message when its signature has been checked, a changed
      room name unless it is a re-announcement. */
  lemma LetInIsShown(w: World, s: Store, p: Pending)
    requires p.Typed() && (p.Decrypting? || p.UnwrappingName?) && Plaintext(w, s, p).Some?
    ensures var plain, (s', next) := Plaintext(w, s, p).value, Resume(w, s, p);
            if p.UnwrappingName? then
              var n := ParseRoomName(w.json, plain);
              n.Some? && !n.value.initial && s.lastRoomName != Some(n.value.name) ==>
                s'.messages == s.messages + [RoomNameNotice(p.msg.channelId, n.value.name, p.msg.from)]
            else if ParseSigned(w.json, plain).Some? then
              (s', next) == (s, Some(Verifying(p.msg, p.mid, ParseSigned(w.json, plain).value)))
            else StalePk(w.json, plain).None? && !IsUnknownStructured(w.json, plain) ==>
              s'.messages == s.messages + [Chat(p.msg.channelId, Plain(plain), p.msg.from, p.msg.self, None)]
  {
    hide Decrypt, ParseSigned, StalePk, IsUnknownStructured, ParseRoomName, Added;
  }

  /** Whether an entry is a bubble with this text. */
  predicate IsText(e: Entry, text: JsString) { e.Chat? && e.content == Plain(text) }

  function Bubbles(ms: seq<Entry>, text: JsString): nat
  {
    if ms == [] then 0 else Bubbles(ms[..|ms| - 1], text) + (if IsText(ms[|ms| - 1], text) then 1 else 0)
  }

  lemma BubblesAppend(ms: seq<Entry>, e: Entry, text: JsString)
    ensures Bubbles(ms + [e], text) == Bubbles(ms, text) + (if IsText(e, text) then 1 else 0)
  {
    assert (ms + [e])[..|ms|] == ms;
  }

  /** The verified end of a signed handler adds one bubble, in any state. */
  lemma VerifiedIsShown(w: World, s: Store, p: Pending)
    requires p.Typed() && p.Verifying? && ClaimVerifies(w, s, p)
    ensures Bubbles(Resume(w, s, p).0.messages, p.signed.text) == Bubbles(s.messages, p.signed.text) + 1
  {
    hide VerifySignedMessage, FpOf, Bubbles, ConflictKey, Added;
    var m := p.signed;
    var (s1, id) := RecordIdentity(s, m.nick, m.pk);
    var chat := Chat(p.msg.channelId, Plain(m.text), p.msg.from, p.msg.self, Some(id));
    BubblesAppend(s.messages, chat, m.text);
    BubblesAppend(s.messages + [chat], ConflictNotice(p.msg.channelId, p.msg.from, m.nick, id.fp), m.text);
  }

  /** The text that a message frame shows under a key: that of a claim that verifies, or
      untagged raw text. */
  function TextShown(w: World, channelId: JsString, key: Key, msg: ServerMsg): Option<JsString>
    requires msg.Message?
  {
    var plain := Decrypt(w.seals, key, channelId, msg.payload);
    if plain.None? then None
    else
      var m := ParseSigned(w.json, plain.value);
      var mid := ExtractMessageId(msg.payload);
      if m.Some? then
        if VerifySignedMessage(w.sigs, channelId, if mid.Some? then mid.value else [], m.value)
        then Some(m.value.text) else None
      else if StalePk(w.json, plain.value).Some? || IsUnknownStructured(w.json, plain.value) then None
      else plain
  }

  /** Two copies, signed or not, that both arrive before either handler has ended are
      both shown. */
  lemma OverlappingCopiesBothShown(w: World, s: Store, msg: ServerMsg, again: ServerMsg)
    requires msg.Message? && again.Message? && again.payload == msg.payload && IsValidEnvelope(msg.payload)
    requires !Seen(s, ExtractMessageId(msg.payload)) && TextShown(w, s.channelId, s.crypto, msg).Some?
    ensures var text := TextShown(w, s.channelId, s.crypto, msg).value;
            var end := Run(w, Sys(s, []), [Arrive(msg), Arrive(again), Continue(0), Continue(0), Continue(0),
                                           Continue(0)]);
            end.pending == [] && Bubbles(end.store.messages, text) == Bubbles(s.messages, text) + 2
  {
    hide Decrypt, IsValidEnvelope, ExtractMessageId, ParseSigned, StalePk, IsUnknownStructured, VerifySignedMessage,
      Seen, Resume, Bubbles;
    var mid := ExtractMessageId(msg.payload);
    var p, q := Decrypting(msg, mid, s.crypto), Decrypting(again, mid, s.crypto);
    var cs := [Continue(0), Continue(0), Continue(0), Continue(0)];
    var es := [Arrive(msg), Arrive(again)] + cs;
    assert Next(w, Sys(s, []), Arrive(msg)) == Sys(s, [p]);
    assert Next(w, Sys(s, [p]), Arrive(again)) == Sys(s, [p, q]);
    assert es[1..] == [Arrive(again)] + cs && es[1..][1..] == cs;
    assert Run(w, Sys(s, []), es) == Run(w, Sys(s, [p, q]), cs);
    if ParseSigned(w.json, Plaintext(w, s, p).value).Some? {
      SignedCopiesShown(w, s, p, q, ParseSigned(w.json, Plaintext(w, s, p).value).value);
    } else {
      RawCopiesShown(w, s, p, q);
    }
  }

  lemma SignedCopiesShown(w: World, s: Store, p: Pending, q: Pending, m: Signed)
    requires p.Decrypting? && q.Decrypting? && p.Typed() && q.Typed() && p.mid == q.mid
    requires Plaintext(w, s, p) == Plaintext(w, s, q) && Plaintext(w, s, p).Some?
    requires ParseSigned(w.json, Plaintext(w, s, p).value) == Some(m)
    requires VerifySignedMessage(w.sigs, s.channelId, if p.mid.Some? then p.mid.value else [], m)
    ensures var end := Run(w, Sys(s, [p, q]), [Continue(0), Continue(0), Continue(0), Continue(0)]);
            end.pending == [] && Bubbles(end.store.messages, m.text) == Bubbles(s.messages, m.text) + 2
  {
    hide Decrypt, ParseSigned, VerifySignedMessage, Resume, Bubbles, Run;
    var v, v' := Verifying(p.msg, p.mid, m), Verifying(q.msg, q.mid, m);
    LetInIsShown(w, s, p);
    LetInIsShown(w, s, q);
    VerifiedIsShown(w, s, v);
    ResumeEffect(w, s, v);
    var s1 := Resume(w, s, v).0;
    VerifiedIsShown(w, s1, v');
    VerifyingEnds(w, s, v);
    VerifyingEnds(w, s1, v');
    hide Plaintext, TakesIn, LogAfter, KeyInstalled;
    Run4(w, Sys(s, [p, q]), Continue(0), Continue(0), Continue(0), Continue(0));
    assert Next(w, Sys(s, [p, q]), Continue(0)) == Sys(s, [q, v]);
    assert Next(w, Sys(s, [q, v]), Continue(0)) == Sys(s, [v, v']);
    assert Next(w, Sys(s, [v, v']), Continue(0)) == Sys(s1, [v']);
    assert Next(w, Sys(s1, [v']), Continue(0)) == Sys(Resume(w, s1, v').0, []);
  }

  lemma RawCopiesShown(w: World, s: Store, p: Pending, q: Pending)
    requires p.Decrypting? && q.Decrypting? && p.Typed() && q.Typed()
    requires p.key == q.key && p.msg.payload == q.msg.payload && Plaintext(w, s, p).Some?
    requires var text := Plaintext(w, s, p).value;
             ParseSigned(w.json, text).None? && StalePk(w.json, text).None? && !IsUnknownStructured(w.json, text)
    ensures var text := Plaintext(w, s, p).value;
            var end := Run(w, Sys(s, [p, q]), [Continue(0), Continue(0), Continue(0), Continue(0)]);
            end.pending == [] && Bubbles(end.store.messages, text) == Bubbles(s.messages, text) + 2
  {
    hide Decrypt, ParseSigned, StalePk, IsUnknownStructured, Resume, Bubbles, Run;
    var text := Plaintext(w, s, p).value;
    var s1 := Resume(w, s, p).0;
    ResumeEffect(w, s, p);
    LetInIsShown(w, s, p);
    LetInIsShown(w, s1, q);
    DecryptingEnds(w, s, p);
    DecryptingEnds(w, s1, q);
    var s2 := Resume(w, s1, q).0;
    BubblesAppend(s.messages, Chat(p.msg.channelId, Plain(text), p.msg.from, p.msg.self, None), text);
    BubblesAppend(s1.messages, Chat(q.msg.channelId, Plain(text), q.msg.from, q.msg.self, None), text);
    hide Plaintext, TakesIn, LogAfter, KeyInstalled;
    Run4(w, Sys(s, [p, q]), Continue(0), Continue(0), Continue(0), Continue(0));
    assert Next(w, Sys(s, [p, q]), Continue(0)) == Sys(s1, [q]);
    assert Next(w, Sys(s1, [q]), Continue(0)) == Sys(s2, []);
    assert Next(w, Sys(s2, []), Continue(0)) == Sys(s2, []);
  }

  lemma DecryptingEnds(w: World, s: Store, p: Pending)
    requires p.Typed() && p.Decrypting?
    requires Plaintext(w, s, p).None? || ParseSigned(w.json, Plaintext(w, s, p).value).None?
    ensures Resume(w, s, p).1.None?
  {
    DecryptingEffect(w, s, p);
    hide ResumeDecrypting;
  }

  lemma VerifyingEnds(w: World, s: Store, p: Pending)
    requires p.Typed() && p.Verifying?
    ensures Resume(w, s, p).1.None?
  {
    hide ResumeVerifying;
  }

  // ---- the record behind the id ----

  /** The i-th handler is about to take in the id of an envelope that carries `record`
      and opens under key `k`. */
  ghost predicate AboutToTakeIn(w: World, sys: Sys, i: nat, k: Key, record: Option<(Bytes, Bytes)>, mid: Id)
    requires AllTyped(sys.pending)
  {
    && Inserts(w, sys, Continue(i), mid)
    && Carried(sys.pending[i].msg.payload) == record
    && Unseal(w.seals, k, sys.store.channelId, sys.pending[i].msg.payload).Some?
  }

  lemma TakenInLog(w: World, sys: Sys, i: nat, k: Key, record: Option<(Bytes, Bytes)>, mid: Id) returns (pre: seq<Id>)
    requires Sound(sys) && AboutToTakeIn(w, sys, i, k, record, mid)
    ensures var s := Next(w, sys, Continue(i)).store;
            s.log == pre + [mid] && s.channelId == sys.store.channelId && Spaced(s.log, CACHE_MAX)
    ensures IsValidEnvelope(sys.pending[i].msg.payload) && ExtractMessageId(sys.pending[i].msg.payload) == Some(mid)
  {
    var p := sys.pending[i];
    assert p in sys.pending && Holds(p);
    ValidNamesId(p.msg.payload);
    InsertsAppends(w, sys, Continue(i), mid);
    NextLog(w, sys, Continue(i));
    hide Next, Spaced, Unseal, Carried;
    pre := if p.ImportingKey? then [] else sys.store.log;
  }

  lemma KeyNotReplaced(w: World, sys: Sys, es: seq<Event>, k: Key)
    requires AllTyped(sys.pending) && Spaced(sys.store.log, CACHE_MAX) && k !in Installs(w, sys, es)
    ensures var s := Run(w, sys, es).store;
            && s.channelId == sys.store.channelId && Spaced(s.log, CACHE_MAX)
            && (s.crypto == k ==> Installs(w, sys, es) == [] && sys.store.log <= s.log)
  {
    hide Run, Installs, Spaced;
    RunLog(w, sys, es);
  }

  /** A record that opens again later is still in the log, for its key is still in place. */
  lemma RecordStaysLogged(w: World, sys: Sys, i: nat, k: Key, mid: Id, sys1: Sys, es: seq<Event>, s: Store,
                          msg: ServerMsg) returns (pre: seq<Id>)
    requires Sound(sys) && AllUrl(sys.store.channelId) && Encrypted(msg) && IsValidEnvelope(msg.payload)
    requires AboutToTakeIn(w, sys, i, k, Carried(msg.payload), mid) && sys1 == Next(w, sys, Continue(i))
    requires s == Run(w, sys1, es).store && k !in Installs(w, sys1, es)
    requires Unseal(w.seals, s.crypto, s.channelId, msg.payload).Some?
    ensures ExtractMessageId(msg.payload) == Some(mid) && mid != [] && sys1.store.log <= s.log
    ensures Spaced(s.log, CACHE_MAX) && sys1.store.log == pre + [mid]
  {
    var payload := sys.pending[i].msg.payload;
    hide Run, Next, Unseal, Carried, IsValidEnvelope, ExtractMessageId, Installs, Inserts, Spaced;
    pre := TakenInLog(w, sys, i, k, Carried(msg.payload), mid);
    ValidNamesId(msg.payload);
    hide Sound;
    assert Carried(payload) == Carried(msg.payload) && Unseal(w.seals, k, sys.store.channelId, payload).Some?;
    hide AboutToTakeIn;
    KeyNotReplaced(w, sys1, es, k);
    OneReading(w.seals, k, sys.store.channelId, payload, s.crypto, s.channelId, msg.payload);
  }

  /** Replay safety, for every interleaving. A handler takes a sealed record in; later,
      with that record's key not installed again meanwhile, a frame of any of the four
      kinds that carries the same record arrives and would open. If fewer than 1000 ids
      were taken in in between, it is dropped without a trace in the timeline; after 1000
      other ids it is let in again. */
  lemma NoReplayAfterCompletion(w: World, sys: Sys, i: nat, k: Key, mid: Id, sys1: Sys, es: seq<Event>, s: Store,
                                msg: ServerMsg)
    requires Sound(sys) && AllUrl(sys.store.channelId) && Encrypted(msg) && IsValidEnvelope(msg.payload)
    requires AboutToTakeIn(w, sys, i, k, Carried(msg.payload), mid) && sys1 == Next(w, sys, Continue(i))
    requires s == Run(w, sys1, es).store && k !in Installs(w, sys1, es)
    requires Unseal(w.seals, s.crypto, s.channelId, msg.payload).Some?
    ensures ExtractMessageId(msg.payload) == Some(mid) && sys1.store.log <= s.log
    ensures var between := s.log[|sys1.store.log|..];
            && (|between| < CACHE_MAX ==> Start(s, msg) == (s.(error := Some(ReplayError(msg))), None))
            && (|between| >= CACHE_MAX && mid !in between ==>
                  Start(s, msg) == (s, Some(Opening(msg, Some(mid), s.crypto))))
  {
    var pre := RecordStaysLogged(w, sys, i, k, mid, sys1, es, s, msg);
    hide Run, Next, Unseal, Carried, IsValidEnvelope, ExtractMessageId, Installs, Sound, AboutToTakeIn, Spaced, Recent;
    StillRemembered(pre, mid, s.log);
    StartEncrypted(s, msg);
    hide Start;
  }

  // ---- handlers that run to completion ----

  datatype Turn = Deliver(msg: ServerMsg) | Rotate(key: Key)

  function Take(w: World, s: Store, t: Turn): Store
  {
    match t
    case Deliver(msg) => Handle(w, s, msg)
    case Rotate(key) => UpdateCrypto(s, key)
  }

  function Turns(w: World, s: Store, ts: seq<Turn>): Store
    decreases |ts|
  {
    if ts == [] then s else Turns(w, Take(w, s, ts[0]), ts[1..])
  }

  /** A turn as events: no handler waits for more than two results. */
  function TurnEvents(t: Turn): seq<Event>
  {
    match t
    case Deliver(msg) => [Arrive(msg), Continue(0), Continue(0)]
    case Rotate(key) => [Install(key)]
  }

  function Events(ts: seq<Turn>): seq<Event>
  {
    if ts == [] then [] else TurnEvents(ts[0]) + Events(ts[1..])
  }

  lemma Run3(w: World, sys: Sys, a: Event, b: Event, c: Event)
    requires AllTyped(sys.pending)
    ensures Run(w, sys, [a, b, c]) == Next(w, Next(w, Next(w, sys, a), b), c)
  {
    hide Next;
    assert [a, b, c][1..] == [b, c] && [b, c][1..] == [c] && [c][1..] == [];
    var s1 := Next(w, sys, a);
    var s2 := Next(w, s1, b);
    assert Run(w, s2, [c]) == Next(w, s2, c);
    assert Run(w, s1, [b, c]) == Run(w, s2, [c]);
  }

  lemma Run4(w: World, sys: Sys, a: Event, b: Event, c: Event, d: Event)
    requires AllTyped(sys.pending)
    ensures Run(w, sys, [a, b, c, d]) == Next(w, Next(w, Next(w, Next(w, sys, a), b), c), d)
  {
    hide Next;
    assert [a, b, c, d][1..] == [b, c, d];
    Run3(w, Next(w, sys, a), b, c, d);
  }

  lemma TurnIsRun(w: World, s: Store, t: Turn)
    ensures Run(w, Sys(s, []), TurnEvents(t)) == Sys(Take(w, s, t), [])
  {
    hide Start, Resume;
    match t
    case Rotate(key) =>
      assert [Install(key)][1..] == [];
    case Deliver(msg) =>
      Run3(w, Sys(s, []), Arrive(msg), Continue(0), Continue(0));
      HandleSteps(w, s, msg);
      var (s1, p) := Start(s, msg);
      var sys1 := Sys(s1, Waiting(p));
      assert Next(w, Sys(s, []), Arrive(msg)) == sys1;
      if p.Some? {
        var (s2, q) := Resume(w, s1, p.value);
        var sys2 := Sys(s2, Waiting(q));
        assert Next(w, sys1, Continue(0)) == sys2;
        if q.Some? {
          var (s3, r) := Resume(w, s2, q.value);
          assert r.None?;
          assert Next(w, sys2, Continue(0)) == Sys(s3, []);
        } else {
          assert Next(w, sys2, Continue(0)) == sys2;
        }
      } else {
        assert Next(w, sys1, Continue(0)) == sys1;
      }
  }

  lemma {:induction false} TurnsAreRuns(w: World, s: Store, ts: seq<Turn>)
    ensures Run(w, Sys(s, []), Events(ts)) == Sys(Turns(w, s, ts), [])
    decreases |ts|
  {
    hide Take, TurnEvents;
    if ts != [] {
      TurnIsRun(w, s, ts[0]);
      RunConcat(w, Sys(s, []), TurnEvents(ts[0]), Events(ts[1..]));
      TurnsAreRuns(w, Take(w, s, ts[0]), ts[1..]);
    }
  }

  /** A resumed handler that does not take its id in leaves nothing but a banner. */
  lemma OnlyTakersLeaveMore(w: World, s: Store, p: Pending)
    requires p.Typed() && !p.VerifyingNick?
    ensures var (s', q) := Resume(w, s, p);
            && (!TakesIn(w, s, p) ==> s' == s.(error := s'.error))
            && (q.Some? && !TakesIn(w, s, p) ==> s' == s && AwaitsLast(q.value) && MidOf(q.value) == MidOf(p))
            && (q.Some? && TakesIn(w, s, p) ==> q.value.VerifyingNick?)
            && (q.None? && p.Decrypting? ==> TakesIn(w, s, p))
  {
    if p.Decrypting? { DecryptingEffect(w, s, p); }
    hide Decrypt, ParseSigned, ParseNick, ParseRoomName, ParseNewKey, ImportKey, ResumeDecrypting, ResumeVerifying,
      ValidChannelId;
  }

  predicate AwaitsLast(p: Pending) { p.Verifying? || p.ImportingKey? }

  lemma LastStep(w: World, s: Store, p: Pending)
    requires p.Typed() && (AwaitsLast(p) || p.VerifyingNick?)
    ensures var s' := Resume(w, s, p).0;
            && (p.VerifyingNick? ==> s'.log == s.log && s'.crypto == s.crypto)
            && (p.Verifying? ==> TakesIn(w, s, p) && s'.crypto == s.crypto)
            && s'.channelId == s.channelId
            && (!p.VerifyingNick? && !TakesIn(w, s, p) ==> s' == s.(error := s'.error))
  {
    ResumeEffect(w, s, p);
    if !p.VerifyingNick? { OnlyTakersLeaveMore(w, s, p); }
    hide Resume;
  }

  /** Handling an unseen envelope either leaves nothing behind but a banner, or ends with
      its id as the last one taken in. */
  lemma HandledIsRemembered(w: World, s: Store, msg: ServerMsg)
    requires Encrypted(msg) && IsValidEnvelope(msg.payload) && !Seen(s, ExtractMessageId(msg.payload))
    ensures var s', mid := Handle(w, s, msg), ExtractMessageId(msg.payload);
            && s'.channelId == s.channelId && mid.Some? && mid.value != []
            && (s' == s.(error := s'.error)
                || s'.log == (if msg.KeyUpdated? then [] else s.log) + [mid.value])
            && (msg.Message? ==> s'.log == s.log + [mid.value])
            && (!msg.KeyUpdated? ==> s'.crypto == s.crypto)
  {
    ValidNamesId(msg.payload);
    HandleSteps(w, s, msg);
    StartEncrypted(s, msg);
    var mid := ExtractMessageId(msg.payload);
    var p := Opening(msg, mid, s.crypto);
    hide Start, Handle, IsValidEnvelope, ExtractMessageId, Resume;
    ResumeEffect(w, s, p);
    OnlyTakersLeaveMore(w, s, p);
    var (s1, q) := Resume(w, s, p);
    if q.Some? {
      ResumeEffect(w, s1, q.value);
      LastStep(w, s1, q.value);
    }
    hide TakesIn, KeyInstalled;
  }

  /** What a frame that does not open leaves behind: a banner, and for a message the
      warning bubble. */
  function Unreadable(s: Store, msg: ServerMsg): Store
    requires Encrypted(msg)
  {
    match msg
    case Message(_, payload, _, _) =>
      Finish(s.(error := Some(DecryptFailed)), msg, ExtractMessageId(payload), DecryptFailedWarning, None)
    case KeyUpdated(_, _, _, _) => s.(error := Some(KeyRotationFailed))
    case RoomNameUpdated(_, _, _, _) => s.(error := Some(RoomNameFailed))
    case NicknameUpdated(_, _, _, _) => s.(error := Some(NickFailed))
  }

  lemma ClosedIsUnreadable(w: World, s: Store, msg: ServerMsg)
    requires Encrypted(msg) && IsValidEnvelope(msg.payload) && !Seen(s, ExtractMessageId(msg.payload))
    requires Decrypt(w.seals, s.crypto, s.channelId, msg.payload).None?
    ensures Handle(w, s, msg) == Unreadable(s, msg)
  {
    HandleSteps(w, s, msg);
    StartEncrypted(s, msg);
    hide Start, Handle, IsValidEnvelope, ExtractMessageId, Decrypt, Finish, Seen;
  }

  /** At most once, for handlers that run to completion. A frame of any of the four kinds
      was handled and left something behind: a bubble, a room name, a pin, a key. After
      any turns that do not install its key again and, if no key was installed, took in
      fewer than 1000 ids, every frame of any kind that carries the same sealed record
      leaves nothing of its content: it is dropped or fails to decrypt. */
  lemma AtMostOnce(w: World, s: Store, msg: ServerMsg, ts: seq<Turn>, again: ServerMsg)
    requires Spaced(s.log, CACHE_MAX) && AllUrl(s.channelId)
    requires Encrypted(msg) && IsValidEnvelope(msg.payload) && !Seen(s, ExtractMessageId(msg.payload))
    requires Unseal(w.seals, s.crypto, s.channelId, msg.payload).Some?
    requires var s1 := Handle(w, s, msg);
             && s1 != s.(error := s1.error)
             && s.crypto !in Installs(w, Sys(s1, []), Events(ts))
             && (Installs(w, Sys(s1, []), Events(ts)) == [] ==> |Turns(w, s1, ts).log| < |s1.log| + CACHE_MAX)
    requires Encrypted(again) && IsValidEnvelope(again.payload) && Carried(again.payload) == Carried(msg.payload)
    ensures var s2 := Turns(w, Handle(w, s, msg), ts);
            || Handle(w, s2, again) == s2.(error := Some(ReplayError(again)))
            || Handle(w, s2, again) == Unreadable(s2, again)
  {
    var s1, s2 := Handle(w, s, msg), Turns(w, Handle(w, s, msg), ts);
    RememberedLater(w, s, msg, ts);
    hide Handle, Turns, Events, Installs, Spaced, Carried, Unseal, IsValidEnvelope, ExtractMessageId, Unreadable,
      Seen, ReplayError;
    if Seen(s2, ExtractMessageId(again.payload)) {
      DroppedTurn(w, s2, again);
    } else {
      if Unseal(w.seals, s2.crypto, s2.channelId, again.payload).Some? {
        OneReading(w.seals, s.crypto, s.channelId, msg.payload, s2.crypto, s2.channelId, again.payload);
        assert false;
      }
      ClosedIsUnreadable(w, s2, again);
    }
  }

  /** After the turns the room is the same, and while the key is, too, the id is remembered. */
  lemma RememberedLater(w: World, s: Store, msg: ServerMsg, ts: seq<Turn>)
    requires Spaced(s.log, CACHE_MAX)
    requires Encrypted(msg) && IsValidEnvelope(msg.payload) && !Seen(s, ExtractMessageId(msg.payload))
    requires var s1 := Handle(w, s, msg);
             && s1 != s.(error := s1.error)
             && s.crypto !in Installs(w, Sys(s1, []), Events(ts))
             && (Installs(w, Sys(s1, []), Events(ts)) == [] ==> |Turns(w, s1, ts).log| < |s1.log| + CACHE_MAX)
    ensures var s2 := Turns(w, Handle(w, s, msg), ts);
            s2.channelId == s.channelId && (s2.crypto == s.crypto ==> Seen(s2, ExtractMessageId(msg.payload)))
  {
    var s1, s2 := Handle(w, s, msg), Turns(w, Handle(w, s, msg), ts);
    HandledIsRemembered(w, s, msg);
    var id, pre := ExtractMessageId(msg.payload).value, if msg.KeyUpdated? then [] else s.log;
    PushSpaced(s, pre, id);
    hide Handle, Turns, Events, Installs, Spaced, IsValidEnvelope, ExtractMessageId, Recent;
    TurnsAreRuns(w, s1, ts);
    KeyNotReplaced(w, Sys(s1, []), Events(ts), s.crypto);
    hide Run;
    if s2.crypto == s.crypto {
      StillRemembered(pre, id, s2.log);
    }
  }

  lemma PushSpaced(s: Store, pre: seq<Id>, id: Id)
    requires Spaced(s.log, CACHE_MAX) && !Seen(s, Some(id)) && id != [] && (pre == [] || pre == s.log)
    ensures Spaced(pre + [id], CACHE_MAX)
  {
    if pre == s.log { AddedSpaced(s.log, CACHE_MAX, id); }
  }

  lemma DroppedTurn(w: World, s: Store, msg: ServerMsg)
    requires Encrypted(msg) && IsValidEnvelope(msg.payload) && Seen(s, ExtractMessageId(msg.payload))
    ensures Handle(w, s, msg) == s.(error := Some(ReplayError(msg)))
  {
    HandleSteps(w, s, msg);
    StartEncrypted(s, msg);
    hide Start, Handle, IsValidEnvelope, ExtractMessageId, Seen;
  }

  /** Rotation to another key needs no cache: the old record no longer opens. */
  lemma OldRecordsClosed(w: World, channelId: JsString, k: Key, k': Key, payload: JsString)
    requires AllUrl(channelId) && IsValidEnvelope(payload) && k != k'
    requires Unseal(w.seals, k, channelId, payload).Some?
    ensures Unseal(w.seals, k', channelId, payload).None?
  {
    hide Carried, TextDecode, TextEncode;
  }
}
