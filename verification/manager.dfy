/** The in-memory channel manager: two indexes kept by hand, and the one relation of
    (channel, connection, client id) that they stand for. */
module Managers {
  import opened Options

  type ChannelId = string
  type ClientId = string
  /** A connection, by the identity of its pointer. */
  type Conn = nat

  // milliseconds
  const EMPTY_TTL := 10 * 60 * 1000
  const IDLE_TTL := 24 * 60 * 60 * 1000

  datatype Info = Info(conns: map<Conn, ClientId>, createdAt: int, lastActive: int)

  datatype JoinResult = JoinOK | JoinNotFound | JoinFull

  // ---- the plain relation ----

  type Member = (ChannelId, Conn, ClientId)

  /** Existing channels with their last activity, and who is in them. */
  datatype Book = Book(activity: map<ChannelId, int>, members: set<Member>)

  function ConnsIn(b: Book, ch: ChannelId): set<Conn> { set m | m in b.members && m.0 == ch :: m.1 }

  function ChannelsOf(b: Book, conn: Conn): set<ChannelId> { set m | m in b.members && m.1 == conn :: m.0 }

  /** Members are in existing channels, under one client id each. */
  ghost predicate Sound(b: Book)
  {
    && (forall m | m in b.members :: m.0 in b.activity)
    && (forall m, m' | m in b.members && m' in b.members && m.0 == m'.0 && m.1 == m'.1 :: m == m')
  }

  function Without(ms: set<Member>, ch: ChannelId, conn: Conn): set<Member>
  {
    set m | m in ms && !(m.0 == ch && m.1 == conn)
  }

  function Created(b: Book, ch: ChannelId, now: int): Book
  {
    if ch in b.activity then b else b.(activity := b.activity[ch := now])
  }

  function Joined(b: Book, ch: ChannelId, conn: Conn, client: ClientId, max: int, now: int): (Book, JoinResult)
  {
    if ch !in b.activity then (b, JoinNotFound)
    else if max > 0 && |ConnsIn(b, ch)| >= max then (b, JoinFull)
    else (Book(b.activity[ch := now], Without(b.members, ch, conn) + {(ch, conn, client)}), JoinOK)
  }

  function Touched(b: Book, ch: ChannelId, now: int): Book
  {
    if ch in b.activity then b.(activity := b.activity[ch := now]) else b
  }

  function Left(b: Book, ch: ChannelId, conn: Conn): Book { b.(members := Without(b.members, ch, conn)) }

  function LeftAll(b: Book, conn: Conn): Book { b.(members := set m | m in b.members && m.1 != conn) }

  predicate ShouldExpire(b: Book, ch: ChannelId, now: int)
    requires ch in b.activity
  {
    var elapsed := now - b.activity[ch];
    (ConnsIn(b, ch) == {} && elapsed > EMPTY_TTL) || elapsed > IDLE_TTL
  }

  function ExpiredIn(b: Book, now: int): set<ChannelId> { set ch | ch in b.activity && ShouldExpire(b, ch, now) }

  function Swept(b: Book, now: int): Book
  {
    var gone := ExpiredIn(b, now);
    Book(map ch | ch in b.activity && ch !in gone :: b.activity[ch], set m | m in b.members && m.0 !in gone)
  }

  // ---- the two indexes ----

  type Forward = map<ChannelId, Info>
  type Reverse = map<Conn, set<ChannelId>>

  function MembersOf(f: Forward): (r: set<Member>)
    ensures forall m: Member :: m in r <==> m.0 in f && m.1 in f[m.0].conns && f[m.0].conns[m.1] == m.2
  {
    set ch, c | ch in f && c in f[ch].conns :: (ch, c, f[ch].conns[c])
  }

  function BookOf(f: Forward): Book { Book(map ch | ch in f :: f[ch].lastActive, MembersOf(f)) }

  predicate InForward(f: Forward, ch: ChannelId, c: Conn) { ch in f && c in f[ch].conns }

  predicate InReverse(r: Reverse, c: Conn, ch: ChannelId) { c in r && ch in r[c] }

  ghost predicate NoEmptySets(r: Reverse) { forall c | c in r :: r[c] != {} }

  /** The indexes are inverse to each other, and no connection keeps an empty set. */
  ghost predicate Inverse(f: Forward, r: Reverse)
  {
    && (forall ch, c :: InForward(f, ch, c) <==> InReverse(r, c, ch))
    && NoEmptySets(r)
  }

  lemma BookSound(f: Forward)
    ensures Sound(BookOf(f))
  {
  }

  lemma ConnsAreKeys(f: Forward, ch: ChannelId)
    ensures ConnsIn(BookOf(f), ch) == if ch in f then f[ch].conns.Keys else {}
  {
    if ch in f {
      forall c | c in f[ch].conns ensures c in ConnsIn(BookOf(f), ch) {
        assert (ch, c, f[ch].conns[c]) in MembersOf(f);
      }
    }
  }

  lemma ReverseIsChannels(f: Forward, r: Reverse, conn: Conn)
    requires Inverse(f, r)
    ensures ChannelsOf(BookOf(f), conn) == if conn in r then r[conn] else {}
  {
    if conn in r {
      forall ch | ch in r[conn] ensures ch in ChannelsOf(BookOf(f), conn) {
        assert InReverse(r, conn, ch) && InForward(f, ch, conn);
        assert (ch, conn, f[ch].conns[conn]) in MembersOf(f);
      }
    }
    forall ch | ch in ChannelsOf(BookOf(f), conn) ensures conn in r && ch in r[conn] {
      var m :| m in MembersOf(f) && m.1 == conn && m.0 == ch;
      assert InForward(f, ch, conn) && InReverse(r, conn, ch);
    }
  }

  // ---- one update of each index ----

  function Inserted(f: Forward, ch: ChannelId, conn: Conn, client: ClientId, now: int): Forward
    requires ch in f
  {
    f[ch := f[ch].(conns := f[ch].conns[conn := client], lastActive := now)]
  }

  function Added(r: Reverse, conn: Conn, ch: ChannelId): Reverse
  {
    r[conn := (if conn in r then r[conn] else {}) + {ch}]
  }

  function Removed(f: Forward, ch: ChannelId, conn: Conn): Forward
  {
    if ch in f then f[ch := f[ch].(conns := f[ch].conns - {conn})] else f
  }

  /** A channel dropped from one connection's set; an emptied set goes too. */
  function Pruned(r: Reverse, conn: Conn, ch: ChannelId): Reverse
  {
    if conn !in r then r
    else if r[conn] - {ch} == {} then r - {conn}
    else r[conn := r[conn] - {ch}]
  }

  lemma PrunedEntries(r: Reverse, conn: Conn, ch: ChannelId)
    requires NoEmptySets(r)
    ensures NoEmptySets(Pruned(r, conn, ch))
    ensures forall c, x :: InReverse(Pruned(r, conn, ch), c, x) <==> InReverse(r, c, x) && !(c == conn && x == ch)
  {
    if conn in r && r[conn] - {ch} == {} {
      forall x | InReverse(r, conn, x) ensures x == ch {
        assert x in r[conn] && x !in r[conn] - {ch};
      }
    }
  }

  lemma InsertKeepsInverse(f: Forward, r: Reverse, ch: ChannelId, conn: Conn, client: ClientId, now: int)
    requires Inverse(f, r) && ch in f
    ensures Inverse(Inserted(f, ch, conn, client, now), Added(r, conn, ch))
  {
    var g, r' := Inserted(f, ch, conn, client, now), Added(r, conn, ch);
    forall x, c ensures InForward(g, x, c) <==> InReverse(r', c, x) {
      assert InForward(f, x, c) <==> InReverse(r, c, x);
    }
  }

  lemma InsertedBook(f: Forward, ch: ChannelId, conn: Conn, client: ClientId, now: int)
    requires ch in f
    ensures var b := BookOf(f);
            BookOf(Inserted(f, ch, conn, client, now))
              == Book(b.activity[ch := now], Without(b.members, ch, conn) + {(ch, conn, client)})
  {
    var g, b := Inserted(f, ch, conn, client, now), BookOf(f);
    assert BookOf(g).activity == b.activity[ch := now];
    forall m: Member ensures m in MembersOf(g) <==> m in Without(b.members, ch, conn) + {(ch, conn, client)} {
    }
  }

  lemma RemoveKeepsInverse(f: Forward, r: Reverse, ch: ChannelId, conn: Conn)
    requires Inverse(f, r)
    ensures Inverse(Removed(f, ch, conn), Pruned(r, conn, ch))
  {
    PrunedEntries(r, conn, ch);
    hide Pruned;
    forall x, c ensures InForward(Removed(f, ch, conn), x, c) <==> InForward(f, x, c) && !(c == conn && x == ch) {
    }
  }

  lemma RemovedBook(f: Forward, ch: ChannelId, conn: Conn)
    ensures BookOf(Removed(f, ch, conn)) == Left(BookOf(f), ch, conn)
  {
    var g, b := Removed(f, ch, conn), BookOf(f);
    assert BookOf(g).activity == b.activity;
    forall m: Member ensures m in MembersOf(g) <==> m in Without(b.members, ch, conn) {
    }
  }

  /** The forward index once the connection is out of the channels in `done`. */
  function RemovedFrom(f: Forward, done: set<ChannelId>, conn: Conn): Forward
  {
    map ch | ch in f :: if ch in done then f[ch].(conns := f[ch].conns - {conn}) else f[ch]
  }

  lemma RemovedFromAll(f: Forward, r: Reverse, conn: Conn)
    requires Inverse(f, r) && conn in r
    ensures Inverse(RemovedFrom(f, r[conn], conn), r - {conn})
    ensures BookOf(RemovedFrom(f, r[conn], conn)) == LeftAll(BookOf(f), conn)
  {
    var g, r' := RemovedFrom(f, r[conn], conn), r - {conn};
    assert forall ch, c :: InForward(f, ch, c) <==> InReverse(r, c, ch);
    forall ch, c ensures InForward(g, ch, c) <==> InForward(f, ch, c) && c != conn {
      if InForward(f, ch, conn) { assert InReverse(r, conn, ch); }
    }
    forall ch, c ensures InReverse(r', c, ch) <==> InReverse(r, c, ch) && c != conn {
    }
    assert BookOf(g).activity == BookOf(f).activity;
    forall m: Member ensures m in MembersOf(g) <==> m in LeftAll(BookOf(f), conn).members {
      assert InForward(g, m.0, m.1) <==> InForward(f, m.0, m.1) && m.1 != conn;
    }
  }

  /** The reverse index while channel `id` is being dropped: the connections in `done`
      have lost it already. */
  ghost predicate Dropping(f: Forward, r: Reverse, id: ChannelId, done: set<Conn>)
  {
    && (forall c, ch :: InReverse(r, c, ch) <==> InForward(f, ch, c) && !(ch == id && c in done))
    && NoEmptySets(r)
  }

  lemma DropBegin(f: Forward, r: Reverse, id: ChannelId)
    requires Inverse(f, r)
    ensures Dropping(f, r, id, {})
  {
  }

  lemma DropStep(f: Forward, r: Reverse, id: ChannelId, done: set<Conn>, conn: Conn)
    requires Dropping(f, r, id, done)
    ensures Dropping(f, Pruned(r, conn, id), id, done + {conn})
  {
    PrunedEntries(r, conn, id);
    hide Pruned;
  }

  lemma DropEnd(f: Forward, r: Reverse, id: ChannelId)
    requires id in f && Dropping(f, r, id, f[id].conns.Keys)
    ensures Inverse(f - {id}, r)
  {
    forall ch, c ensures InForward(f - {id}, ch, c) <==> InReverse(r, c, ch) {
      assert InReverse(r, c, ch) <==> InForward(f, ch, c) && !(ch == id && c in f[id].conns.Keys);
    }
  }

  lemma KeptBook(before: Forward, f: Forward, now: int)
    requires f.Keys == before.Keys - ExpiredIn(BookOf(before), now)
    requires forall ch | ch in f :: f[ch] == before[ch]
    ensures BookOf(f) == Swept(BookOf(before), now)
  {
    var b := BookOf(before);
    assert BookOf(f).activity == Swept(b, now).activity;
    forall m: Member ensures m in MembersOf(f) <==> m in Swept(b, now).members {
    }
  }

  /** The test of `Expire` on one channel. */
  predicate Over(info: Info, now: int)
  {
    (|info.conns| == 0 && now - info.lastActive > EMPTY_TTL) || now - info.lastActive > IDLE_TTL
  }

  lemma OverIsExpired(f: Forward, now: int)
    ensures ExpiredIn(BookOf(f), now) == set ch | ch in f && Over(f[ch], now)
  {
    forall ch | ch in f ensures ShouldExpire(BookOf(f), ch, now) <==> Over(f[ch], now) {
      ConnsAreKeys(f, ch);
      assert |f[ch].conns| == |f[ch].conns.Keys|;
    }
  }

  lemma HeldChannelsExist(f: Forward, r: Reverse, conn: Conn)
    requires Inverse(f, r) && conn in r
    ensures r[conn] <= f.Keys
  {
    forall ch | ch in r[conn] ensures ch in f {
      assert InReverse(r, conn, ch);
    }
  }

  /** The sequence holds exactly the elements of the set, each once. */
  predicate Lists(s: seq<ChannelId>, chs: set<ChannelId>)
  {
    && (forall i, j | 0 <= i < j < |s| :: s[i] != s[j])
    && (forall ch | ch in s :: ch in chs)
    && (forall ch | ch in chs :: ch in s)
  }

  lemma ListsAppend(s: seq<ChannelId>, chs: set<ChannelId>, ch: ChannelId)
    requires Lists(s, chs) && ch !in chs
    ensures Lists(s + [ch], chs + {ch})
  {
  }

  lemma ListsNone()
    ensures Lists([], {})
  {
  }

  /** The state of a sweep that has `todo` left to look at. */
  ghost predicate Sweeping(before: Forward, f: Forward, todo: set<ChannelId>, now: int)
  {
    && todo <= f.Keys <= before.Keys
    && (forall ch | ch in f :: f[ch] == before[ch])
    && (forall ch | ch in before && ch !in todo :: ch !in f <==> Over(before[ch], now))
  }

  lemma SweepStep(before: Forward, f: Forward, todo: set<ChannelId>, now: int, id: ChannelId)
    requires Sweeping(before, f, todo, now) && id in todo
    ensures Sweeping(before, if Over(f[id], now) then f - {id} else f, todo - {id}, now)
    ensures before.Keys - (f - {id}).Keys == before.Keys - f.Keys + {id} && id !in before.Keys - f.Keys
  {
    hide Over;
  }

  lemma SweepEnd(before: Forward, f: Forward, now: int)
    requires Sweeping(before, f, {}, now)
    ensures BookOf(f) == Swept(BookOf(before), now) && before.Keys - f.Keys == ExpiredIn(BookOf(before), now)
  {
    OverIsExpired(before, now);
    KeptBook(before, f, now);
  }

  lemma RemovedFromStep(f: Forward, done: set<ChannelId>, conn: Conn, ch: ChannelId)
    requires ch in f && ch !in done
    ensures RemovedFrom(f, done + {ch}, conn)
         == RemovedFrom(f, done, conn)[ch := f[ch].(conns := f[ch].conns - {conn})]
    ensures ch in RemovedFrom(f, done, conn) && RemovedFrom(f, done, conn)[ch] == f[ch]
  {
  }

  lemma RemovedFromNone(f: Forward, conn: Conn)
    ensures RemovedFrom(f, {}, conn) == f
  {
  }

  lemma LeaveNowhere(f: Forward, r: Reverse, conn: Conn)
    requires Inverse(f, r) && conn !in r
    ensures LeftAll(BookOf(f), conn) == BookOf(f)
  {
    ReverseIsChannels(f, r, conn);
    forall m | m in MembersOf(f) ensures m.1 != conn {
      assert m.1 == conn ==> m.0 in ChannelsOf(BookOf(f), conn);
    }
  }

  class Manager {
    var channels: Forward
    var connChannels: Reverse

    ghost predicate Valid()
      reads this
    {
      Inverse(channels, connChannels)
    }

    ghost function View(): Book
      reads this
    {
      BookOf(channels)
    }

    constructor ()
      ensures Valid() && View() == Book(map[], {})
    {
      channels, connChannels := map[], map[];
    }

    method Create(channelId: ChannelId, now: int)
      requires Valid()
      modifies this
      ensures Valid() && View() == Created(old(View()), channelId, now)
    {
      if channelId !in channels {
        channels := channels[channelId := Info(map[], now, now)];
        assert View().members == old(View()).members;
      }
    }

    /** Existence, capacity and insertion in one locked step. */
    method JoinIfRoom(channelId: ChannelId, conn: Conn, clientId: ClientId, max: int, now: int) returns (r: JoinResult)
      requires Valid()
      modifies this
      ensures Valid() && (View(), r) == Joined(old(View()), channelId, conn, clientId, max, now)
    {
      hide Inverse, ConnsIn, Without, MembersOf;
      if channelId !in channels { return JoinNotFound; }
      ConnsAreKeys(channels, channelId);
      InsertKeepsInverse(channels, connChannels, channelId, conn, clientId, now);
      InsertedBook(channels, channelId, conn, clientId, now);
      hide BookOf;
      var info := channels[channelId];
      assert |info.conns| == |info.conns.Keys|;
      if max > 0 && |info.conns| >= max { return JoinFull; }
      channels := channels[channelId := info.(conns := info.conns[conn := clientId], lastActive := now)];
      if conn !in connChannels {
        connChannels := connChannels[conn := {}];
      }
      connChannels := connChannels[conn := connChannels[conn] + {channelId}];
      assert connChannels == Added(old(connChannels), conn, channelId);
      assert channelId in old(View()).activity;
      return JoinOK;
    }

    method Touch(channelId: ChannelId, now: int)
      requires Valid()
      modifies this
      ensures Valid() && View() == Touched(old(View()), channelId, now)
    {
      if channelId in channels {
        channels := channels[channelId := channels[channelId].(lastActive := now)];
        assert View().members == old(View()).members;
        assert View().activity == old(View()).activity[channelId := now];
      }
    }

    method Leave(channelId: ChannelId, conn: Conn)
      requires Valid()
      modifies this
      ensures Valid() && View() == Left(old(View()), channelId, conn)
    {
      RemoveKeepsInverse(channels, connChannels, channelId, conn);
      RemovedBook(channels, channelId, conn);
      hide BookOf, Inverse, Left;
      if channelId in channels {
        var info := channels[channelId];
        channels := channels[channelId := info.(conns := info.conns - {conn})];
      }
      if conn in connChannels {
        var chans := connChannels[conn] - {channelId};
        connChannels := connChannels[conn := chans];
        if chans == {} {
          connChannels := connChannels - {conn};
        }
      }
      assert connChannels == Pruned(old(connChannels), conn, channelId);
    }

    /** Removes the connection everywhere and returns exactly the channels that held it, each once. */
    method LeaveAll(conn: Conn) returns (affected: seq<ChannelId>)
      requires Valid()
      modifies this
      ensures Valid() && View() == LeftAll(old(View()), conn)
      ensures Lists(affected, ChannelsOf(old(View()), conn))
    {
      hide BookOf, LeftAll, ChannelsOf, RemovedFrom, Lists;
      affected := [];
      ListsNone();
      ReverseIsChannels(channels, connChannels, conn);
      if conn !in connChannels {
        LeaveNowhere(channels, connChannels, conn);
        return;
      }
      var chans := connChannels[conn];
      HeldChannelsExist(channels, connChannels, conn);
      RemovedFromAll(channels, connChannels, conn);
      RemovedFromNone(channels, conn);
      hide Inverse;
      ghost var done: set<ChannelId> := {};
      var todo := chans;
      while todo != {}
        invariant done == chans - todo && todo <= chans && connChannels == old(connChannels)
        invariant channels == RemovedFrom(old(channels), done, conn)
        invariant Lists(affected, done)
        decreases |todo|
      {
        var ch :| ch in todo;
        RemovedFromStep(old(channels), done, conn, ch);
        ListsAppend(affected, done, ch);
        todo, done := todo - {ch}, done + {ch};
        if ch in channels {
          channels := channels[ch := channels[ch].(conns := channels[ch].conns - {conn})];
          affected := affected + [ch];
        }
      }
      assert done == chans;
      connChannels := connChannels - {conn};
    }

    method Count(channelId: ChannelId) returns (n: nat)
      requires Valid()
      ensures n == |ConnsIn(View(), channelId)|
    {
      ConnsAreKeys(channels, channelId);
      if channelId in channels {
        assert |channels[channelId].conns| == |channels[channelId].conns.Keys|;
        return |channels[channelId].conns|;
      }
      return 0;
    }

    method Exists(channelId: ChannelId) returns (r: bool)
      ensures r <==> channelId in View().activity
    {
      r := channelId in channels;
    }

    /** A copy of the members of a channel; `None` is nil. */
    method Snapshot(channelId: ChannelId) returns (r: Option<map<Conn, ClientId>>)
      requires Valid()
      ensures r.Some? <==> channelId in View().activity
      ensures r.Some? ==> forall c, id :: (c in r.value && r.value[c] == id) <==> (channelId, c, id) in View().members
    {
      if channelId !in channels { return None; }
      var conns := channels[channelId].conns;
      var cp: map<Conn, ClientId> := map[];
      var todo := conns.Keys;
      while todo != {}
        invariant todo <= conns.Keys
        invariant cp.Keys == conns.Keys - todo
        invariant forall c | c in cp :: cp[c] == conns[c]
        decreases |todo|
      {
        var c :| c in todo;
        cp := cp[c := conns[c]];
        todo := todo - {c};
      }
      assert cp == conns;
      return Some(cp);
    }

    /** One channel goes: first the reverse entries of its members, then the channel. */
    method Drop(id: ChannelId)
      requires Valid() && id in channels
      modifies this
      ensures Valid() && channels == old(channels) - {id}
    {
      hide Inverse, Dropping;
      var conns := channels[id].conns.Keys;
      var todo := conns;
      DropBegin(channels, connChannels, id);
      assert conns - todo == {};
      while todo != {}
        invariant todo <= conns && channels == old(channels)
        invariant Dropping(channels, connChannels, id, conns - todo)
        decreases |todo|
      {
        var conn :| conn in todo;
        DropStep(channels, connChannels, id, conns - todo, conn);
        assert conns - todo + {conn} == conns - (todo - {conn});
        todo := todo - {conn};
        ghost var r := connChannels;
        if conn in connChannels {
          var chans := connChannels[conn] - {id};
          connChannels := connChannels[conn := chans];
          if chans == {} {
            connChannels := connChannels - {conn};
          }
        }
        assert connChannels == Pruned(r, conn, id);
      }
      assert conns - todo == conns;
      DropEnd(channels, connChannels, id);
      channels := channels - {id};
    }

    /** Removes exactly the channels over their TTL and returns each once. */
    method Expire(now: int) returns (expired: seq<ChannelId>)
      requires Valid()
      modifies this
      ensures Valid() && View() == Swept(old(View()), now)
      ensures Lists(expired, ExpiredIn(old(View()), now))
    {
      expired := [];
      ghost var before := channels;
      var todo := channels.Keys;
      ListsNone();
      assert before.Keys - channels.Keys == {};
      hide Inverse, Lists, BookOf, Swept, ExpiredIn;
      while todo != {}
        invariant Valid() && Sweeping(before, channels, todo, now)
        invariant Lists(expired, before.Keys - channels.Keys)
        decreases |todo|
      {
        var id :| id in todo;
        SweepStep(before, channels, todo, now, id);
        ListsAppend(expired, before.Keys - channels.Keys, id);
        hide Sweeping;
        todo := todo - {id};
        var info := channels[id];
        var isEmpty := |info.conns| == 0;
        var elapsed := now - info.lastActive;
        var shouldExpire := false;
        if isEmpty && elapsed > EMPTY_TTL {
          shouldExpire := true;
        } else if elapsed > IDLE_TTL {
          shouldExpire := true;
        }
        if shouldExpire {
          Drop(id);
          expired := expired + [id];
        }
      }
      SweepEnd(before, channels, now);
    }
  }
}
