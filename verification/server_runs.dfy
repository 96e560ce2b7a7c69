/** Handler loops and sweeps interleaving on the manager. Each locked manager method is
    one step; a handler keeps its place between two of them. */
module ServerRuns {
  import opened Managers

  const MAX_MEMBERS := 100

  /** Where a handler stands between two locked sections. A closing handler has left all
      channels and still announces the new counts of those in `left`. */
  datatype Place =
    | Reading
    | AfterJoin(ch: ChannelId, at: int)
    | Announcing(ch: ChannelId)
    | Broadcasting(ch: ChannelId, count: nat)
    | AfterCheck(ch: ChannelId)
    | AfterTouch(ch: ChannelId)
    | Closing(left: seq<ChannelId>)
    | ClosingBroadcast(ch: ChannelId, count: nat, left: seq<ChannelId>)
  {
    predicate IsClosing() { Closing? || ClosingBroadcast? }

    /** A count that was read is announced only when it is not 0. */
    ghost predicate CountsWell()
    {
      match this
      case Broadcasting(_, count) => 1 <= count <= MAX_MEMBERS
      case ClosingBroadcast(_, count, _) => 1 <= count <= MAX_MEMBERS
      case _ => true
    }
  }

  datatype Handler = Handler(client: ClientId, place: Place)

  datatype Server = Server(book: Book, running: map<Conn, Handler>)

  datatype Step =
    | Accept(conn: Conn, client: ClientId)
    | Create(ch: ChannelId)
    | Join(conn: Conn, ch: ChannelId)
    | CountOnline(conn: Conn)
    | CountAgain(conn: Conn)
    | Broadcast(conn: Conn)
    | Leave(conn: Conn, ch: ChannelId)
    | CheckSender(conn: Conn, ch: ChannelId)
    | TouchChannel(conn: Conn)
    | Relay(conn: Conn)
    | Sweep
    | Disconnect(conn: Conn, left: seq<ChannelId>)
    | End(conn: Conn)

  datatype Refusal = ChannelNotFound | RoomFull | NotMember

  /** What goes out: the answer to a join, the count announced to a room and who gets it,
      who gets a relayed frame, and an error answer. */
  datatype Frame =
    | JoinedFrame(ch: ChannelId, online: nat, joinedAt: int, countedAt: int)
    | OnlineFrame(ch: ChannelId, count: nat, recipients: set<Conn>)
    | Relayed(ch: ChannelId, recipients: set<Conn>)
    | ErrorFrame(ch: ChannelId, recipient: Conn, why: Refusal)

  predicate At(s: Server, conn: Conn, p: Place) { conn in s.running && s.running[conn].place == p }

  function Moved(s: Server, conn: Conn, p: Place): Server
    requires conn in s.running
  {
    s.(running := s.running[conn := s.running[conn].(place := p)])
  }

  /** The first half of a broadcast: the count is read; an empty room is told nothing. */
  function Counted(s: Server, conn: Conn): Place
    requires conn in s.running
  {
    var p := s.running[conn].place;
    match p
    case Announcing(ch) => var n := |ConnsIn(s.book, ch)|; if n == 0 then Reading else Broadcasting(ch, n)
    case Closing(left) =>
      if left == [] then p
      else
        var n := |ConnsIn(s.book, left[0])|;
        if n == 0 then Closing(left[1..]) else ClosingBroadcast(left[0], n, left[1..])
    case _ => p
  }

  /** One step at time `now`; a step that is not enabled changes nothing. */
  function Do(s: Server, now: int, step: Step): (Server, seq<Frame>)
  {
    match step
    case Accept(conn, client) =>
      (if conn in s.running then s else s.(running := s.running[conn := Handler(client, Reading)]), [])
    case Create(ch) => (s.(book := Created(s.book, ch, now)), [])
    case Join(conn, ch) =>
      if !At(s, conn, Reading) then (s, [])
      else
        var (book, r) := Joined(s.book, ch, conn, s.running[conn].client, MAX_MEMBERS, now);
        match r {
          case JoinOK => (Moved(s.(book := book), conn, AfterJoin(ch, now)), [])
          case JoinNotFound => (s, [ErrorFrame(ch, conn, ChannelNotFound)])
          case JoinFull => (s, [ErrorFrame(ch, conn, RoomFull)])
        }
    case CountOnline(conn) =>
      if !(conn in s.running && s.running[conn].place.AfterJoin?) then (s, [])
      else
        var p := s.running[conn].place;
        (Moved(s, conn, Announcing(p.ch)), [JoinedFrame(p.ch, |ConnsIn(s.book, p.ch)|, p.at, now)])
    case CountAgain(conn) => (if conn in s.running then Moved(s, conn, Counted(s, conn)) else s, [])
    case Broadcast(conn) =>
      if conn !in s.running then (s, [])
      else
        var p := s.running[conn].place;
        match p {
          case Broadcasting(ch, count) => (Moved(s, conn, Reading), [OnlineFrame(ch, count, ConnsIn(s.book, ch))])
          case ClosingBroadcast(ch, count, left) =>
            (Moved(s, conn, Closing(left)), [OnlineFrame(ch, count, ConnsIn(s.book, ch))])
          case _ => (s, [])
        }
    case Leave(conn, ch) =>
      (if At(s, conn, Reading) then Moved(s.(book := Left(s.book, ch, conn)), conn, Announcing(ch)) else s, [])
    case CheckSender(conn, ch) =>
      if !At(s, conn, Reading) then (s, [])
      else if ch !in s.book.activity then (s, [ErrorFrame(ch, conn, ChannelNotFound)])
      else if conn !in ConnsIn(s.book, ch) then (s, [ErrorFrame(ch, conn, NotMember)])
      else (Moved(s, conn, AfterCheck(ch)), [])
    case TouchChannel(conn) =>
      if !(conn in s.running && s.running[conn].place.AfterCheck?) then (s, [])
      else
        var ch := s.running[conn].place.ch;
        (Moved(s.(book := Touched(s.book, ch, now)), conn, AfterTouch(ch)), [])
    case Relay(conn) =>
      if !(conn in s.running && s.running[conn].place.AfterTouch?) then (s, [])
      else
        var ch := s.running[conn].place.ch;
        (Moved(s, conn, Reading), [Relayed(ch, ConnsIn(s.book, ch))])
    case Sweep => (s.(book := Swept(s.book, now)), [])
    case Disconnect(conn, left) =>
      (if At(s, conn, Reading) && Lists(left, ChannelsOf(s.book, conn))
       then Moved(s.(book := LeftAll(s.book, conn)), conn, Closing(left)) else s, [])
    case End(conn) => (if At(s, conn, Closing([])) then s.(running := s.running - {conn}) else s, [])
  }

  /** Steps with the times they happen at. */
  type Run = seq<(int, Step)>

  ghost predicate ClockFrom(now: int, run: Run)
    decreases |run|
  {
    run != [] ==> run[0].0 >= now && ClockFrom(run[0].0, run[1..])
  }

  function Final(s: Server, run: Run): Server
    decreases |run|
  {
    if run == [] then s else Final(Do(s, run[0].0, run[0].1).0, run[1..])
  }

  function Frames(s: Server, run: Run): seq<Frame>
    decreases |run|
  {
    if run == [] then [] else Do(s, run[0].0, run[0].1).1 + Frames(Do(s, run[0].0, run[0].1).0, run[1..])
  }

  // ---- the invariant ----

  /** Members are connections whose handlers run and have not begun to close, under the
      client ids of those handlers. */
  ghost predicate MembersRun(s: Server)
  {
    forall m | m in s.book.members ::
      m.1 in s.running && !s.running[m.1].place.IsClosing() && s.running[m.1].client == m.2
  }

  ghost predicate WithinCap(b: Book) { forall ch: ChannelId :: |ConnsIn(b, ch)| <= MAX_MEMBERS }

  ghost predicate ActivityPast(b: Book, now: int) { forall ch | ch in b.activity :: b.activity[ch] <= now }

  /** A handler that has joined is still a member when it counts, unless the channel sat
      idle beyond its TTL in between. */
  ghost predicate StillIn(b: Book, conn: Conn, p: Place, now: int)
  {
    && p.CountsWell()
    && (p.AfterJoin? ==>
      p.at <= now
      && (now - p.at > IDLE_TTL || (p.ch in b.activity && conn in ConnsIn(b, p.ch) && b.activity[p.ch] >= p.at)))
  }

  ghost predicate AllStillIn(s: Server, now: int)
  {
    forall c | c in s.running :: StillIn(s.book, c, s.running[c].place, now)
  }

  ghost predicate Ok(s: Server, now: int)
  {
    Sound(s.book) && MembersRun(s) && WithinCap(s.book) && ActivityPast(s.book, now) && AllStillIn(s, now)
  }

  /** What every emitted frame satisfies. */
  ghost predicate FrameOk(f: Frame, s: Server)
  {
    match f
    case JoinedFrame(ch, online, joinedAt, countedAt) =>
      online == |ConnsIn(s.book, ch)| <= MAX_MEMBERS && (countedAt - joinedAt <= IDLE_TTL ==> online >= 1)
    case OnlineFrame(ch, count, recipients) => 1 <= count <= MAX_MEMBERS && ReachesRoom(s, ch, recipients)
    case Relayed(ch, recipients) => ReachesRoom(s, ch, recipients)
    case ErrorFrame(ch, recipient, why) =>
      && recipient in s.running
      && match why {
           case ChannelNotFound => ch !in s.book.activity
           case RoomFull => ch in s.book.activity && |ConnsIn(s.book, ch)| == MAX_MEMBERS
           case NotMember => ch in s.book.activity && recipient !in ConnsIn(s.book, ch)
         }
  }

  /** Exactly the members of the room, all of them with running handlers. */
  ghost predicate ReachesRoom(s: Server, ch: ChannelId, recipients: set<Conn>)
  {
    recipients == ConnsIn(s.book, ch) && recipients <= s.running.Keys && |recipients| <= MAX_MEMBERS
  }

  lemma SubsetSize<T>(a: set<T>, b: set<T>)
    requires a <= b
    ensures |a| <= |b|
  {
    if a != b { assert |b - a| + |a| == |b|; }
  }

  lemma SmallerBook(b: Book, b': Book)
    requires b'.members <= b.members && WithinCap(b)
    ensures WithinCap(b')
  {
    forall ch: ChannelId ensures |ConnsIn(b', ch)| <= MAX_MEMBERS {
      assert ConnsIn(b', ch) <= ConnsIn(b, ch);
      SubsetSize(ConnsIn(b', ch), ConnsIn(b, ch));
    }
  }

  /** Who is where after a join. */
  lemma JoinedConns(b: Book, ch: ChannelId, conn: Conn, client: ClientId, now: int, max: int)
    requires Joined(b, ch, conn, client, max, now).1 == JoinOK
    ensures var b' := Joined(b, ch, conn, client, max, now).0;
            && ConnsIn(b', ch) == ConnsIn(b, ch) + {conn}
            && forall x: ChannelId | x != ch :: ConnsIn(b', x) == ConnsIn(b, x)
  {
    var b' := Joined(b, ch, conn, client, max, now).0;
    assert (ch, conn, client) in b'.members;
    forall c | c in ConnsIn(b, ch) ensures c in ConnsIn(b', ch) {
      var m :| m in b.members && m.0 == ch && m.1 == c;
      if c != conn { assert m in b'.members; }
    }
    forall x: ChannelId | x != ch ensures ConnsIn(b', x) == ConnsIn(b, x) {
      forall c | c in ConnsIn(b, x) ensures c in ConnsIn(b', x) {
        var m :| m in b.members && m.0 == x && m.1 == c;
        assert m in b'.members;
      }
    }
  }

  lemma JoinedBook(b: Book, ch: ChannelId, conn: Conn, client: ClientId, now: int, max: int)
    requires Sound(b) && Joined(b, ch, conn, client, max, now).1 == JoinOK
    ensures var b' := Joined(b, ch, conn, client, max, now).0;
            && Sound(b') && b'.activity == b.activity[ch := now]
            && forall m | m in b'.members :: m in b.members || m == (ch, conn, client)
  {
    hide ConnsIn;
  }

  lemma JoinKeepsCap(b: Book, ch: ChannelId, conn: Conn, client: ClientId, now: int)
    requires WithinCap(b) && Joined(b, ch, conn, client, MAX_MEMBERS, now).1 == JoinOK
    ensures WithinCap(Joined(b, ch, conn, client, MAX_MEMBERS, now).0)
  {
    JoinedConns(b, ch, conn, client, now, MAX_MEMBERS);
    hide ConnsIn;
    var b' := Joined(b, ch, conn, client, MAX_MEMBERS, now).0;
    forall x: ChannelId ensures |ConnsIn(b', x)| <= MAX_MEMBERS {
      if x == ch { assert |ConnsIn(b, ch) + {conn}| <= |ConnsIn(b, ch)| + 1; }
    }
  }

  lemma JoinKeepsOk(s: Server, before: int, now: int, conn: Conn, ch: ChannelId, b': Book)
    requires Ok(s, before) && before <= now && At(s, conn, Reading)
    requires (b', JoinOK) == Joined(s.book, ch, conn, s.running[conn].client, MAX_MEMBERS, now)
    ensures Ok(Moved(s.(book := b'), conn, AfterJoin(ch, now)), now)
  {
    var b, s' := s.book, Moved(s.(book := b'), conn, AfterJoin(ch, now));
    JoinedConns(b, ch, conn, s.running[conn].client, now, MAX_MEMBERS);
    JoinedBook(b, ch, conn, s.running[conn].client, now, MAX_MEMBERS);
    JoinKeepsCap(b, ch, conn, s.running[conn].client, now);
    hide ConnsIn, Joined, WithinCap, Sound;
    assert MembersRun(s') && ActivityPast(b', now);
    forall c | c in s'.running ensures StillIn(b', c, s'.running[c].place, now) {
      if c == conn {
        assert conn in ConnsIn(b', ch);
      } else {
        var p := s.running[c].place;
        assert StillIn(b, c, p, before);
        if p.AfterJoin? && p.ch != ch { assert ConnsIn(b', p.ch) == ConnsIn(b, p.ch); }
      }
    }
  }

  /** Dropping members of one connection, when that connection's handler is reading. */
  lemma LeavingKeepsOk(s: Server, before: int, now: int, conn: Conn, b': Book)
    requires Ok(s, before) && before <= now && At(s, conn, Reading)
    requires b'.activity == s.book.activity && b'.members <= s.book.members
    requires forall m | m in s.book.members && m.1 != conn :: m in b'.members
    ensures Ok(s.(book := b'), now)
  {
    SmallerBook(s.book, b');
    forall c | c in s.running ensures StillIn(b', c, s.running[c].place, now) {
      var p := s.running[c].place;
      assert StillIn(s.book, c, p, before);
      if p.AfterJoin? && now - p.at <= IDLE_TTL {
        var m :| m in s.book.members && m.0 == p.ch && m.1 == c;
        assert m in b'.members;
      }
    }
  }

  lemma SweepKeepsOk(s: Server, before: int, now: int)
    requires Ok(s, before) && before <= now
    ensures Ok(s.(book := Swept(s.book, now)), now)
  {
    var b, b' := s.book, Swept(s.book, now);
    SmallerBook(b, b');
    forall c | c in s.running ensures StillIn(b', c, s.running[c].place, now) {
      var p := s.running[c].place;
      assert StillIn(b, c, p, before);
      if p.AfterJoin? && now - p.at <= IDLE_TTL {
        assert p.ch !in ExpiredIn(b, now);
        var m :| m in b.members && m.0 == p.ch && m.1 == c;
        assert m in b'.members;
      }
    }
  }

  /** Channels created or touched: members stay, activity moves to now at most. */
  lemma TouchingKeepsOk(s: Server, before: int, now: int, b': Book)
    requires Ok(s, before) && before <= now && b'.members == s.book.members
    requires forall ch | ch in s.book.activity :: ch in b'.activity && b'.activity[ch] >= s.book.activity[ch]
    requires ActivityPast(b', now)
    ensures Ok(s.(book := b'), now)
  {
    forall ch: ChannelId ensures ConnsIn(b', ch) == ConnsIn(s.book, ch) {
    }
    hide ConnsIn;
    forall c | c in s.running ensures StillIn(b', c, s.running[c].place, now) {
      assert StillIn(s.book, c, s.running[c].place, before);
    }
  }

  lemma MovingKeepsOk(s: Server, now: int, conn: Conn, p: Place)
    requires Ok(s, now) && conn in s.running && !p.AfterJoin? && p.CountsWell()
    requires p.IsClosing() ==> forall m | m in s.book.members :: m.1 != conn
    ensures Ok(Moved(s, conn, p), now)
  {
    hide ConnsIn;
    var s' := Moved(s, conn, p);
    forall c | c in s'.running ensures StillIn(s'.book, c, s'.running[c].place, now) {
      if c != conn { assert StillIn(s.book, c, s.running[c].place, now); }
    }
  }

  lemma CountingKeepsOk(s: Server, now: int, conn: Conn)
    requires Ok(s, now) && conn in s.running
    ensures Ok(Moved(s, conn, Counted(s, conn)), now)
  {
    var p := s.running[conn].place;
    assert StillIn(s.book, conn, p, now);
    if p.AfterJoin? {
      assert Moved(s, conn, Counted(s, conn)) == s;
    } else {
      MovingKeepsOk(s, now, conn, Counted(s, conn));
    }
  }

  /** A broadcast goes to members, whose handlers all run, and says what was counted. */
  lemma BroadcastKeepsOk(s: Server, now: int, conn: Conn)
    requires Ok(s, now) && conn in s.running
    ensures Ok(Do(s, now, Broadcast(conn)).0, now)
    ensures forall f | f in Do(s, now, Broadcast(conn)).1 :: FrameOk(f, s)
  {
    var p := s.running[conn].place;
    assert StillIn(s.book, conn, p, now);
    if p.Broadcasting? {
      MovingKeepsOk(s, now, conn, Reading);
      assert |ConnsIn(s.book, p.ch)| <= MAX_MEMBERS;
    } else if p.ClosingBroadcast? {
      MovingKeepsOk(s, now, conn, Closing(p.left));
      assert |ConnsIn(s.book, p.ch)| <= MAX_MEMBERS;
    }
  }

  lemma EndingKeepsOk(s: Server, now: int, conn: Conn)
    requires Ok(s, now) && At(s, conn, Closing([]))
    ensures Ok(s.(running := s.running - {conn}), now)
  {
    hide ConnsIn;
    var s' := s.(running := s.running - {conn});
    forall c | c in s'.running ensures StillIn(s'.book, c, s'.running[c].place, now) {
      assert StillIn(s.book, c, s.running[c].place, now);
    }
  }

  lemma AcceptKeepsOk(s: Server, now: int, conn: Conn, client: ClientId)
    requires Ok(s, now) && conn !in s.running
    ensures Ok(s.(running := s.running[conn := Handler(client, Reading)]), now)
  {
    hide ConnsIn;
    var s' := s.(running := s.running[conn := Handler(client, Reading)]);
    forall c | c in s'.running ensures StillIn(s'.book, c, s'.running[c].place, now) {
      if c != conn { assert StillIn(s.book, c, s.running[c].place, now); }
    }
  }

  /** The answer to a join is as promised. */
  lemma CountOnlineKeepsOk(s: Server, now: int, conn: Conn)
    requires Ok(s, now) && conn in s.running && s.running[conn].place.AfterJoin?
    ensures Ok(Do(s, now, CountOnline(conn)).0, now)
    ensures forall f | f in Do(s, now, CountOnline(conn)).1 :: FrameOk(f, s)
  {
    var p := s.running[conn].place;
    assert StillIn(s.book, conn, p, now);
    MovingKeepsOk(s, now, conn, Announcing(p.ch));
    if now - p.at <= IDLE_TTL { SubsetSize({conn}, ConnsIn(s.book, p.ch)); }
    assert |ConnsIn(s.book, p.ch)| <= MAX_MEMBERS;
  }

  lemma RelayKeepsOk(s: Server, now: int, conn: Conn)
    requires Ok(s, now) && conn in s.running && s.running[conn].place.AfterTouch?
    ensures Ok(Do(s, now, Relay(conn)).0, now)
    ensures forall f | f in Do(s, now, Relay(conn)).1 :: FrameOk(f, s)
  {
    MovingKeepsOk(s, now, conn, Reading);
    assert |ConnsIn(s.book, s.running[conn].place.ch)| <= MAX_MEMBERS;
  }

  /** A join that is refused changes nothing and is told the true reason. */
  lemma JoinStepKeepsOk(s: Server, before: int, now: int, conn: Conn, ch: ChannelId)
    requires Ok(s, before) && Ok(s, now) && before <= now
    ensures Ok(Do(s, now, Join(conn, ch)).0, now)
    ensures forall f | f in Do(s, now, Join(conn, ch)).1 :: FrameOk(f, s)
  {
    assert |ConnsIn(s.book, ch)| <= MAX_MEMBERS;
    if At(s, conn, Reading) {
      var (b', r) := Joined(s.book, ch, conn, s.running[conn].client, MAX_MEMBERS, now);
      if r == JoinOK {
        JoinKeepsOk(s, before, now, conn, ch, b');
        hide Ok;
      }
    }
  }

  lemma CheckingKeepsOk(s: Server, now: int, conn: Conn, ch: ChannelId)
    requires Ok(s, now)
    ensures Ok(Do(s, now, CheckSender(conn, ch)).0, now)
    ensures forall f | f in Do(s, now, CheckSender(conn, ch)).1 :: FrameOk(f, s)
  {
    hide Ok;
    if At(s, conn, Reading) { MovingKeepsOk(s, now, conn, AfterCheck(ch)); }
  }

  lemma StepKeepsOk(s: Server, before: int, now: int, step: Step)
    requires Ok(s, before) && before <= now
    ensures Ok(Do(s, now, step).0, now)
    ensures forall f | f in Do(s, now, step).1 :: FrameOk(f, s)
  {
    TouchingKeepsOk(s, before, now, s.book);
    match step
    case Accept(conn, client) => if conn !in s.running { AcceptKeepsOk(s, now, conn, client); }
    case Create(ch) => TouchingKeepsOk(s, before, now, Created(s.book, ch, now));
    case Join(conn, ch) => JoinStepKeepsOk(s, before, now, conn, ch);
    case CountOnline(conn) =>
      if conn in s.running && s.running[conn].place.AfterJoin? { CountOnlineKeepsOk(s, now, conn); }
    case CountAgain(conn) => if conn in s.running { CountingKeepsOk(s, now, conn); }
    case Broadcast(conn) => if conn in s.running { BroadcastKeepsOk(s, now, conn); }
    case Leave(conn, ch) =>
      if At(s, conn, Reading) {
        LeavingKeepsOk(s, before, now, conn, Left(s.book, ch, conn));
        MovingKeepsOk(s.(book := Left(s.book, ch, conn)), now, conn, Announcing(ch));
      }
    case CheckSender(conn, ch) => CheckingKeepsOk(s, now, conn, ch);
    case TouchChannel(conn) =>
      if conn in s.running && s.running[conn].place.AfterCheck? {
        var ch := s.running[conn].place.ch;
        TouchingKeepsOk(s, before, now, Touched(s.book, ch, now));
        MovingKeepsOk(s.(book := Touched(s.book, ch, now)), now, conn, AfterTouch(ch));
      }
    case Relay(conn) => if conn in s.running && s.running[conn].place.AfterTouch? { RelayKeepsOk(s, now, conn); }
    case Sweep => SweepKeepsOk(s, before, now);
    case Disconnect(conn, left) =>
      if At(s, conn, Reading) && Lists(left, ChannelsOf(s.book, conn)) {
        var b' := LeftAll(s.book, conn);
        LeavingKeepsOk(s, before, now, conn, b');
        MovingKeepsOk(s.(book := b'), now, conn, Closing(left));
      }
    case End(conn) => if At(s, conn, Closing([])) { EndingKeepsOk(s, now, conn); }
  }

  /** Every state of the run satisfies the invariant and every frame is in order when sent. */
  ghost predicate GoodRun(s: Server, run: Run)
    decreases |run|
  {
    run != [] ==>
      var (next, frames) := Do(s, run[0].0, run[0].1);
      && Ok(next, run[0].0)
      && (forall f | f in frames :: FrameOk(f, s))
      && GoodRun(next, run[1..])
  }

  /** In every interleaving of handler loops and sweeps: no channel ever exceeds 100
      members; every member's handler is running and not closing; every `joined` frame
      says at most 100 online and, unless a day passed between join and count, at least
      1; every announced count, those of a closing handler included, is between 1 and
      100; announcements and relayed frames go to exactly the members of the room; and an
      error answer tells the truth: the room does not exist, holds 100 members, or does
      not hold the sender. */
  lemma {:induction false} RunsAreGood(s: Server, now: int, run: Run)
    requires Ok(s, now) && ClockFrom(now, run)
    ensures GoodRun(s, run)
    decreases |run|
  {
    if run != [] {
      hide Ok, Do;
      StepKeepsOk(s, now, run[0].0, run[0].1);
      RunsAreGood(Do(s, run[0].0, run[0].1).0, run[0].0, run[1..]);
    }
  }

  lemma StartOk(now: int)
    ensures Ok(Server(Book(map[], {}), map[]), now)
  {
  }

  /** A joined handler that is held up: the states it goes through, and the frame. */
  lemma LateSteps(conn: Conn, client: ClientId, ch: ChannelId, late: int)
    requires late > IDLE_TTL
    ensures var s1 := Server(Book(map[], {}), map[conn := Handler(client, Reading)]);
            var s2 := s1.(book := Book(map[ch := 0], {}));
            var s3 := Server(Book(map[ch := 0], {(ch, conn, client)}), map[conn := Handler(client, AfterJoin(ch, 0))]);
            var s4 := s3.(book := Book(map[], {}));
            && Do(Server(Book(map[], {}), map[]), 0, Accept(conn, client)) == (s1, [])
            && Do(s1, 0, Create(ch)) == (s2, [])
            && Do(s2, 0, Join(conn, ch)) == (s3, [])
            && Do(s3, late, Sweep) == (s4, [])
            && Do(s4, late, CountOnline(conn)).1 == [JoinedFrame(ch, 0, 0, late)]
  {
    var h := map[conn := Handler(client, Reading)];
    var b2, b3 := Book(map[ch := 0], {}), Book(map[ch := 0], {(ch, conn, client)});
    assert ConnsIn(b2, ch) == {} && Without(b2.members, ch, conn) == {};
    assert {} + {(ch, conn, client)} == b3.members && b2.activity[ch := 0] == b3.activity;
    assert Joined(b2, ch, conn, client, MAX_MEMBERS, 0) == (b3, JoinOK);
    assert h[conn := Handler(client, AfterJoin(ch, 0))] == map[conn := Handler(client, AfterJoin(ch, 0))];
    assert ch in ExpiredIn(b3, late);
    assert Swept(b3, late).members == {} && Swept(b3, late).activity == map[];
    assert ConnsIn(Book(map[], {}), ch) == {};
  }

  lemma FramesStep(s: Server, e: (int, Step), run: Run)
    ensures Frames(s, [e] + run) == Do(s, e.0, e.1).1 + Frames(Do(s, e.0, e.1).0, run)
  {
    assert ([e] + run)[1..] == run;
    hide Do;
  }

  /** The day is needed: a handler held up for longer announces an empty room. */
  lemma LateCountSaysZero(conn: Conn, client: ClientId, ch: ChannelId, late: int)
    requires late > IDLE_TTL
    ensures Frames(Server(Book(map[], {}), map[]),
                   [(0, Accept(conn, client)), (0, Create(ch)), (0, Join(conn, ch)), (late, Sweep),
                    (late, CountOnline(conn))])
         == [JoinedFrame(ch, 0, 0, late)]
  {
    LateSteps(conn, client, ch, late);
    hide Do;
    var s0 := Server(Book(map[], {}), map[]);
    var s1 := Do(s0, 0, Accept(conn, client)).0;
    var s2 := Do(s1, 0, Create(ch)).0;
    var s3 := Do(s2, 0, Join(conn, ch)).0;
    var s4 := Do(s3, late, Sweep).0;
    FramesStep(s4, (late, CountOnline(conn)), []);
    FramesStep(s3, (late, Sweep), [(late, CountOnline(conn))]);
    FramesStep(s2, (0, Join(conn, ch)), [(late, Sweep), (late, CountOnline(conn))]);
    FramesStep(s1, (0, Create(ch)), [(0, Join(conn, ch)), (late, Sweep), (late, CountOnline(conn))]);
    FramesStep(s0, (0, Accept(conn, client)),
               [(0, Create(ch)), (0, Join(conn, ch)), (late, Sweep), (late, CountOnline(conn))]);
  }

  // ---- expiry over runs ----

  /** The step makes the channel active: it creates it, joins it or touches it. */
  predicate Restarts(s: Server, now: int, step: Step, ch: ChannelId)
  {
    || (step.Create? && step.ch == ch && ch !in s.book.activity)
    || (step.Join? && step.ch == ch && At(s, step.conn, Reading)
        && Joined(s.book, ch, step.conn, s.running[step.conn].client, MAX_MEMBERS, now).1 == JoinOK)
    || (step.TouchChannel? && At(s, step.conn, AfterCheck(ch)) && ch in s.book.activity)
  }

  /** The last activity of a channel moves to now exactly in those steps; no other step,
      leaving and disconnecting included, moves it or brings a channel back. */
  lemma ActivityMoves(s: Server, now: int, step: Step, ch: ChannelId)
    ensures var b, b' := s.book, Do(s, now, step).0.book;
            if Restarts(s, now, step, ch) then ch in b'.activity && b'.activity[ch] == now
            else ch in b'.activity ==> ch in b.activity && b'.activity[ch] == b.activity[ch]
  {
    hide ConnsIn, Without;
  }

  lemma FreshStep(s: Server, now: int, step: Step, ch: ChannelId, t: int)
    requires ch in s.book.activity && t <= s.book.activity[ch] <= now && now - t <= EMPTY_TTL
    ensures var b' := Do(s, now, step).0.book; ch in b'.activity && t <= b'.activity[ch] <= now
  {
    hide ConnsIn;
  }

  lemma {:induction false} StaysActive(s: Server, now: int, run: Run, ch: ChannelId, t: int)
    requires ClockFrom(now, run) && ch in s.book.activity && t <= s.book.activity[ch] <= now
    requires forall i | 0 <= i < |run| :: run[i].0 - t <= EMPTY_TTL
    ensures ch in Final(s, run).book.activity
    decreases |run|
  {
    if run != [] {
      FreshStep(s, run[0].0, run[0].1, ch, t);
      hide Do;
      StaysActive(Do(s, run[0].0, run[0].1).0, run[0].0, run[1..], ch, t);
    }
  }

  /** A channel created, joined or touched now survives every sweep of the next ten minutes. */
  lemma ActiveChannelSurvives(s: Server, now: int, step: Step, run: Run, ch: ChannelId)
    requires Restarts(s, now, step, ch) && ClockFrom(now, run)
    requires forall i | 0 <= i < |run| :: run[i].0 - now <= EMPTY_TTL
    ensures ch in Final(Do(s, now, step).0, run).book.activity
  {
    ActivityMoves(s, now, step, ch);
    hide Do, Restarts;
    StaysActive(Do(s, now, step).0, now, run, ch, now);
  }

  ghost predicate NeverRestarts(s: Server, run: Run, ch: ChannelId)
    decreases |run|
  {
    run != [] ==> !Restarts(s, run[0].0, run[0].1, ch) && NeverRestarts(Do(s, run[0].0, run[0].1).0, run[1..], ch)
  }

  /** A channel that nobody made active since `t` and that stands empty in the end is
      gone after the first sweep more than ten minutes past `t`, however many members
      left it in between. */
  lemma {:induction false} AbandonedChannelGoes(s: Server, run: Run, ch: ChannelId, t: int, now: int)
    requires ch in s.book.activity ==> s.book.activity[ch] == t
    requires NeverRestarts(s, run, ch) && ConnsIn(Final(s, run).book, ch) == {} && now - t > EMPTY_TTL
    ensures ch !in Do(Final(s, run), now, Sweep).0.book.activity
    decreases |run|
  {
    if run != [] {
      ActivityMoves(s, run[0].0, run[0].1, ch);
      hide Do, Restarts, ConnsIn;
      AbandonedChannelGoes(Do(s, run[0].0, run[0].1).0, run[1..], ch, t, now);
    }
  }

  // ---- racing joins ----

  /** The connection asks to join `here`, and the manager looks at it. */
  predicate Tries(s: Server, step: Step, here: ChannelId)
  {
    step.Join? && step.ch == here && At(s, step.conn, Reading)
  }

  function Tried(s: Server, step: Step, here: ChannelId): set<Conn>
  {
    if Tries(s, step, here) then {step.conn} else {}
  }

  /** A join by a connection that was no member, answered with success. */
  predicate Admits(s: Server, now: int, step: Step, here: ChannelId)
  {
    && Tries(s, step, here) && step.conn !in ConnsIn(s.book, here)
    && Joined(s.book, here, step.conn, s.running[step.conn].client, MAX_MEMBERS, now).1 == JoinOK
  }

  /** A member of `here` leaves it or disconnects. */
  predicate MemberGoes(s: Server, step: Step, here: ChannelId)
  {
    || (step.Leave? && step.ch == here && At(s, step.conn, Reading) && step.conn in ConnsIn(s.book, here))
    || (step.Disconnect? && At(s, step.conn, Reading) && step.conn in ConnsIn(s.book, here))
  }

  predicate NobodyGoes(s: Server, run: Run, here: ChannelId)
    decreases |run|
  {
    run != [] ==> !MemberGoes(s, run[0].1, here) && NobodyGoes(Do(s, run[0].0, run[0].1).0, run[1..], here)
  }

  /** Who tries to join `here` in the run, however often. */
  function Triers(s: Server, run: Run, here: ChannelId): set<Conn>
    decreases |run|
  {
    if run == [] then {}
    else
      Tried(s, run[0].1, here) + Triers(Do(s, run[0].0, run[0].1).0, run[1..], here)
  }

  /** How many joins let a newcomer in. */
  function Admissions(s: Server, run: Run, here: ChannelId): nat
    decreases |run|
  {
    if run == [] then 0
    else
      (if Admits(s, run[0].0, run[0].1, here) then 1 else 0)
      + Admissions(Do(s, run[0].0, run[0].1).0, run[1..], here)
  }

  lemma LeaveKeepsOthers(b: Book, ch: ChannelId, conn: Conn, here: ChannelId)
    requires ch != here || conn !in ConnsIn(b, here)
    ensures ConnsIn(Left(b, ch, conn), here) == ConnsIn(b, here)
  {
    forall c | c in ConnsIn(b, here) ensures c in ConnsIn(Left(b, ch, conn), here) {
      var m :| m in b.members && m.0 == here && m.1 == c;
      assert m in Without(b.members, ch, conn);
    }
  }

  lemma LeaveAllKeepsOthers(b: Book, conn: Conn, here: ChannelId)
    requires conn !in ConnsIn(b, here)
    ensures ConnsIn(LeftAll(b, conn), here) == ConnsIn(b, here)
  {
    forall c | c in ConnsIn(b, here) ensures c in ConnsIn(LeftAll(b, conn), here) {
      var m :| m in b.members && m.0 == here && m.1 == c;
      assert m in LeftAll(b, conn).members;
    }
  }

  lemma SweepKeepsMembers(b: Book, now: int, here: ChannelId)
    requires here in b.activity && now - b.activity[here] <= EMPTY_TTL
    ensures ConnsIn(Swept(b, now), here) == ConnsIn(b, here)
  {
    assert here !in ExpiredIn(b, now);
    forall c | c in ConnsIn(b, here) ensures c in ConnsIn(Swept(b, now), here) {
      var m :| m in b.members && m.0 == here && m.1 == c;
      assert m in Swept(b, now).members;
    }
  }

  lemma RaceJoin(b: Book, now: int, conn: Conn, client: ClientId, here: ChannelId)
    requires here in b.activity
    ensures var m, (b', r) := ConnsIn(b, here), Joined(b, here, conn, client, MAX_MEMBERS, now);
            && (r == JoinOK <==> |m| < MAX_MEMBERS)
            && ConnsIn(b', here) == (if r == JoinOK then m + {conn} else m)
            && |ConnsIn(b', here)| == |m| + (if r == JoinOK && conn !in m then 1 else 0)
  {
    var m := ConnsIn(b, here);
    var (b', r) := Joined(b, here, conn, client, MAX_MEMBERS, now);
    if r == JoinOK {
      JoinedConns(b, here, conn, client, now, MAX_MEMBERS);
      hide ConnsIn, Joined;
      if conn in m { assert m + {conn} == m; }
    }
  }

  /** What moves no member of the channel. */
  lemma RaceOther(s: Server, now: int, step: Step, here: ChannelId)
    requires here in s.book.activity && now - s.book.activity[here] <= EMPTY_TTL
    requires !MemberGoes(s, step, here) && !Tries(s, step, here)
    ensures ConnsIn(Do(s, now, step).0.book, here) == ConnsIn(s.book, here)
  {
    var b := s.book;
    match step
    case Join(conn, ch) =>
      if At(s, conn, Reading) && Joined(b, ch, conn, s.running[conn].client, MAX_MEMBERS, now).1 == JoinOK {
        JoinedConns(b, ch, conn, s.running[conn].client, now, MAX_MEMBERS);
      }
    case Leave(conn, ch) => if At(s, conn, Reading) { LeaveKeepsOthers(b, ch, conn, here); }
    case Disconnect(conn, _) => if At(s, conn, Reading) { LeaveAllKeepsOthers(b, conn, here); }
    case Sweep => SweepKeepsMembers(b, now, here);
    case _ => assert Do(s, now, step).0.book.members == b.members;
  }

  /** One step of the race: who tries gets in if there is room, and nothing else moves
      the members of the channel. */
  lemma RaceStep(s: Server, now: int, step: Step, here: ChannelId)
    requires here in s.book.activity && now - s.book.activity[here] <= EMPTY_TTL
    requires !MemberGoes(s, step, here)
    ensures var m, m' := ConnsIn(s.book, here), ConnsIn(Do(s, now, step).0.book, here);
            && m' == (if |m| < MAX_MEMBERS then m + Tried(s, step, here) else m)
            && |m'| == |m| + (if Admits(s, now, step, here) then 1 else 0)
  {
    if Tries(s, step, here) {
      RaceJoin(s.book, now, step.conn, s.running[step.conn].client, here);
      hide ConnsIn, Joined;
    } else {
      RaceOther(s, now, step, here);
      hide Do, ConnsIn, Joined;
      assert ConnsIn(s.book, here) + {} == ConnsIn(s.book, here);
    }
  }

  function Least(a: int, b: int): int { if a < b then a else b }

  /** Starting from the members `m` and with the connections `ts` trying, the members
      `m2` are what comes of filling the channel up, in `n` admissions. */
  predicate Filled(m: set<Conn>, m2: set<Conn>, ts: set<Conn>, n: int)
  {
    && m <= m2 <= m + (ts - m)
    && n == |m2| - |m| == Least(|ts - m|, MAX_MEMBERS - |m|)
  }

  /** One step back: `tried` is the connection that tries, if any. */
  lemma FilledBefore(m: set<Conn>, m1: set<Conn>, m2: set<Conn>, tried: set<Conn>, ts: set<Conn>, n: int)
    requires |m| <= MAX_MEMBERS && m1 == if |m| < MAX_MEMBERS then m + tried else m
    requires |m1| <= MAX_MEMBERS && Filled(m1, m2, ts, n)
    ensures Filled(m, m2, tried + ts, |m1| - |m| + n)
  {
    var newcomers := (tried + ts) - m;
    if |m| < MAX_MEMBERS {
      assert m + newcomers == m1 + (ts - m1);
      assert |m + newcomers| == |m| + |newcomers|;
    }
  }

  lemma {:induction false} RunFills(s: Server, now: int, run: Run, here: ChannelId, t: int)
    requires ClockFrom(now, run) && here in s.book.activity && t <= s.book.activity[here] <= now
    requires forall i | 0 <= i < |run| :: run[i].0 - t <= EMPTY_TTL
    requires |ConnsIn(s.book, here)| <= MAX_MEMBERS && NobodyGoes(s, run, here)
    ensures Filled(ConnsIn(s.book, here), ConnsIn(Final(s, run).book, here), Triers(s, run, here),
                   Admissions(s, run, here))
    decreases |run|
  {
    if run != [] {
      var at, step, rest := run[0].0, run[0].1, run[1..];
      var s1 := Do(s, at, step).0;
      RaceStep(s, at, step, here);
      FreshStep(s, at, step, here, t);
      hide Do, Tried, Admits, MemberGoes, ConnsIn, Filled;
      assert |ConnsIn(s1.book, here)| <= MAX_MEMBERS;
      RunFills(s1, at, rest, here, t);
      FilledBefore(ConnsIn(s.book, here), ConnsIn(s1.book, here), ConnsIn(Final(s1, rest).book, here),
                   Tried(s, step, here), Triers(s1, rest, here), Admissions(s1, rest, here));
    }
  }

  /** However joins interleave with each other, with sweeps, with traffic in this and
      other channels and with handlers that come and go: of N connections that try to
      join, exactly min(N, free places) get in, each by one successful join, nobody else
      does, and the cap is neither overshot nor left unused. The channel was active at
      `t`, the run ends within ten minutes of that, and no member leaves meanwhile. */
  lemma JoinsFillExactly(s: Server, now: int, run: Run, here: ChannelId, t: int)
    requires ClockFrom(now, run) && here in s.book.activity && t <= s.book.activity[here] <= now
    requires forall i | 0 <= i < |run| :: run[i].0 - t <= EMPTY_TTL
    requires |ConnsIn(s.book, here)| <= MAX_MEMBERS && NobodyGoes(s, run, here)
    ensures var m, m' := ConnsIn(s.book, here), ConnsIn(Final(s, run).book, here);
            var newcomers := Triers(s, run, here) - m;
            var free := MAX_MEMBERS - |m|;
            && m <= m' <= m + newcomers
            && Admissions(s, run, here) == |m'| - |m| == if |newcomers| < free then |newcomers| else free
  {
    hide ConnsIn;
    RunFills(s, now, run, here, t);
  }
}
