/** What the handler loops achieve for the rooms, over runs of the server: who is in a
    room, who is relayed, and who hears of it. */
module RelayRuns {
  import opened Managers
  import opened ServerRuns

  // ---- membership over runs ----

  /** The step lets the connection into the channel. */
  predicate Enters(s: Server, now: int, step: Step, ch: ChannelId, conn: Conn)
  {
    && step == Join(conn, ch) && At(s, conn, Reading) && ch in s.book.activity
    && |ConnsIn(s.book, ch)| < MAX_MEMBERS
  }

  /** The step takes the connection out of the channel: by leaving, by closing, or with
      the whole channel when a sweep finds it idle for a day. */
  predicate Exits(s: Server, now: int, step: Step, ch: ChannelId, conn: Conn)
  {
    || (step == Leave(conn, ch) && At(s, conn, Reading))
    || (step.Disconnect? && step.conn == conn && At(s, conn, Reading) && Lists(step.left, ChannelsOf(s.book, conn)))
    || (step.Sweep? && ch in s.book.activity && now - s.book.activity[ch] > IDLE_TTL)
  }

  lemma InRoom(b: Book, ch: ChannelId, conn: Conn)
    ensures conn in ConnsIn(b, ch) <==> exists m :: m in b.members && m.0 == ch && m.1 == conn
  {
  }

  lemma SweptMembers(b: Book, now: int, ch: ChannelId, conn: Conn)
    requires Sound(b)
    ensures conn in ConnsIn(Swept(b, now), ch)
       <==> conn in ConnsIn(b, ch) && !(ch in b.activity && now - b.activity[ch] > IDLE_TTL)
  {
    if conn in ConnsIn(b, ch) {
      var m :| m in b.members && m.0 == ch && m.1 == conn;
      assert ch in b.activity && ConnsIn(b, ch) != {};
      assert m in Swept(b, now).members <==> ch !in ExpiredIn(b, now);
      if now - b.activity[ch] > IDLE_TTL {
        assert ch in ExpiredIn(b, now);
      }
    }
  }

  lemma LeftMembers(b: Book, left: ChannelId, leaver: Conn, ch: ChannelId, conn: Conn)
    ensures conn in ConnsIn(Left(b, left, leaver), ch) <==> conn in ConnsIn(b, ch) && !(left == ch && leaver == conn)
  {
    if conn in ConnsIn(b, ch) && !(left == ch && leaver == conn) {
      var m :| m in b.members && m.0 == ch && m.1 == conn;
      assert m in Left(b, left, leaver).members;
    }
  }

  lemma LeftAllMembers(b: Book, leaver: Conn, ch: ChannelId, conn: Conn)
    ensures conn in ConnsIn(LeftAll(b, leaver), ch) <==> conn in ConnsIn(b, ch) && leaver != conn
  {
    if conn in ConnsIn(b, ch) && leaver != conn {
      var m :| m in b.members && m.0 == ch && m.1 == conn;
      assert m in LeftAll(b, leaver).members;
    }
  }

  lemma JoinedMembers(b: Book, now: int, to: ChannelId, joiner: Conn, client: ClientId, ch: ChannelId, conn: Conn)
    ensures var (b', r) := Joined(b, to, joiner, client, MAX_MEMBERS, now);
            && (r == JoinOK <==> to in b.activity && |ConnsIn(b, to)| < MAX_MEMBERS)
            && (conn in ConnsIn(b', ch) <==> conn in ConnsIn(b, ch) || (r == JoinOK && to == ch && joiner == conn))
  {
    if Joined(b, to, joiner, client, MAX_MEMBERS, now).1 == JoinOK {
      JoinedConns(b, to, joiner, client, now, MAX_MEMBERS);
    }
    hide ConnsIn, Without;
  }

  /** A connection is in a channel after a step if and only if it enters in the step or
      was there and does not exit. */
  lemma MembershipMoves(s: Server, now: int, step: Step, ch: ChannelId, conn: Conn)
    requires Sound(s.book)
    ensures conn in ConnsIn(Do(s, now, step).0.book, ch)
       <==> Enters(s, now, step, ch, conn) || (conn in ConnsIn(s.book, ch) && !Exits(s, now, step, ch, conn))
  {
    var b := s.book;
    match step
    case Join(c, x) =>
      if At(s, c, Reading) {
        JoinedMembers(b, now, x, c, s.running[c].client, ch, conn);
        hide ConnsIn, Joined;
      }
    case Leave(c, x) =>
      LeftMembers(b, x, c, ch, conn);
      hide ConnsIn, Left;
    case Disconnect(c, _) =>
      LeftAllMembers(b, c, ch, conn);
      hide ConnsIn, LeftAll, Lists, ChannelsOf;
    case Sweep =>
      SweptMembers(b, now, ch, conn);
      hide ConnsIn, Swept;
    case _ => assert Do(s, now, step).0.book.members == b.members;
  }

  /** The connection entered the channel at position `i` of the run and has not exited since. */
  ghost predicate EnteredAt(s: Server, run: Run, i: nat, ch: ChannelId, conn: Conn)
  {
    && i < |run| && Enters(Final(s, run[..i]), run[i].0, run[i].1, ch, conn)
    && forall k | i < k < |run| :: !Exits(Final(s, run[..k]), run[k].0, run[k].1, ch, conn)
  }

  lemma FinalStep(s: Server, run: Run, j: nat)
    requires j < |run|
    ensures Final(s, run[..j + 1]) == Do(Final(s, run[..j]), run[j].0, run[j].1).0
    decreases j
  {
    hide Do;
    if j == 0 {
      assert run[..1][1..] == [] && run[..0] == [];
    } else {
      var s1 := Do(s, run[0].0, run[0].1).0;
      assert run[..j + 1][1..] == run[1..][..j] && run[..j][1..] == run[1..][..j - 1];
      FinalStep(s1, run[1..], j - 1);
    }
  }

  lemma {:induction false} PrefixOk(s: Server, now: int, run: Run, j: nat)
    requires Ok(s, now) && ClockFrom(now, run) && j <= |run|
    ensures Sound(Final(s, run[..j]).book)
    decreases |run|
  {
    if j > 0 {
      StepKeepsOk(s, now, run[0].0, run[0].1);
      assert run[..j][1..] == run[1..][..j - 1];
      hide Ok, Do;
      PrefixOk(Do(s, run[0].0, run[0].1).0, run[0].0, run[1..], j - 1);
    } else {
      assert run[..0] == [];
    }
  }

  /** Who is in a channel, over every run of an empty server: exactly the connections that
      have entered it and have not exited since. */
  lemma {:induction false} MembersEntered(now: int, run: Run, ch: ChannelId, conn: Conn)
    requires ClockFrom(now, run)
    ensures var s := Server(Book(map[], {}), map[]);
            conn in ConnsIn(Final(s, run).book, ch) <==> exists i: nat :: EnteredAt(s, run, i, ch, conn)
    decreases |run|
  {
    var s := Server(Book(map[], {}), map[]);
    hide Do, ConnsIn, Enters, Exits;
    if run == [] {
      assert ConnsIn(s.book, ch) == {} by { NobodyThere(ch); }
    } else {
      var j := |run| - 1;
      var before := run[..j];
      ClockPrefix(now, run, j);
      MembersEntered(now, before, ch, conn);
      FinalStep(s, run, j);
      assert run[..j + 1] == run;
      StartOk(now);
      PrefixOk(s, now, run, j);
      var sj := Final(s, before);
      MembershipMoves(sj, run[j].0, run[j].1, ch, conn);
      forall k | 0 <= k <= j ensures run[..k] == before[..k] {
      }
      if i: nat :| EnteredAt(s, run, i, ch, conn) {
        if i < j { assert EnteredAt(s, before, i, ch, conn); }
      }
      if i: nat :| EnteredAt(s, before, i, ch, conn) {
        if !Exits(sj, run[j].0, run[j].1, ch, conn) { assert EnteredAt(s, run, i, ch, conn); }
      }
      if Enters(sj, run[j].0, run[j].1, ch, conn) { assert EnteredAt(s, run, j, ch, conn); }
    }
  }

  lemma NobodyThere(ch: ChannelId)
    ensures ConnsIn(Book(map[], {}), ch) == {}
  {
  }

  lemma {:induction false} ClockPrefix(now: int, run: Run, j: nat)
    requires ClockFrom(now, run) && j <= |run|
    ensures ClockFrom(now, run[..j])
    decreases |run|
  {
    if j > 0 {
      ClockPrefix(run[0].0, run[1..], j - 1);
      assert run[..j][1..] == run[1..][..j - 1];
    }
  }

  // ---- one connection's handler among all others ----

  /** Steps of the handler of this connection. */
  predicate By(step: Step, conn: Conn)
  {
    match step
    case Accept(c, _) => c == conn
    case Join(c, _) => c == conn
    case CountOnline(c) => c == conn
    case CountAgain(c) => c == conn
    case Broadcast(c) => c == conn
    case Leave(c, _) => c == conn
    case CheckSender(c, _) => c == conn
    case TouchChannel(c) => c == conn
    case Relay(c) => c == conn
    case Disconnect(c, _) => c == conn
    case End(c) => c == conn
    case Create(_) => false
    case Sweep => false
  }

  /** The others do not move a handler. */
  lemma OthersKeepPlace(s: Server, now: int, step: Step, conn: Conn)
    requires !By(step, conn)
    ensures var s' := Do(s, now, step).0;
            (conn in s'.running <==> conn in s.running) && (conn in s.running ==> s'.running[conn] == s.running[conn])
  {
    hide ConnsIn, Joined, Swept, LeftAll, ChannelsOf, Lists;
  }

  predicate NoneBy(run: Run, conn: Conn) { forall i | 0 <= i < |run| :: !By(run[i].1, conn) }

  lemma {:induction false} OthersRun(s: Server, run: Run, conn: Conn)
    requires NoneBy(run, conn)
    ensures var s' := Final(s, run);
            (conn in s'.running <==> conn in s.running) && (conn in s.running ==> s'.running[conn] == s.running[conn])
    decreases |run|
  {
    if run != [] {
      OthersKeepPlace(s, run[0].0, run[0].1, conn);
      hide Do, By;
      OthersRun(Do(s, run[0].0, run[0].1).0, run[1..], conn);
    }
  }

  // ---- who is relayed ----

  /** At position `i` the connection was a member of the existing channel and was found to
      be one; since then its handler has done nothing but touch the channel. */
  ghost predicate FoundMember(s: Server, run: Run, i: nat, j: nat, ch: ChannelId, conn: Conn)
  {
    && i < j <= |run| && run[i].1 == CheckSender(conn, ch)
    && ch in Final(s, run[..i]).book.activity && conn in ConnsIn(Final(s, run[..i]).book, ch)
    && forall k | i < k < j && By(run[k].1, conn) ::
         run[k].1 == TouchChannel(conn) || Do(Final(s, run[..k]), run[k].0, run[k].1) == (Final(s, run[..k]), [])
  }

  predicate Checked(s: Server, conn: Conn, ch: ChannelId) { At(s, conn, AfterCheck(ch)) || At(s, conn, AfterTouch(ch)) }

  /** How a handler gets to hold a checked frame. */
  lemma CheckedStep(s: Server, now: int, step: Step, conn: Conn, ch: ChannelId)
    requires Checked(Do(s, now, step).0, conn, ch)
    ensures || (step == CheckSender(conn, ch) && ch in s.book.activity && conn in ConnsIn(s.book, ch))
            || (Checked(s, conn, ch)
                && (By(step, conn) ==> step == TouchChannel(conn) || Do(s, now, step) == (s, [])))
  {
    if !By(step, conn) {
      OthersKeepPlace(s, now, step, conn);
      hide Do;
    } else {
      if conn in s.running { assert s.running[conn := s.running[conn]] == s.running; }
      hide Joined, Swept, LeftAll, ChannelsOf, Lists, ConnsIn;
    }
  }

  lemma {:induction false} CheckedWasMember(s: Server, run: Run, j: nat, conn: Conn, ch: ChannelId) returns (i: nat)
    requires s.running == map[] && j <= |run| && Checked(Final(s, run[..j]), conn, ch)
    ensures FoundMember(s, run, i, j, ch, conn)
    decreases j
  {
    assert j > 0;
    var k := j - 1;
    FinalStep(s, run, k);
    CheckedStep(Final(s, run[..k]), run[k].0, run[k].1, conn, ch);
    hide Do, Final, Checked, By, ConnsIn;
    if run[k].1 == CheckSender(conn, ch) && ch in Final(s, run[..k]).book.activity
       && conn in ConnsIn(Final(s, run[..k]).book, ch) {
      i := k;
    } else {
      i := CheckedWasMember(s, run, k, conn, ch);
    }
  }

  /** Only members are relayed. In every run of an empty server, whatever relays a frame
      into a channel is the handler of a connection that was found to be a member of it
      after its last frame was read; and the frame goes to exactly who is a member when
      it is relayed. */
  lemma OnlyMembersRelay(book: Book, run: Run, j: nat, f: Frame) returns (i: nat, conn: Conn)
    requires j < |run| && f.Relayed?
    requires var s := Server(book, map[]); f in Do(Final(s, run[..j]), run[j].0, run[j].1).1
    ensures var s := Server(book, map[]);
            && run[j].1 == Relay(conn) && FoundMember(s, run, i, j, f.ch, conn)
            && f.recipients == ConnsIn(Final(s, run[..j]).book, f.ch)
  {
    var s := Server(book, map[]);
    var sj := Final(s, run[..j]);
    conn := RelayedBy(sj, run[j].0, run[j].1, f);
    hide Do, Final;
    i := CheckedWasMember(s, run, j, conn, f.ch);
  }

  lemma RelayedBy(s: Server, now: int, step: Step, f: Frame) returns (conn: Conn)
    requires f.Relayed? && f in Do(s, now, step).1
    ensures step == Relay(conn) && Checked(s, conn, f.ch) && f.recipients == ConnsIn(s.book, f.ch)
  {
    hide Joined, Swept, LeftAll, ChannelsOf, Lists, ConnsIn;
    assert step.Relay?;
    conn := step.conn;
  }

  /** And every member is relayed: a frame that a member sends into an existing channel
      goes out to exactly those who are members by then, whatever happens in between. */
  lemma MembersAreRelayed(s: Server, conn: Conn, ch: ChannelId, check: int, es: Run, touch: int, es': Run, relay: int)
    requires At(s, conn, Reading) && ch in s.book.activity && conn in ConnsIn(s.book, ch)
    requires NoneBy(es, conn) && NoneBy(es', conn)
    ensures var s1 := Final(Do(s, check, CheckSender(conn, ch)).0, es);
            var s2 := Final(Do(s1, touch, TouchChannel(conn)).0, es');
            && Do(s2, relay, Relay(conn)).1 == [Relayed(ch, ConnsIn(s2.book, ch))]
            && At(Do(s2, relay, Relay(conn)).0, conn, Reading)
  {
    hide ConnsIn, NoneBy, Final;
    var s0 := Do(s, check, CheckSender(conn, ch)).0;
    OthersRun(s0, es, conn);
    var s1 := Final(s0, es);
    OthersRun(Do(s1, touch, TouchChannel(conn)).0, es', conn);
  }

  // ---- what is announced ----

  /** A count that is read in a room with members is announced, as it was read, to exactly
      who is there by then; an empty room is told nothing. */
  lemma CountsAreAnnounced(s: Server, conn: Conn, ch: ChannelId, count: int, es: Run, out: int)
    requires At(s, conn, Announcing(ch)) && NoneBy(es, conn)
    ensures var s1 := Do(s, count, CountAgain(conn)).0;
            if ConnsIn(s.book, ch) == {} then At(s1, conn, Reading)
            else
              var s2 := Final(s1, es);
              && Do(s2, out, Broadcast(conn)).1 == [OnlineFrame(ch, |ConnsIn(s.book, ch)|, ConnsIn(s2.book, ch))]
              && At(Do(s2, out, Broadcast(conn)).0, conn, Reading)
  {
    hide ConnsIn, NoneBy, Final;
    OthersRun(Do(s, count, CountAgain(conn)).0, es, conn);
  }

  /** A closing handler does the same for each channel it was in, one after the other. */
  lemma ClosingAnnounces(s: Server, conn: Conn, left: seq<ChannelId>, count: int, es: Run, out: int)
    requires At(s, conn, Closing(left)) && left != [] && NoneBy(es, conn)
    ensures var s1 := Do(s, count, CountAgain(conn)).0;
            if ConnsIn(s.book, left[0]) == {} then At(s1, conn, Closing(left[1..]))
            else
              var s2 := Final(s1, es);
              && Do(s2, out, Broadcast(conn)).1
                 == [OnlineFrame(left[0], |ConnsIn(s.book, left[0])|, ConnsIn(s2.book, left[0]))]
              && At(Do(s2, out, Broadcast(conn)).0, conn, Closing(left[1..]))
  {
    hide ConnsIn, NoneBy, Final;
    OthersRun(Do(s, count, CountAgain(conn)).0, es, conn);
  }

  /** With nothing left to announce the handler ends, and the rooms do not notice. */
  lemma ClosedHandlerEnds(s: Server, conn: Conn, now: int)
    requires At(s, conn, Closing([]))
    ensures var s' := Do(s, now, End(conn)).0; s'.running.Keys == s.running.Keys - {conn} && s'.book == s.book
  {
  }

  /** Whoever joins is answered with the number of members at that moment, and then has
      the room told; whoever leaves or closes has every room told that it was in. */
  lemma ChangesLeadToAnnouncements(s: Server, now: int, conn: Conn, ch: ChannelId, es: Run, later: int,
                                   left: seq<ChannelId>)
    requires At(s, conn, Reading) && NoneBy(es, conn)
    ensures Enters(s, now, Join(conn, ch), ch, conn) ==>
              var s1 := Final(Do(s, now, Join(conn, ch)).0, es);
              && Do(s1, later, CountOnline(conn)).1 == [JoinedFrame(ch, |ConnsIn(s1.book, ch)|, now, later)]
              && At(Do(s1, later, CountOnline(conn)).0, conn, Announcing(ch))
    ensures At(Do(s, now, Leave(conn, ch)).0, conn, Announcing(ch))
    ensures Lists(left, ChannelsOf(s.book, conn)) ==> At(Do(s, now, Disconnect(conn, left)).0, conn, Closing(left))
  {
    hide ConnsIn, NoneBy, Final, Lists, ChannelsOf, Left, LeftAll;
    OthersRun(Do(s, now, Join(conn, ch)).0, es, conn);
  }
}
