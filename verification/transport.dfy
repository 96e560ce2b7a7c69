/** The reconnecting socket of the client: one current socket, one timer, a capped
    queue. The browser is the environment: sockets may close, go stale or make `send`
    throw whenever they like. */
module Transports {
  import opened Options

  type Data = string
  /** The number of an accepted item: the n-th `sendRaw` that answered true. */
  type Ticket = nat

  datatype ReadyState = Connecting | Open | Closing | Closed

  datatype Status = Idle | IsConnecting | IsOpen | IsClosed | IsError | Reconnecting

  /** Sockets ever made with their state, timers that are set, and fresh ids. */
  datatype Browser = Browser(ready: map<nat, ReadyState>, timers: set<nat>, next: nat)

  datatype Reason = QueueFull | SendThrew | Disconnected | NotTaken

  /** How an accepted item was lost. */
  datatype Loss = Loss(ticket: Ticket, reason: Reason)

  const QUEUE_CAP := 100

  /** The fields of the transport, the browser, and the books on accepted items. */
  datatype State = State(
    ws: Option<nat>,
    status: Status,
    auto: bool,
    attempt: nat,
    timer: Option<nat>,
    should: bool,
    queue: seq<Ticket>,
    browser: Browser,
    accepted: seq<Data>,
    written: seq<Ticket>,
    lost: seq<Loss>)

  function NewTransport(auto: bool): State
  {
    State(None, Idle, auto, 0, None, false, [], Browser(map[], {}, 0), [], [], [])
  }

  predicate SocketIs(b: Browser, ws: Option<nat>, r: ReadyState)
  {
    ws.Some? && ws.value in b.ready && b.ready[ws.value] == r
  }

  // ---- the operations ----

  function ClearTimer(t: State): State
  {
    if t.timer.None? then t
    else t.(timer := None, browser := t.browser.(timers := t.browser.timers - {t.timer.value}))
  }

  function Connect(t: State): State
  {
    if SocketIs(t.browser, t.ws, Connecting) || SocketIs(t.browser, t.ws, Open) then t
    else
      var t1 := ClearTimer(t.(should := true));
      var id := t1.browser.next;
      t1.(status := IsConnecting, ws := Some(id),
          browser := t1.browser.(ready := t1.browser.ready[id := Connecting], next := id + 1))
  }

  function ScheduleReconnect(t: State): State
  {
    if !t.auto || !t.should then t
    else
      var t1 := ClearTimer(t);
      var id := t1.browser.next;
      t1.(attempt := t1.attempt + 1, status := Reconnecting, timer := Some(id),
          browser := t1.browser.(timers := t1.browser.timers + {id}, next := id + 1))
  }

  function TimerFired(t: State): State { Connect(t.(timer := None)) }

  function LoseQueue(queue: seq<Ticket>): (r: seq<Loss>)
    ensures |r| == |queue|
  {
    seq(|queue|, i requires 0 <= i < |queue| => Loss(queue[i], Disconnected))
  }

  function CloseSocket(b: Browser, ws: Option<nat>): Browser
  {
    if ws.Some? && ws.value in b.ready && b.ready[ws.value] != Closed
    then b.(ready := b.ready[ws.value := Closing]) else b
  }

  function Disconnect(t: State): State
  {
    var t1 := ClearTimer(t.(should := false));
    t1.(attempt := 0, queue := [], lost := t1.lost + LoseQueue(t1.queue), ws := None, status := IsClosed,
        browser := CloseSocket(t1.browser, t1.ws))
  }

  /** What becomes of an accepted item that `sendRaw` is given: written, queued or lost. */
  function Dispatch(t: State, k: Ticket, throws: bool): State
  {
    if SocketIs(t.browser, t.ws, Open) then
      if throws then t.(lost := t.lost + [Loss(k, SendThrew)]) else t.(written := t.written + [k])
    else if t.auto && t.should then
      if |t.queue| < QUEUE_CAP then t.(queue := t.queue + [k]) else t.(lost := t.lost + [Loss(k, QueueFull)])
    else t.(lost := t.lost + [Loss(k, NotTaken)])
  }

  /** `sendRaw` on new data: the answer, and an accepted item gets the next ticket. */
  function SendRaw(t: State, data: Data, throws: bool): (State, bool)
  {
    var ok := if SocketIs(t.browser, t.ws, Open) then !throws else t.auto && t.should;
    if ok then (Dispatch(t.(accepted := t.accepted + [data]), |t.accepted|, throws), true) else (t, false)
  }

  /** Which sends of a flush throw, in order; beyond the end none does. */
  predicate Throws(fails: seq<bool>) { fails != [] && fails[0] }

  function Later(fails: seq<bool>): seq<bool> { if fails == [] then [] else fails[1..] }

  /** Items resent one after the other. */
  function DispatchAll(t: State, q: seq<Ticket>, fails: seq<bool>): State
    decreases |q|
  {
    if q == [] then t else DispatchAll(Dispatch(t, q[0], Throws(fails)), q[1..], Later(fails))
  }

  function FlushQueue(t: State, fails: seq<bool>): State { DispatchAll(t.(queue := []), t.queue, fails) }

  /** A synchronous send by a status handler while "open" is announced. */
  datatype SyncSend = SyncSend(data: Data, throws: bool)

  function SendAll(t: State, sends: seq<SyncSend>): State
    decreases |sends|
  {
    if sends == [] then t else SendAll(SendRaw(t, sends[0].data, sends[0].throws).0, sends[1..])
  }

  function OnOpen(t: State, sock: nat, sends: seq<SyncSend>, fails: seq<bool>): State
  {
    if t.ws != Some(sock) then t
    else FlushQueue(SendAll(t.(attempt := 0, status := IsOpen), sends), fails)
  }

  function OnError(t: State, sock: nat): State { if t.ws != Some(sock) then t else t.(status := IsError) }

  function OnClose(t: State, sock: nat): State
  {
    if t.ws != Some(sock) then t else ScheduleReconnect(t.(ws := None, status := IsClosed))
  }

  // ---- the environment ----

  /** A socket becomes open only in the turn that delivers its open event; it may start
      closing at any time before its close event. */
  datatype Event =
    | CallConnect
    | CallDisconnect
    | CallSend(data: Data, throws: bool)
    | Opened(sock: nat, sends: seq<SyncSend>, fails: seq<bool>)
    | Drifted(sock: nat, to: ReadyState)
    | ClosedEvent(sock: nat)
    | ErrorEvent(sock: nat)
    | TimerRings(timer: nat)

  function Ready(t: State, sock: nat, r: ReadyState): State
  {
    t.(browser := t.browser.(ready := t.browser.ready[sock := r]))
  }

  /** An event that cannot happen in this state leaves it as it is. */
  function After(t: State, e: Event): State
  {
    match e
    case CallConnect => Connect(t)
    case CallDisconnect => Disconnect(t)
    case CallSend(data, throws) => SendRaw(t, data, throws).0
    case Opened(sock, sends, fails) =>
      if SocketIs(t.browser, Some(sock), Connecting) then OnOpen(Ready(t, sock, Open), sock, sends, fails) else t
    case Drifted(sock, to) => if sock in t.browser.ready && (to.Closing? || to.Closed?) then Ready(t, sock, to) else t
    case ClosedEvent(sock) => if sock in t.browser.ready then OnClose(Ready(t, sock, Closed), sock) else t
    case ErrorEvent(sock) => if sock in t.browser.ready then OnError(t, sock) else t
    case TimerRings(id) =>
      if id in t.browser.timers then TimerFired(t.(browser := t.browser.(timers := t.browser.timers - {id}))) else t
  }

  function AfterAll(t: State, es: seq<Event>): State
    decreases |es|
  {
    if es == [] then t else AfterAll(After(t, es[0]), es[1..])
  }

  // ---- the class ----

  /** The browser's side of the sockets is the field `browser`; `wire` is what `send`
      has put on them. The books are ghost. */
  class Transport {
    var ws: Option<nat>
    var status: Status
    const autoReconnect: bool
    var reconnectAttempt: nat
    var reconnectTimer: Option<nat>
    var shouldReconnect: bool
    var sendQueue: seq<Data>
    var browser: Browser
    var wire: seq<Data>
    ghost var tickets: seq<Ticket>
    ghost var accepted: seq<Data>
    ghost var written: seq<Ticket>
    ghost var lost: seq<Loss>

    /** The queue and the wire carry the data of their tickets. */
    ghost predicate Valid()
      reads this
    {
      && Carries(sendQueue, tickets, accepted)
      && Carries(wire, written, accepted)
    }

    ghost function View(): State
      reads this
    {
      State(ws, status, autoReconnect, reconnectAttempt, reconnectTimer, shouldReconnect, tickets, browser,
            accepted, written, lost)
    }

    constructor (autoReconnect: bool := true)
      ensures Valid() && View() == NewTransport(autoReconnect) && wire == []
    {
      this.autoReconnect := autoReconnect;
      ws, status, reconnectAttempt, reconnectTimer, shouldReconnect := None, Idle, 0, None, false;
      sendQueue, wire, browser := [], [], Browser(map[], {}, 0);
      tickets, accepted, written, lost := [], [], [], [];
    }

    method ClearReconnectTimer()
      requires Valid()
      modifies this
      ensures Valid() && View() == ClearTimer(old(View())) && wire == old(wire)
    {
      hide Carries;
      if reconnectTimer.Some? {
        browser := browser.(timers := browser.timers - {reconnectTimer.value});
        reconnectTimer := None;
      }
    }

    method ConnectSocket()
      requires Valid()
      modifies this
      ensures Valid() && View() == Connect(old(View())) && wire == old(wire)
    {
      hide Carries;
      if ws.Some? && (SocketIs(browser, ws, Connecting) || SocketIs(browser, ws, Open)) { return; }
      shouldReconnect := true;
      ClearReconnectTimer();
      status := IsConnecting;
      ws := Some(browser.next);
      browser := browser.(ready := browser.ready[browser.next := Connecting], next := browser.next + 1);
    }

    method ScheduleReconnectTimer()
      requires Valid()
      modifies this
      ensures Valid() && View() == ScheduleReconnect(old(View())) && wire == old(wire)
    {
      hide Carries;
      if !autoReconnect || !shouldReconnect { return; }
      ClearReconnectTimer();
      reconnectAttempt := reconnectAttempt + 1;
      status := Reconnecting;
      reconnectTimer := Some(browser.next);
      browser := browser.(timers := browser.timers + {browser.next}, next := browser.next + 1);
    }

    method OnTimer()
      requires Valid()
      modifies this
      ensures Valid() && View() == TimerFired(old(View())) && wire == old(wire)
    {
      hide Carries;
      reconnectTimer := None;
      ConnectSocket();
    }

    method DropQueue()
      requires Valid()
      modifies this`sendQueue, this`tickets, this`lost
      ensures Valid() && sendQueue == [] && tickets == [] && lost == old(lost) + LoseQueue(old(tickets))
    {
      hide LoseQueue;
      sendQueue, tickets, lost := [], [], lost + LoseQueue(tickets);
    }

    method DisconnectSocket()
      requires Valid()
      modifies this
      ensures Valid() && View() == Disconnect(old(View())) && wire == old(wire)
    {
      hide Carries, LoseQueue, CloseSocket;
      shouldReconnect := false;
      ClearReconnectTimer();
      DropQueue();
      hide ClearTimer;
      reconnectAttempt := 0;
      ws, browser := None, CloseSocket(browser, ws);
      status := IsClosed;
    }

    /** `sendRaw`. An item that is resent brings its ticket along. */
    method Send(data: Data, throws: bool, ghost ticket: Option<Ticket> := None) returns (ok: bool)
      requires Valid() && (ticket.Some? ==> ticket.value < |accepted| && accepted[ticket.value] == data)
      modifies this`wire, this`sendQueue, this`tickets, this`accepted, this`written, this`lost
      ensures Valid()
      ensures ticket.None? ==> (View(), ok) == SendRaw(old(View()), data, throws)
      ensures ticket.Some? ==> View() == Dispatch(old(View()), ticket.value, throws)
    {
      ghost var k := if ticket.Some? then ticket.value else |accepted|;
      ghost var books := if ticket.Some? then accepted else accepted + [data];
      CarriesMore(sendQueue, tickets, accepted, data);
      CarriesMore(wire, written, accepted, data);
      if SocketIs(browser, ws, Open) {
        if throws {
          if ticket.Some? { lost := lost + [Loss(k, SendThrew)]; }
          return false;
        }
        wire, written, accepted := wire + [data], written + [k], books;
        return true;
      }
      if autoReconnect && shouldReconnect {
        if |sendQueue| < QUEUE_CAP {
          sendQueue, tickets := sendQueue + [data], tickets + [k];
        } else {
          lost := lost + [Loss(k, QueueFull)];
        }
        accepted := books;
        return true;
      }
      if ticket.Some? { lost := lost + [Loss(k, NotTaken)]; }
      return false;
    }

    method Flush(fails: seq<bool>)
      requires Valid()
      modifies this`wire, this`sendQueue, this`tickets, this`accepted, this`written, this`lost
      ensures Valid() && View() == FlushQueue(old(View()), fails)
    {
      NothingCarried(accepted);
      CarriesAsMany(sendQueue, tickets, accepted);
      hide Carries, Dispatch;
      if |sendQueue| == 0 { return; }
      var q := sendQueue;
      ghost var ks := tickets;
      sendQueue, tickets := [], [];
      ghost var emptied := View();
      var rest := fails;
      for i := 0 to |q|
        invariant Valid() && accepted == old(accepted) && Carries(q, ks, accepted)
        invariant DispatchAll(View(), ks[i..], rest) == DispatchAll(emptied, ks, fails)
      {
        CarriesAt(q, ks, accepted, i);
        assert ks[i..][0] == ks[i] && ks[i..][1..] == ks[i + 1..];
        var ok := Send(q[i], Throws(rest), Some(ks[i]));
        rest := Later(rest);
      }
      assert ks[|q|..] == [];
    }

    /** What the status handlers send while "open" is announced. */
    method Announce(sends: seq<SyncSend>)
      requires Valid()
      modifies this`wire, this`sendQueue, this`tickets, this`accepted, this`written, this`lost
      ensures Valid() && View() == SendAll(old(View()), sends)
    {
      hide Carries, SendRaw;
      ghost var before := View();
      for i := 0 to |sends|
        invariant Valid()
        invariant SendAll(View(), sends[i..]) == SendAll(before, sends)
      {
        assert sends[i..][0] == sends[i] && sends[i..][1..] == sends[i + 1..];
        var ok := Send(sends[i].data, sends[i].throws);
      }
      assert sends[|sends|..] == [];
    }

    method SocketOpened(sock: nat, sends: seq<SyncSend>, fails: seq<bool>)
      requires Valid()
      modifies this
      ensures Valid() && View() == OnOpen(old(View()), sock, sends, fails)
    {
      if ws != Some(sock) { return; }
      hide Carries, SendAll, FlushQueue;
      reconnectAttempt := 0;
      status := IsOpen;
      Announce(sends);
      Flush(fails);
    }

    method SocketFailed(sock: nat)
      requires Valid()
      modifies this
      ensures Valid() && View() == OnError(old(View()), sock) && wire == old(wire)
    {
      hide Carries;
      if ws != Some(sock) { return; }
      status := IsError;
    }

    method SocketClosed(sock: nat)
      requires Valid()
      modifies this
      ensures Valid() && View() == OnClose(old(View()), sock) && wire == old(wire)
    {
      hide Carries;
      if ws != Some(sock) { return; }
      ws := None;
      status := IsClosed;
      ScheduleReconnectTimer();
    }
  }

  /** A sequence of data is that of its tickets. */
  ghost predicate Carries(ds: seq<Data>, ks: seq<Ticket>, accepted: seq<Data>)
  {
    |ds| == |ks| && forall i | 0 <= i < |ds| :: ks[i] < |accepted| && ds[i] == accepted[ks[i]]
  }

  lemma NothingCarried(accepted: seq<Data>)
    ensures Carries([], [], accepted)
  {
  }

  lemma CarriesAsMany(ds: seq<Data>, ks: seq<Ticket>, accepted: seq<Data>)
    requires Carries(ds, ks, accepted)
    ensures |ds| == |ks|
  {
  }

  lemma CarriesAt(ds: seq<Data>, ks: seq<Ticket>, accepted: seq<Data>, i: nat)
    requires Carries(ds, ks, accepted) && i < |ds|
    ensures |ks| == |ds| && ks[i] < |accepted| && accepted[ks[i]] == ds[i]
  {
  }

  lemma CarriesMore(ds: seq<Data>, ks: seq<Ticket>, accepted: seq<Data>, data: Data)
    requires Carries(ds, ks, accepted)
    ensures Carries(ds, ks, accepted + [data])
  {
  }

  // ---- lifecycle ----

  ghost predicate Lifecycle(t: State)
  {
    && t.browser.timers == (if t.timer.Some? then {t.timer.value} else {})
    && (t.timer.Some? ==> t.ws.None? && t.status == Reconnecting && t.auto && t.should)
    && |t.queue| <= QUEUE_CAP && (t.queue != [] ==> t.auto && t.should)
    && (t.ws.Some? ==> t.ws.value in t.browser.ready && t.should)
    && (t.auto && t.should ==> t.ws.Some? || t.timer.Some?)
    && (SocketIs(t.browser, t.ws, Open) ==> t.queue == [])
    && (forall id | id in t.browser.ready || id in t.browser.timers :: id < t.browser.next)
  }

  /** Fields other than the queue and the books. */
  predicate SameLife(t: State, t': State)
  {
    && t'.ws == t.ws && t'.status == t.status && t'.auto == t.auto && t'.timer == t.timer && t'.should == t.should
    && t'.browser == t.browser && t'.attempt == t.attempt
  }

  lemma {:induction false} DispatchAllLife(t: State, q: seq<Ticket>, fails: seq<bool>)
    requires |t.queue| + |q| <= QUEUE_CAP
    ensures var t' := DispatchAll(t, q, fails);
            && SameLife(t, t') && |t'.queue| <= QUEUE_CAP && t'.accepted == t.accepted
            && (SocketIs(t.browser, t.ws, Open) ==> t'.queue == t.queue)
            && (!(t.auto && t.should) ==> t'.queue == t.queue)
    decreases |q|
  {
    if q != [] { DispatchAllLife(Dispatch(t, q[0], Throws(fails)), q[1..], Later(fails)); }
  }

  lemma {:induction false} SendAllLife(t: State, sends: seq<SyncSend>)
    requires SocketIs(t.browser, t.ws, Open)
    ensures SameLife(t, SendAll(t, sends)) && SendAll(t, sends).queue == t.queue
    decreases |sends|
  {
    if sends != [] { SendAllLife(SendRaw(t, sends[0].data, sends[0].throws).0, sends[1..]); }
  }

  lemma ConnectKeepsLifecycle(t: State)
    requires Lifecycle(t)
    ensures Lifecycle(Connect(t))
  {
  }

  /** The timer is gone and the socket not yet made when `connect` runs. */
  lemma TimerKeepsLifecycle(t: State, id: nat)
    requires Lifecycle(t) && id in t.browser.timers
    ensures Lifecycle(After(t, TimerRings(id)))
  {
    assert t.timer == Some(id);
    var t1 := t.(browser := t.browser.(timers := t.browser.timers - {id}), timer := None);
    assert t1.browser.timers == {};
    assert After(t, TimerRings(id)) == Connect(t1);
  }

  lemma DisconnectKeepsLifecycle(t: State)
    requires Lifecycle(t)
    ensures Lifecycle(Disconnect(t))
  {
  }

  lemma SendKeepsLifecycle(t: State, data: Data, throws: bool)
    requires Lifecycle(t)
    ensures Lifecycle(SendRaw(t, data, throws).0)
  {
  }

  lemma OpenedKeepsLifecycle(t: State, sock: nat, sends: seq<SyncSend>, fails: seq<bool>)
    requires Lifecycle(t) && SocketIs(t.browser, Some(sock), Connecting)
    ensures Lifecycle(OnOpen(Ready(t, sock, Open), sock, sends, fails))
  {
    if t.ws == Some(sock) {
      var t1 := Ready(t, sock, Open).(attempt := 0, status := IsOpen);
      SendAllLife(t1, sends);
      var t2 := SendAll(t1, sends);
      DispatchAllLife(t2.(queue := []), t2.queue, fails);
    }
  }

  lemma ClosedKeepsLifecycle(t: State, sock: nat)
    requires Lifecycle(t) && sock in t.browser.ready
    ensures Lifecycle(OnClose(Ready(t, sock, Closed), sock))
  {
  }

  /** Every event keeps: at most one timer pending, and only without a socket, while
      reconnecting; a queue within its cap, used only when reconnection is intended and
      empty while open; and never stuck: when reconnection is wanted there is a socket
      or a timer. */
  lemma EventKeepsLifecycle(t: State, e: Event)
    requires Lifecycle(t)
    ensures Lifecycle(After(t, e))
  {
    match e
    case CallConnect => ConnectKeepsLifecycle(t);
    case CallDisconnect => DisconnectKeepsLifecycle(t);
    case CallSend(data, throws) => SendKeepsLifecycle(t, data, throws);
    case Opened(sock, sends, fails) =>
      if SocketIs(t.browser, Some(sock), Connecting) {
        OpenedKeepsLifecycle(t, sock, sends, fails);
        hide Lifecycle, OnOpen;
      }
    case ClosedEvent(sock) =>
      if sock in t.browser.ready {
        ClosedKeepsLifecycle(t, sock);
        hide Lifecycle, OnClose;
      }
    case TimerRings(id) =>
      if id in t.browser.timers {
        TimerKeepsLifecycle(t, id);
        hide Lifecycle, TimerFired;
      }
    case Drifted(sock, to) =>
    case ErrorEvent(sock) =>
  }

  lemma {:induction false} RunKeepsLifecycle(t: State, es: seq<Event>)
    requires Lifecycle(t)
    ensures Lifecycle(AfterAll(t, es))
    decreases |es|
  {
    if es != [] {
      EventKeepsLifecycle(t, es[0]);
      hide Lifecycle, After;
      RunKeepsLifecycle(After(t, es[0]), es[1..]);
    }
  }

  /** Events of a socket that is not the current one change no field of the transport. */
  lemma StaleEventsIgnored(t: State, e: Event)
    requires e.Opened? || e.Drifted? || e.ClosedEvent? || e.ErrorEvent?
    requires t.ws != Some(e.sock)
    ensures After(t, e) == t.(browser := t.browser.(ready := After(t, e).browser.ready))
  {
  }

  /** Switched off for good: no timer, no socket, nothing to send. */
  ghost predicate Off(t: State)
  {
    t.ws.None? && t.timer.None? && !t.should && t.queue == [] && t.browser.timers == {}
  }

  /** After `disconnect` nothing but `connect` makes a socket or takes an item. */
  lemma {:induction false} OffStaysOff(t: State, es: seq<Event>)
    requires Off(t) && forall i | 0 <= i < |es| :: !es[i].CallConnect?
    ensures var t' := AfterAll(t, es);
            Off(t') && t'.browser.ready.Keys == t.browser.ready.Keys && t'.accepted == t.accepted
    decreases |es|
  {
    if es != [] {
      var t1 := After(t, es[0]);
      assert !es[0].CallConnect?;
      assert Off(t1) && t1.browser.ready.Keys == t.browser.ready.Keys && t1.accepted == t.accepted;
      hide After, Off;
      OffStaysOff(t1, es[1..]);
    }
  }

  lemma DisconnectTurnsOff(t: State)
    requires Lifecycle(t)
    ensures Off(Disconnect(t)) && Disconnect(t).browser.ready.Keys == t.browser.ready.Keys
  {
  }

  // ---- order and conservation ----

  predicate Increasing(s: seq<Ticket>) { forall i, j | 0 <= i < j < |s| :: s[i] < s[j] }

  /** Written items and then queued items, in the order they were accepted. */
  ghost predicate Ordered(t: State)
  {
    Increasing(t.written + t.queue) && forall k | k in t.written + t.queue :: k < |t.accepted|
  }

  function Tickets(ls: seq<Loss>): (r: seq<Ticket>)
    ensures |r| == |ls|
  {
    seq(|ls|, i requires 0 <= i < |ls| => ls[i].ticket)
  }

  function Upto(n: nat): seq<Ticket> { seq(n, i => i) }

  /** Every accepted item is in exactly one place: written, queued or lost, and lost only
      to the cap, a throwing send or `disconnect`. */
  ghost predicate Conserved(t: State)
  {
    && multiset(t.written) + multiset(t.queue) + multiset(Tickets(t.lost)) == multiset(Upto(|t.accepted|))
    && forall l | l in t.lost :: l.reason != NotTaken
  }

  lemma DispatchBalance(t: State, k: Ticket, throws: bool)
    ensures var t' := Dispatch(t, k, throws);
            multiset(t'.written) + multiset(t'.queue) + multiset(Tickets(t'.lost))
            == multiset(t.written) + multiset(t.queue) + multiset(Tickets(t.lost)) + multiset{k}
    ensures SocketIs(t.browser, t.ws, Open) || (t.auto && t.should) ==>
              (forall l | l in Dispatch(t, k, throws).lost :: l in t.lost || l.reason != NotTaken)
  {
    var t' := Dispatch(t, k, throws);
    if t'.lost != t.lost {
      assert Tickets(t'.lost) == Tickets(t.lost) + [k];
    }
  }

  lemma {:induction false} DispatchAllBalance(t: State, q: seq<Ticket>, fails: seq<bool>)
    ensures var t' := DispatchAll(t, q, fails);
            multiset(t'.written) + multiset(t'.queue) + multiset(Tickets(t'.lost))
            == multiset(t.written) + multiset(t.queue) + multiset(Tickets(t.lost)) + multiset(q)
    ensures SocketIs(t.browser, t.ws, Open) || (t.auto && t.should) ==>
              (forall l | l in DispatchAll(t, q, fails).lost :: l in t.lost || l.reason != NotTaken)
    decreases |q|
  {
    if q != [] {
      DispatchBalance(t, q[0], Throws(fails));
      var t1 := Dispatch(t, q[0], Throws(fails));
      DispatchAllBalance(t1, q[1..], Later(fails));
      assert q == [q[0]] + q[1..];
      assert SocketIs(t1.browser, t1.ws, Open) == SocketIs(t.browser, t.ws, Open);
      assert t1.auto == t.auto && t1.should == t.should;
    }
  }

  lemma UptoNext(n: nat)
    ensures multiset(Upto(n + 1)) == multiset(Upto(n)) + multiset{n}
  {
    assert Upto(n + 1) == Upto(n) + [n];
  }

  lemma SendConserves(t: State, data: Data, throws: bool)
    requires Conserved(t)
    ensures Conserved(SendRaw(t, data, throws).0)
  {
    hide Upto, Tickets;
    var (t', ok) := SendRaw(t, data, throws);
    if ok {
      DispatchBalance(t.(accepted := t.accepted + [data]), |t.accepted|, throws);
      UptoNext(|t.accepted|);
    }
  }

  lemma {:induction false} SendAllConserves(t: State, sends: seq<SyncSend>)
    requires Conserved(t)
    ensures Conserved(SendAll(t, sends))
    decreases |sends|
  {
    if sends != [] {
      SendConserves(t, sends[0].data, sends[0].throws);
      hide Conserved, SendRaw;
      SendAllConserves(SendRaw(t, sends[0].data, sends[0].throws).0, sends[1..]);
    }
  }

  lemma FlushConserves(t: State, fails: seq<bool>)
    requires Conserved(t) && SocketIs(t.browser, t.ws, Open) && |t.queue| <= QUEUE_CAP
    ensures Conserved(FlushQueue(t, fails))
  {
    DispatchAllBalance(t.(queue := []), t.queue, fails);
    DispatchAllLife(t.(queue := []), t.queue, fails);
  }

  lemma DisconnectConserves(t: State)
    requires Conserved(t)
    ensures Conserved(Disconnect(t))
  {
    var t' := Disconnect(t);
    assert Tickets(t'.lost) == Tickets(t.lost) + t.queue;
    assert forall l | l in t'.lost :: l in t.lost || l in LoseQueue(t.queue);
  }

  lemma EventConserves(t: State, e: Event)
    requires Lifecycle(t) && Conserved(t)
    ensures Conserved(After(t, e))
  {
    hide Conserved, SendRaw;
    match e
    case CallDisconnect => DisconnectConserves(t);
    case CallSend(data, throws) => SendConserves(t, data, throws);
    case Opened(sock, sends, fails) =>
      if SocketIs(t.browser, Some(sock), Connecting) {
        var t1 := Ready(t, sock, Open);
        SameBooks(t, t1);
        if t1.ws == Some(sock) {
          var t2 := t1.(attempt := 0, status := IsOpen);
          SameBooks(t1, t2);
          SendAllLife(t2, sends);
          SendAllConserves(t2, sends);
          hide SendAll;
          FlushConserves(SendAll(t2, sends), fails);
        }
      }
    case _ => SameBooks(t, After(t, e));
  }

  lemma SameBooks(t: State, t': State)
    requires t'.written == t.written && t'.queue == t.queue && t'.lost == t.lost && t'.accepted == t.accepted
    ensures Conserved(t) ==> Conserved(t')
    ensures Ordered(t) ==> Ordered(t')
  {
  }

  /** Nothing accepted is ever duplicated or silently lost, in any run. */
  lemma {:induction false} RunConserves(t: State, es: seq<Event>)
    requires Lifecycle(t) && Conserved(t)
    ensures Conserved(AfterAll(t, es))
    decreases |es|
  {
    if es != [] {
      EventKeepsLifecycle(t, es[0]);
      EventConserves(t, es[0]);
      hide Lifecycle, Conserved, After;
      RunConserves(After(t, es[0]), es[1..]);
    }
  }

  // ---- what one open event writes ----

  /** How many of the sends are written: on an open socket those that do not throw. */
  function WrittenCount(sends: seq<SyncSend>): nat
  {
    if sends == [] then 0 else (if sends[0].throws then 0 else 1) + WrittenCount(sends[1..])
  }

  /** The queued items that the flush writes. */
  function Survivors(q: seq<Ticket>, fails: seq<bool>): seq<Ticket>
    decreases |q|
  {
    if q == [] then [] else (if Throws(fails) then [] else [q[0]]) + Survivors(q[1..], Later(fails))
  }

  /** The next `n` tickets after the first `from`. */
  function Fresh(from: nat, n: nat): seq<Ticket> { seq(n, i => from + i) }

  lemma {:induction false} SendAllWrites(t: State, sends: seq<SyncSend>)
    requires SocketIs(t.browser, t.ws, Open)
    ensures var t', n := SendAll(t, sends), WrittenCount(sends);
            && t'.written == t.written + Fresh(|t.accepted|, n) && |t'.accepted| == |t.accepted| + n
            && t'.queue == t.queue && t'.browser == t.browser && t'.ws == t.ws
    decreases |sends|
  {
    if sends == [] {
      assert t.written + Fresh(|t.accepted|, 0) == t.written;
    } else {
      var t1 := SendRaw(t, sends[0].data, sends[0].throws).0;
      SendAllWrites(t1, sends[1..]);
      var n := WrittenCount(sends[1..]);
      if !sends[0].throws {
        assert t.written + [|t.accepted|] + Fresh(|t.accepted| + 1, n) == t.written + Fresh(|t.accepted|, n + 1);
      }
    }
  }

  lemma Assoc(a: seq<Ticket>, b: seq<Ticket>, c: seq<Ticket>)
    ensures (a + b) + c == a + (b + c)
  {
  }

  lemma {:induction false} DispatchAllWrites(t: State, q: seq<Ticket>, fails: seq<bool>)
    requires SocketIs(t.browser, t.ws, Open)
    ensures var t' := DispatchAll(t, q, fails);
            t'.written == t.written + Survivors(q, fails) && t'.queue == t.queue && t'.accepted == t.accepted
    decreases |q|
  {
    if q == [] {
      assert t.written + [] == t.written;
    } else {
      var t1, first := Dispatch(t, q[0], Throws(fails)), if Throws(fails) then [] else [q[0]];
      assert t1.written == t.written + first;
      DispatchAllWrites(t1, q[1..], Later(fails));
      Assoc(t.written, first, Survivors(q[1..], Later(fails)));
      hide Dispatch, Throws, Later;
    }
  }

  lemma DropOneOrdered(w: seq<Ticket>, q: seq<Ticket>)
    requires q != [] && Increasing(w + q)
    ensures Increasing(w + q[1..])
  {
    var s, s1 := w + q, w + q[1..];
    assert forall i | 0 <= i < |s1| :: s1[i] == s[if i < |w| then i else i + 1];
  }

  /** Leaving out what failed keeps the order. */
  lemma {:induction false} SurvivorsOrdered(w: seq<Ticket>, q: seq<Ticket>, fails: seq<bool>)
    requires Increasing(w + q)
    ensures Increasing(w + Survivors(q, fails))
    ensures forall k | k in Survivors(q, fails) :: k in q
    decreases |q|
  {
    if q != [] {
      var first, rest := if Throws(fails) then [] else [q[0]], Survivors(q[1..], Later(fails));
      if Throws(fails) {
        DropOneOrdered(w, q);
        assert w + first == w;
      } else {
        assert w + q == (w + first) + q[1..];
      }
      hide Increasing, Throws, Later;
      SurvivorsOrdered(w + first, q[1..], Later(fails));
      Assoc(w, first, rest);
      assert Survivors(q, fails) == first + rest;
      hide Survivors;
    }
  }

  lemma OrderedQueue(t: State)
    requires Ordered(t)
    ensures Increasing(t.written + t.queue) && Increasing(t.written)
    ensures forall k | k in t.written || k in t.queue :: k < |t.accepted|
  {
    var s := t.written + t.queue;
    assert t.written == s[..|t.written|];
    assert forall k | k in t.written || k in t.queue :: k in s;
  }

  lemma FreshOrdered(w: seq<Ticket>, from: nat, n: nat)
    requires Increasing(w) && forall k | k in w :: k < from
    ensures Increasing(w + Fresh(from, n)) && forall k | k in w + Fresh(from, n) :: k < from + n
  {
    assert forall i | 0 <= i < |w| :: w[i] in w;
  }

  lemma OvertakenOutOfOrder(w: seq<Ticket>, from: nat, n: nat, q: seq<Ticket>)
    requires n > 0 && q != [] && forall k | k in q :: k < from
    ensures !Increasing(w + Fresh(from, n) + q)
  {
    var s := w + Fresh(from, n) + q;
    assert q[0] in q;
    assert s[|w|] == from && s[|w| + n] == q[0];
  }

  /** An open event lets new items overtake old ones: a synchronous send is written
      before a queued item that the flush writes. */
  predicate Overtakes(t: State, e: Event)
  {
    && e.Opened? && t.ws == Some(e.sock) && SocketIs(t.browser, t.ws, Connecting)
    && WrittenCount(e.sends) > 0 && Survivors(t.queue, e.fails) != []
  }

  /** What the open event of the current socket leaves written: what was, the
      synchronous sends, and then the queue, each without what `ws.send` threw on. The
      order is kept if and only if nothing new was written or nothing old is left. */
  lemma OpenEventOrder(t: State, e: Event)
    requires Lifecycle(t) && Ordered(t)
    requires e.Opened? && t.ws == Some(e.sock) && SocketIs(t.browser, t.ws, Connecting)
    ensures var t' := After(t, e);
            && t'.written == t.written + Fresh(|t.accepted|, WrittenCount(e.sends)) + Survivors(t.queue, e.fails)
            && t'.queue == [] && t.written <= t'.written
            && (Ordered(t') <==> !Overtakes(t, e)) && (Overtakes(t, e) ==> !Increasing(t'.written))
  {
    var t1 := Ready(t, e.sock, Open).(attempt := 0, status := IsOpen);
    SendAllWrites(t1, e.sends);
    var t2 := SendAll(t1, e.sends);
    DispatchAllWrites(t2.(queue := []), t2.queue, e.fails);
    var t', n, q := After(t, e), WrittenCount(e.sends), Survivors(t.queue, e.fails);
    assert t' == FlushQueue(t2, e.fails);
    hide After, SendAll, DispatchAll, Survivors, WrittenCount;
    OrderedQueue(t);
    SurvivorsOrdered(t.written, t.queue, e.fails);
    FreshOrdered(t.written, |t.accepted|, n);
    hide Increasing;
    assert t'.written + t'.queue == t'.written;
    if n > 0 && q != [] {
      OvertakenOutOfOrder(t.written, |t.accepted|, n, q);
    } else if n == 0 {
      assert t.written + Fresh(|t.accepted|, 0) + q == t.written + q;
    } else {
      assert t.written + Fresh(|t.accepted|, n) + [] == t.written + Fresh(|t.accepted|, n);
    }
  }

  lemma SendOrdered(t: State, data: Data, throws: bool)
    requires Lifecycle(t) && Ordered(t)
    ensures Ordered(SendRaw(t, data, throws).0)
  {
    var t', n := SendRaw(t, data, throws).0, |t.accepted|;
    var s, s' := t.written + t.queue, t'.written + t'.queue;
    AppendIncreasing(s, n);
    assert s' == s || (s' == s + [n] && t'.accepted == t.accepted + [data]);
    assert |t'.accepted| >= n;
  }

  lemma AppendIncreasing(s: seq<Ticket>, n: Ticket)
    requires Increasing(s) && forall k | k in s :: k < n
    ensures Increasing(s + [n]) && forall k | k in s + [n] :: k <= n
  {
    assert forall i | 0 <= i < |s| :: s[i] in s;
  }

  lemma EventKeepsOrder(t: State, e: Event)
    requires Lifecycle(t) && Ordered(t)
    ensures Ordered(After(t, e)) <==> !Overtakes(t, e)
    ensures Overtakes(t, e) ==> !Increasing(After(t, e).written)
  {
    hide Ordered, SendRaw, Increasing, Survivors, WrittenCount;
    match e
    case CallDisconnect => DropQueueOrdered(t, Disconnect(t));
    case CallSend(data, throws) => SendOrdered(t, data, throws);
    case Opened(sock, sends, fails) =>
      if SocketIs(t.browser, Some(sock), Connecting) && t.ws == Some(sock) {
        OpenEventOrder(t, e);
        hide After;
      } else {
        SameBooks(t, After(t, e));
      }
    case _ => SameBooks(t, After(t, e));
  }

  lemma DropQueueOrdered(t: State, t': State)
    requires Ordered(t) && t'.written == t.written && t'.queue == [] && t'.accepted == t.accepted
    ensures Ordered(t')
  {
    var s := t.written + t.queue;
    assert t'.written + t'.queue == s[..|t.written|];
    assert forall k | k in t.written :: k in s;
  }

  /** What is on the wire stays there, so an overtaken item stays out of order. */
  lemma WrittenGrows(t: State, e: Event)
    requires !Increasing(t.written)
    ensures !Increasing(After(t, e).written)
  {
    var t' := After(t, e);
    assert t.written <= t'.written by {
      if e.Opened? && SocketIs(t.browser, Some(e.sock), Connecting) && t.ws == Some(e.sock) {
        var t1 := Ready(t, e.sock, Open).(attempt := 0, status := IsOpen);
        SendAllWrites(t1, e.sends);
        DispatchAllWrites(SendAll(t1, e.sends).(queue := []), SendAll(t1, e.sends).queue, e.fails);
      }
    }
    hide After;
    var i, j :| 0 <= i < j < |t.written| && t.written[i] >= t.written[j];
    assert t'.written[i] == t.written[i] && t'.written[j] == t.written[j];
  }

  lemma {:induction false} DisorderStays(t: State, es: seq<Event>)
    requires !Increasing(t.written)
    ensures !Ordered(AfterAll(t, es))
    decreases |es|
  {
    hide After;
    if es == [] {
      if Ordered(t) { OrderedQueue(t); }
    } else {
      WrittenGrows(t, es[0]);
      DisorderStays(After(t, es[0]), es[1..]);
    }
  }

  /** At no open event of the run does a new item overtake a queued one. */
  predicate NoneOvertakes(t: State, es: seq<Event>)
    decreases |es|
  {
    es != [] ==> !Overtakes(t, es[0]) && NoneOvertakes(After(t, es[0]), es[1..])
  }

  /** First accepted, first written, across all sockets. In every run the items written
      so far followed by the queue are in the order of acceptance, each at most once, if
      and only if no status handler has sent a new item past a queued one while "open"
      was announced. */
  lemma {:induction false} RunKeepsOrder(t: State, es: seq<Event>)
    requires Lifecycle(t) && Ordered(t)
    ensures Ordered(AfterAll(t, es)) <==> NoneOvertakes(t, es)
    decreases |es|
  {
    if es != [] {
      EventKeepsLifecycle(t, es[0]);
      EventKeepsOrder(t, es[0]);
      hide Lifecycle, Ordered, After, Overtakes, Increasing;
      if Overtakes(t, es[0]) {
        DisorderStays(After(t, es[0]), es[1..]);
      } else {
        RunKeepsOrder(After(t, es[0]), es[1..]);
      }
    }
  }

  predicate SendsNothingOnOpen(e: Event) { e.Opened? ==> e.sends == [] }

  /** In particular order holds when status handlers do not send on "open", and when
      they do but nothing was queued before, as for a transport that has just connected. */
  lemma NothingToOvertake(t: State, e: Event)
    requires SendsNothingOnOpen(e) || t.queue == []
    ensures !Overtakes(t, e)
  {
  }

  lemma {:induction false} QuietRunsKeepOrder(t: State, es: seq<Event>)
    requires Lifecycle(t) && Ordered(t) && forall i | 0 <= i < |es| :: SendsNothingOnOpen(es[i])
    ensures Ordered(AfterAll(t, es))
    decreases |es|
  {
    if es != [] {
      NothingToOvertake(t, es[0]);
      EventKeepsLifecycle(t, es[0]);
      EventKeepsOrder(t, es[0]);
      hide Lifecycle, Ordered, After, Overtakes, Increasing;
      QuietRunsKeepOrder(After(t, es[0]), es[1..]);
    }
  }

  lemma NewTransportSound(auto: bool)
    ensures var t := NewTransport(auto); Lifecycle(t) && Ordered(t) && Conserved(t)
  {
  }

  // ---- why items are lost ----

  /** The cause of a loss that event `e` adds in state `t`. */
  predicate Caused(t: State, e: Event, l: Loss)
  {
    match l.reason
    case QueueFull => e.CallSend? && |t.queue| == QUEUE_CAP && l.ticket == |t.accepted|
    case Disconnected => e.CallDisconnect? && l.ticket in t.queue
    case SendThrew => e.Opened? && l.ticket in t.queue && exists i | 0 <= i < |e.fails| :: e.fails[i]
    case NotTaken => false
  }

  /** Losses are only added, and each added one has its cause. */
  ghost predicate LossesCaused(t: State, e: Event, t': State)
  {
    t.lost <= t'.lost && forall i | |t.lost| <= i < |t'.lost| :: Caused(t, e, t'.lost[i])
  }

  lemma {:induction false} SendAllLosesNothing(t: State, sends: seq<SyncSend>)
    requires SocketIs(t.browser, t.ws, Open)
    ensures SendAll(t, sends).lost == t.lost
    decreases |sends|
  {
    if sends != [] { SendAllLosesNothing(SendRaw(t, sends[0].data, sends[0].throws).0, sends[1..]); }
  }

  /** Resending on an open socket loses exactly what throws. */
  lemma {:induction false} DispatchAllLoses(t: State, q: seq<Ticket>, fails: seq<bool>)
    requires SocketIs(t.browser, t.ws, Open)
    ensures var t' := DispatchAll(t, q, fails);
            && t.lost <= t'.lost
            && forall i | |t.lost| <= i < |t'.lost| :: ThrownIn(t'.lost[i], q, fails)
    decreases |q|
  {
    if q != [] {
      var t1, t' := Dispatch(t, q[0], Throws(fails)), DispatchAll(t, q, fails);
      DispatchAllLoses(t1, q[1..], Later(fails));
      forall i | |t.lost| <= i < |t'.lost| ensures ThrownIn(t'.lost[i], q, fails) {
        if i >= |t1.lost| {
          assert ThrownIn(t'.lost[i], q[1..], Later(fails));
          var j :| 0 <= j < |Later(fails)| && Later(fails)[j];
          assert fails[j + 1];
        } else {
          assert t'.lost[i] == t1.lost[i] && fails[0];
        }
      }
    }
  }

  predicate ThrownIn(l: Loss, q: seq<Ticket>, fails: seq<bool>)
  {
    l.reason == SendThrew && l.ticket in q && exists i | 0 <= i < |fails| :: fails[i]
  }

  lemma OpenEventLosses(t: State, e: Event)
    requires e.Opened? && t.ws == Some(e.sock) && SocketIs(t.browser, t.ws, Connecting)
    ensures LossesCaused(t, e, After(t, e))
  {
    var t1 := Ready(t, e.sock, Open).(attempt := 0, status := IsOpen);
    SendAllLosesNothing(t1, e.sends);
    SendAllWrites(t1, e.sends);
    var t2 := SendAll(t1, e.sends);
    DispatchAllLoses(t2.(queue := []), t2.queue, e.fails);
    var t' := After(t, e);
    assert t' == DispatchAll(t2.(queue := []), t2.queue, e.fails);
    hide SendAll, DispatchAll, After;
    forall i | |t.lost| <= i < |t'.lost| ensures Caused(t, e, t'.lost[i]) {
      assert ThrownIn(t'.lost[i], t2.queue, e.fails);
    }
  }

  lemma DisconnectLosses(t: State)
    ensures LossesCaused(t, CallDisconnect, Disconnect(t))
  {
    var t' := Disconnect(t);
    forall i | |t.lost| <= i < |t'.lost| ensures Caused(t, CallDisconnect, t'.lost[i]) {
      assert t'.lost[i] == LoseQueue(t.queue)[i - |t.lost|];
    }
  }

  /** An accepted item is lost only for a cause that is really there: to the cap when
      100 items wait, to `disconnect`, or to a send that throws in the flush. */
  lemma EventLosses(t: State, e: Event)
    requires Lifecycle(t)
    ensures LossesCaused(t, e, After(t, e))
  {
    match e
    case CallDisconnect => DisconnectLosses(t);
    case CallSend(data, throws) =>
    case Opened(sock, sends, fails) =>
      if SocketIs(t.browser, Some(sock), Connecting) && t.ws == Some(sock) { OpenEventLosses(t, e); }
    case _ => assert After(t, e).lost == t.lost;
  }

  /** The loss was added by the event at position `j` of the run, with its cause. */
  ghost predicate LostAt(t: State, es: seq<Event>, j: nat, l: Loss)
  {
    j < |es| && Caused(AfterAll(t, es[..j]), es[j], l)
  }

  /** In every run each loss goes back to one event that caused it. */
  lemma {:induction false} RunLosses(t: State, es: seq<Event>, i: nat) returns (j: nat)
    requires Lifecycle(t) && |t.lost| <= i < |AfterAll(t, es).lost|
    ensures LostAt(t, es, j, AfterAll(t, es).lost[i])
    decreases |es|
  {
    var t1, rest := After(t, es[0]), es[1..];
    EventKeepsLifecycle(t, es[0]);
    EventLosses(t, es[0]);
    LossesGrow(t1, rest);
    hide After, Lifecycle, Caused;
    if i < |t1.lost| {
      assert es[..0] == [] && AfterAll(t, rest[..0]) == t;
      j := 0;
    } else {
      var k := RunLosses(t1, rest, i);
      assert es[..k + 1][0] == es[0] && es[..k + 1][1..] == rest[..k];
      j := k + 1;
    }
  }

  lemma {:induction false} LossesGrow(t: State, es: seq<Event>)
    requires Lifecycle(t)
    ensures t.lost <= AfterAll(t, es).lost
    decreases |es|
  {
    if es != [] {
      EventKeepsLifecycle(t, es[0]);
      EventLosses(t, es[0]);
      hide After, Lifecycle, Caused;
      LossesGrow(After(t, es[0]), es[1..]);
    }
  }

  // ---- delivery ----

  predicate NothingThrows(e: Event) { e.Opened? ==> forall i | 0 <= i < |e.fails| :: !e.fails[i] }

  lemma {:induction false} AllSurvive(q: seq<Ticket>, fails: seq<bool>)
    requires forall i | 0 <= i < |fails| :: !fails[i]
    ensures Survivors(q, fails) == q
    decreases |q|
  {
    if q != [] {
      AllSurvive(q[1..], Later(fails));
      assert q == [q[0]] + q[1..];
    }
  }

  /** An item that waits or is written does so after every event but a `disconnect` or a
      flush in which sending throws; and the open event of the current socket writes it. */
  lemma EventDelivers(t: State, e: Event, k: Ticket)
    requires Lifecycle(t) && (k in t.written || k in t.queue) && !e.CallDisconnect? && NothingThrows(e)
    ensures k in After(t, e).written || k in After(t, e).queue
    ensures e.Opened? && t.ws == Some(e.sock) && SocketIs(t.browser, t.ws, Connecting) ==> k in After(t, e).written
  {
    if e.Opened? && t.ws == Some(e.sock) && SocketIs(t.browser, t.ws, Connecting) {
      var t1 := Ready(t, e.sock, Open).(attempt := 0, status := IsOpen);
      SendAllWrites(t1, e.sends);
      DispatchAllWrites(SendAll(t1, e.sends).(queue := []), SendAll(t1, e.sends).queue, e.fails);
      AllSurvive(t.queue, e.fails);
      hide SendAll, DispatchAll, Survivors;
    }
  }

  lemma {:induction false} RunDelivers(t: State, es: seq<Event>, k: Ticket)
    requires Lifecycle(t) && (k in t.written || k in t.queue)
    requires forall i | 0 <= i < |es| :: !es[i].CallDisconnect? && NothingThrows(es[i])
    ensures k in AfterAll(t, es).written || k in AfterAll(t, es).queue
    ensures Lifecycle(AfterAll(t, es))
    decreases |es|
  {
    if es != [] {
      EventDelivers(t, es[0], k);
      EventKeepsLifecycle(t, es[0]);
      hide After, Lifecycle, NothingThrows;
      RunDelivers(After(t, es[0]), es[1..], k);
    }
  }

  /** What is accepted arrives. An item accepted while the queue has room is written by
      the next open event of the current socket at the latest, whatever sockets come and
      go until then, if nothing disconnects and no flush throws meanwhile. */
  lemma AcceptedIsDelivered(t: State, data: Data, throws: bool, es: seq<Event>, open: Event)
    requires Lifecycle(t) && |t.queue| < QUEUE_CAP
    requires After(t, CallSend(data, throws)).accepted != t.accepted
    requires forall i | 0 <= i < |es| :: !es[i].CallDisconnect? && NothingThrows(es[i])
    requires var t1 := AfterAll(After(t, CallSend(data, throws)), es);
             open.Opened? && NothingThrows(open) && t1.ws == Some(open.sock) && SocketIs(t1.browser, t1.ws, Connecting)
    ensures var t0 := After(t, CallSend(data, throws));
            t0.accepted == t.accepted + [data] && |t.accepted| in After(AfterAll(t0, es), open).written
  {
    var t0 := After(t, CallSend(data, throws));
    AcceptedSomewhere(t, data, throws);
    EventKeepsLifecycle(t, CallSend(data, throws));
    hide After, NothingThrows, Lifecycle;
    RunDelivers(t0, es, |t.accepted|);
    EventDelivers(AfterAll(t0, es), open, |t.accepted|);
  }

  /** `sendRaw` takes an item, and answers true, exactly when the socket is open and does
      not throw, or when reconnection is wanted and it is not open; a taken item is written
      or queued while there is room. */
  lemma AcceptedSomewhere(t: State, data: Data, throws: bool)
    requires |t.queue| < QUEUE_CAP
    ensures var t0, open := After(t, CallSend(data, throws)), SocketIs(t.browser, t.ws, Open);
            && (SendRaw(t, data, throws).1 <==> t0.accepted != t.accepted)
            && (t0.accepted != t.accepted <==> if open then !throws else t.auto && t.should)
            && (t0.accepted != t.accepted ==>
                  t0.accepted == t.accepted + [data]
                  && if open then t0.written == t.written + [|t.accepted|] else t0.queue == t.queue + [|t.accepted|])
  {
    assert |t.accepted + [data]| == |t.accepted| + 1;
  }

  // ---- sockets ----

  predicate Live(b: Browser, sock: nat) { SocketIs(b, Some(sock), Connecting) || SocketIs(b, Some(sock), Open) }

  /** Only the current socket can be connecting or open: replaced sockets and those of
      before a `disconnect` are closing or closed. */
  ghost predicate OneLive(t: State)
  {
    forall sock | sock in t.browser.ready && Live(t.browser, sock) :: t.ws == Some(sock)
  }

  lemma EventKeepsOneLive(t: State, e: Event)
    requires Lifecycle(t) && OneLive(t)
    ensures OneLive(After(t, e))
    ensures e.CallDisconnect? ==> forall sock | sock in After(t, e).browser.ready :: !Live(After(t, e).browser, sock)
  {
    if e.Opened? && t.ws == Some(e.sock) && SocketIs(t.browser, t.ws, Connecting) {
      var t1 := Ready(t, e.sock, Open).(attempt := 0, status := IsOpen);
      SendAllLife(t1, e.sends);
      var t2 := SendAll(t1, e.sends);
      DispatchAllLife(t2.(queue := []), t2.queue, e.fails);
      hide SendAll, DispatchAll;
      assert After(t, e).browser == t1.browser && After(t, e).ws == t.ws;
    }
  }

  /** In every run of a transport at most one socket is live, and after `disconnect` none. */
  lemma {:induction false} RunKeepsOneLive(t: State, es: seq<Event>)
    requires Lifecycle(t) && OneLive(t)
    ensures OneLive(AfterAll(t, es)) && Lifecycle(AfterAll(t, es))
    ensures es != [] && es[|es| - 1].CallDisconnect? ==>
              forall sock | sock in AfterAll(t, es).browser.ready :: !Live(AfterAll(t, es).browser, sock)
    decreases |es|
  {
    if es != [] {
      EventKeepsLifecycle(t, es[0]);
      EventKeepsOneLive(t, es[0]);
      hide Lifecycle, OneLive, After;
      RunKeepsOneLive(After(t, es[0]), es[1..]);
      if |es| > 1 { assert es[1..][|es| - 2] == es[|es| - 1]; }
    }
  }

  /** `connect`, called by the app or by a timer that rings, always ends with a live
      current socket: the one there is if it is connecting or open, a new one otherwise. */
  lemma ConnectGoesLive(t: State, e: Event)
    requires Lifecycle(t) && (e.CallConnect? || (e.TimerRings? && e.timer in t.browser.timers))
    ensures var t' := After(t, e);
            && t'.ws.Some? && Live(t'.browser, t'.ws.value) && t'.should
            && (t.ws.Some? && Live(t.browser, t.ws.value) <==> t'.ws == t.ws)
            && (t'.ws != t.ws ==> t'.ws.value !in t.browser.ready)
  {
  }

  // ---- what the status says ----

  /** The status shown agrees with the socket and the timer. */
  ghost predicate StatusTells(t: State)
  {
    && (t.status == Reconnecting <==> t.timer.Some?)
    && (SocketIs(t.browser, t.ws, Connecting) ==> t.status == IsConnecting || t.status == IsError)
    && (SocketIs(t.browser, t.ws, Open) ==> t.status == IsOpen || t.status == IsError)
    && (t.ws.None? && t.timer.None? ==> t.status == Idle || t.status == IsClosed)
  }

  /** Every event keeps that, an error of the current socket shows, and the number of
      attempts grows by one exactly when a reconnect is scheduled and starts over at each
      open event and `disconnect`. */
  lemma EventKeepsStatus(t: State, e: Event)
    requires Lifecycle(t) && StatusTells(t)
    ensures var t' := After(t, e);
            && StatusTells(t')
            && (e.ErrorEvent? && t.ws == Some(e.sock) ==> t'.status == IsError)
            && t'.attempt == (if e.CallDisconnect? || (e.Opened? && t.ws == Some(e.sock)
                                                         && SocketIs(t.browser, t.ws, Connecting)) then 0
                              else if t'.timer.Some? && t'.timer != t.timer then t.attempt + 1 else t.attempt)
  {
    if e.Opened? && t.ws == Some(e.sock) && SocketIs(t.browser, t.ws, Connecting) {
      var t1 := Ready(t, e.sock, Open).(attempt := 0, status := IsOpen);
      SendAllLife(t1, e.sends);
      var t2 := SendAll(t1, e.sends);
      DispatchAllLife(t2.(queue := []), t2.queue, e.fails);
      hide SendAll, DispatchAll;
      assert SameLife(t1, After(t, e));
    }
  }

  lemma {:induction false} RunKeepsStatus(t: State, es: seq<Event>)
    requires Lifecycle(t) && StatusTells(t)
    ensures StatusTells(AfterAll(t, es))
    decreases |es|
  {
    if es != [] {
      EventKeepsLifecycle(t, es[0]);
      EventKeepsStatus(t, es[0]);
      hide Lifecycle, StatusTells, After;
      RunKeepsStatus(After(t, es[0]), es[1..]);
    }
  }

  lemma NewTransportQuiet(auto: bool)
    ensures OneLive(NewTransport(auto)) && StatusTells(NewTransport(auto))
  {
  }
}
