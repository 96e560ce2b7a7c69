/** The fixed-window rate limiter of the server, its garbage collector, and the
    bound it really gives over sliding intervals. */
module Limiters {
  import opened Options

  /** A window of one key: events counted, first event, duration it was made with. */
  datatype Window = Window(count: int, start: int, dur: int)

  type Windows = map<string, Window>

  predicate Expired(w: Window, now: int, dur: int) { now - w.start > dur }

  /** The window of a key after one request, and the answer. */
  function Admit(w: Option<Window>, now: int, limit: int, dur: int): (Window, bool)
  {
    if w.None? || Expired(w.value, now, dur) then (Window(1, now, dur), true)
    else if w.value.count >= limit then (w.value, false)
    else (w.value.(count := w.value.count + 1), true)
  }

  function Lookup(ws: Windows, key: string): Option<Window> { if key in ws then Some(ws[key]) else None }

  function Collected(ws: Windows, now: int): Windows
  {
    map k | k in ws && !Expired(ws[k], now, ws[k].dur) :: ws[k]
  }

  function Forgotten(ws: Windows, connKey: string): Windows
  {
    map k | k in ws && !(connKey <= k) :: ws[k]
  }

  /** The lock makes every method one step; `now` is the reading of the clock in it. */
  class Limiter {
    var windows: Windows

    constructor ()
      ensures windows == map[]
    {
      windows := map[];
    }

    method Allow(key: string, limit: int, dur: int, now: int) returns (ok: bool)
      modifies this
      ensures var (w, answer) := Admit(Lookup(old(windows), key), now, limit, dur);
              ok == answer && windows == old(windows)[key := w]
    {
      if key !in windows {
        windows := windows[key := Window(1, now, dur)];
        return true;
      }
      var w := windows[key];
      if now - w.start > dur {
        windows := windows[key := w.(start := now, count := 1, dur := dur)];
        return true;
      }
      if w.count >= limit {
        assert windows[key := w] == windows;
        return false;
      }
      windows := windows[key := w.(count := w.count + 1)];
      return true;
    }

    method CleanupConn(connKey: string)
      modifies this
      ensures windows == Forgotten(old(windows), connKey)
    {
      var keys := windows.Keys;
      while keys != {}
        invariant keys <= windows.Keys <= old(windows).Keys
        invariant forall k | k in windows :: windows[k] == old(windows)[k]
        invariant forall k | k in old(windows) && k !in keys :: k in windows <==> !(connKey <= k)
        decreases |keys|
      {
        var k :| k in keys;
        keys := keys - {k};
        if |k| >= |connKey| && k[..|connKey|] == connKey {
          windows := windows - {k};
        }
      }
    }

    method CleanupExpired(now: int)
      modifies this
      ensures windows == Collected(old(windows), now)
    {
      var keys := windows.Keys;
      while keys != {}
        invariant keys <= windows.Keys <= old(windows).Keys
        invariant forall k | k in windows :: windows[k] == old(windows)[k]
        invariant forall k | k in old(windows) && k !in keys ::
          k in windows <==> !Expired(old(windows)[k], now, old(windows)[k].dur)
        decreases |keys|
      {
        var k :| k in keys;
        keys := keys - {k};
        if now - windows[k].start > windows[k].dur {
          windows := windows - {k};
        }
      }
    }
  }

  // ---- runs ----

  datatype Op =
    | Request(now: int, key: string, limit: int, dur: int)
    | CloseConn(now: int, connKey: string)
    | Collect(now: int)

  /** A request with its answer. */
  datatype Answer = Answer(now: int, key: string, ok: bool)

  function After(ws: Windows, op: Op): Windows
  {
    match op
    case Request(now, key, limit, dur) => ws[key := Admit(Lookup(ws, key), now, limit, dur).0]
    case CloseConn(_, connKey) => Forgotten(ws, connKey)
    case Collect(now) => Collected(ws, now)
  }

  /** The answers to requests of the given keys. */
  function AnswerOf(ws: Windows, op: Op, keys: set<string>): seq<Answer>
  {
    if op.Request? && op.key in keys
    then [Answer(op.now, op.key, Admit(Lookup(ws, op.key), op.now, op.limit, op.dur).1)] else []
  }

  function Answers(ws: Windows, ops: seq<Op>, keys: set<string>): seq<Answer>
    decreases |ops|
  {
    if ops == [] then [] else AnswerOf(ws, ops[0], keys) + Answers(After(ws, ops[0]), ops[1..], keys)
  }

  /** The run without its garbage collections. */
  function Uncollected(ops: seq<Op>): seq<Op>
  {
    if ops == [] then [] else (if ops[0].Collect? then [] else [ops[0]]) + Uncollected(ops[1..])
  }

  /** Each step reads a clock that never goes back. */
  ghost predicate ClockFrom(now: int, ops: seq<Op>)
    decreases |ops|
  {
    ops != [] ==> ops[0].now >= now && ClockFrom(ops[0].now, ops[1..])
  }

  /** Each of these keys is always used with one duration. */
  predicate FixedDurations(durs: map<string, int>, ops: seq<Op>)
  {
    forall i | 0 <= i < |ops| && ops[i].Request? && ops[i].key in durs :: ops[i].dur == durs[ops[i].key]
  }

  /** On these keys the collected map holds the windows of the uncollected one, minus
      some whose time is over. */
  ghost predicate Simulates(durs: map<string, int>, gc: Windows, ws: Windows, now: int)
  {
    && (forall k | k in durs && k in gc :: k in ws && gc[k] == ws[k])
    && (forall k | k in durs && k in ws :: ws[k].dur == durs[k] && (k !in gc ==> Expired(ws[k], now, ws[k].dur)))
  }

  /** Collection cannot be observed: dropping every collection from a run, wherever they
      stand, changes no answer to a key that is always used with one duration. */
  lemma {:induction false} CollectionUnobservable(durs: map<string, int>, gc: Windows, ws: Windows, now: int,
                                                  ops: seq<Op>)
    requires Simulates(durs, gc, ws, now) && ClockFrom(now, ops) && FixedDurations(durs, ops)
    ensures Answers(gc, ops, durs.Keys) == Answers(ws, Uncollected(ops), durs.Keys)
    decreases |ops|
  {
    if ops != [] {
      var op := ops[0];
      assert FixedDurations(durs, ops[1..]);
      if op.Collect? {
        CollectionUnobservable(durs, After(gc, op), ws, op.now, ops[1..]);
        assert Uncollected(ops) == Uncollected(ops[1..]);
      } else {
        assert Uncollected(ops) == [op] + Uncollected(ops[1..]);
        StepSimulates(durs, gc, ws, now, op);
        CollectionUnobservable(durs, After(gc, op), After(ws, op), op.now, ops[1..]);
      }
    }
  }

  /** One step other than a collection gives the same answer on both maps. */
  lemma StepSimulates(durs: map<string, int>, gc: Windows, ws: Windows, now: int, op: Op)
    requires Simulates(durs, gc, ws, now) && op.now >= now && !op.Collect?
    requires op.Request? && op.key in durs ==> op.dur == durs[op.key]
    ensures Simulates(durs, After(gc, op), After(ws, op), op.now)
    ensures AnswerOf(gc, op, durs.Keys) == AnswerOf(ws, op, durs.Keys)
  {
  }

  /** Collecting just before a request changes its answer if and only if the key is used
      with a longer duration than its window was made with, that window is over by its
      own duration but not by the request's, and it is full. */
  lemma CollectionVisible(ws: Windows, now: int, key: string, limit: int, dur: int)
    ensures Admit(Lookup(Collected(ws, now), key), now, limit, dur).1 != Admit(Lookup(ws, key), now, limit, dur).1
       <==> key in ws && Expired(ws[key], now, ws[key].dur) && !Expired(ws[key], now, dur) && ws[key].count >= limit
  {
  }

  // ---- the sliding bound ----

  /** Requests of `key` allowed in the closed interval [lo, hi]. */
  function AllowedIn(answers: seq<Answer>, key: string, lo: int, hi: int): nat
  {
    if answers == [] then 0
    else
      var a := answers[|answers| - 1];
      AllowedIn(answers[..|answers| - 1], key, lo, hi) + (if a.ok && a.key == key && lo <= a.now <= hi then 1 else 0)
  }

  lemma AllowedAppend(answers: seq<Answer>, a: Answer, key: string, lo: int, hi: int)
    ensures AllowedIn(answers + [a], key, lo, hi)
         == AllowedIn(answers, key, lo, hi) + (if a.ok && a.key == key && lo <= a.now <= hi then 1 else 0)
  {
    assert (answers + [a])[..|answers|] == answers;
  }

  /** `key` is always used with one limit and duration and its connection never closes. */
  predicate SteadyKey(key: string, limit: int, dur: int, ops: seq<Op>)
  {
    forall i | 0 <= i < |ops| ::
      && (ops[i].Request? && ops[i].key == key ==> ops[i].limit == limit && ops[i].dur == dur)
      && (ops[i].CloseConn? ==> !(ops[i].connKey <= key))
  }

  /** How many requests of `key` can have been allowed in [lo, lo + dur], given its
      window: none after the last one, at most the counted ones but the first when the
      window opened before `lo`, and `limit - 1` older ones besides when it opened inside. */
  ghost predicate Bounded(w: Option<Window>, limit: int, dur: int, lo: int, now: int, n: nat)
  {
    match w
    case None => n == 0
    case Some(win) =>
      && win.dur == dur && 1 <= win.count <= limit && win.start <= now
      && (lo > now ==> n == 0)
      && (lo > win.start ==> n <= win.count - 1)
      && (win.start - dur <= lo <= win.start ==> n <= limit - 1 + win.count)
      && n <= 2 * limit - 1
  }

  lemma AdmitBounded(w: Option<Window>, limit: int, dur: int, lo: int, last: int, now: int, n: nat)
    requires limit >= 1 && dur >= 0 && Bounded(w, limit, dur, lo, last, n) && last <= now
    ensures var (win, ok) := Admit(w, now, limit, dur);
            Bounded(Some(win), limit, dur, lo, now, n + (if ok && lo <= now <= lo + dur then 1 else 0))
  {
  }

  lemma StepBounded(ws: Windows, seen: seq<Answer>, op: Op, key: string, limit: int, dur: int, lo: int, now: int)
    requires limit >= 1 && dur >= 0 && op.now >= now && SteadyKey(key, limit, dur, [op]) && !op.Collect?
    requires Bounded(Lookup(ws, key), limit, dur, lo, now, AllowedIn(seen, key, lo, lo + dur))
    ensures Bounded(Lookup(After(ws, op), key), limit, dur, lo, op.now,
                    AllowedIn(seen + AnswerOf(ws, op, {key}), key, lo, lo + dur))
  {
    assert [op][0] == op;
    hide AllowedIn;
    if op.Request? && op.key == key {
      var a := AnswerOf(ws, op, {key})[0];
      AllowedAppend(seen, a, key, lo, lo + dur);
      assert AnswerOf(ws, op, {key}) == [a];
      AdmitBounded(Lookup(ws, key), limit, dur, lo, now, op.now, AllowedIn(seen, key, lo, lo + dur));
      hide Admit;
    } else {
      assert seen + AnswerOf(ws, op, {key}) == seen;
    }
  }

  lemma AnswersStep(ws: Windows, seen: seq<Answer>, ops: seq<Op>, key: string)
    requires ops != []
    ensures seen + Answers(ws, ops, {key})
         == (seen + AnswerOf(ws, ops[0], {key})) + Answers(After(ws, ops[0]), ops[1..], {key})
  {
    hide After, AnswerOf;
  }

  lemma {:induction false} SlidingBoundFrom(ws: Windows, seen: seq<Answer>, ops: seq<Op>, key: string, limit: int,
                                            dur: int, lo: int, now: int)
    requires limit >= 1 && dur >= 0 && ClockFrom(now, ops) && SteadyKey(key, limit, dur, ops)
    requires forall i | 0 <= i < |ops| :: !ops[i].Collect?
    requires Bounded(Lookup(ws, key), limit, dur, lo, now, AllowedIn(seen, key, lo, lo + dur))
    ensures AllowedIn(seen + Answers(ws, ops, {key}), key, lo, lo + dur) <= 2 * limit - 1
    decreases |ops|
  {
    if ops == [] {
      assert seen + Answers(ws, ops, {key}) == seen;
    } else {
      hide AllowedIn, Bounded, After, AnswerOf, Lookup, Answers;
      var op, rest := ops[0], ops[1..];
      StepBounded(ws, seen, op, key, limit, dur, lo, now);
      AnswersStep(ws, seen, ops, key);
      assert SteadyKey(key, limit, dur, rest) && ClockFrom(op.now, rest);
      hide SteadyKey, ClockFrom;
      SlidingBoundFrom(After(ws, op), seen + AnswerOf(ws, op, {key}), rest, key, limit, dur, lo, op.now);
    }
  }

  lemma {:induction false} UncollectedKeeps(now: int, ops: seq<Op>, key: string, limit: int, dur: int)
    requires ClockFrom(now, ops) && SteadyKey(key, limit, dur, ops)
    ensures ClockFrom(now, Uncollected(ops)) && SteadyKey(key, limit, dur, Uncollected(ops))
    ensures forall i | 0 <= i < |Uncollected(ops)| :: !Uncollected(ops)[i].Collect?
    decreases |ops|
  {
    if ops != [] {
      assert SteadyKey(key, limit, dur, ops[1..]);
      UncollectedKeeps(ops[0].now, ops[1..], key, limit, dur);
      var rest := Uncollected(ops[1..]);
      ClockEarlier(now, ops[0].now, rest);
      assert Uncollected(ops) == if ops[0].Collect? then rest else [ops[0]] + rest;
      if !ops[0].Collect? { assert Uncollected(ops)[1..] == rest; }
    }
  }

  lemma ClockEarlier(now: int, later: int, ops: seq<Op>)
    requires now <= later && ClockFrom(later, ops)
    ensures ClockFrom(now, ops)
  {
  }

  /** Over any run of the limiter, collections included, every closed interval as long
      as the window holds at most 2L - 1 allowed requests of a steadily used key. */
  lemma SlidingBound(ops: seq<Op>, key: string, limit: int, dur: int, lo: int, now: int)
    requires limit >= 1 && dur >= 0 && ClockFrom(now, ops) && SteadyKey(key, limit, dur, ops)
    ensures AllowedIn(Answers(map[], ops, {key}), key, lo, lo + dur) <= 2 * limit - 1
  {
    var plain := Uncollected(ops);
    CollectionUnobservable(map[key := dur], map[], map[], now, ops);
    assert map[key := dur].Keys == {key};
    UncollectedKeeps(now, ops, key, limit, dur);
    SlidingBoundFrom(map[], [], plain, key, limit, dur, lo, now);
    assert [] + Answers(map[], plain, {key}) == Answers(map[], plain, {key});
  }

  /** `n` requests of `key` at one moment. */
  function Burst(now: int, key: string, limit: int, dur: int, n: nat): seq<Op>
  {
    seq(n, _ => Request(now, key, limit, dur))
  }

  /** One request, `limit - 1` more when its window is about to end, `limit` right after. */
  function WorstCase(key: string, limit: int, dur: int): seq<Op>
    requires limit >= 1
  {
    Burst(0, key, limit, dur, 1) + (Burst(dur, key, limit, dur, limit - 1) + Burst(dur + 1, key, limit, dur, limit))
  }

  /** What a burst leaves behind: a window with `count` events and `n` more allowed
      requests on record, if the burst falls into [lo, hi]. */
  ghost predicate Passed(ws: Windows, seen: seq<Answer>, ops: seq<Op>, win: Window, now: int, n: nat,
                         key: string, lo: int, hi: int, ws': Windows, seen': seq<Answer>, rest: seq<Op>)
  {
    && Lookup(ws', key) == Some(win)
    && seen + Answers(ws, ops, {key}) == seen' + Answers(ws', rest, {key})
    && AllowedIn(seen', key, lo, hi) == AllowedIn(seen, key, lo, hi) + (if lo <= now <= hi then n else 0)
  }

  lemma BurstStep(now: int, key: string, limit: int, dur: int, n: nat, rest: seq<Op>)
    requires n >= 1
    ensures var ops := Burst(now, key, limit, dur, n) + rest;
            ops[0] == Request(now, key, limit, dur) && ops[1..] == Burst(now, key, limit, dur, n - 1) + rest
  {
  }

  /** One allowed request at the head of a burst goes on record. */
  lemma FirstOfBurst(ws: Windows, win: Window, seen: seq<Answer>, now: int, key: string, limit: int, dur: int,
                     n: nat, rest: seq<Op>, lo: int, hi: int)
    requires n >= 1 && Admit(Lookup(ws, key), now, limit, dur) == (win, true)
    ensures var ops, more := Burst(now, key, limit, dur, n) + rest, Burst(now, key, limit, dur, n - 1) + rest;
            var ws1, seen1 := After(ws, Request(now, key, limit, dur)), seen + [Answer(now, key, true)];
            && Lookup(ws1, key) == Some(win)
            && seen + Answers(ws, ops, {key}) == seen1 + Answers(ws1, more, {key})
            && AllowedIn(seen1, key, lo, hi) == AllowedIn(seen, key, lo, hi) + (if lo <= now <= hi then 1 else 0)
  {
    BurstStep(now, key, limit, dur, n, rest);
    hide AllowedIn, Burst, Answers, Admit;
    AnswersStep(ws, seen, Burst(now, key, limit, dur, n) + rest, key);
    AllowedAppend(seen, Answer(now, key, true), key, lo, hi);
  }

  /** A burst that fits in what is left of the window is allowed throughout. */
  lemma {:induction false} BurstAllowed(ws: Windows, win: Window, seen: seq<Answer>, now: int, key: string,
                                        limit: int, dur: int, n: nat, rest: seq<Op>, lo: int, hi: int)
    returns (ws': Windows, seen': seq<Answer>)
    requires Lookup(ws, key) == Some(win) && !Expired(win, now, dur) && win.count + n <= limit
    ensures Passed(ws, seen, Burst(now, key, limit, dur, n) + rest, win.(count := win.count + n), now, n,
                   key, lo, hi, ws', seen', rest)
    decreases n
  {
    if n == 0 {
      assert Burst(now, key, limit, dur, n) + rest == rest;
      ws', seen' := ws, seen;
    } else {
      var next := win.(count := win.count + 1);
      FirstOfBurst(ws, next, seen, now, key, limit, dur, n, rest, lo, hi);
      hide AllowedIn, Burst, Answers, After, Lookup;
      ws', seen' := BurstAllowed(After(ws, Request(now, key, limit, dur)), next, seen + [Answer(now, key, true)],
                                 now, key, limit, dur, n - 1, rest, lo, hi);
    }
  }

  /** A burst on a fresh or expired key opens a window and fits into it. */
  lemma FreshBurstAllowed(ws: Windows, seen: seq<Answer>, now: int, key: string, limit: int, dur: int,
                          n: nat, rest: seq<Op>, lo: int, hi: int)
    returns (ws': Windows, seen': seq<Answer>)
    requires Lookup(ws, key).Some? ==> Expired(Lookup(ws, key).value, now, dur)
    requires 1 <= n <= limit && dur >= 0
    ensures Passed(ws, seen, Burst(now, key, limit, dur, n) + rest, Window(n, now, dur), now, n,
                   key, lo, hi, ws', seen', rest)
  {
    FirstOfBurst(ws, Window(1, now, dur), seen, now, key, limit, dur, n, rest, lo, hi);
    hide AllowedIn, Burst, Answers, After, Lookup;
    ws', seen' := BurstAllowed(After(ws, Request(now, key, limit, dur)), Window(1, now, dur),
                               seen + [Answer(now, key, true)], now, key, limit, dur, n - 1, rest, lo, hi);
  }

  /** The bound is attained: 2L - 1 requests pass within one window length. */
  lemma SlidingBoundAttained(key: string, limit: int, dur: int)
    requires limit >= 1 && dur >= 1
    ensures ClockFrom(0, WorstCase(key, limit, dur)) && SteadyKey(key, limit, dur, WorstCase(key, limit, dur))
    ensures AllowedIn(Answers(map[], WorstCase(key, limit, dur), {key}), key, 1, 1 + dur) == 2 * limit - 1
  {
    hide AllowedIn, ClockFrom, SteadyKey, Answers, Burst, Lookup;
    var last, middle := Burst(dur + 1, key, limit, dur, limit), Burst(dur, key, limit, dur, limit - 1);
    WorstCaseClock(key, limit, dur);
    NothingYet(key, 1, 1 + dur);
    var ws1, seen1 := FreshBurstAllowed(map[], [], 0, key, limit, dur, 1, middle + last, 1, 1 + dur);
    var ws2, seen2 := BurstAllowed(ws1, Window(1, 0, dur), seen1, dur, key, limit, dur, limit - 1, last, 1, 1 + dur);
    var ws3, seen3 := FreshBurstAllowed(ws2, seen2, dur + 1, key, limit, dur, limit, [], 1, 1 + dur);
    assert last + [] == last;
    NoAnswers(ws3, key);
    assert seen3 + Answers(ws3, [], {key}) == seen3;
    assert [] + Answers(map[], WorstCase(key, limit, dur), {key}) == Answers(map[], WorstCase(key, limit, dur), {key});
  }

  lemma NoAnswers(ws: Windows, key: string)
    ensures Answers(ws, [], {key}) == []
  {
  }

  lemma NothingYet(key: string, lo: int, hi: int)
    ensures AllowedIn([], key, lo, hi) == 0 && Lookup(map[], key) == None
  {
  }

  lemma {:induction false} BurstClock(from: int, now: int, key: string, limit: int, dur: int, n: nat, rest: seq<Op>)
    requires from <= now && ClockFrom(now, rest)
    ensures ClockFrom(from, Burst(now, key, limit, dur, n) + rest)
    decreases n
  {
    var ops := Burst(now, key, limit, dur, n) + rest;
    if n == 0 {
      assert ops == rest;
      ClockEarlier(from, now, rest);
    } else {
      assert ops[1..] == Burst(now, key, limit, dur, n - 1) + rest;
      BurstClock(now, now, key, limit, dur, n - 1, rest);
    }
  }

  lemma WorstCaseClock(key: string, limit: int, dur: int)
    requires limit >= 1 && dur >= 0
    ensures ClockFrom(0, WorstCase(key, limit, dur)) && SteadyKey(key, limit, dur, WorstCase(key, limit, dur))
  {
    var last := Burst(dur + 1, key, limit, dur, limit);
    BurstClock(dur, dur + 1, key, limit, dur, limit, []);
    assert last + [] == last;
    BurstClock(0, dur, key, limit, dur, limit - 1, last);
    BurstClock(0, 0, key, limit, dur, 1, Burst(dur, key, limit, dur, limit - 1) + last);
    WorstCaseSteady(key, limit, dur);
  }

  lemma WorstCaseSteady(key: string, limit: int, dur: int)
    requires limit >= 1
    ensures SteadyKey(key, limit, dur, WorstCase(key, limit, dur))
  {
  }

  // ---- what a refusal means ----

  /** Each window counts requests that were allowed since it began. */
  ghost predicate CountedAllowed(ws: Windows, seen: seq<Answer>, key: string, now: int)
  {
    key in ws ==> ws[key].start <= now && ws[key].count <= AllowedIn(seen, key, ws[key].start, now)
  }

  /** A longer interval holds no fewer. */
  lemma {:induction false} AllowedWiden(seen: seq<Answer>, key: string, lo: int, hi: int, lo': int, hi': int)
    requires lo' <= lo && hi <= hi'
    ensures AllowedIn(seen, key, lo, hi) <= AllowedIn(seen, key, lo', hi')
    decreases |seen|
  {
    if seen != [] { AllowedWiden(seen[..|seen| - 1], key, lo, hi, lo', hi'); }
  }

  lemma CountedStep(ws: Windows, seen: seq<Answer>, key: string, now: int, op: Op)
    requires CountedAllowed(ws, seen, key, now) && op.now >= now
    ensures CountedAllowed(After(ws, op), seen + AnswerOf(ws, op, {key}), key, op.now)
  {
    hide AllowedIn;
    if key in ws { AllowedWiden(seen, key, ws[key].start, now, ws[key].start, op.now); }
    if op.Request? && op.key == key {
      var a := AnswerOf(ws, op, {key})[0];
      assert AnswerOf(ws, op, {key}) == [a];
      AllowedAppend(seen, a, key, After(ws, op)[key].start, op.now);
    } else {
      assert seen + AnswerOf(ws, op, {key}) == seen;
    }
  }

  lemma RefusedNow(ws: Windows, seen: seq<Answer>, key: string, now: int, op: Op)
    requires CountedAllowed(ws, seen, key, now) && op.now >= now && op.Request? && op.key == key
    requires AnswerOf(ws, op, {key}) == [Answer(op.now, key, false)]
    ensures AllowedIn(seen, key, op.now - op.dur, op.now) >= op.limit
  {
    hide AllowedIn;
    AllowedWiden(seen, key, ws[key].start, now, op.now - op.dur, op.now);
  }

  lemma {:induction false} RefusedFrom(ws: Windows, seen: seq<Answer>, ops: seq<Op>, now: int, key: string, last: Op)
    requires CountedAllowed(ws, seen, key, now) && ClockFrom(now, ops + [last]) && last.Request? && last.key == key
    requires Answers(ws, ops + [last], {key}) == Answers(ws, ops, {key}) + [Answer(last.now, key, false)]
    ensures AllowedIn(seen + Answers(ws, ops, {key}), key, last.now - last.dur, last.now) >= last.limit
    decreases |ops|
  {
    var all := ops + [last];
    if ops == [] {
      assert all[1..] == [];
      assert Answers(ws, all, {key}) == AnswerOf(ws, last, {key}) + [] == AnswerOf(ws, last, {key});
      assert Answers(ws, ops, {key}) + [Answer(last.now, key, false)] == [Answer(last.now, key, false)];
      assert seen + Answers(ws, ops, {key}) == seen;
      RefusedNow(ws, seen, key, now, last);
    } else {
      var op, rest := ops[0], ops[1..];
      assert all[0] == op && all[1..] == rest + [last];
      CountedStep(ws, seen, key, now, op);
      AnswersStep(ws, seen, ops, key);
      var a, ws1 := AnswerOf(ws, op, {key}), After(ws, op);
      assert Answers(ws, all, {key}) == a + Answers(ws1, rest + [last], {key});
      assert Answers(ws, ops, {key}) == a + Answers(ws1, rest, {key});
      assert a + Answers(ws1, rest, {key}) + [Answer(last.now, key, false)]
          == a + (Answers(ws1, rest, {key}) + [Answer(last.now, key, false)]);
      SameTail(a, Answers(ws1, rest + [last], {key}), Answers(ws1, rest, {key}) + [Answer(last.now, key, false)]);
      hide AllowedIn, Answers, AnswerOf, After, CountedAllowed;
      RefusedFrom(ws1, seen + a, rest, op.now, key, last);
    }
  }

  lemma SameTail(a: seq<Answer>, x: seq<Answer>, y: seq<Answer>)
    requires a + x == a + y
    ensures x == y
  {
    assert x == (a + x)[|a|..] && y == (a + y)[|a|..];
  }

  /** Nobody is refused without cause: over any run of the limiter, with collections and
      closing connections, and whatever limits and durations are in use, a request that is
      refused has had at least `limit` requests of its key allowed in the closed interval
      that ends with it and is as long as its duration. Refusals themselves never count. */
  lemma RefusedOnlyWhenSpent(ops: seq<Op>, start: int, key: string, now: int, limit: int, dur: int)
    requires ClockFrom(start, ops + [Request(now, key, limit, dur)])
    requires Answers(map[], ops + [Request(now, key, limit, dur)], {key})
          == Answers(map[], ops, {key}) + [Answer(now, key, false)]
    ensures AllowedIn(Answers(map[], ops, {key}), key, now - dur, now) >= limit
  {
    RefusedFrom(map[], [], ops, start, key, Request(now, key, limit, dur));
    assert [] + Answers(map[], ops, {key}) == Answers(map[], ops, {key});
  }

  // ---- what closing a connection means ----

  /** Two maps with the same windows for these keys. */
  predicate AgreeOn(keys: set<string>, ws: Windows, us: Windows)
  {
    forall k | k in keys :: Lookup(ws, k) == Lookup(us, k)
  }

  lemma {:induction false} SameWindowsSameAnswers(keys: set<string>, ws: Windows, us: Windows, ops: seq<Op>)
    requires AgreeOn(keys, ws, us)
    ensures Answers(ws, ops, keys) == Answers(us, ops, keys)
    decreases |ops|
  {
    if ops != [] {
      hide Admit, Expired;
      assert AgreeOn(keys, After(ws, ops[0]), After(us, ops[0])) by {
        forall k | k in keys ensures Lookup(After(ws, ops[0]), k) == Lookup(After(us, ops[0]), k) {
          assert Lookup(ws, k) == Lookup(us, k);
        }
      }
      assert AnswerOf(ws, ops[0], keys) == AnswerOf(us, ops[0], keys) by {
        if ops[0].Request? && ops[0].key in keys { assert Lookup(ws, ops[0].key) == Lookup(us, ops[0].key); }
      }
      SameWindowsSameAnswers(keys, After(ws, ops[0]), After(us, ops[0]), ops[1..]);
    }
  }

  /** A closed connection leaves no trace: afterwards every key with its prefix is
      answered as if it had never been used, and every other key as if nothing happened. */
  lemma CloseForgetsExactly(ws: Windows, now: int, connKey: string, ops: seq<Op>, keys: set<string>)
    ensures (forall k | k in keys :: connKey <= k) ==>
              Answers(After(ws, CloseConn(now, connKey)), ops, keys) == Answers(map[], ops, keys)
    ensures (forall k | k in keys :: !(connKey <= k)) ==>
              Answers(After(ws, CloseConn(now, connKey)), ops, keys) == Answers(ws, ops, keys)
  {
    var after := After(ws, CloseConn(now, connKey));
    if forall k | k in keys :: connKey <= k { SameWindowsSameAnswers(keys, after, map[], ops); }
    if forall k | k in keys :: !(connKey <= k) { SameWindowsSameAnswers(keys, after, ws, ops); }
  }
}
