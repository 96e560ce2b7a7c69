/** The bounded FIFO dedup cache, and the plain log it implements. */
module ReplayCaches {
  import opened Text

  type Id = JsString

  /** The last `max` entries of the log (none when `max` is not positive). */
  function Recent(log: seq<Id>, max: int): (r: seq<Id>)
    ensures |r| <= |log|
  {
    if max <= 0 then [] else if |log| <= max then log else log[|log| - max..]
  }

  /** The log after one `add`: an id still remembered is not inserted again. */
  function Added(log: seq<Id>, max: int, id: Id): seq<Id>
  {
    if id in Recent(log, max) then log else log + [id]
  }

  /** Equal entries of the log lie more than `max` apart. */
  ghost predicate Spaced(log: seq<Id>, max: int)
  {
    forall i, j | 0 <= i < j < |log| && log[i] == log[j] :: j - i > max
  }

  ghost predicate Distinct(s: seq<Id>)
  {
    forall i, j | 0 <= i < j < |s| :: s[i] != s[j]
  }

  lemma RecentPosition(log: seq<Id>, max: int, i: nat)
    requires i < |log| && |log| - i <= max
    ensures log[i] in Recent(log, max)
  {
    var r := Recent(log, max);
    assert r[i - (|log| - |r|)] == log[i];
  }

  lemma AddedSpaced(log: seq<Id>, max: int, id: Id)
    requires Spaced(log, max)
    ensures Spaced(Added(log, max, id), max)
  {
    if id !in Recent(log, max) {
      forall i | 0 <= i < |log| && log[i] == id ensures |log| - i > max {
        if |log| - i <= max { RecentPosition(log, max, i); }
      }
    }
  }

  lemma RecentDistinct(log: seq<Id>, max: int)
    requires Spaced(log, max)
    ensures Distinct(Recent(log, max))
  {
  }

  /** The window slides by one: it drops its head only when it was full. */
  lemma RecentSlides(log: seq<Id>, max: int, id: Id)
    ensures var q := Recent(log, max) + [id];
            Recent(log + [id], max) == if |q| > max then q[1..] else q
  {
  }

  /** An id is remembered for exactly the next `max - 1` insertions of other ids. */
  lemma RememberedFor(log: seq<Id>, max: int, id: Id, more: seq<Id>)
    requires id !in more
    ensures id in Recent(log + [id] + more, max) <==> |more| < max
  {
    var all := log + [id] + more;
    assert all[|log|] == id;
    if |more| < max {
      RecentPosition(all, max, |log|);
    } else {
      assert max > 0 ==> Recent(all, max) == more[|more| - max..];
    }
  }

  lemma SetOfTail(q: seq<Id>)
    requires q != [] && Distinct(q)
    ensures (set id | id in q) - {q[0]} == set id | id in q[1..]
  {
    assert forall i | 0 <= i < |q| - 1 :: q[i + 1] == q[1..][i];
    assert q == [q[0]] + q[1..];
  }

  class ReplayCache {
    var seen: set<Id>
    var queue: seq<Id>
    var max: int
    // effective insertions since the last clear
    ghost var log: seq<Id>

    ghost predicate Valid()
      reads this
    {
      && queue == Recent(log, max)
      && Spaced(log, max)
      && seen == set id | id in queue
    }

    constructor (max: int := 1000)
      ensures Valid() && log == [] && this.max == max
    {
      seen, queue, this.max, log := {}, [], max, [];
    }

    method Has(id: Id) returns (r: bool)
      requires Valid()
      ensures r <==> id in Recent(log, max)
    {
      r := id in seen;
    }

    method Add(id: Id)
      requires Valid()
      modifies this
      ensures Valid() && max == old(max) && log == Added(old(log), max, id)
    {
      if id in seen { return; }
      AddedSpaced(log, max, id);
      RecentSlides(log, max, id);
      hide Spaced, Recent;
      seen := seen + {id};
      queue := queue + [id];
      log := log + [id];
      if |queue| > max {
        var oldest := queue[0];
        RecentDistinct(old(log), max);
        SetOfTail(queue);
        queue := queue[1..];
        seen := seen - {oldest};
      }
    }

    method Clear()
      requires Valid()
      modifies this
      ensures Valid() && max == old(max) && log == []
    {
      seen := {};
      queue := [];
      log := [];
    }

    /** The size is that of the window: the set never drifts from the queue. */
    method Size() returns (n: nat)
      requires Valid()
      ensures n == if max <= 0 then 0 else if |log| <= max then |log| else max
    {
      RecentDistinct(log, max);
      DistinctCount(queue);
      n := |seen|;
    }
  }

  lemma {:induction false} DistinctCount(s: seq<Id>)
    requires Distinct(s)
    ensures |set id | id in s| == |s|
  {
    if s != [] {
      var t := s[1..];
      DistinctCount(t);
      assert (set id | id in s) == (set id | id in t) + {s[0]};
    }
  }
}
