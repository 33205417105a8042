/**
 The ready queue as one arrival-ordered sequence. The eight rings of the queue
 are its priority levels; popping takes the earliest arrival of the highest
 priority.
 */
module ReadyOrder {
  import opened Base

  const PRIORITY_LEVELS: nat := 8
  const QUEUE_CAPACITY: nat := 16

  type Priority = p: nat | p < PRIORITY_LEVELS

  datatype QueueError = Full | AlreadyQueued

  /** A queued thread; `stamp` is its place in the order of arrival. */
  datatype Entry = Entry(tid: nat, prio: Priority, stamp: nat)

  /** `f` is to be popped after `e`. */
  predicate Behind(e: Entry, f: Entry) {
    f.prio < e.prio || (f.prio == e.prio && f.stamp > e.stamp)
  }

  /** In order of arrival, each thread at most once. */
  predicate Ordered(q: seq<Entry>) {
    && (forall i, j | 0 <= i < j < |q| :: q[i].stamp < q[j].stamp)
    && (forall i, j | 0 <= i < j < |q| :: q[i].tid != q[j].tid)
  }

  predicate Queued(q: seq<Entry>, tid: nat) { exists i | 0 <= i < |q| :: q[i].tid == tid }

  /** The threads queued at one priority, in order of arrival. */
  function Level(q: seq<Entry>, p: Priority): seq<nat> {
    if q == [] then []
    else Level(q[..|q| - 1], p) + (if q[|q| - 1].prio == p then [q[|q| - 1].tid] else [])
  }

  /** The entries behind `e`, in the order they had. */
  function Rest(q: seq<Entry>, e: Entry): seq<Entry> {
    if q == [] then []
    else Rest(q[..|q| - 1], e) + (if Behind(e, q[|q| - 1]) then [q[|q| - 1]] else [])
  }

  /** The queue without thread `tid`. */
  function Without(q: seq<Entry>, tid: nat): seq<Entry> {
    if q == [] then []
    else Without(q[..|q| - 1], tid) + (if q[|q| - 1].tid != tid then [q[|q| - 1]] else [])
  }

  /** `e` is in the queue and everything else is behind it. */
  predicate IsFirst(q: seq<Entry>, e: Entry) {
    e in q && forall f | f in q && f != e :: Behind(e, f)
  }

  lemma {:induction false} RestMembers(q: seq<Entry>, e: Entry, f: Entry)
    ensures f in Rest(q, e) <==> f in q && Behind(e, f)
  {
    if q != [] {
      RestMembers(q[..|q| - 1], e, f);
      assert q == q[..|q| - 1] + [q[|q| - 1]];
    }
  }

  lemma {:induction false} RestOrdered(q: seq<Entry>, e: Entry)
    requires Ordered(q)
    ensures Ordered(Rest(q, e)) && |Rest(q, e)| <= |q|
    ensures e in q ==> |Rest(q, e)| < |q|
  {
    if q != [] {
      var init, last := q[..|q| - 1], q[|q| - 1];
      RestOrdered(init, e);
      assert q == init + [last];
      forall i | 0 <= i < |Rest(init, e)|
        ensures Rest(init, e)[i].stamp < last.stamp && Rest(init, e)[i].tid != last.tid
      {
        RestMembers(init, e, Rest(init, e)[i]);
      }
    }
  }

  /** Skipping the head of the order first changes nothing for what comes after it. */
  lemma {:induction false} RestOfRest(q: seq<Entry>, h: Entry, e: Entry)
    requires Behind(h, e)
    ensures Rest(Rest(q, h), e) == Rest(q, e)
  {
    if q != [] {
      var init, last := q[..|q| - 1], q[|q| - 1];
      RestOfRest(init, h, e);
      var r := Rest(init, h);
      if Behind(h, last) {
        assert (r + [last])[..|r|] == r;
      } else {
        assert r + [] == r;
      }
    }
  }

  lemma {:induction false} LevelMembers(q: seq<Entry>, p: Priority, tid: nat)
    ensures tid in Level(q, p) <==> exists i | 0 <= i < |q| :: q[i].tid == tid && q[i].prio == p
  {
    if q != [] {
      LevelMembers(q[..|q| - 1], p, tid);
    }
  }

  /** The levels after the first entry is popped: its own loses its head, the others stay. */
  lemma {:induction false} LevelsAfterPop(q: seq<Entry>, e: Entry, p: Priority)
    requires Ordered(q) && IsFirst(q, e)
    ensures p != e.prio ==> Level(Rest(q, e), p) == Level(q, p)
    ensures Level(q, e.prio) == [e.tid] + Level(Rest(q, e), e.prio)
    ensures p > e.prio ==> Level(q, p) == []
  {
    LevelsOfRest(q, e, p);
    LevelsOfRest(q, e, e.prio);
    if p > e.prio {
      LevelEmpty(q, p);
    }
  }

  lemma {:induction false} LevelEmpty(q: seq<Entry>, p: Priority)
    requires forall f | f in q :: f.prio != p
    ensures Level(q, p) == []
  {
    if q != [] {
      LevelEmpty(q[..|q| - 1], p);
    }
  }

  /** Each level of a queue in which nothing is ahead of `e`, with and without `e`. */
  lemma {:induction false} LevelsOfRest(q: seq<Entry>, e: Entry, p: Priority)
    requires Ordered(q) && forall f | f in q && f != e :: Behind(e, f)
    ensures Level(q, p) == (if e in q && p == e.prio then [e.tid] else []) + Level(Rest(q, e), p)
  {
    hide Level, Rest;
    if q == [] {
      Empties(e, p);
    } else {
      var init, last := q[..|q| - 1], q[|q| - 1];
      assert q == init + [last];
      LevelsOfRest(init, e, p);
      LevelAppend(init, last, p);
      RestAppend(init, last, e);
      var r := Rest(init, e);
      if last == e {
        assert e !in init;
        if p == e.prio {
          forall f | f in init
            ensures f.prio != p
          {
            assert f.stamp < e.stamp;
          }
          LevelEmpty(init, p);
        }
      } else {
        LevelAppend(r, last, p);
      }
    }
  }

  lemma Empties(e: Entry, p: Priority)
    ensures Level([], p) == [] && Rest([], e) == []
  {
  }

  lemma LevelAppend(q: seq<Entry>, last: Entry, p: Priority)
    ensures Level(q + [last], p) == if last.prio == p then Level(q, p) + [last.tid] else Level(q, p)
  {
    assert (q + [last])[..|q|] == q;
  }

  lemma RestAppend(q: seq<Entry>, last: Entry, e: Entry)
    ensures Rest(q + [last], e) == if Behind(e, last) then Rest(q, e) + [last] else Rest(q, e)
  {
    assert (q + [last])[..|q|] == q;
  }

  lemma OrderedAppend(q: seq<Entry>, e: Entry)
    requires Ordered(q) && !Queued(q, e.tid) && forall f | f in q :: f.stamp < e.stamp
    ensures Ordered(q + [e])
  {
  }

  // ---- Selecting ------------------------------------------------------------

  /** The earliest arrival of the highest priority. */
  function First(q: seq<Entry>): (e: Entry)
    requires Ordered(q) && q != []
    ensures IsFirst(q, e)
  {
    var init, last := q[..|q| - 1], q[|q| - 1];
    assert q == init + [last];
    if init == [] then last
    else
      var f := First(init);
      if last.prio > f.prio then last else f
  }

  datatype Selection = Selection(chosen: Option<Entry>, left: seq<Entry>)

  /** Pop until an entry is ready; entries that are not are thrown away. */
  function Select(q: seq<Entry>, ready: nat -> bool): Selection
    requires Ordered(q)
    decreases |q|
  {
    if q == [] then Selection(None, [])
    else
      RestOrdered(q, First(q));
      if ready(First(q).tid) then Selection(Some(First(q)), Rest(q, First(q)))
      else Select(Rest(q, First(q)), ready)
  }

  /**
   What `select_next` promises, without reference to popping: the chosen entry is
   ready, and ahead of it in priority-then-arrival order nothing is ready; exactly
   the entries ahead of it are thrown away and those behind it are kept in order.
   Nothing is chosen only when nothing queued is ready, and then the queue is
   left empty.
   */
  lemma {:induction false} SelectIsFirstReady(q: seq<Entry>, ready: nat -> bool)
    requires Ordered(q)
    ensures match Select(q, ready).chosen
            case Some(e) =>
              && e in q && ready(e.tid)
              && (forall f | f in q && ready(f.tid) && f != e :: Behind(e, f))
              && Select(q, ready).left == Rest(q, e)
            case None =>
              (forall f | f in q :: !ready(f.tid)) && Select(q, ready).left == []
    decreases |q|
  {
    if q != [] {
      var h := First(q);
      RestOrdered(q, h);
      if !ready(h.tid) {
        SelectIsFirstReady(Rest(q, h), ready);
        forall f
          ensures f in Rest(q, h) <==> f in q && Behind(h, f)
        {
          RestMembers(q, h, f);
        }
        if Select(q, ready).chosen.Some? {
          RestOfRest(q, h, Select(q, ready).chosen.value);
        }
      }
    }
  }

  // ---- Removing -------------------------------------------------------------

  /** `s` without its first occurrence of `x`. */
  function RemoveOne(s: seq<nat>, x: nat): seq<nat> {
    if s == [] then []
    else
      var init, last := s[..|s| - 1], s[|s| - 1];
      if last == x && x !in init then init else RemoveOne(init, x) + [last]
  }

  lemma {:induction false} RemoveAbsent(s: seq<nat>, x: nat)
    requires x !in s
    ensures RemoveOne(s, x) == s
  {
    if s != [] {
      RemoveAbsent(s[..|s| - 1], x);
    }
  }

  lemma RemoveAppend(s: seq<nat>, last: nat, x: nat)
    ensures RemoveOne(s + [last], x) == if last == x && x !in s then s else RemoveOne(s, x) + [last]
  {
    assert (s + [last])[..|s|] == s;
  }

  lemma WithoutAppend(q: seq<Entry>, last: Entry, tid: nat)
    ensures Without(q + [last], tid) == if last.tid == tid then Without(q, tid) else Without(q, tid) + [last]
  {
    assert (q + [last])[..|q|] == q;
  }

  /** Removing a thread from the order removes it from its level and no other. */
  lemma {:induction false} LevelsAfterRemove(q: seq<Entry>, tid: nat, p: Priority)
    requires Ordered(q)
    ensures Level(Without(q, tid), p) == RemoveOne(Level(q, p), tid)
  {
    if q != [] {
      hide Level, Without, RemoveOne;
      var init, last := q[..|q| - 1], q[|q| - 1];
      assert q == init + [last];
      LevelsAfterRemove(init, tid, p);
      LevelAppend(init, last, p);
      WithoutAppend(init, last, tid);
      LevelAppend(Without(init, tid), last, p);
      RemoveAppend(Level(init, p), last.tid, tid);
      if last.tid == tid {
        LevelMembers(init, p, tid);
        RemoveAbsent(Level(init, p), tid);
      }
    }
  }

  lemma {:induction false} WithoutOrdered(q: seq<Entry>, tid: nat)
    requires Ordered(q)
    ensures Ordered(Without(q, tid))
    ensures forall e :: e in Without(q, tid) <==> e in q && e.tid != tid
  {
    if q != [] {
      var init, last := q[..|q| - 1], q[|q| - 1];
      assert q == init + [last];
      WithoutOrdered(init, tid);
      var w := Without(init, tid);
      forall i | 0 <= i < |w|
        ensures w[i].stamp < last.stamp && w[i].tid != last.tid
      {
        assert w[i] in init;
      }
    }
  }
}
