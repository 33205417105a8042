/** The ring buffers, the eight-level ready queue and the fixed-priority scheduler, in place. */
module ReadyQueue {
  import opened Base
  import opened ReadyOrder

  // ---- Rings ----------------------------------------------------------------

  function Ring(head: nat, i: nat): (j: nat)
    ensures j < QUEUE_CAPACITY
  {
    (head + i) % QUEUE_CAPACITY
  }

  lemma RingApart(head: nat, i: nat, j: nat)
    requires i < j < i + QUEUE_CAPACITY
    ensures Ring(head, i) != Ring(head, j)
  {
  }

  lemma RingNext(head: nat, i: nat)
    requires head < QUEUE_CAPACITY
    ensures Ring(Ring(head, 1), i) == Ring(head, i + 1) && Ring(head, 0) == head
  {
  }

  predicate RingOk(slots: seq<Option<nat>>, head: nat, len: nat) {
    && |slots| == QUEUE_CAPACITY && head < QUEUE_CAPACITY && len <= QUEUE_CAPACITY
    && forall i | 0 <= i < len :: slots[Ring(head, i)].Some?
  }

  /** The queued ids, front first. */
  function Ringed(slots: seq<Option<nat>>, head: nat, len: nat): (s: seq<nat>)
    requires RingOk(slots, head, len)
    ensures |s| == len
  {
    seq(len, i requires 0 <= i < len => slots[Ring(head, i)].value)
  }

  lemma Pushed(slots: seq<Option<nat>>, head: nat, len: nat, tid: nat)
    requires RingOk(slots, head, len) && len < QUEUE_CAPACITY
    ensures RingOk(slots[Ring(head, len) := Some(tid)], head, len + 1)
    ensures Ringed(slots[Ring(head, len) := Some(tid)], head, len + 1) == Ringed(slots, head, len) + [tid]
  {
    hide Ring;
    var slots' := slots[Ring(head, len) := Some(tid)];
    forall i | 0 <= i < len
      ensures slots'[Ring(head, i)] == slots[Ring(head, i)]
    {
      RingApart(head, i, len);
    }
  }

  lemma Popped(slots: seq<Option<nat>>, head: nat, len: nat)
    requires RingOk(slots, head, len) && len > 0
    ensures RingOk(slots[head := None], Ring(head, 1), len - 1)
    ensures Ringed(slots[head := None], Ring(head, 1), len - 1) == Ringed(slots, head, len)[1..]
    ensures slots[head] == Some(Ringed(slots, head, len)[0])
  {
    hide Ring;
    RingNext(head, 0);
    var slots' := slots[head := None];
    forall i | 0 <= i < len - 1
      ensures slots'[Ring(Ring(head, 1), i)] == slots[Ring(head, i + 1)]
      ensures slots[Ring(head, i + 1)].Some?
    {
      RingNext(head, i);
      RingApart(head, 0, i + 1);
    }
  }

  lemma RingFromZero(slots: seq<Option<nat>>, out: seq<nat>)
    requires |slots| == QUEUE_CAPACITY && |out| <= QUEUE_CAPACITY
    requires forall j | 0 <= j < |out| :: slots[j] == Some(out[j])
    ensures RingOk(slots, 0, |out|) && Ringed(slots, 0, |out|) == out
  {
  }

  /** Thread ids in arrival order, in a ring of slots. */
  class Fifo {
    const slots: array<Option<nat>>
    var head: nat
    var len: nat

    ghost predicate Valid()
      reads this, slots
    {
      RingOk(slots[..], head, len)
    }

    ghost function Contents(): seq<nat>
      requires Valid()
      reads this, slots
    {
      Ringed(slots[..], head, len)
    }

    constructor ()
      ensures Valid() && Contents() == [] && fresh(slots)
    {
      slots := new Option<nat>[QUEUE_CAPACITY](_ => None);
      head, len := 0, 0;
    }

    method PushBack(tid: nat) returns (ok: bool)
      requires Valid()
      modifies this, slots
      ensures Valid()
      ensures ok <==> |old(Contents())| < QUEUE_CAPACITY
      ensures Contents() == if ok then old(Contents()) + [tid] else old(Contents())
    {
      hide Ring, Ringed, RingOk;
      Shape();
      if len == QUEUE_CAPACITY {
        return false;
      }
      Pushed(slots[..], head, len, tid);
      var tail := Ring(head, len);
      slots[tail] := Some(tid);
      len := len + 1;
      assert slots[..] == old(slots[..])[tail := Some(tid)];
      return true;
    }

    method PopFront() returns (r: Option<nat>)
      requires Valid()
      modifies this, slots
      ensures Valid()
      ensures old(Contents()) == [] ==> r == None && Contents() == []
      ensures old(Contents()) != [] ==> r == Some(old(Contents())[0]) && Contents() == old(Contents())[1..]
    {
      hide Ring, Ringed, RingOk;
      Shape();
      if len == 0 {
        return None;
      }
      Popped(slots[..], head, len);
      r := slots[head];
      slots[head] := None;
      assert slots[..] == old(slots[..])[head := None];
      head, len := Ring(head, 1), len - 1;
    }

    lemma Shape()
      requires Valid()
      ensures slots.Length == QUEUE_CAPACITY && head < QUEUE_CAPACITY && len <= QUEUE_CAPACITY
      ensures |Contents()| == len
      ensures forall i | 0 <= i < len :: slots[Ring(head, i)] == Some(Contents()[i])
    {
    }

    method Contains(tid: nat) returns (found: bool)
      requires Valid()
      ensures found <==> tid in Contents()
    {
      hide Ring, Ringed, RingOk;
      Shape();
      var i: nat := 0;
      while i < len
        invariant 0 <= i <= len
        invariant forall j | 0 <= j < i :: Contents()[j] != tid
      {
        if slots[Ring(head, i)] == Some(tid) {
          assert Contents()[i] == tid;
          return true;
        }
        i := i + 1;
      }
      return false;
    }

    /** Remove a thread, keeping the order of the rest; the ring is rebuilt from slot 0. */
    method Remove(tid: nat) returns (found: bool)
      requires Valid()
      modifies this, slots
      ensures Valid()
      ensures found <==> tid in old(Contents())
      ensures Contents() == RemoveOne(old(Contents()), tid)
    {
      hide Ring, Ringed, RingOk, RemoveOne;
      Shape();
      found := false;
      var kept := new Option<nat>[QUEUE_CAPACITY](_ => None);
      var keptLen: nat := 0;
      ghost var all := Contents();
      ghost var out: seq<nat> := [];
      RemoveAbsent([], tid);
      var i: nat := 0;
      while i < len
        invariant 0 <= i <= len
        invariant slots[..] == old(slots[..]) && head == old(head) && len == old(len)
        invariant found <==> tid in all[..i]
        invariant keptLen <= i
        invariant out == RemoveOne(all[..i], tid) && |out| == keptLen
        invariant forall j | 0 <= j < keptLen :: kept[j] == Some(out[j])
      {
        var slot := slots[Ring(head, i)];
        assert slot == Some(all[i]);
        assert all[..i + 1] == all[..i] + [all[i]];
        RemoveAppend(all[..i], all[i], tid);
        if slot == Some(tid) && !found {
          found := true;
          RemoveAbsent(all[..i], tid);
        } else {
          kept[keptLen] := slot;
          keptLen := keptLen + 1;
          out := out + [all[i]];
        }
        i := i + 1;
      }
      assert all[..len] == all;
      if found {
        Install(kept, keptLen, out);
      } else {
        RemoveAbsent(all, tid);
      }
    }

    /** Takes over a rebuilt slot array, its elements from slot 0 on. */
    method Install(kept: array<Option<nat>>, n: nat, ghost out: seq<nat>)
      requires slots.Length == kept.Length == QUEUE_CAPACITY && n == |out| <= QUEUE_CAPACITY && kept != slots
      requires forall j | 0 <= j < |out| :: kept[j] == Some(out[j])
      modifies this, slots
      ensures Valid() && Contents() == out
    {
      hide Ringed, RingOk;
      forall j | 0 <= j < QUEUE_CAPACITY {
        slots[j] := kept[j];
      }
      head, len := 0, n;
      RingFromZero(slots[..], out);
    }
  }

  // ---- The queue ------------------------------------------------------------

  /** One ring per priority level. `arrivals` is the arrival order the rings stand for. */
  class ReadyQueue {
    const levels: seq<Fifo>
    ghost var arrivals: seq<Entry>
    ghost var clock: nat

    ghost function Repr(): set<object>
      reads this
    {
      {this} + (set p | 0 <= p < |levels| :: levels[p]) + (set p | 0 <= p < |levels| :: levels[p].slots)
    }

    /** The rings share nothing. */
    ghost predicate Separate() {
      && |levels| == PRIORITY_LEVELS
      && (forall p, q | 0 <= p < q < PRIORITY_LEVELS :: levels[p] != levels[q] && levels[p].slots != levels[q].slots)
    }

    ghost predicate Valid()
      reads Repr()
    {
      && Separate()
      && (forall p | 0 <= p < PRIORITY_LEVELS :: levels[p].Valid() && levels[p].Contents() == Level(arrivals, p))
      && Ordered(arrivals)
      && (forall e | e in arrivals :: e.stamp < clock)
    }

    constructor ()
      ensures Valid() && arrivals == [] && fresh(Repr())
    {
      var rings: seq<Fifo> := [];
      while |rings| < PRIORITY_LEVELS
        invariant |rings| <= PRIORITY_LEVELS
        invariant forall p | 0 <= p < |rings| :: fresh(rings[p]) && fresh(rings[p].slots)
        invariant forall p | 0 <= p < |rings| :: rings[p].Valid() && rings[p].Contents() == []
        invariant forall p, q | 0 <= p < q < |rings| :: rings[p] != rings[q] && rings[p].slots != rings[q].slots
        decreases PRIORITY_LEVELS - |rings|
      {
        var ring := new Fifo();
        rings := rings + [ring];
      }
      levels := rings;
      arrivals, clock := [], 0;
    }

    method Contains(tid: nat) returns (found: bool)
      requires Valid()
      ensures found <==> Queued(arrivals, tid)
    {
      var p: nat := 0;
      while p < PRIORITY_LEVELS
        invariant 0 <= p <= PRIORITY_LEVELS
        invariant forall r: Priority | r < p :: tid !in Level(arrivals, r)
      {
        var here := levels[p].Contains(tid);
        if here {
          LevelMembers(arrivals, p, tid);
          return true;
        }
        p := p + 1;
      }
      forall i | 0 <= i < |arrivals|
        ensures arrivals[i].tid != tid
      {
        LevelMembers(arrivals, arrivals[i].prio, tid);
      }
      return false;
    }

    /** Queue a thread at its priority; refused if it is queued anywhere or its ring is full. */
    method Enqueue(tid: nat, prio: Priority) returns (r: Result<(), QueueError>)
      requires Valid()
      modifies Repr()
      ensures Valid()
      ensures r == if Queued(old(arrivals), tid) then Err(AlreadyQueued)
                   else if |Level(old(arrivals), prio)| == QUEUE_CAPACITY then Err(Full)
                   else Ok(())
      ensures arrivals == if r.Ok? then old(arrivals) + [Entry(tid, prio, old(clock))] else old(arrivals)
    {
      hide RingOk, Ringed, Level, Ordered;
      var queued := Contains(tid);
      if queued {
        return Err(AlreadyQueued);
      }
      levels[prio].Shape();
      var ok := levels[prio].PushBack(tid);
      if !ok {
        return Err(Full);
      }
      assert forall p | 0 <= p < PRIORITY_LEVELS && p != prio ::
          levels[p].Valid() && levels[p].Contents() == old(levels[p].Contents());
      ghost var added := Entry(tid, prio, clock);
      OrderedAppend(arrivals, added);
      forall p: Priority
        ensures Level(arrivals + [added], p) == if p == prio then Level(arrivals, p) + [tid] else Level(arrivals, p)
      {
        LevelAppend(arrivals, added, p);
      }
      arrivals, clock := arrivals + [added], clock + 1;
      return Ok(());
    }

    /** Pop the highest non-empty level: the first entry of the arrival order by priority, then age. */
    method PopHighest() returns (r: Option<(nat, Priority)>)
      requires Valid()
      modifies Repr()
      ensures Valid()
      ensures old(arrivals) == [] ==> r == None && arrivals == []
      ensures old(arrivals) != [] ==>
                var e := First(old(arrivals));
                r == Some((e.tid, e.prio)) && arrivals == Rest(old(arrivals), e)
    {
      hide RingOk, Ringed, Level, Rest, Ordered, IsFirst;
      var level: nat := PRIORITY_LEVELS;
      while level > 0
        invariant 0 <= level <= PRIORITY_LEVELS
        invariant Valid() && arrivals == old(arrivals) && clock == old(clock)
        invariant forall p: Priority | p >= level :: Level(arrivals, p) == []
      {
        level := level - 1;
        var tid := levels[level].PopFront();
        if tid.Some? {
          HeadOfLevel(arrivals, level, tid.value);
          ghost var e := First(arrivals);
          forall p: Priority
            ensures Level(Rest(arrivals, e), p) == if p == level then Level(arrivals, p)[1..] else Level(arrivals, p)
          {
            LevelsAfterPop(arrivals, e, p);
          }
          RestOrdered(arrivals, e);
          forall f
            ensures f in Rest(arrivals, e) ==> f in arrivals
          {
            RestMembers(arrivals, e, f);
          }
          arrivals := Rest(arrivals, e);
          return Some((tid.value, level));
        }
      }
      AllLevelsEmpty(arrivals);
      return None;
    }

    /** Take a thread out of whichever level holds it. */
    method Remove(tid: nat) returns (found: bool)
      requires Valid()
      modifies Repr()
      ensures Valid()
      ensures found <==> Queued(old(arrivals), tid)
      ensures arrivals == Without(old(arrivals), tid)
    {
      hide RingOk, Ringed, Level, Without, RemoveOne, Ordered;
      WithoutOrdered(arrivals, tid);
      forall q: Priority
        ensures Level(Without(arrivals, tid), q) == RemoveOne(Level(arrivals, q), tid)
      {
        LevelsAfterRemove(arrivals, tid, q);
      }
      var p: nat := 0;
      while p < PRIORITY_LEVELS
        invariant 0 <= p <= PRIORITY_LEVELS
        invariant Valid() && arrivals == old(arrivals) && clock == old(clock)
        invariant forall q: Priority | q < p :: tid !in Level(arrivals, q)
      {
        found := levels[p].Remove(tid);
        if found {
          OnlyLevel(arrivals, tid, p);
          arrivals := Without(arrivals, tid);
          return true;
        }
        RemoveAbsent(Level(arrivals, p), tid);
        p := p + 1;
      }
      NowhereQueued(arrivals, tid);
      return false;
    }
  }

  /** The head of the highest non-empty level is the first of the order. */
  lemma HeadOfLevel(q: seq<Entry>, level: Priority, tid: nat)
    requires Ordered(q) && Level(q, level) != [] && Level(q, level)[0] == tid
    requires forall p: Priority | p > level :: Level(q, p) == []
    ensures q != [] && First(q).tid == tid && First(q).prio == level
  {
    hide Level;
    LevelMembers(q, level, tid);
    var e := First(q);
    LevelsAfterPop(q, e, level);
    LevelsAfterPop(q, e, e.prio);
  }

  lemma AllLevelsEmpty(q: seq<Entry>)
    requires forall p: Priority :: Level(q, p) == []
    ensures q == []
  {
    if q != [] {
      LevelMembers(q, q[0].prio, q[0].tid);
    }
  }

  /** A queued thread is in one level only, and the other levels do not change when it goes. */
  lemma OnlyLevel(q: seq<Entry>, tid: nat, p: Priority)
    requires Ordered(q) && tid in Level(q, p)
    ensures Queued(q, tid)
    ensures forall r: Priority | r != p :: RemoveOne(Level(q, r), tid) == Level(q, r)
  {
    hide Level, RemoveOne;
    LevelMembers(q, p, tid);
    forall r: Priority | r != p
      ensures RemoveOne(Level(q, r), tid) == Level(q, r)
    {
      LevelMembers(q, r, tid);
      RemoveAbsent(Level(q, r), tid);
    }
  }

  lemma {:induction false} NowhereQueued(q: seq<Entry>, tid: nat)
    requires forall p: Priority :: tid !in Level(q, p)
    ensures !Queued(q, tid) && Without(q, tid) == q
  {
    forall i | 0 <= i < |q|
      ensures q[i].tid != tid
    {
      LevelMembers(q, q[i].prio, tid);
    }
    WithoutAbsent(q, tid);
  }

  lemma {:induction false} WithoutAbsent(q: seq<Entry>, tid: nat)
    requires forall i | 0 <= i < |q| :: q[i].tid != tid
    ensures Without(q, tid) == q
  {
    if q != [] {
      WithoutAbsent(q[..|q| - 1], tid);
    }
  }

  /** Fixed-priority scheduler over the ready queue. */
  class FixedPriorityScheduler {
    const ready: ReadyQueue

    constructor (queue: ReadyQueue)
      ensures ready == queue
    {
      ready := queue;
    }

    method MarkReady(tid: nat, prio: Priority) returns (r: Result<(), QueueError>)
      requires ready.Valid()
      modifies ready.Repr()
      ensures ready.Valid()
      ensures r == if Queued(old(ready.arrivals), tid) then Err(AlreadyQueued)
                   else if |Level(old(ready.arrivals), prio)| == QUEUE_CAPACITY then Err(Full)
                   else Ok(())
      ensures ready.arrivals ==
              if r.Ok? then old(ready.arrivals) + [Entry(tid, prio, old(ready.clock))] else old(ready.arrivals)
    {
      r := ready.Enqueue(tid, prio);
    }

    method MarkNotReady(tid: nat) returns (found: bool)
      requires ready.Valid()
      modifies ready.Repr()
      ensures ready.Valid()
      ensures found <==> Queued(old(ready.arrivals), tid)
      ensures ready.arrivals == Without(old(ready.arrivals), tid)
    {
      found := ready.Remove(tid);
    }

    /** The first ready thread by priority, then age; stale entries ahead of it are discarded. */
    method SelectNext(isReady: nat -> bool) returns (r: Option<(nat, Priority)>)
      requires ready.Valid()
      modifies ready.Repr()
      ensures ready.Valid()
      ensures ready.arrivals == Select(old(ready.arrivals), isReady).left
      ensures match Select(old(ready.arrivals), isReady).chosen
              case Some(e) => r == Some((e.tid, e.prio))
              case None => r == None
    {
      hide Rest, First, Level;
      while true
        invariant ready.Valid()
        invariant Select(old(ready.arrivals), isReady) == Select(ready.arrivals, isReady)
        decreases |ready.arrivals|
      {
        ghost var before := ready.arrivals;
        var popped := ready.PopHighest();
        if popped.None? {
          return None;
        }
        RestOrdered(before, First(before));
        if isReady(popped.value.0) {
          return popped;
        }
      }
    }
  }
}
