/**
 Every run of allocate, map, unmap, free and quarantine over a pool of frames
 and many address spaces.
 */
module MemoryRuns {
  import opened Base
  import opened Sv39
  import opened Memory

  datatype System = System(frames: seq<Frame>, tables: seq<PageTable>)

  /** Frames and tables are named by index; an index outside the pool names nothing. */
  datatype Op =
    | AllocateOp(f: nat, owner: FrameOwner)
    | MapOp(t: nat, vpage: nat, f: nat, perms: Permissions)
    | UnmapOp(t: nat, vpage: nat, f: nat)
    | FreeOp(f: nat)
    | QuarantineOp(f: nat)

  function WithFrame(s: System, f: nat, frame: Frame): System
    requires f < |s.frames|
  {
    s.(frames := s.frames[f := frame])
  }

  function WithOutcome(s: System, t: nat, f: nat, m: MapOutcome): System
    requires t < |s.tables| && f < |s.frames|
  {
    System(s.frames[f := m.frame], s.tables[t := m.table])
  }

  function Step(s: System, op: Op): System {
    if op.f >= |s.frames| then s
    else match op
      case AllocateOp(f, owner) => WithFrame(s, f, Allocate(s.frames[f], owner).0)
      case FreeOp(f) => WithFrame(s, f, Release(s.frames[f]).0)
      case QuarantineOp(f) => WithFrame(s, f, Quarantine(s.frames[f]).0)
      case MapOp(t, vpage, f, p) =>
        if t >= |s.tables| then s else WithOutcome(s, t, f, Map(s.tables[t], vpage, s.frames[f], p))
      case UnmapOp(t, vpage, f) =>
        if t >= |s.tables| then s else WithOutcome(s, t, f, Unmap(s.tables[t], vpage, s.frames[f]))
  }

  function Run(s: System, ops: seq<Op>): System
    decreases |ops|
  {
    if ops == [] then s else Run(Step(s, ops[0]), ops[1..])
  }

  /** Slot `i` of table `t` holds the mapping `m`. */
  predicate Holds(s: System, t: nat, i: nat, m: Mapping) {
    t < |s.tables| && i < |s.tables[t].entries| && s.tables[t].entries[i] == Some(m)
  }

  /** What a mapping may be. */
  predicate Lawful(m: Mapping) {
    && PageAligned(m.vpage) && PageAligned(m.frame)
    && (m.perms.user ==> InUserWindow(m.vpage) && !InKernelRam(m.frame) && !(m.perms.write && m.perms.execute)
                         && !m.perms.device)
    && (!m.perms.user ==> !InUserWindow(m.vpage))
    && !(m.perms.device && m.perms.execute)
  }

  function OwnerFor(owner: nat, m: Mapping): FrameOwner {
    if m.perms.user then AddressSpace(owner) else KernelOwned
  }

  ghost predicate DistinctFrames(s: System) {
    forall f, g | 0 <= f < g < |s.frames| :: s.frames[f].base != s.frames[g].base
  }

  /** Some frame of the pool backs the mapping and belongs to whoever mapped it. */
  ghost predicate Backed(s: System, t: nat, m: Mapping)
    requires t < |s.tables|
  {
    exists f: nat | f < |s.frames| :: s.frames[f].base == m.frame
      && (s.frames[f].state == Mapped || s.frames[f].state == Quarantined)
      && s.frames[f].owner == OwnerFor(s.tables[t].owner, m)
  }

  ghost predicate MappedSomewhere(s: System, f: nat)
    requires f < |s.frames|
  {
    exists t: nat, i: nat, m: Mapping :: Holds(s, t, i, m) && m.frame == s.frames[f].base
  }

  ghost predicate Inv(s: System) {
    && DistinctFrames(s)
    && (forall t: nat, i: nat, m: Mapping :: Holds(s, t, i, m) ==> Lawful(m) && Backed(s, t, m))
    && (forall t: nat, i: nat, m: Mapping, u: nat, j: nat, n: Mapping ::
          Holds(s, t, i, m) && Holds(s, u, j, n) && m.frame == n.frame ==> t == u && i == j)
    && (forall t: nat, i: nat, m: Mapping, j: nat, n: Mapping ::
          Holds(s, t, i, m) && Holds(s, t, j, n) && m.vpage == n.vpage ==> i == j)
    && (forall f: nat | f < |s.frames| :: s.frames[f].state == Mapped ==> MappedSomewhere(s, f))
    && (forall f: nat | f < |s.frames| :: (s.frames[f].owner == FreePool <==> s.frames[f].state == Free))
  }

  /** A pool of free frames with distinct bases and empty tables. */
  ghost predicate Initial(s: System) {
    && DistinctFrames(s)
    && (forall f | 0 <= f < |s.frames| :: s.frames[f].state == Free && s.frames[f].owner == FreePool)
    && (forall t | 0 <= t < |s.tables| :: s.tables[t] == NewTable(s.tables[t].owner))
  }

  /** Changing the state of a frame that keeps its mapping, or has none, keeps the invariant. */
  lemma FrameStepKeepsInv(s: System, f: nat, frame: Frame)
    requires Inv(s) && f < |s.frames| && frame.base == s.frames[f].base
    requires frame.owner == FreePool <==> frame.state == Free
    requires frame == s.frames[f]
             || (s.frames[f].state in {Free, Allocated} && frame.state != Mapped)
             || (s.frames[f].state == Mapped && frame.state == Quarantined && frame.owner == s.frames[f].owner)
    ensures Inv(WithFrame(s, f, frame))
  {
    var s' := WithFrame(s, f, frame);
    forall t: nat, i: nat, m: Mapping | Holds(s', t, i, m)
      ensures Lawful(m) && Backed(s', t, m)
    {
      assert Holds(s, t, i, m);
      var g: nat :| g < |s.frames| && s.frames[g].base == m.frame
        && (s.frames[g].state == Mapped || s.frames[g].state == Quarantined)
        && s.frames[g].owner == OwnerFor(s.tables[t].owner, m);
      assert s'.frames[g].base == m.frame;
    }
    assert forall t: nat, i: nat, m: Mapping :: Holds(s', t, i, m) <==> Holds(s, t, i, m);
    forall g: nat | g < |s'.frames| && s'.frames[g].state == Mapped
      ensures MappedSomewhere(s', g)
    {
      assert MappedSomewhere(s, g);
    }
  }

  lemma MapKeepsInv(s: System, t: nat, vpage: nat, f: nat, p: Permissions)
    requires Inv(s) && t < |s.tables| && f < |s.frames|
    ensures Inv(WithOutcome(s, t, f, Map(s.tables[t], vpage, s.frames[f], p)))
  {
    var m := Map(s.tables[t], vpage, s.frames[f], p);
    var s' := WithOutcome(s, t, f, m);
    if m.result.Err? {
      assert s' == s;
    } else {
      var slot := EmptySlot(s.tables[t].entries);
      var added := Mapping(vpage, s.frames[f].base, p);
      NewMapping(s, t, vpage, f, p);
      forall u: nat, j: nat, n: Mapping | Holds(s', u, j, n)
        ensures Lawful(n) && Backed(s', u, n)
      {
        if u == t && j == slot {
          assert s'.frames[f].base == n.frame;
        } else {
          assert Holds(s, u, j, n);
          var g: nat :| g < |s.frames| && s.frames[g].base == n.frame
            && (s.frames[g].state == Mapped || s.frames[g].state == Quarantined)
            && s.frames[g].owner == OwnerFor(s.tables[u].owner, n);
          assert s'.frames[g] == s.frames[g];
        }
      }
      forall g: nat | g < |s'.frames| && s'.frames[g].state == Mapped
        ensures MappedSomewhere(s', g)
      {
        if g == f {
          assert Holds(s', t, slot, added);
        } else {
          assert MappedSomewhere(s, g);
          var u: nat, j: nat, n: Mapping :| Holds(s, u, j, n) && n.frame == s.frames[g].base;
          assert Holds(s', u, j, n);
        }
      }
    }
  }

  /** An accepted mapping is the only one of its frame and of its page, and it is lawful. */
  lemma NewMapping(s: System, t: nat, vpage: nat, f: nat, p: Permissions)
    requires Inv(s) && t < |s.tables| && f < |s.frames|
    requires Map(s.tables[t], vpage, s.frames[f], p).result.Ok?
    ensures var s' := WithOutcome(s, t, f, Map(s.tables[t], vpage, s.frames[f], p));
            var slot := EmptySlot(s.tables[t].entries);
            var added := Mapping(vpage, s.frames[f].base, p);
            && Holds(s', t, slot, added) && Lawful(added)
            && s'.frames[f].owner == OwnerFor(s.tables[t].owner, added)
            && (forall u: nat, j: nat, n: Mapping :: Holds(s', u, j, n) ==>
                  if u == t && j == slot then n == added
                  else Holds(s, u, j, n) && n.frame != added.frame && !(u == t && n.vpage == vpage))
            && (forall u: nat, j: nat, n: Mapping :: Holds(s, u, j, n) ==> Holds(s', u, j, n))
  {
    var s' := WithOutcome(s, t, f, Map(s.tables[t], vpage, s.frames[f], p));
    var slot := EmptySlot(s.tables[t].entries);
    forall u: nat, j: nat, n: Mapping | Holds(s', u, j, n) && !(u == t && j == slot)
      ensures Holds(s, u, j, n) && n.frame != s.frames[f].base && !(u == t && n.vpage == vpage)
    {
      assert Holds(s, u, j, n);
      assert Backed(s, u, n);
      assert Covers(s.tables[u].entries[j], n.vpage);
    }
  }

  lemma UnmapKeepsInv(s: System, t: nat, vpage: nat, f: nat)
    requires Inv(s) && t < |s.tables| && f < |s.frames|
    ensures Inv(WithOutcome(s, t, f, Unmap(s.tables[t], vpage, s.frames[f])))
  {
    var m := Unmap(s.tables[t], vpage, s.frames[f]);
    var s' := WithOutcome(s, t, f, m);
    if m.result.Err? {
      assert s' == s;
    } else {
      var slot := SlotOf(s.tables[t].entries, vpage);
      var removed := s.tables[t].entries[slot].value;
      assert Holds(s, t, slot, removed);
      forall u: nat, j: nat, n: Mapping | Holds(s', u, j, n)
        ensures Holds(s, u, j, n) && n.frame != s.frames[f].base
        ensures Backed(s', u, n)
      {
        assert Holds(s, u, j, n);
        var g: nat :| g < |s.frames| && s.frames[g].base == n.frame
          && (s.frames[g].state == Mapped || s.frames[g].state == Quarantined)
          && s.frames[g].owner == OwnerFor(s.tables[u].owner, n);
        assert s'.frames[g] == s.frames[g];
      }
      forall g: nat | g < |s'.frames| && s'.frames[g].state == Mapped
        ensures MappedSomewhere(s', g)
      {
        assert MappedSomewhere(s, g);
        var u: nat, j: nat, n: Mapping :| Holds(s, u, j, n) && n.frame == s.frames[g].base;
        assert !(u == t && j == slot);
        assert Holds(s', u, j, n);
      }
    }
  }

  lemma StepKeepsInv(s: System, op: Op)
    requires Inv(s)
    ensures Inv(Step(s, op))
  {
    if op.f < |s.frames| {
      match op
      case AllocateOp(f, owner) => FrameStepKeepsInv(s, f, Allocate(s.frames[f], owner).0);
      case FreeOp(f) => FrameStepKeepsInv(s, f, Release(s.frames[f]).0);
      case QuarantineOp(f) => FrameStepKeepsInv(s, f, Quarantine(s.frames[f]).0);
      case MapOp(t, vpage, f, p) => if t < |s.tables| { MapKeepsInv(s, t, vpage, f, p); }
      case UnmapOp(t, vpage, f) => if t < |s.tables| { UnmapKeepsInv(s, t, vpage, f); }
    }
  }

  lemma {:induction false} RunKeepsInv(s: System, ops: seq<Op>)
    requires Inv(s)
    ensures Inv(Run(s, ops))
    decreases |ops|
  {
    if ops != [] {
      StepKeepsInv(s, ops[0]);
      RunKeepsInv(Step(s, ops[0]), ops[1..]);
    }
  }

  /**
   The memory guarantee, for every run from an empty system: a frame is in at
   most one mapping over all address spaces; that mapping's address space, or
   the kernel for a kernel mapping, owns it; frames that are free or merely
   allocated are mapped nowhere; a frame is in state Mapped only while a mapping
   exists; and every user mapping is W^X, in the user window and outside kernel RAM.
   */
  lemma MemoryGuarantee(s: System, ops: seq<Op>)
    requires Initial(s)
    ensures var e := Run(s, ops);
            && (forall t: nat, i: nat, m: Mapping, u: nat, j: nat, n: Mapping ::
                  Holds(e, t, i, m) && Holds(e, u, j, n) && m.frame == n.frame ==> t == u && i == j)
            && (forall t: nat, i: nat, m: Mapping, f: nat :: Holds(e, t, i, m) && f < |e.frames| && e.frames[f].base == m.frame ==>
                  e.frames[f].state in {Mapped, Quarantined} && e.frames[f].owner == OwnerFor(e.tables[t].owner, m))
            && (forall f: nat | f < |e.frames| :: e.frames[f].state in {Free, Allocated} ==> !MappedSomewhere(e, f))
            && (forall f: nat | f < |e.frames| :: e.frames[f].state == Mapped ==> MappedSomewhere(e, f))
            && (forall t: nat, i: nat, m: Mapping :: Holds(e, t, i, m) && m.perms.user ==>
                  InUserWindow(m.vpage) && !InKernelRam(m.frame) && !(m.perms.write && m.perms.execute))
  {
    assert Inv(s);
    RunKeepsInv(s, ops);
    var e := Run(s, ops);
    forall t: nat, i: nat, m: Mapping, f: nat | Holds(e, t, i, m) && f < |e.frames| && e.frames[f].base == m.frame
      ensures e.frames[f].state in {Mapped, Quarantined} && e.frames[f].owner == OwnerFor(e.tables[t].owner, m)
    {
      assert Backed(e, t, m);
    }
  }
}
