/**
 What each memory operation answers and leaves behind, with the windows and rules
 written out, the round trips between operations, and where over a whole run a
 frame's owner comes from.
 */
module MemoryOutcomes {
  import opened Base
  import opened Sv39
  import opened Memory
  import opened MemoryRuns

  // ---- Frames ---------------------------------------------------------------

  /** A free frame, and only a free one, goes to the owner that asks; the pool cannot ask. */
  lemma AllocateOutcome(f: Frame, owner: FrameOwner)
    ensures Allocate(f, owner) ==
            if owner != FreePool && f.state == Free then (Frame(f.base, Allocated, owner), Ok(()))
            else (f, Err(if owner == FreePool then InvalidOwner else if f.state == Quarantined then InQuarantine else NotFree))
  {
  }

  /**
   The life of a frame that is neither quarantined nor free: it is mapped from
   Allocated and unmapped from Mapped, keeping its owner, and goes back to the pool
   only from Allocated. A quarantined frame refuses everything, and a free one
   everything but an allocation.
   */
  lemma FrameOutcomes(f: Frame)
    ensures MarkMapped(f) == if f.state == Allocated then (Frame(f.base, Mapped, f.owner), Ok(()))
                             else (f, Err(if f.state == Quarantined then InQuarantine else NotAllocated))
    ensures MarkUnmapped(f) == if f.state == Mapped then (Frame(f.base, Allocated, f.owner), Ok(()))
                               else (f, Err(if f.state == Quarantined then InQuarantine else NotMappedFrame))
    ensures Release(f) == if f.state == Allocated then (Frame(f.base, Free, FreePool), Ok(()))
                          else (f, Err(if f.state == Quarantined then InQuarantine
                                       else if f.state == Mapped then StillMapped else NotAllocated))
    ensures Quarantine(f) == if f.state in {Allocated, Mapped} then (Frame(f.base, Quarantined, f.owner), Ok(()))
                             else (f, Err(if f.state == Quarantined then InQuarantine else NotAllocated))
  {
  }

  // ---- Mapping --------------------------------------------------------------

  /** The page is mapped by some slot. */
  predicate PageTaken(t: PageTable, page: nat) {
    exists i | 0 <= i < |t.entries| :: t.entries[i].Some? && t.entries[i].value.vpage == page
  }

  predicate HasRoom(t: PageTable) { exists i | 0 <= i < |t.entries| :: t.entries[i].None? }

  predicate WhereItMay(vpage: nat, base: nat, user: bool) {
    if user then 0x1000 <= vpage < 0x4000_0000 && !(0x8020_0000 <= base < 0x8800_0000)
    else !(0x1000 <= vpage < 0x4000_0000)
  }

  predicate HowItMay(p: Permissions) {
    (p.read || p.write || p.execute) && !(p.device && p.execute) && (p.user ==> !(p.write && p.execute) && !p.device)
  }

  /** A mapping is allowed: aligned, lawful access, in its window, the frame its own and only allocated, page and slot free. */
  predicate MapAllowed(t: PageTable, vpage: nat, f: Frame, p: Permissions) {
    && vpage % 4096 == 0 && f.base % 4096 == 0
    && HowItMay(p) && WhereItMay(vpage, f.base, p.user)
    && f.owner == (if p.user then AddressSpace(t.owner) else KernelOwned)
    && f.state == Allocated
    && !PageTaken(t, vpage) && HasRoom(t)
  }

  lemma TakenMeans(t: PageTable, page: nat)
    requires page % 4096 == 0
    ensures PageTaken(t, page) <==> Lookup(t, page).Some?
    ensures HasRoom(t) <==> EmptySlot(t.entries) < |t.entries|
  {
    var i := SlotOf(t.entries, page);
    if i < |t.entries| {
      assert Covers(t.entries[i], page);
    }
    if PageTaken(t, page) {
      var j :| 0 <= j < |t.entries| && t.entries[j].Some? && t.entries[j].value.vpage == page;
      assert Covers(t.entries[j], page);
    }
  }

  /** Mapping succeeds exactly if it is allowed. */
  lemma MapAcceptedIff(t: PageTable, vpage: nat, f: Frame, p: Permissions)
    ensures Map(t, vpage, f, p).result.Ok? <==> MapAllowed(t, vpage, f, p)
  {
    hide Lookup, PageTaken, HasRoom;
    if vpage % 4096 == 0 {
      TakenMeans(t, vpage);
    }
  }

  /** Why a mapping is refused: the first rule it breaks; and then nothing changes. */
  lemma MapRefusals(t: PageTable, vpage: nat, f: Frame, p: Permissions)
    requires !MapAllowed(t, vpage, f, p)
    ensures Map(t, vpage, f, p) == MapOutcome(t, f, Err(
              if vpage % 4096 != 0 || f.base % 4096 != 0 then PtError.Misaligned
              else if !HowItMay(p) then
                if !p.read && !p.write && !p.execute then InvalidPermissions
                else if p.user && p.write && p.execute then WxViolation else DeviceRuleViolation
              else if !WhereItMay(vpage, f.base, p.user) then
                if p.user && 0x8020_0000 <= f.base < 0x8800_0000 then KernelFrameUserMapped else RangeViolation
              else if f.owner != (if p.user then AddressSpace(t.owner) else KernelOwned) then NotOwner
              else if f.state != Allocated then FrameNotMappable
              else if PageTaken(t, vpage) then AlreadyMapped
              else TableFull))
  {
    hide Lookup, PageTaken, HasRoom;
    if vpage % 4096 == 0 {
      TakenMeans(t, vpage);
    }
  }

  lemma LookupFinds(t: PageTable, v: nat, i: nat)
    requires i < |t.entries| && Covers(t.entries[i], v) && (forall j | 0 <= j < |t.entries| && j != i :: !Covers(t.entries[j], v))
    ensures Lookup(t, v) == t.entries[i]
  {
    SlotUnique(t.entries, v, i);
  }

  /** Two tables that differ only in a slot that covers no part of the page of `v` answer alike there. */
  lemma LookupElsewhere(t: PageTable, t': PageTable, v: nat, i: nat)
    requires i < |t.entries| == |t'.entries| && !Covers(t.entries[i], v) && !Covers(t'.entries[i], v)
    requires forall j | 0 <= j < |t.entries| && j != i :: t'.entries[j] == t.entries[j]
    ensures Lookup(t', v) == Lookup(t, v)
  {
    var n := SlotOf(t.entries, v);
    SlotUnique(t'.entries, v, n);
  }

  /** An accepted mapping marks the frame, keeping its owner, and changes the answer for its page and no other. */
  lemma MapEffect(t: PageTable, vpage: nat, f: Frame, p: Permissions, v: nat)
    requires MapAllowed(t, vpage, f, p)
    ensures var m := Map(t, vpage, f, p);
            && m.result.Ok? && m.frame == Frame(f.base, Mapped, f.owner)
            && m.table.owner == t.owner && |m.table.entries| == |t.entries|
            && Lookup(m.table, v) == if v - v % 4096 == vpage then Some(Mapping(vpage, f.base, p)) else Lookup(t, v)
  {
    hide Lookup, SlotOf;
    MapAcceptedIff(t, vpage, f, p);
    var t', i := Map(t, vpage, f, p).table, EmptySlot(t.entries);
    if v - v % 4096 == vpage {
      LookupFinds(t', v, i);
    } else {
      LookupElsewhere(t, t', v, i);
    }
  }

  // ---- Unmapping ------------------------------------------------------------

  /** Unmapping succeeds exactly if the page is mapped, to this frame, and the frame is Mapped; else nothing changes. */
  lemma UnmapAcceptedIff(t: PageTable, vpage: nat, f: Frame)
    ensures var found, m := Lookup(t, vpage), Unmap(t, vpage, f);
            && (m.result.Ok? <==> found.Some? && found.value.frame == f.base && f.state == Mapped)
            && (m.result == Err(NotMapped) <==> found.None? || found.value.frame != f.base)
            && (m.result == Err(FrameNotMappable) <==> found.Some? && found.value.frame == f.base && f.state != Mapped)
            && (m.result.Err? ==> m.table == t && m.frame == f)
  {
  }

  /** No two slots map the same page, as holds in every run. */
  predicate PagesDistinct(t: PageTable) {
    forall i, j | 0 <= i < j < |t.entries| ::
      t.entries[i].Some? && t.entries[j].Some? ==> t.entries[i].value.vpage != t.entries[j].value.vpage
  }

  /** An accepted unmapping leaves the frame with its owner, only Allocated, and the page and no other unmapped. */
  lemma UnmapEffect(t: PageTable, vpage: nat, f: Frame, v: nat)
    requires PagesDistinct(t) && Unmap(t, vpage, f).result.Ok?
    ensures var m := Unmap(t, vpage, f);
            && m.frame == Frame(f.base, Allocated, f.owner)
            && m.table.owner == t.owner && |m.table.entries| == |t.entries|
            && Lookup(m.table, v) == if v - v % 4096 == vpage - vpage % 4096 then None else Lookup(t, v)
  {
    var t', i := Unmap(t, vpage, f).table, SlotOf(t.entries, vpage);
    if v - v % 4096 == vpage - vpage % 4096 {
      assert forall j | 0 <= j < |t'.entries| :: !Covers(t'.entries[j], v);
    } else {
      LookupElsewhere(t, t', v, i);
    }
  }

  /** Unmapping undoes mapping: table and frame are exactly as before. */
  lemma MapThenUnmap(t: PageTable, vpage: nat, f: Frame, p: Permissions)
    requires MapAllowed(t, vpage, f, p)
    ensures var m := Map(t, vpage, f, p);
            Unmap(m.table, vpage, m.frame) == MapOutcome(t, f, Ok(()))
  {
    hide SlotOf;
    MapAcceptedIff(t, vpage, f, p);
    var m, i := Map(t, vpage, f, p), EmptySlot(t.entries);
    SlotUnique(m.table.entries, vpage, i);
    assert m.table.entries[i := None] == t.entries;
    OkIsUnit(Unmap(m.table, vpage, m.frame).result);
  }

  /** The whole round: a frame allocated, mapped, unmapped and freed is the free frame it was. */
  lemma WholeRound(t: PageTable, vpage: nat, f: Frame, p: Permissions)
    requires f.state == Free && f.owner == FreePool
    requires MapAllowed(t, vpage, Allocate(f, if p.user then AddressSpace(t.owner) else KernelOwned).0, p)
    ensures var a := Allocate(f, if p.user then AddressSpace(t.owner) else KernelOwned).0;
            var m := Map(t, vpage, a, p);
            var u := Unmap(m.table, vpage, m.frame);
            Release(m.frame).1 == Err(StillMapped) && u.table == t && Release(u.frame) == (f, Ok(()))
  {
    hide MapAllowed, Unmap;
    var a := Allocate(f, if p.user then AddressSpace(t.owner) else KernelOwned).0;
    MapThenUnmap(t, vpage, a, p);
    MapEffect(t, vpage, a, p, 0);
    OkIsUnit(Release(a).1);
  }

  // ---- Over a run -----------------------------------------------------------

  /** The one thing a step does to the owner of a frame: an allocation gives a free frame one, a free takes it back. */
  lemma OwnerStep(s: System, op: Op, f: nat)
    requires Inv(s) && f < |s.frames|
    ensures |Step(s, op).frames| == |s.frames| && Step(s, op).frames[f].base == s.frames[f].base
    ensures Step(s, op).frames[f].owner ==
            if op.AllocateOp? && op.f == f && s.frames[f].state == Free then op.owner
            else if op.FreeOp? && op.f == f && s.frames[f].state == Allocated then FreePool
            else s.frames[f].owner
  {
  }

  lemma {:induction false} RunSnoc(s: System, ops: seq<Op>, op: Op)
    ensures Run(s, ops + [op]) == Step(Run(s, ops), op)
    decreases |ops|
  {
    hide Step;
    if ops == [] {
      assert ops + [op] == [op];
      assert Run(Step(s, op), []) == Step(s, op);
    } else {
      assert (ops + [op])[0] == ops[0] && (ops + [op])[1..] == ops[1..] + [op];
      RunSnoc(Step(s, ops[0]), ops[1..], op);
    }
  }

  /** At every moment from after step `n` on, the frame belongs to `owner`. */
  ghost predicate KeptSince(s: System, ops: seq<Op>, n: nat, f: nat, owner: FrameOwner) {
    forall i | n < i <= |ops| :: f < |Run(s, ops[..i]).frames| && Run(s, ops[..i]).frames[f].owner == owner
  }

  /**
   Where an owner comes from: whoever owns a frame after a run got it by an
   allocation in that run, made in that name while the frame was free, and has had
   it ever since.
   */
  lemma {:induction false} OwnerWasAllocated(s: System, ops: seq<Op>, f: nat) returns (n: nat)
    requires Initial(s) && f < |s.frames|
    ensures |Run(s, ops).frames| == |s.frames|
    ensures Run(s, ops).frames[f].owner != FreePool ==>
              && n < |ops| && ops[n] == AllocateOp(f, Run(s, ops).frames[f].owner)
              && f < |Run(s, ops[..n]).frames| && Run(s, ops[..n]).frames[f].state == Free
              && KeptSince(s, ops, n, f, Run(s, ops).frames[f].owner)
    decreases |ops|
  {
    hide Step;
    n := 0;
    if ops != [] {
      var before, op := ops[..|ops| - 1], ops[|ops| - 1];
      assert ops == before + [op];
      assert Inv(s);
      RunKeepsInv(s, before);
      RunSnoc(s, before, op);
      var m := OwnerWasAllocated(s, before, f);
      OwnerStep(Run(s, before), op, f);
      var owner := Run(s, ops).frames[f].owner;
      if owner != FreePool {
        if op.AllocateOp? && op.f == f && Run(s, before).frames[f].state == Free {
          n := |ops| - 1;
        } else {
          n := m;
          assert ops[..n] == before[..n];
        }
        LastKept(s, before, op, n, f, owner);
      }
    }
  }

  lemma LastKept(s: System, before: seq<Op>, op: Op, n: nat, f: nat, owner: FrameOwner)
    requires f < |Run(s, before + [op]).frames| && Run(s, before + [op]).frames[f].owner == owner
    requires n <= |before| && (n == |before| || KeptSince(s, before, n, f, owner))
    ensures KeptSince(s, before + [op], n, f, owner)
  {
    hide Run;
    var ops := before + [op];
    forall i | n < i <= |ops|
      ensures f < |Run(s, ops[..i]).frames| && Run(s, ops[..i]).frames[f].owner == owner
    {
      if i == |ops| {
        assert ops[..i] == ops;
      } else {
        assert ops[..i] == before[..i];
      }
    }
  }

  /** A quarantined frame stays as it is, whatever is tried. */
  lemma {:induction false} QuarantineIsFinal(s: System, ops: seq<Op>, f: nat)
    requires f < |s.frames| && s.frames[f].state == Quarantined
    ensures f < |Run(s, ops).frames| && Run(s, ops).frames[f] == s.frames[f]
    decreases |ops|
  {
    hide Step;
    if ops != [] {
      QuarantinedStays(s, ops[0], f);
      QuarantineIsFinal(Step(s, ops[0]), ops[1..], f);
    }
  }

  lemma QuarantinedStays(s: System, op: Op, f: nat)
    requires f < |s.frames| && s.frames[f].state == Quarantined
    ensures f < |Step(s, op).frames| && Step(s, op).frames[f] == s.frames[f]
  {
  }
}
