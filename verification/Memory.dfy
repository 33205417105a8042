/**
 The simple memory model: physical frames with one owner and a lifecycle, and
 per-address-space page tables of at most 64 mappings. This is the
 specification the hardware tables have to refine.
 */
module Memory {
  import opened Base
  import opened Sv39

  const MAX_MAPPINGS: nat := 64
  const KERNEL_RANGE_START: nat := 0x8020_0000
  const KERNEL_RANGE_END: nat := 0x8800_0000
  const USER_RANGE_START: nat := 0x1000
  const USER_RANGE_END: nat := 0x4000_0000

  predicate InUserWindow(v: nat) { USER_RANGE_START <= v < USER_RANGE_END }
  predicate InKernelRam(pa: nat) { KERNEL_RANGE_START <= pa < KERNEL_RANGE_END }

  // ---- Frames ---------------------------------------------------------------

  datatype FrameOwner = FreePool | KernelOwned | AddressSpace(id: nat)
  datatype FrameState = Free | Allocated | Mapped | Quarantined
  datatype FrameError = NotFree | NotAllocated | NotMappedFrame | InvalidOwner | InQuarantine | StillMapped

  datatype Frame = Frame(base: u64, state: FrameState, owner: FrameOwner)

  function Allocate(f: Frame, owner: FrameOwner): (Frame, Result<(), FrameError>) {
    if owner == FreePool then (f, Err(InvalidOwner))
    else match f.state
      case Free => (f.(state := Allocated, owner := owner), Ok(()))
      case Quarantined => (f, Err(InQuarantine))
      case _ => (f, Err(NotFree))
  }

  function MarkMapped(f: Frame): (Frame, Result<(), FrameError>) {
    match f.state
    case Allocated => (f.(state := Mapped), Ok(()))
    case Quarantined => (f, Err(InQuarantine))
    case _ => (f, Err(NotAllocated))
  }

  function MarkUnmapped(f: Frame): (Frame, Result<(), FrameError>) {
    match f.state
    case Mapped => (f.(state := Allocated), Ok(()))
    case Quarantined => (f, Err(InQuarantine))
    case _ => (f, Err(NotMappedFrame))
  }

  function Release(f: Frame): (Frame, Result<(), FrameError>) {
    match f.state
    case Allocated => (f.(state := Free, owner := FreePool), Ok(()))
    case Mapped => (f, Err(StillMapped))
    case Quarantined => (f, Err(InQuarantine))
    case Free => (f, Err(NotAllocated))
  }

  function Quarantine(f: Frame): (Frame, Result<(), FrameError>) {
    match f.state
    case Allocated | Mapped => (f.(state := Quarantined), Ok(()))
    case Quarantined => (f, Err(InQuarantine))
    case Free => (f, Err(NotAllocated))
  }

  // ---- Page tables ----------------------------------------------------------

  datatype Mapping = Mapping(vpage: nat, frame: u64, perms: Permissions)

  datatype PtError =
    | Misaligned | KernelFrameUserMapped | NotOwner | FrameNotMappable | RangeViolation | WxViolation
    | DeviceRuleViolation | InvalidPermissions | AlreadyMapped | TableFull | NotMapped

  datatype PageTable = PageTable(owner: nat, entries: seq<Option<Mapping>>)

  function NewTable(owner: nat): PageTable {
    PageTable(owner, seq(MAX_MAPPINGS, _ => None))
  }

  predicate Covers(e: Option<Mapping>, v: nat) { e.Some? && e.value.vpage == PageBase(v) }

  /** First slot covering `v`, or `|entries|`. */
  function SlotOf(entries: seq<Option<Mapping>>, v: nat): (i: nat)
    ensures i <= |entries|
    ensures i < |entries| ==> Covers(entries[i], v)
    ensures forall j | 0 <= j < i :: !Covers(entries[j], v)
  {
    if entries == [] then 0
    else if Covers(entries[0], v) then 0
    else 1 + SlotOf(entries[1..], v)
  }

  lemma SlotUnique(entries: seq<Option<Mapping>>, v: nat, i: nat)
    requires i <= |entries| && (forall j | 0 <= j < i :: !Covers(entries[j], v))
    requires i < |entries| ==> Covers(entries[i], v)
    ensures SlotOf(entries, v) == i
  {
  }

  /** First empty slot, or `|entries|`. */
  function EmptySlot(entries: seq<Option<Mapping>>): (i: nat)
    ensures i <= |entries|
    ensures i < |entries| ==> entries[i].None?
    ensures forall j | 0 <= j < i :: entries[j].Some?
  {
    if entries == [] then 0
    else if entries[0].None? then 0
    else 1 + EmptySlot(entries[1..])
  }

  function Lookup(t: PageTable, v: nat): Option<Mapping> {
    var i := SlotOf(t.entries, v);
    if i < |t.entries| then t.entries[i] else None
  }

  function ValidatePerms(p: Permissions): Result<(), PtError> {
    if !p.read && !p.write && !p.execute then Err(InvalidPermissions)
    else if p.user && p.write && p.execute then Err(WxViolation)
    else if p.user && p.device then Err(DeviceRuleViolation)
    else if p.device && p.execute then Err(DeviceRuleViolation)
    else Ok(())
  }

  /** The checks of `map`, in order; `Ok` carries the slot to fill. */
  function Admit(t: PageTable, vpage: nat, f: Frame, p: Permissions): Result<nat, PtError> {
    if !PageAligned(vpage) || !PageAligned(f.base) then Err(PtError.Misaligned)
    else if ValidatePerms(p).Err? then Err(ValidatePerms(p).error)
    else if p.user && InKernelRam(f.base) then Err(KernelFrameUserMapped)
    else if p.user && !InUserWindow(vpage) then Err(RangeViolation)
    else if !p.user && InUserWindow(vpage) then Err(RangeViolation)
    else if f.owner != (if p.user then AddressSpace(t.owner) else KernelOwned) then Err(NotOwner)
    else if f.state != Allocated then Err(FrameNotMappable)
    else if Lookup(t, vpage).Some? then Err(AlreadyMapped)
    else if EmptySlot(t.entries) == |t.entries| then Err(TableFull)
    else Ok(EmptySlot(t.entries))
  }

  datatype MapOutcome = MapOutcome(table: PageTable, frame: Frame, result: Result<(), PtError>)

  function Map(t: PageTable, vpage: nat, f: Frame, p: Permissions): MapOutcome {
    match Admit(t, vpage, f, p)
    case Err(e) => MapOutcome(t, f, Err(e))
    case Ok(slot) =>
      MapOutcome(t.(entries := t.entries[slot := Some(Mapping(vpage, f.base, p))]), MarkMapped(f).0, Ok(()))
  }

  function Unmap(t: PageTable, vpage: nat, f: Frame): MapOutcome {
    var slot := SlotOf(t.entries, vpage);
    if slot == |t.entries| then MapOutcome(t, f, Err(NotMapped))
    else if t.entries[slot].value.frame != f.base then MapOutcome(t, f, Err(NotMapped))
    else if MarkUnmapped(f).1.Err? then MapOutcome(t, f, Err(FrameNotMappable))
    else MapOutcome(t.(entries := t.entries[slot := None]), MarkUnmapped(f).0, Ok(()))
  }
}

/** The in-place frames and tables, proved to compute the operations above. */
module MemoryObjects {
  import opened Base
  import opened Sv39
  import opened Memory

  class PhysicalFrame {
    const base: u64
    var state: FrameState
    var owner: FrameOwner

    function Value(): Frame
      reads this
    {
      Frame(base, state, owner)
    }

    constructor (base: u64)
      ensures Value() == Frame(base, Free, FreePool)
    {
      this.base := base;
      state := Free;
      owner := FreePool;
    }

    method Allocate(owner: FrameOwner) returns (r: Result<(), FrameError>)
      modifies this
      ensures (Value(), r) == Memory.Allocate(old(Value()), owner)
      ensures r.Ok? <==> old(state) == Free && owner != FreePool
      ensures Value() == if r.Ok? then Frame(base, Allocated, owner) else old(Value())
    {
      if owner == FreePool {
        return Err(InvalidOwner);
      }
      match state {
        case Free =>
          state := Allocated;
          this.owner := owner;
          return Ok(());
        case Quarantined => return Err(InQuarantine);
        case _ => return Err(NotFree);
      }
    }

    method MarkMapped() returns (r: Result<(), FrameError>)
      modifies this
      ensures (Value(), r) == Memory.MarkMapped(old(Value()))
      ensures r.Ok? <==> old(state) == Allocated
      ensures Value() == if r.Ok? then Frame(base, Mapped, old(owner)) else old(Value())
    {
      match state {
        case Allocated =>
          state := Mapped;
          return Ok(());
        case Quarantined => return Err(InQuarantine);
        case _ => return Err(NotAllocated);
      }
    }

    method MarkUnmapped() returns (r: Result<(), FrameError>)
      modifies this
      ensures (Value(), r) == Memory.MarkUnmapped(old(Value()))
      ensures r.Ok? <==> old(state) == Mapped
      ensures Value() == if r.Ok? then Frame(base, Allocated, old(owner)) else old(Value())
    {
      match state {
        case Mapped =>
          state := Allocated;
          return Ok(());
        case Quarantined => return Err(InQuarantine);
        case _ => return Err(NotMappedFrame);
      }
    }

    method Release() returns (r: Result<(), FrameError>)
      modifies this
      ensures (Value(), r) == Memory.Release(old(Value()))
      ensures r.Ok? <==> old(state) == Allocated
      ensures Value() == if r.Ok? then Frame(base, Free, FreePool) else old(Value())
    {
      match state {
        case Allocated =>
          state := Free;
          owner := FreePool;
          return Ok(());
        case Mapped => return Err(StillMapped);
        case Quarantined => return Err(InQuarantine);
        case Free => return Err(NotAllocated);
      }
    }

    method Quarantine() returns (r: Result<(), FrameError>)
      modifies this
      ensures (Value(), r) == Memory.Quarantine(old(Value()))
      ensures r.Ok? <==> old(state) in {Allocated, Mapped}
      ensures Value() == if r.Ok? then Frame(base, Quarantined, old(owner)) else old(Value())
    {
      match state {
        case Allocated | Mapped =>
          state := Quarantined;
          return Ok(());
        case Quarantined => return Err(InQuarantine);
        case Free => return Err(NotAllocated);
      }
    }
  }

  class PageTableObject {
    const owner: nat
    const entries: array<Option<Mapping>>

    function Value(): PageTable
      reads this, entries
    {
      PageTable(owner, entries[..])
    }

    constructor (owner: nat)
      ensures Value() == NewTable(owner) && fresh(entries)
    {
      this.owner := owner;
      entries := new Option<Mapping>[MAX_MAPPINGS](_ => None);
    }

    /** Index of the mapping covering `v`, by a scan over the slots. */
    method Find(v: nat) returns (i: nat)
      ensures i == SlotOf(entries[..], v)
    {
      i := 0;
      while i < entries.Length && !Covers(entries[i], v)
        invariant i <= entries.Length
        invariant forall j | 0 <= j < i :: !Covers(entries[j], v)
      {
        i := i + 1;
      }
      SlotUnique(entries[..], v, i);
    }

    method Lookup(v: nat) returns (m: Option<Mapping>)
      ensures m == Memory.Lookup(Value(), v)
    {
      var i := Find(v);
      m := if i < entries.Length then entries[i] else None;
    }

    method FirstEmpty() returns (i: nat)
      ensures i == EmptySlot(entries[..])
    {
      i := 0;
      while i < entries.Length && entries[i].Some?
        invariant i <= entries.Length
        invariant forall j | 0 <= j < i :: entries[j].Some?
      {
        i := i + 1;
      }
    }

    method Map(vpage: nat, frame: PhysicalFrame, p: Permissions) returns (r: Result<(), PtError>)
      modifies frame, entries
      ensures MapOutcome(Value(), frame.Value(), r) == Memory.Map(old(Value()), vpage, old(frame.Value()), p)
      ensures frame.Value() == if r.Ok? then Frame(frame.base, Mapped, old(frame.owner)) else old(frame.Value())
    {
      if !PageAligned(vpage) || !PageAligned(frame.base) {
        return Err(PtError.Misaligned);
      }
      var valid := ValidatePerms(p);
      if valid.Err? {
        return Err(valid.error);
      }
      if p.user && InKernelRam(frame.base) {
        return Err(KernelFrameUserMapped);
      }
      if p.user && !InUserWindow(vpage) {
        return Err(RangeViolation);
      }
      if !p.user && InUserWindow(vpage) {
        return Err(RangeViolation);
      }
      var wanted := if p.user then AddressSpace(owner) else KernelOwned;
      if frame.owner != wanted {
        return Err(NotOwner);
      }
      if frame.state != Allocated {
        return Err(FrameNotMappable);
      }
      var taken := Lookup(vpage);
      if taken.Some? {
        return Err(AlreadyMapped);
      }
      var slot := FirstEmpty();
      if slot == entries.Length {
        return Err(TableFull);
      }
      entries[slot] := Some(Mapping(vpage, frame.base, p));
      var _ := frame.MarkMapped();
      return Ok(());
    }

    method Unmap(vpage: nat, frame: PhysicalFrame) returns (r: Result<(), PtError>)
      modifies frame, entries
      ensures MapOutcome(Value(), frame.Value(), r) == Memory.Unmap(old(Value()), vpage, old(frame.Value()))
      ensures frame.Value() == if r.Ok? then Frame(frame.base, Allocated, old(frame.owner)) else old(frame.Value())
    {
      var slot := Find(vpage);
      if slot == entries.Length {
        return Err(NotMapped);
      }
      if entries[slot].value.frame != frame.base {
        return Err(NotMapped);
      }
      var marked := frame.MarkUnmapped();
      if marked.Err? {
        return Err(FrameNotMappable);
      }
      entries[slot] := None;
      return Ok(());
    }
  }
}
