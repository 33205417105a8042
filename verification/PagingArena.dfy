/**
 The in-place table builder. Its methods write `tables` and `used`; each is
 proved to compute the corresponding operation on arena values.
 */
module PagingArena {
  import opened Base
  import opened Sv39
  import opened Paging
  import opened PagingTree
  import opened PagingHistory

  /** Requests applied in order, stopping at the first error. */
  function MapAll(st: ArenaState, qs: seq<Request>): (m: (ArenaState, Result<(), MapError>))
    requires Closed(st)
    ensures Closed(m.0)
    decreases |qs|
  {
    if qs == [] then (st, Ok(()))
    else if Apply(st, qs[0]).1.Err? then Apply(st, qs[0])
    else MapAll(Apply(st, qs[0]).0, qs[1..])
  }

  function PageCount(pa: nat, end: nat): nat {
    if pa < end then (end - pa + PAGE_SIZE - 1) / PAGE_SIZE else 0
  }

  /** The requests a page-by-page loop over `[pa, end)` makes, at addresses from `va` on. */
  function Pages(va: nat, pa: nat, end: nat, perms: Permissions): seq<Request>
    requires end <= TWO64
  {
    seq(PageCount(pa, end), j requires 0 <= j < PageCount(pa, end) =>
      Request(va + j * PAGE_SIZE, pa + j * PAGE_SIZE, perms))
  }

  lemma PageAt(va: nat, pa: nat, end: nat, perms: Permissions, i: nat)
    requires end <= TWO64
    ensures i < |Pages(va, pa, end, perms)| <==> pa + i * PAGE_SIZE < end
    ensures i > 0 && pa + (i - 1) * PAGE_SIZE < end ==> i <= |Pages(va, pa, end, perms)|
    ensures i < |Pages(va, pa, end, perms)| ==>
              Pages(va, pa, end, perms)[i] == Request(va + i * PAGE_SIZE, pa + i * PAGE_SIZE, perms)
  {
  }

  lemma PagesStep(va: nat, pa: nat, end: nat, perms: Permissions)
    requires pa < end <= TWO64
    ensures Pages(va, pa, end, perms) != []
    ensures Pages(va, pa, end, perms)[0] == Request(va, pa, perms)
    ensures Pages(va, pa, end, perms)[1..] == Pages(va + PAGE_SIZE, pa + PAGE_SIZE, end, perms)
  {
    var rest := Pages(va + PAGE_SIZE, pa + PAGE_SIZE, end, perms);
    assert PageCount(pa, end) == 1 + PageCount(pa + PAGE_SIZE, end);
    forall j | 0 <= j < |rest|
      ensures Pages(va, pa, end, perms)[1..][j] == rest[j]
    {
      assert (j + 1) * PAGE_SIZE == j * PAGE_SIZE + PAGE_SIZE;
    }
  }

  lemma MapAllAdvance(st: ArenaState, st': ArenaState, r: Result<(), MapError>, qs: seq<Request>, i: nat)
    requires Closed(st) && i < |qs|
    requires (st', r) == MapPage(st, qs[i].va, qs[i].pa, qs[i].perms)
    ensures MapAll(st, qs[i..]) == if r.Err? then (st', r) else MapAll(st', qs[i + 1..])
  {
    assert qs[i..][0] == qs[i] && qs[i..][1..] == qs[i + 1..];
  }

  lemma {:induction false} MapAllSplits(st: ArenaState, qs: seq<Request>, rs: seq<Request>)
    requires Closed(st)
    ensures MapAll(st, qs + rs) ==
            if MapAll(st, qs).1.Err? then MapAll(st, qs) else MapAll(MapAll(st, qs).0, rs)
    decreases |qs|
  {
    if qs == [] {
      assert qs + rs == rs;
    } else {
      assert (qs + rs)[1..] == qs[1..] + rs;
      MapAllSplits(Apply(st, qs[0]).0, qs[1..], rs);
    }
  }

  lemma MapAllNone(st: ArenaState)
    requires Closed(st)
    ensures MapAll(st, []) == (st, Ok(()))
  {
  }

  lemma MappedIsAligned(st: ArenaState, va: nat, pa: u64, perms: Permissions)
    requires Closed(st) && Paging.MapPage(st, va, pa, perms).1.Ok?
    ensures PageAligned(pa)
  {
  }

  /** Where a loop over whole pages from an aligned start ends. */
  lemma AlignedEnd(start: nat, end: nat, i: nat)
    requires i > 0 ==> PageAligned(start) && start + (i - 1) * PAGE_SIZE < end <= start + i * PAGE_SIZE && end < TWO64
    ensures i > 0 ==> (start + i * PAGE_SIZE >= TWO64 <==> end > TWO64 - PAGE_SIZE)
  {
    if i > 0 {
      var last := start + (i - 1) * PAGE_SIZE;
      assert start % PAGE_SIZE == 0 && last % PAGE_SIZE == 0;
      assert last + PAGE_SIZE == start + i * PAGE_SIZE;
    }
  }

  /** A run of requests that returns Ok is a history in which all were accepted. */
  lemma {:induction false} MapAllOk(st: ArenaState, qs: seq<Request>)
    requires Closed(st)
    ensures MapAll(st, qs).1.Ok? <==> AllAccepted(st, qs)
    ensures MapAll(st, qs).1.Ok? ==> MapAll(st, qs).0 == After(st, qs)
    decreases |qs|
  {
    if qs != [] {
      MapAllOk(Apply(st, qs[0]).0, qs[1..]);
    }
  }

  class Arena {
    const tables: array<Table>
    var used: nat
    const basePa: nat

    ghost function State(): ArenaState
      reads this, tables
    {
      ArenaState(tables[..], used, basePa)
    }

    /** Index 0 is reserved as the root; its contents are left as they are. */
    constructor (tables: array<Table>, basePa: nat)
      ensures this.tables == tables
      ensures State() == ArenaState(tables[..], 1, basePa)
    {
      this.tables := tables;
      this.basePa := basePa;
      used := 1;
    }

    method Alloc() returns (r: Result<nat, MapError>)
      requires Sized(State())
      modifies this, tables
      ensures r == if old(used) < tables.Length then Ok(old(used)) else Err(OutOfTables)
      ensures State() == if r.Ok? then Paging.Alloc(old(State())) else old(State())
    {
      if used >= tables.Length {
        return Err(OutOfTables);
      }
      var idx := used;
      tables[idx] := ZeroTable();
      used := used + 1;
      return Ok(idx);
    }

    /** One level of the descent: follow entry `idx` of table `cur`, linking a fresh table if it is empty. */
    method Enter(cur: nat, idx: nat) returns (r: Result<nat, MapError>)
      requires Closed(State()) && cur < used && idx < ENTRIES
      modifies this, tables
      ensures Walk(State(), r) == Descend(old(State()), cur, idx)
    {
      var entry := tables[cur][idx];
      if IsLeaf(entry) {
        return Err(UnexpectedLeaf);
      }
      if IsValid(entry) {
        return Ok(TableIndexOf(ArenaState(tables[..], used, basePa), entry));
      }
      var next := Alloc();
      if next.Err? {
        return Err(next.error);
      }
      var ptr := Pointer(basePa + next.value * PAGE_SIZE);
      if ptr.Err? {
        return Err(PteRejected(ptr.error));
      }
      tables[cur] := Put(tables[cur], idx, ptr.value);
      assert State() == SetEntry(Paging.Alloc(old(State())), cur, idx, ptr.value);
      return Ok(next.value);
    }

    method MapPage(va: nat, pa: u64, perms: Permissions) returns (r: Result<(), MapError>)
      requires Closed(State())
      modifies this, tables
      ensures Closed(State())
      ensures (State(), r) == Paging.MapPage(old(State()), va, pa, perms)
    {
      if !PageAligned(va) || !PageAligned(pa) {
        return Err(MapError.Misaligned);
      }
      var made := Leaf(pa, perms);
      if made.Err? {
        return Err(PteRejected(made.error));
      }
      LeafRoundTrip(pa, perms);
      var cur: nat := 0;
      var level := 2;
      while level > 0
        invariant 0 <= level <= 2
        invariant Closed(State()) && cur < used
        invariant level == 2 ==> State() == old(State()) && cur == 0
        invariant level == 1 ==> Walk(State(), Ok(cur)) == Descend(old(State()), 0, Vpn(va, 2))
        invariant level == 0 ==> Walk(State(), Ok(cur)) == Descent(old(State()), va)
      {
        var next := Enter(cur, Vpn(va, level));
        if next.Err? {
          return Err(next.error);
        }
        cur, level := next.value, level - 1;
      }
      r := Finish(cur, Vpn(va, 0), made.value);
    }

    /** Write the level-0 entry unless the page is taken. */
    method Finish(cur: nat, idx: nat, leaf: u64) returns (r: Result<(), MapError>)
      requires Closed(State()) && cur < used && idx < ENTRIES && IsLeaf(leaf)
      modifies this, tables
      ensures (State(), r) == Fill(Walk(old(State()), Ok(cur)), idx, leaf)
    {
      if IsValid(tables[cur][idx]) {
        return Err(AlreadyMapped);
      }
      tables[cur] := Put(tables[cur], idx, leaf);
      assert State() == SetEntry(old(State()), cur, idx, leaf);
      return Ok(());
    }

    /** The software walk; `None` where the hardware would fault. */
    method Translate(va: nat) returns (r: Option<Translation>)
      requires Closed(State())
      ensures r == Paging.Translate(State(), va)
    {
      var cur: nat := 0;
      var level := 2;
      while level > 0
        invariant 0 <= level <= 2
        invariant cur < used
        invariant level == 2 ==> cur == 0
        invariant level == 1 ==> Follow(State(), 0, Vpn(va, 2)) == Some(cur)
        invariant level == 0 ==> LowTable(State(), Vpn(va, 2), Vpn(va, 1)) == Some(cur)
      {
        var entry := tables[cur][Vpn(va, level)];
        if !IsValid(entry) || IsLeaf(entry) {
          return None;
        }
        cur := TableIndexOf(ArenaState(tables[..], used, basePa), entry);
        level := level - 1;
      }
      var leaf := tables[cur][Vpn(va, 0)];
      if !IsLeaf(leaf) {
        return None;
      }
      return Some(Decoded(leaf, va));
    }

    /**
     Map `[start, end)` to itself page by page, stopping at the first error. When the
     range reaches into the last page of the 64-bit space the counter overflows after it.
     */
    method IdentityMapRange(start: u64, end: u64, perms: Permissions) returns (r: Result<(), MapError>, overflow: bool)
      requires Closed(State())
      modifies this, tables
      ensures Closed(State())
      ensures (State(), r) == MapAll(old(State()), Pages(start, start, end, perms))
      ensures overflow <==> r.Ok? && start < end && end > TWO64 - PAGE_SIZE
    {
      r, overflow := MapRange(start, start, end, perms);
    }

    /** Map the pages of `[start, end)` at addresses from `base` on. */
    method MapRange(base: u64, start: u64, end: u64, perms: Permissions) returns (r: Result<(), MapError>, overflow: bool)
      requires Closed(State()) && (start < end ==> base + (end - start) <= TWO64)
      modifies this, tables
      ensures Closed(State())
      ensures (State(), r) == MapAll(old(State()), Pages(base, start, end, perms))
      ensures overflow <==> r.Ok? && start < end && end > TWO64 - PAGE_SIZE
    {
      hide Closed, MapAll, Pages, PageAligned, Paging.MapPage;
      overflow := false;
      ghost var qs := Pages(base, start, end, perms);
      PageAt(base, start, end, perms, 0);
      ghost var i: nat := 0;
      var addr: nat := start;
      while addr < end
        invariant addr == start + i * PAGE_SIZE
        invariant i <= |qs| && (i < |qs| <==> addr < end)
        invariant Closed(State())
        invariant MapAll(old(State()), qs) == MapAll(State(), qs[i..])
        invariant i > 0 ==> PageAligned(start) && start + (i - 1) * PAGE_SIZE < end
        invariant overflow <==> addr >= TWO64
      {
        ghost var before := State();
        PageAt(base, start, end, perms, i);
        PageAt(base, start, end, perms, i + 1);
        var m := MapPage(base + (addr - start), addr, perms);
        MapAllAdvance(before, State(), m, qs, i);
        if m.Err? {
          return m, false;
        }
        MappedIsAligned(before, base + (addr - start), addr, perms);
        addr, i := addr + PAGE_SIZE, i + 1;
        overflow := addr >= TWO64;
      }
      AlignedEnd(start, end, i);
      assert qs[i..] == [];
      MapAllNone(State());
      r := Ok(());
    }
  }
}
