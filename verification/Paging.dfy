/**
 The Sv39 table builder: an arena of 512-entry tables addressed by index, in
 which `map_page` grows a three-level tree and `translate` walks it.

 The state and its operations are given here as values; `PagingArena` is the
 in-place builder, proved to compute them.
 */
module Paging {
  import opened Base
  import opened Sv39

  const ENTRIES: nat := 512

  datatype MapError = Misaligned | OutOfTables | PteRejected(pte: PteError) | AlreadyMapped | UnexpectedLeaf

  type Table = seq<u64>

  datatype ArenaState = ArenaState(tables: seq<Table>, used: nat, basePa: nat)

  function ZeroTable(): Table { seq(ENTRIES, _ => 0) }

  function Vpn(va: nat, level: nat): (i: nat)
    requires level < 3
    ensures i < ENTRIES
  {
    if level == 0 then va / 0x1000 % 512
    else if level == 1 then va / 0x20_0000 % 512
    else va / 0x4000_0000 % 512
  }

  /** Two addresses in the same page as far as the walk can tell (bits 12..38). */
  predicate SamePage(v: nat, w: nat) {
    Vpn(v, 2) == Vpn(w, 2) && Vpn(v, 1) == Vpn(w, 1) && Vpn(v, 0) == Vpn(w, 0)
  }

  // ---- Well-formed arenas ---------------------------------------------------

  predicate Sized(st: ArenaState) {
    && 1 <= st.used <= |st.tables|
    && (forall k | 0 <= k < |st.tables| :: |st.tables[k]| == ENTRIES)
    && PageAligned(st.basePa)
    && st.basePa + |st.tables| * PAGE_SIZE <= TWO56
  }

  predicate IsPointer(pte: nat) { IsValid(pte) && !IsLeaf(pte) }

  function PaOf(st: ArenaState, k: nat): (pa: u64)
    requires Sized(st) && k < |st.tables|
    ensures PageAligned(pa) && pa < TWO56
  {
    st.basePa + k * PAGE_SIZE
  }

  predicate InArena(st: ArenaState, pte: nat) {
    st.basePa <= Ppn(pte) * PAGE_SIZE
  }

  function TableIndexOf(st: ArenaState, pte: nat): nat
    requires InArena(st, pte)
  {
    (Ppn(pte) * PAGE_SIZE - st.basePa) / PAGE_SIZE
  }

  /** Every pointer held by an allocated table leads to an allocated non-root table. */
  predicate Closed(st: ArenaState) {
    && Sized(st)
    && (forall k, i | 0 <= k < st.used && 0 <= i < ENTRIES && IsPointer(st.tables[k][i]) ::
          InArena(st, st.tables[k][i]) && 1 <= TableIndexOf(st, st.tables[k][i]) < st.used)
  }

  // ---- Operations -----------------------------------------------------------

  /** Reserve and zero the next table. */
  function Alloc(st: ArenaState): ArenaState
    requires Sized(st) && st.used < |st.tables|
  {
    st.(tables := st.tables[st.used := ZeroTable()], used := st.used + 1)
  }

  function Put(table: Table, i: nat, pte: u64): Table
    requires i < |table|
  {
    table[i := pte]
  }

  function SetEntry(st: ArenaState, k: nat, i: nat, pte: u64): ArenaState
    requires Sized(st) && k < |st.tables| && i < ENTRIES
  {
    st.(tables := st.tables[k := Put(st.tables[k], i, pte)])
  }

  lemma PointerToTable(st: ArenaState, k: nat)
    requires Sized(st) && k < |st.tables|
    ensures Pointer(PaOf(st, k)).Ok?
    ensures IsPointer(Pointer(PaOf(st, k)).value)
    ensures InArena(st, Pointer(PaOf(st, k)).value)
    ensures TableIndexOf(st, Pointer(PaOf(st, k)).value) == k
  {
    PointerRoundTrip(PaOf(st, k));
  }

  /** Pointing an entry at the table just allocated keeps the arena closed. */
  lemma LinkClosed(st: ArenaState, cur: nat, i: nat, ptr: u64)
    requires Closed(st) && st.used < |st.tables| && cur < st.used && i < ENTRIES
    requires Pointer(PaOf(st, st.used)) == Ok(ptr)
    ensures Closed(SetEntry(Alloc(st), cur, i, ptr))
  {
    PointerToTable(st, st.used);
    var st' := SetEntry(Alloc(st), cur, i, ptr);
    forall k, j | 0 <= k < st'.used && 0 <= j < ENTRIES && IsPointer(st'.tables[k][j])
      ensures InArena(st', st'.tables[k][j]) && 1 <= TableIndexOf(st', st'.tables[k][j]) < st'.used
    {
      if k == cur && j == i {
        assert st'.tables[k][j] == ptr;
      } else if k < st.used {
        assert st'.tables[k][j] == st.tables[k][j];
      }
    }
  }

  datatype Walk = Walk(st: ArenaState, result: Result<nat, MapError>)

  /** One level of the descent from table `cur`: follow entry `i`, linking a fresh table if it is empty. */
  function Descend(st: ArenaState, cur: nat, i: nat): (w: Walk)
    requires Closed(st) && cur < st.used && i < ENTRIES
    ensures Closed(w.st) && st.used <= w.st.used
    ensures |w.st.tables| == |st.tables| && w.st.basePa == st.basePa
    ensures w.result.Ok? ==> 1 <= w.result.value < w.st.used
  {
    var entry := st.tables[cur][i];
    if IsLeaf(entry) then Walk(st, Err(UnexpectedLeaf))
    else if IsValid(entry) then Walk(st, Ok(TableIndexOf(st, entry)))
    else if st.used >= |st.tables| then Walk(st, Err(OutOfTables))
    else
      PointerToTable(st, st.used);
      match Pointer(PaOf(st, st.used))
      case Err(e) => Walk(Alloc(st), Err(PteRejected(e)))
      case Ok(ptr) =>
        LinkClosed(st, cur, i, ptr);
        Walk(SetEntry(Alloc(st), cur, i, ptr), Ok(st.used))
  }

  /** Write `leaf` into the level-0 table the descent ended at, unless that page is taken. */
  function Fill(w: Walk, i: nat, leaf: u64): (m: (ArenaState, Result<(), MapError>))
    requires Closed(w.st) && i < ENTRIES && IsLeaf(leaf)
    requires w.result.Ok? ==> w.result.value < w.st.used
    ensures Closed(m.0)
  {
    if w.result.Err? then (w.st, Err(w.result.error))
    else if IsValid(w.st.tables[w.result.value][i]) then (w.st, Err(AlreadyMapped))
    else (SetEntry(w.st, w.result.value, i, leaf), Ok(()))
  }

  /** The level-1 step, after the level-2 step `w`. */
  function Deepen(w: Walk, i: nat): (w': Walk)
    requires Closed(w.st) && i < ENTRIES
    requires w.result.Ok? ==> w.result.value < w.st.used
    ensures Closed(w'.st) && (w'.result.Ok? ==> w'.result.value < w'.st.used)
  {
    if w.result.Err? then w else Descend(w.st, w.result.value, i)
  }

  /** `map_page`: check, descend two levels, then fill the level-0 entry. */
  function MapPage(st: ArenaState, va: nat, pa: u64, perms: Permissions)
    : (m: (ArenaState, Result<(), MapError>))
    requires Closed(st)
    ensures Closed(m.0)
  {
    if !PageAligned(va) || !PageAligned(pa) then (st, Err(MapError.Misaligned))
    else match Leaf(pa, perms)
      case Err(e) => (st, Err(PteRejected(e)))
      case Ok(leaf) =>
        LeafRoundTrip(pa, perms);
        Fill(Deepen(Descend(st, 0, Vpn(va, 2)), Vpn(va, 1)), Vpn(va, 0), leaf)
  }

  /** The table an entry leads the walk to, if it is a pointer. */
  function Follow(st: ArenaState, cur: nat, i: nat): (k: Option<nat>)
    requires Closed(st) && cur < st.used && i < ENTRIES
    ensures k.Some? ==> 1 <= k.value < st.used
  {
    var entry := st.tables[cur][i];
    if !IsValid(entry) || IsLeaf(entry) then None else Some(TableIndexOf(st, entry))
  }

  /** The leaf word the walk ends at for one VPN triple. */
  function LeafAt(st: ArenaState, a: nat, b: nat, c: nat): Option<u64>
    requires Closed(st) && a < ENTRIES && b < ENTRIES && c < ENTRIES
  {
    match Follow(st, 0, a)
    case None => None
    case Some(k1) =>
      match Follow(st, k1, b)
      case None => None
      case Some(k0) => if IsLeaf(st.tables[k0][c]) then Some(st.tables[k0][c]) else None
  }

  datatype Translation = Translation(pa: nat, perms: Permissions)

  function Decoded(pte: u64, va: nat): Translation {
    Translation(Ppn(pte) * PAGE_SIZE + va % PAGE_SIZE, PermsOf(pte))
  }

  /** `translate`: the software walk of section 4.3.2 of the privileged architecture. */
  function Translate(st: ArenaState, va: nat): Option<Translation>
    requires Closed(st)
  {
    match LeafAt(st, Vpn(va, 2), Vpn(va, 1), Vpn(va, 0))
    case None => None
    case Some(pte) => Some(Decoded(pte, va))
  }
}
