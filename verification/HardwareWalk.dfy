/**
 The page-table walk of the processor (RISC-V Privileged Architecture v1.12, section
 4.3.2, with Sv39 of section 4.4), written from the standard's bit numbers over the
 bytes of the arena, and what it makes of the tables `map_page` builds.
 */
module HardwareWalk {
  import opened Base
  import opened Sv39
  import opened Paging
  import opened PagingTree
  import opened PagingHistory

  const TWO38: nat := 0x40_0000_0000
  const TWO54: nat := 0x40_0000_0000_0000

  /** The doubleword at a physical address of the arena. */
  function Load(st: ArenaState, pa: nat): Option<u64>
    requires Sized(st)
  {
    var off := pa - st.basePa;
    if 0 <= off < |st.tables| * 4096 && off % 8 == 0 then Some(st.tables[off / 4096][off % 4096 / 8]) else None
  }

  datatype Found = Fault | Next(pa: nat) | Page(word: nat)

  /** What an entry tells the walk. */
  function Inspect(w: Option<u64>): Found {
    if w.None? then Fault
    else
      var e := w.value;
      if e % 2 == 0 || (e / 2 % 2 == 0 && e / 4 % 2 == 1) || e / TWO54 != 0 then Fault
      else if e / 2 % 2 == 1 || e / 8 % 2 == 1 then Page(e)
      else if e / 16 % 2 == 0 && e / 64 % 2 == 0 && e / 128 % 2 == 0 then Next(e / 1024 * 4096)
      else Fault
  }

  /** The end of a walk at a page of the given size. A store needs the dirty bit, any access the accessed bit. */
  function Arrive(e: nat, va: nat, size: nat): Option<Translation>
    requires size > 0
  {
    if e / 64 % 2 == 0 || e / 1024 * 4096 % size != 0 then None
    else Some(Translation(e / 1024 * 4096 + va % size,
                          Permissions(e / 2 % 2 == 1, e / 4 % 2 == 1 && e / 128 % 2 == 1, e / 8 % 2 == 1, e / 16 % 2 == 1, false)))
  }

  /** Bits 39 to 63 repeat bit 38. */
  predicate Canonical(va: nat) { va < TWO38 || TWO64 - TWO38 <= va < TWO64 }

  function WalkFrom0(st: ArenaState, table: nat, va: nat): Option<Translation>
    requires Sized(st)
  {
    match Inspect(Load(st, table + va / 4096 % 512 * 8))
    case Page(e) => Arrive(e, va, 4096)
    case _ => None
  }

  function WalkFrom1(st: ArenaState, table: nat, va: nat): Option<Translation>
    requires Sized(st)
  {
    match Inspect(Load(st, table + va / 2_097_152 % 512 * 8))
    case Fault => None
    case Page(e) => Arrive(e, va, 2_097_152)
    case Next(pa) => WalkFrom0(st, pa, va)
  }

  function HardwareWalk(st: ArenaState, va: nat): Option<Translation>
    requires Sized(st)
  {
    if !Canonical(va) then None
    else match Inspect(Load(st, st.basePa + va / 1_073_741_824 % 512 * 8))
      case Fault => None
      case Page(e) => Arrive(e, va, 1_073_741_824)
      case Next(pa) => WalkFrom1(st, pa, va)
  }

  // ---- Which words the tables hold ------------------------------------------

  ghost predicate IsBuiltLeaf(w: u64) { exists pa: u64, perms: Permissions :: Leaf(pa, perms) == Ok(w) }

  /** A word no walk sees, a leaf as built, or a pointer to a table as built. */
  ghost predicate AuthoredWord(st: ArenaState, w: u64)
    requires Sized(st)
  {
    || !IsValid(w) || IsBuiltLeaf(w)
    || exists k: nat | k < |st.tables| :: Pointer(PaOf(st, k)) == Ok(w)
  }

  ghost predicate Authored(st: ArenaState)
    requires Sized(st)
  {
    forall k, j | 0 <= k < st.used && 0 <= j < ENTRIES :: AuthoredWord(st, st.tables[k][j])
  }

  lemma SameWords(st: ArenaState, st': ArenaState, w: u64)
    requires Sized(st) && Sized(st') && |st'.tables| == |st.tables| && st'.basePa == st.basePa && AuthoredWord(st, w)
    ensures AuthoredWord(st', w)
  {
    if k: nat :| k < |st.tables| && Pointer(PaOf(st, k)) == Ok(w) {
      assert Pointer(PaOf(st', k)) == Ok(w);
    }
  }

  lemma DescendAuthored(st: ArenaState, cur: nat, i: nat)
    requires Closed(st) && cur < st.used && i < ENTRIES && Authored(st)
    ensures Authored(Descend(st, cur, i).st)
  {
    hide HasBit, Ppn;
    var st' := Descend(st, cur, i).st;
    if st' != st {
      PointerToTable(st, st.used);
      var ptr := Pointer(PaOf(st, st.used)).value;
      ZeroIsInvalid();
      forall k, j | 0 <= k < st'.used && 0 <= j < ENTRIES
        ensures AuthoredWord(st', st'.tables[k][j])
      {
        if k == cur && j == i {
          assert st'.tables[k][j] == ptr && Pointer(PaOf(st', st.used)) == Ok(ptr);
        } else if k < st.used {
          assert st'.tables[k][j] == st.tables[k][j];
          SameWords(st, st', st.tables[k][j]);
        } else {
          assert st'.tables[k][j] == 0;
        }
      }
    }
  }

  lemma ZeroIsInvalid()
    ensures !IsValid(0)
  {
  }

  lemma FillAuthored(st: ArenaState, k: nat, c: nat, leaf: u64)
    requires Closed(st) && k < st.used && c < ENTRIES && Authored(st) && IsBuiltLeaf(leaf)
    ensures Sized(SetEntry(st, k, c, leaf)) && Authored(SetEntry(st, k, c, leaf))
  {
    var st' := SetEntry(st, k, c, leaf);
    assert Sized(st');
    forall m, j | 0 <= m < st'.used && 0 <= j < ENTRIES
      ensures AuthoredWord(st', st'.tables[m][j])
    {
      if !(m == k && j == c) {
        assert st'.tables[m][j] == st.tables[m][j];
        SameWords(st, st', st.tables[m][j]);
      }
    }
  }

  lemma ApplyAuthored(st: ArenaState, q: Request)
    requires Closed(st) && Authored(st)
    ensures Authored(Apply(st, q).0)
  {
    hide HasBit, Ppn, Authored, Vpn;
    if PageAligned(q.va) && PageAligned(q.pa) && Leaf(q.pa, q.perms).Ok? {
      var leaf := Leaf(q.pa, q.perms).value;
      LeafRoundTrip(q.pa, q.perms);
      assert IsBuiltLeaf(leaf);
      hide Leaf;
      DescendAuthored(st, 0, Vpn(q.va, 2));
      var w1 := Descend(st, 0, Vpn(q.va, 2));
      if w1.result.Ok? {
        DescendAuthored(w1.st, w1.result.value, Vpn(q.va, 1));
        var w := Descend(w1.st, w1.result.value, Vpn(q.va, 1));
        if w.result.Ok? {
          FillAuthored(w.st, w.result.value, Vpn(q.va, 0), leaf);
        }
      }
    }
  }

  lemma {:induction false} AfterAuthored(st: ArenaState, qs: seq<Request>)
    requires Closed(st) && Authored(st)
    ensures Authored(After(st, qs))
    decreases |qs|
  {
    hide Apply, Authored;
    if qs != [] {
      ApplyAuthored(st, qs[0]);
      AfterAuthored(Apply(st, qs[0]).0, qs[1..]);
    }
  }

  // ---- One entry ------------------------------------------------------------

  lemma EntryLoads(st: ArenaState, k: nat, j: nat)
    requires Sized(st) && k < |st.tables| && j < 512
    ensures Load(st, PaOf(st, k) + j * 8) == Some(st.tables[k][j])
  {
    Offsets(k, j);
    assert k * 4096 + j * 8 < |st.tables| * 4096;
  }

  lemma Offsets(k: nat, j: nat)
    requires j < 512
    ensures (k * 4096 + j * 8) / 4096 == k && (k * 4096 + j * 8) % 4096 == j * 8 && (k * 4096 + j * 8) % 8 == 0
  {
    assert k * 4096 + j * 8 == 8 * (k * 512 + j);
  }

  lemma InvalidFaults(w: u64)
    requires !IsValid(w)
    ensures Inspect(Some(w)) == Fault
  {
  }

  lemma PointerLeads(st: ArenaState, k: nat, w: u64)
    requires Sized(st) && k < |st.tables| && Pointer(PaOf(st, k)) == Ok(w)
    ensures Inspect(Some(w)) == Next(PaOf(st, k)) && IsPointer(w) && InArena(st, w) && TableIndexOf(st, w) == k
  {
    PointerToTable(st, k);
    PointerBits(PaOf(st, k));
    var page := PaOf(st, k) / 4096;
    hide IsPointer, InArena, TableIndexOf, Pointer;
    LowOne(page);
    assert w == page * 1024 + 1 && page < TWO44;
  }

  lemma LowOne(p: nat)
    ensures var w := p * 1024 + 1;
            && w % 2 == 1 && w / 2 % 2 == 0 && w / 4 % 2 == 0 && w / 8 % 2 == 0 && w / 16 % 2 == 0
            && w / 64 % 2 == 0 && w / 128 % 2 == 0 && w / 1024 == p
  {
    EvenPlus(p * 512, 1);
    Shift2(p, 1);
    Shift4(p, 1);
    Shift8(p, 1);
    Shift16(p, 1);
    Shift64(p, 1);
    Shift128(p, 1);
  }

  /** A leaf as built: seen as the page it was built for if its frame has 56 bits, and as a fault otherwise. */
  lemma LeafArrives(pa: u64, perms: Permissions, va: nat)
    requires Leaf(pa, perms).Ok?
    ensures var w := Leaf(pa, perms).value;
            Inspect(Some(w)) == (if pa < TWO56 then Page(w) else Fault)
    ensures var w := Leaf(pa, perms).value;
            pa < TWO56 ==> Arrive(w, va, 4096) == Some(Granted(pa, perms, va))
  {
    hide Leaf, IsLeaf, PermsOf, Ppn;
    LeafRoundTrip(pa, perms);
    LeafBits(pa, perms);
    PageField(pa, Leaf(pa, perms).value);
  }

  lemma PageField(pa: u64, w: nat)
    requires w / 1024 == pa / 4096 && PageAligned(pa)
    ensures w / TWO54 == 0 <==> pa < TWO56
    ensures w / 1024 * 4096 == pa
  {
    assert w / TWO54 == w / 1024 / TWO44;
  }

  // ---- The walk -------------------------------------------------------------

  /** What the processor finds for a VPN triple: the page of a leaf it can read, or nothing. */
  function Seen(leaf: Option<u64>, va: nat): Option<Translation> {
    match leaf
    case None => None
    case Some(w) => if w / TWO54 == 0 then Some(Decoded(w, va)) else None
  }

  /**
   On every arena of built words that is a tree, at every canonical address, the
   processor translates as `translate` does, except that it faults on leaves whose frame
   does not fit the 44-bit page number; at other addresses it always faults.
   */
  lemma HardwareAgrees(st: ArenaState, labels: seq<Path>, va: nat)
    requires Tree(st, labels) && Authored(st)
    ensures HardwareWalk(st, va) ==
            if Canonical(va) then Seen(WordFor(st, va), va) else None
  {
    hide Inspect, Load, IsValid, IsLeaf, Ppn, PermsOf, Arrive, AuthoredWord;
    var a, b, c := Vpn(va, 2), Vpn(va, 1), Vpn(va, 0);
    assert PaOf(st, 0) == st.basePa;
    UpperEntry(st, labels, 0, a);
    if Follow(st, 0, a).Some? {
      var k1 := Follow(st, 0, a).value;
      assert EntryOk(st, labels, 0, a);
      UpperEntry(st, labels, k1, b);
      if Follow(st, k1, b).Some? {
        var k0 := Follow(st, k1, b).value;
        assert EntryOk(st, labels, k1, b);
        LowerEntry(st, labels, k0, c, va);
      }
    }
  }

  /** An entry above the bottom level: the processor follows it exactly as `translate` does. */
  lemma UpperEntry(st: ArenaState, labels: seq<Path>, k: nat, j: nat)
    requires Tree(st, labels) && Authored(st) && k < st.used && j < ENTRIES && !labels[k].Low?
    ensures Inspect(Load(st, PaOf(st, k) + j * 8)) ==
            match Follow(st, k, j) { case None => Fault case Some(i) => Next(PaOf(st, i)) }
  {
    hide Inspect, Load, Ppn, HasBit;
    EntryLoads(st, k, j);
    var w := st.tables[k][j];
    assert AuthoredWord(st, w) && EntryOk(st, labels, k, j);
    if !IsValid(w) {
      InvalidFaults(w);
    } else {
      if pa: u64, perms: Permissions :| Leaf(pa, perms) == Ok(w) {
        LeafRoundTrip(pa, perms);
      }
      var i: nat :| i < |st.tables| && Pointer(PaOf(st, i)) == Ok(w);
      PointerLeads(st, i, w);
    }
  }

  lemma LowerEntry(st: ArenaState, labels: seq<Path>, k: nat, j: nat, va: nat)
    requires Tree(st, labels) && Authored(st) && k < st.used && j < ENTRIES && labels[k].Low?
    ensures var w := st.tables[k][j];
            var found := Inspect(Load(st, PaOf(st, k) + j * 8));
            if IsLeaf(w) then found == (if w / TWO54 == 0 then Page(w) else Fault)
                              && (w / TWO54 == 0 ==> Arrive(w, va, 4096) == Some(Decoded(w, va)))
            else !found.Page?
  {
    hide Inspect, Load, Ppn, HasBit, Arrive;
    EntryLoads(st, k, j);
    var w := st.tables[k][j];
    assert AuthoredWord(st, w) && EntryOk(st, labels, k, j);
    if !IsValid(w) {
      InvalidFaults(w);
    } else if pa: u64, perms: Permissions :| Leaf(pa, perms) == Ok(w) {
      LeafRoundTrip(pa, perms);
      LeafBits(pa, perms);
      LeafArrives(pa, perms, va);
      DecodedLeaf(pa, perms, va);
      PageField(pa, w);
    } else {
      var i: nat :| i < |st.tables| && Pointer(PaOf(st, i)) == Ok(w);
      PointerLeads(st, i, w);
    }
  }

  /**
   The processor and any history from a fresh arena: at a canonical address it finds
   exactly the page and accesses of the accepted request that covers the address, if the
   frame requested has 56 bits, and faults otherwise.
   */
  lemma HardwareSeesHistory(st: ArenaState, qs: seq<Request>, va: nat)
    requires Fresh(st)
    ensures HardwareWalk(After(st, qs), va) ==
            var q := Covering(Accepted(st, qs), va);
            if Canonical(va) && q.Some? && q.value.pa < TWO56
            then Some(Translation(q.value.pa + va % 4096, q.value.perms.(device := false))) else None
  {
    hide HardwareWalk, WordFor, Covering, Accepted, After, Canonical, Authored, Translate;
    FreshIsTree(st);
    FreshAuthored(st);
    var labels := AfterIsTree(st, [Root], qs);
    AfterAuthored(st, qs);
    HardwareAgrees(After(st, qs), labels, va);
    HistoryLeaf(st, qs, va);
  }

  lemma FreshAuthored(st: ArenaState)
    requires Fresh(st)
    ensures Authored(st)
  {
  }

  /** The word a request stores. */
  function StoredBy(q: Option<Request>): Option<u64> {
    if q.Some? && Leaf(q.value.pa, q.value.perms).Ok? then Some(Leaf(q.value.pa, q.value.perms).value) else None
  }

  lemma {:induction false} HistoryWord(st: ArenaState, labels: seq<Path>, qs: seq<Request>, v: nat)
    requires Tree(st, labels)
    ensures WordFor(After(st, qs), v) ==
            if WordFor(st, v).Some? then WordFor(st, v) else StoredBy(Covering(Accepted(st, qs), v))
    ensures WordFor(st, v).None? && Covering(Accepted(st, qs), v).Some? ==>
              var q := Covering(Accepted(st, qs), v).value;
              Leaf(q.pa, q.perms).Ok?
    decreases |qs|
  {
    hide WordFor, SamePage, Leaf, MapPage;
    if qs != [] {
      var q := qs[0];
      MapPageStores(st, labels, q.va, q.pa, q.perms, v);
      var labels' := StepIsTree(st, labels, q);
      var st1 := Apply(st, q).0;
      HistoryWord(st1, labels', qs[1..], v);
      var rest := Accepted(st1, qs[1..]);
      if Apply(st, q).1.Ok? {
        CoveringCons(q, rest, v);
        if SamePage(v, q.va) && WordFor(st, v).Some? {
          OccupiedRefused(st, labels, q, v);
        }
      } else {
        assert [] + rest == rest;
      }
    }
  }

  lemma OccupiedRefused(st: ArenaState, labels: seq<Path>, q: Request, v: nat)
    requires Tree(st, labels) && SamePage(v, q.va) && WordFor(st, v).Some?
    ensures Apply(st, q).1.Err?
  {
    hide Vpn, LeafAt;
    TakenPageStays(st, labels, q, v);
  }

  lemma FreshHoldsNothing(st: ArenaState, v: nat)
    requires Fresh(st)
    ensures Closed(st) && WordFor(st, v).None?
  {
    FreshIsTree(st);
  }

  lemma SeenLeaf(pa: u64, perms: Permissions, va: nat)
    requires Leaf(pa, perms).Ok?
    ensures Seen(Some(Leaf(pa, perms).value), va) ==
            if pa < TWO56 then Some(Translation(pa + va % 4096, perms.(device := false))) else None
  {
    hide Leaf, Ppn, PermsOf, IsLeaf, Decoded, PageAligned;
    LeafPage(pa, perms);
    DecodedLeaf(pa, perms, va);
    PageField(pa, Leaf(pa, perms).value);
    if pa < TWO56 {
      Reduced(pa);
    }
  }

  lemma LeafPage(pa: u64, perms: Permissions)
    requires Leaf(pa, perms).Ok?
    ensures PageAligned(pa) && Leaf(pa, perms).value / 1024 == pa / 4096
  {
    LeafBits(pa, perms);
  }

  lemma Reduced(pa: nat)
    requires pa < TWO56
    ensures pa % TWO56 == pa
  {
  }

  /** The leaf of a history is the word built for the request that covers the address. */
  lemma HistoryLeaf(st: ArenaState, qs: seq<Request>, va: nat)
    requires Fresh(st)
    ensures var q := Covering(Accepted(st, qs), va);
            Seen(WordFor(After(st, qs), va), va) ==
            if q.Some? && q.value.pa < TWO56
            then Some(Translation(q.value.pa + va % 4096, q.value.perms.(device := false))) else None
  {
    hide Covering, Accepted, WordFor, Leaf, After;
    FreshIsTree(st);
    FreshHoldsNothing(st, va);
    HistoryWord(st, [Root], qs, va);
    var q := Covering(Accepted(st, qs), va);
    if q.Some? {
      SeenLeaf(q.value.pa, q.value.perms, va);
    }
  }
}
