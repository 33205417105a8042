/**
 The address space of a service task: the kernel regions (U=0) plus the user
 text, user rodata and one stack page. Linker symbols are parameters.
 */
module AddressSpaces {
  import opened Base
  import opened Sv39
  import opened Paging
  import opened PagingTree
  import opened PagingHistory
  import opened PagingArena
  import opened PagingFit
  import opened HardwareWalk

  const UART_PAGE: nat := 0x1000_0000
  const VIRTIO_MMIO0_PAGE: nat := 0x1000_1000
  const USER_CODE_VA: nat := 0x1_0000
  const USER_STACK_VA: nat := 0x20_0000

  datatype Span = Span(start: nat, end: nat)

  /** The linker places every section below 2^39, in order. */
  predicate Placed(s: Span) { s.start <= s.end <= TWO39 }

  datatype KernelRegions = KernelRegions(text: Span, rodata: Span, data: Span)
  datatype UserRegion = UserRegion(text: Span, rodata: Span)

  predicate KernelPlaced(r: KernelRegions) { Placed(r.text) && Placed(r.rodata) && Placed(r.data) }

  predicate UserPlaced(u: UserRegion) {
    && Placed(u.text) && Placed(u.rodata) && u.text.start <= u.rodata.start
    && USER_CODE_VA + (u.rodata.end - u.text.start) <= TWO39 - PAGE_SIZE
    && USER_CODE_VA + (u.text.end - u.text.start) <= TWO39 - PAGE_SIZE
  }

  const KernelRx := Permissions(true, false, true, false, false)
  const KernelR := Permissions(true, false, false, false, false)
  const KernelRw := Permissions(true, true, false, false, false)
  const KernelDevice := Permissions(true, true, false, false, true)
  const UserRx := Permissions(true, false, true, true, false)
  const UserR := Permissions(true, false, false, true, false)
  const UserRw := Permissions(true, true, false, true, false)

  function KernelRequests(r: KernelRegions): seq<Request>
    requires KernelPlaced(r)
  {
    Pages(r.text.start, r.text.start, r.text.end, KernelRx)
    + Pages(r.rodata.start, r.rodata.start, r.rodata.end, KernelR)
    + Pages(r.data.start, r.data.start, r.data.end, KernelRw)
    + Pages(UART_PAGE, UART_PAGE, UART_PAGE + PAGE_SIZE, KernelDevice)
    + Pages(VIRTIO_MMIO0_PAGE, VIRTIO_MMIO0_PAGE, VIRTIO_MMIO0_PAGE + PAGE_SIZE, KernelDevice)
  }

  function TextRequests(u: UserRegion): seq<Request>
    requires UserPlaced(u)
  {
    Pages(USER_CODE_VA, u.text.start, u.text.end, UserRx)
  }

  function RodataRequests(u: UserRegion): seq<Request>
    requires UserPlaced(u)
  {
    Pages(RodataVa(u), u.rodata.start, u.rodata.end, UserR)
  }

  function StackRequest(stackPhys: u64): Request {
    Request(USER_STACK_VA, stackPhys - stackPhys % PAGE_SIZE, UserRw)
  }

  function ServiceRequests(r: KernelRegions, u: UserRegion, stackPhys: u64): seq<Request>
    requires KernelPlaced(r) && UserPlaced(u)
  {
    KernelRequests(r) + TextRequests(u) + RodataRequests(u) + [StackRequest(stackPhys)]
  }

  // ---- What a sequence of successful maps amounts to ------------------------

  lemma {:induction false} AcceptedIsAligned(st: ArenaState, qs: seq<Request>, j: nat)
    requires Closed(st) && AllAccepted(st, qs) && j < |qs|
    ensures PageAligned(qs[j].va)
    decreases |qs|
  {
    if j > 0 {
      AcceptedIsAligned(Apply(st, qs[0]).0, qs[1..], j - 1);
    }
  }

  lemma {:induction false} CoveringFound(qs: seq<Request>, v: nat)
    ensures Covering(qs, v).Some? ==> Covering(qs, v).value in qs && SamePage(v, Covering(qs, v).value.va)
    decreases |qs|
  {
    if qs != [] {
      CoveringFound(qs[1..], v);
    }
  }

  lemma {:induction false} CoveringExists(qs: seq<Request>, v: nat, j: nat)
    requires j < |qs| && SamePage(v, qs[j].va)
    ensures Covering(qs, v).Some?
    decreases |qs|
  {
    if j > 0 {
      CoveringExists(qs[1..], v, j - 1);
    }
  }

  /** Requests that were all accepted cover each address at most once. */
  lemma {:induction false} CoveringIsUnique(st: ArenaState, labels: seq<Path>, qs: seq<Request>, v: nat, j: nat)
    requires Tree(st, labels) && AllAccepted(st, qs) && j < |qs| && SamePage(v, qs[j].va)
    ensures Covering(qs, v) == Some(qs[j])
    decreases |qs|
  {
    if j > 0 {
      var labels' := MapPageIsPointUpdate(st, labels, qs[0].va, qs[0].pa, qs[0].perms);
      var st1 := Apply(st, qs[0]).0;
      if SamePage(v, qs[0].va) {
        CoveringExists(qs[1..], v, j - 1);
        AllAcceptedAre(st1, qs[1..]);
        MappedIsFinal(st1, labels', qs[1..], v);
      } else {
        CoveringIsUnique(st1, labels', qs[1..], v, j - 1);
      }
    }
  }

  lemma CoveringIs(st: ArenaState, qs: seq<Request>, v: nat, q: Request)
    requires Fresh(st) && AllAccepted(st, qs) && q in qs && SamePage(v, q.va)
    ensures Covering(qs, v) == Some(q)
  {
    FreshIsTree(st);
    var j :| 0 <= j < |qs| && qs[j] == q;
    CoveringIsUnique(st, [Root], qs, v, j);
  }

  lemma AcceptedMeaning(st: ArenaState, qs: seq<Request>, v: nat)
    requires Fresh(st) && AllAccepted(st, qs)
    ensures Translate(After(st, qs), v) == Meaning(Covering(qs, v), v)
  {
    hide Apply, After, Accepted, AllAccepted, Covering, Translate;
    HistoryIsFiniteMap(st, qs, v);
    AllAcceptedAre(st, qs);
  }

  /** When every request is accepted, a request decides how its whole page translates. */
  lemma MappedAsRequested(st: ArenaState, qs: seq<Request>, v: nat, q: Request)
    requires Fresh(st) && AllAccepted(st, qs) && q in qs && SamePage(v, q.va)
    ensures Translate(After(st, qs), v) == Some(Granted(q.pa, q.perms, v))
  {
    CoveringIs(st, qs, v, q);
    AcceptedMeaning(st, qs, v);
  }

  lemma InSeqAt(qs: seq<Request>, q: Request) returns (j: nat)
    requires q in qs
    ensures j < |qs| && qs[j] == q
  {
    j :| j < |qs| && qs[j] == q;
  }

  /** When every request is accepted, nothing else translates. */
  lemma MappedOnlyAsRequested(st: ArenaState, qs: seq<Request>, v: nat)
    requires Fresh(st) && AllAccepted(st, qs) && Translate(After(st, qs), v).Some?
    ensures Covering(qs, v).Some?
    ensures Covering(qs, v).value in qs
    ensures PageAligned(Covering(qs, v).value.va) && SamePage(v, Covering(qs, v).value.va)
    ensures Translate(After(st, qs), v) == Meaning(Covering(qs, v), v)
  {
    hide Apply, After, Accepted, AllAccepted, SamePage, Translate;
    AcceptedMeaning(st, qs, v);
    CoveringFound(qs, v);
    var j := InSeqAt(qs, Covering(qs, v).value);
    AcceptedIsAligned(st, qs, j);
  }

  // ---- The service address space --------------------------------------------

  /** The VPN triple is the page number in base 512. */
  lemma VpnDigits(v: nat)
    ensures Vpn(v, 0) == v / 4096 % 512
    ensures Vpn(v, 1) == v / 4096 / 512 % 512
    ensures Vpn(v, 2) == v / 4096 / 512 / 512 % 512
  {
  }

  lemma PageDigits(p: nat)
    requires p < 0x800_0000
    ensures p == (p / 512 / 512 % 512) * 0x4_0000 + (p / 512 % 512) * 512 + p % 512
  {
    assert p / 512 / 512 < 512;
  }

  /** Below 2^39 the VPN triple determines the page. */
  lemma SamePageBelow39(v: nat, w: nat)
    requires v < TWO39 && w < TWO39 && PageAligned(w)
    ensures SamePage(v, w) <==> PageBase(v) == w
  {
    VpnDigits(v);
    VpnDigits(w);
    var p, q := v / 4096, w / 4096;
    assert p < 0x800_0000 && q < 0x800_0000;
    PageDigits(p);
    PageDigits(q);
    assert PageBase(v) == p * 4096 && w == q * 4096;
  }

  /** From 2^39 on the walk repeats: an address translates as its low 39 bits do. */
  lemma WalkRepeats(st: ArenaState, v: nat)
    requires Closed(st)
    ensures Vpn(v + TWO39, 0) == Vpn(v, 0) && Vpn(v + TWO39, 1) == Vpn(v, 1) && Vpn(v + TWO39, 2) == Vpn(v, 2)
    ensures SamePage(v, v % TWO39) && Translate(st, v) == Translate(st, v % TWO39)
  {
    hide LeafAt;
    LowDigits(v, v / TWO39, v % TWO39);
    LowDigits(v + TWO39, v / TWO39 + 1, v % TWO39);
  }

  lemma LowDigits(v: nat, high: nat, low: nat)
    requires v == high * TWO39 + low && low < TWO39
    ensures Vpn(v, 0) == Vpn(low, 0) && Vpn(v, 1) == Vpn(low, 1) && Vpn(v, 2) == Vpn(low, 2)
    ensures v % PAGE_SIZE == low % PAGE_SIZE
  {
    assert v / 0x1000 == high * 0x800_0000 + low / 0x1000;
    assert v / 0x20_0000 == high * 0x4_0000 + low / 0x20_0000;
    assert v / 0x4000_0000 == high * 0x200 + low / 0x4000_0000;
    Congruent(low / 0x1000, high * 0x4_0000);
    Congruent(low / 0x20_0000, high * 0x200);
    Congruent(low / 0x4000_0000, high);
    assert v == low + (high * 0x800_0000) * 0x1000;
  }

  lemma Congruent(x: nat, k: nat)
    ensures (k * 512 + x) % 512 == x % 512
  {
  }

  /** Of two accepted requests for one page there is only one. */
  lemma AcceptedOnce(st: ArenaState, labels: seq<Path>, qs: seq<Request>, i: nat, j: nat)
    requires Tree(st, labels) && AllAccepted(st, qs) && i < |qs| && j < |qs| && SamePage(qs[i].va, qs[j].va)
    ensures qs[i] == qs[j]
  {
    hide AllAccepted, Covering;
    CoveringIsUnique(st, labels, qs, qs[i].va, i);
    CoveringIsUnique(st, labels, qs, qs[i].va, j);
  }

  /**
   An identity range that reaches the last page of the 64-bit space, taken on from
   address 0 where its counter wraps, always ends in an error: at the latest at the page
   that repeats its first one.
   */
  lemma WrappedRangeFails(st: ArenaState, labels: seq<Path>, start: u64, end: u64, perms: Permissions)
    requires Tree(st, labels) && start < end && end > TWO64 - PAGE_SIZE
    ensures MapAll(st, Wrapped(start, end, perms)).1.Err?
  {
    hide MapAll, AllAccepted, Translate, SamePage, Pages;
    var qs := Wrapped(start, end, perms);
    MapAllOk(st, qs);
    if AllAccepted(st, qs) {
      PageAt(start, start, end, perms, 0);
      AcceptedIsAligned(st, qs, 0);
      var j := FirstPageRepeats(start, end, perms);
      AcceptedOnce(st, labels, qs, 0, j);
    }
  }

  /** The requests of a range whose counter wraps, up to the page that repeats the first. */
  function Wrapped(start: u64, end: u64, perms: Permissions): seq<Request> {
    Pages(start, start, end, perms) + Pages(0, 0, start % TWO39 + PAGE_SIZE, perms)
  }

  lemma FirstPageRepeats(start: u64, end: u64, perms: Permissions) returns (j: nat)
    requires PageAligned(start) && start < end && end > TWO64 - PAGE_SIZE
    ensures 0 < j < |Wrapped(start, end, perms)|
    ensures var qs := Wrapped(start, end, perms); SamePage(qs[0].va, qs[j].va) && qs[0] != qs[j]
  {
    hide SamePage, Pages;
    var low := start % TWO39;
    var first, second := Pages(start, start, end, perms), Pages(0, 0, low + PAGE_SIZE, perms);
    PageAt(start, start, end, perms, 0);
    if start == low {
      j := 0x800_0000;
      PageAt(start, start, end, perms, j);
      Repeats(start, start + TWO39);
    } else {
      AlignedLow(start);
      PageAt(0, 0, low + PAGE_SIZE, perms, low / PAGE_SIZE);
      j := |first| + low / PAGE_SIZE;
      Repeats(start, low);
    }
  }

  lemma AlignedLow(v: nat)
    requires PageAligned(v)
    ensures PageAligned(v % TWO39) && v % TWO39 / PAGE_SIZE * PAGE_SIZE == v % TWO39
  {
    LowDigits(v, v / TWO39, v % TWO39);
  }

  lemma Repeats(v: nat, w: nat)
    requires v % TWO39 == w % TWO39
    ensures SamePage(v, w) && SamePage(w, v)
  {
    LowDigits(v, v / TWO39, v % TWO39);
    LowDigits(w, w / TWO39, w % TWO39);
  }

  /** `v` lies in a page of the loop over `span` that starts at address `base`. */
  predicate InMapped(v: nat, base: nat, span: Span) {
    base <= PageBase(v) && span.start + (PageBase(v) - base) < span.end
  }

  /** The request a page loop makes for the page of `v`. */
  function RequestFor(v: nat, base: nat, span: Span, perms: Permissions): Request
    requires Placed(span) && InMapped(v, base, span)
  {
    Request(PageBase(v), span.start + (PageBase(v) - base), perms)
  }

  lemma PagesInclude(v: nat, base: nat, span: Span, perms: Permissions)
    requires v < TWO39 && Placed(span) && PageAligned(base) && InMapped(v, base, span)
    ensures RequestFor(v, base, span, perms) in Pages(base, span.start, span.end, perms)
  {
    hide SamePage;
    var qs := Pages(base, span.start, span.end, perms);
    var j := (PageBase(v) - base) / PAGE_SIZE;
    assert j * PAGE_SIZE == PageBase(v) - base;
    assert qs[j] == RequestFor(v, base, span, perms);
  }

  lemma PagesOnly(v: nat, base: nat, span: Span, perms: Permissions, q: Request)
    requires v < TWO39 && Placed(span) && base + (span.end - span.start) <= TWO39 - PAGE_SIZE
    requires q in Pages(base, span.start, span.end, perms) && PageAligned(q.va) && SamePage(v, q.va)
    ensures PageAligned(base) && InMapped(v, base, span) && q == RequestFor(v, base, span, perms)
  {
    hide SamePage;
    var qs := Pages(base, span.start, span.end, perms);
    var j := InSeqAt(qs, q);
    assert q == Request(base + j * PAGE_SIZE, span.start + j * PAGE_SIZE, perms);
    SamePageBelow39(v, q.va);
    assert PageBase(v) == base + j * PAGE_SIZE;
  }

  function RodataVa(u: UserRegion): nat
    requires UserPlaced(u)
  {
    USER_CODE_VA + (u.rodata.start - u.text.start)
  }

  /** The pages a service owns: its text, its rodata, its stack page. */
  predicate UserPage(u: UserRegion, v: nat)
    requires UserPlaced(u)
  {
    InMapped(v, USER_CODE_VA, u.text) || InMapped(v, RodataVa(u), u.rodata) || PageBase(v) == USER_STACK_VA
  }

  /** Every request of a service space is write-xor-execute. */
  lemma RequestsAreWxorX(r: KernelRegions, u: UserRegion, stackPhys: u64, q: Request)
    requires KernelPlaced(r) && UserPlaced(u) && q in ServiceRequests(r, u, stackPhys)
    ensures !(q.perms.write && q.perms.execute)
    ensures q.perms.user ==> q in TextRequests(u) || q in RodataRequests(u) || q == StackRequest(stackPhys)
  {
  }

  /** The own pages of a service, each onto its own frame. */
  lemma OwnPages(st: ArenaState, r: KernelRegions, u: UserRegion, stackPhys: u64, v: nat)
    requires Fresh(st) && KernelPlaced(r) && UserPlaced(u) && v < TWO39
    requires AllAccepted(st, ServiceRequests(r, u, stackPhys))
    ensures var t := Translate(After(st, ServiceRequests(r, u, stackPhys)), v);
            && (InMapped(v, USER_CODE_VA, u.text) ==>
                  t == Some(Translation(u.text.start + (v - USER_CODE_VA), UserRx)))
            && (InMapped(v, RodataVa(u), u.rodata) ==>
                  t == Some(Translation(u.rodata.start + (v - RodataVa(u)), UserR)))
            && (PageBase(v) == USER_STACK_VA ==>
                  t == Some(Translation(PageBase(stackPhys) % TWO56 + v % PAGE_SIZE, UserRw)))
  {
    hide Apply, After, AllAccepted, Translate, Covering, SamePage, Pages;
    var qs := ServiceRequests(r, u, stackPhys);
    if InMapped(v, USER_CODE_VA, u.text) {
      var q := RequestFor(v, USER_CODE_VA, u.text, UserRx);
      PagesInclude(v, USER_CODE_VA, u.text, UserRx);
      SamePageBelow39(v, q.va);
      MappedAsRequested(st, qs, v, q);
    }
    if InMapped(v, RodataVa(u), u.rodata) {
      var q := RequestFor(v, RodataVa(u), u.rodata, UserR);
      RodataIsAligned(st, r, u, stackPhys);
      PagesInclude(v, RodataVa(u), u.rodata, UserR);
      SamePageBelow39(v, q.va);
      MappedAsRequested(st, qs, v, q);
    }
    if PageBase(v) == USER_STACK_VA {
      SamePageBelow39(v, USER_STACK_VA);
      MappedAsRequested(st, qs, v, StackRequest(stackPhys));
    }
  }

  /** A rodata section that was mapped starts on a page of the user window. */
  lemma RodataIsAligned(st: ArenaState, r: KernelRegions, u: UserRegion, stackPhys: u64)
    requires Fresh(st) && KernelPlaced(r) && UserPlaced(u)
    requires AllAccepted(st, ServiceRequests(r, u, stackPhys))
    ensures u.rodata.start < u.rodata.end ==> PageAligned(RodataVa(u))
  {
    hide Apply, After, AllAccepted;
    if u.rodata.start < u.rodata.end {
      var qs := ServiceRequests(r, u, stackPhys);
      PagesStep(RodataVa(u), u.rodata.start, u.rodata.end, UserR);
      assert RodataRequests(u)[0] in qs;
      var j := InSeqAt(qs, RodataRequests(u)[0]);
      AcceptedIsAligned(st, qs, j);
    }
  }

  /** No other page carries U, and no page at all is both writable and executable. */
  lemma OnlyOwnPages(st: ArenaState, r: KernelRegions, u: UserRegion, stackPhys: u64, v: nat)
    requires Fresh(st) && KernelPlaced(r) && UserPlaced(u) && v < TWO39
    requires AllAccepted(st, ServiceRequests(r, u, stackPhys))
    ensures var t := Translate(After(st, ServiceRequests(r, u, stackPhys)), v);
            t.Some? ==> (t.value.perms.user ==> UserPage(u, v)) && !(t.value.perms.write && t.value.perms.execute)
  {
    hide Apply, After, AllAccepted, Translate, Covering, SamePage, Pages;
    var qs := ServiceRequests(r, u, stackPhys);
    if Translate(After(st, qs), v).Some? {
      MappedOnlyAsRequested(st, qs, v);
      var q := Covering(qs, v).value;
      RequestsAreWxorX(r, u, stackPhys, q);
      if q in TextRequests(u) {
        PagesOnly(v, USER_CODE_VA, u.text, UserRx, q);
      } else if q in RodataRequests(u) {
        PagesOnly(v, RodataVa(u), u.rodata, UserR, q);
      } else if q == StackRequest(stackPhys) {
        SamePageBelow39(v, USER_STACK_VA);
      }
    }
  }

  /** A region mapped onto itself, in full, with its own accesses. */
  lemma OwnRegion(st: ArenaState, qs: seq<Request>, v: nat, span: Span, perms: Permissions)
    requires Fresh(st) && AllAccepted(st, qs) && v < TWO39 && Placed(span) && InMapped(v, span.start, span)
    requires forall q | q in Pages(span.start, span.start, span.end, perms) :: q in qs
    ensures Translate(After(st, qs), v) == Some(Translation(v, perms.(device := false)))
  {
    hide Apply, After, AllAccepted, Translate, Covering, SamePage, Pages;
    PagesStep(span.start, span.start, span.end, perms);
    var j := InSeqAt(qs, Pages(span.start, span.start, span.end, perms)[0]);
    AcceptedIsAligned(st, qs, j);
    var q := RequestFor(v, span.start, span, perms);
    PagesInclude(v, span.start, span, perms);
    SamePageBelow39(v, q.va);
    MappedAsRequested(st, qs, v, q);
  }

  /** The kernel's own pages, as seen at `v`: onto themselves, with the accesses of their region and without U. */
  predicate KernelLaidOut(r: KernelRegions, v: nat, t: Option<Translation>) {
    && (InMapped(v, r.text.start, r.text) ==> t == Some(Translation(v, Permissions(true, false, true, false, false))))
    && (InMapped(v, r.rodata.start, r.rodata) ==> t == Some(Translation(v, Permissions(true, false, false, false, false))))
    && (InMapped(v, r.data.start, r.data) ==> t == Some(Translation(v, Permissions(true, true, false, false, false))))
    && (PageBase(v) in {0x1000_0000, 0x1000_1000} ==> t == Some(Translation(v, Permissions(true, true, false, false, false))))
  }

  lemma KernelPages(st: ArenaState, r: KernelRegions, u: UserRegion, stackPhys: u64, v: nat)
    requires Fresh(st) && KernelPlaced(r) && UserPlaced(u) && v < TWO39
    requires AllAccepted(st, ServiceRequests(r, u, stackPhys))
    ensures KernelLaidOut(r, v, Translate(After(st, ServiceRequests(r, u, stackPhys)), v))
  {
    hide Apply, After, AllAccepted, Translate, Covering, SamePage, Pages;
    var qs := ServiceRequests(r, u, stackPhys);
    if InMapped(v, r.text.start, r.text) {
      OwnRegion(st, qs, v, r.text, KernelRx);
    }
    if InMapped(v, r.rodata.start, r.rodata) {
      OwnRegion(st, qs, v, r.rodata, KernelR);
    }
    if InMapped(v, r.data.start, r.data) {
      OwnRegion(st, qs, v, r.data, KernelRw);
    }
    if PageBase(v) == UART_PAGE {
      OwnRegion(st, qs, v, Span(UART_PAGE, UART_PAGE + PAGE_SIZE), KernelDevice);
    }
    if PageBase(v) == VIRTIO_MMIO0_PAGE {
      OwnRegion(st, qs, v, Span(VIRTIO_MMIO0_PAGE, VIRTIO_MMIO0_PAGE + PAGE_SIZE), KernelDevice);
    }
  }

  /** The service space as seen at `v`: whose page it is, where it leads, with what accesses. */
  predicate AsLaidOut(u: UserRegion, stackPhys: u64, v: nat, t: Option<Translation>)
    requires UserPlaced(u)
  {
    && (t.Some? && t.value.perms.user <==>
          InMapped(v, 0x1_0000, u.text) || InMapped(v, RodataVa(u), u.rodata) || PageBase(v) == 0x20_0000)
    && (t.Some? ==> !(t.value.perms.write && t.value.perms.execute))
    && (InMapped(v, 0x1_0000, u.text) ==>
          t == Some(Translation(u.text.start + (v - 0x1_0000), Permissions(true, false, true, true, false))))
    && (InMapped(v, RodataVa(u), u.rodata) ==>
          t == Some(Translation(u.rodata.start + (v - RodataVa(u)), Permissions(true, false, false, true, false))))
    && (PageBase(v) == 0x20_0000 ==>
          t == Some(Translation(PageBase(stackPhys) % TWO56 + v % PAGE_SIZE, Permissions(true, true, false, true, false))))
  }

  /**
   A service space, at every address: it is built without error exactly if its requests
   are aligned, for different pages and fit the tables; and then a page carries U exactly
   when it is one of the service's own, text pages are R+X onto the linked text, rodata
   pages R onto the linked rodata, the stack page R+W onto its frame, the kernel's
   regions are mapped onto themselves each with its own accesses, and no page at all
   is both writable and executable. Only the low 39 bits of an address count.
   */
  lemma ServiceSpace(st: ArenaState, r: KernelRegions, u: UserRegion, stackPhys: u64, v: nat)
    requires Fresh(st) && KernelPlaced(r) && UserPlaced(u)
    ensures MapAll(st, ServiceRequests(r, u, stackPhys)).1.Ok? <==> Fits(|st.tables|, ServiceRequests(r, u, stackPhys))
    ensures Fits(|st.tables|, ServiceRequests(r, u, stackPhys)) ==>
              && AsLaidOut(u, stackPhys, v % TWO39, Translate(MapAll(st, ServiceRequests(r, u, stackPhys)).0, v))
              && KernelLaidOut(r, v % TWO39, Translate(MapAll(st, ServiceRequests(r, u, stackPhys)).0, v))
  {
    hide Apply, After, AllAccepted, MapAll, Translate, ServiceRequests, InMapped, Fits, KernelLaidOut;
    var qs := ServiceRequests(r, u, stackPhys);
    MapAllOk(st, qs);
    AcceptedIffFits(st, qs);
    if Fits(|st.tables|, qs) {
      OwnPages(st, r, u, stackPhys, v % TWO39);
      OnlyOwnPages(st, r, u, stackPhys, v % TWO39);
      KernelPages(st, r, u, stackPhys, v % TWO39);
      WalkRepeats(MapAll(st, qs).0, v);
    }
  }

  lemma RequestsFit(r: KernelRegions, u: UserRegion, stackPhys: u64, q: Request)
    requires KernelPlaced(r) && UserPlaced(u) && q in ServiceRequests(r, u, stackPhys) && stackPhys < TWO56
    ensures q.pa < TWO56
  {
  }

  /**
   The processor sees the service space as laid out: at every address of the lower half
   it translates as `translate` does, provided the stack frame has a 56-bit address.
   */
  lemma HardwareSeesServiceSpace(st: ArenaState, r: KernelRegions, u: UserRegion, stackPhys: u64, v: nat)
    requires Fresh(st) && KernelPlaced(r) && UserPlaced(u) && stackPhys < TWO56 && v < 0x40_0000_0000
    requires Fits(|st.tables|, ServiceRequests(r, u, stackPhys))
    ensures var space := MapAll(st, ServiceRequests(r, u, stackPhys)).0;
            HardwareWalk.HardwareWalk(space, v) == Translate(space, v)
  {
    hide Apply, After, AllAccepted, MapAll, Translate, ServiceRequests, Fits, HardwareWalk.HardwareWalk, Covering, Accepted;
    var qs := ServiceRequests(r, u, stackPhys);
    AcceptedIffFits(st, qs);
    MapAllOk(st, qs);
    HardwareSeesHistory(st, qs, v);
    AllAcceptedAre(st, qs);
    AcceptedMeaning(st, qs, v);
    CoveringFound(qs, v);
    if Covering(qs, v).Some? {
      RequestsFit(r, u, stackPhys, Covering(qs, v).value);
      Reduced(Covering(qs, v).value.pa);
    }
  }

  // ---- The builders ---------------------------------------------------------

  /** Where a build stands after `qs`: all accepted and in the arena, or panicked on one of them. */
  ghost predicate Built(arena: Arena, st: ArenaState, qs: seq<Request>, alive: bool)
    reads arena, arena.tables
  {
    && Closed(st) && Closed(arena.State())
    && (if alive then MapAll(st, qs) == (arena.State(), Ok(())) else MapAll(st, qs).1.Err?)
  }

  lemma BuiltMore(st: ArenaState, st1: ArenaState, qs: seq<Request>, rs: seq<Request>, alive: bool)
    requires Closed(st) && Closed(st1)
    requires if alive then MapAll(st, qs) == (st1, Ok(())) else MapAll(st, qs).1.Err?
    ensures if alive then MapAll(st, qs + rs) == MapAll(st1, rs) else MapAll(st, qs + rs).1.Err?
  {
    MapAllSplits(st, qs, rs);
  }

  /** Map one more range; an error is the panic of the source's `expect`, after which nothing runs. */
  method Extend(arena: Arena, alive: bool, base: u64, span: Span, perms: Permissions,
                ghost st: ArenaState, ghost qs: seq<Request>)
    returns (alive': bool)
    requires Built(arena, st, qs, alive) && Placed(span) && base + (span.end - span.start) <= TWO64
    modifies arena, arena.tables
    ensures Built(arena, st, qs + Pages(base, span.start, span.end, perms), alive')
  {
    hide Closed, MapAll, Pages;
    BuiltMore(st, arena.State(), qs, Pages(base, span.start, span.end, perms), alive);
    if !alive {
      return false;
    }
    var r, _ := arena.MapRange(base, span.start, span.end, perms);
    alive' := r.Ok?;
    OkIsUnit(r);
  }

  /** Map the kernel regions, each with its own accesses. */
  method MapKernelRegions(arena: Arena, r: KernelRegions) returns (alive: bool)
    requires Closed(arena.State()) && KernelPlaced(r)
    modifies arena, arena.tables
    ensures Built(arena, old(arena.State()), KernelRequests(r), alive)
  {
    ghost var st := arena.State();
    assert MapAll(st, []) == (st, Ok(()));
    hide Closed, MapAll, Pages;
    ghost var qs := [];
    alive := Extend(arena, true, r.text.start, r.text, KernelRx, st, qs);
    qs := Pages(r.text.start, r.text.start, r.text.end, KernelRx);
    assert [] + qs == qs;
    alive := Extend(arena, alive, r.rodata.start, r.rodata, KernelR, st, qs);
    qs := qs + Pages(r.rodata.start, r.rodata.start, r.rodata.end, KernelR);
    alive := Extend(arena, alive, r.data.start, r.data, KernelRw, st, qs);
    qs := qs + Pages(r.data.start, r.data.start, r.data.end, KernelRw);
    alive := Extend(arena, alive, UART_PAGE, Span(UART_PAGE, UART_PAGE + PAGE_SIZE), KernelDevice, st, qs);
    qs := qs + Pages(UART_PAGE, UART_PAGE, UART_PAGE + PAGE_SIZE, KernelDevice);
    alive := Extend(arena, alive, VIRTIO_MMIO0_PAGE, Span(VIRTIO_MMIO0_PAGE, VIRTIO_MMIO0_PAGE + PAGE_SIZE),
                    KernelDevice, st, qs);
  }

  datatype UserAddressSpace = UserAddressSpace(root: nat, entryVa: nat, stackTopVa: nat)

  /**
   Build the address space of a service in `tables`. `None` is a panic of the
   source, exactly when the requests do not fit.
   */
  method BuildServiceAddressSpace(tables: array<Table>, basePa: nat, r: KernelRegions, u: UserRegion,
                                  entryKernelVa: nat, stackPhys: u64)
    returns (space: Option<UserAddressSpace>, arena: Arena)
    requires Fresh(ArenaState(tables[..], 1, basePa)) && KernelPlaced(r) && UserPlaced(u)
    requires u.text.start <= entryKernelVa
    modifies tables
    ensures fresh(arena) && arena.tables == tables
    ensures Built(arena, old(ArenaState(tables[..], 1, basePa)), ServiceRequests(r, u, stackPhys), space.Some?)
    ensures space.Some? <==> Fits(tables.Length, ServiceRequests(r, u, stackPhys))
    ensures space.Some? ==> forall v: nat ::
              && AsLaidOut(u, stackPhys, v % TWO39, Translate(arena.State(), v))
              && KernelLaidOut(r, v % TWO39, Translate(arena.State(), v))
    ensures space.Some? ==>
              space.value == UserAddressSpace(basePa, 0x1_0000 + (entryKernelVa - u.text.start), 0x20_1000)
  {
    hide MapAll, Pages, Fits, Translate, AsLaidOut, KernelLaidOut, KernelRequests;
    arena := new Arena(tables, basePa);
    ghost var st := arena.State();
    var alive := MapKernelRegions(arena, r);
    ghost var qs := KernelRequests(r);
    alive := Extend(arena, alive, USER_CODE_VA, u.text, UserRx, st, qs);
    qs := qs + TextRequests(u);
    alive := Extend(arena, alive, RodataVa(u), u.rodata, UserR, st, qs);
    qs := qs + RodataRequests(u);
    var q := StackRequest(stackPhys);
    BuiltMore(st, arena.State(), qs, [q], alive);
    if alive {
      MapAllSingle(arena.State(), q);
      var m := arena.MapPage(q.va, q.pa, q.perms);
      alive := m.Ok?;
      OkIsUnit(m);
    }
    forall v: nat
      ensures alive ==> AsLaidOut(u, stackPhys, v % TWO39, Translate(arena.State(), v))
                        && KernelLaidOut(r, v % TWO39, Translate(arena.State(), v))
    {
      ServiceSpace(st, r, u, stackPhys, v);
    }
    assert Fits(tables.Length, ServiceRequests(r, u, stackPhys)) <==> alive by {
      ServiceSpace(st, r, u, stackPhys, 0);
    }
    space := if alive then
      Some(UserAddressSpace(basePa, USER_CODE_VA + (entryKernelVa - u.text.start), USER_STACK_VA + PAGE_SIZE))
    else None;
  }

  lemma MapAllSingle(st: ArenaState, q: Request)
    requires Closed(st)
    ensures MapAll(st, [q]) == MapPage(st, q.va, q.pa, q.perms)
  {
    var m := MapPage(st, q.va, q.pa, q.perms);
    assert MapAll(m.0, [q][1..]) == (m.0, Ok(()));
    OkIsUnit(m.1);
  }
}
