/**
 The hardware tables refine the simple page table: run side by side on the same
 accepted requests, the walk and the lookup agree at every address.
 */
module Refinement {
  import opened Base
  import opened Sv39
  import opened Memory
  import opened Paging
  import opened PagingTree
  import opened AddressSpaces

  /** A `map` call made on both: the simple table takes the frame, the arena its base. */
  datatype Call = Call(vpage: nat, frame: Frame, perms: Permissions)

  /** Calls the hardware format has room for. */
  predicate Representable(c: Call) { c.vpage < TWO39 && c.frame.base < TWO56 }

  function SimpleStep(t: PageTable, c: Call): MapOutcome { Map(t, c.vpage, c.frame, c.perms) }

  function ArenaStep(st: ArenaState, c: Call): (m: (ArenaState, Result<(), MapError>))
    requires Closed(st)
    ensures Closed(m.0)
  {
    MapPage(st, c.vpage, c.frame.base, c.perms)
  }

  /** What a simple mapping means to a walk at `v`: the device flag is not in an entry. */
  function Seen(m: Option<Mapping>, v: nat): Option<Translation> {
    if m.None? then None
    else Some(Translation(m.value.frame + v % PAGE_SIZE, m.value.perms.(device := false)))
  }

  ghost predicate Agree(t: PageTable, st: ArenaState)
    requires Closed(st)
  {
    forall v: nat | v < TWO39 :: Translate(st, v) == Seen(Lookup(t, v), v)
  }

  lemma LookupAfterMap(t: PageTable, c: Call, v: nat)
    requires SimpleStep(t, c).result.Ok?
    ensures Lookup(SimpleStep(t, c).table, v) ==
            if PageBase(v) == c.vpage then Some(Mapping(c.vpage, c.frame.base, c.perms)) else Lookup(t, v)
  {
    var slot := EmptySlot(t.entries);
    var entries := SimpleStep(t, c).table.entries;
    if PageBase(v) == c.vpage {
      SlotUnique(entries, v, slot);
    } else {
      var i := SlotOf(t.entries, v);
      SlotUnique(entries, v, i);
    }
  }

  /** One call accepted by both keeps the two in agreement. */
  lemma StepAgrees(t: PageTable, st: ArenaState, labels: seq<Path>, c: Call)
    requires Tree(st, labels) && Agree(t, st) && Representable(c)
    requires SimpleStep(t, c).result.Ok? && ArenaStep(st, c).1.Ok?
    ensures Agree(SimpleStep(t, c).table, ArenaStep(st, c).0)
  {
    hide MapPage, Lookup, Map, SamePage, Translate;
    var labels' := MapPageIsPointUpdate(st, labels, c.vpage, c.frame.base, c.perms);
    forall v: nat | v < TWO39
      ensures Translate(ArenaStep(st, c).0, v) == Seen(Lookup(SimpleStep(t, c).table, v), v)
    {
      AcceptedCall(t, c);
      LookupAfterMap(t, c, v);
      SamePageBelow39(v, c.vpage);
      assert Translate(st, v) == Seen(Lookup(t, v), v);
    }
  }

  lemma AcceptedCall(t: PageTable, c: Call)
    requires SimpleStep(t, c).result.Ok?
    ensures PageAligned(c.vpage) && PageAligned(c.frame.base)
    ensures ValidatePerms(c.perms).Ok?
    ensures Lookup(t, c.vpage).None?
  {
  }

  /**
   Whatever the simple table accepts, the arena accepts too, as long as the
   permissions are ones an entry can hold (W implies R) and tables remain: the
   only refusal left is `OutOfTables`, exactly when the path does not fit.
   */
  lemma ArenaAcceptsWhatSimpleDoes(t: PageTable, st: ArenaState, labels: seq<Path>, c: Call)
    requires Tree(st, labels) && Agree(t, st) && Representable(c)
    requires SimpleStep(t, c).result.Ok?
    ensures ArenaStep(st, c).1 ==
            if c.perms.write && !c.perms.read then Err(PteRejected(WriteWithoutRead))
            else if st.used + Needed(st, c.vpage) > |st.tables| then Err(OutOfTables)
            else Ok(())
  {
    hide MapPage, Lookup, Map, Translate;
    MapPageOutcome(st, labels, c.vpage, c.frame.base, c.perms);
    AcceptedCall(t, c);
    assert Translate(st, c.vpage) == Seen(Lookup(t, c.vpage), c.vpage);
  }

  /** Both accept every call of the history, one after the other. */
  predicate BothAccept(t: PageTable, st: ArenaState, cs: seq<Call>)
    requires Closed(st)
    decreases |cs|
  {
    cs == [] ||
    (&& SimpleStep(t, cs[0]).result.Ok? && ArenaStep(st, cs[0]).1.Ok?
     && BothAccept(SimpleStep(t, cs[0]).table, ArenaStep(st, cs[0]).0, cs[1..]))
  }

  function SimpleRun(t: PageTable, cs: seq<Call>): PageTable
    decreases |cs|
  {
    if cs == [] then t else SimpleRun(SimpleStep(t, cs[0]).table, cs[1..])
  }

  function ArenaRun(st: ArenaState, cs: seq<Call>): (st': ArenaState)
    requires Closed(st)
    ensures Closed(st')
    decreases |cs|
  {
    if cs == [] then st else ArenaRun(ArenaStep(st, cs[0]).0, cs[1..])
  }

  lemma {:induction false} RunAgrees(t: PageTable, st: ArenaState, labels: seq<Path>, cs: seq<Call>)
    requires Tree(st, labels) && Agree(t, st) && BothAccept(t, st, cs)
    requires forall c | c in cs :: Representable(c)
    ensures Agree(SimpleRun(t, cs), ArenaRun(st, cs))
    decreases |cs|
  {
    hide Agree, ArenaStep, SimpleStep;
    if cs != [] {
      StepAgrees(t, st, labels, cs[0]);
      var labels' := ArenaStepIsTree(st, labels, cs[0]);
      RunAgrees(SimpleStep(t, cs[0]).table, ArenaStep(st, cs[0]).0, labels', cs[1..]);
    }
  }

  lemma ArenaStepIsTree(st: ArenaState, labels: seq<Path>, c: Call) returns (labels': seq<Path>)
    requires Tree(st, labels)
    ensures Tree(ArenaStep(st, c).0, labels')
  {
    labels' := MapPageIsPointUpdate(st, labels, c.vpage, c.frame.base, c.perms);
  }

  /**
   The simulation: from an empty table and a fresh arena, after any history of
   calls both accept, lookup and walk agree at every address below 2^39, up to
   the device flag.
   */
  lemma Simulation(owner: nat, st: ArenaState, cs: seq<Call>, v: nat)
    requires Fresh(st) && BothAccept(NewTable(owner), st, cs)
    requires (forall c | c in cs :: Representable(c)) && v < TWO39
    ensures Translate(ArenaRun(st, cs), v) == Seen(Lookup(SimpleRun(NewTable(owner), cs), v), v)
  {
    FreshIsTree(st);
    var t := NewTable(owner);
    forall w: nat | w < TWO39
      ensures Translate(st, w) == Seen(Lookup(t, w), w)
    {
      SlotUnique(t.entries, w, MAX_MAPPINGS);
    }
    RunAgrees(t, st, [Root], cs);
  }
}
