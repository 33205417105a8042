/**
 Whole histories of `map_page` from a fresh arena: the arena is one finite map
 of the accepted requests, and its tables are counted exactly.
 */
module PagingHistory {
  import opened Base
  import opened Sv39
  import opened Paging
  import opened PagingTree

  datatype Request = Request(va: nat, pa: u64, perms: Permissions)

  function Apply(st: ArenaState, q: Request): (m: (ArenaState, Result<(), MapError>))
    requires Closed(st)
    ensures Closed(m.0)
  {
    MapPage(st, q.va, q.pa, q.perms)
  }

  /** The arena after a history of requests, whatever each of them returned. */
  function After(st: ArenaState, qs: seq<Request>): (st': ArenaState)
    requires Closed(st)
    ensures Closed(st')
    decreases |qs|
  {
    if qs == [] then st else After(Apply(st, qs[0]).0, qs[1..])
  }

  /** The requests of a history that `map_page` accepted. */
  function Accepted(st: ArenaState, qs: seq<Request>): seq<Request>
    requires Closed(st)
    decreases |qs|
  {
    if qs == [] then []
    else
      (if Apply(st, qs[0]).1.Ok? then [qs[0]] else []) + Accepted(Apply(st, qs[0]).0, qs[1..])
  }

  predicate AllAccepted(st: ArenaState, qs: seq<Request>)
    requires Closed(st)
    decreases |qs|
  {
    qs == [] || (Apply(st, qs[0]).1.Ok? && AllAccepted(Apply(st, qs[0]).0, qs[1..]))
  }

  lemma {:induction false} AllAcceptedAre(st: ArenaState, qs: seq<Request>)
    requires Closed(st) && AllAccepted(st, qs)
    ensures Accepted(st, qs) == qs
    decreases |qs|
  {
    hide Apply;
    if qs != [] {
      AllAcceptedAre(Apply(st, qs[0]).0, qs[1..]);
    }
  }

  /** The request covering `v`, if any. */
  function Covering(qs: seq<Request>, v: nat): Option<Request> {
    if qs == [] then None
    else if SamePage(v, qs[0].va) then Some(qs[0])
    else Covering(qs[1..], v)
  }

  function Meaning(q: Option<Request>, v: nat): Option<Translation> {
    if q.None? then None else Some(Granted(q.value.pa, q.value.perms, v))
  }

  lemma {:induction false} AfterIsTree(st: ArenaState, labels: seq<Path>, qs: seq<Request>) returns (labels': seq<Path>)
    requires Tree(st, labels)
    ensures Tree(After(st, qs), labels')
    decreases |qs|
  {
    labels' := labels;
    if qs != [] {
      labels' := StepIsTree(st, labels, qs[0]);
      labels' := AfterIsTree(Apply(st, qs[0]).0, labels', qs[1..]);
    }
  }

  /** A request for a page already mapped is refused, and any other leaves that page alone. */
  lemma TakenPageStays(st: ArenaState, labels: seq<Path>, q: Request, v: nat)
    requires Tree(st, labels) && Translate(st, v).Some?
    ensures Apply(st, q).1.Ok? ==> !SamePage(v, q.va)
    ensures Translate(Apply(st, q).0, v) == Translate(st, v)
  {
    MapPageOutcome(st, labels, q.va, q.pa, q.perms);
    var _ := MapPageIsPointUpdate(st, labels, q.va, q.pa, q.perms);
  }

  lemma StepIsTree(st: ArenaState, labels: seq<Path>, q: Request) returns (labels': seq<Path>)
    requires Tree(st, labels)
    ensures Tree(Apply(st, q).0, labels')
  {
    labels' := MapPageIsPointUpdate(st, labels, q.va, q.pa, q.perms);
  }

  lemma CoveringCons(q: Request, rest: seq<Request>, v: nat)
    ensures Covering([q] + rest, v) == if SamePage(v, q.va) then Some(q) else Covering(rest, v)
  {
    assert ([q] + rest)[1..] == rest;
  }

  /** A mapped page is never accepted again. */
  lemma {:induction false} MappedIsFinal(st: ArenaState, labels: seq<Path>, qs: seq<Request>, v: nat)
    requires Tree(st, labels) && Translate(st, v).Some?
    ensures Covering(Accepted(st, qs), v) == None
    ensures Translate(After(st, qs), v) == Translate(st, v)
    decreases |qs|
  {
    if qs != [] {
      TakenPageStays(st, labels, qs[0], v);
      var labels' := StepIsTree(st, labels, qs[0]);
      var st1 := Apply(st, qs[0]).0;
      MappedIsFinal(st1, labels', qs[1..], v);
      var rest := Accepted(st1, qs[1..]);
      if Apply(st, qs[0]).1.Ok? {
        CoveringCons(qs[0], rest, v);
      } else {
        assert [] + rest == rest;
      }
    }
  }

  lemma {:induction false} AfterTranslates(st: ArenaState, labels: seq<Path>, qs: seq<Request>, v: nat)
    requires Tree(st, labels)
    ensures Translate(After(st, qs), v) ==
            if Translate(st, v).Some? then Translate(st, v) else Meaning(Covering(Accepted(st, qs), v), v)
    decreases |qs|
  {
    if Translate(st, v).Some? {
      MappedIsFinal(st, labels, qs, v);
    } else if qs != [] {
      var q := qs[0];
      var labels' := MapPageIsPointUpdate(st, labels, q.va, q.pa, q.perms);
      var st1 := Apply(st, q).0;
      AfterTranslates(st1, labels', qs[1..], v);
      var rest := Accepted(st1, qs[1..]);
      if Apply(st, q).1.Ok? {
        CoveringCons(q, rest, v);
        if SamePage(v, q.va) {
          MappedIsFinal(st1, labels', qs[1..], v);
        }
      } else {
        assert [] + rest == rest;
      }
    }
  }

  /**
   From a fresh arena, for every history and every address: the walk finds
   exactly the accepted request covering the address.
   */
  lemma HistoryIsFiniteMap(st: ArenaState, qs: seq<Request>, v: nat)
    requires Fresh(st)
    ensures Translate(After(st, qs), v) == Meaning(Covering(Accepted(st, qs), v), v)
  {
    FreshIsTree(st);
    AfterTranslates(st, [Root], qs, v);
  }

  /** After any history from a fresh arena, `map_page` never reports `UnexpectedLeaf`. */
  lemma UnexpectedLeafUnreachable(st: ArenaState, qs: seq<Request>, q: Request)
    requires Fresh(st)
    ensures Apply(After(st, qs), q).1 != Err(UnexpectedLeaf)
  {
    FreshIsTree(st);
    var labels := AfterIsTree(st, [Root], qs);
    MapPageOutcome(After(st, qs), labels, q.va, q.pa, q.perms);
  }

  // ---- Table accounting -----------------------------------------------------

  function Mids(st: ArenaState): set<nat>
    requires Closed(st)
  {
    set a: nat | 0 <= a < ENTRIES && Follow(st, 0, a).Some?
  }

  function Lows(st: ArenaState): set<(nat, nat)>
    requires Closed(st)
  {
    set a: nat, b: nat | 0 <= a < ENTRIES && 0 <= b < ENTRIES && LowTable(st, a, b).Some? :: (a, b)
  }

  predicate Accounted(st: ArenaState)
    requires Closed(st)
  {
    st.used == 1 + |Mids(st)| + |Lows(st)|
  }

  lemma RootStepCounts(st: ArenaState, labels: seq<Path>, a: nat)
    requires Tree(st, labels) && a < ENTRIES
    ensures Mids(Descend(st, 0, a).st) ==
            if Descend(st, 0, a).result.Ok? then Mids(st) + {a} else Mids(st)
    ensures Lows(Descend(st, 0, a).st) == Lows(st)
    ensures Accounted(st) ==> Accounted(Descend(st, 0, a).st)
  {
    assert EntryOk(st, labels, 0, a);
    if Links(st, 0, a) {
      LinkedEntries(st, 0, a);
      var st' := Descend(st, 0, a).st;
      forall x: nat, y: nat | x < ENTRIES && y < ENTRIES
        ensures LowTable(st', x, y) == LowTable(st, x, y)
      {
        if x != a {
          assert Follow(st', 0, x) == Follow(st, 0, x);
          if Follow(st, 0, x).Some? {
            assert EntryOk(st, labels, 0, x);
          }
        }
      }
      assert forall x: nat | x < ENTRIES :: Follow(st', 0, x).Some? <==> x == a || Follow(st, 0, x).Some?;
      assert Mids(st') == Mids(st) + {a};
      assert Lows(st') == Lows(st);
    }
  }

  lemma MidStepCounts(st: ArenaState, labels: seq<Path>, a: nat, b: nat)
    requires Tree(st, labels) && a < ENTRIES && b < ENTRIES && Follow(st, 0, a).Some?
    ensures Mids(Descend(st, Follow(st, 0, a).value, b).st) == Mids(st)
    ensures Lows(Descend(st, Follow(st, 0, a).value, b).st) ==
            if Descend(st, Follow(st, 0, a).value, b).result.Ok? then Lows(st) + {(a, b)} else Lows(st)
    ensures Accounted(st) ==> Accounted(Descend(st, Follow(st, 0, a).value, b).st)
  {
    var k := Follow(st, 0, a).value;
    assert EntryOk(st, labels, 0, a) && EntryOk(st, labels, k, b);
    if Links(st, k, b) {
      LinkedEntries(st, k, b);
      var st' := Descend(st, k, b).st;
      assert forall x: nat | x < ENTRIES :: Follow(st', 0, x) == Follow(st, 0, x);
      forall x: nat, y: nat | x < ENTRIES && y < ENTRIES
        ensures LowTable(st', x, y).Some? <==> (x == a && y == b) || LowTable(st, x, y).Some?
      {
        if Follow(st, 0, x).Some? {
          assert EntryOk(st, labels, 0, x);
        }
      }
      assert Mids(st') == Mids(st);
      assert Lows(st') == Lows(st) + {(a, b)};
    }
  }

  lemma FillCounts(st: ArenaState, labels: seq<Path>, a: nat, b: nat, c: nat, leaf: u64)
    requires Tree(st, labels) && a < ENTRIES && b < ENTRIES && c < ENTRIES && IsLeaf(leaf)
    requires LowTable(st, a, b).Some? && labels[LowTable(st, a, b).value].Low?
    ensures Closed(SetEntry(st, LowTable(st, a, b).value, c, leaf))
    ensures Mids(SetEntry(st, LowTable(st, a, b).value, c, leaf)) == Mids(st)
    ensures Lows(SetEntry(st, LowTable(st, a, b).value, c, leaf)) == Lows(st)
  {
    hide HasBit, Ppn, IsLeaf, IsValid, Follow;
    var k := LowTable(st, a, b).value;
    FillKeepsTree(st, labels, k, c, leaf);
    var st' := SetEntry(st, k, c, leaf);
    assert forall x: nat, y: nat | x < ENTRIES && y < ENTRIES :: LowTable(st', x, y) == LowTable(st, x, y);
  }

  /** One request: the count stays exact, and a success adds exactly its own path. */
  lemma ApplyCounts(st: ArenaState, labels: seq<Path>, q: Request)
    requires Tree(st, labels)
    ensures Accounted(st) ==> Accounted(Apply(st, q).0)
    ensures Apply(st, q).1.Ok? ==>
              && Mids(Apply(st, q).0) == Mids(st) + {Vpn(q.va, 2)}
              && Lows(Apply(st, q).0) == Lows(st) + {(Vpn(q.va, 2), Vpn(q.va, 1))}
  {
    LeafRoundTrip(q.pa, q.perms);
    if PageAligned(q.va) && PageAligned(q.pa) && Encodable(q.perms) {
      var a, b, c := Vpn(q.va, 2), Vpn(q.va, 1), Vpn(q.va, 0);
      RootStepCounts(st, labels, a);
      DescendKeepsTree(st, labels, 0, a);
      var w1 := Descend(st, 0, a);
      if w1.result.Ok? {
        MidStepCounts(w1.st, Relabel(st, labels, 0, a), a, b);
        var labels' := DescentOutcome(st, labels, q.va);
        var w := Descent(st, q.va);
        if w.result.Ok? && !IsValid(w.st.tables[w.result.value][c]) {
          FillCounts(w.st, labels', a, b, c, Leaf(q.pa, q.perms).value);
        }
      }
    }
  }

  function Vpn2s(qs: seq<Request>): set<nat> {
    set q | q in qs :: Vpn(q.va, 2)
  }

  function VpnPairs(qs: seq<Request>): set<(nat, nat)> {
    set q | q in qs :: (Vpn(q.va, 2), Vpn(q.va, 1))
  }

  lemma VpnsCons(qs: seq<Request>)
    requires qs != []
    ensures Vpn2s(qs) == {Vpn(qs[0].va, 2)} + Vpn2s(qs[1..])
    ensures VpnPairs(qs) == {(Vpn(qs[0].va, 2), Vpn(qs[0].va, 1))} + VpnPairs(qs[1..])
  {
    assert qs == [qs[0]] + qs[1..];
  }

  lemma {:induction false} AfterCounts(st: ArenaState, labels: seq<Path>, qs: seq<Request>)
    requires Tree(st, labels) && Accounted(st)
    ensures Accounted(After(st, qs))
    ensures AllAccepted(st, qs) ==>
              && Mids(After(st, qs)) == Mids(st) + Vpn2s(qs)
              && Lows(After(st, qs)) == Lows(st) + VpnPairs(qs)
    decreases |qs|
  {
    hide Apply, Mids, Lows, Vpn;
    if qs == [] {
      assert Vpn2s(qs) == {} && VpnPairs(qs) == {};
    } else {
      hide Vpn2s, VpnPairs;
      ApplyCounts(st, labels, qs[0]);
      var labels' := StepIsTree(st, labels, qs[0]);
      AfterCounts(Apply(st, qs[0]).0, labels', qs[1..]);
      VpnsCons(qs);
      assert Mids(st) + ({Vpn(qs[0].va, 2)} + Vpn2s(qs[1..])) == Mids(st) + {Vpn(qs[0].va, 2)} + Vpn2s(qs[1..]);
      assert Lows(st) + ({(Vpn(qs[0].va, 2), Vpn(qs[0].va, 1))} + VpnPairs(qs[1..]))
          == Lows(st) + {(Vpn(qs[0].va, 2), Vpn(qs[0].va, 1))} + VpnPairs(qs[1..]);
    }
  }

  /**
   Exact table accounting for every history from a fresh arena: the tables in
   use are the root, one per root entry in use and one per second-level entry
   in use. When every request succeeded these are exactly the distinct VPN2
   values and the distinct (VPN2, VPN1) pairs requested.
   */
  lemma HistoryAccounting(st: ArenaState, qs: seq<Request>)
    requires Fresh(st)
    ensures After(st, qs).used == 1 + |Mids(After(st, qs))| + |Lows(After(st, qs))|
    ensures AllAccepted(st, qs) ==>
              After(st, qs).used == 1 + |Vpn2s(qs)| + |VpnPairs(qs)|
  {
    FreshIsTree(st);
    assert Mids(st) == {} && Lows(st) == {};
    AfterCounts(st, [Root], qs);
  }
}
