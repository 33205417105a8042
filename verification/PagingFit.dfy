/** When a whole list of map requests succeeds, said without running it. */
module PagingFit {
  import opened Base
  import opened Sv39
  import opened Paging
  import opened PagingTree
  import opened PagingHistory

  predicate WellFormed(q: Request) { PageAligned(q.va) && PageAligned(q.pa) && Encodable(q.perms) }

  predicate PagesDiffer(qs: seq<Request>) {
    forall i, j | 0 <= i < j < |qs| :: !SamePage(qs[i].va, qs[j].va)
  }

  /** Aligned and encodable requests for different pages, whose tables fit. */
  predicate Fits(tables: nat, qs: seq<Request>) {
    && (forall i | 0 <= i < |qs| :: WellFormed(qs[i]))
    && PagesDiffer(qs)
    && 1 + |Vpn2s(qs)| + |VpnPairs(qs)| <= tables
  }

  /** The same, on top of what an arena already holds. */
  predicate FitsOn(st: ArenaState, qs: seq<Request>)
    requires Closed(st)
  {
    && FreeOn(st, qs) && PagesDiffer(qs)
    && 1 + |Mids(st) + Vpn2s(qs)| + |Lows(st) + VpnPairs(qs)| <= |st.tables|
  }

  lemma {:induction false} Smaller<T>(a: set<T>, b: set<T>)
    requires a <= b
    ensures |a| <= |b|
  {
    assert b == a + (b - a);
  }

  lemma NeededCounts(st: ArenaState, q: Request)
    requires Closed(st) && Accounted(st)
    ensures st.used + Needed(st, q.va) ==
            1 + |Mids(st) + {Vpn(q.va, 2)}| + |Lows(st) + {(Vpn(q.va, 2), Vpn(q.va, 1))}|
  {
    hide Follow, Vpn;
    var a, b := Vpn(q.va, 2), Vpn(q.va, 1);
    Grows(Mids(st), a);
    Grows(Lows(st), (a, b));
    assert a in Mids(st) <==> Follow(st, 0, a).Some?;
    assert (a, b) in Lows(st) <==> LowTable(st, a, b).Some?;
  }

  lemma Grows<T>(s: set<T>, x: T)
    ensures |s + {x}| == |s| + if x in s then 0 else 1
  {
    if x in s {
      assert s + {x} == s;
    }
  }

  /** The first request of a fitting list is accepted. */
  lemma FirstFits(st: ArenaState, labels: seq<Path>, qs: seq<Request>)
    requires Tree(st, labels) && Accounted(st) && qs != [] && FitsOn(st, qs)
    ensures Apply(st, qs[0]).1.Ok?
  {
    hide Needed, Mids, Lows, Vpn2s, VpnPairs, Vpn, Translate, SamePage;
    var q := qs[0];
    NeededCounts(st, q);
    VpnsCons(qs);
    Smaller(Mids(st) + {Vpn(q.va, 2)}, Mids(st) + Vpn2s(qs));
    Smaller(Lows(st) + {(Vpn(q.va, 2), Vpn(q.va, 1))}, Lows(st) + VpnPairs(qs));
    MapPageOutcome(st, labels, q.va, q.pa, q.perms);
    assert WellFormed(qs[0]);
  }

  lemma AcceptedIsWellFormed(st: ArenaState, labels: seq<Path>, q: Request)
    requires Tree(st, labels) && Apply(st, q).1.Ok?
    ensures WellFormed(q) && Translate(st, q.va).None?
  {
    hide Needed, Translate;
    MapPageOutcome(st, labels, q.va, q.pa, q.perms);
  }

  lemma RestCounts(st: ArenaState, labels: seq<Path>, qs: seq<Request>)
    requires Tree(st, labels) && qs != [] && Apply(st, qs[0]).1.Ok?
    ensures Mids(Apply(st, qs[0]).0) + Vpn2s(qs[1..]) == Mids(st) + Vpn2s(qs)
    ensures Lows(Apply(st, qs[0]).0) + VpnPairs(qs[1..]) == Lows(st) + VpnPairs(qs)
  {
    hide Mids, Lows, Vpn2s, VpnPairs, Vpn, Apply;
    ApplyCounts(st, labels, qs[0]);
    VpnsCons(qs);
  }

  /** The page of `q` differs from every page of the list. */
  predicate Apart(q: Request, qs: seq<Request>) {
    forall i | 0 <= i < |qs| :: !SamePage(qs[i].va, q.va)
  }

  lemma PagesDifferCons(qs: seq<Request>)
    requires qs != []
    ensures PagesDiffer(qs) <==> PagesDiffer(qs[1..]) && Apart(qs[0], qs[1..])
  {
    hide Vpn;
    var rest := qs[1..];
    if PagesDiffer(qs) {
      forall i | 0 <= i < |rest|
        ensures !SamePage(rest[i].va, qs[0].va)
      {
        assert rest[i] == qs[i + 1] && !SamePage(qs[0].va, qs[i + 1].va);
      }
    }
    if PagesDiffer(rest) && Apart(qs[0], rest) {
      forall i, j | 0 <= i < j < |qs|
        ensures !SamePage(qs[i].va, qs[j].va)
      {
        assert qs[j] == rest[j - 1];
        assert i > 0 ==> qs[i] == rest[i - 1];
      }
    }
  }

  /** The requests are well formed and their pages free. */
  predicate FreeOn(st: ArenaState, qs: seq<Request>)
    requires Closed(st)
  {
    forall i | 0 <= i < |qs| :: WellFormed(qs[i]) && Translate(st, qs[i].va).None?
  }

  lemma RestFree(st: ArenaState, labels: seq<Path>, qs: seq<Request>)
    requires Tree(st, labels) && qs != [] && Apply(st, qs[0]).1.Ok?
    ensures FreeOn(Apply(st, qs[0]).0, qs[1..]) && Apart(qs[0], qs[1..]) <==> FreeOn(st, qs) && Apart(qs[0], qs[1..])
    ensures FreeOn(Apply(st, qs[0]).0, qs[1..]) ==> Apart(qs[0], qs[1..])
  {
    hide Translate, SamePage, Apply, WellFormed;
    var q, rest := qs[0], qs[1..];
    AcceptedIsWellFormed(st, labels, q);
    AppliedTranslates(st, labels, q);
    assert qs == [q] + rest;
    assert forall i | 0 <= i < |rest| :: rest[i] == qs[i + 1];
    assert forall i | 0 < i < |qs| :: qs[i] == rest[i - 1];
  }

  /** Once the first is accepted, the rest fits on the new arena exactly if the whole fitted on the old. */
  lemma RestFits(st: ArenaState, labels: seq<Path>, qs: seq<Request>)
    requires Tree(st, labels) && qs != [] && Apply(st, qs[0]).1.Ok?
    ensures FitsOn(Apply(st, qs[0]).0, qs[1..]) <==> FitsOn(st, qs)
  {
    hide Mids, Lows, Vpn2s, VpnPairs, Translate, SamePage, Apply, WellFormed, FreeOn, Apart, PagesDiffer;
    AppliedTranslates(st, labels, qs[0]);
    RestCounts(st, labels, qs);
    PagesDifferCons(qs);
    RestFree(st, labels, qs);
  }

  lemma AppliedTranslates(st: ArenaState, labels: seq<Path>, q: Request)
    requires Tree(st, labels) && Apply(st, q).1.Ok?
    ensures |Apply(st, q).0.tables| == |st.tables|
    ensures forall v: nat :: Translate(Apply(st, q).0, v).Some? <==> SamePage(v, q.va) || Translate(st, v).Some?
  {
    hide Translate, SamePage;
    var _ := MapPageIsPointUpdate(st, labels, q.va, q.pa, q.perms);
  }

  lemma {:induction false} AcceptedIffFitsOn(st: ArenaState, labels: seq<Path>, qs: seq<Request>)
    requires Tree(st, labels) && Accounted(st)
    ensures AllAccepted(st, qs) <==> FitsOn(st, qs)
    decreases |qs|
  {
    hide Mids, Lows, Apply, Translate;
    if qs == [] {
      assert Vpn2s(qs) == {} && VpnPairs(qs) == {};
      assert Mids(st) + {} == Mids(st) && Lows(st) + {} == Lows(st);
    } else {
      if FitsOn(st, qs) {
        FirstFits(st, labels, qs);
      }
      if Apply(st, qs[0]).1.Ok? {
        RestFits(st, labels, qs);
        ApplyCounts(st, labels, qs[0]);
        var labels' := StepIsTree(st, labels, qs[0]);
        AcceptedIffFitsOn(Apply(st, qs[0]).0, labels', qs[1..]);
      }
    }
  }

  /**
   From a fresh arena a list of requests is accepted as a whole exactly if each is
   aligned and encodable, no two are for one page, and the root with one table per
   distinct top index and one per distinct index pair fits in the arena.
   */
  lemma AcceptedIffFits(st: ArenaState, qs: seq<Request>)
    requires Fresh(st)
    ensures AllAccepted(st, qs) <==> Fits(|st.tables|, qs)
  {
    hide Translate, Vpn2s, VpnPairs;
    FreshIsTree(st);
    assert Mids(st) == {} && Lows(st) == {};
    assert {} + Vpn2s(qs) == Vpn2s(qs) && {} + VpnPairs(qs) == VpnPairs(qs);
    AcceptedIffFitsOn(st, [Root], qs);
  }
}
