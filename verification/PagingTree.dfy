/**
 What the arena represents. A ghost labelling gives every allocated table the
 one path that leads to it; under it `MapPage` is a point update of
 `Translate`, failures change no translation, and tables are counted exactly.
 */
module PagingTree {
  import opened Base
  import opened Sv39
  import opened Paging

  /** Where a table sits: the root, under root entry `a`, or under entry `b` of table `parent`. */
  datatype Path = Root | Mid(a: nat) | Low(a: nat, b: nat, parent: nat)

  /** Entry `i` of table `k` is a pointer to table `target`. */
  predicate PointsTo(st: ArenaState, k: nat, i: nat, target: nat)
    requires Closed(st)
  {
    k < st.used && i < ENTRIES && Follow(st, k, i) == Some(target)
  }

  /** The child path an entry of a table may point to. */
  function ChildPath(path: Path, i: nat, k: nat): Path
    requires !path.Low?
  {
    if path.Root? then Mid(i) else Low(path.a, i, k)
  }

  /** What an entry of a table on `path` may hold. */
  predicate EntryOk(st: ArenaState, labels: seq<Path>, k: nat, i: nat)
    requires Closed(st) && |labels| == st.used && k < st.used && i < ENTRIES
  {
    if labels[k].Low? then IsValid(st.tables[k][i]) ==> IsLeaf(st.tables[k][i])
    else !IsLeaf(st.tables[k][i])
         && (IsValid(st.tables[k][i]) ==> labels[TableIndexOf(st, st.tables[k][i])] == ChildPath(labels[k], i, k))
  }

  /** The entry a label says leads to table `k` does lead there. */
  predicate Rooted(st: ArenaState, labels: seq<Path>, k: nat)
    requires Closed(st) && |labels| == st.used && k < st.used
  {
    match labels[k]
    case Root => k == 0
    case Mid(a) => PointsTo(st, 0, a, k)
    case Low(a, b, p) => p < st.used && labels[p] == Mid(a) && PointsTo(st, p, b, k)
  }

  /** `labels` exhibits the allocated tables as one tree of the right depth. */
  ghost predicate Tree(st: ArenaState, labels: seq<Path>) {
    && Closed(st)
    && |labels| == st.used
    && labels[0] == Root
    && (forall k, i | 0 <= k < st.used && 0 <= i < ENTRIES :: EntryOk(st, labels, k, i))
    && (forall k | 0 <= k < st.used :: Rooted(st, labels, k))
  }

  /** A new arena whose root holds no valid entry; `Arena::new` does not clear the root itself. */
  predicate Fresh(st: ArenaState) {
    && Sized(st) && st.used == 1
    && (forall i | 0 <= i < ENTRIES :: !IsValid(st.tables[0][i]))
  }

  lemma FreshIsTree(st: ArenaState)
    requires Fresh(st)
    ensures Tree(st, [Root])
    ensures forall va :: Translate(st, va) == None
  {
  }

  /**
   Each allocated table but the root is the target of exactly one pointer, in
   the table one level up.
   */
  lemma OneParent(st: ArenaState, labels: seq<Path>, k: nat)
    requires Tree(st, labels) && 1 <= k < st.used
    ensures exists p: nat, i: nat :: PointsTo(st, p, i, k)
    ensures forall p: nat, i: nat, q: nat, j: nat :: PointsTo(st, p, i, k) && PointsTo(st, q, j, k) ==> p == q && i == j
    ensures forall p: nat, i: nat :: PointsTo(st, p, i, k) ==>
              (labels[p].Root? && labels[k].Mid?) || (labels[p].Mid? && labels[k].Low?)
  {
    assert Rooted(st, labels, k);
    assert !labels[k].Root?;
    forall p: nat, i: nat | PointsTo(st, p, i, k)
      ensures !labels[p].Low? && labels[k] == ChildPath(labels[p], i, p)
      ensures labels[p].Root? ==> p == 0
    {
      assert EntryOk(st, labels, p, i);
      assert Rooted(st, labels, p);
    }
  }

  // ---- A descent step -------------------------------------------------------

  function Grown(labels: seq<Path>, cur: nat, i: nat): seq<Path>
    requires cur < |labels| && !labels[cur].Low?
  {
    labels + [ChildPath(labels[cur], i, cur)]
  }

  /** Whether the step from `cur` has to link a fresh table. */
  predicate Links(st: ArenaState, cur: nat, i: nat)
    requires Closed(st) && cur < st.used && i < ENTRIES
  {
    !IsValid(st.tables[cur][i]) && st.used < |st.tables|
  }

  function Relabel(st: ArenaState, labels: seq<Path>, cur: nat, i: nat): seq<Path>
    requires Closed(st) && cur < st.used == |labels| && i < ENTRIES && !labels[cur].Low?
  {
    if Links(st, cur, i) then Grown(labels, cur, i) else labels
  }

  /** The entries of the arena after linking, one by one. */
  lemma LinkedEntries(st: ArenaState, cur: nat, i: nat)
    requires Closed(st) && cur < st.used && i < ENTRIES && Links(st, cur, i)
    ensures Descend(st, cur, i).result == Ok(st.used)
    ensures Descend(st, cur, i).st.used == st.used + 1
    ensures forall k, j | 0 <= k < st.used && 0 <= j < ENTRIES && !(k == cur && j == i) ::
              Descend(st, cur, i).st.tables[k][j] == st.tables[k][j]
              && Follow(Descend(st, cur, i).st, k, j) == Follow(st, k, j)
    ensures forall j | 0 <= j < ENTRIES :: Descend(st, cur, i).st.tables[st.used][j] == 0
    ensures PointsTo(Descend(st, cur, i).st, cur, i, st.used)
  {
    PointerToTable(st, st.used);
  }

  lemma DescendKeepsTree(st: ArenaState, labels: seq<Path>, cur: nat, i: nat)
    requires Tree(st, labels) && cur < st.used && i < ENTRIES && !labels[cur].Low?
    ensures Tree(Descend(st, cur, i).st, Relabel(st, labels, cur, i))
    ensures Descend(st, cur, i).result.Err? ==>
              Descend(st, cur, i) == Walk(st, Err(OutOfTables)) && st.used == |st.tables| && !IsValid(st.tables[cur][i])
    ensures Descend(st, cur, i).result.Ok? ==>
              var next := Descend(st, cur, i).result.value;
              && Relabel(st, labels, cur, i)[next] == ChildPath(labels[cur], i, cur)
              && PointsTo(Descend(st, cur, i).st, cur, i, next)
  {
    assert EntryOk(st, labels, cur, i);
    if Links(st, cur, i) {
      LinkedEntries(st, cur, i);
      LinkKeepsTree(st, labels, cur, i);
    }
  }

  lemma LinkKeepsTree(st: ArenaState, labels: seq<Path>, cur: nat, i: nat)
    requires Tree(st, labels) && cur < st.used && i < ENTRIES && !labels[cur].Low?
    requires Links(st, cur, i)
    ensures Tree(Descend(st, cur, i).st, Grown(labels, cur, i))
  {
    LinkedEntries(st, cur, i);
    var st' := Descend(st, cur, i).st;
    var labels' := Grown(labels, cur, i);
    forall k, j | 0 <= k < st'.used && 0 <= j < ENTRIES
      ensures EntryOk(st', labels', k, j)
    {
      if k < st.used {
        assert EntryOk(st, labels, k, j);
        if k == cur && j == i {
          assert Follow(st', k, j) == Some(st.used);
        } else {
          assert Follow(st', k, j) == Follow(st, k, j);
        }
      }
    }
    forall k | 0 <= k < st'.used
      ensures Rooted(st', labels', k)
    {
      if k < st.used {
        assert Rooted(st, labels, k);
      } else {
        assert Rooted(st, labels, cur);
      }
    }
  }

  /** Linking an empty table under an empty entry leads to no leaf. */
  lemma DescendKeepsLeaves(st: ArenaState, labels: seq<Path>, cur: nat, i: nat, a: nat, b: nat, c: nat)
    requires Tree(st, labels) && cur < st.used && i < ENTRIES && !labels[cur].Low?
    requires a < ENTRIES && b < ENTRIES && c < ENTRIES
    ensures LeafAt(Descend(st, cur, i).st, a, b, c) == LeafAt(st, a, b, c)
  {
    assert EntryOk(st, labels, cur, i);
    if Links(st, cur, i) {
      LinkedEntries(st, cur, i);
      var st' := Descend(st, cur, i).st;
      if !(cur == 0 && i == a) {
        assert Follow(st', 0, a) == Follow(st, 0, a);
        match Follow(st, 0, a)
        case None =>
        case Some(k1) =>
          assert EntryOk(st, labels, 0, a);
          assert EntryOk(st, labels, k1, b);
      }
    }
  }

  // ---- One map_page ---------------------------------------------------------

  /** The descent of `map_page`, both levels. */
  function Descent(st: ArenaState, va: nat): Walk
    requires Closed(st)
  {
    Deepen(Descend(st, 0, Vpn(va, 2)), Vpn(va, 1))
  }

  function LowTable(st: ArenaState, a: nat, b: nat): (k: Option<nat>)
    requires Closed(st) && a < ENTRIES && b < ENTRIES
    ensures k.Some? ==> k.value < st.used
  {
    match Follow(st, 0, a)
    case None => None
    case Some(k1) => Follow(st, k1, b)
  }

  /** Tables that mapping `va` would have to add. */
  function Needed(st: ArenaState, va: nat): nat
    requires Closed(st)
  {
    match Follow(st, 0, Vpn(va, 2))
    case None => 2
    case Some(k) => if Follow(st, k, Vpn(va, 1)).None? then 1 else 0
  }

  /** One level of the descent: when it fails, what it adds, where it leads, and what it leaves alone. */
  lemma LevelOutcome(st: ArenaState, labels: seq<Path>, cur: nat, i: nat)
    requires Tree(st, labels) && cur < st.used && i < ENTRIES && !labels[cur].Low?
    ensures var w := Descend(st, cur, i);
            var added := if Follow(st, cur, i).None? then 1 else 0;
            && (w.result.Err? <==> st.used + added > |st.tables|)
            && (w.result.Err? ==> w == Walk(st, Err(OutOfTables)) && st.used == |st.tables|)
            && (w.result.Ok? ==>
                  && w.st.used == st.used + added && Follow(w.st, cur, i) == Some(w.result.value)
                  && (added == 0 ==> w.st == st)
                  && (added == 1 ==> w.result.value == st.used))
    ensures var w := Descend(st, cur, i);
            w.result.Ok? && Follow(st, cur, i).None? ==>
              && (forall j | 0 <= j < ENTRIES :: Follow(w.st, st.used, j).None?)
              && (forall k, j | 0 <= k < st.used && 0 <= j < ENTRIES && !(k == cur && j == i) ::
                    Follow(w.st, k, j) == Follow(st, k, j))
  {
    hide HasBit, Ppn;
    assert EntryOk(st, labels, cur, i);
    DescendKeepsTree(st, labels, cur, i);
    if Links(st, cur, i) {
      LinkedEntries(st, cur, i);
      EmptyEntry();
    }
  }

  lemma EmptyEntry()
    ensures !IsValid(0)
  {
  }

  lemma DescendKeepsAllLeaves(st: ArenaState, labels: seq<Path>, cur: nat, i: nat)
    requires Tree(st, labels) && cur < st.used && i < ENTRIES && !labels[cur].Low?
    ensures forall a, b, c | 0 <= a < ENTRIES && 0 <= b < ENTRIES && 0 <= c < ENTRIES ::
              LeafAt(Descend(st, cur, i).st, a, b, c) == LeafAt(st, a, b, c)
  {
    hide LeafAt;
    forall a, b, c | 0 <= a < ENTRIES && 0 <= b < ENTRIES && 0 <= c < ENTRIES
      ensures LeafAt(Descend(st, cur, i).st, a, b, c) == LeafAt(st, a, b, c)
    {
      DescendKeepsLeaves(st, labels, cur, i, a, b, c);
    }
  }

  lemma DescentOutcome(st: ArenaState, labels: seq<Path>, va: nat) returns (labels': seq<Path>)
    requires Tree(st, labels)
    ensures Tree(Descent(st, va).st, labels')
    ensures |Descent(st, va).st.tables| == |st.tables|
    ensures Descent(st, va).result.Err? <==> st.used + Needed(st, va) > |st.tables|
    ensures Descent(st, va).result.Err? ==>
              Descent(st, va).result.error == OutOfTables && Descent(st, va).st.used == |st.tables|
    ensures Descent(st, va).result.Ok? ==>
              && Descent(st, va).st.used == st.used + Needed(st, va)
              && LowTable(Descent(st, va).st, Vpn(va, 2), Vpn(va, 1)) == Some(Descent(st, va).result.value)
              && labels'[Descent(st, va).result.value].Low?
    ensures forall a, b, c | 0 <= a < ENTRIES && 0 <= b < ENTRIES && 0 <= c < ENTRIES ::
              LeafAt(Descent(st, va).st, a, b, c) == LeafAt(st, a, b, c)
  {
    hide LeafAt, Descend, Follow, EntryOk, Rooted, Vpn, Links;
    var a, b := Vpn(va, 2), Vpn(va, 1);
    var w1 := Descend(st, 0, a);
    DescendKeepsTree(st, labels, 0, a);
    DescendKeepsAllLeaves(st, labels, 0, a);
    LevelOutcome(st, labels, 0, a);
    labels' := Relabel(st, labels, 0, a);
    if w1.result.Ok? {
      var k1 := w1.result.value;
      DescendKeepsTree(w1.st, labels', k1, b);
      DescendKeepsAllLeaves(w1.st, labels', k1, b);
      LevelOutcome(w1.st, labels', k1, b);
      labels' := Relabel(w1.st, labels', k1, b);
    }
  }

  /** Writing a leaf into a level-0 table moves no table. */
  lemma FillKeepsTree(st: ArenaState, labels: seq<Path>, k: nat, c: nat, leaf: u64)
    requires Tree(st, labels) && k < st.used && c < ENTRIES && IsLeaf(leaf) && labels[k].Low?
    ensures Tree(SetEntry(st, k, c, leaf), labels)
    ensures forall j, i | 0 <= j < st.used && 0 <= i < ENTRIES ::
              Follow(SetEntry(st, k, c, leaf), j, i) == Follow(st, j, i)
  {
    hide HasBit, Ppn;
    var st' := SetEntry(st, k, c, leaf);
    assert EntryOk(st, labels, k, c);
    forall j, i | 0 <= j < st.used && 0 <= i < ENTRIES
      ensures EntryOk(st', labels, j, i) && Follow(st', j, i) == Follow(st, j, i)
    {
      assert EntryOk(st, labels, j, i);
    }
    forall j | 0 <= j < st.used
      ensures Rooted(st', labels, j)
    {
      assert Rooted(st, labels, j);
    }
  }

  /** Writing a level-0 entry changes the leaf of one triple only. */
  lemma FillIsPointUpdate(st: ArenaState, labels: seq<Path>, a: nat, b: nat, c: nat, leaf: u64)
    requires Tree(st, labels) && a < ENTRIES && b < ENTRIES && c < ENTRIES && IsLeaf(leaf)
    requires LowTable(st, a, b).Some?
    requires labels[LowTable(st, a, b).value].Low?
    ensures Tree(SetEntry(st, LowTable(st, a, b).value, c, leaf), labels)
    ensures forall x, y, z | 0 <= x < ENTRIES && 0 <= y < ENTRIES && 0 <= z < ENTRIES ::
              LeafAt(SetEntry(st, LowTable(st, a, b).value, c, leaf), x, y, z)
              == if x == a && y == b && z == c then Some(leaf) else LeafAt(st, x, y, z)
  {
    hide HasBit, Ppn, IsLeaf, IsValid, Follow;
    var k := LowTable(st, a, b).value;
    FillKeepsTree(st, labels, k, c, leaf);
    var st' := SetEntry(st, k, c, leaf);
    forall x, y, z | 0 <= x < ENTRIES && 0 <= y < ENTRIES && 0 <= z < ENTRIES
      ensures LeafAt(st', x, y, z) == if x == a && y == b && z == c then Some(leaf) else LeafAt(st, x, y, z)
    {
      SamePath(st, labels, a, b, x, y);
    }
  }

  /** A level-0 table is reached by one pair of indices only. */
  lemma SamePath(st: ArenaState, labels: seq<Path>, a: nat, b: nat, x: nat, y: nat)
    requires Tree(st, labels) && a < ENTRIES && b < ENTRIES && x < ENTRIES && y < ENTRIES
    ensures LowTable(st, a, b).Some? && LowTable(st, x, y) == LowTable(st, a, b) ==> a == x && b == y
  {
    if LowTable(st, a, b).Some? && LowTable(st, x, y) == LowTable(st, a, b) {
      var k, l := Follow(st, 0, a).value, Follow(st, 0, x).value;
      assert EntryOk(st, labels, 0, a) && EntryOk(st, labels, k, b);
      assert EntryOk(st, labels, 0, x) && EntryOk(st, labels, l, y);
    }
  }

  /** What an accepted request makes an address of its page translate to. */
  function Granted(pa: nat, perms: Permissions, v: nat): Translation {
    Translation(pa % TWO56 + v % PAGE_SIZE, perms.(device := false))
  }

  lemma DecodedLeaf(pa: u64, perms: Permissions, v: nat)
    requires Leaf(pa, perms).Ok?
    ensures Decoded(Leaf(pa, perms).value, v) == Granted(pa, perms, v)
  {
    LeafRoundTrip(pa, perms);
  }

  lemma TranslateByLeaves(st: ArenaState, st': ArenaState)
    requires Closed(st) && Closed(st')
    requires forall a, b, c | 0 <= a < ENTRIES && 0 <= b < ENTRIES && 0 <= c < ENTRIES ::
               LeafAt(st', a, b, c) == LeafAt(st, a, b, c)
    ensures forall v: nat :: Translate(st', v) == Translate(st, v)
  {
  }

  /**
   `map_page` succeeds exactly when the request is aligned and encodable, the
   arena has room for the tables the path still lacks, and the page is free;
   each error has its own cause and `UnexpectedLeaf` is not among them.
   */
  lemma MapPageOutcome(st: ArenaState, labels: seq<Path>, va: nat, pa: u64, perms: Permissions)
    requires Tree(st, labels)
    ensures MapPage(st, va, pa, perms).1 ==
            if !PageAligned(va) || !PageAligned(pa) then Err(MapError.Misaligned)
            else if !Encodable(perms) then Err(PteRejected(Leaf(pa, perms).error))
            else if st.used + Needed(st, va) > |st.tables| then Err(OutOfTables)
            else if Translate(st, va).Some? then Err(AlreadyMapped)
            else Ok(())
    ensures MapPage(st, va, pa, perms).1.Ok? ==>
              MapPage(st, va, pa, perms).0.used == st.used + Needed(st, va)
    ensures MapPage(st, va, pa, perms).1 == Err(OutOfTables) ==>
              MapPage(st, va, pa, perms).0.used == |st.tables|
  {
    LeafRoundTrip(pa, perms);
    if PageAligned(va) && PageAligned(pa) && Encodable(perms) {
      var labels' := DescentOutcome(st, labels, va);
      var w := Descent(st, va);
      if w.result.Ok? {
        assert EntryOk(w.st, labels', w.result.value, Vpn(va, 0));
        assert LeafAt(w.st, Vpn(va, 2), Vpn(va, 1), Vpn(va, 0)) == LeafAt(st, Vpn(va, 2), Vpn(va, 1), Vpn(va, 0));
      }
    }
  }

  /**
   A successful `map_page` is a point update of the translation: its own page
   now leads to the frame with the requested accesses, every other page is as
   before. A failed one, even after linking a table, changes no translation.
   */
  lemma MapPageIsPointUpdate(st: ArenaState, labels: seq<Path>, va: nat, pa: u64, perms: Permissions)
    returns (labels': seq<Path>)
    requires Tree(st, labels)
    ensures Tree(MapPage(st, va, pa, perms).0, labels')
    ensures |MapPage(st, va, pa, perms).0.tables| == |st.tables|
    ensures forall v: nat :: Translate(MapPage(st, va, pa, perms).0, v) ==
              if MapPage(st, va, pa, perms).1.Ok? && SamePage(v, va) then Some(Granted(pa, perms, v))
              else Translate(st, v)
  {
    hide HasBit, Ppn, Leaf, Vpn;
    labels' := labels;
    LeafRoundTrip(pa, perms);
    if PageAligned(va) && PageAligned(pa) && Encodable(perms) {
      labels' := DescentOutcome(st, labels, va);
      var w := Descent(st, va);
      if w.result.Ok? && !IsValid(w.st.tables[w.result.value][Vpn(va, 0)]) {
        var leaf := Leaf(pa, perms).value;
        FillIsPointUpdate(w.st, labels', Vpn(va, 2), Vpn(va, 1), Vpn(va, 0), leaf);
        var st' := SetEntry(w.st, w.result.value, Vpn(va, 0), leaf);
        assert MapPage(st, va, pa, perms) == (st', Ok(()));
        forall v: nat
          ensures Translate(st', v) == if SamePage(v, va) then Some(Granted(pa, perms, v)) else Translate(st, v)
        {
          DecodedLeaf(pa, perms, v);
          assert LeafAt(w.st, Vpn(v, 2), Vpn(v, 1), Vpn(v, 0)) == LeafAt(st, Vpn(v, 2), Vpn(v, 1), Vpn(v, 0));
        }
      } else {
        TranslateByLeaves(st, w.st);
      }
    }
  }

  /** The word found for an address. */
  function WordFor(st: ArenaState, v: nat): Option<u64>
    requires Closed(st)
  {
    LeafAt(st, Vpn(v, 2), Vpn(v, 1), Vpn(v, 0))
  }

  /** The same at the level of words: a success stores exactly the leaf built for the request. */
  lemma MapPageStores(st: ArenaState, labels: seq<Path>, va: nat, pa: u64, perms: Permissions, v: nat)
    requires Tree(st, labels)
    ensures WordFor(MapPage(st, va, pa, perms).0, v) ==
            if MapPage(st, va, pa, perms).1.Ok? && SamePage(v, va) then Some(Leaf(pa, perms).value) else WordFor(st, v)
    ensures MapPage(st, va, pa, perms).1.Ok? ==> Leaf(pa, perms).Ok?
  {
    hide HasBit, Ppn, Leaf, Vpn;
    LeafRoundTrip(pa, perms);
    if PageAligned(va) && PageAligned(pa) && Encodable(perms) {
      var labels' := DescentOutcome(st, labels, va);
      var w := Descent(st, va);
      assert LeafAt(w.st, Vpn(v, 2), Vpn(v, 1), Vpn(v, 0)) == LeafAt(st, Vpn(v, 2), Vpn(v, 1), Vpn(v, 0));
      if w.result.Ok? && !IsValid(w.st.tables[w.result.value][Vpn(va, 0)]) {
        var leaf := Leaf(pa, perms).value;
        FillIsPointUpdate(w.st, labels', Vpn(va, 2), Vpn(va, 1), Vpn(va, 0), leaf);
        var st' := SetEntry(w.st, w.result.value, Vpn(va, 0), leaf);
        assert MapPage(st, va, pa, perms) == (st', Ok(()));
      }
    }
  }
}
