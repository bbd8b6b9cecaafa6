/** How many sets of a combo a shelf holds (src/modules/products/combo-availability.ts), and that it is
    the number the warehouse can really lock: opening the combo, laying out the order's lines and the
    guarded row updates all agree on it. */
module ComboAvailability {
  import opened Common
  import opened ComboExpansion
  import opened OrderCombo
  import Stock = StockLedger
  import Ops = StockOperations
  import Laws = StockInvariants

  /** A combo of services alone never runs out. */
  const SERVICE_ONLY_COMBO_SETS := 9999

  function ShelfOf(row: Stock.StockRow): int { Max(0, row.stock - row.locked) }

  predicate HoldsStock(t: ItemType) { t == Product }

  function StockedLeaves(leaves: seq<Leaf>): (r: seq<Leaf>)
    ensures forall l :: l in r <==> l in leaves && HoldsStock(l.item.itemType)
  {
    if leaves == [] then []
    else
      var last := leaves[|leaves| - 1];
      assert forall l :: l in leaves <==> l in leaves[..|leaves| - 1] || l == last;
      StockedLeaves(leaves[..|leaves| - 1]) + if HoldsStock(last.item.itemType) then [last] else []
  }

  predicate PositiveLeaves(leaves: seq<Leaf>) { forall l :: l in leaves ==> l.quantity > 0 }

  function SetsOf(leaf: Leaf, shelf: Id -> int): int
    requires leaf.quantity > 0
  {
    Max(0, shelf(leaf.item.id)) / leaf.quantity
  }

  /** The least over the leaves of a non-empty list. */
  function LeastSets(leaves: seq<Leaf>, shelf: Id -> int): int
    requires leaves != [] && PositiveLeaves(leaves)
  {
    if |leaves| == 1 then SetsOf(leaves[0], shelf)
    else Min(LeastSets(leaves[..|leaves| - 1], shelf), SetsOf(leaves[|leaves| - 1], shelf))
  }

  function ComboSetsAvailable(leaves: seq<Leaf>, shelf: Id -> int): int
    requires PositiveLeaves(leaves)
  {
    var stocked := StockedLeaves(leaves);
    if stocked == [] then SERVICE_ONLY_COMBO_SETS else LeastSets(stocked, shelf)
  }

  lemma {:induction false} LeastSetsMeans(leaves: seq<Leaf>, shelf: Id -> int, n: int)
    requires leaves != [] && PositiveLeaves(leaves) && n > 0
    ensures n <= LeastSets(leaves, shelf) <==> forall l :: l in leaves ==> n * l.quantity <= shelf(l.item.id)
  {
    var last := leaves[|leaves| - 1];
    assert last in leaves;
    SetsMeans(last, shelf, n);
    if |leaves| > 1 {
      LeastSetsMeans(leaves[..|leaves| - 1], shelf, n);
      assert forall l :: l in leaves <==> l in leaves[..|leaves| - 1] || l == last;
    }
  }

  /** Sets are shown exactly as far as the goods among the leaves go, each leaf for itself; services do not count,
      and a combo of services alone shows 9999. */
  lemma SetsShown(leaves: seq<Leaf>, shelf: Id -> int, n: int)
    requires PositiveLeaves(leaves) && n > 0
    ensures n <= ComboSetsAvailable(leaves, shelf) <==>
      if forall l :: l in leaves ==> l.item.itemType != Product then n <= 9999
      else forall l :: l in leaves && l.item.itemType == Product ==> n * l.quantity <= shelf(l.item.id)
  {
    var stocked := StockedLeaves(leaves);
    if stocked == [] {
      assert forall l :: l in leaves ==> l !in stocked;
    } else {
      assert stocked[0] in stocked;
      LeastSetsMeans(stocked, shelf, n);
    }
  }

  lemma SetsMeans(leaf: Leaf, shelf: Id -> int, n: int)
    requires leaf.quantity > 0 && n > 0
    ensures n <= SetsOf(leaf, shelf) <==> n * leaf.quantity <= shelf(leaf.item.id)
  {
    var q, x := leaf.quantity, Max(0, shelf(leaf.item.id));
    var d := x / q;
    assert d * q <= x < (d + 1) * q;
    if n <= d {
      assert n * q <= d * q;
    } else {
      assert (d + 1) * q <= n * q;
    }
    assert n * q > 0;
  }

  // ---------------------------------------------------------------- positive graphs

  predicate Positive(g: Graph) { forall c, e :: c in g && e in g[c] ==> e.quantity > 0 }

  lemma {:induction false} RoutesPositive(g: Graph, id: Id, r: seq<nat>)
    requires Positive(g) && IsRoute(g, id, r)
    ensures RouteUnits(g, id, r) > 0
    decreases |r|
  {
    var part := Parts(g, id)[r[0]];
    assert part in Parts(g, id);
    if part.item.itemType == Combo {
      RoutesPositive(g, part.item.id, r[1..]);
      assert part.quantity * RouteUnits(g, part.item.id, r[1..]) > 0;
    }
  }

  lemma LeavesPositive(id: Id, g: Graph)
    requires Positive(g) && FlattenCombo(id, g).Leaves?
    ensures PositiveLeaves(FlattenCombo(id, g).leaves)
  {
    hide FlattenCombo, Routes;
    FlattenMeaning(id, g);
    forall l | l in FlattenCombo(id, g).leaves ensures l.quantity > 0 {
      assert Lists(FlattenCombo(id, g).leaves, l.item.id);
      assert LeadsTo(g, id, l.item.id);
      var r :| IsRoute(g, id, r) && RouteEnd(g, id, r).id == l.item.id;
      var routes := Routes(g, id, MAX_COMBO_DEPTH);
      var i :| 0 <= i < |routes| && routes[i] == r;
      forall x | x in routes ensures Worth(g, id, l.item.id)(x) >= 0 {
        if IsRoute(g, id, x) { RoutesPositive(g, id, x); }
      }
      RoutesPositive(g, id, r);
      SumByCovers(routes, Worth(g, id, l.item.id), i);
    }
  }

  // ---------------------------------------------------------------- locking the sets

  predicate StockedLine(t: LineType) { t == ProductLine || t == ComponentLine }

  /** What packing an order at a location locks. */
  function LocksFor(rows: seq<OrderRow>, location: Id): seq<Ops.LockLine> {
    if rows == [] then []
    else
      var last := rows[|rows| - 1];
      LocksFor(rows[..|rows| - 1], location)
        + if StockedLine(last.lineType) then [Ops.LockLine(Stock.Key(location, last.item), last.quantity)] else []
  }

  function LeafLocks(leaves: seq<Leaf>, n: int, location: Id): (r: seq<Ops.LockLine>)
    ensures |r| == |leaves|
    ensures forall i :: 0 <= i < |r| ==> r[i] == Ops.LockLine(Stock.Key(location, leaves[i].item.id), n * leaves[i].quantity)
  {
    seq(|leaves|, i requires 0 <= i < |leaves| => Ops.LockLine(Stock.Key(location, leaves[i].item.id), n * leaves[i].quantity))
  }

  lemma LocksOneMore(rows: seq<OrderRow>, row: OrderRow, location: Id)
    ensures LocksFor(rows + [row], location)
         == LocksFor(rows, location)
            + if StockedLine(row.lineType) then [Ops.LockLine(Stock.Key(location, row.item), row.quantity)] else []
  {
    assert (rows + [row])[..|rows|] == rows;
  }

  function NoCombos(leaves: seq<Leaf>): bool { forall l :: l in leaves ==> l.item.itemType != Combo }

  /** Under a combo line the stocked rows are its stocked leaves, multiplied. */
  lemma {:induction false} ComboRowsLock(line: PricedLine, leaves: seq<Leaf>, location: Id)
    requires line.item.itemType == Combo && NoCombos(leaves)
    ensures LocksFor([PricedRow(line)] + LeafRows(line, leaves, 0), location)
         == LeafLocks(StockedLeaves(leaves), line.quantity, location)
  {
    if leaves == [] {
      LocksOneMore([], PricedRow(line), location);
      assert [] + [PricedRow(line)] == [PricedRow(line)] + LeafRows(line, leaves, 0);
    } else {
      var front, last := leaves[..|leaves| - 1], leaves[|leaves| - 1];
      assert last in leaves;
      ComboRowsLock(line, front, location);
      var rows := [PricedRow(line)] + LeafRows(line, front, 0);
      assert [PricedRow(line)] + LeafRows(line, leaves, 0) == rows + [LeafRow(line, last, 0)];
      LocksOneMore(rows, LeafRow(line, last, 0), location);
      LeafLocksOneMore(StockedLeaves(front), last, line.quantity, location);
    }
  }

  lemma LeafLocksOneMore(leaves: seq<Leaf>, last: Leaf, n: int, location: Id)
    ensures LeafLocks(leaves + [last], n, location)
         == LeafLocks(leaves, n, location) + [Ops.LockLine(Stock.Key(location, last.item.id), n * last.quantity)]
    ensures leaves + [] == leaves
    ensures LeafLocks(leaves, n, location) + [] == LeafLocks(leaves, n, location)
  {}

  lemma {:induction false} StockedOnce(leaves: seq<Leaf>)
    requires EachOnce(leaves)
    ensures EachOnce(StockedLeaves(leaves))
  {
    if leaves != [] {
      var front, last := leaves[..|leaves| - 1], leaves[|leaves| - 1];
      StockedOnce(front);
      var stocked := StockedLeaves(front);
      forall i | 0 <= i < |stocked| ensures stocked[i].item.id != last.item.id {
        assert stocked[i] in stocked && stocked[i] in front;
        var k :| 0 <= k < |front| && front[k] == stocked[i];
      }
    }
  }

  /** Each leaf is locked once, so what a key needs is what its leaf needs. */
  lemma {:induction false} NeedsOfLeaves(leaves: seq<Leaf>, n: int, location: Id, k: Stock.Key)
    requires EachOnce(leaves)
    ensures SumBy(LeafLocks(leaves, n, location), Laws.NeedAt(k))
         == if k.location == location then n * SumBy(leaves, UnitsAt(k.item)) else 0
  {
    if leaves != [] {
      var front, last := leaves[..|leaves| - 1], leaves[|leaves| - 1];
      NeedsOfLeaves(front, n, location, k);
      assert front + [last] == leaves;
      LeafLocksOneMore(front, last, n, location);
      var lock := Ops.LockLine(Stock.Key(location, last.item.id), n * last.quantity);
      SumByAppend(LeafLocks(front, n, location), lock, Laws.NeedAt(k));
      assert n * (SumBy(front, UnitsAt(k.item)) + UnitsAt(k.item)(last))
          == n * SumBy(front, UnitsAt(k.item)) + n * UnitsAt(k.item)(last);
    }
  }

  function ShelfAt(s: Stock.State, location: Id): Id -> int {
    (item: Id) => if Stock.Key(location, item) in s.rows then ShelfOf(s.rows[Stock.Key(location, item)]) else 0
  }

  lemma AllNeedsFit(leaves: seq<Leaf>, n: int, s: Stock.State, location: Id)
    requires Stock.Consistent(s) && EachOnce(leaves) && PositiveLeaves(leaves) && n > 0
    ensures (forall k: Stock.Key :: SumBy(LeafLocks(leaves, n, location), Laws.NeedAt(k)) <= Stock.Shelf(s, k))
        <==> forall l :: l in leaves ==> n * l.quantity <= ShelfAt(s, location)(l.item.id)
  {
    var locks := LeafLocks(leaves, n, location);
    forall k: Stock.Key
      ensures SumBy(locks, Laws.NeedAt(k)) == if k.location == location then n * SumBy(leaves, UnitsAt(k.item)) else 0
    {
      NeedsOfLeaves(leaves, n, location, k);
    }
    if forall k: Stock.Key :: SumBy(locks, Laws.NeedAt(k)) <= Stock.Shelf(s, k) {
      forall l | l in leaves ensures n * l.quantity <= ShelfAt(s, location)(l.item.id) {
        OnceIsAll(leaves, l);
        assert SumBy(locks, Laws.NeedAt(Stock.Key(location, l.item.id))) <= Stock.Shelf(s, Stock.Key(location, l.item.id));
      }
    }
    if forall l :: l in leaves ==> n * l.quantity <= ShelfAt(s, location)(l.item.id) {
      forall k: Stock.Key ensures SumBy(locks, Laws.NeedAt(k)) <= Stock.Shelf(s, k) {
        KeyFits(leaves, n, s, location, k);
      }
    }
  }

  lemma KeyFits(leaves: seq<Leaf>, n: int, s: Stock.State, location: Id, k: Stock.Key)
    requires Stock.Consistent(s) && EachOnce(leaves) && n > 0
    requires forall l :: l in leaves ==> n * l.quantity <= ShelfAt(s, location)(l.item.id)
    ensures (if k.location == location then n * SumBy(leaves, UnitsAt(k.item)) else 0) <= Stock.Shelf(s, k)
  {
    assert Stock.Shelf(s, k) >= 0;
    if l :| l in leaves && l.item.id == k.item {
      OnceIsAll(leaves, l);
      assert k.location == location ==> k == Stock.Key(location, k.item);
    } else {
      SumByZero(leaves, UnitsAt(k.item));
    }
  }

  lemma OneComboRows(c: Id, n: int, location: Id, leaves: seq<Leaf>)
    requires NoCombos(leaves)
    ensures LocksFor(OrderRows([PricedLine(Item(c, Combo), n, Some(location))], map[c := leaves]), location)
         == LeafLocks(StockedLeaves(leaves), n, location)
  {
    var line := PricedLine(Item(c, Combo), n, Some(location));
    assert [line][..0] == [];
    assert OrderRows([], map[c := leaves]) == [];
    assert OrderRows([line], map[c := leaves]) == [PricedRow(line)] + LeafRows(line, leaves, 0);
    ComboRowsLock(line, leaves, location);
  }

  lemma LockingLeaves(leaves: seq<Leaf>, n: int, s: Stock.State, location: Id)
    requires Stock.Consistent(s) && EachOnce(leaves) && PositiveLeaves(leaves) && leaves != [] && n > 0
    ensures Ops.LockStock(s, LeafLocks(leaves, n, location)).Ok? <==> n <= LeastSets(leaves, ShelfAt(s, location))
  {
    hide Stock.Consistent, Ops.LockEach, LeastSets;
    var locks := LeafLocks(leaves, n, location);
    forall l | l in locks ensures l.quantity > 0 {
      var i :| 0 <= i < |locks| && locks[i] == l;
      assert leaves[i] in leaves && n * leaves[i].quantity > 0;
    }
    Laws.LockEachAllOrSome(s, locks);
    AllNeedsFit(leaves, n, s, location);
    LeastSetsMeans(leaves, ShelfAt(s, location), n);
  }

  /** Main result. For a combo with at least one stocked leaf, packing `n` sets at a location locks
      them exactly when `n` is no more than the number of sets shown as available there. */
  lemma LockingSets(c: Id, g: Graph, n: int, s: Stock.State, location: Id)
    requires Stock.Consistent(s) && Positive(g) && FlattenCombo(c, g).Leaves? && n > 0
    requires StockedLeaves(FlattenCombo(c, g).leaves) != []
    ensures PositiveLeaves(FlattenCombo(c, g).leaves)
    ensures var leaves := FlattenCombo(c, g).leaves;
      var rows := OrderRows([PricedLine(Item(c, Combo), n, Some(location))], map[c := leaves]);
      Ops.LockStock(s, LocksFor(rows, location)).Ok? <==> n <= ComboSetsAvailable(leaves, ShelfAt(s, location))
  {
    hide FlattenCombo, Stock.Consistent, Ops.LockStock, LocksFor, OrderRows, StockedLeaves, LeastSets;
    LeavesPositive(c, g);
    FlattenMeaning(c, g);
    var leaves := FlattenCombo(c, g).leaves;
    OneComboRows(c, n, location, leaves);
    StockedOnce(leaves);
    LockingLeaves(StockedLeaves(leaves), n, s, location);
  }
}
