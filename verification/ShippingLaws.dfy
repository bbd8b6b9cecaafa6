/** When the routes of the journey that move goods are accepted, and what they then leave: packing takes
    locks, shipping and handing over take the goods, cancelling gives the locks back. */
module ShippingLaws {
  import opened Common
  import opened LotAllocation
  import opened StockLedger
  import opened StockOperations
  import opened StockInvariants
  import opened LotOrder
  import opened OrderJourney
  import opened JourneyLaws

  // ---------------------------------------------------------------- lots for a line, lots for all

  function MadeForAt(k: Key, line: Id): Lot -> int {
    (l: Lot) => if l.key == k && l.madeFor == Some(line) then l.remaining else 0
  }

  function OpenAt(k: Key): Lot -> int { (l: Lot) => if l.key == k && l.madeFor == None then l.remaining else 0 }

  /** Units at a key made for an order line. */
  function OwnUnits(s: State, k: Key, line: Id): int { SumBy(s.lots, MadeForAt(k, line)) }

  /** Units at a key open to everybody. */
  function SharedUnits(s: State, k: Key): int { SumBy(s.lots, OpenAt(k)) }

  lemma {:induction false} SameLotSum(a: seq<Lot>, b: seq<Lot>, f: Lot -> int)
    requires |a| == |b| && forall i :: 0 <= i < |a| ==> f(a[i]) == f(b[i])
    ensures SumBy(a, f) == SumBy(b, f)
  {
    if a != [] { SameLotSum(a[..|a| - 1], b[..|b| - 1], f); }
  }

  lemma UnitsNonNegative(s: State, f: Lot -> int)
    requires Consistent(s) && forall l: Lot :: f(l) == l.remaining || f(l) == 0
    ensures SumBy(s.lots, f) >= 0
  {
    forall l | l in s.lots ensures f(l) >= 0 {
      var i :| 0 <= i < |s.lots| && s.lots[i] == l;
    }
    SumByNonNegative(s.lots, f);
  }

  /** What a line may draw at a key: its own lots and those open to all. */
  lemma StockParts(s: State, k: Key, line: Id)
    requires Consistent(s)
    ensures StockAt(s, k) - SumBy(s.lots, ReservedUnits(k, Some(line))) == OwnUnits(s, k, line) + SharedUnits(s, k)
  {
    StockSplits(s, k, Some(line));
    SumByAdd(s.lots, MadeForAt(k, line), OpenAt(k), OpenUnits(k, Some(line)));
  }

  /** Lots a draw leaves alone keep every sum over them. */
  lemma UntouchedSum(s: State, t: State, k: Key, line: Option<Id>, f: Lot -> int)
    requires InOrder(s, t, k, line)
    requires forall i :: 0 <= i < |s.lots| && Fell(s, t, i) ==> f(s.lots[i]) == f(t.lots[i])
    ensures SumBy(t.lots, f) == SumBy(s.lots, f)
  {
    forall i | 0 <= i < |s.lots| ensures f(t.lots[i]) == f(s.lots[i]) {
      if !Fell(s, t, i) { assert t.lots[i] == s.lots[i]; }
    }
    SameLotSum(t.lots, s.lots, f);
  }

  /** Beyond the key and the line nothing moves: not another key, not what is made for another line. */
  lemma DrawElsewhere(s: State, t: State, k: Key, line: Id, x: Key, other: Id)
    requires InOrder(s, t, k, Some(line))
    ensures x != k ==> SharedUnits(t, x) == SharedUnits(s, x)
    ensures x != k || other != line ==> OwnUnits(t, x, other) == OwnUnits(s, x, other)
  {
    if x != k { UntouchedSum(s, t, k, Some(line), OpenAt(x)); }
    if x != k || other != line { UntouchedSum(s, t, k, Some(line), MadeForAt(x, other)); }
  }

  lemma OwnDrained(s: State, t: State, k: Key, line: Id, j: nat)
    requires InOrder(s, t, k, Some(line)) && j < |s.lots| && Fell(s, t, j) && s.lots[j].madeFor == None
    ensures OwnUnits(t, k, line) == 0
  {
    forall l | l in t.lots ensures MadeForAt(k, line)(l) == 0 {
      var i :| 0 <= i < |t.lots| && t.lots[i] == l;
      if l.key == k && l.madeFor == Some(line) { assert TakenBefore(s.lots, i, j, Some(line)); }
    }
    SumByZero(t.lots, MadeForAt(k, line));
  }

  lemma {:induction false} SomeFell(a: seq<Lot>, b: seq<Lot>, k: Key)
    requires |a| == |b| && SumBy(b, OpenAt(k)) != SumBy(a, OpenAt(k))
    requires forall i :: 0 <= i < |a| ==> b[i] == a[i].(remaining := b[i].remaining) && b[i].remaining <= a[i].remaining
    ensures exists j :: 0 <= j < |a| && b[j].remaining < a[j].remaining && a[j].key == k && a[j].madeFor == None
    ensures SumBy(b, OpenAt(k)) < SumBy(a, OpenAt(k))
  {
    var n := |a| - 1;
    if SumBy(b[..n], OpenAt(k)) != SumBy(a[..n], OpenAt(k)) {
      SomeFell(a[..n], b[..n], k);
      var j :| 0 <= j < n && b[..n][j].remaining < a[..n][j].remaining && a[..n][j].key == k && a[..n][j].madeFor == None;
      assert b[j].remaining < a[j].remaining && a[j].key == k && a[j].madeFor == None;
    } else {
      assert b[n].remaining < a[n].remaining;
    }
  }

  /** A draw empties the line's own lots first and takes the rest from those open to all. */
  lemma DrawSplits(s: State, t: State, k: Key, line: Id, quantity: int)
    requires Consistent(s) && Consistent(t) && InOrder(s, t, k, Some(line)) && quantity > 0
    requires StockAt(t, k) == StockAt(s, k) - quantity
    ensures OwnUnits(t, k, line) == Max(0, OwnUnits(s, k, line) - quantity)
    ensures SharedUnits(t, k) == SharedUnits(s, k) - Max(0, quantity - OwnUnits(s, k, line))
  {
    hide Consistent;
    StockParts(s, k, line);
    StockParts(t, k, line);
    UntouchedSum(s, t, k, Some(line), ReservedUnits(k, Some(line)));
    UnitsNonNegative(s, MadeForAt(k, line));
    UnitsNonNegative(t, MadeForAt(k, line));
    if SharedUnits(t, k) != SharedUnits(s, k) {
      SomeFell(s.lots, t.lots, k);
      var j :| 0 <= j < |s.lots| && t.lots[j].remaining < s.lots[j].remaining && s.lots[j].key == k && s.lots[j].madeFor == None;
      OwnDrained(s, t, k, line, j);
    }
  }

  // ---------------------------------------------------------------- shipping a pack

  function KeyOf(lines: seq<OrderLine>, location: Id, x: PackedItem): Key { Key(location, SkuOf(lines, x.line)) }

  /** What a packed item needs at a key beyond the lots made for its line. */
  function Beyond(s: State, lines: seq<OrderLine>, location: Id, k: Key): PackedItem -> int {
    (x: PackedItem) => if KeyOf(lines, location, x) == k then Max(0, x.quantity - OwnUnits(s, k, x.line)) else 0
  }

  /** The lots suffice: key by key, what the lines need beyond the lots made for them is there for all. */
  ghost predicate LotsSuffice(s: State, lines: seq<OrderLine>, location: Id, items: seq<PackedItem>) {
    forall k: Key :: SumBy(items, Beyond(s, lines, location, k)) <= SharedUnits(s, k)
  }

  function SoldRow(order: Id, k: Key, line: Id): Entry -> int {
    (e: Entry) => if e.key == k && e.cause == LedgerRef(Sale, Order, order, Some(line)) then e.quantity else 0
  }

  function PackedAs(lines: seq<OrderLine>, location: Id, k: Key, line: Id): PackedItem -> int {
    (x: PackedItem) => if KeyOf(lines, location, x) == k && x.line == line then x.quantity else 0
  }

  /** The goods of the pack left: stock and locks fell by them, lots made for the lines before lots for all,
      and the ledger has them as sales of the order, line by line. */
  ghost predicate Left(s: State, t: State, order: Id, lines: seq<OrderLine>, location: Id, items: seq<PackedItem>) {
    && LocksLowered(s, t, LocksOf(lines, location, items))
    && (forall k: Key :: StockAt(t, k) == StockAt(s, k) - SumBy(LocksOf(lines, location, items), NeedAt(k)))
    && (forall k: Key :: SharedUnits(t, k) == SharedUnits(s, k) - SumBy(items, Beyond(s, lines, location, k)))
    && (forall k: Key, line :: (forall x :: x in items ==> x.line != line) ==> OwnUnits(t, k, line) == OwnUnits(s, k, line))
    && (forall k: Key, line :: SumBy(t.ledger, SoldRow(order, k, line))
                            == SumBy(s.ledger, SoldRow(order, k, line)) - SumBy(items, PackedAs(lines, location, k, line)))
  }

  lemma LedgerIsStock(s: State, k: Key)
    requires Consistent(s)
    ensures StockAt(s, k) == SumBy(s.ledger, MovedAt(k))
  {}

  lemma NewRows(s: State, t: State, k: Key, quantity: int, cause: LedgerRef) returns (rows: seq<Entry>)
    requires Took(s, t, k, quantity, cause)
    ensures t.ledger == s.ledger + rows && forall e :: e in rows ==> e.key == k && e.cause == cause
  {
    rows := t.ledger[|s.ledger|..];
    assert t.ledger == s.ledger + rows;
    forall e | e in rows ensures e.key == k && e.cause == cause {
      var j :| 0 <= j < |rows| && rows[j] == e;
      assert t.ledger[|s.ledger| + j] == e;
    }
  }

  lemma TookStock(s: State, t: State, k: Key, quantity: int, cause: LedgerRef)
    requires Took(s, t, k, quantity, cause)
    ensures StockAt(t, k) == StockAt(s, k) - quantity
  {}

  /** The rows of one draw add up to it, under its cause alone. */
  lemma TookRows(s: State, t: State, k: Key, quantity: int, order: Id, line: Id, x: Key, other: Id)
    requires Consistent(s) && Consistent(t) && Took(s, t, k, quantity, ShipCause(order, line))
    ensures SumBy(t.ledger, SoldRow(order, x, other))
         == SumBy(s.ledger, SoldRow(order, x, other)) - if x == k && other == line then quantity else 0
  {
    hide Consistent, Took, StockAt, SumBy;
    TookStock(s, t, k, quantity, ShipCause(order, line));
    var rows := NewRows(s, t, k, quantity, ShipCause(order, line));
    SumByConcat(s.ledger, rows, SoldRow(order, x, other));
    if x == k && other == line {
      SumByConcat(s.ledger, rows, MovedAt(k));
      SumBySame(rows, SoldRow(order, x, other), MovedAt(k));
      LedgerIsStock(s, k);
      LedgerIsStock(t, k);
    } else {
      SumByZero(rows, SoldRow(order, x, other));
    }
  }

  /** One locked good is shipped exactly when its lock is there and the lots its line may draw hold it. */
  lemma ShipOneWhen(s: State, k: Key, quantity: int, cause: LedgerRef, line: Id)
    requires Consistent(s) && quantity > 0 && cause.line == Some(line)
    ensures ShipLockedStock(s, k, quantity, cause).Ok?
        <==> LockedAt(s, k) >= quantity && quantity <= OwnUnits(s, k, line) + SharedUnits(s, k)
    ensures LockedAt(s, k) >= quantity && quantity > OwnUnits(s, k, line) + SharedUnits(s, k) ==>
      ShipLockedStock(s, k, quantity, cause) == Err(InventoryLotShortage)
  {
    hide Consistent, QueryLots, DrawPlan;
    if LockedAt(s, k) >= quantity {
      var u := Relock(s, k, -quantity);
      RelockFits(s, k, quantity);
      RelockKeeps(s, k, -quantity);
      DrawPossible(u, k, quantity, Some(line));
      StockParts(u, k, line);
      assert u.lots == s.lots;
    }
  }

  lemma ShipOneLeaves(s: State, order: Id, k: Key, quantity: int, line: Id)
    requires Consistent(s) && ShipLockedStock(s, k, quantity, ShipCause(order, line)).Ok?
    ensures var t := ShipLockedStock(s, k, quantity, ShipCause(order, line)).value;
      && Consistent(t) && quantity > 0
      && InOrder(s, t, k, Some(line)) && Took(s, t, k, quantity, ShipCause(order, line))
      && OwnUnits(t, k, line) == Max(0, OwnUnits(s, k, line) - quantity)
      && SharedUnits(t, k) == SharedUnits(s, k) - Max(0, quantity - OwnUnits(s, k, line))
      && forall x: Key :: LockedAt(t, x) == LockedAt(s, x) - if x == k then quantity else 0
  {
    hide Consistent, Draw, InOrder;
    var t := ShipLockedStock(s, k, quantity, ShipCause(order, line)).value;
    ShipKeeps(s, k, quantity, ShipCause(order, line));
    ShipOldestFirst(s, k, quantity, ShipCause(order, line));
    DrawSplits(s, t, k, line, quantity);
  }

  lemma ItemsPrefix(lines: seq<OrderLine>, location: Id, items: seq<PackedItem>)
    requires items != [] && ItemsApart(items) && AllPositive(LocksOf(lines, location, items))
    ensures var front, last := items[..|items| - 1], items[|items| - 1];
      && ItemsApart(front) && AllPositive(LocksOf(lines, location, front)) && last.quantity > 0
      && (forall x :: x in front ==> x.line != last.line)
      && LocksOf(lines, location, items) == LocksOf(lines, location, front) + [LockLine(KeyOf(lines, location, last), last.quantity)]
  {
    var front, last := items[..|items| - 1], items[|items| - 1];
    LocksOfPrefix(lines, location, items);
    var locks := LocksOf(lines, location, items);
    assert locks[|items| - 1] in locks;
    forall l | l in LocksOf(lines, location, front) ensures l in locks {}
    forall x | x in front ensures x.line != last.line {
      var i :| 0 <= i < |front| && front[i] == x;
      assert items[i].line != items[|items| - 1].line;
    }
  }

  /** One item more. */
  lemma LeftOneMore(s: State, t: State, u: State, order: Id, lines: seq<OrderLine>, location: Id, front: seq<PackedItem>, last: PackedItem)
    requires Consistent(t) && Left(s, t, order, lines, location, front)
    requires var k := KeyOf(lines, location, last);
      ShipLockedStock(t, k, last.quantity, ShipCause(order, last.line)) == Ok(u)
    requires forall x :: x in front ==> x.line != last.line
    requires LocksOf(lines, location, front + [last])
          == LocksOf(lines, location, front) + [LockLine(KeyOf(lines, location, last), last.quantity)]
    ensures Consistent(u) && Left(s, u, order, lines, location, front + [last])
  {
    hide Consistent, ShipLockedStock, InOrder, LocksOf, OwnUnits, SharedUnits;
    var items, k := front + [last], KeyOf(lines, location, last);
    var lock := LockLine(k, last.quantity);
    ShipOneLeaves(t, order, k, last.quantity, last.line);
    forall x: Key ensures LockedAt(u, x) == LockedAt(s, x) - SumBy(LocksOf(lines, location, items), NeedAt(x))
                  ensures StockAt(u, x) == StockAt(s, x) - SumBy(LocksOf(lines, location, items), NeedAt(x))
                  ensures SharedUnits(u, x) == SharedUnits(s, x) - SumBy(items, Beyond(s, lines, location, x))
    {
      SumByAppend(LocksOf(lines, location, front), lock, NeedAt(x));
      SumByAppend(front, last, Beyond(s, lines, location, x));
      DrawElsewhere(t, u, k, last.line, x, last.line);
      assert LockedAt(t, x) == LockedAt(s, x) - SumBy(LocksOf(lines, location, front), NeedAt(x));
    }
    forall x: Key, line | forall y :: y in items ==> y.line != line ensures OwnUnits(u, x, line) == OwnUnits(s, x, line) {
      assert last in items && forall y :: y in front ==> y in items;
      DrawElsewhere(t, u, k, last.line, x, line);
    }
    forall x: Key, line
      ensures SumBy(u.ledger, SoldRow(order, x, line))
           == SumBy(s.ledger, SoldRow(order, x, line)) - SumBy(items, PackedAs(lines, location, x, line))
    {
      SumByAppend(front, last, PackedAs(lines, location, x, line));
      TookRows(t, u, k, last.quantity, order, last.line, x, line);
    }
  }

  lemma NothingLeft(s: State, order: Id, lines: seq<OrderLine>, location: Id)
    ensures Left(s, s, order, lines, location, [])
  {
    assert LocksOf(lines, location, []) == [];
  }

  /** The lots suffice for all items exactly when they do for the front and, once that has left, for the last. */
  lemma SufficeStep(s: State, t: State, order: Id, lines: seq<OrderLine>, location: Id, front: seq<PackedItem>, last: PackedItem)
    requires Consistent(t) && Left(s, t, order, lines, location, front) && LotsSuffice(s, lines, location, front)
    requires forall x :: x in front ==> x.line != last.line
    ensures var k := KeyOf(lines, location, last);
      LotsSuffice(s, lines, location, front + [last])
      <==> last.quantity <= OwnUnits(t, k, last.line) + SharedUnits(t, k)
  {
    hide Consistent, LocksOf, OwnUnits, SharedUnits;
    var items, k := front + [last], KeyOf(lines, location, last);
    assert OwnUnits(t, k, last.line) == OwnUnits(s, k, last.line);
    assert SharedUnits(t, k) == SharedUnits(s, k) - SumBy(front, Beyond(s, lines, location, k));
    SumByAppend(front, last, Beyond(s, lines, location, k));
    SharedNonNegative(t, k);
    forall x: Key | x != k ensures SumBy(items, Beyond(s, lines, location, x)) <= SharedUnits(s, x) {
      SumByAppend(front, last, Beyond(s, lines, location, x));
    }
  }

  lemma SharedNonNegative(s: State, k: Key)
    requires Consistent(s)
    ensures SharedUnits(s, k) >= 0
  {
    UnitsNonNegative(s, OpenAt(k));
  }

  lemma FrontSuffices(s: State, lines: seq<OrderLine>, location: Id, front: seq<PackedItem>, last: PackedItem)
    requires LotsSuffice(s, lines, location, front + [last])
    ensures LotsSuffice(s, lines, location, front)
  {
    hide OwnUnits, SharedUnits;
    forall k: Key ensures SumBy(front, Beyond(s, lines, location, k)) <= SharedUnits(s, k) {
      SumByAppend(front, last, Beyond(s, lines, location, k));
    }
  }

  lemma NothingToSuffice(s: State, lines: seq<OrderLine>, location: Id)
    requires Consistent(s)
    ensures LotsSuffice(s, lines, location, [])
  {
    forall k: Key ensures SharedUnits(s, k) >= 0 { SharedNonNegative(s, k); }
  }

  /** Main result on shipping. A pack leaves exactly when its locks are all there and the lots suffice -
      those made for its lines, and for the rest those open to all - whatever the order of its items and
      however many lines share a product; then its goods have left as sales of their lines. */
  lemma {:induction false} ShipAllWhen(s: State, order: Id, lines: seq<OrderLine>, location: Id, items: seq<PackedItem>)
    requires Consistent(s) && ItemsApart(items) && AllPositive(LocksOf(lines, location, items))
    ensures var r := ShipAll(s, order, lines, location, items);
      && (r.Ok? <==> LocksCover(s, LocksOf(lines, location, items)) && LotsSuffice(s, lines, location, items))
      && (r.Ok? ==> Consistent(r.value) && Left(s, r.value, order, lines, location, items))
  {
    hide Consistent, LocksOf, ShipLockedStock, LocksCover, LocksLowered, LotsSuffice, Left, OwnUnits, SharedUnits;
    if items == [] {
      NothingLeft(s, order, lines, location);
      NothingToSuffice(s, lines, location);
      NoLocks(lines, location);
      NothingToCover(s);
    } else {
      var front, last := items[..|items| - 1], items[|items| - 1];
      var k := KeyOf(lines, location, last);
      assert items == front + [last];
      ItemsPrefix(lines, location, items);
      FrontCovered(s, LocksOf(lines, location, items));
      ShipAllWhen(s, order, lines, location, front);
      if LotsSuffice(s, lines, location, items) { FrontSuffices(s, lines, location, front, last); }
      LocksOfPrefix(lines, location, items);
      if ShipAll(s, order, lines, location, front).Ok? {
        var t := ShipAll(s, order, lines, location, front).value;
        LoweredOnLeaving(s, t, order, lines, location, front);
        CoverStep(s, t, LocksOf(lines, location, items));
        SufficeStep(s, t, order, lines, location, front, last);
        ShipOneWhen(t, k, last.quantity, ShipCause(order, last.line), last.line);
        var r := ShipLockedStock(t, k, last.quantity, ShipCause(order, last.line));
        assert ShipAll(s, order, lines, location, items) == r;
        if r.Ok? { LeftOneMore(s, t, r.value, order, lines, location, front, last); }
      }
    }
  }

  lemma NoLocks(lines: seq<OrderLine>, location: Id)
    ensures LocksOf(lines, location, []) == []
  {}

  lemma LoweredOnLeaving(s: State, t: State, order: Id, lines: seq<OrderLine>, location: Id, items: seq<PackedItem>)
    requires Left(s, t, order, lines, location, items)
    ensures LocksLowered(s, t, LocksOf(lines, location, items))
  {}

  // ---------------------------------------------------------------- the routes

  /** The goods an order holds packed can leave: their locks are there and the lots suffice. */
  ghost predicate CanLeave(w: World, id: nat)
    requires id < |w.orders| && |w.orders[id].packs| == 1
  {
    var now, p := w.orders[id], w.orders[id].packs[0];
    LocksCover(w.stock, LocksOf(now.lines, p.location, p.items)) && LotsSuffice(w.stock, now.lines, p.location, p.items)
  }

  /** And they did: order `id` is now `after`, no other order changed, and nothing else of the stock. */
  ghost predicate HasLeft(w: World, id: nat, x: World, after: JourneyOrder)
    requires id < |w.orders| && |w.orders[id].packs| == 1
  {
    var now, p := w.orders[id], w.orders[id].packs[0];
    && x == World(x.stock, w.orders[id := after.(version := now.version + 1)], w.skus, w.lineIds)
    && Left(w.stock, x.stock, id, now.lines, p.location, p.items)
  }

  lemma PackedLeave(w: World, id: nat)
    requires Tidy(w) && id < |w.orders| && Holding(w.orders[id].status)
    ensures |w.orders[id].packs| == 1
    ensures var now, p := w.orders[id], w.orders[id].packs[0];
      var r := ShipAll(w.stock, id, now.lines, p.location, p.items);
      && (r.Ok? <==> CanLeave(w, id))
      && (r.Ok? ==> Left(w.stock, r.value, id, now.lines, p.location, p.items))
  {
    hide Consistent, ShipAll, LocksCover, LotsSuffice, Left;
    var now := w.orders[id];
    HoldsArePositive(now);
    ShipAllWhen(w.stock, id, now.lines, now.packs[0].location, now.packs[0].items);
  }

  /** Main result on handing over at the counter. It is accepted exactly when the order was read and still
      is PACKED, its customer picks it up, nothing is due, and its goods can leave. Then it is COMPLETED,
      its pack HANDED_OVER, and the goods have left. */
  lemma HandOverWhen(w: World, id: nat, read: JourneyOrder, amountDue: int)
    requires Tidy(w) && id < |w.orders| && WellFormed(read) && Later(read, w.orders[id])
    ensures w.orders[id].status == Packed ==> |w.orders[id].packs| == 1
    ensures CommitHandOver(w, id, read, amountDue).Ok? <==>
      && read.kind == StorePickup && read.status == Packed && amountDue <= 0
      && w.orders[id].status == Packed && CanLeave(w, id)
    ensures CommitHandOver(w, id, read, amountDue).Ok? ==>
      var now := w.orders[id];
      HasLeft(w, id, CommitHandOver(w, id, read, amountDue).value,
              now.(status := Completed, packs := [now.packs[0].(status := HandedOver)]))
  {
    hide Consistent, ShipAll, LocksCover, LotsSuffice, Left, CanLeave;
    var now := w.orders[id];
    if read.status == Packed && now.status == Packed {
      FirstPackFound(read.packs, InPack);
      assert read.packs == now.packs && read.lines == now.lines;
      PackedLeave(w, id);
      assert now.packs[0 := now.packs[0].(status := HandedOver)] == [now.packs[0].(status := HandedOver)];
    }
  }

  /** Main result on shipping an order. It is accepted exactly when the order was read and still is PICKED_UP
      and its goods can leave. Then it is SHIPPING and the goods have left. */
  lemma ShipWhen(w: World, id: nat, read: JourneyOrder)
    requires Tidy(w) && id < |w.orders| && WellFormed(read) && Later(read, w.orders[id])
    ensures w.orders[id].status == PickedUp ==> |w.orders[id].packs| == 1
    ensures CommitShip(w, id, read).Ok? <==>
      read.status == PickedUp && w.orders[id].status == PickedUp && CanLeave(w, id)
    ensures CommitShip(w, id, read).Ok? ==>
      HasLeft(w, id, CommitShip(w, id, read).value, w.orders[id].(status := Shipping))
  {
    hide Consistent, ShipAll, LocksCover, LotsSuffice, Left, CanLeave;
    var now := w.orders[id];
    if read.status == PickedUp && now.status == PickedUp {
      FirstPackFound(read.packs, HandedOver);
      assert read.packs == now.packs && read.lines == now.lines;
      PackedLeave(w, id);
    }
  }

  /** The goods of a cancelled order are on the shelf again: its packs are withdrawn, its locks given back,
      and neither stock nor lots nor ledger moved. */
  lemma CancelLeaves(w: World, id: nat, read: JourneyOrder)
    requires Tidy(w) && id < |w.orders| && WellFormed(read) && Later(read, w.orders[id])
    requires CommitCancel(w, id, read).Ok?
    ensures var x, now := CommitCancel(w, id, read).value, w.orders[id];
      && x.orders[id].status == Cancelled && x.orders[id].lines == now.lines && x.orders[id].kind == now.kind
      && (forall p :: p in x.orders[id].packs ==> p.status == Withdrawn)
      && (forall k: Key :: LockedAt(x.stock, k) == LockedAt(w.stock, k) - HeldBy(k)(now))
      && (forall k: Key :: StockAt(x.stock, k) == StockAt(w.stock, k))
      && x.stock == w.stock.(rows := x.stock.rows)
  {
    hide Consistent, ReleaseAll, HoldsOf, LocksCover;
    var now := w.orders[id];
    var holds := HoldsOf(read.lines, read.packs);
    HoldsArePositive(read);
    HoldsArePositive(now);
    ReleaseAllEffect(w.stock, holds);
    ReleaseMovesLocksOnly(w.stock, holds);
  }

  lemma {:induction false} ReleaseMovesLocksOnly(s: State, holds: seq<LockLine>)
    requires ReleaseAll(s, holds).Ok?
    ensures var t := ReleaseAll(s, holds).value;
      t == s.(rows := t.rows) && forall k: Key :: StockAt(t, k) == StockAt(s, k)
  {
    if holds != [] { ReleaseMovesLocksOnly(s, holds[..|holds| - 1]); }
  }

  // ---------------------------------------------------------------- packing

  /** All lines ship from one place. */
  predicate ShipFrom(lines: seq<OrderLine>, location: Id) {
    lines != [] && forall l :: l in lines ==> l.source == Some(location)
  }

  lemma PackLocationMeans(lines: seq<OrderLine>, location: Id)
    requires lines != []
    ensures PackLocation(lines) == Ok(location) <==> ShipFrom(lines, location)
  {
    assert lines[0] in lines;
    if ShipFrom(lines, location) {
      assert Sources(lines) == {location} by {
        assert lines[0].source.value in Sources(lines);
      }
    } else if PackLocation(lines) == Ok(location) {
      forall l | l in lines ensures l.source == Some(location) {
        assert l.source.Some? && l.source.value in Sources(lines) && location in Sources(lines);
        if l.source.value != location { TwoElements(Sources(lines), l.source.value, location); }
      }
    }
  }

  lemma TwoElements(s: set<Id>, a: Id, b: Id)
    requires a in s && b in s && a != b
    ensures |s| >= 2
  {
    assert s == (s - {a}) + {a} && b in s - {a};
  }

  /** What the stocked lines need of a key. */
  function NeededAt(location: Id, k: Key): OrderLine -> int {
    (l: OrderLine) => if Key(location, l.item) == k then l.quantity else 0
  }

  lemma {:induction false} TakenNeeds(location: Id, lines: seq<OrderLine>, k: Key)
    ensures SumBy(LocksTaken(location, lines), NeedAt(k)) == SumBy(lines, NeededAt(location, k))
  {
    if lines != [] {
      var front, last := lines[..|lines| - 1], lines[|lines| - 1];
      TakenNeeds(location, front, k);
      assert LocksTaken(location, lines) == LocksTaken(location, front) + [LockLine(Key(location, last.item), last.quantity)];
      SumByAppend(LocksTaken(location, front), LockLine(Key(location, last.item), last.quantity), NeedAt(k));
    }
  }

  lemma TakenPositive(location: Id, lines: seq<OrderLine>)
    ensures AllPositive(LocksTaken(location, lines)) <==> forall l :: l in lines ==> l.quantity > 0
  {
    var locks := LocksTaken(location, lines);
    if AllPositive(locks) {
      forall l | l in lines ensures l.quantity > 0 {
        var i :| 0 <= i < |lines| && lines[i] == l;
        assert locks[i] in locks;
      }
    } else {
      var l :| l in locks && l.quantity <= 0;
      var i :| 0 <= i < |locks| && locks[i] == l;
      assert lines[i] in lines;
    }
  }

  /** What is to be packed, as it was read, can be: it is for one place, of lines that still stand, and on
      the shelf. */
  ghost predicate CanPack(w: World, read: JourneyOrder, now: JourneyOrder, location: Id) {
    var lines := StockedLines(read.lines);
    && ShipFrom(lines, location)
    && (forall l :: l in lines ==> l.quantity > 0 && LineAt(now.lines, l.id).Some?)
    && (forall k: Key :: SumBy(lines, NeededAt(location, k)) <= Shelf(w.stock, k))
  }

  /** Main result on packing. It is accepted exactly when the order was read and still is CONFIRMED and what
      was read can be packed. Then it is PACKED, its one pack is of the stocked lines as read, and the locks
      grew by them. */
  lemma PackWhen(w: World, id: nat, read: JourneyOrder)
    requires Tidy(w) && id < |w.orders|
    ensures CommitPack(w, id, read).Ok? <==>
      && read.status == Confirmed && w.orders[id].status == Confirmed
      && exists location :: CanPack(w, read, w.orders[id], location)
    ensures CommitPack(w, id, read).Ok? ==>
      exists location :: CanPack(w, read, w.orders[id], location) && HasPacked(w, id, read, CommitPack(w, id, read).value, location)
  {
    hide Consistent, LockStock, LocksTaken, StockedLines, PackedItems, PackLocation, ShipFrom, LineAt;
    var lines, r := StockedLines(read.lines), CommitPack(w, id, read);
    if lines == [] {
      forall location: Id ensures !ShipFrom(lines, location) { NotFromNowhere(location); }
    } else {
      forall location: Id ensures PackLocation(lines) == Ok(location) <==> ShipFrom(lines, location) {
        PackLocationMeans(lines, location);
      }
      if PackLocation(lines).Ok? {
        var location := PackLocation(lines).value;
        PackLocks(w.stock, location, lines);
        assert ShipFrom(lines, location);
        assert CanPack(w, read, w.orders[id], location) <==>
          (forall l :: l in lines ==> LineAt(w.orders[id].lines, l.id).Some?) && LockStock(w.stock, LocksTaken(location, lines)).Ok?;
        forall other: Id | ShipFrom(lines, other) ensures other == location { assert PackLocation(lines) == Ok(other); }
      }
    }
  }

  lemma NotFromNowhere(location: Id)
    ensures !ShipFrom([], location)
  {}

  lemma PackLocks(s: State, location: Id, lines: seq<OrderLine>)
    requires Consistent(s)
    ensures var r := LockStock(s, LocksTaken(location, lines));
      && (r.Ok? <==> (forall l :: l in lines ==> l.quantity > 0)
                     && (forall k: Key :: SumBy(lines, NeededAt(location, k)) <= Shelf(s, k)))
      && (r.Ok? ==> LocksRaised(s, r.value, location, lines))
  {
    hide Consistent, LocksTaken, LockEach;
    var locks := LocksTaken(location, lines);
    TakenPositive(location, lines);
    forall k: Key ensures SumBy(locks, NeedAt(k)) == SumBy(lines, NeededAt(location, k)) { TakenNeeds(location, lines, k); }
    if AllPositive(locks) {
      LockEachAllOrSome(s, locks);
      LockEachKeeps(s, locks);
    }
  }

  /** Only locks moved: each key's grew by what the lines need of it. */
  ghost predicate LocksRaised(s: State, t: State, location: Id, lines: seq<OrderLine>) {
    && t == s.(rows := t.rows) && (forall k: Key :: StockAt(t, k) == StockAt(s, k))
    && forall k: Key :: LockedAt(t, k) == LockedAt(s, k) + SumBy(lines, NeededAt(location, k))
  }

  ghost predicate HasPacked(w: World, id: nat, read: JourneyOrder, x: World, location: Id)
    requires id < |w.orders|
  {
    var now, lines := w.orders[id], StockedLines(read.lines);
    && LocksRaised(w.stock, x.stock, location, lines)
    && x == World(x.stock, w.orders[id := now.(status := Packed, version := now.version + 1,
                                               packs := now.packs + [Pack(location, PackedItems(lines), InPack)])], w.skus, w.lineIds)
  }
}
