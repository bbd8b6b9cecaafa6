/** What one transaction of the journey promises. Locked units that no order counts on, less units an
    order counts on that are not locked, are the stray units of a key: only packing can change them. */
module JourneyLaws {
  import opened Common
  import opened LotAllocation
  import opened StockLedger
  import opened StockOperations
  import opened StockInvariants
  import opened OrderJourney

  // ---------------------------------------------------------------- giving locks back

  ghost predicate LocksCover(s: State, holds: seq<LockLine>) {
    forall k: Key :: SumBy(holds, NeedAt(k)) <= LockedAt(s, k)
  }

  ghost predicate LocksLowered(s: State, t: State, holds: seq<LockLine>) {
    forall k: Key :: LockedAt(t, k) == LockedAt(s, k) - SumBy(holds, NeedAt(k))
  }

  ghost predicate SameLocks(s: State, t: State) { forall k: Key :: LockedAt(t, k) == LockedAt(s, k) }

  lemma ConsistentPlaces(s: State)
    requires Consistent(s)
    ensures EntriesPlaced(s)
    ensures forall k: Key :: 0 <= LockedAt(s, k) <= StockAt(s, k)
  {}

  /** The locks cover all holds exactly when they cover the front and, once that is taken off, the last. */
  lemma CoverStep(s: State, t: State, holds: seq<LockLine>)
    requires holds != [] && AllPositive(holds)
    requires LocksLowered(s, t, holds[..|holds| - 1]) && LocksCover(s, holds[..|holds| - 1])
    ensures LocksCover(s, holds) <==> LockedAt(t, holds[|holds| - 1].key) >= holds[|holds| - 1].quantity
  {
    var front, last := holds[..|holds| - 1], holds[|holds| - 1];
    assert last in holds;
    assert LockedAt(t, last.key) == LockedAt(s, last.key) - SumBy(front, NeedAt(last.key));
    assert SumBy(holds, NeedAt(last.key)) == SumBy(front, NeedAt(last.key)) + last.quantity;
    forall k: Key | k != last.key ensures SumBy(holds, NeedAt(k)) <= LockedAt(s, k) {
      assert SumBy(front, NeedAt(k)) <= LockedAt(s, k);
    }
  }

  lemma FrontCovered(s: State, holds: seq<LockLine>)
    requires holds != [] && AllPositive(holds)
    ensures AllPositive(holds[..|holds| - 1])
    ensures LocksCover(s, holds) ==> LocksCover(s, holds[..|holds| - 1])
  {
    assert holds[|holds| - 1] in holds;
    forall k: Key ensures SumBy(holds[..|holds| - 1], NeedAt(k)) <= SumBy(holds, NeedAt(k)) {}
  }

  lemma LowerTwice(s: State, t: State, u: State, front: seq<LockLine>, last: LockLine)
    requires LocksLowered(s, t, front) && LocksLowered(t, u, [last])
    ensures LocksLowered(s, u, front + [last])
  {
    forall k: Key ensures LockedAt(u, k) == LockedAt(s, k) - SumBy(front + [last], NeedAt(k)) {
      SumByConcat(front, [last], NeedAt(k));
      assert LockedAt(t, k) == LockedAt(s, k) - SumBy(front, NeedAt(k));
    }
  }

  lemma NothingToCover(s: State)
    requires Consistent(s)
    ensures LocksCover(s, []) && LocksLowered(s, s, [])
  {}

  lemma OneReleased(s: State, last: LockLine)
    requires Consistent(s) && last.quantity > 0
    ensures var r := ReleaseLockedStock(s, last.key, last.quantity);
      && (r.Ok? <==> LockedAt(s, last.key) >= last.quantity)
      && (r.Ok? ==> Consistent(r.value) && LocksLowered(s, r.value, [last]))
      && (r.Err? ==> r.error == InventoryLockMismatch)
  {
    hide Consistent;
    var r := ReleaseLockedStock(s, last.key, last.quantity);
    ConsistentPlaces(s);
    if r.Ok? {
      OutcomeKeeps(s, CallRelease(last.key, last.quantity));
      forall k: Key ensures LockedAt(r.value, k) == LockedAt(s, k) - SumBy([last], NeedAt(k)) {
        OneNeed(last, k);
      }
    }
  }

  lemma OneNeed(line: LockLine, k: Key)
    ensures SumBy([line], NeedAt(k)) == NeedAt(k)(line)
  {
    assert [line] == [] + [line];
    SumByAppend([], line, NeedAt(k));
  }

  /** Locks are all given back exactly when they are all there, whatever their order and however often
      a key is listed; otherwise the release is refused for the mismatch. */
  lemma {:induction false} ReleaseAllEffect(s: State, holds: seq<LockLine>)
    requires Consistent(s) && AllPositive(holds)
    ensures ReleaseAll(s, holds).Ok? <==> LocksCover(s, holds)
    ensures ReleaseAll(s, holds).Ok? ==>
      Consistent(ReleaseAll(s, holds).value) && LocksLowered(s, ReleaseAll(s, holds).value, holds)
    ensures ReleaseAll(s, holds).Err? ==> ReleaseAll(s, holds).error == InventoryLockMismatch
  {
    hide Consistent, LocksCover, LocksLowered, ReleaseLockedStock;
    if holds == [] {
      NothingToCover(s);
    } else {
      var front, last := holds[..|holds| - 1], holds[|holds| - 1];
      assert last in holds && holds == front + [last];
      FrontCovered(s, holds);
      ReleaseAllEffect(s, front);
      if ReleaseAll(s, front).Ok? {
        var t := ReleaseAll(s, front).value;
        CoverStep(s, t, holds);
        OneReleased(t, last);
        if ReleaseAll(s, holds).Ok? { LowerTwice(s, t, ReleaseAll(s, holds).value, front, last); }
      }
    }
  }

  // ---------------------------------------------------------------- shipping locked goods

  lemma DrawLeavesLocks(s: State, k: Key, quantity: int, cause: LedgerRef)
    requires quantity > 0 && k in s.rows
    ensures var r := Draw(s, k, quantity, cause);
      && (r.Err? ==> r.error == InventoryLotShortage)
      && (r.Ok? ==> SameLocks(s, r.value))
  {
    hide QueryLots, DrawPlan;
    var plan := DrawPlan(QueryLots(s.lots, k, cause.line), quantity, cause.line);
    if plan.Some? {
      QueryPlanWithin(s.lots, k, quantity, cause.line);
      DrawSlicesLeaveLocks(s, plan.value, cause);
    }
  }

  /** Shipping one locked good fails for its lock or for want of lots, and otherwise lowers that lock. */
  lemma OneShipped(s: State, k: Key, quantity: int, cause: LedgerRef)
    requires Consistent(s) && quantity > 0
    ensures var r := ShipLockedStock(s, k, quantity, cause);
      && (r == Err(InventoryLockMismatch) <==> LockedAt(s, k) < quantity)
      && (r.Err? ==> r.error == InventoryLockMismatch || r.error == InventoryLotShortage)
      && (r.Ok? ==> Consistent(r.value) && LocksLowered(s, r.value, [LockLine(k, quantity)]))
  {
    hide Consistent, Draw;
    var r := ShipLockedStock(s, k, quantity, cause);
    if k in s.rows && LockedAt(s, k) >= quantity {
      DrawLeavesLocks(Relock(s, k, -quantity), k, quantity, cause);
      if r.Ok? {
        ShipKeeps(s, k, quantity, cause);
        forall key: Key ensures LockedAt(r.value, key) == LockedAt(s, key) - SumBy([LockLine(k, quantity)], NeedAt(key)) {
          OneNeed(LockLine(k, quantity), key);
        }
      }
    }
  }

  lemma LocksOfPrefix(lines: seq<OrderLine>, location: Id, items: seq<PackedItem>)
    requires items != []
    ensures var front, last := items[..|items| - 1], items[|items| - 1];
      && LocksOf(lines, location, items)
           == LocksOf(lines, location, front) + [LockLine(Key(location, SkuOf(lines, last.line)), last.quantity)]
      && LocksOf(lines, location, items)[..|items| - 1] == LocksOf(lines, location, front)
  {}

  /** Shipping a pack fails for a lock that is not there or for want of lots; otherwise the locks were
      all there and fall by exactly the packed goods. */
  lemma {:induction false} ShipAllEffect(s: State, order: Id, lines: seq<OrderLine>, location: Id, items: seq<PackedItem>)
    requires Consistent(s) && AllPositive(LocksOf(lines, location, items))
    ensures var r, holds := ShipAll(s, order, lines, location, items), LocksOf(lines, location, items);
      && (r.Ok? ==> LocksCover(s, holds) && Consistent(r.value) && LocksLowered(s, r.value, holds))
      && (r.Err? ==> r.error == InventoryLockMismatch || r.error == InventoryLotShortage)
      && (r == Err(InventoryLockMismatch) ==> !LocksCover(s, holds))
  {
    hide Consistent, LocksOf, ShipLockedStock, LocksCover, LocksLowered;
    var holds := LocksOf(lines, location, items);
    if items == [] {
      NothingToCover(s);
      assert holds == [];
    } else {
      var front, last := items[..|items| - 1], items[|items| - 1];
      LocksOfPrefix(lines, location, items);
      FrontCovered(s, holds);
      ShipAllEffect(s, order, lines, location, front);
      if ShipAll(s, order, lines, location, front).Ok? {
        var t := ShipAll(s, order, lines, location, front).value;
        var lock := holds[|holds| - 1];
        assert lock in holds;
        CoverStep(s, t, holds);
        OneShipped(t, lock.key, last.quantity, ShipCause(order, last.line));
        if ShipAll(s, order, lines, location, items).Ok? {
          LowerTwice(s, t, ShipAll(s, order, lines, location, items).value, LocksOf(lines, location, front), lock);
        }
      }
    }
  }

  // ---------------------------------------------------------------- the other movements leave locks alone

  lemma {:induction false} DrawSlicesLeaveLocks(s: State, slices: seq<LotSlice>, cause: LedgerRef)
    requires Within(slices, |s.lots|)
    ensures SameLocks(s, DrawSlices(s, slices, cause))
  {
    if slices != [] { DrawSlicesLeaveLocks(s, slices[..|slices| - 1], cause); }
  }

  lemma {:induction false} ReturnSlicesLeaveLocks(s: State, slices: seq<LotSlice>, location: Id, cause: LedgerRef)
    requires Within(slices, |s.lots|)
    ensures SameLocks(s, ReturnSlices(s, slices, location, cause))
  {
    if slices != [] { ReturnSlicesLeaveLocks(s, slices[..|slices| - 1], location, cause); }
  }

  /** Imports, sales at the counter, transfers, adjustments and returns. */
  predicate LeavesLocks(c: Call) { c.CallOpenLot? || c.CallDeduct? || c.CallReturn? }

  lemma OutcomeLeavesLocks(s: State, c: Call)
    requires Consistent(s) && LeavesLocks(c) && Outcome(s, c).Ok?
    ensures SameLocks(s, Outcome(s, c).value)
  {
    hide QueryLots, DrawPlan, ReturnPlan, DrawnLots;
    match c {
      case CallOpenLot(receipt) =>
      case CallDeduct(key, quantity, cause) =>
        DrawLeavesLocks(s, key, quantity, cause);
      case CallReturn(ret) =>
        if !(OriginLots(s.ledger, ret.item, ret.drawnBy) == [] && ret.ifNeverDrawn.Some?) {
          ReturnPlanWithin(s, ret);
          ReturnSlicesLeaveLocks(s, ReturnsTo(s, ret).value, ret.location, ReturnCause(ret));
        }
    }
  }

  // ---------------------------------------------------------------- the shape of the tables

  predicate ItemsApart(items: seq<PackedItem>) { forall i, j :: 0 <= i < j < |items| ==> items[i].line != items[j].line }

  /** What is packed is of lines the order has, each named once. */
  predicate PackFits(lines: seq<OrderLine>, p: Pack) {
    ItemsApart(p.items) && forall x :: x in p.items ==> x.quantity > 0 && LineAt(lines, x.line).Some?
  }

  /** An order holds goods in at most one pack, and only while PACKED or PICKED_UP. */
  predicate WellFormed(o: JourneyOrder) {
    && DistinctIds(o.lines)
    && match o.status
       case PendingConfirmation => o.packs == []
       case Confirmed => o.packs == []
       case Packed => |o.packs| == 1 && o.packs[0].status == InPack && PackFits(o.lines, o.packs[0])
       case PickedUp => |o.packs| == 1 && o.packs[0].status == HandedOver && PackFits(o.lines, o.packs[0])
       case _ => true
  }

  /** Lines have ids the database gave out and product items that exist. */
  predicate Placed(o: JourneyOrder, skus: set<Id>, lineIds: set<Id>) {
    forall l :: l in o.lines ==> l.item in skus && l.id in lineIds
  }

  ghost predicate Tidy(w: World) {
    && Consistent(w.stock)
    && forall i :: 0 <= i < |w.orders| ==> WellFormed(w.orders[i]) && Placed(w.orders[i], w.skus, w.lineIds)
  }

  /** What a route may still rely on about an order it read earlier. */
  predicate Later(before: JourneyOrder, now: JourneyOrder) {
    && Rank(before.status) <= Rank(now.status)
    && before.version <= now.version
    && (before.version == now.version ==> before == now)
    && (before.status == now.status && Holding(now.status) ==> before.packs == now.packs && before.lines == now.lines)
  }

  /** A line whose id was already given out is one of the order's lines of then, and if its product item
      is another one by now, it is one that did not exist then. */
  predicate Descends(z: OrderLine, before: seq<OrderLine>, skus: set<Id>) {
    match LineAt(before, z.id)
    case Some(l) => z.item == l.item || z.item !in skus
    case None => false
  }

  predicate LinesDescend(now: JourneyOrder, before: JourneyOrder, w: World) {
    forall z :: z in now.lines && z.id in w.lineIds ==> Descends(z, before.lines, w.skus)
  }

  ghost predicate MovedOn(w: World, x: World) {
    && |w.orders| <= |x.orders| && w.skus <= x.skus && w.lineIds <= x.lineIds
    && forall i :: 0 <= i < |w.orders| ==> Later(w.orders[i], x.orders[i]) && LinesDescend(x.orders[i], w.orders[i], w)
  }

  lemma {:induction false} LineAtIs(lines: seq<OrderLine>, l: OrderLine)
    requires DistinctIds(lines) && l in lines
    ensures LineAt(lines, l.id) == Some(l)
  {
    if lines[0] != l { LineAtIs(lines[1..], l); }
  }

  lemma SameLinesDescend(o: JourneyOrder, lines: seq<OrderLine>, w: World)
    requires DistinctIds(o.lines) && lines == o.lines
    ensures LinesDescend(o.(lines := lines), o, w)
  {
    forall z | z in lines && z.id in w.lineIds ensures Descends(z, o.lines, w.skus) {
      LineAtIs(o.lines, z);
    }
  }

  lemma MovedOnNowhere(w: World)
    requires Tidy(w)
    ensures MovedOn(w, w)
  {
    hide Consistent;
    forall i | 0 <= i < |w.orders| ensures Later(w.orders[i], w.orders[i]) && LinesDescend(w.orders[i], w.orders[i], w) {
      SameLinesDescend(w.orders[i], w.orders[i].lines, w);
    }
  }

  lemma MovedOnTwice(w: World, x: World, y: World)
    requires MovedOn(w, x) && MovedOn(x, y)
    ensures MovedOn(w, y)
  {
    forall i | 0 <= i < |w.orders| ensures Later(w.orders[i], y.orders[i]) && LinesDescend(y.orders[i], w.orders[i], w) {
      assert Later(w.orders[i], x.orders[i]) && Later(x.orders[i], y.orders[i]);
      TransitionsOnlyClimb(w.orders[i].status, x.orders[i].status);
      TransitionsOnlyClimb(x.orders[i].status, y.orders[i].status);
      assert LinesDescend(x.orders[i], w.orders[i], w) && LinesDescend(y.orders[i], x.orders[i], x);
    }
  }

  // ---------------------------------------------------------------- stray units

  /** Locked units of a key beyond what the orders now PACKED or PICKED_UP count on. */
  ghost function Stray(w: World, k: Key): int { LockedAt(w.stock, k) - SumBy(w.orders, HeldBy(k)) }

  ghost predicate SameStray(w: World, x: World) { forall k: Key :: Stray(x, k) == Stray(w, k) }

  /** Locked stock is, key by key, what the orders now PACKED or PICKED_UP count on. */
  ghost predicate LocksMatch(w: World) { forall k: Key :: Stray(w, k) == 0 }

  /** One order was written, and nothing else but the id registers and the stock. */
  ghost predicate Wrote(w: World, x: World, id: nat) {
    && id < |w.orders| && |x.orders| == |w.orders| && w.skus <= x.skus && w.lineIds <= x.lineIds
    && forall i :: 0 <= i < |w.orders| && i != id ==> x.orders[i] == w.orders[i]
  }

  lemma WriteMovesOn(w: World, x: World, id: nat)
    requires Tidy(w) && Wrote(w, x, id) && Consistent(x.stock)
    requires WellFormed(x.orders[id]) && Placed(x.orders[id], x.skus, x.lineIds)
    requires Later(w.orders[id], x.orders[id]) && LinesDescend(x.orders[id], w.orders[id], w)
    ensures Tidy(x) && MovedOn(w, x)
  {
    hide Consistent;
    forall i | 0 <= i < |w.orders|
      ensures WellFormed(x.orders[i]) && Placed(x.orders[i], x.skus, x.lineIds)
      ensures Later(w.orders[i], x.orders[i]) && LinesDescend(x.orders[i], w.orders[i], w)
    {
      if i != id {
        assert Placed(w.orders[i], w.skus, w.lineIds);
        SameLinesDescend(w.orders[i], w.orders[i].lines, w);
      }
    }
  }

  /** Stray units change by what the locks move beyond what the order counts on. */
  lemma WriteStrays(w: World, x: World, id: nat, k: Key)
    requires Wrote(w, x, id)
    ensures Stray(x, k) == Stray(w, k) + (LockedAt(x.stock, k) - LockedAt(w.stock, k))
                                       - (HeldBy(k)(x.orders[id]) - HeldBy(k)(w.orders[id]))
  {
    assert x.orders == w.orders[id := x.orders[id]];
    SumByUpdate(w.orders, id, x.orders[id], HeldBy(k));
  }

  lemma OnePackHolds(lines: seq<OrderLine>, p: Pack)
    ensures HoldsOf(lines, [p]) == if Locking(p) then LocksOf(lines, p.location, p.items) else []
  {
    assert [p][..0] == [];
    assert HoldsOf(lines, []) == [];
  }

  lemma HoldsArePositive(o: JourneyOrder)
    requires WellFormed(o) && Rank(o.status) <= Rank(PickedUp)
    ensures AllPositive(HoldsOf(o.lines, o.packs))
    ensures Holding(o.status) ==>
      o.packs == [o.packs[0]] && HoldsOf(o.lines, o.packs) == LocksOf(o.lines, o.packs[0].location, o.packs[0].items)
    ensures !Holding(o.status) ==> HoldsOf(o.lines, o.packs) == []
  {
    if Holding(o.status) {
      assert o.packs == [o.packs[0]];
      OnePackHolds(o.lines, o.packs[0]);
    }
  }

  lemma HeldIsNonNegative(o: JourneyOrder, k: Key)
    requires WellFormed(o)
    ensures HeldBy(k)(o) >= 0
  {
    if Holding(o.status) {
      HoldsArePositive(o);
      SumByNonNegative(HoldsOf(o.lines, o.packs), NeedAt(k));
    }
  }

  /** While the locks match, those an order counts on are there to be released or shipped. */
  lemma OwnLocksAreThere(w: World, id: nat)
    requires Tidy(w) && LocksMatch(w) && id < |w.orders| && Holding(w.orders[id].status)
    ensures LocksCover(w.stock, HoldsOf(w.orders[id].lines, w.orders[id].packs))
  {
    hide Consistent;
    var holds := HoldsOf(w.orders[id].lines, w.orders[id].packs);
    forall k: Key ensures SumBy(holds, NeedAt(k)) <= LockedAt(w.stock, k) {
      forall o | o in w.orders ensures HeldBy(k)(o) >= 0 {
        var i :| 0 <= i < |w.orders| && w.orders[i] == o;
        HeldIsNonNegative(o, k);
      }
      SumByCovers(w.orders, HeldBy(k), id);
      assert Stray(w, k) == 0;
    }
  }

  // ---------------------------------------------------------------- what each route keeps

  /** An order's own locks are not all there. */
  ghost predicate LocksMissing(w: World, id: nat)
    requires id < |w.orders|
  {
    Holding(w.orders[id].status) && !LocksCover(w.stock, HoldsOf(w.orders[id].lines, w.orders[id].packs))
  }

  ghost predicate OrderMovedOn(w: World, id: nat, x: World) { Wrote(w, x, id) && Tidy(x) && MovedOn(w, x) }

  /** What a route other than packing promises: the order moves on, no other order moves, no unit goes
      astray, and it is refused for a lock mismatch only when locks of the order are missing. */
  ghost predicate Keeps(w: World, id: nat, r: Result<World>)
    requires id < |w.orders|
  {
    match r
    case Err(e) => e == InventoryLockMismatch ==> LocksMissing(w, id)
    case Ok(x) => OrderMovedOn(w, id, x) && SameStray(w, x)
  }

  /** Writing one order whose lines stay keeps the world in shape and the stray units as they are, when
      the locks move by what the order counts on. */
  lemma WriteKeeps(w: World, id: nat, stock: State, o: JourneyOrder)
    requires Tidy(w) && id < |w.orders| && Consistent(stock) && WellFormed(o)
    requires o.lines == w.orders[id].lines
    requires Later(w.orders[id], o.(version := w.orders[id].version + 1))
    requires forall k: Key :: LockedAt(stock, k) == LockedAt(w.stock, k) + HeldBy(k)(o) - HeldBy(k)(w.orders[id])
    ensures OrderMovedOn(w, id, Write(w, id, stock, o)) && SameStray(w, Write(w, id, stock, o))
  {
    hide Consistent, HoldsOf;
    var x := Write(w, id, stock, o);
    SameLinesDescend(w.orders[id], o.lines, w);
    WriteMovesOn(w, x, id);
    forall k: Key ensures Stray(x, k) == Stray(w, k) {
      WriteStrays(w, x, id, k);
      assert HeldBy(k)(x.orders[id]) == HeldBy(k)(o);
    }
  }

  /** A cancellation is accepted exactly when the status read allows it, still stands, and the locks the
      order counts on are there; then every one of them is given back. Otherwise, were those locks not
      there, it is refused for the mismatch. */
  lemma CancelKeeps(w: World, id: nat, read: JourneyOrder)
    requires Tidy(w) && id < |w.orders| && WellFormed(read) && Later(read, w.orders[id])
    ensures Keeps(w, id, CommitCancel(w, id, read))
    ensures CommitCancel(w, id, read).Ok?
        <==> CanTransition(read.status, Cancelled) && w.orders[id].status == read.status && !LocksMissing(w, id)
    ensures CommitCancel(w, id, read) == Err(InventoryLockMismatch)
        <==> CanTransition(read.status, Cancelled) && w.orders[id].status == read.status && LocksMissing(w, id)
  {
    hide Consistent, ReleaseAll, HoldsOf, LocksCover;
    var now := w.orders[id];
    if CanTransition(read.status, Cancelled) && now.status == read.status {
      var holds := HoldsOf(read.lines, read.packs);
      HoldsArePositive(read);
      HoldsArePositive(now);
      ReleaseAllEffect(w.stock, holds);
      if !Holding(now.status) { NothingToCover(w.stock); }
      if ReleaseAll(w.stock, holds).Ok? {
        var stock := ReleaseAll(w.stock, holds).value;
        WriteKeeps(w, id, stock, now.(status := Cancelled, packs := WithdrawPacks(now.packs, read.packs)));
      }
    }
  }

  /** A pack given to a carrier counts on the locks it counted on. */
  lemma HandingOverKeepsTheHold(now: JourneyOrder, i: nat)
    requires WellFormed(now) && now.status == Packed && i < |now.packs|
    ensures var o := now.(status := PickedUp, packs := HandOverPack(now.packs, i));
      WellFormed(o) && forall k: Key :: HeldBy(k)(o) == HeldBy(k)(now)
  {
    var packs := HandOverPack(now.packs, i);
    assert packs == [now.packs[0].(status := HandedOver)];
    HoldsArePositive(now);
    OnePackHolds(now.lines, packs[0]);
  }

  /** The goods an order has packed are locked for it after they are given to a carrier as before: the
      order moves to PICKED_UP, its one pack is HANDED_OVER, and no lock moves. */
  lemma GiveToCarrierKeeps(w: World, id: nat, read: JourneyOrder, external: bool)
    requires Tidy(w) && id < |w.orders| && WellFormed(read) && Later(read, w.orders[id])
    ensures Keeps(w, id, CommitGiveToCarrier(w, id, read, external))
    ensures CommitGiveToCarrier(w, id, read, external).Ok?
        <==> w.orders[id].status == Packed && read.status == Packed && !(external && read.kind == StorePickup)
    ensures var r := CommitGiveToCarrier(w, id, read, external);
      r.Ok? ==>
        && r.value.orders[id].status == PickedUp && r.value.stock == w.stock
        && forall k: Key :: HeldBy(k)(r.value.orders[id]) == HeldBy(k)(w.orders[id])
  {
    hide Consistent, HandOverPack, HoldsOf;
    var r := CommitGiveToCarrier(w, id, read, external);
    FirstPackFound(read.packs, InPack);
    if r.Ok? {
      var now := w.orders[id];
      var o := now.(status := PickedUp, packs := HandOverPack(now.packs, FirstPack(read.packs, InPack).value));
      HandingOverKeepsTheHold(now, FirstPack(read.packs, InPack).value);
      WriteKeeps(w, id, w.stock, o);
      assert forall k: Key :: HeldBy(k)(r.value.orders[id]) == HeldBy(k)(o);
    }
  }

  /** The goods of a pack leave: its locks were there and are gone with it. */
  lemma ShippedKeeps(w: World, id: nat, r: Result<State>, o: JourneyOrder)
    requires Tidy(w) && id < |w.orders| && Holding(w.orders[id].status) && o.lines == w.orders[id].lines
    requires var now := w.orders[id];
      && WellFormed(now) && r == ShipAll(w.stock, id, now.lines, now.packs[0].location, now.packs[0].items)
    requires !Holding(o.status) && WellFormed(o) && Later(w.orders[id], o.(version := w.orders[id].version + 1))
    ensures r.Ok? ==> OrderMovedOn(w, id, Write(w, id, r.value, o)) && SameStray(w, Write(w, id, r.value, o))
    ensures r == Err(InventoryLockMismatch) ==> LocksMissing(w, id)
    ensures r.Err? ==> r.error == InventoryLockMismatch || r.error == InventoryLotShortage
  {
    hide Consistent, ShipAll;
    var now := w.orders[id];
    HoldsArePositive(now);
    ShipAllEffect(w.stock, id, now.lines, now.packs[0].location, now.packs[0].items);
    if r.Ok? { WriteKeeps(w, id, r.value, o); }
  }

  lemma ShipKeepsJourney(w: World, id: nat, read: JourneyOrder)
    requires Tidy(w) && id < |w.orders| && WellFormed(read) && Later(read, w.orders[id])
    ensures Keeps(w, id, CommitShip(w, id, read))
  {
    hide Consistent, ShipAll, HoldsOf, LocksCover;
    var now := w.orders[id];
    if CanTransition(read.status, Shipping) && FirstPack(read.packs, HandedOver).Some? && now.status == PickedUp {
      FirstPackFound(read.packs, HandedOver);
      assert read.packs == now.packs && read.lines == now.lines;
      var r := ShipAll(w.stock, id, now.lines, now.packs[0].location, now.packs[0].items);
      ShippedKeeps(w, id, r, now.(status := Shipping));
    }
  }

  lemma HandOverKeeps(w: World, id: nat, read: JourneyOrder, amountDue: int)
    requires Tidy(w) && id < |w.orders| && WellFormed(read) && Later(read, w.orders[id])
    ensures Keeps(w, id, CommitHandOver(w, id, read, amountDue))
  {
    hide Consistent, ShipAll, HoldsOf, LocksCover;
    var now := w.orders[id];
    if read.status == Packed && now.status == Packed && FirstPack(read.packs, InPack).Some? {
      FirstPackFound(read.packs, InPack);
      assert read.packs == now.packs && read.lines == now.lines;
      var r := ShipAll(w.stock, id, now.lines, now.packs[0].location, now.packs[0].items);
      ShippedKeeps(w, id, r, now.(status := Completed, packs := HandOverPack(now.packs, 0)));
    }
  }

  // ---------------------------------------------------------------- edits and made-to-measure lines

  lemma {:induction false} KeptLinesAre(lines: seq<OrderLine>, edits: seq<EditLine>)
    requires DistinctIds(lines)
    ensures DistinctIds(KeptLines(lines, edits))
    ensures forall z :: z in KeptLines(lines, edits) ==>
      LineAt(lines, z.id).Some? && LineAt(lines, z.id).value.item == z.item && KeptAt(edits, z.id).Some?
  {
    if lines != [] {
      var front, last := lines[..|lines| - 1], lines[|lines| - 1];
      KeptLinesAre(front, edits);
      var r := KeptLines(lines, edits);
      LineAtIs(lines, last);
      forall z | z in KeptLines(front, edits) ensures LineAt(lines, z.id) == LineAt(front, z.id) && z.id != last.id {
        var l := LineAt(front, z.id).value;
        assert l in lines;
        LineAtIs(lines, l);
        var i :| 0 <= i < |front| && front[i] == l;
        assert lines[i].id != lines[|lines| - 1].id;
      }
    }
  }

  /** No line is named twice. */
  ghost predicate NamesOnce(edits: seq<EditLine>) {
    forall i, j :: 0 <= i < j < |edits| && edits[i].Kept? && edits[j].Kept? ==> edits[i].id != edits[j].id
  }

  /** The lines an edit names by id are lines of the order, each named once and of the product it is. */
  ghost predicate NamesOwnLines(lines: seq<OrderLine>, edits: seq<EditLine>) {
    && NamesOnce(edits)
    && forall e :: e in edits && e.Kept? ==> LineAt(lines, e.id).Some? && LineAt(lines, e.id).value.item == e.item
  }

  lemma NamesOnceMore(front: seq<EditLine>, last: EditLine)
    ensures NamesOnce(front + [last]) <==> NamesOnce(front) && (last.Kept? ==> KeptAt(front, last.id).None?)
  {
    var edits := front + [last];
    if NamesOnce(edits) {
      forall e | e in front && e.Kept? && last.Kept? ensures e.id != last.id {
        var i :| 0 <= i < |front| && front[i] == e;
        assert edits[i].id != edits[|front|].id;
      }
      forall i, j | 0 <= i < j < |front| && front[i].Kept? && front[j].Kept? ensures front[i].id != front[j].id {
        assert edits[i].id != edits[j].id;
      }
    } else {
      var i, j :| 0 <= i < j < |edits| && edits[i].Kept? && edits[j].Kept? && edits[i].id == edits[j].id;
      if j == |front| { assert front[i] in front; } else { assert front[i].id == front[j].id; }
    }
  }

  lemma {:induction false} EditRefusalMeans(lines: seq<OrderLine>, edits: seq<EditLine>)
    ensures EditRefusal(lines, edits).None? <==> NamesOwnLines(lines, edits)
  {
    hide NamesOnce, KeptAt;
    if edits == [] {
      assert NamesOnce(edits) by { NothingNamed(); }
    } else {
      var front, last := edits[..|edits| - 1], edits[|edits| - 1];
      EditRefusalMeans(lines, front);
      assert edits == front + [last];
      NamesOnceMore(front, last);
    }
  }

  lemma NothingNamed()
    ensures NamesOnce([])
  {}

  /** What an edit makes of a line it names. */
  predicate EditedFrom(z: OrderLine, lines: seq<OrderLine>, edits: seq<EditLine>) {
    LineAt(lines, z.id).Some? && KeptAt(edits, z.id).Some?
    && z == LineAt(lines, z.id).value.(quantity := KeptAt(edits, z.id).value.quantity, source := KeptAt(edits, z.id).value.source)
  }

  lemma {:induction false} KeptLinesExactly(lines: seq<OrderLine>, edits: seq<EditLine>)
    requires DistinctIds(lines)
    ensures forall z :: z in KeptLines(lines, edits) <==> EditedFrom(z, lines, edits)
  {
    if lines != [] {
      var front, last := lines[..|lines| - 1], lines[|lines| - 1];
      KeptLinesExactly(front, edits);
      LineAtIs(lines, last);
      forall z ensures z in KeptLines(lines, edits) <==> EditedFrom(z, lines, edits) {
        if z.id != last.id { SameLineAt(lines, z.id); } else { NoLineAt(lines); }
      }
    }
  }

  lemma {:induction false} SameLineAt(lines: seq<OrderLine>, id: Id)
    requires lines != [] && lines[|lines| - 1].id != id
    ensures LineAt(lines, id) == LineAt(lines[..|lines| - 1], id)
  {
    if |lines| > 1 && lines[0].id != id {
      assert lines[1..][..|lines| - 2] == lines[..|lines| - 1][1..];
      SameLineAt(lines[1..], id);
    }
  }

  lemma NoLineAt(lines: seq<OrderLine>)
    requires DistinctIds(lines) && lines != []
    ensures LineAt(lines[..|lines| - 1], lines[|lines| - 1].id).None?
  {
    var front, last := lines[..|lines| - 1], lines[|lines| - 1];
    forall l | l in front ensures l.id != last.id {
      var i :| 0 <= i < |front| && front[i] == l;
      assert lines[i].id != lines[|lines| - 1].id;
    }
  }

  lemma AddedDistinct(a: seq<OrderLine>, b: seq<OrderLine>)
    requires DistinctIds(a) && DistinctIds(b) && IdsOf(a) !! IdsOf(b)
    ensures DistinctIds(a + b)
  {
    forall i, j | 0 <= i < j < |a + b| ensures (a + b)[i].id != (a + b)[j].id {
      if i < |a| <= j {
        assert a[i] in a && b[j - |a|] in b;
        assert a[i].id in IdsOf(a) && b[j - |a|].id in IdsOf(b);
      }
    }
  }

  /** The lines after an edit: those it kept, of the products they were, and those it added. */
  lemma EditedLinesAre(o: JourneyOrder, edits: seq<EditLine>, w: World)
    requires DistinctIds(o.lines) && Placed(o, w.skus, w.lineIds)
    requires DistinctIds(AddedLines(edits)) && IdsOf(AddedLines(edits)) !! w.lineIds
    requires forall l :: l in AddedLines(edits) ==> l.item in w.skus
    ensures var lines := KeptLines(o.lines, edits) + AddedLines(edits);
      && DistinctIds(lines)
      && (forall z :: z in lines ==> z.item in w.skus && z.id in w.lineIds + IdsOf(AddedLines(edits)))
      && (forall z :: z in lines && z.id in w.lineIds ==> Descends(z, o.lines, w.skus))
  {
    var kept, added := KeptLines(o.lines, edits), AddedLines(edits);
    KeptLinesAre(o.lines, edits);
    forall z | z in kept ensures z.item in w.skus && z.id in w.lineIds && Descends(z, o.lines, w.skus) {
      assert LineAt(o.lines, z.id).value in o.lines;
    }
    forall z | z in added ensures z.id in IdsOf(added) && z.id !in w.lineIds {}
    AddedDistinct(kept, added);
  }

  lemma NotHolding(w: World, x: World, id: nat)
    requires Wrote(w, x, id) && x.stock == w.stock
    requires !Holding(w.orders[id].status) && !Holding(x.orders[id].status)
    ensures SameStray(w, x)
  {
    hide HoldsOf;
    forall k: Key ensures Stray(x, k) == Stray(w, k) { WriteStrays(w, x, id, k); }
  }

  /** A line an edit adds: as it is asked, and not made to measure. */
  predicate AddedFrom(z: OrderLine, edits: seq<EditLine>) {
    !z.custom && Added(z.id, z.item, z.quantity, z.source, z.stocked) in edits
  }

  lemma {:induction false} AddedLinesExactly(edits: seq<EditLine>)
    ensures forall z :: z in AddedLines(edits) <==> AddedFrom(z, edits)
  {
    if edits != [] {
      var front, last := edits[..|edits| - 1], edits[|edits| - 1];
      AddedLinesExactly(front);
      assert edits == front + [last];
      forall z ensures z in AddedLines(edits) <==> AddedFrom(z, edits) {
        if last.Added? {
          var line := OrderLine(last.id, last.item, last.quantity, last.source, last.stocked, false);
          assert z in AddedLines(edits) <==> z in AddedLines(front) || z == line;
        }
      }
    }
  }

  /** An edit is accepted exactly when it was of the very row it read, not yet shipped; and when it
      changes lines, of a CONFIRMED order, whose lines it names once each by the products they are, adding
      products there are. The order's lines are then the ones it names, otherwise as they were, and the
      ones it adds; it goes the way asked for, and nothing else of it moves. */
  lemma EditAccepted(w: World, id: nat, read: JourneyOrder, edits: Option<seq<EditLine>>, kind: FulfillmentType)
    requires id < |w.orders| && DistinctIds(read.lines) && Later(read, w.orders[id])
    ensures CommitEdit(w, id, read, edits, kind).Ok? <==>
      && read.status in {Confirmed, Packed, PickedUp} && read == w.orders[id]
      && (edits.Some? ==>
            && read.status == Confirmed && NamesOwnLines(read.lines, edits.value)
            && forall z :: AddedFrom(z, edits.value) ==> z.item in w.skus)
    ensures var r := CommitEdit(w, id, read, edits, kind);
      r.Ok? ==>
        var now := r.value.orders[id];
        && now == read.(version := read.version + 1, kind := kind, lines := now.lines)
        && r.value == w.(orders := w.orders[id := now], lineIds := r.value.lineIds)
        && (edits.Some? ==> forall z :: z in now.lines <==> EditedFrom(z, read.lines, edits.value) || AddedFrom(z, edits.value))
        && (edits.None? ==> now.lines == read.lines && r.value.lineIds == w.lineIds)
  {
    hide EditRefusal, NamesOwnLines, KeptLines, AddedLines, EditedFrom;
    if edits.Some? {
      EditRefusalMeans(read.lines, edits.value);
      KeptLinesExactly(read.lines, edits.value);
      AddedLinesExactly(edits.value);
    }
  }

  lemma EditKeeps(w: World, id: nat, read: JourneyOrder, edits: Option<seq<EditLine>>, kind: FulfillmentType)
    requires Tidy(w) && id < |w.orders| && WellFormed(read) && Later(read, w.orders[id])
    requires NewIds(w, EditOrder(edits, kind))
    ensures Keeps(w, id, CommitEdit(w, id, read, edits, kind))
  {
    hide Consistent, EditRefusal, KeptLines, AddedLines, HoldsOf;
    var r := CommitEdit(w, id, read, edits, kind);
    if r.Ok? {
      var now, x := w.orders[id], r.value;
      if edits.None? {
        WriteKeeps(w, id, w.stock, now.(kind := kind));
      } else {
        assert Placed(now, w.skus, w.lineIds);
        EditedLinesAre(now, edits.value, w);
        WriteMovesOn(w, x, id);
        NotHolding(w, x, id);
      }
    }
  }

  /** Moving a line to a product item nobody had keeps ids and descent. */
  lemma MovedLinesAre(o: JourneyOrder, line: Id, item: Id, w: World)
    requires DistinctIds(o.lines) && Placed(o, w.skus, w.lineIds) && item !in w.skus
    ensures var lines := Moved(o.lines, line, item);
      && DistinctIds(lines)
      && (forall z :: z in lines ==> z.item in w.skus + {item} && z.id in w.lineIds)
      && (forall z :: z in lines ==> Descends(z, o.lines, w.skus))
  {
    var lines := Moved(o.lines, line, item);
    forall z | z in lines ensures z.item in w.skus + {item} && z.id in w.lineIds && Descends(z, o.lines, w.skus) {
      var i :| 0 <= i < |lines| && lines[i] == z;
      assert o.lines[i] in o.lines;
      LineAtIs(o.lines, o.lines[i]);
    }
  }

  /** Making a line to measure moves that line alone, and only to the product item made for it; it locks and
      frees nothing. */
  lemma CustomizeKeeps(w: World, id: nat, read: JourneyOrder, line: Id, item: Id, requested: bool)
    requires Tidy(w) && id < |w.orders| && item !in w.skus
    ensures Keeps(w, id, CommitCustomize(w, id, read, line, item, requested))
    ensures var r := CommitCustomize(w, id, read, line, item, requested);
      r.Ok? ==>
        && r.value.stock == w.stock && |r.value.orders[id].lines| == |w.orders[id].lines|
        && forall i :: 0 <= i < |w.orders[id].lines| ==>
             var was, became := w.orders[id].lines[i], r.value.orders[id].lines[i];
             became == was || (was.id == line && became == was.(item := item, custom := true))
  {
    hide Consistent, HoldsOf;
    var r := CommitCustomize(w, id, read, line, item, requested);
    if r.Ok? {
      var now, x := w.orders[id], r.value;
      assert Placed(now, w.skus, w.lineIds);
      MovedLinesAre(now, line, item, w);
      SameLinesDescend(now, now.lines, w);
      WriteMovesOn(w, x, id);
      NotHolding(w, x, id);
    }
  }

  /** It is accepted exactly for a stocked line of a CONFIRMED order that is still there, with none under way
      for it. A line made to measure already stays as it is; any other becomes the product item made for it,
      which then exists. */
  lemma CustomizeWhen(w: World, id: nat, read: JourneyOrder, line: Id, item: Id, requested: bool)
    requires id < |w.orders|
    ensures var now := w.orders[id];
      CommitCustomize(w, id, read, line, item, requested).Ok? <==>
        && read.status == Confirmed && now.status == Confirmed && !requested
        && LineAt(read.lines, line).Some? && LineAt(read.lines, line).value.stocked && LineAt(now.lines, line).Some?
    ensures CommitCustomize(w, id, read, line, item, requested).Ok? ==>
      var was, x := w.orders[id], CommitCustomize(w, id, read, line, item, requested).value;
      var now, already := x.orders[id], LineAt(read.lines, line).value.custom;
      && x == w.(orders := w.orders[id := now], skus := if already then w.skus else w.skus + {item})
      && now == was.(version := was.version + 1, lines := now.lines) && |now.lines| == |was.lines|
      && forall i :: 0 <= i < |was.lines| ==>
           now.lines[i] == if !already && was.lines[i].id == line then was.lines[i].(item := item, custom := true) else was.lines[i]
  {}

  // ---------------------------------------------------------------- packing

  /** The lines a pack was decided on still name the product items it locks. */
  predicate Aligned(read: JourneyOrder, now: JourneyOrder) {
    forall l :: l in StockedLines(read.lines) ==> SkuOf(now.lines, l.id) == l.item
  }

  /** What packing an order as it was read locks. */
  function TakenBy(read: JourneyOrder): seq<LockLine> {
    match PackLocation(StockedLines(read.lines))
    case Err(_) => []
    case Ok(location) => LocksTaken(location, StockedLines(read.lines))
  }

  /** And what the order counts on from then. */
  function CountedBy(read: JourneyOrder, now: JourneyOrder): seq<LockLine> {
    match PackLocation(StockedLines(read.lines))
    case Err(_) => []
    case Ok(location) => LocksOf(now.lines, location, PackedItems(StockedLines(read.lines)))
  }

  /** What packing locks at a key beyond what the order then counts on. */
  ghost function Slip(read: JourneyOrder, now: JourneyOrder, k: Key): int {
    SumBy(TakenBy(read), NeedAt(k)) - SumBy(CountedBy(read, now), NeedAt(k))
  }

  ghost predicate StraysBySlip(w: World, x: World, read: JourneyOrder, now: JourneyOrder) {
    forall k: Key :: Stray(x, k) == Stray(w, k) + Slip(read, now, k)
  }

  lemma Locked(s: State, locks: seq<LockLine>)
    requires Consistent(s)
    ensures LockStock(s, locks).Ok? ==>
      && Consistent(LockStock(s, locks).value) && AllPositive(locks)
      && forall k: Key :: LockedAt(LockStock(s, locks).value, k) == LockedAt(s, k) + SumBy(locks, NeedAt(k))
    ensures LockStock(s, locks).Err? ==> LockStock(s, locks).error != InventoryLockMismatch
  {
    hide Consistent;
    if LockStock(s, locks).Ok? { LockEachKeeps(s, locks); }
  }

  lemma PackIsFit(now: JourneyOrder, lines: seq<OrderLine>, location: Id)
    requires AllPositive(LocksTaken(location, lines))
    requires DistinctIds(lines) && forall l :: l in lines ==> LineAt(now.lines, l.id).Some?
    ensures PackFits(now.lines, Pack(location, PackedItems(lines), InPack))
  {
    forall x | x in PackedItems(lines) ensures x.quantity > 0 && LineAt(now.lines, x.line).Some? {
      var i :| 0 <= i < |lines| && PackedItems(lines)[i] == x;
      assert LocksTaken(location, lines)[i] in LocksTaken(location, lines);
      assert lines[i] in lines;
    }
  }

  lemma {:induction false} StockedApart(lines: seq<OrderLine>)
    requires DistinctIds(lines)
    ensures DistinctIds(StockedLines(lines))
  {
    if lines != [] {
      var front, last := lines[..|lines| - 1], lines[|lines| - 1];
      StockedApart(front);
      var rest := StockedLines(front);
      forall l | l in rest ensures l.id != last.id {
        var i :| 0 <= i < |front| && front[i] == l;
        assert lines[i].id != lines[|lines| - 1].id;
      }
      forall i, j | 0 <= i < j < |StockedLines(lines)| ensures StockedLines(lines)[i].id != StockedLines(lines)[j].id {
        assert rest[i] in rest;
      }
    }
  }

  /** Packing is never refused for a lock mismatch; accepted, it puts astray what it locks beyond what
      the order then counts on, and nothing else. */
  lemma PackKeeps(w: World, id: nat, read: JourneyOrder)
    requires Tidy(w) && id < |w.orders| && DistinctIds(read.lines)
    ensures var r := CommitPack(w, id, read);
      match r
      case Err(e) => e != InventoryLockMismatch
      case Ok(x) => OrderMovedOn(w, id, x) && StraysBySlip(w, x, read, w.orders[id])
  {
    hide Consistent, LockStock, StockedLines, PackLocation, PackedItems, LocksOf, LocksTaken, HoldsOf;
    var r := CommitPack(w, id, read);
    var lines := StockedLines(read.lines);
    PackingRefusal(lines);
    StockedApart(read.lines);
    if PackLocation(lines).Ok? {
      var location := PackLocation(lines).value;
      Locked(w.stock, LocksTaken(location, lines));
      if r.Ok? {
        var now, x := w.orders[id], r.value;
        var p := Pack(location, PackedItems(lines), InPack);
        assert now.packs + [p] == [p];
        PackIsFit(now, lines, location);
        SameLinesDescend(now, now.lines, w);
        WriteMovesOn(w, x, id);
        forall k: Key ensures Stray(x, k) == Stray(w, k) + Slip(read, now, k) {
          WriteStrays(w, x, id, k);
          OnePackHolds(now.lines, p);
        }
      }
    }
  }

  lemma PackingRefusal(lines: seq<OrderLine>)
    ensures PackLocation(lines).Err? ==> PackLocation(lines).error != InventoryLockMismatch
  {}

  /** An aligned pack locks what the order counts on. */
  lemma AlignedSlipsNothing(read: JourneyOrder, now: JourneyOrder)
    requires Aligned(read, now)
    ensures forall k: Key :: Slip(read, now, k) == 0
  {
    hide PackLocation;
    var lines := StockedLines(read.lines);
    if PackLocation(lines).Ok? {
      var location := PackLocation(lines).value;
      forall i | 0 <= i < |lines| ensures SkuOf(now.lines, lines[i].id) == lines[i].item { assert lines[i] in lines; }
      assert LocksTaken(location, lines) == LocksOf(now.lines, location, PackedItems(lines));
    }
  }

  /** The row's version vouches for the lines. */
  lemma UnwrittenIsAligned(read: JourneyOrder, now: JourneyOrder)
    requires DistinctIds(read.lines) && Later(read, now) && read.version == now.version
    ensures Aligned(read, now)
  {
    forall l | l in StockedLines(read.lines) ensures SkuOf(now.lines, l.id) == l.item { LineAtIs(read.lines, l); }
  }

  // ---------------------------------------------------------------- every route

  lemma CommitKeeps(w: World, id: nat, read: JourneyOrder, request: Request)
    requires Tidy(w) && id < |w.orders| && WellFormed(read) && Later(read, w.orders[id])
    requires NewIds(w, request) && !request.PackOrder?
    ensures Keeps(w, id, Commit(w, id, read, request))
  {
    hide Tidy, Keeps, Later, WellFormed, CommitCancel, CommitGiveToCarrier, CommitShip, CommitHandOver, CommitEdit, CommitCustomize;
    match request {
      case CancelOrder => CancelKeeps(w, id, read);
      case GiveToCarrier(external) => GiveToCarrierKeeps(w, id, read, external);
      case ShipOrder => ShipKeepsJourney(w, id, read);
      case HandOverAtCounter(amountDue) => HandOverKeeps(w, id, read, amountDue);
      case EditOrder(edits, kind) => EditKeeps(w, id, read, edits, kind);
      case Customize(line, item, requested) => CustomizeKeeps(w, id, read, line, item, requested);
    }
  }
}
