/** The routes of the order journey as the services run them: the order is claimed, then its locks are
    taken, given back or shipped line by line against the stock service, and a refusal anywhere rolls
    the whole transaction back. Each method is proved to commit what OrderJourney.Commit says. */
module OrderDesk {
  import opened Common
  import opened StockLedger
  import opened OrderJourney
  import Ops = StockOperations
  import InventoryService

  function Committed(before: World, outcome: Result<World>): World {
    if outcome.Ok? then outcome.value else before
  }

  /** What the caller is told: that it was done, or why not. */
  function Verdict<T>(outcome: Result<T>): Result<()> {
    match outcome
    case Ok(_) => Ok(())
    case Err(e) => Err(e)
  }

  lemma ReleaseOneMore(s: State, holds: seq<Ops.LockLine>, last: Ops.LockLine)
    ensures ReleaseAll(s, holds + [last])
         == match ReleaseAll(s, holds) case Err(e) => Err(e) case Ok(t) => Ops.ReleaseLockedStock(t, last.key, last.quantity)
  {
    assert (holds + [last])[..|holds|] == holds;
  }

  /** Once one release is refused, so is the whole. */
  lemma {:induction false} ReleaseStops(s: State, holds: seq<Ops.LockLine>, rest: seq<Ops.LockLine>)
    requires ReleaseAll(s, holds).Err?
    ensures ReleaseAll(s, holds + rest) == ReleaseAll(s, holds)
  {
    if rest == [] {
      assert holds + rest == holds;
    } else {
      var front, last := rest[..|rest| - 1], rest[|rest| - 1];
      ReleaseStops(s, holds, front);
      assert holds + rest == (holds + front) + [last];
      ReleaseOneMore(s, holds + front, last);
    }
  }

  lemma {:induction false} ShipStops(s: State, order: Id, lines: seq<OrderLine>, location: Id, items: seq<PackedItem>, n: nat)
    requires n <= |items| && ShipAll(s, order, lines, location, items[..n]).Err?
    ensures ShipAll(s, order, lines, location, items) == ShipAll(s, order, lines, location, items[..n])
  {
    if n < |items| {
      assert items[..|items| - 1][..n] == items[..n];
      ShipStops(s, order, lines, location, items[..|items| - 1], n);
    } else {
      assert items[..n] == items;
    }
  }

  lemma {:induction false} HoldsPrefix(lines: seq<OrderLine>, packs: seq<Pack>, i: nat)
    requires i <= |packs|
    ensures exists rest :: HoldsOf(lines, packs) == HoldsOf(lines, packs[..i]) + rest
  {
    if i == |packs| {
      assert packs[..i] == packs;
      assert HoldsOf(lines, packs) == HoldsOf(lines, packs[..i]) + [];
    } else {
      var front, last := packs[..|packs| - 1], packs[|packs| - 1];
      assert front[..i] == packs[..i];
      HoldsPrefix(lines, front, i);
      var rest :| HoldsOf(lines, front) == HoldsOf(lines, packs[..i]) + rest;
      var own := if Locking(last) then LocksOf(lines, last.location, last.items) else [];
      assert HoldsOf(lines, packs) == HoldsOf(lines, packs[..i]) + (rest + own);
    }
  }

  lemma HoldsOneMore(lines: seq<OrderLine>, packs: seq<Pack>, i: nat)
    requires i < |packs|
    ensures HoldsOf(lines, packs[..i + 1])
         == HoldsOf(lines, packs[..i]) + if Locking(packs[i]) then LocksOf(lines, packs[i].location, packs[i].items) else []
  {
    assert packs[..i + 1][..i] == packs[..i];
  }

  lemma EmptyHolds(s: State, lines: seq<OrderLine>)
    ensures HoldsOf(lines, []) == [] && ReleaseAll(s, []) == Ok(s)
  {}

  /** Once one line of an edit is refused, so is the edit. */
  lemma {:induction false} RefusalStays(lines: seq<OrderLine>, edits: seq<EditLine>, n: nat)
    requires n <= |edits| && EditRefusal(lines, edits[..n]).Some?
    ensures EditRefusal(lines, edits) == EditRefusal(lines, edits[..n])
  {
    if n < |edits| {
      assert edits[..|edits| - 1][..n] == edits[..n];
      RefusalStays(lines, edits[..|edits| - 1], n);
    } else {
      assert edits[..n] == edits;
    }
  }

  lemma {:induction false} KeptAtMore(edits: seq<EditLine>, e: EditLine, id: Id)
    ensures KeptAt(edits + [e], id).Some? <==> KeptAt(edits, id).Some? || (e.Kept? && e.id == id)
  {
    if edits != [] {
      assert (edits + [e])[1..] == edits[1..] + [e];
      KeptAtMore(edits[1..], e, id);
    }
  }

  class Desk {
    const inventory: InventoryService.Service
    var orders: seq<JourneyOrder>
    /** The ids product items and order lines were given. */
    var skus: set<Id>
    var lineIds: set<Id>

    function World(): World
      reads this, inventory
    {
      OrderJourney.World(inventory.Tables(), orders, skus, lineIds)
    }

    ghost predicate Valid()
      reads this, inventory
    {
      inventory.Valid()
    }

    constructor ()
      ensures Valid() && fresh(inventory) && World() == OrderJourney.World(EMPTY, [], {}, {})
    {
      var service := new InventoryService.Service();
      inventory := service;
      orders, skus, lineIds := [], {}, {};
    }

    /** The conditional update every route starts its transaction with. */
    method Claim(id: nat, from: Status, to: Status) returns (claimed: bool)
      requires id < |orders|
      modifies `orders
      ensures claimed <==> old(orders)[id].status == from
      ensures orders == if claimed
        then old(orders)[id := old(orders)[id].(status := to, version := old(orders)[id].version + 1)] else old(orders)
    {
      var now := orders[id];
      if now.status != from { return false; }
      orders := orders[id := now.(status := to, version := now.version + 1)];
      return true;
    }

    /** Give back the locks of one pack, item by item, until one is refused: of each, the product item
        its line named when the order was read. */
    method ReleasePack(lines: seq<OrderLine>, location: Id, items: seq<PackedItem>, ghost start: State, ghost done: seq<Ops.LockLine>)
      returns (r: Result<()>)
      requires Valid() && ReleaseAll(start, done) == Ok(inventory.Tables())
      modifies inventory
      ensures Valid()
      ensures r == Verdict(ReleaseAll(start, done + LocksOf(lines, location, items)))
      ensures r.Ok? ==> ReleaseAll(start, done + LocksOf(lines, location, items)) == Ok(inventory.Tables())
    {
      hide Ops.ReleaseLockedStock, ReleaseAll;
      ghost var locks := LocksOf(lines, location, items);
      assert done + locks[..0] == done;
      for j := 0 to |items|
        invariant Valid() && |locks| == |items|
        invariant ReleaseAll(start, done + locks[..j]) == Ok(inventory.Tables())
      {
        ReleaseOneMore(start, done + locks[..j], locks[j]);
        assert done + locks[..j + 1] == (done + locks[..j]) + [locks[j]];
        r := inventory.ReleaseLockedStock(Key(location, SkuOf(lines, items[j].line)), items[j].quantity);
        if r.Err? {
          ReleaseStops(start, done + locks[..j + 1], locks[j + 1..]);
          assert (done + locks[..j + 1]) + locks[j + 1..] == done + locks;
          return r;
        }
      }
      assert locks[..|items|] == locks;
      return Ok(());
    }

    method Cancel(id: nat, read: JourneyOrder) returns (r: Result<()>)
      requires Valid() && id < |orders|
      modifies `orders, inventory
      ensures Valid() && World() == Committed(old(World()), Commit(old(World()), id, read, CancelOrder))
      ensures r == Verdict(Commit(old(World()), id, read, CancelOrder))
    {
      hide ReleaseAll, HoldsOf;
      if !CanTransition(read.status, Cancelled) { return Err(OrderCancelNotAllowed); }
      ghost var start := inventory.Tables();
      var was := orders;
      var claimed := Claim(id, read.status, Cancelled);
      if !claimed { return Err(OrderStatusConflict); }
      var saved := inventory.Tables();
      EmptyHolds(start, read.lines);
      for i := 0 to |read.packs|
        invariant Valid() && orders == was[id := was[id].(status := Cancelled, version := was[id].version + 1)]
        invariant ReleaseAll(start, HoldsOf(read.lines, read.packs[..i])) == Ok(inventory.Tables())
      {
        HoldsOneMore(read.lines, read.packs, i);
        if Locking(read.packs[i]) {
          r := ReleasePack(read.lines, read.packs[i].location, read.packs[i].items, start, HoldsOf(read.lines, read.packs[..i]));
          if r.Err? {
            HoldsPrefix(read.lines, read.packs, i + 1);
            ghost var rest :| HoldsOf(read.lines, read.packs) == HoldsOf(read.lines, read.packs[..i + 1]) + rest;
            ReleaseStops(start, HoldsOf(read.lines, read.packs[..i + 1]), rest);
            inventory.RollBack(saved);
            orders := was;
            return r;
          }
        } else {
          assert HoldsOf(read.lines, read.packs[..i]) + [] == HoldsOf(read.lines, read.packs[..i]);
        }
      }
      assert read.packs[..|read.packs|] == read.packs;
      var now := orders[id];
      orders := orders[id := now.(packs := WithdrawPacks(now.packs, read.packs))];
      return Ok(());
    }

    /** Ship the items of a pack one by one, until one is refused. */
    method ShipItems(id: nat, lines: seq<OrderLine>, location: Id, items: seq<PackedItem>) returns (r: Result<()>)
      requires Valid()
      modifies inventory
      ensures Valid()
      ensures r == Verdict(ShipAll(old(inventory.Tables()), id, lines, location, items))
      ensures r.Ok? ==> ShipAll(old(inventory.Tables()), id, lines, location, items) == Ok(inventory.Tables())
    {
      hide Ops.ShipLockedStock;
      ghost var start := inventory.Tables();
      for j := 0 to |items|
        invariant Valid()
        invariant ShipAll(start, id, lines, location, items[..j]) == Ok(inventory.Tables())
      {
        assert items[..j + 1][..j] == items[..j];
        r := inventory.ShipLockedStock(Key(location, SkuOf(lines, items[j].line)), items[j].quantity, ShipCause(id, items[j].line));
        if r.Err? {
          ShipStops(start, id, lines, location, items, j + 1);
          return r;
        }
      }
      assert items[..|items|] == items;
      return Ok(());
    }

    method PackOrder(id: nat, read: JourneyOrder) returns (r: Result<()>)
      requires Valid() && id < |orders|
      modifies `orders, inventory
      ensures Valid() && World() == Committed(old(World()), Commit(old(World()), id, read, Request.PackOrder))
      ensures r == Verdict(Commit(old(World()), id, read, Request.PackOrder))
    {
      hide Ops.LockStock, StockedLines, PackLocation, PackedItems, LocksTaken, LineAt;
      if !CanTransition(read.status, Packed) { return Err(OrderStatusTransitionInvalid); }
      var lines := StockedLines(read.lines);
      if lines == [] { return Err(FulfillmentNothingToPack); }
      var location := PackLocation(lines);
      if location.Err? { return Err(location.error); }
      var was := orders;
      var claimed := Claim(id, Confirmed, Packed);
      if !claimed { return Err(OrderStatusConflict); }
      var now := orders[id];
      if exists l :: l in lines && LineAt(now.lines, l.id).None? {
        orders := was;
        return Err(ForeignKeyViolation);
      }
      orders := orders[id := now.(packs := now.packs + [Pack(location.value, PackedItems(lines), InPack)])];
      var locked, _ := inventory.LockStock(LocksTaken(location.value, lines));
      if locked.Err? {
        orders := was;
        return Err(locked.error);
      }
      return Ok(());
    }

    method Ship(id: nat, read: JourneyOrder) returns (r: Result<()>)
      requires Valid() && id < |orders|
      modifies `orders, inventory
      ensures Valid() && World() == Committed(old(World()), Commit(old(World()), id, read, ShipOrder))
      ensures r == Verdict(Commit(old(World()), id, read, ShipOrder))
    {
      hide ShipAll;
      if !CanTransition(read.status, Shipping) { return Err(OrderStatusTransitionInvalid); }
      var handed := FirstPack(read.packs, HandedOver);
      if handed.None? { return Err(FulfillmentNotHandedOver); }
      FirstPackFound(read.packs, HandedOver);
      var was, saved := orders, inventory.Tables();
      var claimed := Claim(id, PickedUp, Shipping);
      if !claimed { return Err(OrderStatusConflict); }
      r := ShipItems(id, read.lines, read.packs[handed.value].location, read.packs[handed.value].items);
      if r.Err? {
        inventory.RollBack(saved);
        orders := was;
      }
    }

    method GiveToCarrier(id: nat, read: JourneyOrder, external: bool) returns (r: Result<()>)
      requires Valid() && id < |orders|
      modifies `orders
      ensures Valid() && World() == Committed(old(World()), Commit(old(World()), id, read, Request.GiveToCarrier(external)))
      ensures r == Verdict(Commit(old(World()), id, read, Request.GiveToCarrier(external)))
    {
      if external && read.kind == StorePickup { return Err(ShipmentNotForPickup); }
      var packed := FirstPack(read.packs, InPack);
      if read.status != Packed || packed.None? {
        return Err(if external then ShipmentOrderNotPacked else OrderStatusTransitionInvalid);
      }
      var claimed := Claim(id, Packed, PickedUp);
      if !claimed { return Err(OrderStatusConflict); }
      var now := orders[id];
      orders := orders[id := now.(packs := HandOverPack(now.packs, packed.value))];
      return Ok(());
    }

    /** Every line an edit names is looked up, until one is not as it should be. */
    method CheckLines(lines: seq<OrderLine>, edits: seq<EditLine>) returns (refusal: Option<ErrorCode>)
      ensures refusal == EditRefusal(lines, edits)
    {
      var seen: set<Id> := {};
      assert edits[..0] == [];
      for i := 0 to |edits|
        invariant EditRefusal(lines, edits[..i]) == None
        invariant forall l: Id :: l in seen <==> KeptAt(edits[..i], l).Some?
      {
        var e := edits[i];
        assert edits[..i + 1][..i] == edits[..i] && edits[..i + 1] == edits[..i] + [e];
        if e.Kept? {
          var line := LineAt(lines, e.id);
          if line.None? || e.id in seen {
            RefusalStays(lines, edits, i + 1);
            return Some(OrderItemNotFound);
          }
          seen := seen + {e.id};
          if line.value.item != e.item {
            RefusalStays(lines, edits, i + 1);
            return Some(OrderNotEditable);
          }
        }
        forall l: Id ensures l in seen <==> KeptAt(edits[..i + 1], l).Some? { KeptAtMore(edits[..i], e, l); }
      }
      assert edits[..|edits|] == edits;
      return None;
    }

    /** Lines the edit does not name are dropped, those it names rewritten in place. */
    method RewriteLines(lines: seq<OrderLine>, edits: seq<EditLine>) returns (r: seq<OrderLine>)
      ensures r == KeptLines(lines, edits)
    {
      r := [];
      for i := 0 to |lines|
        invariant r == KeptLines(lines[..i], edits)
      {
        assert lines[..i + 1][..i] == lines[..i];
        var e := KeptAt(edits, lines[i].id);
        if e.Some? { r := r + [lines[i].(quantity := e.value.quantity, source := e.value.source)]; }
      }
      assert lines[..|lines|] == lines;
    }

    method NewLines(edits: seq<EditLine>) returns (r: seq<OrderLine>)
      ensures r == AddedLines(edits)
    {
      r := [];
      for i := 0 to |edits|
        invariant r == AddedLines(edits[..i])
      {
        assert edits[..i + 1][..i] == edits[..i];
        var e := edits[i];
        if e.Added? { r := r + [OrderLine(e.id, e.item, e.quantity, e.source, e.stocked, false)]; }
      }
      assert edits[..|edits|] == edits;
    }

    /** An edit claims the very row it read: its version as well as its status. */
    method Edit(id: nat, read: JourneyOrder, edits: Option<seq<EditLine>>, kind: FulfillmentType) returns (r: Result<()>)
      requires Valid() && id < |orders|
      modifies `orders, `lineIds
      ensures Valid() && World() == Committed(old(World()), Commit(old(World()), id, read, EditOrder(edits, kind)))
      ensures r == Verdict(Commit(old(World()), id, read, EditOrder(edits, kind)))
    {
      hide EditRefusal, KeptLines, AddedLines;
      if !Unshipped(read.status) || (edits.Some? && read.status != Confirmed) { return Err(OrderNotEditable); }
      if edits.Some? {
        var refusal := CheckLines(read.lines, edits.value);
        if refusal.Some? { return Err(refusal.value); }
      }
      var was, now := orders, orders[id];
      if now.status != read.status || now.version != read.version { return Err(OrderStatusConflict); }
      now := now.(kind := kind, version := now.version + 1);
      orders := orders[id := now];
      if edits.Some? {
        var lines := RewriteLines(now.lines, edits.value);
        var added := NewLines(edits.value);
        if exists l :: l in added && l.item !in skus {
          orders := was;
          return Err(ForeignKeyViolation);
        }
        orders := orders[id := now.(lines := lines + added)];
        lineIds := lineIds + IdsOf(added);
      }
      return Ok(());
    }

    /** Make a line to measure, claiming the order by its status alone. */
    method Customize(id: nat, read: JourneyOrder, line: Id, item: Id, requested: bool) returns (r: Result<()>)
      requires Valid() && id < |orders|
      modifies `orders, `skus
      ensures Valid()
      ensures World() == Committed(old(World()), Commit(old(World()), id, read, Request.Customize(line, item, requested)))
      ensures r == Verdict(Commit(old(World()), id, read, Request.Customize(line, item, requested)))
    {
      var found := LineAt(read.lines, line);
      if found.None? { return Err(OrderItemNotFound); }
      if read.status != Confirmed { return Err(OrderNotEditable); }
      if !found.value.stocked { return Err(OrderItemNotCustomizable); }
      if requested { return Err(OrderItemCustomLocked); }
      var was := orders;
      var claimed := Claim(id, Confirmed, Confirmed);
      if !claimed { return Err(OrderStatusConflict); }
      var now := orders[id];
      if LineAt(now.lines, line).None? {
        orders := was;
        return Err(if found.value.custom then ForeignKeyViolation else RecordNotFound);
      }
      if !found.value.custom {
        skus := skus + {item};
        orders := orders[id := now.(lines := Moved(now.lines, line, item))];
      }
      return Ok(());
    }

    method HandOver(id: nat, read: JourneyOrder, amountDue: int) returns (r: Result<()>)
      requires Valid() && id < |orders|
      modifies `orders, inventory
      ensures Valid() && World() == Committed(old(World()), Commit(old(World()), id, read, HandOverAtCounter(amountDue)))
      ensures r == Verdict(Commit(old(World()), id, read, HandOverAtCounter(amountDue)))
    {
      hide ShipAll;
      if read.kind != StorePickup { return Err(OrderNotStorePickup); }
      var packed := FirstPack(read.packs, InPack);
      if read.status != Packed || packed.None? { return Err(OrderPickupNotReady); }
      if amountDue > 0 { return Err(OrderPickupBalanceDue); }
      FirstPackFound(read.packs, InPack);
      var i := packed.value;
      var was, saved := orders, inventory.Tables();
      var claimed := Claim(id, Packed, Completed);
      if !claimed { return Err(OrderStatusConflict); }
      r := ShipItems(id, read.lines, read.packs[i].location, read.packs[i].items);
      if r.Err? {
        inventory.RollBack(saved);
        orders := was;
        return r;
      }
      var now := orders[id];
      if i >= |now.packs| || now.packs[i].status != InPack {
        inventory.RollBack(saved);
        orders := was;
        return Err(OrderStatusConflict);
      }
      orders := orders[id := now.(packs := HandOverPack(now.packs, i))];
    }
  }
}
