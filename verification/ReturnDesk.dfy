/** Inspecting a return as the service runs it: the request is claimed, then line by line the goods go
    back through the stock service and the line's counter is raised under its guard, then the order is
    settled; a refusal anywhere rolls everything back. */
module ReturnDesk {
  import opened Common
  import opened StockLedger
  import opened OrderReturns
  import InventoryService
  import Ops = StockOperations
  import Journey = OrderJourney

  function Done(before: Books, outcome: Result<Books>): Books { if outcome.Ok? then outcome.value else before }

  function Told<T>(outcome: Result<T>): Result<()> {
    match outcome
    case Ok(_) => Ok(())
    case Err(e) => Err(e)
  }

  function NextLine(shop: Shop, so: Result<Goods>, id: nat, rl: ReturnLine, verdicts: map<Id, Verdict>, now: int): Result<Goods>
    requires so.Ok? ==> Consistent(so.value.stock)
  {
    if so.Err? then so
    else if rl.line !in verdicts then Err(OrderReturnConditionRequired)
    else InspectLine(shop, so.value, id, rl, verdicts[rl.line], now)
  }

  lemma LineOneMore(shop: Shop, g: Goods, id: nat, items: seq<ReturnLine>, verdicts: map<Id, Verdict>, now: int, i: nat)
    requires Consistent(g.stock) && i < |items|
    ensures InspectLines(shop, g, id, items[..i + 1], verdicts, now)
         == NextLine(shop, InspectLines(shop, g, id, items[..i], verdicts, now), id, items[i], verdicts, now)
  {
    assert items[..i + 1][..i] == items[..i];
  }

  lemma {:induction false} LinesStop(shop: Shop, g: Goods, id: nat, items: seq<ReturnLine>, verdicts: map<Id, Verdict>, now: int, i: nat)
    requires Consistent(g.stock) && i <= |items| && InspectLines(shop, g, id, items[..i], verdicts, now).Err?
    ensures InspectLines(shop, g, id, items, verdicts, now) == InspectLines(shop, g, id, items[..i], verdicts, now)
  {
    if i < |items| {
      assert items[..|items| - 1][..i] == items[..i];
      LinesStop(shop, g, id, items[..|items| - 1], verdicts, now, i);
    } else {
      assert items[..i] == items;
    }
  }

  class Desk {
    const shop: Shop
    const inventory: InventoryService.Service
    var lines: map<Id, SoldLine>
    var orders: seq<OrderStatus>
    var requests: seq<ReturnOrder>

    function Books(): OrderReturns.Books
      reads this, inventory
    {
      OrderReturns.Books(inventory.Tables(), lines, orders, requests)
    }

    ghost predicate Valid()
      reads this, inventory
    {
      inventory.Valid()
    }

    constructor (s: Shop)
      ensures Valid() && fresh(inventory) && shop == s && Books() == OrderReturns.Books(EMPTY, map[], [], [])
    {
      shop := s;
      var service := new InventoryService.Service();
      inventory := service;
      lines, orders, requests := map[], [], [];
    }

    /** One line: goods back into stock, then the counter, refused if it would pass what was sold. */
    method TakeBack(id: nat, rl: ReturnLine, verdict: Verdict, now: int) returns (r: Result<()>)
      requires Valid()
      modifies inventory, this`lines
      ensures Valid()
      ensures var outcome := InspectLine(shop, Goods(old(inventory.Tables()), old(lines)), id, rl, verdict, now);
        r == Told(outcome) && (r.Ok? ==> outcome == Ok(Goods(inventory.Tables(), lines)))
    {
      hide Consistent, Ops.ReturnDrawn, FirstOut, Destination;
      if rl.line !in lines { return Err(OrderItemNotFound); }
      if verdict.condition.None? { return Err(OrderReturnConditionRequired); }
      var item := lines[rl.line];
      var origin := ShippedFrom(Goods(inventory.Tables(), lines), rl.line);
      var to_ := Destination(shop, verdict.condition.value, verdict.location, origin);
      if to_.Err? { return Err(to_.error); }
      r := inventory.ReturnDrawn(ReturnOf(shop, id, rl, item.item, verdict.condition.value, to_.value, now));
      if r.Err? { return r; }
      if item.returnedQuantity > item.quantity - rl.quantity { return Err(OrderReturnQtyExceeds); }
      lines := lines[rl.line := item.(returnedQuantity := item.returnedQuantity + rl.quantity)];
      if lines[rl.line].returnedQuantity == item.quantity && item.status == Shipped {
        lines := lines[rl.line := lines[rl.line].(status := Returned)];
      }
      assert lines == old(lines)[rl.line := Bumped(item, rl.quantity)];
      return Ok(());
    }

    method TakeAllBack(id: nat, items: seq<ReturnLine>, verdicts: map<Id, Verdict>, now: int) returns (r: Result<()>)
      requires Valid()
      modifies inventory, this`lines
      ensures Valid()
      ensures var outcome := InspectLines(shop, Goods(old(inventory.Tables()), old(lines)), id, items, verdicts, now);
        r == Told(outcome) && (r.Ok? ==> outcome == Ok(Goods(inventory.Tables(), lines)))
    {
      hide Consistent, InspectLine;
      ghost var start := Goods(inventory.Tables(), lines);
      for i := 0 to |items|
        invariant Valid()
        invariant InspectLines(shop, start, id, items[..i], verdicts, now) == Ok(Goods(inventory.Tables(), lines))
      {
        LineOneMore(shop, start, id, items, verdicts, now, i);
        if items[i].line !in verdicts {
          r := Err(OrderReturnConditionRequired);
        } else {
          r := TakeBack(id, items[i], verdicts[items[i].line], now);
        }
        if r.Err? {
          LinesStop(shop, start, id, items, verdicts, now, i + 1);
          return r;
        }
      }
      assert items[..|items|] == items;
      return Ok(());
    }

    method Inspect(id: nat, verdicts: map<Id, Verdict>, now: int) returns (r: Result<()>)
      requires Valid() && id < |requests|
      modifies this, inventory
      ensures Valid() && Books() == Done(old(Books()), OrderReturns.Inspect(shop, old(Books()), id, verdicts, now))
      ensures r == Told(OrderReturns.Inspect(shop, old(Books()), id, verdicts, now))
    {
      hide Consistent, InspectLines, EveryLineJudged, AllBack;
      var request := requests[id];
      if request.status != Inspecting { return Err(OrderReturnStatusInvalid); }
      if !EveryLineJudged(request.items, verdicts) { return Err(OrderReturnConditionRequired); }
      var savedLines, savedRequests, saved := lines, requests, inventory.Tables();
      requests := requests[id := request.(status := Completed)];
      r := TakeAllBack(id, request.items, verdicts, now);
      if r.Err? {
        inventory.RollBack(saved);
        lines, requests := savedLines, savedRequests;
        return r;
      }
      SettleOrder(request.order);
    }

    /** The order is RETURNED once everything of it that shipped is back. */
    method SettleOrder(order: nat)
      modifies this`orders
      ensures orders == Settle(lines, old(orders), order)
    {
      if order < |orders| && AllBack(lines, order) && Journey.CanTransition(orders[order], Journey.Returned) {
        orders := orders[order := Journey.Returned];
      }
    }
  }
}
