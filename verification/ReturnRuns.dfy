/** Returns over time: requests, receipts, cancellations and inspections of any number of orders, with
    any other movement of stock in between. */
module ReturnRuns {
  import opened Common
  import opened LotAllocation
  import opened StockLedger
  import opened StockOperations
  import opened StockInvariants
  import opened OrderReturns
  import Journey = OrderJourney
  import Trail = ReturnTrail

  // ---------------------------------------------------------------- every run

  /** A request decides on the books of an earlier moment; the rest writes the books of its own. */
  datatype Action =
    | ShipOrder(lines: map<Id, SoldLine>)
    | Deliver(order: nat, to: OrderStatus)
    | RequestReturn(order: nat, items: seq<ReturnLine>, readAt: nat)
    | ReceiveReturn(id: nat)
    | CancelReturn(id: nat)
    | InspectReturn(id: nat, verdicts: map<Id, Verdict>, now: int)
    | StockMove(call: Call)

  /** A new order leaves with at least one stocked line, nothing of it back yet. A line that was not packed
      - one without stock, or one that came in after packing had read the order - stays behind. */
  ghost predicate LeavesNow(shop: Shop, b: Books, lines: map<Id, SoldLine>) {
    && (forall id :: id in lines ==>
          && id !in b.lines && id !in shop.counterLines && lines[id].order == |b.orders|
          && lines[id].quantity > 0 && lines[id].returnedQuantity == 0
          && (lines[id].status == Shipped || lines[id].status == Pending) && (lines[id].status == Shipped ==> lines[id].stocked)
          && SumBy(b.stock.ledger, BackFor(id)) == 0
          && (forall j :: 0 <= j < |b.stock.ledger| && b.stock.ledger[j].cause.line == Some(id) ==> !IsReturn(b.stock.ledger[j].cause.tx)))
    && (exists id :: id in lines && lines[id].status == Shipped)
  }

  /** Other stock movements book no returns on these lines. */
  predicate NoReturnOf(shop: Shop, c: Call) {
    Trail.CauseOf(c).Some? && IsReturn(Trail.CauseOf(c).value.tx) ==>
      Trail.CauseOf(c).value.line.Some? && Trail.CauseOf(c).value.line.value in shop.counterLines
  }

  function Or(b: Books, r: Result<Books>): Books { if r.Ok? then r.value else b }

  ghost predicate Took(shop: Shop, states: seq<Books>, n: nat, a: Action)
    requires n + 1 < |states|
  {
    var b, t := states[n], states[n + 1];
    match a
    case ShipOrder(lines) =>
      LeavesNow(shop, b, lines) && t == b.(lines := b.lines + lines, orders := b.orders + [Journey.Shipping])
    case Deliver(order, to) =>
      && order < |b.orders| && Returnable(to) && Journey.CanTransition(b.orders[order], to)
      && t == b.(orders := b.orders[order := to])
    case RequestReturn(order, items, readAt) => readAt <= n && t == Or(b, Request(b, states[readAt], order, items))
    case ReceiveReturn(id) => id < |b.requests| && t == Or(b, Receive(b, id))
    case CancelReturn(id) => id < |b.requests| && t == Or(b, Cancel(b, id))
    case InspectReturn(id, verdicts, now) =>
      id < |b.requests| && Consistent(b.stock) && t == Or(b, Inspect(shop, b, id, verdicts, now))
    case StockMove(call) =>
      && NoReturnOf(shop, call) && EntriesPlaced(b.stock)
      && t == b.(stock := match Outcome(b.stock, call) case Ok(s) => s case Err(_) => b.stock)
  }

  ghost predicate History(shop: Shop, states: seq<Books>, actions: seq<Action>) {
    && |states| == |actions| + 1 && states[0] == Books(EMPTY, map[], [], [])
    && forall n :: 0 <= n < |actions| ==> Took(shop, states, n, actions[n])
  }

  lemma RequestKeeps(shop: Shop, b: Books, read: Books, order: nat, items: seq<ReturnLine>)
    requires BooksRight(shop, b) && Request(b, read, order, items).Ok?
    requires |read.orders| <= |b.orders|
    requires forall id :: id in read.lines ==> id in b.lines && MovedOn(read.lines[id], b.lines[id])
    ensures BooksRight(shop, Request(b, read, order, items).value)
  {
    hide GoodsRight, OrderRight;
    var r := ReturnOrder(order, Requested, items);
    forall rl | rl in items ensures rl.line in b.lines && LeftTheShop(b.lines[rl.line], order) {
      assert LineRefused(read, order, rl) == None;
    }
  }

  /** A line only moves on. */
  predicate MovedOn(a: SoldLine, b: SoldLine) {
    b == a.(status := b.status, returnedQuantity := b.returnedQuantity)
    && (b.status == a.status || (a.status == Shipped && b.status == Returned))
  }

  lemma ShipKeeps(shop: Shop, b: Books, lines: map<Id, SoldLine>)
    requires BooksRight(shop, b) && LeavesNow(shop, b, lines)
    ensures BooksRight(shop, b.(lines := b.lines + lines, orders := b.orders + [Journey.Shipping]))
  {
    var t := b.(lines := b.lines + lines, orders := b.orders + [Journey.Shipping]);
    forall id | id in t.lines ensures LineRight(t.lines[id]) && SumBy(t.stock.ledger, BackFor(id)) == t.lines[id].returnedQuantity {
      if id in lines { assert t.lines[id] == lines[id]; } else { assert t.lines[id] == b.lines[id]; }
    }
    forall o | 0 <= o < |t.orders| ensures OrderRight(t.lines, t.orders, o) { ShipOrderRight(b, lines, o); }
    forall j | 0 <= j < |t.stock.ledger| && t.stock.ledger[j].cause.line.Some? && t.stock.ledger[j].cause.line.value in t.lines
      ensures PlaceRight(shop, t.stock.ledger[j])
    {
      if t.stock.ledger[j].cause.line.value in lines {
        assert b.stock.ledger[j].cause.line == Some(t.stock.ledger[j].cause.line.value);
      }
    }
    forall r | r in t.requests ensures ReturnRight(t.lines, t.orders, r) {
      forall rl | rl in r.items ensures rl.line in t.lines && LeftTheShop(t.lines[rl.line], r.order) {
        assert rl.line in b.lines && rl.line !in lines;
      }
    }
  }

  lemma ShipOrderRight(b: Books, lines: map<Id, SoldLine>, o: nat)
    requires o <= |b.orders| && (o < |b.orders| ==> OrderRight(b.lines, b.orders, o))
    requires forall id :: id in b.lines ==> b.lines[id].order < |b.orders|
    requires forall id :: id in lines ==> id !in b.lines && lines[id].order == |b.orders|
    requires forall id :: id in lines && lines[id].status == Shipped ==> lines[id].stocked
    requires exists id :: id in lines && lines[id].status == Shipped
    ensures OrderRight(b.lines + lines, b.orders + [Journey.Shipping], o)
  {
    var t := b.lines + lines;
    if o < |b.orders| {
      assert forall id :: id in t && LeftTheShop(t[id], o) <==> id in b.lines && LeftTheShop(b.lines[id], o);
      assert forall id :: id in b.lines ==> t[id] == b.lines[id];
      assert AllBack(t, o) <==> AllBack(b.lines, o);
    } else {
      var id :| id in lines && lines[id].status == Shipped;
      assert id in t && LeftTheShop(t[id], o) && t[id].status == Shipped;
    }
  }

  lemma StockMoveKeepsBooks(shop: Shop, b: Books, call: Call)
    requires BooksRight(shop, b) && NoReturnOf(shop, call) && Outcome(b.stock, call).Ok?
    ensures BooksRight(shop, b.(stock := Outcome(b.stock, call).value))
  {
    Placed(b.stock);
    hide Consistent, Outcome, OrderRight, LinesRight, PlaceRight, Trail.Grows;
    var s := Outcome(b.stock, call).value;
    OutcomeKeeps(b.stock, call);
    Trail.OutcomeGrows(b.stock, call);
    if Trail.CauseOf(call).Some? {
      var cause := Trail.CauseOf(call).value;
      forall id | id in b.lines ensures SumBy(s.ledger, BackFor(id)) == b.lines[id].returnedQuantity {
        GrownElsewhere(b.stock, s, cause, id);
      }
      GrownPlaces(shop, b.stock, s, cause, b.lines);
    }
  }

  lemma GrownPlaces(shop: Shop, s: State, t: State, cause: LedgerRef, lines: map<Id, SoldLine>)
    requires Trail.Grows(s, t, cause) && PlacesRight(shop, s.ledger, lines)
    requires IsReturn(cause.tx) ==> cause.line.None? || cause.line.value !in lines
    ensures PlacesRight(shop, t.ledger, lines)
  {
    forall j | 0 <= j < |t.ledger| && t.ledger[j].cause.line.Some? && t.ledger[j].cause.line.value in lines
      ensures PlaceRight(shop, t.ledger[j])
    {
      if j < |s.ledger| { assert t.ledger[j] == s.ledger[j]; } else { assert t.ledger[j].cause == cause; }
    }
  }

  lemma GrownElsewhere(s: State, t: State, cause: LedgerRef, id: Id)
    requires Trail.Grows(s, t, cause) && (IsReturn(cause.tx) ==> cause.line != Some(id))
    ensures SumBy(t.ledger, BackFor(id)) == SumBy(s.ledger, BackFor(id))
  {
    var added := t.ledger[|s.ledger|..];
    assert t.ledger == s.ledger + added;
    SumByConcat(s.ledger, added, BackFor(id));
    assert forall e :: e in added ==> e.cause == cause;
    SumByZero(added, BackFor(id));
  }

  lemma DeliverKeeps(shop: Shop, b: Books, order: nat, to: OrderStatus)
    requires BooksRight(shop, b) && order < |b.orders| && Returnable(to) && Journey.CanTransition(b.orders[order], to)
    ensures BooksRight(shop, b.(orders := b.orders[order := to]))
  {
    hide GoodsRight;
    var t := b.(orders := b.orders[order := to]);
    forall o | 0 <= o < |t.orders| ensures OrderRight(t.lines, t.orders, o) { assert OrderRight(b.lines, b.orders, o); }
  }

  /** What stays true of the lines and orders between a read and now. */
  ghost predicate Since(a: Books, b: Books) {
    |a.orders| <= |b.orders| && forall id :: id in a.lines ==> id in b.lines && MovedOn(a.lines[id], b.lines[id])
  }

  lemma RequestsStayRight(b: Books, id: nat, r: ReturnOrder)
    requires id < |b.requests| && r.items == b.requests[id].items && r.order == b.requests[id].order
    requires forall x :: x in b.requests ==> ReturnRight(b.lines, b.orders, x)
    ensures forall x :: x in b.requests[id := r] ==> ReturnRight(b.lines, b.orders, x)
  {
    forall x | x in b.requests[id := r] ensures ReturnRight(b.lines, b.orders, x) {
      var i :| 0 <= i < |b.requests| && b.requests[id := r][i] == x;
      assert b.requests[i] in b.requests && b.requests[id] in b.requests;
    }
  }

  lemma InspectSince(shop: Shop, b: Books, id: nat, verdicts: map<Id, Verdict>, now: int)
    requires BooksRight(shop, b) && id < |b.requests| && Inspect(shop, b, id, verdicts, now).Ok?
    ensures Since(b, Inspect(shop, b, id, verdicts, now).value)
  {
    hide GoodsRight, Consistent, InspectLines, OrderRight;
    var ret := b.requests[id];
    assert ret in b.requests;
    assert Consistent(b.stock) by { GoodsAreConsistent(shop, Goods(b.stock, b.lines)); }
    InspectLinesKeep(shop, Goods(b.stock, b.lines), id, ret.items, verdicts, now, ret.order);
  }

  lemma TookKeeps(shop: Shop, states: seq<Books>, n: nat, a: Action)
    requires n + 1 < |states| && Took(shop, states, n, a) && BooksRight(shop, states[n])
    requires a.RequestReturn? ==> a.readAt <= n && Since(states[a.readAt], states[n])
    ensures BooksRight(shop, states[n + 1]) && Since(states[n], states[n + 1])
  {
    hide GoodsRight, OrderRight, Consistent, Inspect, Request, LeavesNow, Outcome;
    var b := states[n];
    match a {
      case ShipOrder(lines) => ShipKeeps(shop, b, lines); ShipSince(shop, b, lines);
      case Deliver(order, to) => DeliverKeeps(shop, b, order, to);
      case RequestReturn(order, items, readAt) =>
        if Request(b, states[readAt], order, items).Ok? {
          RequestKeeps(shop, b, states[readAt], order, items);
          RequestSince(b, states[readAt], order, items);
        }
      case ReceiveReturn(id) => if Receive(b, id).Ok? { RequestsStayRight(b, id, b.requests[id].(status := Inspecting)); }
      case CancelReturn(id) => if Cancel(b, id).Ok? { RequestsStayRight(b, id, b.requests[id].(status := Cancelled)); }
      case InspectReturn(id, verdicts, now) =>
        if Inspect(shop, b, id, verdicts, now).Ok? {
          InspectKeeps(shop, b, id, verdicts, now);
          InspectSince(shop, b, id, verdicts, now);
        }
      case StockMove(call) => if Outcome(b.stock, call).Ok? { StockMoveKeepsBooks(shop, b, call); }
    }
  }

  lemma ShipSince(shop: Shop, b: Books, lines: map<Id, SoldLine>)
    requires LeavesNow(shop, b, lines)
    ensures Since(b, b.(lines := b.lines + lines, orders := b.orders + [Journey.Shipping]))
  {}

  lemma RequestSince(b: Books, read: Books, order: nat, items: seq<ReturnLine>)
    requires Request(b, read, order, items).Ok?
    ensures Since(b, Request(b, read, order, items).value)
  {}

  lemma SinceTwice(a: Books, b: Books, c: Books)
    requires Since(a, b) && Since(b, c)
    ensures Since(a, c)
  {}

  lemma NothingBooked(shop: Shop)
    ensures BooksRight(shop, Books(EMPTY, map[], [], []))
  {
    assert EMPTY.lots == [] && EMPTY.ledger == [];
  }

  lemma SinceItself(b: Books)
    ensures Since(b, b)
  {}

  /** Main result. Over any run of requests, receipts, cancellations and inspections, with any other
      stock movement in between and requests decided on stale reads: no line ever returns more than was
      sold; what its RETURN rows booked back is what the line says came back; a shipped line is RETURNED
      exactly when all of it came back; an order is RETURNED exactly when all it shipped is; GOOD units
      are only ever put where goods are sold, DAMAGED ones only in a damaged-goods warehouse. */
  lemma {:induction false} ReturnsAddUp(shop: Shop, states: seq<Books>, actions: seq<Action>, n: nat)
    requires History(shop, states, actions) && n < |states|
    ensures BooksRight(shop, states[n]) && forall m :: 0 <= m <= n ==> Since(states[m], states[n])
  {
    hide BooksRight, Since, Took;
    if n == 0 {
      NothingBooked(shop);
      SinceItself(states[0]);
    } else {
      ReturnsAddUp(shop, states, actions, n - 1);
      assert Took(shop, states, n - 1, actions[n - 1]);
      ReadIsPast(shop, states, n - 1, actions[n - 1]);
      TookKeeps(shop, states, n - 1, actions[n - 1]);
      forall m | 0 <= m <= n ensures Since(states[m], states[n]) {
        if m < n { SinceTwice(states[m], states[n - 1], states[n]); } else { SinceItself(states[n]); }
      }
    }
  }

  lemma ReadIsPast(shop: Shop, states: seq<Books>, n: nat, a: Action)
    requires n + 1 < |states| && Took(shop, states, n, a)
    ensures a.RequestReturn? ==> a.readAt <= n
  {}

  // ---------------------------------------------------------------- a failed delivery brought back

  /** What a failed delivery brings back: all that is still out. */
  predicate BringsAllBack(b: Books, order: nat, items: seq<ReturnLine>) {
    forall id :: id in b.lines && LeftTheShop(b.lines[id], order) && b.lines[id].status == Shipped ==>
      exists rl :: rl in items && rl.line == id && rl.quantity == b.lines[id].quantity - b.lines[id].returnedQuantity
  }

  lemma {:induction false} LineNotBelow(shop: Shop, g: Goods, id: nat, items: seq<ReturnLine>, verdicts: map<Id, Verdict>, now: int, line: Id)
    requires Consistent(g.stock) && line in g.lines && InspectLines(shop, g, id, items, verdicts, now).Ok?
    ensures var t := InspectLines(shop, g, id, items, verdicts, now).value;
      line in t.lines && t.lines[line].quantity == g.lines[line].quantity
      && t.lines[line].returnedQuantity == g.lines[line].returnedQuantity + SumBy(items, QuantityOf(line))
  {
    hide Consistent, ReturnDrawn, Destination;
    if items != [] {
      LineNotBelow(shop, g, id, items[..|items| - 1], verdicts, now, line);
    }
  }

  /** Inspecting a return of everything still out leaves the order RETURNED. */
  lemma FailedDeliveryComesBack(shop: Shop, b: Books, id: nat, verdicts: map<Id, Verdict>, now: int)
    requires BooksRight(shop, b) && id < |b.requests| && Inspect(shop, b, id, verdicts, now).Ok?
    requires b.requests[id].order < |b.orders| && BringsAllBack(b, b.requests[id].order, b.requests[id].items)
    ensures Inspect(shop, b, id, verdicts, now).value.orders[b.requests[id].order] == Journey.Returned
  {
    GoodsAreConsistent(shop, Goods(b.stock, b.lines));
    hide GoodsRight, Consistent, InspectLines, InspectLine;
    var ret, t := b.requests[id], Inspect(shop, b, id, verdicts, now).value;
    var g := Goods(b.stock, b.lines);
    InspectKeeps(shop, b, id, verdicts, now);
    InspectSince(shop, b, id, verdicts, now);
    assert OrderRight(b.lines, b.orders, ret.order) && OrderRight(t.lines, t.orders, ret.order);
    forall x | x in t.lines && LeftTheShop(t.lines[x], ret.order) ensures t.lines[x].status == Returned {
      CameBack(shop, b, id, verdicts, now, x);
    }
  }

  lemma CameBack(shop: Shop, b: Books, id: nat, verdicts: map<Id, Verdict>, now: int, x: Id)
    requires BooksRight(shop, b) && id < |b.requests| && Inspect(shop, b, id, verdicts, now).Ok?
    requires BringsAllBack(b, b.requests[id].order, b.requests[id].items)
    requires x in Inspect(shop, b, id, verdicts, now).value.lines
    requires LeftTheShop(Inspect(shop, b, id, verdicts, now).value.lines[x], b.requests[id].order)
    ensures Inspect(shop, b, id, verdicts, now).value.lines[x].status == Returned
  {
    GoodsAreConsistent(shop, Goods(b.stock, b.lines));
    hide Consistent, InspectLines, PlacesRight, RowsRight;
    var ret, t := b.requests[id], Inspect(shop, b, id, verdicts, now).value;
    InspectKeeps(shop, b, id, verdicts, now);
    InspectSince(shop, b, id, verdicts, now);
    assert ret in b.requests;
    var g := Goods(b.stock, b.lines);
    InspectLinesKeep(shop, g, id, ret.items, verdicts, now, ret.order);
    assert x in b.lines && LineRight(b.lines[x]) && LineRight(t.lines[x]);
    if b.lines[x].status == Shipped {
      LineNotBelow(shop, g, id, ret.items, verdicts, now, x);
      var rl :| rl in ret.items && rl.line == x && rl.quantity == b.lines[x].quantity - b.lines[x].returnedQuantity;
      QuantityCovered(shop, g, id, ret.items, verdicts, now, rl);
    }
  }

  /** An accepted inspection took only positive quantities. */
  lemma {:induction false} QuantitiesPositive(shop: Shop, g: Goods, id: nat, items: seq<ReturnLine>, verdicts: map<Id, Verdict>, now: int)
    requires Consistent(g.stock) && InspectLines(shop, g, id, items, verdicts, now).Ok?
    ensures forall rl :: rl in items ==> rl.quantity > 0
  {
    hide Consistent, Destination, ReturnsTo, OriginLots;
    if items != [] {
      QuantitiesPositive(shop, g, id, items[..|items| - 1], verdicts, now);
      assert forall rl :: rl in items <==> rl in items[..|items| - 1] || rl == items[|items| - 1];
    }
  }

  lemma QuantityCovered(shop: Shop, g: Goods, id: nat, items: seq<ReturnLine>, verdicts: map<Id, Verdict>, now: int, rl: ReturnLine)
    requires Consistent(g.stock) && InspectLines(shop, g, id, items, verdicts, now).Ok? && rl in items
    ensures SumBy(items, QuantityOf(rl.line)) >= rl.quantity
  {
    QuantitiesPositive(shop, g, id, items, verdicts, now);
    var i :| 0 <= i < |items| && items[i] == rl;
    SumByCovers(items, QuantityOf(rl.line), i);
  }
}
