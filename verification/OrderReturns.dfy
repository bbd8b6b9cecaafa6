/** Goods coming back on shipped orders (src/modules/order-returns/order-returns.service.ts): a return
    is requested, received and inspected; inspecting books every line back into stock, marks lines and
    the order RETURNED when nothing is left out, all in one transaction. */
module OrderReturns {
  import opened Common
  import opened LotAllocation
  import opened StockLedger
  import opened StockOperations
  import opened StockInvariants
  import Journey = OrderJourney

  type OrderStatus = Journey.Status

  datatype LineStatus = Pending | Shipped | Withdrawn | Returned

  /** A line of an order; `source` is where it was planned to ship from. */
  datatype SoldLine = SoldLine(order: nat, item: Id, quantity: int, stocked: bool, status: LineStatus,
                               returnedQuantity: int, source: Option<Id>)

  datatype ReturnStatus = Requested | Inspecting | Completed | Cancelled

  datatype ReturnLine = ReturnLine(line: Id, quantity: int)

  datatype ReturnOrder = ReturnOrder(order: nat, status: ReturnStatus, items: seq<ReturnLine>)

  datatype Condition = Good | Damaged

  datatype Verdict = Verdict(condition: Option<Condition>, location: Option<Id>)

  datatype Location = Location(sellable: bool, damagedLocation: Option<Id>)

  /** What does not change here: the locations, the items' current costs, and which lines belong to
      counter sales - those are reversed by another route. */
  datatype Shop = Shop(locations: map<Id, Location>, costs: map<Id, int>, counterLines: set<Id>)

  datatype Books = Books(stock: State, lines: map<Id, SoldLine>, orders: seq<OrderStatus>, requests: seq<ReturnOrder>)

  /** The part of the books an inspection writes line by line. */
  datatype Goods = Goods(stock: State, lines: map<Id, SoldLine>)

  // ---------------------------------------------------------------- where goods go

  predicate IsOut(e: Entry, line: Id) { e.cause.line == Some(line) && e.cause.tx == Sale && e.quantity < 0 }

  /** Where the line's first SALE row was booked, if it has one. */
  function FirstOut(ledger: seq<Entry>, line: Id): Option<Id> {
    if ledger == [] then None
    else
      var before := FirstOut(ledger[..|ledger| - 1], line);
      if before.Some? then before
      else if IsOut(ledger[|ledger| - 1], line) then Some(ledger[|ledger| - 1].key.location)
      else None
  }

  function ShippedFrom(g: Goods, line: Id): Option<Id>
    requires line in g.lines
  {
    var out := FirstOut(g.stock.ledger, line);
    if out.Some? then out else g.lines[line].source
  }

  function Destination(shop: Shop, condition: Condition, requested: Option<Id>, origin: Option<Id>): Result<Id> {
    if condition == Damaged then
      if origin.Some? && origin.value in shop.locations && shop.locations[origin.value].damagedLocation.Some?
      then Ok(shop.locations[origin.value].damagedLocation.value)
      else Err(LocationDamagedRequired)
    else
      var target := if requested.Some? then requested else origin;
      if target.None? then Err(LocationRequired)
      else if target.value !in shop.locations then Err(LocationNotFound)
      else if !shop.locations[target.value].sellable then Err(LocationNotSellable)
      else Ok(target.value)
  }

  // ---------------------------------------------------------------- inspecting

  function ReturnTx(c: Condition): TxType { if c == Good then ReturnGood else ReturnDamaged }

  function ReturnOf(shop: Shop, id: nat, rl: ReturnLine, item: Id, c: Condition, to_: Id, now: int): Return {
    Return(item, to_, rl.quantity, ByLine(rl.line), LedgerRef(ReturnTx(c), RefType.OrderReturn, id, None),
           Some(Opening), if item in shop.costs then shop.costs[item] else 0, now)
  }

  /** The line once some of it came back. */
  function Bumped(l: SoldLine, quantity: int): SoldLine {
    var returned := l.returnedQuantity + quantity;
    l.(returnedQuantity := returned, status := if returned == l.quantity && l.status == Shipped then Returned else l.status)
  }

  function InspectLine(shop: Shop, g: Goods, id: nat, rl: ReturnLine, v: Verdict, now: int): (r: Result<Goods>)
    requires Consistent(g.stock)
    ensures r.Ok? ==> Consistent(r.value.stock)
  {
    if rl.line !in g.lines then Err(OrderItemNotFound)
    else if v.condition.None? then Err(OrderReturnConditionRequired)
    else
      var l := g.lines[rl.line];
      match Destination(shop, v.condition.value, v.location, ShippedFrom(g, rl.line))
      case Err(e) => Err(e)
      case Ok(to_) =>
        var ret := ReturnOf(shop, id, rl, l.item, v.condition.value, to_, now);
        match ReturnDrawn(g.stock, ret)
        case Err(e) => Err(e)
        case Ok(stock) =>
          ReturnKeeps(g.stock, ret);
          if l.returnedQuantity > l.quantity - rl.quantity then Err(OrderReturnQtyExceeds)
          else Ok(Goods(stock, g.lines[rl.line := Bumped(l, rl.quantity)]))
  }

  function InspectLines(shop: Shop, g: Goods, id: nat, items: seq<ReturnLine>, verdicts: map<Id, Verdict>, now: int): (r: Result<Goods>)
    requires Consistent(g.stock)
    ensures r.Ok? ==> Consistent(r.value.stock)
  {
    if items == [] then Ok(g)
    else
      var last := items[|items| - 1];
      match InspectLines(shop, g, id, items[..|items| - 1], verdicts, now)
      case Err(e) => Err(e)
      case Ok(before) =>
        if last.line !in verdicts then Err(OrderReturnConditionRequired)
        else InspectLine(shop, before, id, last, verdicts[last.line], now)
  }

  predicate LeftTheShop(l: SoldLine, order: nat) {
    l.order == order && l.stocked && (l.status == Shipped || l.status == Returned)
  }

  /** Every stocked line of the order that shipped has come back in full, and there is one. */
  predicate AllBack(lines: map<Id, SoldLine>, order: nat) {
    && (exists id :: id in lines && LeftTheShop(lines[id], order))
    && (forall id :: id in lines && LeftTheShop(lines[id], order) ==> lines[id].status == Returned)
  }

  function Settle(lines: map<Id, SoldLine>, orders: seq<OrderStatus>, order: nat): seq<OrderStatus> {
    if order < |orders| && AllBack(lines, order) && Journey.CanTransition(orders[order], Journey.Returned)
    then orders[order := Journey.Returned]
    else orders
  }

  predicate EveryLineJudged(items: seq<ReturnLine>, verdicts: map<Id, Verdict>) {
    && (forall rl :: rl in items ==> rl.line in verdicts && verdicts[rl.line].condition.Some?)
    && (forall line :: line in verdicts ==> exists rl :: rl in items && rl.line == line)
  }

  function Inspect(shop: Shop, b: Books, id: nat, verdicts: map<Id, Verdict>, now: int): Result<Books>
    requires Consistent(b.stock) && id < |b.requests|
  {
    var ret := b.requests[id];
    if ret.status != Inspecting then Err(OrderReturnStatusInvalid)
    else if !EveryLineJudged(ret.items, verdicts) then Err(OrderReturnConditionRequired)
    else
      match InspectLines(shop, Goods(b.stock, b.lines), id, ret.items, verdicts, now)
      case Err(e) => Err(e)
      case Ok(g) =>
        Ok(Books(g.stock, g.lines, Settle(g.lines, b.orders, ret.order), b.requests[id := ret.(status := Completed)]))
  }

  // ---------------------------------------------------------------- requesting

  predicate Returnable(s: OrderStatus) { s == Journey.Shipping || s == Journey.Received || s == Journey.Completed }

  predicate OpenReturn(r: ReturnOrder) { r.status == Requested || r.status == Inspecting }

  function QuantityOf(line: Id): ReturnLine -> int { (rl: ReturnLine) => if rl.line == line then rl.quantity else 0 }

  function HeldOpen(line: Id): ReturnOrder -> int {
    (r: ReturnOrder) => if OpenReturn(r) then SumBy(r.items, QuantityOf(line)) else 0
  }

  predicate LinesOnce(items: seq<ReturnLine>) { forall i, j :: 0 <= i < j < |items| ==> items[i].line != items[j].line }

  /** Only what shipped and is not yet back, nor promised to another open return, can be asked back. */
  function LineRefused(b: Books, order: nat, rl: ReturnLine): Option<ErrorCode> {
    if rl.line !in b.lines || !LeftTheShop(b.lines[rl.line], order) || b.lines[rl.line].status != Shipped
    then Some(OrderReturnOrderNotReturnable)
    else if rl.quantity > b.lines[rl.line].quantity - b.lines[rl.line].returnedQuantity - SumBy(b.requests, HeldOpen(rl.line))
    then Some(OrderReturnQtyExceeds)
    else None
  }

  /** Why the first line that cannot come back cannot. */
  function LinesRefused(b: Books, order: nat, items: seq<ReturnLine>): (r: Option<ErrorCode>)
    ensures r == None <==> forall rl :: rl in items ==> LineRefused(b, order, rl) == None
  {
    if items == [] then None
    else
      var before := LinesRefused(b, order, items[..|items| - 1]);
      assert forall rl :: rl in items <==> rl in items[..|items| - 1] || rl == items[|items| - 1];
      if before.Some? then before else LineRefused(b, order, items[|items| - 1])
  }

  /** The return that is written was decided on the books as they were read. */
  function Request(b: Books, read: Books, order: nat, items: seq<ReturnLine>): Result<Books> {
    if order >= |read.orders| || !Returnable(read.orders[order]) then Err(OrderReturnOrderNotReturnable)
    else if !LinesOnce(items) then Err(OrderReturnEmpty)
    else if LinesRefused(read, order, items).Some? then Err(LinesRefused(read, order, items).value)
    else Ok(b.(requests := b.requests + [ReturnOrder(order, Requested, items)]))
  }

  function Receive(b: Books, id: nat): Result<Books>
    requires id < |b.requests|
  {
    if b.requests[id].status != Requested then Err(OrderReturnStatusInvalid)
    else Ok(b.(requests := b.requests[id := b.requests[id].(status := Inspecting)]))
  }

  function Cancel(b: Books, id: nat): Result<Books>
    requires id < |b.requests|
  {
    if !OpenReturn(b.requests[id]) then Err(OrderReturnStatusInvalid)
    else Ok(b.(requests := b.requests[id := b.requests[id].(status := Cancelled)]))
  }

  // ---------------------------------------------------------------- what a stock return writes

  /** The ledger grew by rows of one cause at one key, of a given total. */
  ghost predicate Wrote(before: seq<Entry>, after: seq<Entry>, k: Key, cause: LedgerRef, total: int) {
    && |before| <= |after| && after[..|before|] == before
    && (forall j :: |before| <= j < |after| ==> after[j].key == k && after[j].cause == cause)
    && SumBy(after[|before|..], Amount()) == total
  }

  function Amount(): Entry -> int { (e: Entry) => e.quantity }

  lemma WroteOneMore(before: seq<Entry>, mid: seq<Entry>, e: Entry, k: Key, cause: LedgerRef, total: int)
    requires Wrote(before, mid, k, cause, total) && e.key == k && e.cause == cause
    ensures Wrote(before, mid + [e], k, cause, total + e.quantity)
  {
    assert (mid + [e])[..|before|] == mid[..|before|];
    assert (mid + [e])[|before|..] == mid[|before|..] + [e];
    SumByAppend(mid[|before|..], e, Amount());
  }

  lemma WroteNothing(ledger: seq<Entry>, k: Key, cause: LedgerRef)
    ensures Wrote(ledger, ledger, k, cause, 0)
  {
    assert ledger[..|ledger|] == ledger && ledger[|ledger|..] == [];
  }

  lemma ReturnSliceWrites(t: State, slice: LotSlice, k: Key, cause: LedgerRef)
    requires slice.lotId < |t.lots| && t.lots[slice.lotId].key.item == k.item
    ensures var u := ReturnSlice(t, slice, k.location, cause);
      && |u.ledger| == |t.ledger| + 1 && u.ledger == t.ledger + [u.ledger[|t.ledger|]]
      && u.ledger[|t.ledger|].key == k && u.ledger[|t.ledger|].cause == cause && u.ledger[|t.ledger|].quantity == slice.quantity
      && |u.lots| >= |t.lots| && forall i :: 0 <= i < |t.lots| ==> u.lots[i].key == t.lots[i].key
  {}

  lemma {:induction false} ReturnSlicesWrite(s: State, slices: seq<LotSlice>, k: Key, cause: LedgerRef)
    requires Within(slices, |s.lots|) && forall x :: x in slices ==> s.lots[x.lotId].key.item == k.item
    ensures Wrote(s.ledger, ReturnSlices(s, slices, k.location, cause).ledger, k, cause, SumBy(slices, Units()))
    ensures forall i :: 0 <= i < |s.lots| ==> ReturnSlices(s, slices, k.location, cause).lots[i].key == s.lots[i].key
  {
    hide Wrote;
    if slices == [] {
      WroteNothing(s.ledger, k, cause);
    } else {
      var front, last := slices[..|slices| - 1], slices[|slices| - 1];
      assert last in slices;
      ReturnSlicesWrite(s, front, k, cause);
      var mid := ReturnSlices(s, front, k.location, cause);
      var t := ReturnSlice(mid, last, k.location, cause);
      assert ReturnSlices(s, slices, k.location, cause) == t;
      hide ReturnSlices, ReturnSlice;
      ReturnSliceWrites(mid, last, k, cause);
      WroteOneMore(s.ledger, mid.ledger, t.ledger[|mid.ledger|], k, cause, SumBy(front, Units()));
    }
  }

  /** An accepted stock return books exactly its quantity, at the place it goes to, under its own cause. */
  lemma ReturnWrites(s: State, r: Return)
    requires Consistent(s) && ReturnDrawn(s, r).Ok?
    ensures r.quantity > 0
    ensures Wrote(s.ledger, ReturnDrawn(s, r).value.ledger, Key(r.location, r.item), ReturnCause(r), r.quantity)
  {
    Placed(s);
    hide Wrote, Consistent, DrawnLots, OriginLots, ReturnSlices, AppendLot, ReturnsTo;
    if OriginLots(s.ledger, r.item, r.drawnBy) == [] && r.ifNeverDrawn.Some? {
      OpeningWrites(s, r);
    } else {
      ReturnPlanWithin(s, r);
      ReturnSlicesWrite(s, ReturnsTo(s, r).value, Key(r.location, r.item), ReturnCause(r));
      PlanIsExact(s, r);
    }
  }

  lemma OpeningWrites(s: State, r: Return)
    requires r.ifNeverDrawn.Some?
    ensures Wrote(s.ledger, AppendLot(s, NewLot(OpeningReceipt(r)), ReturnCause(r)).ledger, Key(r.location, r.item), ReturnCause(r), r.quantity)
  {
    var t := AppendLot(s, NewLot(OpeningReceipt(r)), ReturnCause(r));
    WroteNothing(s.ledger, Key(r.location, r.item), ReturnCause(r));
    WroteOneMore(s.ledger, s.ledger, t.ledger[|s.ledger|], Key(r.location, r.item), ReturnCause(r), 0);
  }

  lemma PlanIsExact(s: State, r: Return)
    requires ReturnsTo(s, r).Some? && r.quantity > 0
    ensures SumBy(ReturnsTo(s, r).value, Units()) == r.quantity
  {
    GreedyTotals(ReturnOffers(DrawnLots(s, r.item, r.drawnBy)), r.quantity);
  }

  lemma Placed(s: State)
    requires Consistent(s)
    ensures EntriesPlaced(s)
  {}

  // ---------------------------------------------------------------- the invariant

  predicate IsReturn(tx: TxType) { tx == ReturnGood || tx == ReturnDamaged }

  /** Units the RETURN rows of a line booked back. */
  function BackFor(line: Id): Entry -> int {
    (e: Entry) => if IsReturn(e.cause.tx) && e.cause.line == Some(line) then e.quantity else 0
  }

  predicate LineRight(l: SoldLine) {
    && 0 <= l.returnedQuantity <= l.quantity && l.quantity > 0
    && (l.status == Shipped ==> l.stocked && l.returnedQuantity < l.quantity)
    && (l.status == Returned ==> l.stocked && l.returnedQuantity == l.quantity)
    && (l.status == Pending || l.status == Withdrawn ==> l.returnedQuantity == 0)
  }

  predicate LinesRight(lines: map<Id, SoldLine>) { forall id :: id in lines ==> LineRight(lines[id]) }

  ghost predicate RowsRight(ledger: seq<Entry>, lines: map<Id, SoldLine>) {
    forall id :: id in lines ==> SumBy(ledger, BackFor(id)) == lines[id].returnedQuantity
  }

  /** GOOD units are on sellable shelves, DAMAGED ones in some location's damaged-goods warehouse. */
  predicate PlaceRight(shop: Shop, e: Entry) {
    && (e.cause.tx == ReturnGood ==> e.key.location in shop.locations && shop.locations[e.key.location].sellable)
    && (e.cause.tx == ReturnDamaged ==>
          exists at :: at in shop.locations && shop.locations[at].damagedLocation == Some(e.key.location))
  }

  ghost predicate PlacesRight(shop: Shop, ledger: seq<Entry>, lines: map<Id, SoldLine>) {
    forall j :: 0 <= j < |ledger| && ledger[j].cause.line.Some? && ledger[j].cause.line.value in lines ==>
      PlaceRight(shop, ledger[j])
  }

  /** An order that shipped is RETURNED exactly when everything of it that shipped is back. */
  predicate OrderRight(lines: map<Id, SoldLine>, orders: seq<OrderStatus>, order: nat)
    requires order < |orders|
  {
    && (Returnable(orders[order]) || orders[order] == Journey.Returned)
    && (exists id :: id in lines && LeftTheShop(lines[id], order))
    && (orders[order] == Journey.Returned <==> AllBack(lines, order))
  }

  predicate ReturnRight(lines: map<Id, SoldLine>, orders: seq<OrderStatus>, r: ReturnOrder) {
    r.order < |orders| && forall rl :: rl in r.items ==> rl.line in lines && LeftTheShop(lines[rl.line], r.order)
  }

  ghost predicate GoodsRight(shop: Shop, g: Goods) {
    && Consistent(g.stock)
    && LinesRight(g.lines)
    && RowsRight(g.stock.ledger, g.lines) && PlacesRight(shop, g.stock.ledger, g.lines)
  }

  ghost predicate BooksRight(shop: Shop, b: Books) {
    && GoodsRight(shop, Goods(b.stock, b.lines))
    && (forall id :: id in b.lines ==> b.lines[id].order < |b.orders| && id !in shop.counterLines)
    && (forall o :: 0 <= o < |b.orders| ==> OrderRight(b.lines, b.orders, o))
    && (forall r :: r in b.requests ==> ReturnRight(b.lines, b.orders, r))
  }

  /** Rows a stock write added change what came back for a line by what they name. */
  lemma WroteBack(before: seq<Entry>, after: seq<Entry>, k: Key, cause: LedgerRef, total: int, line: Id)
    requires Wrote(before, after, k, cause, total)
    ensures SumBy(after, BackFor(line))
         == SumBy(before, BackFor(line)) + if IsReturn(cause.tx) && cause.line == Some(line) then total else 0
  {
    var added := after[|before|..];
    assert after == before + added;
    SumByConcat(before, added, BackFor(line));
    assert forall e :: e in added ==> e.cause == cause;
    if IsReturn(cause.tx) && cause.line == Some(line) {
      SumBySame(added, BackFor(line), Amount());
    } else {
      SumByZero(added, BackFor(line));
    }
  }

  lemma WrotePlaces(shop: Shop, before: seq<Entry>, after: seq<Entry>, k: Key, cause: LedgerRef, total: int, lines: map<Id, SoldLine>)
    requires Wrote(before, after, k, cause, total) && PlacesRight(shop, before, lines)
    requires forall e: Entry :: e.key == k && e.cause == cause ==> PlaceRight(shop, e)
    ensures PlacesRight(shop, after, lines)
  {
    forall j | 0 <= j < |after| && after[j].cause.line.Some? && after[j].cause.line.value in lines
      ensures PlaceRight(shop, after[j])
    {
      if j < |before| { assert after[j] == after[..|before|][j]; }
    }
  }

  /** The lines of one order move on, in place. */
  ghost predicate LinesMoveOn(a: map<Id, SoldLine>, b: map<Id, SoldLine>, order: nat) {
    && a.Keys == b.Keys
    && forall id :: id in a ==>
         && b[id] == a[id].(status := b[id].status, returnedQuantity := b[id].returnedQuantity)
         && (b[id].status == a[id].status || (a[id].status == Shipped && b[id].status == Returned))
         && (a[id].order != order ==> b[id] == a[id])
  }

  /** The stock return an inspected line makes. */
  function ReturnFor(shop: Shop, g: Goods, id: nat, rl: ReturnLine, v: Verdict, now: int): Return
    requires rl.line in g.lines && v.condition.Some?
    requires Destination(shop, v.condition.value, v.location, ShippedFrom(g, rl.line)).Ok?
  {
    ReturnOf(shop, id, rl, g.lines[rl.line].item, v.condition.value,
             Destination(shop, v.condition.value, v.location, ShippedFrom(g, rl.line)).value, now)
  }

  /** What an accepted line did. */
  lemma LineInspected(shop: Shop, g: Goods, id: nat, rl: ReturnLine, v: Verdict, now: int)
    requires Consistent(g.stock) && InspectLine(shop, g, id, rl, v, now).Ok?
    ensures rl.line in g.lines && v.condition.Some? && EntriesPlaced(g.stock)
    ensures Destination(shop, v.condition.value, v.location, ShippedFrom(g, rl.line)).Ok?
    ensures ReturnDrawn(g.stock, ReturnFor(shop, g, id, rl, v, now)).Ok?
    ensures g.lines[rl.line].returnedQuantity + rl.quantity <= g.lines[rl.line].quantity
    ensures InspectLine(shop, g, id, rl, v, now).value
         == Goods(ReturnDrawn(g.stock, ReturnFor(shop, g, id, rl, v, now)).value, g.lines[rl.line := Bumped(g.lines[rl.line], rl.quantity)])
  {
    Placed(g.stock);
    hide Consistent, ReturnDrawn;
  }

  lemma RowsBumped(before: seq<Entry>, after: seq<Entry>, k: Key, cause: LedgerRef, quantity: int, lines: map<Id, SoldLine>, line: Id)
    requires Wrote(before, after, k, cause, quantity) && RowsRight(before, lines) && line in lines
    requires IsReturn(cause.tx) && cause.line == Some(line)
    ensures RowsRight(after, lines[line := Bumped(lines[line], quantity)])
  {
    hide Wrote;
    var bumped := lines[line := Bumped(lines[line], quantity)];
    forall x | x in bumped ensures SumBy(after, BackFor(x)) == bumped[x].returnedQuantity {
      WroteBack(before, after, k, cause, quantity, x);
    }
  }

  lemma LineBumped(lines: map<Id, SoldLine>, line: Id, quantity: int)
    requires line in lines && LinesRight(lines) && (lines[line].status == Shipped || lines[line].status == Returned)
    requires quantity > 0 && lines[line].returnedQuantity + quantity <= lines[line].quantity
    ensures LinesRight(lines[line := Bumped(lines[line], quantity)])
    ensures LinesMoveOn(lines, lines[line := Bumped(lines[line], quantity)], lines[line].order)
  {
    assert LineRight(lines[line]);
    assert lines[line := Bumped(lines[line], quantity)].Keys == lines.Keys;
  }

  /** Where an inspected line's rows are booked is where its condition says. */
  lemma PlaceOfReturn(shop: Shop, g: Goods, id: nat, rl: ReturnLine, v: Verdict, now: int, e: Entry)
    requires rl.line in g.lines && v.condition.Some?
    requires Destination(shop, v.condition.value, v.location, ShippedFrom(g, rl.line)).Ok?
    requires e.key == Key(ReturnFor(shop, g, id, rl, v, now).location, ReturnFor(shop, g, id, rl, v, now).item)
    requires e.cause == ReturnCause(ReturnFor(shop, g, id, rl, v, now))
    ensures PlaceRight(shop, e)
  {
    hide FirstOut;
    var origin := ShippedFrom(g, rl.line);
    if v.condition.value == Damaged { assert shop.locations[origin.value].damagedLocation == Some(e.key.location); }
  }

  lemma InspectLineKeeps(shop: Shop, g: Goods, id: nat, rl: ReturnLine, v: Verdict, now: int)
    requires GoodsRight(shop, g) && InspectLine(shop, g, id, rl, v, now).Ok?
    requires rl.line in g.lines && (g.lines[rl.line].status == Shipped || g.lines[rl.line].status == Returned)
    ensures GoodsRight(shop, InspectLine(shop, g, id, rl, v, now).value)
    ensures LinesMoveOn(g.lines, InspectLine(shop, g, id, rl, v, now).value.lines, g.lines[rl.line].order)
  {
    hide Consistent, ReturnDrawn, RowsRight, InspectLine, BackFor, Wrote, LinesMoveOn, LinesRight, PlaceRight, Destination, FirstOut;
    LineInspected(shop, g, id, rl, v, now);
    var ret := ReturnFor(shop, g, id, rl, v, now);
    var k, after := Key(ret.location, ret.item), ReturnDrawn(g.stock, ret).value.ledger;
    ReturnWrites(g.stock, ret);
    RowsBumped(g.stock.ledger, after, k, ReturnCause(ret), rl.quantity, g.lines, rl.line);
    LineBumped(g.lines, rl.line, rl.quantity);
    forall e: Entry | e.key == k && e.cause == ReturnCause(ret) ensures PlaceRight(shop, e) {
      PlaceOfReturn(shop, g, id, rl, v, now, e);
    }
    WrotePlaces(shop, g.stock.ledger, after, k, ReturnCause(ret), rl.quantity, g.lines);
    SamePlaces(shop, after, g.lines, g.lines[rl.line := Bumped(g.lines[rl.line], rl.quantity)]);
  }

  lemma SamePlaces(shop: Shop, ledger: seq<Entry>, a: map<Id, SoldLine>, b: map<Id, SoldLine>)
    requires PlacesRight(shop, ledger, a) && (forall id :: id in b ==> id in a)
    ensures PlacesRight(shop, ledger, b)
  {}

  lemma {:induction false} InspectLinesKeep(shop: Shop, g: Goods, id: nat, items: seq<ReturnLine>, verdicts: map<Id, Verdict>, now: int, order: nat)
    requires GoodsRight(shop, g) && InspectLines(shop, g, id, items, verdicts, now).Ok?
    requires forall rl :: rl in items ==> rl.line in g.lines && LeftTheShop(g.lines[rl.line], order)
    ensures GoodsRight(shop, InspectLines(shop, g, id, items, verdicts, now).value)
    ensures LinesMoveOn(g.lines, InspectLines(shop, g, id, items, verdicts, now).value.lines, order)
  {
    hide GoodsRight, Consistent, InspectLine;
    if items != [] {
      var front, last := items[..|items| - 1], items[|items| - 1];
      assert last in items;
      assert Consistent(g.stock) by { GoodsAreConsistent(shop, g); }
      InspectLinesKeep(shop, g, id, front, verdicts, now, order);
      var mid := InspectLines(shop, g, id, front, verdicts, now).value;
      InspectLineKeeps(shop, mid, id, last, verdicts[last.line], now);
    }
  }

  lemma GoodsAreConsistent(shop: Shop, g: Goods)
    requires GoodsRight(shop, g)
    ensures Consistent(g.stock)
  {}

  /** After an inspection's lines, settling makes the order right again and leaves the others so. */
  lemma SettleRight(a: map<Id, SoldLine>, b: map<Id, SoldLine>, orders: seq<OrderStatus>, order: nat, o: nat)
    requires LinesMoveOn(a, b, order) && order < |orders| && o < |orders| && OrderRight(a, orders, o)
    ensures OrderRight(b, Settle(b, orders, order), o)
  {
    forall id | id in a ensures LeftTheShop(b[id], o) <==> LeftTheShop(a[id], o) {}
    if AllBack(a, o) {
      var id :| id in a && LeftTheShop(a[id], o);
      assert id in b && LeftTheShop(b[id], o);
      forall x | x in b && LeftTheShop(b[x], o) ensures b[x].status == Returned { assert LeftTheShop(a[x], o); }
    }
    if o != order && AllBack(b, o) {
      var id :| id in b && LeftTheShop(b[id], o);
      assert id in a && LeftTheShop(a[id], o);
      forall x | x in a && LeftTheShop(a[x], o) ensures a[x].status == Returned { assert LeftTheShop(b[x], o); }
    }
  }

  lemma InspectKeeps(shop: Shop, b: Books, id: nat, verdicts: map<Id, Verdict>, now: int)
    requires BooksRight(shop, b) && id < |b.requests| && Inspect(shop, b, id, verdicts, now).Ok?
    ensures BooksRight(shop, Inspect(shop, b, id, verdicts, now).value)
  {
    hide GoodsRight, Consistent, InspectLines, OrderRight;
    var ret := b.requests[id];
    assert ret in b.requests;
    var g := Goods(b.stock, b.lines);
    assert Consistent(b.stock) by { GoodsAreConsistent(shop, g); }
    InspectLinesKeep(shop, g, id, ret.items, verdicts, now, ret.order);
    var t := InspectLines(shop, g, id, ret.items, verdicts, now).value;
    var after := Inspect(shop, b, id, verdicts, now).value;
    forall o | 0 <= o < |after.orders| ensures OrderRight(after.lines, after.orders, o) {
      SettleRight(b.lines, t.lines, b.orders, ret.order, o);
    }
    forall r | r in after.requests ensures ReturnRight(after.lines, after.orders, r) {
      var i :| 0 <= i < |after.requests| && after.requests[i] == r;
      assert b.requests[i] in b.requests;
      assert ReturnRight(b.lines, b.orders, b.requests[i]);
    }
  }
}
