/** What the steps of a return come to, told from the ledger and the return's own lines: when a request
    is taken, where an inspected line goes, when its inspection is accepted and what it then leaves. */
module ReturnLaws {
  import opened Common
  import opened StockLedger
  import opened StockOperations
  import opened StockInvariants
  import opened OrderReturns
  import Journey = OrderJourney
  import Runs = ReturnRuns

  // ---------------------------------------------------------------- where a line left from

  /** Row `j` is the earliest that sold units of the line. */
  predicate EarliestSale(ledger: seq<Entry>, line: Id, j: nat) {
    && j < |ledger| && ledger[j].cause.line == Some(line) && ledger[j].cause.tx == Sale && ledger[j].quantity < 0
    && forall i :: 0 <= i < j && ledger[i].cause.line == Some(line) && ledger[i].cause.tx == Sale ==> ledger[i].quantity >= 0
  }

  predicate NeverSold(ledger: seq<Entry>, line: Id) {
    forall i :: 0 <= i < |ledger| && ledger[i].cause.line == Some(line) && ledger[i].cause.tx == Sale ==> ledger[i].quantity >= 0
  }

  lemma {:induction false} FirstOutMeans(ledger: seq<Entry>, line: Id)
    ensures FirstOut(ledger, line).None? ==> NeverSold(ledger, line)
    ensures FirstOut(ledger, line).Some? ==>
      exists j: nat :: EarliestSale(ledger, line, j) && FirstOut(ledger, line) == Some(ledger[j].key.location)
  {
    if ledger != [] {
      var front, n := ledger[..|ledger| - 1], |ledger| - 1;
      FirstOutMeans(front, line);
      if FirstOut(front, line).Some? {
        var j: nat :| EarliestSale(front, line, j) && FirstOut(front, line) == Some(front[j].key.location);
        assert EarliestSale(ledger, line, j);
      } else {
        assert NeverSold(front, line);
        assert forall i :: 0 <= i < n ==> ledger[i] == front[i];
        if IsOut(ledger[n], line) { assert EarliestSale(ledger, line, n); }
      }
    }
  }

  /** The line left from where its earliest SALE row stands, or, never sold, from where it was planned to. */
  ghost predicate LeftFrom(g: Goods, line: Id, from: Option<Id>)
    requires line in g.lines
  {
    || (exists j: nat :: EarliestSale(g.stock.ledger, line, j) && from == Some(g.stock.ledger[j].key.location))
    || (NeverSold(g.stock.ledger, line) && from == g.lines[line].source)
  }

  /** GOOD goods go to the sellable place asked for, or back where they left from; DAMAGED ones to the
      damaged-goods warehouse of where they left from. */
  predicate GoesTo(shop: Shop, v: Verdict, from: Option<Id>, at: Id) {
    match v.condition
    case None => false
    case Some(Good) => (if v.location.Some? then v.location else from) == Some(at) && at in shop.locations && shop.locations[at].sellable
    case Some(Damaged) => from.Some? && from.value in shop.locations && shop.locations[from.value].damagedLocation == Some(at)
  }

  lemma DestinationMeans(shop: Shop, v: Verdict, from: Option<Id>, at: Id)
    requires v.condition.Some?
    ensures GoesTo(shop, v, from, at) <==> Destination(shop, v.condition.value, v.location, from) == Ok(at)
  {}

  lemma OneEarliest(ledger: seq<Entry>, line: Id)
    ensures forall i: nat, j: nat :: EarliestSale(ledger, line, i) && EarliestSale(ledger, line, j) ==> i == j
    ensures NeverSold(ledger, line) ==> forall i: nat :: !EarliestSale(ledger, line, i)
  {}

  lemma ShippedFromMeans(g: Goods, line: Id)
    requires line in g.lines
    ensures forall from: Option<Id> :: LeftFrom(g, line, from) <==> from == ShippedFrom(g, line)
  {
    FirstOutMeans(g.stock.ledger, line);
    OneEarliest(g.stock.ledger, line);
    hide FirstOut;
  }

  // ---------------------------------------------------------------- inspecting a line

  /** The stock return of an inspected line. */
  function Back(shop: Shop, id: nat, rl: ReturnLine, item: Id, damaged: bool, at: Id, now: int): Return {
    Return(item, at, rl.quantity, ByLine(rl.line),
           LedgerRef(if damaged then ReturnDamaged else ReturnGood, RefType.OrderReturn, id, None),
           Some(Opening), if item in shop.costs then shop.costs[item] else 0, now)
  }

  /** Main result on inspecting. A line is accepted exactly when it is known and judged, there is a place
      for it, the stock takes it back there, and no more comes back than was sold. */
  lemma InspectLineWhen(shop: Shop, g: Goods, id: nat, rl: ReturnLine, v: Verdict, now: int)
    requires Consistent(g.stock) && EntriesPlaced(g.stock)
    ensures InspectLine(shop, g, id, rl, v, now).Ok?
        <==> rl.line in g.lines && g.lines[rl.line].returnedQuantity + rl.quantity <= g.lines[rl.line].quantity
             && exists from: Option<Id>, at: Id :: LeftFrom(g, rl.line, from) && GoesTo(shop, v, from, at)
                  && ReturnDrawn(g.stock, Back(shop, id, rl, g.lines[rl.line].item, v.condition == Some(Damaged), at, now)).Ok?
  {
    hide Consistent, EntriesPlaced, ReturnDrawn, LeftFrom, Destination;
    if rl.line in g.lines && v.condition.Some? {
      var from := ShippedFrom(g, rl.line);
      ShippedFromMeans(g, rl.line);
      forall at: Id ensures GoesTo(shop, v, from, at) <==> Destination(shop, v.condition.value, v.location, from) == Ok(at) {
        DestinationMeans(shop, v, from, at);
      }
      if Destination(shop, v.condition.value, v.location, from).Ok? {
        var at := Destination(shop, v.condition.value, v.location, from).value;
        assert GoesTo(shop, v, from, at) && LeftFrom(g, rl.line, from);
      }
    }
  }

  /** What inspecting a line leaves of it. */
  predicate CameBack(before: SoldLine, after: SoldLine, quantity: int) {
    && after == before.(returnedQuantity := after.returnedQuantity, status := after.status)
    && after.returnedQuantity == before.returnedQuantity + quantity
    && (before.status == Shipped && after.returnedQuantity == before.quantity ==> after.status == Returned)
    && (before.status != Shipped || after.returnedQuantity != before.quantity ==> after.status == before.status)
  }

  /** The rows written from `n` on are all of the item at one place, under one cause, and come to the quantity. */
  ghost predicate BookedAt(ledger: seq<Entry>, n: nat, at: Id, item: Id, cause: LedgerRef, quantity: int) {
    && n <= |ledger| && SumBy(ledger[n..], Amount()) == quantity
    && forall j :: n <= j < |ledger| ==> ledger[j].key == Key(at, item) && ledger[j].cause == cause
  }

  /** An accepted line is booked, whole, where it should go, and only its own counter and status move. */
  lemma InspectedGoods(shop: Shop, g: Goods, id: nat, rl: ReturnLine, v: Verdict, now: int) returns (from: Option<Id>, at: Id)
    requires Consistent(g.stock) && InspectLine(shop, g, id, rl, v, now).Ok?
    ensures rl.line in g.lines && LeftFrom(g, rl.line, from) && GoesTo(shop, v, from, at)
    ensures var after := InspectLine(shop, g, id, rl, v, now).value;
      && rl.quantity > 0 && g.stock.ledger <= after.stock.ledger
      && BookedAt(after.stock.ledger, |g.stock.ledger|, at, g.lines[rl.line].item,
                  LedgerRef(if v.condition == Some(Good) then ReturnGood else ReturnDamaged, RefType.OrderReturn, id, Some(rl.line)),
                  rl.quantity)
      && rl.line in after.lines && CameBack(g.lines[rl.line], after.lines[rl.line], rl.quantity)
      && after.lines == g.lines[rl.line := after.lines[rl.line]]
  {
    hide Consistent, ReturnDrawn, InspectLine, LeftFrom, FirstOut, Destination;
    LineInspected(shop, g, id, rl, v, now);
    from := ShippedFrom(g, rl.line);
    at := Destination(shop, v.condition.value, v.location, from).value;
    ShippedFromMeans(g, rl.line);
    DestinationMeans(shop, v, from, at);
    ReturnWrites(g.stock, ReturnFor(shop, g, id, rl, v, now));
  }

  // ---------------------------------------------------------------- inspecting a return

  /** The goods before, between and after the lines, each inspected on what the one before it left. */
  ghost predicate InTurn(shop: Shop, steps: seq<Goods>, id: nat, items: seq<ReturnLine>, verdicts: map<Id, Verdict>, now: int) {
    && |steps| == |items| + 1
    && (forall i :: 0 <= i <= |items| ==> Consistent(steps[i].stock))
    && forall i :: 0 <= i < |items| ==>
         items[i].line in verdicts && InspectLine(shop, steps[i], id, items[i], verdicts[items[i].line], now) == Ok(steps[i + 1])
  }

  lemma {:induction false} StepsTaken(shop: Shop, g: Goods, id: nat, items: seq<ReturnLine>, verdicts: map<Id, Verdict>, now: int)
      returns (steps: seq<Goods>)
    requires Consistent(g.stock) && InspectLines(shop, g, id, items, verdicts, now).Ok?
    ensures InTurn(shop, steps, id, items, verdicts, now) && steps[0] == g
    ensures steps[|items|] == InspectLines(shop, g, id, items, verdicts, now).value
  {
    hide Consistent, InspectLine;
    if items == [] {
      steps := [g];
    } else {
      var before := StepsTaken(shop, g, id, items[..|items| - 1], verdicts, now);
      steps := before + [InspectLines(shop, g, id, items, verdicts, now).value];
    }
  }

  lemma {:induction false} StepsGive(shop: Shop, steps: seq<Goods>, id: nat, items: seq<ReturnLine>, verdicts: map<Id, Verdict>, now: int)
    requires InTurn(shop, steps, id, items, verdicts, now)
    ensures InspectLines(shop, steps[0], id, items, verdicts, now) == Ok(steps[|items|])
  {
    hide Consistent, InspectLine;
    if items != [] { StepsGive(shop, steps[..|items|], id, items[..|items| - 1], verdicts, now); }
  }

  /** Every line of the return has its verdict, with a condition, and no other line has one. */
  ghost predicate AllJudged(items: seq<ReturnLine>, verdicts: map<Id, Verdict>) {
    forall line :: ((exists rl :: rl in items && rl.line == line) ==> line in verdicts && verdicts[line].condition.Some?)
                   && (line in verdicts ==> exists rl :: rl in items && rl.line == line)
  }

  /** A return is inspected exactly when it was received and not yet inspected, its lines and no others are judged,
      and each is accepted on what the one before it left; it is then COMPLETED, and of the orders none but its own
      moves, and only to RETURNED. */
  lemma InspectWhen(shop: Shop, b: Books, id: nat, verdicts: map<Id, Verdict>, now: int)
    requires Consistent(b.stock) && id < |b.requests|
    ensures var r := b.requests[id];
      Inspect(shop, b, id, verdicts, now).Ok? <==>
        && r.status == Inspecting && AllJudged(r.items, verdicts)
        && exists steps :: InTurn(shop, steps, id, r.items, verdicts, now) && steps[0] == Goods(b.stock, b.lines)
    ensures Inspect(shop, b, id, verdicts, now).Ok? ==>
      var r, t := b.requests[id], Inspect(shop, b, id, verdicts, now).value;
      && (exists steps :: InTurn(shop, steps, id, r.items, verdicts, now) && steps[0] == Goods(b.stock, b.lines)
                          && steps[|r.items|] == Goods(t.stock, t.lines))
      && t.requests == b.requests[id := ReturnOrder(r.order, Completed, r.items)]
      && |t.orders| == |b.orders|
      && forall o :: 0 <= o < |b.orders| ==> t.orders[o] == b.orders[o] || (o == r.order && t.orders[o] == Journey.Returned)
  {
    hide Consistent, InspectLines, InTurn, AllBack;
    var r, g := b.requests[id], Goods(b.stock, b.lines);
    JudgedMeans(r.items, verdicts);
    hide AllJudged, EveryLineJudged;
    if InspectLines(shop, g, id, r.items, verdicts, now).Ok? {
      var steps := StepsTaken(shop, g, id, r.items, verdicts, now);
      StepsAre(shop, steps, id, r.items, verdicts, now);
    }
    forall steps: seq<Goods> | InTurn(shop, steps, id, r.items, verdicts, now)
      ensures |steps| == |r.items| + 1 && Consistent(steps[0].stock)
      ensures InspectLines(shop, steps[0], id, r.items, verdicts, now) == Ok(steps[|r.items|])
    {
      StepsAre(shop, steps, id, r.items, verdicts, now);
      StepsGive(shop, steps, id, r.items, verdicts, now);
    }
  }

  lemma StepsAre(shop: Shop, steps: seq<Goods>, id: nat, items: seq<ReturnLine>, verdicts: map<Id, Verdict>, now: int)
    requires InTurn(shop, steps, id, items, verdicts, now)
    ensures |steps| == |items| + 1 && Consistent(steps[0].stock)
  {}

  lemma JudgedMeans(items: seq<ReturnLine>, verdicts: map<Id, Verdict>)
    ensures EveryLineJudged(items, verdicts) <==> AllJudged(items, verdicts)
  {}

  // ---------------------------------------------------------------- the request itself

  /** Units of a line that returns not yet inspected or withdrawn promise to bring back. */
  function Promised(requests: seq<ReturnOrder>, line: Id): int {
    if requests == [] then 0
    else
      var last := requests[|requests| - 1];
      Promised(requests[..|requests| - 1], line)
      + if last.status == Requested || last.status == Inspecting then SumBy(last.items, QuantityOf(line)) else 0
  }

  lemma {:induction false} PromisedIsHeldOpen(requests: seq<ReturnOrder>, line: Id)
    ensures SumBy(requests, HeldOpen(line)) == Promised(requests, line)
  {
    if requests != [] { PromisedIsHeldOpen(requests[..|requests| - 1], line); }
  }

  /** A line that can come back: it is the order's, in stock, shipped, and enough of it is still out and not
      promised elsewhere. */
  predicate MayComeBack(read: Books, order: nat, rl: ReturnLine) {
    && rl.line in read.lines && read.lines[rl.line].order == order
    && read.lines[rl.line].stocked && read.lines[rl.line].status == Shipped
    && read.lines[rl.line].returnedQuantity + Promised(read.requests, rl.line) + rl.quantity <= read.lines[rl.line].quantity
  }

  /** A return is opened exactly when the order shipped and every line, each named once, may come back; it
      is written as asked, and nothing else moves. */
  lemma RequestWhen(b: Books, read: Books, order: nat, items: seq<ReturnLine>)
    ensures Request(b, read, order, items).Ok?
        <==> order < |read.orders| && (read.orders[order] in {Journey.Shipping, Journey.Received, Journey.Completed})
             && (forall i, j :: 0 <= i < j < |items| ==> items[i].line != items[j].line)
             && (forall rl :: rl in items ==> MayComeBack(read, order, rl))
    ensures Request(b, read, order, items).Ok? ==>
      Request(b, read, order, items).value == Books(b.stock, b.lines, b.orders, b.requests + [ReturnOrder(order, Requested, items)])
  {
    forall rl | rl in items ensures LineRefused(read, order, rl) == None <==> MayComeBack(read, order, rl) {
      PromisedIsHeldOpen(read.requests, rl.line);
    }
  }

  /** Open returns promise no more of a line than is still out. */
  ghost predicate PromisesFit(b: Books) {
    forall line :: line in b.lines && Promised(b.requests, line) > 0 ==>
      b.lines[line].returnedQuantity + Promised(b.requests, line) <= b.lines[line].quantity
  }

  lemma {:induction false} AskedOnce(items: seq<ReturnLine>, line: Id)
    requires forall i, j :: 0 <= i < j < |items| ==> items[i].line != items[j].line
    ensures (forall rl :: rl in items ==> rl.line != line) ==> SumBy(items, QuantityOf(line)) == 0
    ensures forall rl :: rl in items && rl.line == line ==> SumBy(items, QuantityOf(line)) == rl.quantity
  {
    if items != [] {
      var front, last := items[..|items| - 1], items[|items| - 1];
      AskedOnce(front, line);
      assert last in items && forall rl :: rl in front ==> rl in items;
      forall rl | rl in items && rl.line == line ensures SumBy(items, QuantityOf(line)) == rl.quantity {
        var i :| 0 <= i < |items| && items[i] == rl;
        if i == |items| - 1 {
          forall x | x in front ensures x.line != line { var k :| 0 <= k < |front| && front[k] == x; assert items[k].line != items[i].line; }
        } else {
          assert front[i] == rl && rl in front;
        }
      }
    }
  }

  lemma OneMorePromise(requests: seq<ReturnOrder>, order: nat, items: seq<ReturnLine>, line: Id)
    ensures Promised(requests + [ReturnOrder(order, Requested, items)], line) == Promised(requests, line) + SumBy(items, QuantityOf(line))
  {
    assert (requests + [ReturnOrder(order, Requested, items)])[..|requests|] == requests;
  }

  /** A return decides on the books it read, and no unit is to be promised twice. It keeps the promises within
      what is out exactly when what it asks still is, at the commit, neither back nor promised. */
  lemma PromisedOnceWhen(b: Books, read: Books, order: nat, items: seq<ReturnLine>)
    requires PromisesFit(b) && Request(b, read, order, items).Ok?
    requires forall rl :: rl in items ==> rl.line in b.lines && rl.quantity > 0
    requires forall line :: line in b.lines ==> Promised(b.requests, line) >= 0
    ensures PromisesFit(Request(b, read, order, items).value)
        <==> forall rl :: rl in items ==>
               rl.quantity <= b.lines[rl.line].quantity - b.lines[rl.line].returnedQuantity - Promised(b.requests, rl.line)
  {
    RequestWhen(b, read, order, items);
    hide Request;
    var t := Request(b, read, order, items).value;
    forall line | line in b.lines ensures Promised(t.requests, line) == Promised(b.requests, line) + SumBy(items, QuantityOf(line)) {
      OneMorePromise(b.requests, order, items, line);
    }
    forall line ensures (forall rl :: rl in items ==> rl.line != line) ==> SumBy(items, QuantityOf(line)) == 0
                ensures forall rl :: rl in items && rl.line == line ==> SumBy(items, QuantityOf(line)) == rl.quantity
    {
      AskedOnce(items, line);
    }
    if PromisesFit(t) {
      forall rl | rl in items
        ensures rl.quantity <= b.lines[rl.line].quantity - b.lines[rl.line].returnedQuantity - Promised(b.requests, rl.line)
      {
        assert SumBy(items, QuantityOf(rl.line)) == rl.quantity && Promised(t.requests, rl.line) > 0;
      }
    }
  }

  /** One unit, shipped. */
  function OneShipped(): Books {
    Books(EMPTY, map[7 := SoldLine(0, 3, 1, true, Shipped, 0, None)], [Journey.Shipping], [])
  }

  /** Two clerks who read the same books each open a return of the one unit that shipped: two are promised of one. */
  lemma PromisedTwice(shop: Shop) returns (states: seq<Books>, actions: seq<Runs.Action>)
    requires 7 !in shop.counterLines
    ensures Runs.History(shop, states, actions) && |actions| == 3
    ensures 7 in states[3].lines && states[3].lines[7].quantity == 1 && Promised(states[3].requests, 7) == 2
  {
    hide Request, Promised, Runs.LeavesNow;
    var b, r := OneShipped(), ReturnOrder(0, Requested, [ReturnLine(7, 1)]);
    states := [Books(EMPTY, map[], [], []), b, b.(requests := [r]), b.(requests := [r, r])];
    actions := [Runs.ShipOrder(b.lines), Runs.RequestReturn(0, [ReturnLine(7, 1)], 1), Runs.RequestReturn(0, [ReturnLine(7, 1)], 1)];
    OneLeaves(shop);
    OneAsked(states[1]);
    OneAsked(states[2]);
    assert [r] == [] + [r] && [r, r] == [r] + [r];
    assert Runs.Took(shop, states, 0, actions[0]);
    assert Runs.Took(shop, states, 1, actions[1]) && Runs.Took(shop, states, 2, actions[2]);
    TwoPromised();
  }

  /** Decided on the books before any return, one of the unit is opened, whatever was written since. */
  lemma OneAsked(b: Books)
    ensures Request(b, OneShipped(), 0, [ReturnLine(7, 1)])
         == Ok(b.(requests := b.requests + [ReturnOrder(0, Requested, [ReturnLine(7, 1)])]))
  {
    hide Request, Promised;
    RequestWhen(b, OneShipped(), 0, [ReturnLine(7, 1)]);
    NothingPromised();
  }

  lemma TwoPromised()
    ensures var r := ReturnOrder(0, Requested, [ReturnLine(7, 1)]); Promised([r, r], 7) == 2
  {
    hide Promised, SumBy, QuantityOf;
    var r := ReturnOrder(0, Requested, [ReturnLine(7, 1)]);
    NothingPromised();
    OneUnit();
    OneMorePromise([], 0, [ReturnLine(7, 1)], 7);
    OneMorePromise([r], 0, [ReturnLine(7, 1)], 7);
    assert [r] == [] + [r] && [r, r] == [r] + [r];
  }

  lemma NothingPromised()
    ensures Promised([], 7) == 0
  {}

  lemma OneUnit()
    ensures SumBy([ReturnLine(7, 1)], QuantityOf(7)) == 1
  {
    SumByAppend([], ReturnLine(7, 1), QuantityOf(7));
    assert [] + [ReturnLine(7, 1)] == [ReturnLine(7, 1)];
  }

  lemma OneLeaves(shop: Shop)
    requires 7 !in shop.counterLines
    ensures Runs.LeavesNow(shop, Books(EMPTY, map[], [], []), OneShipped().lines)
    ensures map[] + OneShipped().lines == OneShipped().lines
  {
    assert 7 in OneShipped().lines && OneShipped().lines[7].status == Shipped;
    assert EMPTY.ledger == [];
  }

  // ---------------------------------------------------------------- a unit is claimed once

  /** Units of a line that are back or promised. */
  function Claimed(b: Books, line: Id): int
    requires line in b.lines
  {
    b.lines[line].returnedQuantity + Promised(b.requests, line)
  }

  function OpenUnits(r: ReturnOrder, line: Id): int {
    if r.status == Requested || r.status == Inspecting then SumBy(r.items, QuantityOf(line)) else 0
  }

  lemma {:induction false} PromisedUpdate(requests: seq<ReturnOrder>, id: nat, r: ReturnOrder, line: Id)
    requires id < |requests|
    ensures Promised(requests[id := r], line) == Promised(requests, line) - OpenUnits(requests[id], line) + OpenUnits(r, line)
  {
    var front := requests[..|requests| - 1];
    if id < |front| {
      assert requests[id := r][..|front|] == front[id := r];
      PromisedUpdate(front, id, r, line);
    } else {
      assert requests[id := r][..|front|] == front;
    }
  }

  /** Receiving takes a return that was asked for; nothing is claimed or given up by it. */
  lemma ReceiveClaims(b: Books, id: nat, line: Id)
    requires id < |b.requests| && line in b.lines
    ensures Receive(b, id).Ok? <==> b.requests[id].status == Requested
    ensures Receive(b, id).Ok? ==>
      var t := Receive(b, id).value;
      t == b.(requests := t.requests) && t.requests[id].status == Inspecting && Claimed(t, line) == Claimed(b, line)
  {
    PromisedUpdate(b.requests, id, b.requests[id].(status := Inspecting), line);
  }

  /** Withdrawing takes a return not yet inspected, and gives up exactly what it promised. */
  lemma CancelClaims(b: Books, id: nat, line: Id)
    requires id < |b.requests| && line in b.lines
    ensures Cancel(b, id).Ok? <==> b.requests[id].status == Requested || b.requests[id].status == Inspecting
    ensures Cancel(b, id).Ok? ==>
      var t := Cancel(b, id).value;
      && t == b.(requests := t.requests) && t.requests[id].status == Cancelled
      && Claimed(t, line) == Claimed(b, line) - SumBy(b.requests[id].items, QuantityOf(line))
  {
    PromisedUpdate(b.requests, id, b.requests[id].(status := Cancelled), line);
  }

  /** Inspecting turns promises into units that are back, one for one. */
  lemma InspectClaims(shop: Shop, b: Books, id: nat, verdicts: map<Id, Verdict>, now: int, line: Id)
    requires Consistent(b.stock) && id < |b.requests| && line in b.lines && Inspect(shop, b, id, verdicts, now).Ok?
    ensures var t := Inspect(shop, b, id, verdicts, now).value;
      b.requests[id].status == Inspecting && t.requests[id].status == Completed
      && line in t.lines && Claimed(t, line) == Claimed(b, line)
  {
    hide Consistent, InspectLines;
    PromisedUpdate(b.requests, id, b.requests[id].(status := Completed), line);
    Runs.LineNotBelow(shop, Goods(b.stock, b.lines), id, b.requests[id].items, verdicts, now, line);
  }
}
