/** A counter sale and its cancellation (`createPosSale` and `updateStatus`,
    src/modules/orders/orders.service.ts): cancelling undoes the sale lot by lot, whatever other
    documents did to those lots in between. */
module CounterSale {
  import opened Common
  import opened LotAllocation
  import opened StockLedger
  import opened StockOperations
  import opened StockInvariants
  import opened ReturnTrail

  /** A line that holds stock; combo parents and services take nothing. */
  datatype SaleLine = SaleLine(id: Id, item: Id, quantity: int)

  /** Where and for which order the counter sells; `now` and `cost` matter only for a line sold
      before lots existed. */
  datatype Counter = Counter(branch: Id, order: Id, now: int, cost: int)

  function SaleCause(c: Counter, l: SaleLine): LedgerRef { LedgerRef(Sale, Order, c.order, Some(l.id)) }

  function ReversalOf(c: Counter, l: SaleLine): Return {
    Return(l.item, c.branch, l.quantity, ByLine(l.id), LedgerRef(SaleReversal, Order, c.order, None),
           Some(Opening), c.cost, c.now)
  }

  function SellLine(s: State, c: Counter, l: SaleLine): Result<State> {
    DeductStock(s, Key(c.branch, l.item), l.quantity, SaleCause(c, l))
  }

  function SellAll(s: State, c: Counter, lines: seq<SaleLine>): Result<State> {
    if lines == [] then Ok(s)
    else
      match SellAll(s, c, lines[..|lines| - 1])
      case Err(e) => Err(e)
      case Ok(t) => SellLine(t, c, lines[|lines| - 1])
  }

  /** The rows of a line are its sale: out of its key, adding up to its quantity. */
  ghost predicate Sold(s: State, c: Counter, l: SaleLine) {
    && (forall j :: 0 <= j < |s.ledger| && s.ledger[j].cause.line == Some(l.id) ==>
          s.ledger[j].key == Key(c.branch, l.item) && s.ledger[j].quantity < 0 && s.ledger[j].cause.tx == Sale)
    && SumBy(s.ledger, OutRow(l.item, ByLine(l.id))) == l.quantity > 0
  }

  ghost predicate Unnamed(s: State, line: Id) {
    forall j :: 0 <= j < |s.ledger| ==> s.ledger[j].cause.line != Some(line)
  }

  function LineIn(line: Id, lot: nat): Entry -> int {
    (e: Entry) => if e.cause.line == Some(line) && e.lot == lot then e.quantity else 0
  }

  /** The line's rows cancel out in every lot, and it has no cost of goods any more. */
  ghost predicate Undone(s: State, line: Id) {
    && (forall lot: nat :: SumBy(s.ledger, LineIn(line, lot)) == 0)
    && line in s.lineCost && s.lineCost[line] == None
  }

  // ---------------------------------------------------------------- selling

  ghost predicate RowsAt(s: State, t: State, k: Key) {
    forall j :: |s.ledger| <= j < |t.ledger| ==> t.ledger[j].key == k
  }

  lemma {:induction false} SliceKeys(s: State, k: Key, slices: seq<LotSlice>, cause: LedgerRef)
    requires Fits(s.lots, k, slices) && k in s.rows
    ensures RowsAt(s, DrawSlices(s, slices, cause), k)
  {
    if slices != [] {
      var front, last := slices[..|slices| - 1], slices[|slices| - 1];
      assert last in slices;
      FitsPrefix(s.lots, k, slices);
      SliceKeys(s, k, front, cause);
      DrawSlicesEffect(s, k, front, cause);
      var t, u := DrawSlices(s, front, cause), DrawSlices(s, slices, cause);
      forall j | |s.ledger| <= j < |u.ledger| ensures u.ledger[j].key == k {
        if j < |t.ledger| { assert u.ledger[j] == t.ledger[j]; }
      }
    }
  }

  lemma {:induction false} SliceUnits(s: State, k: Key, slices: seq<LotSlice>, cause: LedgerRef, doc: Document)
    requires Fits(s.lots, k, slices) && k in s.rows && Names(cause, doc)
    ensures SumBy(DrawSlices(s, slices, cause).ledger, OutRow(k.item, doc))
         == SumBy(s.ledger, OutRow(k.item, doc)) + SumBy(slices, Units())
  {
    if slices != [] {
      var front, last := slices[..|slices| - 1], slices[|slices| - 1];
      assert last in slices;
      FitsPrefix(s.lots, k, slices);
      SliceUnits(s, k, front, cause, doc);
      DrawSlicesEffect(s, k, front, cause);
      var t, u := DrawSlices(s, front, cause), DrawSlices(s, slices, cause);
      assert u.ledger == t.ledger + [u.ledger[|t.ledger|]];
      SumByAppend(t.ledger, u.ledger[|t.ledger|], OutRow(k.item, doc));
    }
  }

  lemma SellLineSells(s: State, c: Counter, l: SaleLine)
    requires Consistent(s) && Unnamed(s, l.id) && SellLine(s, c, l).Ok?
    ensures Consistent(SellLine(s, c, l).value) && Sold(SellLine(s, c, l).value, c, l)
    ensures Grows(s, SellLine(s, c, l).value, SaleCause(c, l))
  {
    DeductKeeps(s, Key(c.branch, l.item), l.quantity, SaleCause(c, l));
    DrawGrows(s, Key(c.branch, l.item), l.quantity, SaleCause(c, l));
    SellLineRows(s, c, l);
  }

  lemma SellLineRows(s: State, c: Counter, l: SaleLine)
    requires Consistent(s) && Unnamed(s, l.id) && SellLine(s, c, l).Ok?
    requires Grows(s, SellLine(s, c, l).value, SaleCause(c, l)) && OnlyOut(s, SellLine(s, c, l).value)
    ensures Sold(SellLine(s, c, l).value, c, l)
  {
    hide DrawPlan, QueryLots, DrawSlices, Consistent, Fits;
    var k, cause := Key(c.branch, l.item), SaleCause(c, l);
    PlanFits(s, k, l.quantity, cause.line);
    var slices := DrawPlan(QueryLots(s.lots, k, cause.line), l.quantity, cause.line).value;
    SliceKeys(s, k, slices, cause);
    SliceUnits(s, k, slices, cause, ByLine(l.id));
    SumByZero(s.ledger, OutRow(l.item, ByLine(l.id)));
    assert SellLine(s, c, l).value.ledger == DrawSlices(s, slices, cause).ledger;
  }

  /** What a row for somebody else leaves alone. */
  lemma OthersKeep(s: State, t: State, cause: LedgerRef, c: Counter, l: SaleLine)
    requires EntriesPlaced(s) && Grows(s, t, cause) && cause.line != Some(l.id)
    ensures Sold(s, c, l) ==> Sold(t, c, l)
    ensures Unnamed(s, l.id) ==> Unnamed(t, l.id)
    ensures forall lot: nat :: SumBy(t.ledger, LineIn(l.id, lot)) == SumBy(s.ledger, LineIn(l.id, lot))
  {
    var added := t.ledger[|s.ledger|..];
    SumOfGrowth(s.ledger, t.ledger, OutRow(l.item, ByLine(l.id)));
    SumByZero(added, OutRow(l.item, ByLine(l.id)));
    forall lot: nat ensures SumBy(t.ledger, LineIn(l.id, lot)) == SumBy(s.ledger, LineIn(l.id, lot)) {
      SumOfGrowth(s.ledger, t.ledger, LineIn(l.id, lot));
      SumByZero(added, LineIn(l.id, lot));
    }
  }

  predicate DistinctLines(lines: seq<SaleLine>) { forall i, j :: 0 <= i < j < |lines| ==> lines[i].id != lines[j].id }

  lemma {:induction false} SellAllSells(s: State, c: Counter, lines: seq<SaleLine>)
    requires Consistent(s) && DistinctLines(lines) && SellAll(s, c, lines).Ok?
    requires forall l :: l in lines ==> Unnamed(s, l.id)
    ensures Consistent(SellAll(s, c, lines).value)
    ensures forall l :: l in lines ==> Sold(SellAll(s, c, lines).value, c, l)
    ensures forall line: Id :: Unnamed(s, line) && (forall l :: l in lines ==> l.id != line) ==>
      Unnamed(SellAll(s, c, lines).value, line)
  {
    hide Sold, Unnamed, SellLine, Grows;
    if lines != [] {
      var front, last := lines[..|lines| - 1], lines[|lines| - 1];
      assert last in lines;
      SellAllSells(s, c, front);
      var t := SellAll(s, c, front).value;
      forall l | l in front ensures l.id != last.id {
        var i :| 0 <= i < |front| && front[i] == l;
        assert lines[i] == l;
      }
      SellLineSells(t, c, last);
      var u := SellLine(t, c, last).value;
      forall l | l in lines ensures Sold(u, c, l) {
        if l in front { OthersKeep(t, u, SaleCause(c, last), c, l); }
      }
      forall line: Id | Unnamed(s, line) && (forall l :: l in lines ==> l.id != line) ensures Unnamed(u, line) {
        OthersKeep(t, u, SaleCause(c, last), c, SaleLine(line, 0, 0));
      }
    }
  }

  // ---------------------------------------------------------------- other documents in between

  /** A stretch of calls from any state. */
  ghost predicate Stretch(calls: seq<Call>, states: seq<State>) {
    && |states| == |calls| + 1
    && forall i :: 0 <= i < |calls| ==> Step(states[i], calls[i], states[i + 1])
  }

  predicate SparesLine(call: Call, line: Id) { CauseOf(call).Some? ==> CauseOf(call).value.line != Some(line) }

  lemma SameLedgerSold(s: State, t: State, c: Counter, l: SaleLine)
    requires t.ledger == s.ledger && Sold(s, c, l)
    ensures Sold(t, c, l)
  {}

  lemma {:induction false} StretchKeepsSold(calls: seq<Call>, states: seq<State>, c: Counter, l: SaleLine, n: nat)
    requires Stretch(calls, states) && n < |states| && Consistent(states[0]) && Sold(states[0], c, l)
    requires forall call :: call in calls ==> SparesLine(call, l.id)
    ensures Consistent(states[n]) && Sold(states[n], c, l)
  {
    hide Sold, Outcome, Grows;
    if n > 0 {
      StretchKeepsSold(calls, states, c, l, n - 1);
      var s, call := states[n - 1], calls[n - 1];
      assert Step(s, call, states[n]) && call in calls;
      if Outcome(s, call).Ok? {
        OutcomeKeeps(s, call);
        OutcomeGrows(s, call);
        if CauseOf(call).Some? {
          OthersKeep(s, states[n], CauseOf(call).value, c, l);
        } else {
          SameLedgerSold(s, states[n], c, l);
        }
      }
    }
  }

  // ---------------------------------------------------------------- cancelling

  function CancelAll(s: State, c: Counter, lines: seq<SaleLine>): (r: Result<State>)
    requires Consistent(s)
    ensures r.Ok? ==> Consistent(r.value)
  {
    if lines == [] then Ok(s)
    else
      match CancelAll(s, c, lines[..|lines| - 1])
      case Err(e) => Err(e)
      case Ok(t) =>
        var last := ReversalOf(c, lines[|lines| - 1]);
        assert ReturnDrawn(t, last).Ok? ==> Consistent(ReturnDrawn(t, last).value) by {
          if ReturnDrawn(t, last).Ok? { ReturnKeeps(t, last); }
        }
        ReturnDrawn(t, last)
  }

  /** Equal sums of terms that are pairwise at most each other are equal term by term. */
  lemma {:induction false} TightSums<T>(s: seq<T>, f: T -> int, g: T -> int, x: T)
    requires x in s && (forall y :: y in s ==> f(y) <= g(y)) && SumBy(s, f) == SumBy(s, g)
    ensures f(x) == g(x)
  {
    var gap := (y: T) => g(y) - f(y);
    SumByAdd(s, f, gap, g);
    var i :| 0 <= i < |s| && s[i] == x;
    SumByCovers(s, gap, i);
  }

  /** Every row of a sold line is an outbound row of its key. */
  lemma SoldRow(s: State, c: Counter, l: SaleLine, e: Entry)
    requires Sold(s, c, l) && e in s.ledger
    ensures !Inbound(e, l.item, ByLine(l.id))
    ensures e.cause.line == Some(l.id) <==> Outbound(e, l.item, ByLine(l.id))
    ensures e.cause.line == Some(l.id) ==> e.key == Key(c.branch, l.item) && e.cause.tx == Sale
  {
    var j :| 0 <= j < |s.ledger| && s.ledger[j] == e;
  }

  /** Nothing of a sold line has come back yet. */
  lemma SoldIsAllOut(s: State, c: Counter, l: SaleLine)
    requires Sold(s, c, l)
    ensures Bounded(s, l.item, ByLine(l.id)) && StillOut(s, l.item, ByLine(l.id)) == l.quantity
    ensures Origins(s, l.item, ByLine(l.id)) != []
  {
    var item, doc := l.item, ByLine(l.id);
    forall e | e in s.ledger ensures !Inbound(e, item, doc) { SoldRow(s, c, l, e); }
    forall j | 0 <= j < |s.ledger| ensures !Inbound(s.ledger[j], item, doc) { assert s.ledger[j] in s.ledger; }
    DrawStaysBounded(s, item, doc);
    SumByZero(s.ledger, BackRow(s.lots, Origins(s, item, doc), item, doc));
    if Origins(s, item, doc) == [] {
      forall e | e in s.ledger ensures OutRow(item, doc)(e) == 0 {
        var j :| 0 <= j < |s.ledger| && s.ledger[j] == e;
        assert s.ledger[j].lot !in Origins(s, item, doc);
      }
      SumByZero(s.ledger, OutRow(item, doc));
    }
  }

  lemma SoldFromBranch(s: State, c: Counter, l: SaleLine, o: nat)
    requires EntriesPlaced(s) && Sold(s, c, l) && o in Origins(s, l.item, ByLine(l.id))
    ensures o < |s.lots| && s.lots[o].key == Key(c.branch, l.item)
  {
    var j :| 0 <= j < |s.ledger| && Outbound(s.ledger[j], l.item, ByLine(l.id)) && s.ledger[j].lot == o;
    assert s.ledger[j] in s.ledger;
    SoldRow(s, c, l, s.ledger[j]);
  }

  /** A sold line's rows in a lot are what it drew there. */
  lemma SoldInLot(s: State, c: Counter, l: SaleLine, lot: nat)
    requires Sold(s, c, l)
    ensures SumBy(s.ledger, LineIn(l.id, lot)) == -Drawn(s, l.item, ByLine(l.id), lot)
  {
    var zero := (e: Entry) => 0;
    forall e | e in s.ledger ensures zero(e) == LineIn(l.id, lot)(e) + DrawnRow(l.item, ByLine(l.id), lot)(e) {
      SoldRow(s, c, l, e);
    }
    SumByAdd(s.ledger, LineIn(l.id, lot), DrawnRow(l.item, ByLine(l.id), lot), zero);
    SumByZero(s.ledger, zero);
  }

  /** The reversal plans all that was drawn. */
  lemma WholePlan(s: State, c: Counter, l: SaleLine)
    requires Consistent(s) && Sold(s, c, l) && ReturnsTo(s, ReversalOf(c, l)).Some?
    ensures var slices := ReturnsTo(s, ReversalOf(c, l)).value;
      var origins := Origins(s, l.item, ByLine(l.id));
      SumBy(origins, TakenOf(slices)) == SumBy(origins, DrawnOf(s.ledger, l.item, ByLine(l.id)))
  {
    var r, doc := ReversalOf(c, l), ByLine(l.id);
    ReturnPlanWithin(s, r);
    UnitsByLot(ReturnsTo(s, r).value, Origins(s, l.item, doc));
    DrawnTotal(s.ledger, Origins(s, l.item, doc), l.item, doc);
    GreedyTotals(ReturnOffers(DrawnLots(s, l.item, doc)), l.quantity);
  }

  /** A whole return gives every origin lot exactly what it gave. */
  lemma ReversalPlan(s: State, c: Counter, l: SaleLine, lot: nat)
    requires Consistent(s) && Sold(s, c, l) && ReturnsTo(s, ReversalOf(c, l)).Some?
    ensures TakenFrom(ReturnsTo(s, ReversalOf(c, l)).value, lot) == Drawn(s, l.item, ByLine(l.id), lot)
  {
    hide Sold, ReturnsTo, BalancesChain, Lineage, LotsBacked, LotsHoldStock, LedgerHoldsStock, RowsSane;
    var r, doc := ReversalOf(c, l), ByLine(l.id);
    var origins := Origins(s, l.item, doc);
    if lot in origins {
      WholePlan(s, c, l);
      forall o | o in origins ensures TakenOf(ReturnsTo(s, r).value)(o) <= DrawnOf(s.ledger, l.item, doc)(o) {
        PlanWithinOwed(s, r, o);
        SumByNonNegative(s.ledger, DrawnRow(l.item, doc, o));
        SumByNonNegative(s.ledger, ReturnedRow(s.lots, origins, l.item, doc, o));
      }
      TightSums(origins, TakenOf(ReturnsTo(s, r).value), DrawnOf(s.ledger, l.item, doc), lot);
    } else {
      NotAnOrigin(s, r, lot);
      forall e | e in s.ledger ensures DrawnRow(l.item, doc, lot)(e) == 0 {
        var j :| 0 <= j < |s.ledger| && s.ledger[j] == e;
      }
      SumByZero(s.ledger, DrawnRow(l.item, doc, lot));
    }
  }

  ghost predicate BackInLots(s: State, t: State, slices: seq<LotSlice>, line: Id) {
    forall lot: nat :: SumBy(t.ledger, LineIn(line, lot)) == SumBy(s.ledger, LineIn(line, lot)) + TakenFrom(slices, lot)
  }

  /** Returned where it was sold, every unit re-enters its own lot. */
  lemma {:induction false} SameLots(s: State, slices: seq<LotSlice>, location: Id, cause: LedgerRef, line: Id)
    requires Within(slices, |s.lots|) && cause.line == Some(line)
    requires forall x :: x in slices ==> s.lots[x.lotId].key.location == location
    ensures |ReturnSlices(s, slices, location, cause).lots| == |s.lots|
    ensures BackInLots(s, ReturnSlices(s, slices, location, cause), slices, line)
  {
    if slices != [] {
      var front, last := slices[..|slices| - 1], slices[|slices| - 1];
      assert last in slices;
      SameLots(s, front, location, cause, line);
      ReturnSlicesGrows(s, front, location, cause);
      var t := ReturnSlices(s, front, location, cause);
      var u := ShiftLot(t, last.lotId, last.quantity, cause);
      assert ReturnSlices(s, slices, location, cause) == u;
      forall lot: nat
        ensures SumBy(u.ledger, LineIn(line, lot)) == SumBy(s.ledger, LineIn(line, lot)) + TakenFrom(slices, lot)
      {
        SumByAppend(t.ledger, u.ledger[|t.ledger|], LineIn(line, lot));
        assert TakenFrom(slices, lot) == TakenFrom(front, lot) + UnitsOf(lot)(last);
      }
    }
  }

  function SaleUnits(line: Id): Entry -> int {
    (e: Entry) => if e.cause.line == Some(line) && (e.cause.tx == Sale || e.cause.tx == SaleReversal) then -e.quantity else 0
  }

  lemma {:induction false} SaleRowsUnits(ledger: seq<Entry>, line: Id)
    ensures SumBy(SaleRows(ledger, line), UnitsOut()) == SumBy(ledger, SaleUnits(line))
  {
    if ledger != [] {
      var front, last := ledger[..|ledger| - 1], ledger[|ledger| - 1];
      SaleRowsUnits(front, line);
      if last.cause.line == Some(line) && (last.cause.tx == Sale || last.cause.tx == SaleReversal) {
        SumByAppend(SaleRows(front, line), CostOf(last), UnitsOut());
      } else {
        assert SaleRows(ledger, line) == SaleRows(front, line);
      }
    }
  }

  lemma ReturnedEntry(s: State, slice: LotSlice, location: Id, cause: LedgerRef) returns (e: Entry)
    requires slice.lotId < |s.lots|
    ensures ReturnSlice(s, slice, location, cause).ledger == s.ledger + [e]
    ensures e.quantity == slice.quantity && e.cause == cause
  {
    e := ReturnSlice(s, slice, location, cause).ledger[|s.ledger|];
  }

  lemma {:induction false} ReversalUnits(s: State, slices: seq<LotSlice>, location: Id, cause: LedgerRef, line: Id)
    requires Within(slices, |s.lots|) && cause.line == Some(line) && cause.tx == SaleReversal
    ensures SumBy(ReturnSlices(s, slices, location, cause).ledger, SaleUnits(line))
         == SumBy(s.ledger, SaleUnits(line)) - SumBy(slices, Units())
  {
    hide ReturnSlice;
    if slices != [] {
      var front, last := slices[..|slices| - 1], slices[|slices| - 1];
      ReversalUnits(s, front, location, cause, line);
      var t := ReturnSlices(s, front, location, cause);
      var e := ReturnedEntry(t, last, location, cause);
      SumByAppend(t.ledger, e, SaleUnits(line));
    }
  }

  lemma NoCostLeft(s: State, c: Counter, l: SaleLine, t: State)
    requires Consistent(s) && Sold(s, c, l) && ReturnsTo(s, ReversalOf(c, l)).Some?
    requires Within(ReturnsTo(s, ReversalOf(c, l)).value, |s.lots|)
    requires t.ledger == ReturnSlices(s, ReturnsTo(s, ReversalOf(c, l)).value, c.branch, ReturnCause(ReversalOf(c, l))).ledger
    ensures AverageCost(SaleRows(t.ledger, l.id)) == None
  {
    var r := ReversalOf(c, l);
    ReversalUnits(s, ReturnsTo(s, r).value, c.branch, ReturnCause(r), l.id);
    SaleRowsUnits(t.ledger, l.id);
    GreedyTotals(ReturnOffers(DrawnLots(s, l.item, ByLine(l.id))), l.quantity);
    forall e | e in s.ledger ensures SaleUnits(l.id)(e) == OutRow(l.item, ByLine(l.id))(e) { SoldRow(s, c, l, e); }
    SumBySame(s.ledger, SaleUnits(l.id), OutRow(l.item, ByLine(l.id)));
  }

  /** Cancelling one sold line: always accepted, opens no lot, and undoes the line everywhere. */
  lemma ReversalUndoes(s: State, c: Counter, l: SaleLine)
    requires Consistent(s) && Sold(s, c, l)
    ensures ReturnDrawn(s, ReversalOf(c, l)).Ok?
    ensures var t := ReturnDrawn(s, ReversalOf(c, l)).value;
      Undone(t, l.id) && |t.lots| == |s.lots| && Grows(s, t, ReturnCause(ReversalOf(c, l)))
  {
    var r := ReversalOf(c, l);
    SoldIsAllOut(s, c, l);
    ReturnAccepted(s, r);
    var slices, cause := ReturnsTo(s, r).value, ReturnCause(r);
    ReturnPlanWithin(s, r);
    ReturnGrows(s, r);
    forall x | x in slices ensures s.lots[x.lotId].key.location == c.branch { SoldFromBranch(s, c, l, x.lotId); }
    SameLots(s, slices, c.branch, cause, l.id);
    var t := ReturnDrawn(s, r).value;
    assert t.ledger == ReturnSlices(s, slices, c.branch, cause).ledger;
    forall lot: nat ensures SumBy(t.ledger, LineIn(l.id, lot)) == 0 {
      SoldInLot(s, c, l, lot);
      ReversalPlan(s, c, l, lot);
    }
    NoCostLeft(s, c, l, t);
  }

  lemma OthersKeepUndone(s: State, t: State, cause: LedgerRef, c: Counter, l: SaleLine)
    requires EntriesPlaced(s) && Grows(s, t, cause) && cause.line != Some(l.id) && Undone(s, l.id)
    requires l.id in t.lineCost && t.lineCost[l.id] == s.lineCost[l.id]
    ensures Undone(t, l.id)
  {
    OthersKeep(s, t, cause, c, l);
  }

  /** A cancelled order: each of its lines undone, and lines of other orders still sold. */
  ghost predicate Cancelled(s: State, t: State, c: Counter, lines: seq<SaleLine>) {
    && (forall l :: l in lines ==> Undone(t, l.id))
    && |t.lots| == |s.lots|
    && (forall x: SaleLine :: Sold(s, c, x) && (forall l :: l in lines ==> l.id != x.id) ==> Sold(t, c, x))
  }

  lemma {:induction false} CancelAllUndoes(s: State, c: Counter, lines: seq<SaleLine>)
    requires Consistent(s) && DistinctLines(lines) && forall l :: l in lines ==> Sold(s, c, l)
    ensures CancelAll(s, c, lines).Ok? && Cancelled(s, CancelAll(s, c, lines).value, c, lines)
  {
    hide Consistent, ReturnDrawn, Undone, Sold, Grows, DistinctLines;
    if lines != [] {
      var front, last := lines[..|lines| - 1], lines[|lines| - 1];
      assert last in lines;
      assert lines == front + [last];
      LastIsNew(front, last);
      CancelAllUndoes(s, c, front);
      var t := CancelAll(s, c, front).value;
      ReversalUndoes(t, c, last);
      CancelledStep(s, t, c, front, last);
    }
  }

  lemma LastIsNew(front: seq<SaleLine>, last: SaleLine)
    requires DistinctLines(front + [last])
    ensures DistinctLines(front) && forall l :: l in front ==> l.id != last.id
  {
    var lines := front + [last];
    forall i, j | 0 <= i < j < |front| ensures front[i].id != front[j].id { assert lines[i].id != lines[j].id; }
    forall l | l in front ensures l.id != last.id {
      var i :| 0 <= i < |front| && front[i] == l;
      assert lines[i].id != lines[|front|].id;
    }
  }

  lemma CancelledStep(s: State, t: State, c: Counter, front: seq<SaleLine>, last: SaleLine)
    requires Consistent(t) && Cancelled(s, t, c, front) && ReturnDrawn(t, ReversalOf(c, last)).Ok?
    requires Undone(ReturnDrawn(t, ReversalOf(c, last)).value, last.id)
    requires |ReturnDrawn(t, ReversalOf(c, last)).value.lots| == |t.lots|
    requires forall l :: l in front ==> l.id != last.id
    ensures Cancelled(s, ReturnDrawn(t, ReversalOf(c, last)).value, c, front + [last])
  {
    var u, cause := ReturnDrawn(t, ReversalOf(c, last)).value, ReturnCause(ReversalOf(c, last));
    ReturnGrows(t, ReversalOf(c, last));
    OtherCosts(t, c, last);
    forall l | l in front + [last] ensures Undone(u, l.id) {
      if l in front { OthersKeepUndone(t, u, cause, c, l); }
    }
    forall x: SaleLine | Sold(s, c, x) && (forall l :: l in front + [last] ==> l.id != x.id) ensures Sold(u, c, x) {
      OthersKeep(t, u, cause, c, x);
    }
  }

  lemma {:induction false} ReturnSlicesCosts(s: State, slices: seq<LotSlice>, location: Id, cause: LedgerRef)
    requires Within(slices, |s.lots|)
    ensures ReturnSlices(s, slices, location, cause).lineCost == s.lineCost
  {
    if slices != [] { ReturnSlicesCosts(s, slices[..|slices| - 1], location, cause); }
  }

  /** A reversal recomputes the cost of its own line only. */
  lemma OtherCosts(t: State, c: Counter, l: SaleLine)
    requires EntriesPlaced(t) && ReturnDrawn(t, ReversalOf(c, l)).Ok?
    ensures forall x :: x in t.lineCost && x != l.id ==>
      x in ReturnDrawn(t, ReversalOf(c, l)).value.lineCost
      && ReturnDrawn(t, ReversalOf(c, l)).value.lineCost[x] == t.lineCost[x]
  {
    var r := ReversalOf(c, l);
    if !(OriginLots(t.ledger, r.item, r.drawnBy) == [] && r.ifNeverDrawn.Some?) {
      ReturnPlanWithin(t, r);
      ReturnSlicesCosts(t, ReturnsTo(t, r).value, r.location, ReturnCause(r));
    }
  }

  /** Main result. Sell an order at the counter, let any other documents work on the same shelves
      and lots, then cancel it: the cancellation cannot fail, opens no lot, leaves every line's rows
      adding up to zero in every lot, and clears every line's cost of goods. */
  lemma CounterSaleRoundTrip(s: State, c: Counter, lines: seq<SaleLine>, calls: seq<Call>, states: seq<State>)
    requires Consistent(s) && DistinctLines(lines) && SellAll(s, c, lines).Ok?
    requires forall l :: l in lines ==> Unnamed(s, l.id)
    requires Stretch(calls, states) && states[0] == SellAll(s, c, lines).value
    requires forall call, l :: call in calls && l in lines ==> SparesLine(call, l.id)
    ensures Consistent(states[|calls|]) && CancelAll(states[|calls|], c, lines).Ok?
    ensures var t := CancelAll(states[|calls|], c, lines).value;
      |t.lots| == |states[|calls|].lots| && forall l :: l in lines ==> Undone(t, l.id)
  {
    SellAllSells(s, c, lines);
    forall l | l in lines ensures Sold(states[|calls|], c, l) {
      StretchKeepsSold(calls, states, c, l, |calls|);
    }
    StretchConsistent(calls, states, |calls|);
    CancelAllUndoes(states[|calls|], c, lines);
  }

  lemma {:induction false} StretchConsistent(calls: seq<Call>, states: seq<State>, n: nat)
    requires Stretch(calls, states) && n < |states| && Consistent(states[0])
    ensures Consistent(states[n])
  {
    if n > 0 {
      StretchConsistent(calls, states, n - 1);
      assert Step(states[n - 1], calls[n - 1], states[n]);
      if Outcome(states[n - 1], calls[n - 1]).Ok? { OutcomeKeeps(states[n - 1], calls[n - 1]); }
    }
  }
}
