/** What the smaller stock operations come to, told on the tables: what a receipt opens, what a return of
    goods no lot gave opens, what a release frees, which lines of a lock request are reported short, and
    what a sold line is said to have cost. */
module StockLaws {
  import opened Common
  import opened LotAllocation
  import opened StockLedger
  import opened StockOperations

  // ---------------------------------------------------------------- receipts

  /** A receipt is taken exactly when it brings something. It becomes a lot of its own, nothing yet taken from
      it, and one row; stock grows at its key alone. */
  lemma OpenedWhen(s: State, r: Receipt)
    ensures OpenLot(s, r).Ok? <==> r.quantity > 0
    ensures OpenLot(s, r).Ok? ==>
      var t := OpenLot(s, r).value;
      && t.lots == s.lots + [Lot(r.key, r.quantity, r.quantity, r.receivedAt, r.unitCost, r.provenance, r.madeFor, None)]
      && t.ledger == s.ledger + [Entry(r.key, |s.lots|, r.quantity, StockAt(s, r.key) + r.quantity, r.unitCost, r.cause)]
      && t.lineCost == s.lineCost
      && forall k: Key :: LockedAt(t, k) == LockedAt(s, k) && StockAt(t, k) == StockAt(s, k) + if k == r.key then r.quantity else 0
  {}

  /** The row is under the document: of the order line, or of the reference. */
  predicate Under(cause: LedgerRef, doc: Document) {
    match doc
    case ByLine(line) => cause.line == Some(line)
    case ByReference(refType, refId) => cause.refType == refType && cause.refId == refId
  }

  /** Nothing of the item ever left under the document. */
  predicate NothingLeft(ledger: seq<Entry>, item: Id, doc: Document) {
    forall e :: e in ledger && e.key.item == item && Under(e.cause, doc) ==> e.quantity >= 0
  }

  lemma {:induction false} NoOrigins(ledger: seq<Entry>, item: Id, doc: Document)
    requires forall j :: 0 <= j < |ledger| ==> !Outbound(ledger[j], item, doc)
    ensures OriginLots(ledger, item, doc) == []
  {
    if ledger != [] { NoOrigins(ledger[..|ledger| - 1], item, doc); }
  }

  /** Goods no lot gave come back, if the caller knows where from, as a receipt of that day at the current cost,
      open to everybody; otherwise they are refused. */
  lemma NeverDrawnWhen(s: State, r: Return)
    requires EntriesPlaced(s) && NothingLeft(s.ledger, r.item, r.drawnBy)
    ensures ReturnDrawn(s, r).Ok? <==> r.quantity > 0 && r.ifNeverDrawn.Some?
    ensures ReturnDrawn(s, r).Ok? ==>
      var cause := LedgerRef(r.cause.tx, r.cause.refType, r.cause.refId, if r.drawnBy.ByLine? then Some(r.drawnBy.line) else r.cause.line);
      ReturnDrawn(s, r) == OpenLot(s, Receipt(Key(r.location, r.item), r.quantity, r.unitCost,
                                              Provenance(r.ifNeverDrawn.value, None, None, None), None, r.now, cause))
    ensures r.quantity > 0 && r.ifNeverDrawn.None? ==> ReturnDrawn(s, r) == Err(InventoryLotShortage)
  {
    forall j | 0 <= j < |s.ledger| ensures !Outbound(s.ledger[j], r.item, r.drawnBy) { assert s.ledger[j] in s.ledger; }
    NoOrigins(s.ledger, r.item, r.drawnBy);
    assert DrawnLots(s, r.item, r.drawnBy) == [];
  }

  // ---------------------------------------------------------------- locks

  /** A lock is freed exactly as far as it goes; nothing else moves. */
  lemma ReleasedWhen(s: State, k: Key, quantity: int)
    ensures ReleaseLockedStock(s, k, quantity).Ok? <==> 0 < quantity <= LockedAt(s, k)
    ensures ReleaseLockedStock(s, k, quantity).Ok? ==>
      var t := ReleaseLockedStock(s, k, quantity).value;
      && t.lots == s.lots && t.ledger == s.ledger && t.lineCost == s.lineCost
      && forall x: Key :: StockAt(t, x) == StockAt(s, x) && LockedAt(t, x) == LockedAt(s, x) - if x == k then quantity else 0
  {}

  /** Units the lines that fitted took at a key. */
  function Fitted(lines: seq<LockLine>, fits: seq<bool>, k: Key): int
    requires |fits| == |lines|
  {
    if lines == [] then 0
    else
      var n := |lines| - 1;
      Fitted(lines[..n], fits[..n], k) + if fits[n] && lines[n].key == k then lines[n].quantity else 0
  }

  /** The lines that did not fit, as they are reported: each with what was left on the shelf when its turn came. */
  function Missed(s: State, lines: seq<LockLine>, fits: seq<bool>): seq<ShortLine>
    requires |fits| == |lines|
  {
    if lines == [] then []
    else
      var n := |lines| - 1;
      Missed(s, lines[..n], fits[..n])
      + if fits[n] then []
        else
          var onShelf := StockAt(s, lines[n].key) - LockedAt(s, lines[n].key) - Fitted(lines[..n], fits[..n], lines[n].key);
          [ShortLine(lines[n].key, lines[n].quantity, onShelf)]
  }

  /** What line `i` needs is there, and still on the shelf after those before it. */
  predicate FitsAt(s: State, lines: seq<LockLine>, fits: seq<bool>, i: nat)
    requires |fits| == |lines| && i < |lines|
  {
    && lines[i].key in s.rows
    && lines[i].quantity <= StockAt(s, lines[i].key) - LockedAt(s, lines[i].key) - Fitted(lines[..i], fits[..i], lines[i].key)
  }

  /** Each line fits exactly if what the lines before it left on the shelf is enough for it. */
  ghost predicate FitInTurn(s: State, lines: seq<LockLine>, fits: seq<bool>)
    requires |fits| == |lines|
  {
    forall i :: 0 <= i < |lines| ==> (fits[i] <==> FitsAt(s, lines, fits, i))
  }

  lemma FitsOneMore(s: State, front: seq<LockLine>, last: LockLine, before: seq<bool>, fit: bool)
    requires |before| == |front| && FitInTurn(s, front, before)
    requires var onShelf := StockAt(s, last.key) - LockedAt(s, last.key) - Fitted(front, before, last.key);
      fit <==> last.key in s.rows && last.quantity <= onShelf
    ensures FitInTurn(s, front + [last], before + [fit])
  {
    hide Fitted;
    var lines, fits := front + [last], before + [fit];
    forall i | 0 <= i < |lines| ensures fits[i] <==> FitsAt(s, lines, fits, i) {
      if i < |front| {
        assert lines[..i] == front[..i] && fits[..i] == before[..i];
        assert FitsAt(s, front, before, i) <==> before[i];
      } else {
        assert lines[..i] == front && fits[..i] == before;
      }
    }
  }

  lemma FittedOneMore(front: seq<LockLine>, last: LockLine, before: seq<bool>, fit: bool, k: Key)
    requires |before| == |front|
    ensures Fitted(front + [last], before + [fit], k) == Fitted(front, before, k) + if fit && last.key == k then last.quantity else 0
  {
    var lines, fits := front + [last], before + [fit];
    assert lines[..|front|] == front && fits[..|front|] == before;
  }

  lemma TallyOneMore(s: State, front: seq<LockLine>, last: LockLine, before: seq<bool>, fit: bool)
    requires |before| == |front|
    ensures forall k: Key ::
      Fitted(front + [last], before + [fit], k) == Fitted(front, before, k) + if fit && last.key == k then last.quantity else 0
    ensures var onShelf := StockAt(s, last.key) - LockedAt(s, last.key) - Fitted(front, before, last.key);
      Missed(s, front + [last], before + [fit])
        == Missed(s, front, before) + if fit then [] else [ShortLine(last.key, last.quantity, onShelf)]
  {
    hide Fitted;
    var lines, fits := front + [last], before + [fit];
    assert lines[..|front|] == front && fits[..|front|] == before;
    forall k: Key ensures Fitted(lines, fits, k) == Fitted(front, before, k) + if fit && last.key == k then last.quantity else 0 {
      FittedOneMore(front, last, before, fit, k);
    }
  }

  /** Going through a lock request: which lines fit is decided in turn, those that do not are all reported, in
      order, and what fitted is locked. */
  lemma {:induction false} LockReport(s: State, lines: seq<LockLine>) returns (fits: seq<bool>)
    ensures |fits| == |lines| && FitInTurn(s, lines, fits) && LockEach(s, lines).1 == Missed(s, lines, fits)
    ensures forall k: Key :: StockAt(LockEach(s, lines).0, k) == StockAt(s, k)
    ensures forall k: Key :: LockedAt(LockEach(s, lines).0, k) == LockedAt(s, k) + Fitted(lines, fits, k)
  {
    if lines == [] {
      fits := [];
    } else {
      var front, last := lines[..|lines| - 1], lines[|lines| - 1];
      var before := LockReport(s, front);
      var t := LockEach(s, front).0;
      var fit := CanTake(t, last.key, last.quantity);
      fits := before + [fit];
      assert lines == front + [last];
      FitsOneMore(s, front, last, before, fit);
      TallyOneMore(s, front, last, before, fit);
      hide FitInTurn, Missed, Fitted;
    }
  }

  // ---------------------------------------------------------------- what a line cost

  predicate SoldUnder(e: Entry, line: Id) { e.cause.line == Some(line) && (e.cause.tx == Sale || e.cause.tx == SaleReversal) }

  function UnitsSold(line: Id): Entry -> int { (e: Entry) => if SoldUnder(e, line) then -e.quantity else 0 }

  function MoneySold(line: Id): Entry -> int { (e: Entry) => if SoldUnder(e, line) then -(e.quantity * e.unitCost) else 0 }

  /** A line's cost is what its units still out cost, shared among them to the nearest, a half up; with none out
      there is none. */
  predicate CostTold(ledger: seq<Entry>, line: Id, cost: Option<int>) {
    var units, money := SumBy(ledger, UnitsSold(line)), SumBy(ledger, MoneySold(line));
    (units <= 0 ==> cost == None) && (units > 0 ==> cost.Some? && -units < 2 * (cost.value * units - money) <= units)
  }

  lemma {:induction false} SoldSums(ledger: seq<Entry>, line: Id)
    ensures SumBy(SaleRows(ledger, line), UnitsOut()) == SumBy(ledger, UnitsSold(line))
    ensures SumBy(SaleRows(ledger, line), CostOut()) == SumBy(ledger, MoneySold(line))
  {
    if ledger != [] {
      var front, last := ledger[..|ledger| - 1], ledger[|ledger| - 1];
      SoldSums(front, line);
      assert SaleRows(front, line) + [] == SaleRows(front, line);
      SumByAppend(SaleRows(front, line), CostOf(last), UnitsOut());
      SumByAppend(SaleRows(front, line), CostOf(last), CostOut());
    }
  }

  lemma Nearest(n: int, d: int)
    requires d > 0
    ensures -d < 2 * (RoundDiv(n, d) * d - n) <= d
  {
    var q, r := (2 * n + d) / (2 * d), (2 * n + d) % (2 * d);
    assert 2 * n + d == 2 * d * q + r;
    assert 2 * d * q == 2 * (q * d);
  }

  lemma CostIsTold(ledger: seq<Entry>, line: Id)
    ensures CostTold(ledger, line, AverageCost(SaleRows(ledger, line)))
  {
    SoldSums(ledger, line);
    var units := SumBy(ledger, UnitsSold(line));
    if units > 0 { Nearest(SumBy(ledger, MoneySold(line)), units); }
  }

  /** Only the line is recosted, and only by rows of the kind; its cost is then what the ledger tells. */
  ghost predicate Recosted(s: State, t: State, cause: LedgerRef, tx: TxType) {
    if cause.tx == tx && cause.line.Some? then
      var line := cause.line.value;
      line in t.lineCost && CostTold(t.ledger, line, t.lineCost[line]) && t.lineCost == s.lineCost[line := t.lineCost[line]]
    else t.lineCost == s.lineCost
  }

  lemma CostedTells(s: State, t: State, cause: LedgerRef, tx: TxType)
    requires t.lineCost == s.lineCost
    ensures Recosted(s, Costed(t, cause, tx), cause, tx)
  {
    if cause.tx == tx && cause.line.Some? { CostIsTold(t.ledger, cause.line.value); }
  }

  lemma {:induction false} DrawnKeepsCosts(s: State, slices: seq<LotSlice>, cause: LedgerRef)
    requires Within(slices, |s.lots|)
    ensures DrawSlices(s, slices, cause).lineCost == s.lineCost
  {
    if slices != [] { DrawnKeepsCosts(s, slices[..|slices| - 1], cause); }
  }

  lemma {:induction false} ReturnedKeepsCosts(s: State, slices: seq<LotSlice>, location: Id, cause: LedgerRef)
    requires Within(slices, |s.lots|)
    ensures ReturnSlices(s, slices, location, cause).lineCost == s.lineCost
  {
    if slices != [] { ReturnedKeepsCosts(s, slices[..|slices| - 1], location, cause); }
  }

  lemma DrawCosts(s: State, k: Key, quantity: int, cause: LedgerRef)
    requires Draw(s, k, quantity, cause).Ok?
    ensures Recosted(s, Draw(s, k, quantity, cause).value, cause, Sale)
  {
    hide Recosted, Costed;
    QueryPlanWithin(s.lots, k, quantity, cause.line);
    var slices := DrawPlan(QueryLots(s.lots, k, cause.line), quantity, cause.line).value;
    DrawnKeepsCosts(s, slices, cause);
    CostedTells(s, DrawSlices(s, slices, cause), cause, Sale);
  }

  /** What goods taken for a sale cost is on the line as soon as they are taken - deducted, or shipped. */
  lemma SaleIsCosted(s: State, k: Key, quantity: int, cause: LedgerRef)
    ensures DeductStock(s, k, quantity, cause).Ok? ==> Recosted(s, DeductStock(s, k, quantity, cause).value, cause, Sale)
    ensures ShipLockedStock(s, k, quantity, cause).Ok? ==> Recosted(s, ShipLockedStock(s, k, quantity, cause).value, cause, Sale)
  {
    hide Draw, Recosted;
    if DeductStock(s, k, quantity, cause).Ok? { DrawCosts(s, k, quantity, cause); }
    if ShipLockedStock(s, k, quantity, cause).Ok? {
      DrawCosts(Relock(s, k, -quantity), k, quantity, cause);
      RecostedSame(s, Relock(s, k, -quantity), ShipLockedStock(s, k, quantity, cause).value, cause, Sale);
    }
  }

  lemma RecostedSame(s: State, u: State, t: State, cause: LedgerRef, tx: TxType)
    requires u.lineCost == s.lineCost && Recosted(u, t, cause, tx)
    ensures Recosted(s, t, cause, tx)
  {}

  /** And a reversed sale takes its cost off again. */
  lemma ReversalIsCosted(s: State, r: Return)
    requires EntriesPlaced(s) && ReturnDrawn(s, r).Ok? && r.drawnBy.ByLine? && !NothingLeft(s.ledger, r.item, r.drawnBy)
    ensures Recosted(s, ReturnDrawn(s, r).value, LedgerRef(r.cause.tx, r.cause.refType, r.cause.refId, Some(r.drawnBy.line)), SaleReversal)
  {
    hide Recosted, Costed, DrawnLots, ReturnPlan, ReturnSlices;
    var e :| e in s.ledger && e.key.item == r.item && Under(e.cause, r.drawnBy) && e.quantity < 0;
    var j :| 0 <= j < |s.ledger| && s.ledger[j] == e;
    assert Outbound(s.ledger[j], r.item, r.drawnBy) && s.ledger[j].lot in OriginLots(s.ledger, r.item, r.drawnBy);
    ReturnPlanWithin(s, r);
    ReturnedKeepsCosts(s, ReturnsTo(s, r).value, r.location, ReturnCause(r));
    CostedTells(s, ReturnSlices(s, ReturnsTo(s, r).value, r.location, ReturnCause(r)), ReturnCause(r), SaleReversal);
  }
}
