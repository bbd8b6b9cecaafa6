/** The six stock primitives of src/modules/inventories/inventories.service.ts as functions on the
    tables, and what every run of them keeps. A refused call leaves the tables as they were. */
module StockOperations {
  import opened Common
  import opened LotAllocation
  import opened StockLedger

  // ---------------------------------------------------------------- openLot

  datatype Receipt = Receipt(key: Key, quantity: int, unitCost: int, provenance: Provenance,
                             madeFor: Option<Id>, receivedAt: int, cause: LedgerRef)

  function NewLot(r: Receipt): Lot {
    Lot(r.key, r.quantity, r.quantity, r.receivedAt, r.unitCost, r.provenance, r.madeFor, None)
  }

  function OpenLot(s: State, r: Receipt): Result<State> {
    if r.quantity <= 0 then Err(QuantityMustBePositive) else Ok(AppendLot(s, NewLot(r), r.cause))
  }

  // ---------------------------------------------------------------- drawing lots

  function DrawableOf(lots: seq<Lot>, id: nat): DrawableLot
    requires id < |lots|
  {
    DrawableLot(id, lots[id].remaining, lots[id].receivedAt, lots[id].madeFor)
  }

  predicate OpenTo(lot: Lot, k: Key, line: Option<Id>) {
    lot.key == k && (lot.madeFor == None || (line.Some? && lot.madeFor == line))
  }

  /** The lots the draw query returns: at the key, not empty, not made for another line. */
  function QueryLots(lots: seq<Lot>, k: Key, line: Option<Id>): (r: seq<DrawableLot>)
    ensures forall l :: l in r ==>
      l.id < |lots| && l == DrawableOf(lots, l.id) && OpenTo(lots[l.id], k, line) && l.remaining > 0
    ensures DistinctLots(r)
  {
    if lots == [] then []
    else
      var id := |lots| - 1;
      var rest := QueryLots(lots[..id], k, line);
      assert forall i :: 0 <= i < |rest| ==> rest[i] in rest;
      rest + if OpenTo(lots[id], k, line) && lots[id].remaining > 0 then [DrawableOf(lots, id)] else []
  }

  predicate Within(slices: seq<LotSlice>, n: nat) { forall s :: s in slices ==> s.lotId < n }

  function DrawSlices(s: State, slices: seq<LotSlice>, cause: LedgerRef): (t: State)
    requires Within(slices, |s.lots|)
    ensures |t.lots| == |s.lots|
  {
    if slices == [] then s
    else
      var last := slices[|slices| - 1];
      ShiftLot(DrawSlices(s, slices[..|slices| - 1], cause), last.lotId, -last.quantity, cause)
  }

  lemma QueryPlanWithin(lots: seq<Lot>, k: Key, quantity: int, line: Option<Id>)
    requires DrawPlan(QueryLots(lots, k, line), quantity, line).Some?
    ensures Within(DrawPlan(QueryLots(lots, k, line), quantity, line).value, |lots|)
  {
    DrawPlanSlices(QueryLots(lots, k, line), quantity, line);
  }

  function CostOf(e: Entry): CostRow { CostRow(e.quantity, e.unitCost) }

  /** The SALE and SALE_REVERSAL rows of a line: what its cost of goods is computed from. */
  function SaleRows(ledger: seq<Entry>, line: Id): seq<CostRow> {
    if ledger == [] then []
    else
      var last := ledger[|ledger| - 1];
      SaleRows(ledger[..|ledger| - 1], line)
        + if last.cause.line == Some(line) && (last.cause.tx == Sale || last.cause.tx == SaleReversal)
          then [CostOf(last)] else []
  }

  function Costed(s: State, cause: LedgerRef, tx: TxType): State {
    if cause.tx == tx && cause.line.Some? then
      s.(lineCost := s.lineCost[cause.line.value := AverageCost(SaleRows(s.ledger, cause.line.value))])
    else s
  }

  function Draw(s: State, k: Key, quantity: int, cause: LedgerRef): Result<State> {
    match DrawPlan(QueryLots(s.lots, k, cause.line), quantity, cause.line)
    case None => Err(InventoryLotShortage)
    case Some(slices) =>
      QueryPlanWithin(s.lots, k, quantity, cause.line);
      Ok(Costed(DrawSlices(s, slices, cause), cause, Sale))
  }

  // ---------------------------------------------------------------- deductStock

  function DeductStock(s: State, k: Key, quantity: int, cause: LedgerRef): Result<State> {
    if quantity <= 0 then Err(QuantityMustBePositive)
    else if !CanTake(s, k, quantity) then Err(InsufficientStock)
    else Draw(s, k, quantity, cause)
  }

  predicate CanTake(s: State, k: Key, quantity: int) { k in s.rows && Shelf(s, k) >= quantity }

  // ---------------------------------------------------------------- lockStock, shipLockedStock, releaseLockedStock

  datatype LockLine = LockLine(key: Key, quantity: int)

  datatype ShortLine = ShortLine(key: Key, needed: int, onShelf: int)

  function Relock(s: State, k: Key, delta: int): State
    requires k in s.rows
  {
    s.(rows := s.rows[k := s.rows[k].(locked := s.rows[k].locked + delta)])
  }

  /** Every line that fits is locked, in order; the others are reported. */
  function LockEach(s: State, lines: seq<LockLine>): (r: (State, seq<ShortLine>))
    ensures r.0.rows.Keys == s.rows.Keys
  {
    if lines == [] then (s, [])
    else
      var last := lines[|lines| - 1];
      var (t, short) := LockEach(s, lines[..|lines| - 1]);
      if CanTake(t, last.key, last.quantity) then (Relock(t, last.key, last.quantity), short)
      else (t, short + [ShortLine(last.key, last.quantity, Shelf(t, last.key))])
  }

  predicate AllPositive(lines: seq<LockLine>) { forall l :: l in lines ==> l.quantity > 0 }

  function LockStock(s: State, lines: seq<LockLine>): Result<State> {
    if !AllPositive(lines) then Err(QuantityMustBePositive)
    else if LockEach(s, lines).1 != [] then Err(InsufficientStock)
    else Ok(LockEach(s, lines).0)
  }

  function ShipLockedStock(s: State, k: Key, quantity: int, cause: LedgerRef): Result<State> {
    if quantity <= 0 then Err(QuantityMustBePositive)
    else if k !in s.rows || LockedAt(s, k) < quantity then Err(InventoryLockMismatch)
    else Draw(Relock(s, k, -quantity), k, quantity, cause)
  }

  function ReleaseLockedStock(s: State, k: Key, quantity: int): Result<State> {
    if quantity <= 0 then Err(QuantityMustBePositive)
    else if k !in s.rows || LockedAt(s, k) < quantity then Err(InventoryLockMismatch)
    else Ok(Relock(s, k, -quantity))
  }

  // ---------------------------------------------------------------- returnDrawn

  /** The document goods were taken out by: an order line, or a stock document. */
  datatype Document = ByLine(line: Id) | ByReference(refType: RefType, refId: Id)

  predicate Names(cause: LedgerRef, doc: Document) {
    match doc
    case ByLine(line) => cause.line == Some(line)
    case ByReference(refType, refId) => cause.refType == refType && cause.refId == refId
  }

  predicate Matches(e: Entry, item: Id, doc: Document) { e.key.item == item && Names(e.cause, doc) }

  predicate Outbound(e: Entry, item: Id, doc: Document) { Matches(e, item, doc) && e.quantity < 0 }

  predicate Inbound(e: Entry, item: Id, doc: Document) { Matches(e, item, doc) && e.quantity > 0 }

  /** The lots a document drew from, in the order it first did. */
  function OriginLots(ledger: seq<Entry>, item: Id, doc: Document): (r: seq<nat>)
    ensures forall id :: id in r <==> exists j :: 0 <= j < |ledger| && Outbound(ledger[j], item, doc) && ledger[j].lot == id
    ensures forall i, j :: 0 <= i < j < |r| ==> r[i] != r[j]
  {
    if ledger == [] then []
    else
      var n := |ledger| - 1;
      var rest := OriginLots(ledger[..n], item, doc);
      assert forall j :: 0 <= j < n ==> ledger[..n][j] == ledger[j];
      if Outbound(ledger[n], item, doc) && ledger[n].lot !in rest then rest + [ledger[n].lot] else rest
  }

  function DrawnRow(item: Id, doc: Document, lot: nat): Entry -> int {
    (e: Entry) => if Outbound(e, item, doc) && e.lot == lot then -e.quantity else 0
  }

  /** A returned unit belongs to the lot it re-entered if the document drew from that lot, otherwise
      to the lot that one was split off from. */
  function Origin(lots: seq<Lot>, origins: seq<nat>, lot: nat): Option<nat> {
    if lot in origins then Some(lot) else if lot < |lots| then lots[lot].parent else None
  }

  function ReturnedRow(lots: seq<Lot>, origins: seq<nat>, item: Id, doc: Document, lot: nat): Entry -> int {
    (e: Entry) => if Inbound(e, item, doc) && Origin(lots, origins, e.lot) == Some(lot) then e.quantity else 0
  }

  function DrawnLotOf(s: State, item: Id, doc: Document, lot: nat): DrawnLot {
    DrawnLot(lot, SumBy(s.ledger, DrawnRow(item, doc, lot)),
             SumBy(s.ledger, ReturnedRow(s.lots, OriginLots(s.ledger, item, doc), item, doc, lot)))
  }

  function DrawnLots(s: State, item: Id, doc: Document): (r: seq<DrawnLot>)
    ensures |r| == |OriginLots(s.ledger, item, doc)|
    ensures forall i :: 0 <= i < |r| ==> r[i] == DrawnLotOf(s, item, doc, OriginLots(s.ledger, item, doc)[i])
  {
    var origins := OriginLots(s.ledger, item, doc);
    seq(|origins|, i requires 0 <= i < |origins| => DrawnLotOf(s, item, doc, origins[i]))
  }

  function SplitOff(s: State, origin: nat, location: Id, quantity: int): Lot
    requires origin < |s.lots|
  {
    var lot := s.lots[origin];
    lot.(key := Key(location, lot.key.item), remaining := quantity, received := quantity, parent := Some(origin))
  }

  /** One returned slice: into its own lot when that lot is where the goods arrive, else into a child. */
  function ReturnSlice(s: State, slice: LotSlice, location: Id, cause: LedgerRef): State
    requires slice.lotId < |s.lots|
  {
    if s.lots[slice.lotId].key.location == location then ShiftLot(s, slice.lotId, slice.quantity, cause)
    else AppendLot(s, SplitOff(s, slice.lotId, location, slice.quantity), cause)
  }

  function ReturnSlices(s: State, slices: seq<LotSlice>, location: Id, cause: LedgerRef): (t: State)
    requires Within(slices, |s.lots|)
    ensures |t.lots| >= |s.lots|
  {
    if slices == [] then s
    else
      var last := slices[|slices| - 1];
      ReturnSlice(ReturnSlices(s, slices[..|slices| - 1], location, cause), last, location, cause)
  }

  /** `ifNeverDrawn` is what to open when the document predates lots; `unitCost` and `now` are the
      item's current cost and the clock, used only then. */
  datatype Return = Return(item: Id, location: Id, quantity: int, drawnBy: Document, cause: LedgerRef,
                           ifNeverDrawn: Option<Source>, unitCost: int, now: int)

  /** Rows a return writes carry the order line too, so the next return sees them. */
  function ReturnCause(r: Return): LedgerRef {
    match r.drawnBy
    case ByLine(line) => r.cause.(line := Some(line))
    case ByReference(_, _) => r.cause
  }

  function OpeningReceipt(r: Return): Receipt
    requires r.ifNeverDrawn.Some?
  {
    Receipt(Key(r.location, r.item), r.quantity, r.unitCost, Provenance(r.ifNeverDrawn.value, None, None, None),
            None, r.now, ReturnCause(r))
  }

  function ReturnsTo(s: State, r: Return): Option<seq<LotSlice>> {
    ReturnPlan(DrawnLots(s, r.item, r.drawnBy), r.quantity)
  }

  lemma ReturnPlanWithin(s: State, r: Return)
    requires EntriesPlaced(s) && ReturnsTo(s, r).Some?
    ensures Within(ReturnsTo(s, r).value, |s.lots|)
    ensures forall x :: x in ReturnsTo(s, r).value ==> x.quantity > 0 && s.lots[x.lotId].key.item == r.item
    ensures forall x :: x in ReturnsTo(s, r).value ==> x.lotId in OriginLots(s.ledger, r.item, r.drawnBy)
  {
    var drawn := DrawnLots(s, r.item, r.drawnBy);
    GreedySlices(ReturnOffers(drawn), r.quantity);
    forall x | x in ReturnsTo(s, r).value
      ensures x.lotId in OriginLots(s.ledger, r.item, r.drawnBy) && x.quantity > 0
      ensures x.lotId < |s.lots| && s.lots[x.lotId].key.item == r.item
    {
      var i :| 0 <= i < |drawn| && ReturnOffers(drawn)[i].lotId == x.lotId;
      assert x.lotId == OriginLots(s.ledger, r.item, r.drawnBy)[i];
      assert x.lotId in OriginLots(s.ledger, r.item, r.drawnBy);
      var j :| 0 <= j < |s.ledger| && Outbound(s.ledger[j], r.item, r.drawnBy) && s.ledger[j].lot == x.lotId;
    }
  }

  function ReturnDrawn(s: State, r: Return): Result<State>
    requires EntriesPlaced(s)
  {
    if r.quantity <= 0 then Err(QuantityMustBePositive)
    else if OriginLots(s.ledger, r.item, r.drawnBy) == [] && r.ifNeverDrawn.Some? then OpenLot(s, OpeningReceipt(r))
    else
      match ReturnsTo(s, r)
      case None => Err(InventoryLotShortage)
      case Some(slices) =>
        ReturnPlanWithin(s, r);
        Ok(Costed(ReturnSlices(s, slices, r.location, ReturnCause(r)), ReturnCause(r), SaleReversal))
  }
}
