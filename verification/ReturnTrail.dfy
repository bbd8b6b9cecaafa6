/** Following goods out and back through the ledger: a document brings back no more than it took,
    every unit to the lot it left or to a lot split off from it
    (`returnDrawn`, src/modules/inventories/inventories.service.ts). */
module ReturnTrail {
  import opened Common
  import opened LotAllocation
  import opened StockLedger
  import opened StockOperations
  import opened StockInvariants

  // ---------------------------------------------------------------- the ledger only grows

  /** `t` adds to `s` only ledger rows written for `cause`; existing lots keep what they are. */
  ghost predicate Grows(s: State, t: State, cause: LedgerRef) {
    && s.ledger <= t.ledger && |s.lots| <= |t.lots|
    && (forall i :: 0 <= i < |s.lots| ==> t.lots[i] == s.lots[i].(remaining := t.lots[i].remaining))
    && (forall j :: |s.ledger| <= j < |t.ledger| ==> t.ledger[j].cause == cause)
  }

  /** The rows `t` adds take goods out. */
  ghost predicate OnlyOut(s: State, t: State) {
    forall j :: |s.ledger| <= j < |t.ledger| ==> t.ledger[j].quantity < 0
  }

  lemma {:induction false} DrawSlicesGrows(s: State, slices: seq<LotSlice>, cause: LedgerRef)
    requires Within(slices, |s.lots|) && forall x :: x in slices ==> x.quantity > 0
    ensures Grows(s, DrawSlices(s, slices, cause), cause)
    ensures OnlyOut(s, DrawSlices(s, slices, cause))
  {
    if slices != [] {
      var front, last := slices[..|slices| - 1], slices[|slices| - 1];
      DrawSlicesGrows(s, front, cause);
      assert last in slices;
      var before, t := DrawSlices(s, front, cause), DrawSlices(s, slices, cause);
      forall j | |s.ledger| <= j < |t.ledger| ensures t.ledger[j].quantity < 0 {
        if j < |before.ledger| { assert t.ledger[j] == before.ledger[j]; }
      }
    }
  }

  lemma DrawGrows(s: State, k: Key, quantity: int, cause: LedgerRef)
    requires Consistent(s) && quantity > 0 && Draw(s, k, quantity, cause).Ok?
    ensures Grows(s, Draw(s, k, quantity, cause).value, cause)
    ensures OnlyOut(s, Draw(s, k, quantity, cause).value)
  {
    PlanFits(s, k, quantity, cause.line);
    var slices := DrawPlan(QueryLots(s.lots, k, cause.line), quantity, cause.line).value;
    DrawSlicesGrows(s, slices, cause);
    assert Draw(s, k, quantity, cause).value.ledger == DrawSlices(s, slices, cause).ledger;
  }

  lemma ReturnGrows(s: State, r: Return)
    requires EntriesPlaced(s) && ReturnDrawn(s, r).Ok?
    ensures Grows(s, ReturnDrawn(s, r).value, ReturnCause(r))
  {
    if !(OriginLots(s.ledger, r.item, r.drawnBy) == [] && r.ifNeverDrawn.Some?) {
      ReturnPlanWithin(s, r);
      ReturnSlicesGrows(s, ReturnsTo(s, r).value, r.location, ReturnCause(r));
    }
  }

  lemma {:induction false} ReturnSlicesGrows(s: State, slices: seq<LotSlice>, location: Id, cause: LedgerRef)
    requires Within(slices, |s.lots|)
    ensures Grows(s, ReturnSlices(s, slices, location, cause), cause)
  {
    if slices != [] { ReturnSlicesGrows(s, slices[..|slices| - 1], location, cause); }
  }

  /** What the rows of a call are written for; a lock writes none. */
  function CauseOf(c: Call): Option<LedgerRef> {
    match c
    case CallOpenLot(receipt) => Some(receipt.cause)
    case CallDeduct(_, _, cause) => Some(cause)
    case CallShip(_, _, cause) => Some(cause)
    case CallReturn(ret) => Some(ReturnCause(ret))
    case CallLock(_) => None
    case CallRelease(_, _) => None
  }

  lemma Placed(s: State)
    requires Consistent(s)
    ensures EntriesPlaced(s)
  {}

  lemma ShipGrows(s: State, k: Key, quantity: int, cause: LedgerRef)
    requires Consistent(s) && ShipLockedStock(s, k, quantity, cause).Ok?
    ensures Grows(s, ShipLockedStock(s, k, quantity, cause).value, cause)
    ensures OnlyOut(s, ShipLockedStock(s, k, quantity, cause).value)
  {
    hide Draw;
    RelockKeeps(s, k, -quantity);
    DrawGrows(Relock(s, k, -quantity), k, quantity, cause);
  }

  lemma OutcomeGrows(s: State, c: Call)
    requires Consistent(s) && Outcome(s, c).Ok?
    ensures CauseOf(c).Some? ==> Grows(s, Outcome(s, c).value, CauseOf(c).value)
    ensures CauseOf(c).None? ==> Outcome(s, c).value == s.(rows := Outcome(s, c).value.rows)
    ensures c.CallDeduct? || c.CallShip? ==> OnlyOut(s, Outcome(s, c).value)
  {
    hide Draw, ReturnDrawn, LockEach, Consistent, OnlyOut;
    match c {
      case CallOpenLot(receipt) =>
      case CallDeduct(key, quantity, cause) => DrawGrows(s, key, quantity, cause);
      case CallLock(lines) => LockEachKeeps(s, lines);
      case CallShip(key, quantity, cause) => ShipGrows(s, key, quantity, cause);
      case CallRelease(key, quantity) =>
      case CallReturn(ret) => Placed(s); ReturnGrows(s, ret);
    }
  }

  // ---------------------------------------------------------------- the trail of one document

  function Origins(s: State, item: Id, doc: Document): seq<nat> { OriginLots(s.ledger, item, doc) }

  function Drawn(s: State, item: Id, doc: Document, lot: nat): int { SumBy(s.ledger, DrawnRow(item, doc, lot)) }

  function Returned(s: State, item: Id, doc: Document, lot: nat): int {
    SumBy(s.ledger, ReturnedRow(s.lots, Origins(s, item, doc), item, doc, lot))
  }

  /** No origin lot got back more than it gave. */
  ghost predicate Bounded(s: State, item: Id, doc: Document) {
    forall o :: o in Origins(s, item, doc) ==> Returned(s, item, doc, o) <= Drawn(s, item, doc, o)
  }

  lemma {:induction false} OriginsKept(ledger: seq<Entry>, more: seq<Entry>, item: Id, doc: Document)
    requires ledger <= more && forall j :: |ledger| <= j < |more| ==> !Outbound(more[j], item, doc)
    ensures OriginLots(more, item, doc) == OriginLots(ledger, item, doc)
    decreases |more|
  {
    if |more| > |ledger| {
      OriginsKept(ledger, more[..|more| - 1], item, doc);
    } else {
      assert more == ledger;
    }
  }

  /** The share of a sum that rows added later contribute. */
  lemma SumOfGrowth(ledger: seq<Entry>, more: seq<Entry>, f: Entry -> int)
    requires ledger <= more
    ensures SumBy(more, f) == SumBy(ledger, f) + SumBy(more[|ledger|..], f)
  {
    assert more == ledger + more[|ledger|..];
    SumByConcat(ledger, more[|ledger|..], f);
  }

  lemma ReturnedReadsOldLots(s: State, t: State, cause: LedgerRef, origins: seq<nat>, item: Id, doc: Document, o: nat)
    requires EntriesPlaced(s) && Grows(s, t, cause)
    ensures SumBy(s.ledger, ReturnedRow(t.lots, origins, item, doc, o))
         == SumBy(s.ledger, ReturnedRow(s.lots, origins, item, doc, o))
  {
    forall e | e in s.ledger
      ensures ReturnedRow(t.lots, origins, item, doc, o)(e) == ReturnedRow(s.lots, origins, item, doc, o)(e)
    {
      var j :| 0 <= j < |s.ledger| && s.ledger[j] == e;
    }
    SumBySame(s.ledger, ReturnedRow(t.lots, origins, item, doc, o), ReturnedRow(s.lots, origins, item, doc, o));
  }

  /** Rows written for something else leave the trail as it was. */
  lemma TrailFrame(s: State, t: State, cause: LedgerRef, item: Id, doc: Document)
    requires EntriesPlaced(s) && Grows(s, t, cause) && !Names(cause, doc)
    ensures Origins(t, item, doc) == Origins(s, item, doc)
    ensures forall o :: Drawn(t, item, doc, o) == Drawn(s, item, doc, o)
    ensures forall o :: Returned(t, item, doc, o) == Returned(s, item, doc, o)
  {
    OriginsKept(s.ledger, t.ledger, item, doc);
    var added := t.ledger[|s.ledger|..];
    forall o ensures Drawn(t, item, doc, o) == Drawn(s, item, doc, o)
             ensures Returned(t, item, doc, o) == Returned(s, item, doc, o)
    {
      SumOfGrowth(s.ledger, t.ledger, DrawnRow(item, doc, o));
      SumByZero(added, DrawnRow(item, doc, o));
      var f := ReturnedRow(t.lots, Origins(s, item, doc), item, doc, o);
      SumOfGrowth(s.ledger, t.ledger, f);
      SumByZero(added, f);
      ReturnedReadsOldLots(s, t, cause, Origins(s, item, doc), item, doc, o);
    }
  }

  /** Origin lots are in the table. */
  lemma OriginsPlaced(s: State, item: Id, doc: Document)
    requires EntriesPlaced(s)
    ensures forall x :: x in Origins(s, item, doc) ==> x < |s.lots|
  {
    forall x | x in Origins(s, item, doc) ensures x < |s.lots| {
      var j :| 0 <= j < |s.ledger| && Outbound(s.ledger[j], item, doc) && s.ledger[j].lot == x;
    }
  }

  /** The row a returned slice writes belongs to the lot the slice came from, wherever it lands. */
  lemma ReturnSliceRow(s: State, slice: LotSlice, location: Id, cause: LedgerRef, origins: seq<nat>, item: Id, doc: Document)
    requires Names(cause, doc) && slice.quantity > 0 && slice.lotId < |s.lots| && s.lots[slice.lotId].key.item == item
    requires slice.lotId in origins && forall x :: x in origins ==> x < |s.lots|
    ensures var t := ReturnSlice(s, slice, location, cause);
      && |t.ledger| == |s.ledger| + 1 && t.ledger[..|s.ledger|] == s.ledger && Grows(s, t, cause)
      && var e := t.ledger[|s.ledger|];
         && e.quantity == slice.quantity && Inbound(e, item, doc) && Origin(t.lots, origins, e.lot) == Some(slice.lotId)
  {}

  /** One returned slice is booked against the lot it came from. */
  lemma ReturnSliceTrail(s: State, slice: LotSlice, location: Id, cause: LedgerRef, item: Id, doc: Document)
    requires EntriesPlaced(s) && Names(cause, doc) && slice.quantity > 0
    requires slice.lotId in Origins(s, item, doc) && slice.lotId < |s.lots| && s.lots[slice.lotId].key.item == item
    ensures var t := ReturnSlice(s, slice, location, cause);
      && Origins(t, item, doc) == Origins(s, item, doc)
      && (forall o :: Drawn(t, item, doc, o) == Drawn(s, item, doc, o))
      && (forall o :: Returned(t, item, doc, o) == Returned(s, item, doc, o) + UnitsOf(o)(slice))
  {
    hide OriginLots, ReturnSlice, Origin;
    var t := ReturnSlice(s, slice, location, cause);
    var origins := Origins(s, item, doc);
    OriginsPlaced(s, item, doc);
    ReturnSliceRow(s, slice, location, cause, origins, item, doc);
    var e := t.ledger[|s.ledger|];
    assert t.ledger == s.ledger + [e];
    OriginsKept(s.ledger, t.ledger, item, doc);
    forall o ensures Drawn(t, item, doc, o) == Drawn(s, item, doc, o)
             ensures Returned(t, item, doc, o) == Returned(s, item, doc, o) + UnitsOf(o)(slice)
    {
      SumByAppend(s.ledger, e, DrawnRow(item, doc, o));
      SumByAppend(s.ledger, e, ReturnedRow(t.lots, origins, item, doc, o));
      ReturnedReadsOldLots(s, t, cause, origins, item, doc, o);
    }
  }

  ghost predicate FromOrigins(s: State, slices: seq<LotSlice>, item: Id, doc: Document) {
    forall x :: x in slices ==>
      x.quantity > 0 && x.lotId in Origins(s, item, doc) && x.lotId < |s.lots| && s.lots[x.lotId].key.item == item
  }

  lemma {:induction false} ReturnSlicesTrail(s: State, slices: seq<LotSlice>, location: Id, cause: LedgerRef,
                                             item: Id, doc: Document)
    requires Consistent(s) && Names(cause, doc) && Within(slices, |s.lots|) && FromOrigins(s, slices, item, doc)
    ensures var t := ReturnSlices(s, slices, location, cause);
      && Origins(t, item, doc) == Origins(s, item, doc)
      && (forall o :: Drawn(t, item, doc, o) == Drawn(s, item, doc, o))
      && (forall o :: Returned(t, item, doc, o) == Returned(s, item, doc, o) + TakenFrom(slices, o))
  {
    if slices != [] {
      var front, last := slices[..|slices| - 1], slices[|slices| - 1];
      assert last in slices;
      ReturnSlicesTrail(s, front, location, cause, item, doc);
      ReturnSlicesGrows(s, front, location, cause);
      ReturnSlicesKeeps(s, front, location, cause);
      var t := ReturnSlices(s, front, location, cause);
      ReturnSliceTrail(t, last, location, cause, item, doc);
      forall o ensures TakenFrom(slices, o) == TakenFrom(front, o) + UnitsOf(o)(last) {}
    }
  }

  // ---------------------------------------------------------------- what is still out

  function OutRow(item: Id, doc: Document): Entry -> int {
    (e: Entry) => if Outbound(e, item, doc) then -e.quantity else 0
  }

  /** A row that brings units back to one of the document's origin lots. */
  function BackRow(lots: seq<Lot>, origins: seq<nat>, item: Id, doc: Document): Entry -> int {
    (e: Entry) =>
      if Inbound(e, item, doc) && Origin(lots, origins, e.lot).Some? && Origin(lots, origins, e.lot).value in origins
      then e.quantity else 0
  }

  /** Everything the document took less everything that came back, straight from the ledger. */
  function StillOut(s: State, item: Id, doc: Document): int {
    SumBy(s.ledger, OutRow(item, doc)) - SumBy(s.ledger, BackRow(s.lots, Origins(s, item, doc), item, doc))
  }

  function DrawnOf(ledger: seq<Entry>, item: Id, doc: Document): nat -> int {
    (o: nat) => SumBy(ledger, DrawnRow(item, doc, o))
  }

  function ReturnedOf(ledger: seq<Entry>, lots: seq<Lot>, origins: seq<nat>, item: Id, doc: Document): nat -> int {
    (o: nat) => SumBy(ledger, ReturnedRow(lots, origins, item, doc, o))
  }

  function Pick(lot: nat, amount: int): nat -> int { (o: nat) => if o == lot then amount else 0 }

  ghost predicate Distinct(ids: seq<nat>) { forall i, j :: 0 <= i < j < |ids| ==> ids[i] != ids[j] }

  /** In a list without repeats a lot is met once. */
  lemma {:induction false} PickOnce(ids: seq<nat>, lot: nat, amount: int)
    requires Distinct(ids)
    ensures SumBy(ids, Pick(lot, amount)) == if lot in ids then amount else 0
  {
    if ids != [] { PickOnce(ids[..|ids| - 1], lot, amount); }
  }

  /** Drawn lot by lot is drawn in total. */
  lemma {:induction false} DrawnTotal(ledger: seq<Entry>, origins: seq<nat>, item: Id, doc: Document)
    requires Distinct(origins) && forall e :: e in ledger && Outbound(e, item, doc) ==> e.lot in origins
    ensures SumBy(origins, DrawnOf(ledger, item, doc)) == SumBy(ledger, OutRow(item, doc))
  {
    if ledger == [] {
      SumByZero(origins, DrawnOf(ledger, item, doc));
    } else {
      var front, last := ledger[..|ledger| - 1], ledger[|ledger| - 1];
      DrawnTotal(front, origins, item, doc);
      var amount := OutRow(item, doc)(last);
      PickOnce(origins, last.lot, amount);
      SumByAdd(origins, DrawnOf(front, item, doc), Pick(last.lot, amount), DrawnOf(ledger, item, doc));
      if amount != 0 { assert last in ledger; }
    }
  }

  lemma {:induction false} ReturnedTotal(ledger: seq<Entry>, lots: seq<Lot>, origins: seq<nat>, item: Id, doc: Document)
    requires Distinct(origins)
    ensures SumBy(origins, ReturnedOf(ledger, lots, origins, item, doc)) == SumBy(ledger, BackRow(lots, origins, item, doc))
  {
    if ledger == [] {
      SumByZero(origins, ReturnedOf(ledger, lots, origins, item, doc));
    } else {
      var front, last := ledger[..|ledger| - 1], ledger[|ledger| - 1];
      ReturnedTotal(front, lots, origins, item, doc);
      var from := Origin(lots, origins, last.lot);
      var lot := if from.Some? then from.value else 0;
      var amount := if Inbound(last, item, doc) && from.Some? then last.quantity else 0;
      PickOnce(origins, lot, amount);
      SumByAdd(origins, ReturnedOf(front, lots, origins, item, doc), Pick(lot, amount),
               ReturnedOf(ledger, lots, origins, item, doc));
    }
  }

  /** Summing the offers of a bounded document gives what is still out. */
  lemma OffersAreStillOut(s: State, item: Id, doc: Document)
    requires Bounded(s, item, doc)
    ensures SumBy(ReturnOffers(DrawnLots(s, item, doc)), Supply()) == StillOut(s, item, doc)
  {
    var origins := Origins(s, item, doc);
    DrawnTotal(s.ledger, origins, item, doc);
    ReturnedTotal(s.ledger, s.lots, origins, item, doc);
    OffersLotByLot(s, item, doc, |origins|);
    var offers := ReturnOffers(DrawnLots(s, item, doc));
    assert offers[..|origins|] == offers && origins[..|origins|] == origins;
    var left := (o: nat) => DrawnOf(s.ledger, item, doc)(o) - ReturnedOf(s.ledger, s.lots, origins, item, doc)(o);
    SumByAdd(origins, left, ReturnedOf(s.ledger, s.lots, origins, item, doc), DrawnOf(s.ledger, item, doc));
    SumBySame(origins, left, LeftOf(s, item, doc));
  }

  function LeftOf(s: State, item: Id, doc: Document): nat -> int {
    (o: nat) => Drawn(s, item, doc, o) - Returned(s, item, doc, o)
  }

  lemma {:induction false} OffersLotByLot(s: State, item: Id, doc: Document, n: nat)
    requires Bounded(s, item, doc) && n <= |Origins(s, item, doc)|
    ensures SumBy(ReturnOffers(DrawnLots(s, item, doc))[..n], Supply())
         == SumBy(Origins(s, item, doc)[..n], LeftOf(s, item, doc))
  {
    if n > 0 {
      OffersLotByLot(s, item, doc, n - 1);
      assert Origins(s, item, doc)[n - 1] in Origins(s, item, doc);
      SumByPrefix(ReturnOffers(DrawnLots(s, item, doc)), n, Supply());
      SumByPrefix(Origins(s, item, doc), n, LeftOf(s, item, doc));
    }
  }

  // ---------------------------------------------------------------- one return

  /** The reverse of a draw really applies: the document has drawn, or nothing is opened instead. */
  ghost predicate Traced(s: State, r: Return) {
    Origins(s, r.item, r.drawnBy) != [] || r.ifNeverDrawn.None?
  }

  /** What the plan gives back to each origin lot is at most what that lot is still owed. */
  lemma PlanWithinOwed(s: State, r: Return, o: nat)
    requires EntriesPlaced(s) && ReturnsTo(s, r).Some? && o in Origins(s, r.item, r.drawnBy)
    ensures TakenFrom(ReturnsTo(s, r).value, o)
         <= Max(0, Drawn(s, r.item, r.drawnBy, o) - Returned(s, r.item, r.drawnBy, o))
  {
    var origins := Origins(s, r.item, r.drawnBy);
    var i :| 0 <= i < |origins| && origins[i] == o;
    var offers := ReturnOffers(DrawnLots(s, r.item, r.drawnBy));
    GreedyTakes(offers, r.quantity, i);
  }

  lemma NotAnOrigin(s: State, r: Return, o: nat)
    requires EntriesPlaced(s) && ReturnsTo(s, r).Some? && o !in Origins(s, r.item, r.drawnBy)
    ensures TakenFrom(ReturnsTo(s, r).value, o) == 0
  {
    ReturnPlanWithin(s, r);
    SumByZero(ReturnsTo(s, r).value, UnitsOf(o));
  }

  /** Main result on one return. For a document that has not been brought back too much, a return is
      accepted exactly when it asks for no more than is still out; it then books exactly its
      quantity, keeps the document bounded, and leaves what it drew untouched. */
  lemma ReturnAccepted(s: State, r: Return)
    requires Consistent(s) && Bounded(s, r.item, r.drawnBy) && Traced(s, r)
    requires Names(ReturnCause(r), r.drawnBy)
    ensures ReturnDrawn(s, r).Ok? <==> 0 < r.quantity <= StillOut(s, r.item, r.drawnBy)
    ensures ReturnDrawn(s, r).Ok? ==>
      var t := ReturnDrawn(s, r).value;
      && Bounded(t, r.item, r.drawnBy)
      && StillOut(t, r.item, r.drawnBy) == StillOut(s, r.item, r.drawnBy) - r.quantity
      && (forall o :: Drawn(t, r.item, r.drawnBy, o) == Drawn(s, r.item, r.drawnBy, o))
  {
    GreedyTotals(ReturnOffers(DrawnLots(s, r.item, r.drawnBy)), r.quantity);
    OffersAreStillOut(s, r.item, r.drawnBy);
    if ReturnDrawn(s, r).Ok? {
      var t := ReturnDrawn(s, r).value;
      BooksAReturn(s, r);
      forall o | o in Origins(t, r.item, r.drawnBy)
        ensures Returned(t, r.item, r.drawnBy, o) <= Drawn(t, r.item, r.drawnBy, o)
      {
        PlanWithinOwed(s, r, o);
      }
      OffersAreStillOut(t, r.item, r.drawnBy);
      TotalAfterReturn(s, t, r);
    }
  }

  lemma BooksAReturn(s: State, r: Return)
    requires Consistent(s) && ReturnDrawn(s, r).Ok? && Traced(s, r) && Names(ReturnCause(r), r.drawnBy)
    ensures var t := ReturnDrawn(s, r).value;
      && Origins(t, r.item, r.drawnBy) == Origins(s, r.item, r.drawnBy)
      && (forall o :: Drawn(t, r.item, r.drawnBy, o) == Drawn(s, r.item, r.drawnBy, o))
      && (forall o :: Returned(t, r.item, r.drawnBy, o)
           == Returned(s, r.item, r.drawnBy, o) + TakenFrom(ReturnsTo(s, r).value, o))
  {
    ReturnPlanWithin(s, r);
    ReturnSlicesTrail(s, ReturnsTo(s, r).value, r.location, ReturnCause(r), r.item, r.drawnBy);
  }

  /** The units of a plan, counted lot by lot over the origins. */
  lemma {:induction false} UnitsByLot(slices: seq<LotSlice>, origins: seq<nat>)
    requires Distinct(origins) && forall x :: x in slices ==> x.lotId in origins
    ensures SumBy(origins, TakenOf(slices)) == SumBy(slices, Units())
  {
    if slices == [] {
      SumByZero(origins, TakenOf(slices));
    } else {
      var front, last := slices[..|slices| - 1], slices[|slices| - 1];
      UnitsByLot(front, origins);
      assert last in slices;
      PickOnce(origins, last.lotId, last.quantity);
      SumByAdd(origins, TakenOf(front), Pick(last.lotId, last.quantity), TakenOf(slices));
    }
  }

  function TakenOf(slices: seq<LotSlice>): nat -> int { (o: nat) => TakenFrom(slices, o) }

  lemma TotalAfterReturn(s: State, t: State, r: Return)
    requires EntriesPlaced(s) && ReturnsTo(s, r).Some? && r.quantity > 0
    requires Origins(t, r.item, r.drawnBy) == Origins(s, r.item, r.drawnBy)
    requires forall o :: Drawn(t, r.item, r.drawnBy, o) == Drawn(s, r.item, r.drawnBy, o)
    requires forall o ::
      Returned(t, r.item, r.drawnBy, o) == Returned(s, r.item, r.drawnBy, o) + TakenFrom(ReturnsTo(s, r).value, o)
    ensures StillOut(t, r.item, r.drawnBy) == StillOut(s, r.item, r.drawnBy) - r.quantity
  {
    var item, doc, slices := r.item, r.drawnBy, ReturnsTo(s, r).value;
    var origins := Origins(s, item, doc);
    DrawnTotal(s.ledger, origins, item, doc);
    DrawnTotal(t.ledger, origins, item, doc);
    ReturnedTotal(s.ledger, s.lots, origins, item, doc);
    ReturnedTotal(t.ledger, t.lots, origins, item, doc);
    GreedyTotals(ReturnOffers(DrawnLots(s, item, doc)), r.quantity);
    ReturnPlanWithin(s, r);
    UnitsByLot(slices, origins);
    forall o ensures DrawnOf(t.ledger, item, doc)(o) == DrawnOf(s.ledger, item, doc)(o) {
      assert Drawn(t, item, doc, o) == Drawn(s, item, doc, o);
    }
    SumBySame(origins, DrawnOf(t.ledger, item, doc), DrawnOf(s.ledger, item, doc));
    forall o
      ensures ReturnedOf(t.ledger, t.lots, origins, item, doc)(o)
           == ReturnedOf(s.ledger, s.lots, origins, item, doc)(o) + TakenOf(slices)(o)
    {
      assert Returned(t, item, doc, o) == Returned(s, item, doc, o) + TakenFrom(slices, o);
    }
    SumByAdd(origins, ReturnedOf(s.ledger, s.lots, origins, item, doc), TakenOf(slices),
             ReturnedOf(t.ledger, t.lots, origins, item, doc));
  }

  // ---------------------------------------------------------------- every run

  /** The callers' side of the bargain for one document: what a return of the item writes names the
      document exactly when it is this document that brings goods back. */
  predicate Disciplined(c: Call, item: Id, doc: Document) {
    c.CallReturn? && c.ret.item == item ==> (Names(ReturnCause(c.ret), doc) <==> c.ret.drawnBy == doc)
  }

  /** The document takes all its goods out before anything comes back for it. */
  ghost predicate OutFirst(ledger: seq<Entry>, item: Id, doc: Document) {
    forall i, j :: 0 <= i < j < |ledger| && Inbound(ledger[i], item, doc) ==> !Outbound(ledger[j], item, doc)
  }

  /** A row of another item says nothing about the trail. */
  lemma TrailFrameRows(s: State, t: State, cause: LedgerRef, item: Id, doc: Document)
    requires EntriesPlaced(s) && Grows(s, t, cause)
    requires forall j :: |s.ledger| <= j < |t.ledger| ==> !Outbound(t.ledger[j], item, doc)
    requires forall j :: |s.ledger| <= j < |t.ledger| && Inbound(t.ledger[j], item, doc) ==>
      t.ledger[j].lot >= |s.lots| && Origin(t.lots, Origins(s, item, doc), t.ledger[j].lot) == None
    ensures Bounded(s, item, doc) ==> Bounded(t, item, doc)
  {
    OriginsKept(s.ledger, t.ledger, item, doc);
    var added := t.ledger[|s.ledger|..];
    forall o ensures Drawn(t, item, doc, o) == Drawn(s, item, doc, o)
             ensures Returned(t, item, doc, o) == Returned(s, item, doc, o)
    {
      SumOfGrowth(s.ledger, t.ledger, DrawnRow(item, doc, o));
      SumByZero(added, DrawnRow(item, doc, o));
      var f := ReturnedRow(t.lots, Origins(s, item, doc), item, doc, o);
      SumOfGrowth(s.ledger, t.ledger, f);
      SumByZero(added, f);
      ReturnedReadsOldLots(s, t, cause, Origins(s, item, doc), item, doc, o);
    }
  }

  /** Before anything came back, everything drawn is owed. */
  lemma DrawStaysBounded(t: State, item: Id, doc: Document)
    requires forall j :: 0 <= j < |t.ledger| ==> !Inbound(t.ledger[j], item, doc)
    ensures Bounded(t, item, doc)
  {
    forall o | o in Origins(t, item, doc) ensures Returned(t, item, doc, o) <= Drawn(t, item, doc, o) {
      SumByZero(t.ledger, ReturnedRow(t.lots, Origins(t, item, doc), item, doc, o));
      SumByNonNegative(t.ledger, DrawnRow(item, doc, o));
    }
  }

  /** The rows of a return are all of the returned item. */
  lemma {:induction false} ReturnRowsItem(s: State, slices: seq<LotSlice>, location: Id, cause: LedgerRef, item: Id)
    requires Within(slices, |s.lots|) && forall x :: x in slices ==> s.lots[x.lotId].key.item == item
    ensures RowsOf(s, ReturnSlices(s, slices, location, cause), item)
  {
    if slices != [] {
      var front, last := slices[..|slices| - 1], slices[|slices| - 1];
      ReturnRowsItem(s, front, location, cause, item);
      ReturnSlicesGrows(s, front, location, cause);
      assert last in slices;
      var before, t := ReturnSlices(s, front, location, cause), ReturnSlices(s, slices, location, cause);
      forall j | |s.ledger| <= j < |t.ledger| ensures t.ledger[j].key.item == item {
        if j < |before.ledger| { assert t.ledger[j] == before.ledger[j]; }
      }
    }
  }

  ghost predicate RowsOf(s: State, t: State, item: Id) {
    forall j :: |s.ledger| <= j < |t.ledger| ==> t.ledger[j].key.item == item
  }

  lemma ReturnStaysBounded(s: State, r: Return, item: Id, doc: Document)
    requires Consistent(s) && ReturnDrawn(s, r).Ok? && Bounded(s, item, doc)
    requires Disciplined(CallReturn(r), item, doc)
    ensures Bounded(ReturnDrawn(s, r).value, item, doc)
  {
    if !Names(ReturnCause(r), doc) {
      ReturnGrows(s, r);
      TrailFrame(s, ReturnDrawn(s, r).value, ReturnCause(r), item, doc);
    } else if Origins(s, r.item, r.drawnBy) == [] && r.ifNeverDrawn.Some? {
      OpeningStaysBounded(s, OpeningReceipt(r), item, doc);
    } else if r.item == item {
      ReturnAccepted(s, r);
    } else {
      ReturnPlanWithin(s, r);
      ReturnGrows(s, r);
      ReturnRowsItem(s, ReturnsTo(s, r).value, r.location, ReturnCause(r), r.item);
      var t := ReturnDrawn(s, r).value;
      assert t.ledger == ReturnSlices(s, ReturnsTo(s, r).value, r.location, ReturnCause(r)).ledger;
      TrailFrameRows(s, t, ReturnCause(r), item, doc);
    }
  }

  /** A draw for the document is only made while nothing has come back. */
  lemma DrawStaysBoundedToo(s: State, t: State, cause: LedgerRef, item: Id, doc: Document)
    requires EntriesPlaced(s) && Grows(s, t, cause) && OnlyOut(s, t) && Bounded(s, item, doc)
    requires OutFirst(t.ledger, item, doc)
    ensures Bounded(t, item, doc)
  {
    if exists j :: |s.ledger| <= j < |t.ledger| && Outbound(t.ledger[j], item, doc) {
      var j :| |s.ledger| <= j < |t.ledger| && Outbound(t.ledger[j], item, doc);
      forall i | 0 <= i < |t.ledger| ensures !Inbound(t.ledger[i], item, doc) {
        if i >= |s.ledger| { assert t.ledger[i].quantity < 0; }
      }
      DrawStaysBounded(t, item, doc);
    } else {
      TrailFrameRows(s, t, cause, item, doc);
    }
  }

  lemma CallStaysBounded(s: State, c: Call, item: Id, doc: Document)
    requires Consistent(s) && Outcome(s, c).Ok? && Bounded(s, item, doc) && Disciplined(c, item, doc)
    requires OutFirst(Outcome(s, c).value.ledger, item, doc)
    ensures Bounded(Outcome(s, c).value, item, doc)
  {
    if c.CallOpenLot? {
      OpeningStaysBounded(s, c.receipt, item, doc);
    } else if c.CallReturn? {
      ReturnStaysBounded(s, c.ret, item, doc);
    } else {
      OtherCallStaysBounded(s, c, Outcome(s, c).value, item, doc);
    }
  }

  lemma OtherCallStaysBounded(s: State, c: Call, t: State, item: Id, doc: Document)
    requires Consistent(s) && Outcome(s, c) == Ok(t) && !c.CallOpenLot? && !c.CallReturn?
    requires Bounded(s, item, doc) && OutFirst(t.ledger, item, doc)
    ensures Bounded(t, item, doc)
  {
    OutcomeGrows(s, c);
    if CauseOf(c).Some? {
      assert c.CallDeduct? || c.CallShip?;
      DrawStaysBoundedToo(s, t, CauseOf(c).value, item, doc);
    } else {
      SameTrail(s, t, item, doc);
    }
  }

  lemma SameTrail(s: State, t: State, item: Id, doc: Document)
    requires t.lots == s.lots && t.ledger == s.ledger && Bounded(s, item, doc)
    ensures Bounded(t, item, doc)
  {
    forall o | o in Origins(t, item, doc) ensures Returned(t, item, doc, o) <= Drawn(t, item, doc, o) {
      assert o in Origins(s, item, doc);
    }
  }

  /** A new lot is nobody's origin and nobody's child. */
  lemma OpeningStaysBounded(s: State, r: Receipt, item: Id, doc: Document)
    requires Consistent(s) && OpenLot(s, r).Ok? && Bounded(s, item, doc)
    ensures Bounded(OpenLot(s, r).value, item, doc)
  {
    var t := OpenLot(s, r).value;
    forall o | o in Origins(s, item, doc) ensures o < |s.lots| {
      var j :| 0 <= j < |s.ledger| && Outbound(s.ledger[j], item, doc) && s.ledger[j].lot == o;
    }
    TrailFrameRows(s, t, r.cause, item, doc);
  }

  /** Main result on documents. In every run, for a document whose callers name it in what they
      bring back and which takes all its goods out before its first return, no origin lot ever gets
      back more than it gave - across any number of returns, to any locations. */
  lemma {:induction false} NothingComesBackTwice(calls: seq<Call>, states: seq<State>, item: Id, doc: Document, n: nat)
    requires Run(calls, states) && n < |states|
    requires forall c :: c in calls ==> Disciplined(c, item, doc)
    requires OutFirst(states[n].ledger, item, doc)
    ensures Bounded(states[n], item, doc)
  {
    hide Consistent, Outcome;
    EveryRunIsConsistent(calls, states, n);
    if n > 0 {
      var s, c := states[n - 1], calls[n - 1];
      EveryRunIsConsistent(calls, states, n - 1);
      assert Step(s, c, states[n]) && c in calls;
      if Outcome(s, c).Ok? {
        OutcomeGrows(s, c);
        assert s.ledger <= states[n].ledger;
        NothingComesBackTwice(calls, states, item, doc, n - 1);
        CallStaysBounded(s, c, item, doc);
      } else {
        NothingComesBackTwice(calls, states, item, doc, n - 1);
      }
    }
  }
}
