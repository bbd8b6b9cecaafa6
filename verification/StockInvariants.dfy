/** The laws of the stock tables: what every call of a primitive keeps, hence every run of them, and
    exactly when a call is accepted. */
module StockInvariants {
  import opened Common
  import opened LotAllocation
  import opened StockLedger
  import opened StockOperations

  // ---------------------------------------------------------------- draws

  /** The slices fit the lots of the key: positive parts, no lot overdrawn. */
  ghost predicate Fits(lots: seq<Lot>, k: Key, slices: seq<LotSlice>) {
    && (forall x :: x in slices ==> x.lotId < |lots| && lots[x.lotId].key == k && x.quantity > 0)
    && (forall i :: 0 <= i < |lots| ==> TakenFrom(slices, i) <= lots[i].remaining)
  }

  lemma FitsPrefix(lots: seq<Lot>, k: Key, slices: seq<LotSlice>)
    requires Fits(lots, k, slices) && slices != []
    ensures Fits(lots, k, slices[..|slices| - 1])
  {
    var last := slices[|slices| - 1];
    assert last in slices;
    forall i | 0 <= i < |lots| ensures TakenFrom(slices[..|slices| - 1], i) <= lots[i].remaining {
      assert TakenFrom(slices, i) == TakenFrom(slices[..|slices| - 1], i) + UnitsOf(i)(last);
    }
  }

  /** A draw lowers the key's stock by what it takes, lot by lot, and touches nothing else. */
  lemma {:induction false} DrawSlicesEffect(s: State, k: Key, slices: seq<LotSlice>, cause: LedgerRef)
    requires Fits(s.lots, k, slices) && k in s.rows
    ensures var t := DrawSlices(s, slices, cause);
      && t.rows == s.rows[k := s.rows[k].(stock := s.rows[k].stock - SumBy(slices, Units()))]
      && (forall i :: 0 <= i < |s.lots| ==>
            t.lots[i] == s.lots[i].(remaining := s.lots[i].remaining - TakenFrom(slices, i)))
      && t.lineCost == s.lineCost
  {
    if slices != [] {
      FitsPrefix(s.lots, k, slices);
      DrawSlicesEffect(s, k, slices[..|slices| - 1], cause);
      assert slices[|slices| - 1] in slices;
    }
  }

  /** After all slices but the last, the last one still fits. */
  lemma LastSliceFits(s: State, k: Key, slices: seq<LotSlice>, cause: LedgerRef)
    requires Fits(s.lots, k, slices) && k in s.rows && slices != []
    requires SumBy(slices, Units()) <= Shelf(s, k)
    ensures Fits(s.lots, k, slices[..|slices| - 1])
    ensures SumBy(slices[..|slices| - 1], Units()) <= Shelf(s, k)
    ensures var t := DrawSlices(s, slices[..|slices| - 1], cause);
      var last := slices[|slices| - 1];
      last.lotId < |t.lots| && t.lots[last.lotId].key == k
      && t.lots[last.lotId].remaining >= last.quantity && Shelf(t, k) >= last.quantity
  {
    var front, last := slices[..|slices| - 1], slices[|slices| - 1];
    assert last in slices;
    FitsPrefix(s.lots, k, slices);
    DrawSlicesEffect(s, k, front, cause);
    assert TakenFrom(slices, last.lotId) == TakenFrom(front, last.lotId) + last.quantity;
    assert SumBy(slices, Units()) == SumBy(front, Units()) + last.quantity;
  }

  lemma {:induction false} DrawSlicesKeeps(s: State, k: Key, slices: seq<LotSlice>, cause: LedgerRef)
    requires Consistent(s) && Fits(s.lots, k, slices) && k in s.rows
    requires SumBy(slices, Units()) <= Shelf(s, k)
    ensures Consistent(DrawSlices(s, slices, cause))
  {
    hide Consistent;
    if slices != [] {
      var front, last := slices[..|slices| - 1], slices[|slices| - 1];
      LastSliceFits(s, k, slices, cause);
      DrawSlicesKeeps(s, k, front, cause);
      var t := DrawSlices(s, front, cause);
      ShiftLotKeeps(t, last.lotId, -last.quantity, cause);
      assert DrawSlices(s, slices, cause) == ShiftLot(t, last.lotId, -last.quantity, cause);
    }
  }

  /** What a line may draw at a key, told on the lots. */
  function OpenUnits(k: Key, line: Option<Id>): Lot -> int {
    (l: Lot) => if OpenTo(l, k, line) then l.remaining else 0
  }

  /** What is made for other lines at a key: stock the line may not draw. */
  function ReservedUnits(k: Key, line: Option<Id>): Lot -> int {
    (l: Lot) => if l.key == k && !OpenTo(l, k, line) then l.remaining else 0
  }

  lemma {:induction false} QuerySum(lots: seq<Lot>, k: Key, line: Option<Id>)
    requires forall l :: l in lots ==> l.remaining >= 0
    ensures SumBy(QueryLots(lots, k, line), EligibleSupply(line)) == SumBy(lots, OpenUnits(k, line))
  {
    if lots != [] {
      var front, last := lots[..|lots| - 1], lots[|lots| - 1];
      QuerySum(front, k, line);
      assert last in lots;
      var rest := QueryLots(front, k, line);
      if OpenTo(last, k, line) && last.remaining > 0 {
        SumByAppend(rest, DrawableOf(lots, |front|), EligibleSupply(line));
      } else {
        assert rest + [] == rest;
      }
    }
  }

  lemma StockSplits(s: State, k: Key, line: Option<Id>)
    requires Consistent(s)
    ensures StockAt(s, k) == SumBy(s.lots, OpenUnits(k, line)) + SumBy(s.lots, ReservedUnits(k, line))
  {
    SumByAdd(s.lots, OpenUnits(k, line), ReservedUnits(k, line), HeldAt(k));
  }

  /** A plan over the queried lots fits them. */
  lemma PlanFits(s: State, k: Key, quantity: int, line: Option<Id>)
    requires Consistent(s) && quantity > 0
    requires DrawPlan(QueryLots(s.lots, k, line), quantity, line).Some?
    ensures Fits(s.lots, k, DrawPlan(QueryLots(s.lots, k, line), quantity, line).value)
    ensures SumBy(DrawPlan(QueryLots(s.lots, k, line), quantity, line).value, Units()) == quantity
  {
    var lots := QueryLots(s.lots, k, line);
    var slices := DrawPlan(lots, quantity, line).value;
    DrawPlanSlices(lots, quantity, line);
    DrawPlanMeaning(lots, quantity, line);
    forall i | 0 <= i < |s.lots| ensures TakenFrom(slices, i) <= s.lots[i].remaining {
      PlanFitsLot(s, k, quantity, line, i);
    }
  }

  lemma PlanFitsLot(s: State, k: Key, quantity: int, line: Option<Id>, i: nat)
    requires i < |s.lots| && s.lots[i].remaining >= 0
    requires DrawPlan(QueryLots(s.lots, k, line), quantity, line).Some?
    ensures TakenFrom(DrawPlan(QueryLots(s.lots, k, line), quantity, line).value, i) <= s.lots[i].remaining
  {
    hide QueryLots, Greedy, Unmet, DrawOrder;
    var lots := QueryLots(s.lots, k, line);
    var slices := DrawPlan(lots, quantity, line).value;
    if j :| 0 <= j < |lots| && lots[j].id == i {
      assert lots[j] in lots;
      PlanTakes(lots, quantity, line, j);
    } else {
      DrawPlanSlices(lots, quantity, line);
      forall x | x in slices ensures UnitsOf(i)(x) == 0 {
        var l :| l in lots && l.id == x.lotId;
      }
      SumByZero(slices, UnitsOf(i));
    }
  }

  /** A draw is possible exactly when the lots open to the line hold the quantity: the stock of the
      key less what is made for other lines. */
  lemma DrawPossible(s: State, k: Key, quantity: int, line: Option<Id>)
    requires Consistent(s)
    ensures DrawPlan(QueryLots(s.lots, k, line), quantity, line).Some?
        <==> quantity <= StockAt(s, k) - SumBy(s.lots, ReservedUnits(k, line))
  {
    forall l | l in s.lots ensures l.remaining >= 0 {
      var i :| 0 <= i < |s.lots| && s.lots[i] == l;
    }
    QuerySum(s.lots, k, line);
    StockSplits(s, k, line);
    DrawPlanMeaning(QueryLots(s.lots, k, line), quantity, line);
  }

  lemma CostedKeeps(s: State, cause: LedgerRef, tx: TxType)
    requires Consistent(s)
    ensures Consistent(Costed(s, cause, tx))
  {
    assert forall k: Key :: StockAt(Costed(s, cause, tx), k) == StockAt(s, k);
  }

  lemma DrawKeeps(s: State, k: Key, quantity: int, cause: LedgerRef)
    requires Consistent(s) && k in s.rows && 0 < quantity <= Shelf(s, k)
    requires Draw(s, k, quantity, cause).Ok?
    ensures Consistent(Draw(s, k, quantity, cause).value)
  {
    hide Consistent, QueryLots, DrawPlan;
    var slices := DrawPlan(QueryLots(s.lots, k, cause.line), quantity, cause.line).value;
    PlanFits(s, k, quantity, cause.line);
    DrawSlicesKeeps(s, k, slices, cause);
    CostedKeeps(DrawSlices(s, slices, cause), cause, Sale);
  }

  // ---------------------------------------------------------------- locks

  lemma RelockKeeps(s: State, k: Key, delta: int)
    requires Consistent(s) && k in s.rows && -LockedAt(s, k) <= delta <= Shelf(s, k)
    ensures Consistent(Relock(s, k, delta))
  {
    assert forall key: Key :: StockAt(Relock(s, k, delta), key) == StockAt(s, key);
  }

  function NeedAt(k: Key): LockLine -> int { (l: LockLine) => if l.key == k then l.quantity else 0 }

  /** What one pass over the lines leaves: every key's lock grows by what was locked there. */
  lemma {:induction false} LockEachKeeps(s: State, lines: seq<LockLine>)
    requires Consistent(s) && AllPositive(lines)
    ensures Consistent(LockEach(s, lines).0)
    ensures LockEach(s, lines).0 == s.(rows := LockEach(s, lines).0.rows)
    ensures forall k: Key :: StockAt(LockEach(s, lines).0, k) == StockAt(s, k)
    ensures forall k: Key :: LockedAt(s, k) <= LockedAt(LockEach(s, lines).0, k) <= LockedAt(s, k) + SumBy(lines, NeedAt(k))
    ensures LockEach(s, lines).1 == [] ==>
      forall k: Key :: LockedAt(LockEach(s, lines).0, k) == LockedAt(s, k) + SumBy(lines, NeedAt(k))
  {
    if lines != [] {
      var front, last := lines[..|lines| - 1], lines[|lines| - 1];
      assert last in lines;
      LockEachKeeps(s, front);
      var t := LockEach(s, front).0;
      if CanTake(t, last.key, last.quantity) { RelockKeeps(t, last.key, last.quantity); }
    }
  }

  /** All lines are locked exactly when, key by key, the lines together ask for no more than is on
      the shelf - whatever their order and however often a key is listed. */
  lemma {:induction false} LockEachAllOrSome(s: State, lines: seq<LockLine>)
    requires Consistent(s) && AllPositive(lines)
    ensures LockEach(s, lines).1 == [] <==> forall k: Key :: SumBy(lines, NeedAt(k)) <= Shelf(s, k)
  {
    if lines == [] {
      forall k: Key ensures 0 <= Shelf(s, k) {}
    } else {
      var front, last := lines[..|lines| - 1], lines[|lines| - 1];
      assert last in lines;
      LockEachAllOrSome(s, front);
      LockEachKeeps(s, front);
      var t := LockEach(s, front).0;
      assert forall k: Key :: SumBy(lines, NeedAt(k)) == SumBy(front, NeedAt(k)) + NeedAt(k)(last);
      if LockEach(s, front).1 == [] {
        assert Shelf(t, last.key) == Shelf(s, last.key) - SumBy(front, NeedAt(last.key));
        if Shelf(t, last.key) >= last.quantity {
          assert last.key in s.rows;
        } else {
          assert SumBy(lines, NeedAt(last.key)) > Shelf(s, last.key);
        }
      }
    }
  }

  // ---------------------------------------------------------------- returns

  lemma ReturnSliceKeeps(s: State, slice: LotSlice, location: Id, cause: LedgerRef)
    requires Consistent(s) && slice.lotId < |s.lots| && slice.quantity > 0
    ensures Consistent(ReturnSlice(s, slice, location, cause))
  {
    var key := s.lots[slice.lotId].key;
    assert Shelf(s, key) >= 0;
    if key.location == location {
      ShiftLotKeeps(s, slice.lotId, slice.quantity, cause);
    } else {
      AppendLotKeeps(s, SplitOff(s, slice.lotId, location, slice.quantity), cause);
    }
  }

  lemma {:induction false} ReturnSlicesKeeps(s: State, slices: seq<LotSlice>, location: Id, cause: LedgerRef)
    requires Consistent(s) && Within(slices, |s.lots|) && forall x :: x in slices ==> x.quantity > 0
    ensures Consistent(ReturnSlices(s, slices, location, cause))
  {
    if slices != [] {
      var front, last := slices[..|slices| - 1], slices[|slices| - 1];
      assert last in slices;
      ReturnSlicesKeeps(s, front, location, cause);
      ReturnSliceKeeps(ReturnSlices(s, front, location, cause), last, location, cause);
    }
  }

  // ---------------------------------------------------------------- every run

  datatype Call =
    | CallOpenLot(receipt: Receipt)
    | CallDeduct(key: Key, quantity: int, cause: LedgerRef)
    | CallLock(lines: seq<LockLine>)
    | CallShip(key: Key, quantity: int, cause: LedgerRef)
    | CallRelease(key: Key, quantity: int)
    | CallReturn(ret: Return)

  function Outcome(s: State, c: Call): Result<State>
    requires EntriesPlaced(s)
  {
    match c
    case CallOpenLot(receipt) => OpenLot(s, receipt)
    case CallDeduct(key, quantity, cause) => DeductStock(s, key, quantity, cause)
    case CallLock(lines) => LockStock(s, lines)
    case CallShip(key, quantity, cause) => ShipLockedStock(s, key, quantity, cause)
    case CallRelease(key, quantity) => ReleaseLockedStock(s, key, quantity)
    case CallReturn(ret) => ReturnDrawn(s, ret)
  }

  lemma DeductKeeps(s: State, k: Key, quantity: int, cause: LedgerRef)
    requires Consistent(s) && DeductStock(s, k, quantity, cause).Ok?
    ensures Consistent(DeductStock(s, k, quantity, cause).value)
  {
    DrawKeeps(s, k, quantity, cause);
  }

  lemma ShipKeeps(s: State, k: Key, quantity: int, cause: LedgerRef)
    requires Consistent(s) && ShipLockedStock(s, k, quantity, cause).Ok?
    ensures Consistent(ShipLockedStock(s, k, quantity, cause).value)
  {
    RelockKeeps(s, k, -quantity);
    DrawKeeps(Relock(s, k, -quantity), k, quantity, cause);
  }

  lemma ReturnKeeps(s: State, r: Return)
    requires Consistent(s) && ReturnDrawn(s, r).Ok?
    ensures Consistent(ReturnDrawn(s, r).value)
  {
    if OriginLots(s.ledger, r.item, r.drawnBy) == [] && r.ifNeverDrawn.Some? {
      AppendLotKeeps(s, NewLot(OpeningReceipt(r)), ReturnCause(r));
    } else {
      ReturnPlanWithin(s, r);
      ReturnSlicesKeeps(s, ReturnsTo(s, r).value, r.location, ReturnCause(r));
      CostedKeeps(ReturnSlices(s, ReturnsTo(s, r).value, r.location, ReturnCause(r)), ReturnCause(r), SaleReversal);
    }
  }

  lemma OutcomeKeeps(s: State, c: Call)
    requires Consistent(s) && Outcome(s, c).Ok?
    ensures Consistent(Outcome(s, c).value)
  {
    match c {
      case CallOpenLot(receipt) => AppendLotKeeps(s, NewLot(receipt), receipt.cause);
      case CallDeduct(key, quantity, cause) => DeductKeeps(s, key, quantity, cause);
      case CallLock(lines) => LockEachKeeps(s, lines);
      case CallShip(key, quantity, cause) => ShipKeeps(s, key, quantity, cause);
      case CallRelease(key, quantity) => RelockKeeps(s, key, -quantity);
      case CallReturn(ret) => ReturnKeeps(s, ret);
    }
  }

  /** A refused call changes nothing: its transaction is rolled back. */
  ghost predicate Step(s: State, c: Call, t: State) {
    EntriesPlaced(s) && t == if Outcome(s, c).Ok? then Outcome(s, c).value else s
  }

  /** A run: the states a sequence of calls goes through, starting from empty tables. */
  ghost predicate Run(calls: seq<Call>, states: seq<State>) {
    && |states| == |calls| + 1 && states[0] == EMPTY
    && forall i :: 0 <= i < |calls| ==> Step(states[i], calls[i], states[i + 1])
  }

  /** Main result. Whatever calls are made, in whatever order, the tables agree at every moment:
      locked within stock, stock = lots = ledger at every key, every lot backed by its own rows at
      its own cost, and every recorded balance the level at that row. */
  lemma {:induction false} EveryRunIsConsistent(calls: seq<Call>, states: seq<State>, n: nat)
    requires Run(calls, states) && n < |states|
    ensures Consistent(states[n])
  {
    if n == 0 {
      assert EMPTY.lots == [] && EMPTY.ledger == [];
    } else {
      EveryRunIsConsistent(calls, states, n - 1);
      assert Step(states[n - 1], calls[n - 1], states[n]);
      if Outcome(states[n - 1], calls[n - 1]).Ok? { OutcomeKeeps(states[n - 1], calls[n - 1]); }
    }
  }

  // ---------------------------------------------------------------- when a draw is accepted

  /** A sale is accepted exactly when the quantity is positive, on the shelf, and in lots the line may
      draw. The guard of the source checks the shelf alone. */
  lemma DeductAccepted(s: State, k: Key, quantity: int, cause: LedgerRef)
    requires Consistent(s)
    ensures DeductStock(s, k, quantity, cause).Ok?
        <==> 0 < quantity <= Shelf(s, k) && quantity <= StockAt(s, k) - SumBy(s.lots, ReservedUnits(k, cause.line))
    ensures DeductStock(s, k, quantity, cause) == Err(InventoryLotShortage)
        <==> 0 < quantity <= Shelf(s, k) && quantity > StockAt(s, k) - SumBy(s.lots, ReservedUnits(k, cause.line))
  {
    hide QueryLots, DrawPlan;
    DrawPossible(s, k, quantity, cause.line);
  }

  /** Where nothing is made for another line, a draw whose stock guard passed never fails. */
  lemma GuardSuffices(s: State, k: Key, quantity: int, cause: LedgerRef)
    requires Consistent(s) && 0 < quantity <= Shelf(s, k)
    requires forall l :: l in s.lots && l.key == k ==> OpenTo(l, k, cause.line)
    ensures DeductStock(s, k, quantity, cause).Ok?
  {
    SumByZero(s.lots, ReservedUnits(k, cause.line));
    assert 0 <= LockedAt(s, k);
    DeductAccepted(s, k, quantity, cause);
  }

  /** And where something is, the guard may pass and the draw still fail: five units made for line 7
      are on the shelf, and one of them is asked for by nobody's line. */
  lemma ShelfMayBeReserved() returns (calls: seq<Call>, states: seq<State>, cause: LedgerRef)
    ensures Run(calls, states) && |calls| == 1
    ensures Shelf(states[1], Key(0, 0)) == 5
    ensures DeductStock(states[1], Key(0, 0), 1, cause) == Err(InventoryLotShortage)
  {
    cause := LedgerRef(Adjust, StockMovement, 0, None);
    var receipt := Receipt(Key(0, 0), 5, 0, Provenance(Workshop, None, None, None), Some(7), 0, cause);
    var s := AppendLot(EMPTY, NewLot(receipt), cause);
    calls, states := [CallOpenLot(receipt)], [EMPTY, s];
    assert Step(states[0], calls[0], states[1]);
    EveryRunIsConsistent(calls, states, 1);
    var lot := NewLot(receipt);
    assert s.lots == [] + [lot];
    SumByAppend([], lot, ReservedUnits(Key(0, 0), None));
    assert SumBy(s.lots, ReservedUnits(Key(0, 0), None)) == 5;
    DeductAccepted(s, Key(0, 0), 1, cause);
  }

  // ---------------------------------------------------------------- the value of a lot

  function ValueIn(lot: nat): Entry -> int { (e: Entry) => if e.lot == lot then e.quantity * e.unitCost else 0 }

  lemma {:induction false} ValueIsUnitsTimesCost(ledger: seq<Entry>, lot: nat, unitCost: int)
    requires forall e :: e in ledger && e.lot == lot ==> e.unitCost == unitCost
    ensures SumBy(ledger, ValueIn(lot)) == SumBy(ledger, MovedIn(lot)) * unitCost
  {
    if ledger != [] {
      var front, last := ledger[..|ledger| - 1], ledger[|ledger| - 1];
      assert last in ledger;
      ValueIsUnitsTimesCost(front, lot, unitCost);
      if last.lot == lot {
        assert (SumBy(front, MovedIn(lot)) + last.quantity) * unitCost
            == SumBy(front, MovedIn(lot)) * unitCost + last.quantity * unitCost;
      }
    }
  }

  /** In every run, what is left in a lot is worth exactly what its ledger rows add up to. */
  lemma LotValueBacked(calls: seq<Call>, states: seq<State>, n: nat, i: nat)
    requires Run(calls, states) && n < |states| && i < |states[n].lots|
    ensures states[n].lots[i].remaining * states[n].lots[i].unitCost == SumBy(states[n].ledger, ValueIn(i))
  {
    var s := states[n];
    EveryRunIsConsistent(calls, states, n);
    forall e | e in s.ledger && e.lot == i ensures e.unitCost == s.lots[i].unitCost {
      var j :| 0 <= j < |s.ledger| && s.ledger[j] == e;
    }
    ValueIsUnitsTimesCost(s.ledger, i, s.lots[i].unitCost);
  }
}
