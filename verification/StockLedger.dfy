/** What the stock primitives of src/modules/inventories/inventories.service.ts do, as functions on
    the tables they write: stock rows, lots, and the append-only ledger. The service writes a
    movement in bulk (one row update, then the lots, then the ledger rows); here it is told one
    ledger row at a time, and the class InventoryService is proved to do the same. */
module StockLedger {
  import opened Common
  import opened LotAllocation

  type Id = nat

  datatype Key = Key(location: Id, item: Id)

  datatype StockRow = StockRow(stock: int, locked: int)

  datatype Source = Supplier | Workshop | Adjustment | Opening

  /** Where goods first came from; a lot split off by a transfer or a return keeps it. */
  datatype Provenance = Provenance(source: Source, supplier: Option<Id>, importItem: Option<Id>,
                                   productionItem: Option<Id>)

  /** The id of a lot is its place in the table: lots are never deleted. */
  datatype Lot = Lot(key: Key, remaining: int, received: int, receivedAt: int, unitCost: int,
                     provenance: Provenance, madeFor: Option<Id>, parent: Option<nat>)

  datatype TxType =
    | Import | TransferOut | TransferIn | TransferLoss | Adjust | Sale | SaleReversal
    | ReturnGood | ReturnDamaged | Defect | OpeningBalance

  datatype RefType = StockMovement | Fulfillment | Order | ProductionRequest | OrderReturn | Inventory

  datatype LedgerRef = LedgerRef(tx: TxType, refType: RefType, refId: Id, line: Option<Id>)

  datatype Entry = Entry(key: Key, lot: nat, quantity: int, balanceAfter: int, unitCost: int, cause: LedgerRef)

  datatype State = State(rows: map<Key, StockRow>, lots: seq<Lot>, ledger: seq<Entry>,
                         lineCost: map<Id, Option<int>>)

  const EMPTY := State(map[], [], [], map[])

  // ---------------------------------------------------------------- reading the tables

  function StockAt(s: State, k: Key): int { if k in s.rows then s.rows[k].stock else 0 }

  function LockedAt(s: State, k: Key): int { if k in s.rows then s.rows[k].locked else 0 }

  /** What a sale or a packing may take. */
  function Shelf(s: State, k: Key): int { StockAt(s, k) - LockedAt(s, k) }

  function HeldAt(k: Key): Lot -> int { (l: Lot) => if l.key == k then l.remaining else 0 }

  function MovedAt(k: Key): Entry -> int { (e: Entry) => if e.key == k then e.quantity else 0 }

  function MovedIn(lot: nat): Entry -> int { (e: Entry) => if e.lot == lot then e.quantity else 0 }

  // ---------------------------------------------------------------- one ledger row

  function AddStock(s: State, k: Key, delta: int): map<Key, StockRow> {
    s.rows[k := StockRow(StockAt(s, k) + delta, LockedAt(s, k))]
  }

  /** Goods enter as a new lot. */
  function AppendLot(s: State, lot: Lot, cause: LedgerRef): State {
    var stock := StockAt(s, lot.key) + lot.remaining;
    s.(rows := AddStock(s, lot.key, lot.remaining),
       lots := s.lots + [lot],
       ledger := s.ledger + [Entry(lot.key, |s.lots|, lot.remaining, stock, lot.unitCost, cause)])
  }

  /** Goods leave or re-enter an existing lot. */
  function ShiftLot(s: State, id: nat, delta: int, cause: LedgerRef): State
    requires id < |s.lots|
  {
    var lot := s.lots[id];
    var stock := StockAt(s, lot.key) + delta;
    s.(rows := AddStock(s, lot.key, delta),
       lots := s.lots[id := lot.(remaining := lot.remaining + delta)],
       ledger := s.ledger + [Entry(lot.key, id, delta, stock, lot.unitCost, cause)])
  }

  // ---------------------------------------------------------------- the invariant

  ghost predicate RowsSane(s: State) {
    forall k :: k in s.rows ==> 0 <= s.rows[k].locked <= s.rows[k].stock
  }

  ghost predicate LotsHoldStock(s: State) {
    forall k: Key :: StockAt(s, k) == SumBy(s.lots, HeldAt(k))
  }

  ghost predicate LedgerHoldsStock(s: State) {
    forall k: Key :: StockAt(s, k) == SumBy(s.ledger, MovedAt(k))
  }

  ghost predicate LotsBacked(s: State) {
    forall i :: 0 <= i < |s.lots| ==> s.lots[i].remaining >= 0 && s.lots[i].remaining == SumBy(s.ledger, MovedIn(i))
  }

  ghost predicate EntriesPlaced(s: State) {
    forall j :: 0 <= j < |s.ledger| ==>
      var e := s.ledger[j];
      e.lot < |s.lots| && e.key == s.lots[e.lot].key && e.unitCost == s.lots[e.lot].unitCost
  }

  ghost predicate BalancesChain(s: State) {
    forall j :: 0 <= j < |s.ledger| ==>
      s.ledger[j].balanceAfter == SumBy(s.ledger[..j + 1], MovedAt(s.ledger[j].key))
  }

  /** A lot split off another one is of the same goods at the same cost. */
  predicate ChildOf(lot: Lot, parent: Lot) {
    lot.key.item == parent.key.item && lot.unitCost == parent.unitCost && lot.provenance == parent.provenance
    && lot.receivedAt == parent.receivedAt && lot.madeFor == parent.madeFor
  }

  predicate LineageOf(lots: seq<Lot>, lot: Lot) {
    lot.parent.Some? ==> lot.parent.value < |lots| && ChildOf(lot, lots[lot.parent.value])
  }

  ghost predicate Lineage(s: State) {
    forall i :: 0 <= i < |s.lots| ==> LineageOf(s.lots[..i], s.lots[i])
  }

  ghost predicate Consistent(s: State) {
    && RowsSane(s) && LotsHoldStock(s) && LedgerHoldsStock(s) && LotsBacked(s)
    && EntriesPlaced(s) && BalancesChain(s) && Lineage(s)
  }

  lemma EntriesAppend(s: State, t: State, e: Entry)
    requires EntriesPlaced(s) && t.ledger == s.ledger + [e] && |t.lots| >= |s.lots|
    requires forall i :: 0 <= i < |s.lots| ==>
      t.lots[i].key == s.lots[i].key && t.lots[i].unitCost == s.lots[i].unitCost
    requires e.lot < |t.lots| && e.key == t.lots[e.lot].key && e.unitCost == t.lots[e.lot].unitCost
    ensures EntriesPlaced(t)
  {
    forall j | 0 <= j < |t.ledger|
      ensures var x := t.ledger[j];
        x.lot < |t.lots| && x.key == t.lots[x.lot].key && x.unitCost == t.lots[x.lot].unitCost
    {
      if j < |s.ledger| { assert t.ledger[j] == s.ledger[j]; }
    }
  }

  lemma BalancesAppend(s: State, t: State, e: Entry)
    requires BalancesChain(s) && t.ledger == s.ledger + [e]
    requires e.balanceAfter == SumBy(s.ledger, MovedAt(e.key)) + e.quantity
    ensures BalancesChain(t)
  {
    SumByAppend(s.ledger, e, MovedAt(e.key));
    hide SumBy;
    forall j | 0 <= j < |t.ledger|
      ensures t.ledger[j].balanceAfter == SumBy(t.ledger[..j + 1], MovedAt(t.ledger[j].key))
    {
      if j < |s.ledger| {
        assert t.ledger[j] == s.ledger[j] && t.ledger[..j + 1] == s.ledger[..j + 1];
      } else {
        assert t.ledger[..j + 1] == t.ledger;
      }
    }
  }

  lemma LedgerAppend(s: State, t: State, e: Entry)
    requires EntriesPlaced(s) && BalancesChain(s)
    requires t.ledger == s.ledger + [e] && |t.lots| >= |s.lots|
    requires forall i :: 0 <= i < |s.lots| ==>
      t.lots[i].key == s.lots[i].key && t.lots[i].unitCost == s.lots[i].unitCost
    requires e.lot < |t.lots| && e.key == t.lots[e.lot].key && e.unitCost == t.lots[e.lot].unitCost
    requires e.balanceAfter == SumBy(s.ledger, MovedAt(e.key)) + e.quantity
    ensures EntriesPlaced(t) && BalancesChain(t)
  {
    hide EntriesPlaced, BalancesChain;
    EntriesAppend(s, t, e);
    BalancesAppend(s, t, e);
  }

  /** A key's stock follows its lots and its ledger rows when one of each is written. */
  lemma StockFollows(s: State, t: State, e: Entry)
    requires LotsHoldStock(s) && LedgerHoldsStock(s)
    requires t.rows == AddStock(s, e.key, e.quantity) && t.ledger == s.ledger + [e]
    requires forall k: Key :: SumBy(t.lots, HeldAt(k)) == SumBy(s.lots, HeldAt(k)) + if k == e.key then e.quantity else 0
    ensures LotsHoldStock(t) && LedgerHoldsStock(t)
  {
    forall k: Key ensures StockAt(t, k) == SumBy(t.lots, HeldAt(k)) && StockAt(t, k) == SumBy(t.ledger, MovedAt(k)) {
      SumByAppend(s.ledger, e, MovedAt(k));
      assert StockAt(s, k) == SumBy(s.lots, HeldAt(k)) == SumBy(s.ledger, MovedAt(k));
    }
  }

  lemma NoRowsYet(s: State, id: nat)
    requires EntriesPlaced(s) && id >= |s.lots|
    ensures SumBy(s.ledger, MovedIn(id)) == 0
  {
    forall x | x in s.ledger ensures MovedIn(id)(x) == 0 {
      var j :| 0 <= j < |s.ledger| && s.ledger[j] == x;
    }
    SumByZero(s.ledger, MovedIn(id));
  }

  /** A shorter table knows fewer lots, but the same ones. */
  lemma LineageKept(s: State, t: State, lot: Lot)
    requires Lineage(s) && LineageOf(s.lots, lot)
    requires |s.lots| <= |t.lots| <= |s.lots| + 1 && (|t.lots| > |s.lots| ==> t.lots[|s.lots|] == lot)
    requires forall i :: 0 <= i < |s.lots| ==> t.lots[i] == s.lots[i].(remaining := t.lots[i].remaining)
    ensures Lineage(t)
  {
    forall i | 0 <= i < |t.lots| ensures LineageOf(t.lots[..i], t.lots[i]) {
      if t.lots[i].parent.Some? {
        var p := t.lots[i].parent.value;
        if i < |s.lots| {
          assert LineageOf(s.lots[..i], s.lots[i]) && s.lots[..i][p] == s.lots[p];
        }
        assert t.lots[..i][p] == t.lots[p];
      }
    }
  }

  lemma AppendLotKeeps(s: State, lot: Lot, cause: LedgerRef)
    requires Consistent(s) && lot.remaining >= 0 && LineageOf(s.lots, lot)
    ensures Consistent(AppendLot(s, lot, cause))
  {
    var t := AppendLot(s, lot, cause);
    var e := t.ledger[|s.ledger|];
    assert StockAt(s, lot.key) == SumBy(s.ledger, MovedAt(lot.key));
    LedgerAppend(s, t, e);
    forall k: Key
      ensures SumBy(t.lots, HeldAt(k)) == SumBy(s.lots, HeldAt(k)) + if k == e.key then e.quantity else 0
    {
      SumByAppend(s.lots, lot, HeldAt(k));
    }
    StockFollows(s, t, e);
    forall i | 0 <= i < |t.lots| ensures t.lots[i].remaining >= 0 && t.lots[i].remaining == SumBy(t.ledger, MovedIn(i)) {
      SumByAppend(s.ledger, e, MovedIn(i));
      if i == |s.lots| { NoRowsYet(s, i); }
    }
    LineageKept(s, t, lot);
  }

  lemma ShiftLotKeeps(s: State, id: nat, delta: int, cause: LedgerRef)
    requires Consistent(s) && id < |s.lots|
    requires s.lots[id].remaining + delta >= 0
    requires Shelf(s, s.lots[id].key) + delta >= 0
    ensures Consistent(ShiftLot(s, id, delta, cause))
  {
    var t := ShiftLot(s, id, delta, cause);
    var key := s.lots[id].key;
    var e := t.ledger[|s.ledger|];
    assert StockAt(s, key) == SumBy(s.ledger, MovedAt(key));
    LedgerAppend(s, t, e);
    forall k: Key
      ensures SumBy(t.lots, HeldAt(k)) == SumBy(s.lots, HeldAt(k)) + if k == e.key then e.quantity else 0
    {
      SumByUpdate(s.lots, id, t.lots[id], HeldAt(k));
    }
    StockFollows(s, t, e);
    forall i | 0 <= i < |t.lots| ensures t.lots[i].remaining >= 0 && t.lots[i].remaining == SumBy(t.ledger, MovedIn(i)) {
      SumByAppend(s.ledger, e, MovedIn(i));
    }
    assert LineageOf(s.lots, s.lots[id].(parent := None));
    LineageKept(s, t, s.lots[id].(parent := None));
  }
}
