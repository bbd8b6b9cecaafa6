/** The stock service itself (src/modules/inventories/inventories.service.ts): the tables are its
    fields, and each primitive writes in the order the source does - the stock row first, then the
    lots, then the ledger rows in one go. Every method is proved to leave the tables as the function
    of the same name in StockOperations says, and to undo its own writes when it refuses. */
module InventoryService {
  import opened Common
  import opened LotAllocation
  import opened StockLedger
  import opened StockInvariants
  import Ops = StockOperations

  /** The tables after a call: those of an accepted one, else what they were. */
  function Settled(before: State, outcome: Result<State>): State {
    if outcome.Ok? then outcome.value else before
  }

  function Verdict(outcome: Result<State>): Result<()> {
    match outcome
    case Ok(_) => Ok(())
    case Err(e) => Err(e)
  }

  // ---------------------------------------------------------------- bulk writes against row-by-row ones

  function Signed(slices: seq<LotSlice>): (r: seq<int>)
    ensures |r| == |slices| && forall i :: 0 <= i < |r| ==> r[i] == -slices[i].quantity
  {
    seq(|slices|, i requires 0 <= i < |slices| => -slices[i].quantity)
  }

  function Quantities(slices: seq<LotSlice>): (r: seq<int>)
    ensures |r| == |slices| && forall i :: 0 <= i < |r| ==> r[i] == slices[i].quantity
  {
    seq(|slices|, i requires 0 <= i < |slices| => slices[i].quantity)
  }

  lemma {:induction false} SignedSum(slices: seq<LotSlice>, i: nat)
    requires i <= |slices|
    ensures SumBy(Signed(slices)[..i], Itself()) == -SumBy(slices[..i], Units())
    ensures SumBy(Quantities(slices)[..i], Itself()) == SumBy(slices[..i], Units())
  {
    if i > 0 {
      SignedSum(slices, i - 1);
      SumByPrefix(Signed(slices), i, Itself());
      SumByPrefix(Quantities(slices), i, Itself());
      SumByPrefix(slices, i, Units());
    }
  }

  lemma BalancesFall(slices: seq<LotSlice>, balances: seq<int>, high: int)
    requires |balances| == |slices|
    requires forall j :: 0 <= j < |slices| ==> balances[j] == high + SumBy(Signed(slices)[..j + 1], Itself())
    ensures forall j :: 0 <= j < |slices| ==> balances[j] == high - SumBy(slices[..j + 1], Units())
  {
    forall j | 0 <= j < |slices| ensures balances[j] == high - SumBy(slices[..j + 1], Units()) {
      SignedSum(slices, j + 1);
    }
  }

  lemma BalancesRise(slices: seq<LotSlice>, balances: seq<int>, low: int)
    requires |balances| == |slices|
    requires forall j :: 0 <= j < |slices| ==> balances[j] == low + SumBy(Quantities(slices)[..j + 1], Itself())
    ensures forall j :: 0 <= j < |slices| ==> balances[j] == low + SumBy(slices[..j + 1], Units())
  {
    forall j | 0 <= j < |slices| ensures balances[j] == low + SumBy(slices[..j + 1], Units()) {
      SignedSum(slices, j + 1);
    }
  }

  function DrawRow(k: Key, lots: seq<Lot>, slice: LotSlice, balance: int, cause: LedgerRef): Entry
    requires slice.lotId < |lots|
  {
    Entry(k, slice.lotId, -slice.quantity, balance, lots[slice.lotId].unitCost, cause)
  }

  /** The ledger rows of a draw, all at once, with the running balances computed beforehand. */
  function DrawRows(k: Key, lots: seq<Lot>, slices: seq<LotSlice>, balances: seq<int>, cause: LedgerRef): (r: seq<Entry>)
    requires Ops.Within(slices, |lots|) && |balances| == |slices|
    ensures |r| == |slices|
    ensures forall i :: 0 <= i < |r| ==>
      slices[i].lotId < |lots| && r[i] == DrawRow(k, lots, slices[i], balances[i], cause)
  {
    assert forall i :: 0 <= i < |slices| ==> slices[i] in slices;
    seq(|slices|, i requires 0 <= i < |slices| && slices[i].lotId < |lots| =>
      DrawRow(k, lots, slices[i], balances[i], cause))
  }

  lemma DrawOneMore(s: State, slices: seq<LotSlice>, cause: LedgerRef)
    requires Ops.Within(slices, |s.lots|) && slices != []
    ensures var last := slices[|slices| - 1];
      last.lotId < |s.lots|
      && Ops.DrawSlices(s, slices, cause)
           == ShiftLot(Ops.DrawSlices(s, slices[..|slices| - 1], cause), last.lotId, -last.quantity, cause)
  {
    assert slices[|slices| - 1] in slices;
  }

  ghost predicate SameLedger(s: State, k: Key, slices: seq<LotSlice>, balances: seq<int>, cause: LedgerRef)
    requires Ops.Within(slices, |s.lots|) && |balances| == |slices|
  {
    Ops.DrawSlices(s, slices, cause).ledger == s.ledger + DrawRows(k, s.lots, slices, balances, cause)
  }

  /** The row a draw writes for its last slice. */
  lemma LastRow(s: State, k: Key, slices: seq<LotSlice>, cause: LedgerRef)
    requires slices != [] && Fits(s.lots, k, slices) && k in s.rows
    requires Ops.Within(slices, |s.lots|) && Fits(s.lots, k, slices[..|slices| - 1])
    ensures slices[|slices| - 1].lotId < |s.lots| && Ops.Within(slices[..|slices| - 1], |s.lots|)
    ensures Ops.DrawSlices(s, slices, cause).ledger
         == Ops.DrawSlices(s, slices[..|slices| - 1], cause).ledger
            + [DrawRow(k, s.lots, slices[|slices| - 1], s.rows[k].stock - SumBy(slices, Units()), cause)]
  {
    LastFits(s.lots, k, slices);
    DrawSlicesEffect(s, k, slices[..|slices| - 1], cause);
    DrawOneMore(s, slices, cause);
    hide Ops.DrawSlices, Fits;
    var t := Ops.DrawSlices(s, slices[..|slices| - 1], cause);
    assert t.lots[slices[|slices| - 1].lotId].key == k;
  }

  /** The last slice adds the last row to both. */
  lemma SameLedgerStep(s: State, k: Key, slices: seq<LotSlice>, balances: seq<int>, cause: LedgerRef)
    requires slices != [] && Fits(s.lots, k, slices) && k in s.rows && |balances| == |slices|
    requires Ops.Within(slices, |s.lots|) && Fits(s.lots, k, slices[..|slices| - 1])
    requires balances[|slices| - 1] == s.rows[k].stock - SumBy(slices, Units())
    requires SameLedger(s, k, slices[..|slices| - 1], balances[..|slices| - 1], cause)
    ensures SameLedger(s, k, slices, balances, cause)
  {
    hide Ops.DrawSlices, Fits, DrawRows, DrawRow;
    var n := |slices| - 1;
    LastRow(s, k, slices, cause);
    DrawRowsSnoc(k, s.lots, slices, balances, cause);
    var rows := DrawRows(k, s.lots, slices[..n], balances[..n], cause);
    var e := DrawRow(k, s.lots, slices[n], balances[n], cause);
    assert (s.ledger + rows) + [e] == s.ledger + (rows + [e]);
  }

  /** Row by row or all at once, a draw writes the same ledger. */
  lemma {:induction false} DrawSameLedger(s: State, k: Key, slices: seq<LotSlice>, balances: seq<int>, cause: LedgerRef)
    requires Fits(s.lots, k, slices) && k in s.rows && |balances| == |slices| && Ops.Within(slices, |s.lots|)
    requires forall j :: 0 <= j < |slices| ==> balances[j] == s.rows[k].stock - SumBy(slices[..j + 1], Units())
    ensures SameLedger(s, k, slices, balances, cause)
  {
    if slices == [] {
      assert DrawRows(k, s.lots, slices, balances, cause) == [];
    } else {
      hide SameLedger, Fits;
      var n := |slices| - 1;
      var front := slices[..n];
      LastFits(s.lots, k, slices);
      forall j | 0 <= j < n ensures balances[..n][j] == s.rows[k].stock - SumBy(front[..j + 1], Units()) {
        assert front[..j + 1] == slices[..j + 1];
      }
      DrawSameLedger(s, k, front, balances[..n], cause);
      assert slices[..n + 1] == slices;
      SameLedgerStep(s, k, slices, balances, cause);
    }
  }

  lemma DrawRowsSnoc(k: Key, lots: seq<Lot>, slices: seq<LotSlice>, balances: seq<int>, cause: LedgerRef)
    requires slices != [] && Ops.Within(slices, |lots|) && Ops.Within(slices[..|slices| - 1], |lots|)
    requires |balances| == |slices| && slices[|slices| - 1].lotId < |lots|
    ensures var n := |slices| - 1;
      DrawRows(k, lots, slices, balances, cause)
        == DrawRows(k, lots, slices[..n], balances[..n], cause) + [DrawRow(k, lots, slices[n], balances[n], cause)]
  {
  }

  function Lowered(lots: seq<Lot>, slices: seq<LotSlice>): (r: seq<Lot>)
    ensures |r| == |lots|
    ensures forall i :: 0 <= i < |r| ==> r[i] == lots[i].(remaining := lots[i].remaining - TakenFrom(slices, i))
  {
    seq(|lots|, i requires 0 <= i < |lots| => lots[i].(remaining := lots[i].remaining - TakenFrom(slices, i)))
  }

  /** Lowering the row, the lots and writing the ledger in bulk is the draw, row by row. */
  lemma BulkIsDraw(s: State, k: Key, slices: seq<LotSlice>, balances: seq<int>, cause: LedgerRef)
    requires Fits(s.lots, k, slices) && k in s.rows && |balances| == |slices| && Ops.Within(slices, |s.lots|)
    requires forall j :: 0 <= j < |slices| ==> balances[j] == s.rows[k].stock - SumBy(slices[..j + 1], Units())
    ensures Ops.DrawSlices(s, slices, cause)
         == State(s.rows[k := s.rows[k].(stock := s.rows[k].stock - SumBy(slices, Units()))], Lowered(s.lots, slices),
                  s.ledger + DrawRows(k, s.lots, slices, balances, cause), s.lineCost)
  {
    hide Ops.DrawSlices, DrawRows, Fits, Lowered;
    DrawLowers(s, k, slices, cause);
    DrawSameLedger(s, k, slices, balances, cause);
  }

  lemma DrawLowers(s: State, k: Key, slices: seq<LotSlice>, cause: LedgerRef)
    requires Fits(s.lots, k, slices) && k in s.rows && Ops.Within(slices, |s.lots|)
    ensures Ops.DrawSlices(s, slices, cause).lots == Lowered(s.lots, slices)
    ensures Ops.DrawSlices(s, slices, cause).rows
         == s.rows[k := s.rows[k].(stock := s.rows[k].stock - SumBy(slices, Units()))]
    ensures Ops.DrawSlices(s, slices, cause).lineCost == s.lineCost
  {
    DrawSlicesEffect(s, k, slices, cause);
    hide Ops.DrawSlices, Fits;
    assert Ops.DrawSlices(s, slices, cause).lots == Lowered(s.lots, slices);
  }

  lemma LastFits(lots: seq<Lot>, k: Key, slices: seq<LotSlice>)
    requires Fits(lots, k, slices) && slices != []
    ensures Fits(lots, k, slices[..|slices| - 1])
    ensures Ops.Within(slices, |lots|) && Ops.Within(slices[..|slices| - 1], |lots|)
    ensures slices[|slices| - 1].lotId < |lots| && lots[slices[|slices| - 1].lotId].key == k
  {
    assert slices[|slices| - 1] in slices;
    FitsPrefix(lots, k, slices);
  }

  /** What one returned slice does to the stock rows and lots. */
  lemma SliceRows(t: State, slice: LotSlice, k: Key, cause: LedgerRef)
    requires slice.lotId < |t.lots| && t.lots[slice.lotId].key.item == k.item
    ensures var u := Ops.ReturnSlice(t, slice, k.location, cause);
      && u.rows == AddStock(t, k, slice.quantity) && LotsOf(t, u) && u.lineCost == t.lineCost
  {}

  lemma StockAdded(s: State, t: State, k: Key, a: int, b: int)
    requires t.rows == AddStock(s, k, a)
    ensures StockAt(t, k) == StockAt(s, k) + a
    ensures AddStock(t, k, b) == AddStock(s, k, a + b)
  {}

  /** What returned slices do to the stock rows: the arrival key grows by their units. */
  lemma {:induction false} ReturnSlicesRows(s: State, slices: seq<LotSlice>, k: Key, cause: LedgerRef)
    requires Ops.Within(slices, |s.lots|)
    requires forall x :: x in slices ==> s.lots[x.lotId].key.item == k.item
    ensures StockAt(Ops.ReturnSlices(s, slices, k.location, cause), k) == StockAt(s, k) + SumBy(slices, Units())
    ensures slices != [] ==>
      Ops.ReturnSlices(s, slices, k.location, cause).rows == AddStock(s, k, SumBy(slices, Units()))
    ensures LotsOf(s, Ops.ReturnSlices(s, slices, k.location, cause))
    ensures Ops.ReturnSlices(s, slices, k.location, cause).lineCost == s.lineCost
  {
    if slices != [] {
      var front, last := slices[..|slices| - 1], slices[|slices| - 1];
      assert last in slices;
      ReturnSlicesRows(s, front, k, cause);
      hide AddStock, Ops.ReturnSlice;
      var t := Ops.ReturnSlices(s, front, k.location, cause);
      var u := Ops.ReturnSlice(t, last, k.location, cause);
      assert t.lots[last.lotId].key == s.lots[last.lotId].key;
      assert SumBy(slices, Units()) == SumBy(front, Units()) + last.quantity;
      assert Ops.ReturnSlices(s, slices, k.location, cause) == u;
      SliceRows(t, last, k, cause);
      StockAdded(t, u, k, last.quantity, 0);
      if front != [] { StockAdded(s, t, k, SumBy(front, Units()), last.quantity); }
    }
  }

  ghost predicate LotsOf(s: State, t: State) {
    |s.lots| <= |t.lots| && forall i :: 0 <= i < |s.lots| ==> t.lots[i] == s.lots[i].(remaining := t.lots[i].remaining)
  }

  datatype LockedLine = LockedLine(row: StockRow, quantity: int)

  /** One answer per line, with the quantity locked. */
  predicate LockedAll(lines: seq<Ops.LockLine>, locked: seq<LockedLine>) {
    |locked| == |lines| && forall i :: 0 <= i < |lines| ==> locked[i].quantity == lines[i].quantity
  }

  lemma LockOneMore(s: State, lines: seq<Ops.LockLine>, n: nat)
    requires n < |lines|
    ensures var (t, short) := Ops.LockEach(s, lines[..n]);
      var l := lines[n];
      Ops.LockEach(s, lines[..n + 1])
        == if Ops.CanTake(t, l.key, l.quantity) then (Ops.Relock(t, l.key, l.quantity), short)
           else (t, short + [Ops.ShortLine(l.key, l.quantity, Shelf(t, l.key))])
  {
    assert lines[..n + 1][..n] == lines[..n];
  }

  lemma EmptyLock(s: State)
    ensures Ops.LockEach(s, []) == (s, [])
  {}

  lemma EmptyReturn(s: State, location: Id, cause: LedgerRef)
    ensures Ops.ReturnSlices(s, [], location, cause) == s
  {}

  /** The lots once a returned slice has landed: back in its lot, or in a child of it. */
  function LandedLots(lots: seq<Lot>, slice: LotSlice, location: Id): seq<Lot>
    requires slice.lotId < |lots|
  {
    var origin := lots[slice.lotId];
    if origin.key.location == location then
      lots[slice.lotId := origin.(remaining := origin.remaining + slice.quantity)]
    else
      lots + [origin.(key := Key(location, origin.key.item), remaining := slice.quantity,
                      received := slice.quantity, parent := Some(slice.lotId))]
  }

  function LandedIn(lots: seq<Lot>, slice: LotSlice, location: Id): nat
    requires slice.lotId < |lots|
  {
    if lots[slice.lotId].key.location == location then slice.lotId else |lots|
  }

  lemma LandedSlice(t: State, slice: LotSlice, k: Key, cause: LedgerRef)
    requires slice.lotId < |t.lots| && t.lots[slice.lotId].key.item == k.item
    ensures var u := Ops.ReturnSlice(t, slice, k.location, cause);
      && u.lots == LandedLots(t.lots, slice, k.location)
      && u.ledger == t.ledger + [Entry(k, LandedIn(t.lots, slice, k.location), slice.quantity,
                                       StockAt(t, k) + slice.quantity, t.lots[slice.lotId].unitCost, cause)]
  {}

  /** The row one more returned slice writes, and the lot it lands in. */
  lemma ReturnedRowOf(s: State, slices: seq<LotSlice>, k: Key, cause: LedgerRef, n: nat)
    requires n < |slices| && Ops.Within(slices, |s.lots|) && Ops.Within(slices[..n], |s.lots|)
    requires Ops.Within(slices[..n + 1], |s.lots|) && slices[n].lotId < |s.lots|
    requires forall x :: x in slices ==> s.lots[x.lotId].key.item == k.item
    ensures var t := Ops.ReturnSlices(s, slices[..n], k.location, cause);
      var u := Ops.ReturnSlices(s, slices[..n + 1], k.location, cause);
      && u.lots == LandedLots(t.lots, slices[n], k.location)
      && u.ledger == t.ledger + [Entry(k, LandedIn(t.lots, slices[n], k.location), slices[n].quantity,
                                       StockAt(s, k) + SumBy(slices[..n + 1], Units()), t.lots[slices[n].lotId].unitCost, cause)]
  {
    hide Ops.ReturnSlices, Ops.ReturnSlice, LandedLots, LandedIn, SumBy, AddStock;
    assert slices[n] in slices;
    assert forall x :: x in slices[..n] ==> x in slices;
    ReturnOneMore(s, slices, k.location, cause, n);
    ReturnSlicesRows(s, slices[..n], k, cause);
    SumByPrefix(slices, n + 1, Units());
    var t := Ops.ReturnSlices(s, slices[..n], k.location, cause);
    assert t.lots[slices[n].lotId].key.item == k.item;
    LandedSlice(t, slices[n], k, cause);
  }

  lemma ReturnOneMore(s: State, slices: seq<LotSlice>, location: Id, cause: LedgerRef, n: nat)
    requires n < |slices| && Ops.Within(slices, |s.lots|)
    ensures Ops.Within(slices[..n], |s.lots|) && Ops.Within(slices[..n + 1], |s.lots|) && slices[n].lotId < |s.lots|
    ensures Ops.ReturnSlices(s, slices[..n + 1], location, cause)
         == Ops.ReturnSlice(Ops.ReturnSlices(s, slices[..n], location, cause), slices[n], location, cause)
  {
    assert slices[n] in slices;
    assert slices[..n + 1][..n] == slices[..n];
  }

  /** What was taken from each lot, by the ledger rows of the document. */
  ghost predicate Tallied(ledger: seq<Entry>, item: Id, doc: Ops.Document, taken: map<nat, int>) {
    forall id :: id in taken ==> taken[id] == SumBy(ledger, Ops.DrawnRow(item, doc, id))
  }

  lemma NothingTallied(ledger: seq<Entry>, item: Id, doc: Ops.Document)
    ensures Tallied(ledger, item, doc, map[])
  {}

  lemma TalliedMeans(ledger: seq<Entry>, item: Id, doc: Ops.Document, taken: map<nat, int>)
    requires Tallied(ledger, item, doc, taken)
    ensures forall id :: id in taken ==> taken[id] == SumBy(ledger, Ops.DrawnRow(item, doc, id))
  {}

  lemma TallyOneMore(ledger: seq<Entry>, n: nat, item: Id, doc: Ops.Document, taken: map<nat, int>)
    requires n < |ledger| && Tallied(ledger[..n], item, doc, taken)
    requires forall id :: id in Ops.OriginLots(ledger[..n], item, doc) <==> id in taken
    ensures var e := ledger[n];
      Tallied(ledger[..n + 1], item, doc,
              if !Ops.Outbound(e, item, doc) then taken
              else taken[e.lot := (if e.lot in taken then taken[e.lot] else 0) - e.quantity])
  {
    hide Ops.OriginLots;
    var e := ledger[n];
    forall id ensures SumBy(ledger[..n + 1], Ops.DrawnRow(item, doc, id))
      == SumBy(ledger[..n], Ops.DrawnRow(item, doc, id)) + Ops.DrawnRow(item, doc, id)(e)
    {
      SumByPrefix(ledger, n + 1, Ops.DrawnRow(item, doc, id));
    }
    if Ops.Outbound(e, item, doc) && e.lot !in taken { NothingDrawnYet(ledger[..n], item, doc, e.lot); }
  }

  class Service {
    var rows: map<Key, StockRow>
    var lots: seq<Lot>
    var ledger: seq<Entry>
    var lineCost: map<Id, Option<int>>

    function Tables(): State
      reads this
    {
      State(rows, lots, ledger, lineCost)
    }

    ghost predicate Valid()
      reads this
    {
      Consistent(Tables())
    }

    constructor ()
      ensures Valid() && Tables() == EMPTY
    {
      rows, lots, ledger, lineCost := map[], [], [], map[];
    }

    /** What the database does when a transaction that already wrote is refused. */
    method RollBack(saved: State)
      requires Consistent(saved)
      modifies this
      ensures Valid() && Tables() == saved
    {
      rows, lots, ledger, lineCost := saved.rows, saved.lots, saved.ledger, saved.lineCost;
    }

    /** Raise the stock, creating the row when the location has none of the item yet. */
    method IncrementStock(k: Key, quantity: int)
      modifies this`rows
      ensures rows == AddStock(old(Tables()), k, quantity)
    {
      if k in rows {
        rows := rows[k := StockRow(rows[k].stock + quantity, rows[k].locked)];
      } else {
        rows := rows[k := StockRow(quantity, 0)];
      }
    }

    method OpenLot(r: Ops.Receipt) returns (result: Result<nat>)
      requires Valid()
      modifies this
      ensures Valid() && Tables() == Settled(old(Tables()), Ops.OpenLot(old(Tables()), r))
      ensures result == if r.quantity <= 0 then Err(QuantityMustBePositive) else Ok(|old(lots)|)
    {
      hide Consistent;
      if r.quantity <= 0 { return Err(QuantityMustBePositive); }
      ghost var before := Tables();
      AppendLotKeeps(before, Ops.NewLot(r), r.cause);
      IncrementStock(r.key, r.quantity);
      var id := |lots|;
      lots := lots + [Lot(r.key, r.quantity, r.quantity, r.receivedAt, r.unitCost, r.provenance, r.madeFor, None)];
      ledger := ledger + [Entry(r.key, id, r.quantity, rows[r.key].stock, r.unitCost, r.cause)];
      assert Tables() == AppendLot(before, Ops.NewLot(r), r.cause);
      return Ok(id);
    }

    method RefreshLineCost(line: Id)
      modifies this`lineCost
      ensures lineCost == old(lineCost)[line := AverageCost(Ops.SaleRows(ledger, line))]
    {
      var cost := AverageUnitCost(Ops.SaleRows(ledger, line));
      lineCost := lineCost[line := cost];
    }

    /** Draw `quantity` from the lots once the stock row is already lowered to `stockAfter`. */
    method DrawLots(k: Key, quantity: int, stockAfter: int, cause: LedgerRef, ghost before: State) returns (ok: bool)
      requires Consistent(before) && quantity > 0 && k in before.rows
      requires lots == before.lots && ledger == before.ledger && lineCost == before.lineCost
      requires rows == before.rows[k := before.rows[k].(stock := before.rows[k].stock - quantity)]
      requires stockAfter == rows[k].stock
      modifies this`lots, this`ledger, this`lineCost
      ensures ok <==> Ops.Draw(before, k, quantity, cause).Ok?
      ensures ok ==> Tables() == Ops.Draw(before, k, quantity, cause).value
      ensures !ok ==> lots == before.lots && ledger == before.ledger && lineCost == before.lineCost
    {
      hide Ops.QueryLots, DrawPlan, Ops.SaleRows, AverageCost, Fits, Ops.DrawSlices, Consistent;
      var plan := PlanDraw(Ops.QueryLots(lots, k, cause.line), quantity, cause.line);
      if plan == None { return false; }
      PlanFits(before, k, quantity, cause.line);
      Ops.QueryPlanWithin(before.lots, k, quantity, cause.line);
      WriteDraw(k, plan.value, quantity, stockAfter, cause, before);
      if cause.tx == Sale && cause.line.Some? { RefreshLineCost(cause.line.value); }
      return true;
    }

    /** Lower the lots slice by slice, then write all the ledger rows. */
    method WriteDraw(k: Key, slices: seq<LotSlice>, quantity: int, stockAfter: int, cause: LedgerRef, ghost before: State)
      requires Fits(before.lots, k, slices) && k in before.rows && Ops.Within(slices, |before.lots|)
      requires SumBy(slices, Units()) == quantity
      requires Tables() == before.(rows := before.rows[k := before.rows[k].(stock := before.rows[k].stock - quantity)])
      requires stockAfter == before.rows[k].stock - quantity
      modifies this`lots, this`ledger
      ensures Tables() == Ops.DrawSlices(before, slices, cause)
    {
      hide Fits, Ops.DrawSlices, DrawRows, DrawRow, Units, Lowered, Ops.Within;
      var balances := RunningBalances(stockAfter + quantity, Signed(slices));
      BalancesFall(slices, balances, stockAfter + quantity);
      var drawn := DrawRows(k, lots, slices, balances, cause);
      LowerLots(slices);
      ledger := ledger + drawn;
      BulkIsDraw(before, k, slices, balances, cause);
    }

    method LowerLots(slices: seq<LotSlice>)
      requires Ops.Within(slices, |lots|)
      modifies this`lots
      ensures lots == Lowered(old(lots), slices)
    {
      ghost var was := lots;
      for n := 0 to |slices|
        invariant |lots| == |was|
        invariant forall i :: 0 <= i < |lots| ==>
          lots[i] == was[i].(remaining := was[i].remaining - TakenFrom(slices[..n], i))
      {
        var slice := slices[n];
        assert slice in slices;
        forall i | 0 <= i < |lots| ensures TakenFrom(slices[..n + 1], i) == TakenFrom(slices[..n], i) + UnitsOf(i)(slice) {
          SumByPrefix(slices, n + 1, UnitsOf(i));
        }
        lots := lots[slice.lotId := lots[slice.lotId].(remaining := lots[slice.lotId].remaining - slice.quantity)];
      }
      assert slices[..|slices|] == slices;
    }

    method DeductStock(k: Key, quantity: int, cause: LedgerRef) returns (result: Result<()>)
      requires Valid()
      modifies this
      ensures Valid() && Tables() == Settled(old(Tables()), Ops.DeductStock(old(Tables()), k, quantity, cause))
      ensures result == Verdict(Ops.DeductStock(old(Tables()), k, quantity, cause))
    {
      if quantity <= 0 { return Err(QuantityMustBePositive); }
      if k !in rows || rows[k].stock - rows[k].locked < quantity { return Err(InsufficientStock); }
      ghost var before := Tables();
      var saved := rows;
      rows := rows[k := rows[k].(stock := rows[k].stock - quantity)];
      var ok := DrawLots(k, quantity, rows[k].stock, cause, before);
      if !ok {
        rows := saved;
        return Err(InventoryLotShortage);
      }
      DeductKeeps(before, k, quantity, cause);
      return Ok(());
    }

    method LockStock(lines: seq<Ops.LockLine>) returns (result: Result<seq<LockedLine>>, short: seq<Ops.ShortLine>)
      requires Valid()
      modifies this`rows
      ensures Valid() && Tables() == Settled(old(Tables()), Ops.LockStock(old(Tables()), lines))
      ensures match Ops.LockStock(old(Tables()), lines)
        case Err(e) => result == Err(e)
        case Ok(_) => result.Ok? && LockedAll(lines, result.value)
      ensures result == Err(InsufficientStock) ==> short == Ops.LockEach(old(Tables()), lines).1
    {
      hide Consistent, Ops.LockEach;
      ghost var before := Tables();
      EmptyLock(before);
      var saved := rows;
      var locked: seq<LockedLine> := [];
      short := [];
      for n := 0 to |lines|
        invariant Tables() == Ops.LockEach(before, lines[..n]).0 && short == Ops.LockEach(before, lines[..n]).1
        invariant Ops.AllPositive(lines[..n])
        invariant short == [] ==> LockedAll(lines[..n], locked)
      {
        var line := lines[n];
        if line.quantity <= 0 {
          rows := saved;
          assert line in lines;
          return Err(QuantityMustBePositive), [];
        }
        LockOneMore(before, lines, n);
        assert lines[..n + 1] == lines[..n] + [line];
        if line.key in rows && rows[line.key].stock - rows[line.key].locked >= line.quantity {
          rows := rows[line.key := rows[line.key].(locked := rows[line.key].locked + line.quantity)];
          locked := locked + [LockedLine(rows[line.key], line.quantity)];
        } else {
          var onShelf := if line.key in rows then rows[line.key].stock - rows[line.key].locked else 0;
          short := short + [Ops.ShortLine(line.key, line.quantity, onShelf)];
        }
      }
      assert lines[..|lines|] == lines;
      if short != [] {
        rows := saved;
        return Err(InsufficientStock), short;
      }
      LockEachKeeps(before, lines);
      return Ok(locked), [];
    }

    method ShipLockedStock(k: Key, quantity: int, cause: LedgerRef) returns (result: Result<()>)
      requires Valid()
      modifies this
      ensures Valid() && Tables() == Settled(old(Tables()), Ops.ShipLockedStock(old(Tables()), k, quantity, cause))
      ensures result == Verdict(Ops.ShipLockedStock(old(Tables()), k, quantity, cause))
    {
      if quantity <= 0 { return Err(QuantityMustBePositive); }
      if k !in rows || rows[k].locked < quantity { return Err(InventoryLockMismatch); }
      ghost var before := Tables();
      var saved := rows;
      rows := rows[k := StockRow(rows[k].stock - quantity, rows[k].locked - quantity)];
      RelockKeeps(before, k, -quantity);
      var ok := DrawLots(k, quantity, rows[k].stock, cause, Ops.Relock(before, k, -quantity));
      if !ok {
        rows := saved;
        return Err(InventoryLotShortage);
      }
      ShipKeeps(before, k, quantity, cause);
      return Ok(());
    }

    method ReleaseLockedStock(k: Key, quantity: int) returns (result: Result<()>)
      requires Valid()
      modifies this`rows
      ensures Valid() && Tables() == Settled(old(Tables()), Ops.ReleaseLockedStock(old(Tables()), k, quantity))
      ensures result == Verdict(Ops.ReleaseLockedStock(old(Tables()), k, quantity))
    {
      if quantity <= 0 { return Err(QuantityMustBePositive); }
      if k !in rows || rows[k].locked < quantity { return Err(InventoryLockMismatch); }
      RelockKeeps(Tables(), k, -quantity);
      rows := rows[k := rows[k].(locked := rows[k].locked - quantity)];
      return Ok(());
    }

    /** The lots the document drew from, in order, and how much from each. */
    method TallyTaken(item: Id, doc: Ops.Document) returns (order: seq<nat>, taken: map<nat, int>)
      ensures order == Ops.OriginLots(ledger, item, doc)
      ensures forall id :: id in order <==> id in taken
      ensures forall id :: id in taken ==> taken[id] == SumBy(ledger, Ops.DrawnRow(item, doc, id))
    {
      hide Ops.OriginLots, Tallied;
      order, taken := [], map[];
      NoOrigins(item, doc);
      assert Tallied(ledger[..0], item, doc, taken) by { NothingTallied(ledger[..0], item, doc); }
      for n := 0 to |ledger|
        invariant order == Ops.OriginLots(ledger[..n], item, doc)
        invariant forall id :: id in order <==> id in taken
        invariant Tallied(ledger[..n], item, doc, taken)
      {
        var e := ledger[n];
        OriginOneMore(ledger, item, doc, n);
        TallyOneMore(ledger, n, item, doc, taken);
        if Ops.Outbound(e, item, doc) {
          taken := taken[e.lot := (if e.lot in taken then taken[e.lot] else 0) - e.quantity];
          if e.lot !in order { order := order + [e.lot]; }
        }
      }
      assert ledger[..|ledger|] == ledger;
      TalliedMeans(ledger, item, doc, taken);
    }

    /** What already came back to each of those lots. */
    method TallyBack(item: Id, doc: Ops.Document, order: seq<nat>, lotsTaken: set<nat>) returns (back: map<nat, int>)
      ensures back.Keys == lotsTaken
      ensures forall id :: id in back ==> back[id] == SumBy(ledger, Ops.ReturnedRow(lots, order, item, doc, id))
    {
      back := map id | id in lotsTaken :: 0;
      for n := 0 to |ledger|
        invariant back.Keys == lotsTaken
        invariant forall id :: id in back ==> back[id] == SumBy(ledger[..n], Ops.ReturnedRow(lots, order, item, doc, id))
      {
        var e := ledger[n];
        forall id ensures SumBy(ledger[..n + 1], Ops.ReturnedRow(lots, order, item, doc, id))
          == SumBy(ledger[..n], Ops.ReturnedRow(lots, order, item, doc, id)) + Ops.ReturnedRow(lots, order, item, doc, id)(e)
        {
          SumByPrefix(ledger, n + 1, Ops.ReturnedRow(lots, order, item, doc, id));
        }
        if Ops.Inbound(e, item, doc) {
          var origin := Ops.Origin(lots, order, e.lot);
          if origin.Some? && origin.value in back {
            back := back[origin.value := back[origin.value] + e.quantity];
          }
        }
      }
      assert ledger[..|ledger|] == ledger;
    }

    method TallyDrawn(item: Id, doc: Ops.Document) returns (drawn: seq<DrawnLot>)
      ensures drawn == Ops.DrawnLots(Tables(), item, doc)
    {
      var order, taken := TallyTaken(item, doc);
      var back := TallyBack(item, doc, order, taken.Keys);
      assert forall i :: 0 <= i < |order| ==> order[i] in order;
      drawn := seq(|order|, i requires 0 <= i < |order| => DrawnLot(order[i], taken[order[i]], back[order[i]]));
    }

    method ReturnDrawn(r: Ops.Return) returns (result: Result<()>)
      requires Valid()
      modifies this
      ensures Valid() && Tables() == Settled(old(Tables()), Ops.ReturnDrawn(old(Tables()), r))
      ensures result == Verdict(Ops.ReturnDrawn(old(Tables()), r))
    {
      hide Greedy, Unmet, Ops.OriginLots;
      if r.quantity <= 0 { return Err(QuantityMustBePositive); }
      ghost var before := Tables();
      var cause := Ops.ReturnCause(r);
      var drawn := TallyDrawn(r.item, r.drawnBy);
      if drawn == [] && r.ifNeverDrawn.Some? {
        var _ := OpenLot(Ops.OpeningReceipt(r));
        return Ok(());
      }
      var plan := PlanReturn(drawn, r.quantity);
      if plan == None { return Err(InventoryLotShortage); }
      var slices := plan.value;
      Ops.ReturnPlanWithin(before, r);
      GreedyTotals(ReturnOffers(drawn), r.quantity);
      WriteReturn(slices, Key(r.location, r.item), r.quantity, cause);
      if cause.tx == SaleReversal && cause.line.Some? { RefreshLineCost(cause.line.value); }
      ReturnKeeps(before, r);
      return Ok(());
    }

    /** One returned slice: back into its own lot, or into a new lot split off from it. */
    method LandSlice(slice: LotSlice, location: Id) returns (lotId: nat)
      requires slice.lotId < |lots|
      modifies this`lots
      ensures lots == LandedLots(old(lots), slice, location) && lotId == LandedIn(old(lots), slice, location)
    {
      var origin := lots[slice.lotId];
      lotId := slice.lotId;
      if origin.key.location == location {
        lots := lots[lotId := origin.(remaining := origin.remaining + slice.quantity)];
      } else {
        lotId := |lots|;
        lots := lots + [origin.(key := Key(location, origin.key.item), remaining := slice.quantity,
                                received := slice.quantity, parent := Some(slice.lotId))];
      }
    }

    /** Land every slice, collecting the ledger rows. */
    method LandAll(slices: seq<LotSlice>, k: Key, balances: seq<int>, cause: LedgerRef, ghost before: State)
      returns (added: seq<Entry>)
      requires Ops.Within(slices, |before.lots|) && |balances| == |slices| && lots == before.lots
      requires forall x :: x in slices ==> before.lots[x.lotId].key.item == k.item
      requires forall j :: 0 <= j < |slices| ==> balances[j] == StockAt(before, k) + SumBy(slices[..j + 1], Units())
      modifies this`lots
      ensures lots == Ops.ReturnSlices(before, slices, k.location, cause).lots
      ensures before.ledger + added == Ops.ReturnSlices(before, slices, k.location, cause).ledger
    {
      hide Ops.ReturnSlices, LandedLots, LandedIn, Units;
      EmptyReturn(before, k.location, cause);
      added := [];
      for n := 0 to |slices|
        invariant Ops.Within(slices[..n], |before.lots|)
        invariant lots == Ops.ReturnSlices(before, slices[..n], k.location, cause).lots
        invariant before.ledger + added == Ops.ReturnSlices(before, slices[..n], k.location, cause).ledger
      {
        var slice := slices[n];
        ReturnOneMore(before, slices, k.location, cause, n);
        ReturnedRowOf(before, slices, k, cause, n);
        hide Ops.Within;
        var unitCost := lots[slice.lotId].unitCost;
        var lotId := LandSlice(slice, k.location);
        var e := Entry(k, lotId, slice.quantity, balances[n], unitCost, cause);
        assert before.ledger + (added + [e]) == (before.ledger + added) + [e];
        added := added + [e];
      }
      assert slices[..|slices|] == slices;
    }

    /** Raise the stock once, then give each slice back to its lot or to a child of it. */
    method WriteReturn(slices: seq<LotSlice>, k: Key, quantity: int, cause: LedgerRef)
      requires Ops.Within(slices, |lots|) && SumBy(slices, Units()) == quantity > 0
      requires forall x :: x in slices ==> lots[x.lotId].key.item == k.item
      modifies this`rows, this`lots, this`ledger
      ensures Tables() == Ops.ReturnSlices(old(Tables()), slices, k.location, cause)
    {
      hide Ops.ReturnSlices, Ops.Within;
      ghost var before := Tables();
      IncrementStock(k, quantity);
      var balances := RunningBalances(rows[k].stock - quantity, Quantities(slices));
      BalancesRise(slices, balances, rows[k].stock - quantity);
      ReturnSlicesRows(before, slices, k, cause);
      var added := LandAll(slices, k, balances, cause, before);
      ledger := ledger + added;
    }
  }

  lemma NoOrigins(item: Id, doc: Ops.Document)
    ensures Ops.OriginLots([], item, doc) == []
  {}

  lemma OriginOneMore(ledger: seq<Entry>, item: Id, doc: Ops.Document, n: nat)
    requires n < |ledger|
    ensures var rest := Ops.OriginLots(ledger[..n], item, doc);
      Ops.OriginLots(ledger[..n + 1], item, doc)
        == if Ops.Outbound(ledger[n], item, doc) && ledger[n].lot !in rest then rest + [ledger[n].lot] else rest
  {
    assert ledger[..n + 1][..n] == ledger[..n] && ledger[..n + 1][n] == ledger[n];
  }

  lemma NothingDrawnYet(ledger: seq<Entry>, item: Id, doc: Ops.Document, lot: nat)
    requires lot !in Ops.OriginLots(ledger, item, doc)
    ensures SumBy(ledger, Ops.DrawnRow(item, doc, lot)) == 0
  {
    forall e | e in ledger ensures Ops.DrawnRow(item, doc, lot)(e) == 0 {
      var j :| 0 <= j < |ledger| && ledger[j] == e;
      assert !(Ops.Outbound(ledger[j], item, doc) && ledger[j].lot == lot);
    }
    SumByZero(ledger, Ops.DrawnRow(item, doc, lot));
  }
}
