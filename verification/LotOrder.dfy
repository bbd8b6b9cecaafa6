/** Which lots a sale or a shipment takes, told on the lot table alone: what was made for the order line
    first, then what is open to everybody, oldest first; and what that leaves. */
module LotOrder {
  import opened Common
  import opened LotAllocation
  import opened StockLedger
  import opened StockOperations
  import opened StockInvariants
  import opened ReturnTrail

  predicate MadeFor(lot: Lot, line: Option<Id>) { line.Some? && lot.madeFor == line }

  /** Lot `i` is to be taken before lot `j`: made for the line when `j` is open to everybody, or both are
      open and `i` came earlier - on the same day, was written earlier. */
  predicate TakenBefore(lots: seq<Lot>, i: nat, j: nat, line: Option<Id>)
    requires i < |lots| && j < |lots|
  {
    && lots[i].key == lots[j].key && lots[j].madeFor == None
    && (MadeFor(lots[i], line)
        || (lots[i].madeFor == None
            && (lots[i].receivedAt < lots[j].receivedAt || (lots[i].receivedAt == lots[j].receivedAt && i < j))))
  }

  predicate Fell(s: State, t: State, j: nat)
    requires j < |s.lots| && j < |t.lots|
  {
    t.lots[j].remaining < s.lots[j].remaining
  }

  /** Only lots at the key, open to everybody or made for the line, give anything, nothing of a lot changes
      but what is left in it, and a lot gives something only once those to be taken before it are empty. */
  ghost predicate InOrder(s: State, t: State, k: Key, line: Option<Id>) {
    && |t.lots| == |s.lots|
    && (forall j :: 0 <= j < |s.lots| ==>
          t.lots[j] == s.lots[j].(remaining := t.lots[j].remaining) && 0 <= t.lots[j].remaining <= s.lots[j].remaining)
    && (forall j :: 0 <= j < |s.lots| && Fell(s, t, j) ==>
          s.lots[j].key == k && (s.lots[j].madeFor == None || MadeFor(s.lots[j], line)))
    && (forall i, j :: 0 <= i < |s.lots| && 0 <= j < |s.lots| && Fell(s, t, j) && TakenBefore(s.lots, i, j, line) ==>
          t.lots[i].remaining == 0)
  }

  /** The goods that went: so many of the key and of nothing else, each row under the one cause. */
  ghost predicate Took(s: State, t: State, k: Key, quantity: int, cause: LedgerRef) {
    && (forall x: Key :: StockAt(t, x) == StockAt(s, x) - if x == k then quantity else 0)
    && Grows(s, t, cause) && OnlyOut(s, t)
    && (forall j :: |s.ledger| <= j < |t.ledger| ==> t.ledger[j].key == k)
  }

  // ---------------------------------------------------------------- one draw

  /** Every lot the line may draw from is among those looked at. */
  lemma {:induction false} Queried(lots: seq<Lot>, k: Key, line: Option<Id>, i: nat)
    requires i < |lots| && OpenTo(lots[i], k, line) && lots[i].remaining > 0
    ensures DrawableOf(lots, i) in QueryLots(lots, k, line)
  {
    if i < |lots| - 1 { Queried(lots[..|lots| - 1], k, line, i); }
  }

  lemma SomeSlice(slices: seq<LotSlice>, lot: nat)
    requires TakenFrom(slices, lot) != 0
    ensures exists x :: x in slices && x.lotId == lot
  {
    if forall x :: x in slices ==> x.lotId != lot { SumByZero(slices, UnitsOf(lot)); }
  }

  /** A lot that gives something was looked at, as it stands in the table. */
  lemma GiverQueried(s: State, k: Key, quantity: int, line: Option<Id>, j: nat) returns (b: nat)
    requires DrawPlan(QueryLots(s.lots, k, line), quantity, line).Some?
    requires TakenFrom(DrawPlan(QueryLots(s.lots, k, line), quantity, line).value, j) != 0
    ensures j < |s.lots| && OpenTo(s.lots[j], k, line)
    ensures var lots := QueryLots(s.lots, k, line);
      b < |lots| && lots[b] == DrawableOf(s.lots, j)
  {
    hide QueryLots, DrawPlan;
    var lots := QueryLots(s.lots, k, line);
    var slices := DrawPlan(lots, quantity, line).value;
    SomeSlice(slices, j);
    var x :| x in slices && x.lotId == j;
    DrawPlanSlices(lots, quantity, line);
    var l :| l in lots && l.id == j;
    b :| 0 <= b < |lots| && lots[b] == l;
  }

  /** The lots to be taken first give all they have. */
  lemma FirstDrained(s: State, k: Key, quantity: int, line: Option<Id>, i: nat, j: nat)
    requires i < |s.lots| && j < |s.lots| && s.lots[i].remaining >= 0
    requires DrawPlan(QueryLots(s.lots, k, line), quantity, line).Some?
    requires TakenBefore(s.lots, i, j, line)
    requires TakenFrom(DrawPlan(QueryLots(s.lots, k, line), quantity, line).value, j) > 0
    requires TakenFrom(DrawPlan(QueryLots(s.lots, k, line), quantity, line).value, i) <= s.lots[i].remaining
    requires TakenFrom(DrawPlan(QueryLots(s.lots, k, line), quantity, line).value, i) >= 0
    ensures TakenFrom(DrawPlan(QueryLots(s.lots, k, line), quantity, line).value, i) == s.lots[i].remaining
  {
    hide QueryLots, DrawPlan;
    var lots := QueryLots(s.lots, k, line);
    var b := GiverQueried(s, k, quantity, line, j);
    if s.lots[i].remaining > 0 {
      Queried(s.lots, k, line, i);
      var a :| 0 <= a < |lots| && lots[a] == DrawableOf(s.lots, i);
      OldestFirst(lots, quantity, line, a, b);
    }
  }

  lemma {:induction false} TakenNonNegative(slices: seq<LotSlice>, lot: nat)
    requires forall x :: x in slices ==> x.quantity > 0
    ensures TakenFrom(slices, lot) >= 0
  {
    SumByNonNegative(slices, UnitsOf(lot));
  }

  /** What a draw leaves in each lot, by the slices of its plan. */
  lemma DrawLeavesLots(s: State, k: Key, quantity: int, cause: LedgerRef)
    requires Consistent(s) && k in s.rows && quantity > 0 && Draw(s, k, quantity, cause).Ok?
    ensures DrawPlan(QueryLots(s.lots, k, cause.line), quantity, cause.line).Some?
    ensures var t, slices := Draw(s, k, quantity, cause).value, DrawPlan(QueryLots(s.lots, k, cause.line), quantity, cause.line).value;
      && |t.lots| == |s.lots|
      && forall j :: 0 <= j < |s.lots| ==>
           && t.lots[j] == s.lots[j].(remaining := s.lots[j].remaining - TakenFrom(slices, j))
           && 0 <= TakenFrom(slices, j) <= s.lots[j].remaining
  {
    hide QueryLots, DrawPlan, Consistent;
    PlanFits(s, k, quantity, cause.line);
    var slices := DrawPlan(QueryLots(s.lots, k, cause.line), quantity, cause.line).value;
    DrawSlicesEffect(s, k, slices, cause);
    forall j | 0 <= j < |s.lots| ensures TakenFrom(slices, j) >= 0 { TakenNonNegative(slices, j); }
  }

  lemma DrawInOrder(s: State, k: Key, quantity: int, cause: LedgerRef)
    requires Consistent(s) && k in s.rows && quantity > 0 && Draw(s, k, quantity, cause).Ok?
    ensures InOrder(s, Draw(s, k, quantity, cause).value, k, cause.line)
  {
    hide QueryLots, DrawPlan, Consistent, Draw, TakenFrom, TakenBefore;
    var line, t := cause.line, Draw(s, k, quantity, cause).value;
    DrawLeavesLots(s, k, quantity, cause);
    forall j | 0 <= j < |s.lots| && Fell(s, t, j)
      ensures s.lots[j].key == k && (s.lots[j].madeFor == None || MadeFor(s.lots[j], line))
    {
      var _ := GiverQueried(s, k, quantity, line, j);
    }
    forall i, j | 0 <= i < |s.lots| && 0 <= j < |s.lots| && Fell(s, t, j) && TakenBefore(s.lots, i, j, line)
      ensures t.lots[i].remaining == 0
    {
      FirstDrained(s, k, quantity, line, i, j);
    }
  }

  lemma {:induction false} DrawnRows(s: State, k: Key, slices: seq<LotSlice>, cause: LedgerRef)
    requires Within(slices, |s.lots|) && forall x :: x in slices ==> s.lots[x.lotId].key == k
    ensures forall j :: |s.ledger| <= j < |DrawSlices(s, slices, cause).ledger| ==> DrawSlices(s, slices, cause).ledger[j].key == k
    ensures forall i :: 0 <= i < |s.lots| ==> DrawSlices(s, slices, cause).lots[i].key == s.lots[i].key
    ensures |DrawSlices(s, slices, cause).ledger| >= |s.ledger|
  {
    if slices != [] {
      var front, last := slices[..|slices| - 1], slices[|slices| - 1];
      assert last in slices;
      DrawnRows(s, k, front, cause);
    }
  }

  lemma DrawTook(s: State, k: Key, quantity: int, cause: LedgerRef)
    requires Consistent(s) && k in s.rows && quantity > 0 && Draw(s, k, quantity, cause).Ok?
    ensures Took(s, Draw(s, k, quantity, cause).value, k, quantity, cause)
  {
    hide QueryLots, DrawPlan, Consistent;
    PlanFits(s, k, quantity, cause.line);
    var slices := DrawPlan(QueryLots(s.lots, k, cause.line), quantity, cause.line).value;
    DrawSlicesEffect(s, k, slices, cause);
    DrawnRows(s, k, slices, cause);
    DrawGrows(s, k, quantity, cause);
  }

  // ---------------------------------------------------------------- the two calls that draw

  /** Main result on sales. An accepted sale takes exactly its quantity, what was made for its line first,
      then what is open to everybody, oldest first, and books it under its cause; no lock moves. */
  lemma DeductOldestFirst(s: State, k: Key, quantity: int, cause: LedgerRef)
    requires Consistent(s) && DeductStock(s, k, quantity, cause).Ok?
    ensures var t := DeductStock(s, k, quantity, cause).value;
      && InOrder(s, t, k, cause.line) && Took(s, t, k, quantity, cause)
      && forall x: Key :: LockedAt(t, x) == LockedAt(s, x)
  {
    hide QueryLots, DrawPlan;
    DrawInOrder(s, k, quantity, cause);
    DrawTook(s, k, quantity, cause);
    PlanFits(s, k, quantity, cause.line);
    DrawSlicesEffect(s, k, DrawPlan(QueryLots(s.lots, k, cause.line), quantity, cause.line).value, cause);
  }

  lemma RelockedSame(s: State, k: Key, delta: int)
    requires k in s.rows
    ensures Relock(s, k, delta).lots == s.lots && Relock(s, k, delta).ledger == s.ledger
    ensures forall x: Key :: StockAt(Relock(s, k, delta), x) == StockAt(s, x)
    ensures forall x: Key :: LockedAt(Relock(s, k, delta), x) == LockedAt(s, x) + if x == k then delta else 0
  {}

  /** And so does an accepted shipment of locked goods, which takes as much off the lock. */
  lemma ShipOldestFirst(s: State, k: Key, quantity: int, cause: LedgerRef)
    requires Consistent(s) && ShipLockedStock(s, k, quantity, cause).Ok?
    ensures var t := ShipLockedStock(s, k, quantity, cause).value;
      && InOrder(s, t, k, cause.line) && Took(s, t, k, quantity, cause)
      && forall x: Key :: LockedAt(t, x) == LockedAt(s, x) - if x == k then quantity else 0
  {
    hide QueryLots, DrawPlan, Consistent, Draw, Relock;
    var u := Relock(s, k, -quantity);
    RelockedSame(s, k, -quantity);
    RelockFits(s, k, quantity);
    RelockKeeps(s, k, -quantity);
    DrawInOrder(u, k, quantity, cause);
    DrawTook(u, k, quantity, cause);
    DrawKeepsLocks(u, k, quantity, cause);
  }

  lemma RelockFits(s: State, k: Key, quantity: int)
    requires Consistent(s) && k in s.rows && 0 < quantity <= LockedAt(s, k)
    ensures -LockedAt(s, k) <= -quantity <= Shelf(s, k) && k in Relock(s, k, -quantity).rows
  {}

  lemma DrawKeepsLocks(s: State, k: Key, quantity: int, cause: LedgerRef)
    requires Consistent(s) && k in s.rows && quantity > 0 && Draw(s, k, quantity, cause).Ok?
    ensures forall x: Key :: LockedAt(Draw(s, k, quantity, cause).value, x) == LockedAt(s, x)
  {
    hide QueryLots, DrawPlan, Consistent;
    PlanFits(s, k, quantity, cause.line);
    DrawSlicesEffect(s, k, DrawPlan(QueryLots(s.lots, k, cause.line), quantity, cause.line).value, cause);
  }
}
