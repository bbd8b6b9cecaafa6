/** What a counter sale and its cancellation write for each line: under which cause, where, and of what. */
module CounterLaws {
  import opened Common
  import opened StockLedger
  import opened StockOperations
  import opened StockInvariants
  import opened CounterSale
  import LotOrder
  import StockLaws
  import Returns = OrderReturns

  /** A sold line takes its units at the branch, oldest lots first, as a sale of the order under the line, and
      the line costs what they cost. */
  lemma LineSold(s: State, c: Counter, l: SaleLine)
    requires Consistent(s)
    ensures SellLine(s, c, l).Ok? ==>
      var k, cause, t := Key(c.branch, l.item), LedgerRef(Sale, Order, c.order, Some(l.id)), SellLine(s, c, l).value;
      && LotOrder.InOrder(s, t, k, Some(l.id)) && LotOrder.Took(s, t, k, l.quantity, cause)
      && StockLaws.Recosted(s, t, cause, Sale)
  {
    hide Consistent, DeductStock, LotOrder.InOrder, LotOrder.Took, StockLaws.Recosted;
    var cause := LedgerRef(Sale, Order, c.order, Some(l.id));
    if SellLine(s, c, l).Ok? {
      LotOrder.DeductOldestFirst(s, Key(c.branch, l.item), l.quantity, cause);
      StockLaws.SaleIsCosted(s, Key(c.branch, l.item), l.quantity, cause);
    }
  }

  /** A line brought back puts its units where they were sold, as a reversal of the order's sale under the line;
      one that no lot gave opens a lot of that day at the item's cost of that day. */
  lemma LineBack(s: State, c: Counter, l: SaleLine)
    requires Consistent(s) && EntriesPlaced(s)
    ensures ReturnDrawn(s, ReversalOf(c, l)).Ok? ==>
      Returns.Wrote(s.ledger, ReturnDrawn(s, ReversalOf(c, l)).value.ledger, Key(c.branch, l.item),
                    LedgerRef(SaleReversal, Order, c.order, Some(l.id)), l.quantity)
    ensures StockLaws.NothingLeft(s.ledger, l.item, ByLine(l.id)) ==>
      ReturnDrawn(s, ReversalOf(c, l))
        == OpenLot(s, Receipt(Key(c.branch, l.item), l.quantity, c.cost, Provenance(Opening, None, None, None), None, c.now,
                              LedgerRef(SaleReversal, Order, c.order, Some(l.id))))
  {
    hide Consistent, EntriesPlaced, ReturnDrawn, OpenLot, Returns.Wrote, StockLaws.NothingLeft;
    if ReturnDrawn(s, ReversalOf(c, l)).Ok? { Returns.ReturnWrites(s, ReversalOf(c, l)); }
    if StockLaws.NothingLeft(s.ledger, l.item, ByLine(l.id)) {
      StockLaws.NeverDrawnWhen(s, ReversalOf(c, l));
      if l.quantity <= 0 { Refused(s, c, l); }
    }
  }

  lemma Refused(s: State, c: Counter, l: SaleLine)
    requires EntriesPlaced(s) && l.quantity <= 0
    ensures ReturnDrawn(s, ReversalOf(c, l)) == Err(QuantityMustBePositive)
    ensures forall r: Receipt :: r.quantity == l.quantity ==> OpenLot(s, r) == Err(QuantityMustBePositive)
  {}
}
