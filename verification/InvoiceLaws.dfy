/** What each event in the life of an order does to its sale invoices: which one waits, is issued or is
    withdrawn, and what an issued one bills. */
module InvoiceLaws {
  import opened Common
  import opened Invoices

  /** No invoice counts: there is none, or all are cancelled. */
  predicate NoneLive(sales: seq<Invoice>) { forall inv :: inv in sales ==> inv.status == Cancelled }

  lemma LiveIs(sales: seq<Invoice>)
    requires OneLive(sales)
    ensures Live(sales).None? <==> NoneLive(sales)
    ensures forall i :: 0 <= i < |sales| && sales[i].status != Cancelled ==> Live(sales) == Some(i)
  {
    forall i | 0 <= i < |sales| && sales[i].status != Cancelled ensures Live(sales) == Some(i) {
      assert sales[i] in sales;
      var j := Live(sales).value;
      assert j == i || i < j || j < i;
    }
  }

  /** For a placed order an invoice of its total waits, unless one that counts is there already. */
  lemma PlacedMeans(sales: seq<Invoice>, grandTotal: int)
    requires OneLive(sales)
    ensures EnsurePending(sales, grandTotal) == if NoneLive(sales) then sales + [Invoice(Pending, grandTotal, [], [])] else sales
  {
    LiveIs(sales);
  }

  /** The entry of a priced row: what of it is not back, at its amount less the share of what is. */
  predicate EntryOf(x: InvoiceLine, l: Line) {
    && l.parent == None && l.returned < l.quantity
    && x.line == l.id && x.quantity == l.quantity - l.returned
    && IsShare(l.lineTotal - x.amount, l.quantity, l.lineTotal, l.returned)
  }

  /** An invoice bills an order: every priced row not all back, no other, and beyond them what the order charges
      beyond its priced rows - never less than nothing. */
  ghost predicate Bills(inv: Invoice, grandTotal: int, rows: seq<Line>) {
    && (forall x :: x in inv.lines ==> exists l :: l in rows && EntryOf(x, l))
    && (forall l :: l in rows && l.parent == None && l.returned < l.quantity ==> exists x :: x in inv.lines && EntryOf(x, l))
    && inv.total == Max(0, SumBy(inv.lines, AmountOf()) + (grandTotal - SumBy(Priced(rows), TotalOf())))
  }

  lemma SaleEntry(l: Line)
    requires Sane(l) && l.parent == None && l.returned < l.quantity
    ensures EntryOf(SaleLine(l), l)
  {
    if l.returned > 0 { ReturnedIsShare(l.quantity, l.lineTotal, l.returned); }
  }

  lemma {:induction false} SaleLinesFrom(lines: seq<Line>)
    ensures forall x :: x in SaleLines(lines) <==> exists l :: l in lines && l.returned < l.quantity && x == SaleLine(l)
  {
    if lines != [] {
      var front, last := lines[..|lines| - 1], lines[|lines| - 1];
      assert lines == front + [last];
      SaleLinesFrom(front);
    }
  }

  lemma IssuedBills(grandTotal: int, rows: seq<Line>)
    requires forall l :: l in rows && l.parent == None ==> Sane(l)
    ensures Bills(IssuedFrom(grandTotal, rows), grandTotal, rows)
  {
    hide Priced, SaleLines, SaleLine, SaleTotal, EntryOf, SumBy, Sane;
    var priced, inv := Priced(rows), IssuedFrom(grandTotal, rows);
    PricedAre(rows);
    SaleTotalMeaning(grandTotal, priced);
    SaleLinesFrom(priced);
    forall x | x in inv.lines ensures exists l :: l in rows && EntryOf(x, l) {
      var l :| l in priced && l.returned < l.quantity && x == SaleLine(l);
      SaleEntry(l);
    }
    forall l | l in rows && l.parent == None && l.returned < l.quantity ensures exists x :: x in inv.lines && EntryOf(x, l) {
      SaleEntry(l);
      assert SaleLine(l) in inv.lines;
    }
  }

  lemma IssuedIs(grandTotal: int, rows: seq<Line>)
    ensures IssuedFrom(grandTotal, rows).status == Issued && IssuedFrom(grandTotal, rows).adjustments == []
  {}

  /** Adjustments are no part of what is billed. */
  lemma BillsAnyway(inv: Invoice, adjustments: seq<seq<InvoiceLine>>, grandTotal: int, rows: seq<Line>)
    requires Bills(inv, grandTotal, rows)
    ensures Bills(inv.(adjustments := adjustments), grandTotal, rows)
  {}

  /** A completed order is billed once: the invoice that waits is issued, one is written if none counts, and one
      that is issued already stays. */
  lemma CompletedMeans(sales: seq<Invoice>, grandTotal: int, rows: seq<Line>)
    requires OneLive(sales) && forall l :: l in rows && l.parent == None ==> Sane(l)
    ensures var after := Issue(sales, grandTotal, rows);
      && |after| >= |sales|
      && (forall i :: 0 <= i < |sales| ==>
            if sales[i].status == Pending
            then after[i].status == Issued && after[i].adjustments == sales[i].adjustments && Bills(after[i], grandTotal, rows)
            else after[i] == sales[i])
      && (!NoneLive(sales) ==> |after| == |sales|)
      && (NoneLive(sales) ==>
            && |after| == |sales| + 1 && after[|sales|].status == Issued && after[|sales|].adjustments == []
            && Bills(after[|sales|], grandTotal, rows))
  {
    LiveIs(sales);
    IssuedBills(grandTotal, rows);
    IssuedIs(grandTotal, rows);
    hide IssuedFrom, Bills;
    var inv := IssuedFrom(grandTotal, rows);
    forall adjustments ensures Bills(inv.(adjustments := adjustments), grandTotal, rows) { BillsAnyway(inv, adjustments, grandTotal, rows); }
  }

  /** A cancelled order withdraws what waits, and nothing else. */
  lemma WithdrawnMeans(sales: seq<Invoice>)
    ensures var after := VoidPending(sales);
      |after| == |sales| && forall i :: 0 <= i < |sales| ==>
        after[i] == if sales[i].status == Pending then sales[i].(status := Cancelled) else sales[i]
  {}

  /** A return touches an issued invoice alone, as the share rule says of it. */
  lemma ReturnMeans(sales: seq<Invoice>, items: Option<seq<Returned>>)
    requires OneLive(sales)
    ensures var after := AdjustLive(sales, items);
      |after| == |sales| && forall i :: 0 <= i < |sales| ==>
        after[i] == if sales[i].status == Issued then AdjustForReturn(sales[i], items) else sales[i]
  {
    LiveIs(sales);
  }
}
