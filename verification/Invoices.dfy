/** Invoices (src/modules/invoices/invoice-math.ts and invoices.service.ts): a sale invoice waits until
    the order completes, is issued net of what came back before, and every later return adds an
    adjustment of its share of the line, rounded to the dong. */
module Invoices {
  import opened Common
  import LotAllocation

  type Id = nat

  /** A row of an order. A combo is one priced row; its components are rows of their own, at no price,
      under it. */
  datatype Line = Line(id: Id, quantity: int, returned: int, lineTotal: int, parent: Option<Id>)

  /** The rows an invoice is made of: those the order was priced by. */
  function Priced(rows: seq<Line>): seq<Line> {
    if rows == [] then []
    else Priced(rows[..|rows| - 1]) + if rows[|rows| - 1].parent.None? then [rows[|rows| - 1]] else []
  }

  lemma {:induction false} PricedAre(rows: seq<Line>)
    ensures forall l :: l in Priced(rows) <==> l in rows && l.parent.None?
  {
    if rows != [] {
      PricedAre(rows[..|rows| - 1]);
      assert rows == rows[..|rows| - 1] + [rows[|rows| - 1]];
    }
  }

  /** The share of a line's total that its returned quantity stands for. */
  function ReturnedValue(quantity: int, lineTotal: int, returned: int): int {
    if quantity <= 0 || returned <= 0 then 0 else LotAllocation.RoundDiv(lineTotal * returned, quantity)
  }

  function ValueBack(): Line -> int { (l: Line) => ReturnedValue(l.quantity, l.lineTotal, l.returned) }

  function TotalOf(): Line -> int { (l: Line) => l.lineTotal }

  datatype InvoiceLine = InvoiceLine(line: Id, quantity: int, amount: int)

  function AmountOf(): InvoiceLine -> int { (l: InvoiceLine) => l.amount }

  function SaleLine(l: Line): InvoiceLine {
    InvoiceLine(l.id, l.quantity - l.returned, l.lineTotal - ReturnedValue(l.quantity, l.lineTotal, l.returned))
  }

  /** The lines of the sale invoice: what was not returned; a line returned in full drops out. */
  function SaleLines(lines: seq<Line>): seq<InvoiceLine> {
    if lines == [] then []
    else
      var last := SaleLine(lines[|lines| - 1]);
      SaleLines(lines[..|lines| - 1]) + if last.quantity > 0 then [last] else []
  }

  lemma PricedOneMore(rows: seq<Line>, row: Line)
    ensures Priced(rows + [row]) == if row.parent.None? then Priced(rows) + [row] else Priced(rows)
  {
    assert (rows + [row])[..|rows|] == rows;
  }

  lemma SaleLinesOneMore(lines: seq<Line>, l: Line)
    ensures SaleLines(lines + [l]) == if l.returned < l.quantity then SaleLines(lines) + [SaleLine(l)] else SaleLines(lines)
  {
    assert (lines + [l])[..|lines|] == lines;
  }

  lemma NothingPriced()
    ensures Priced([]) == [] && SaleLines([]) == [] && SumBy([], ValueBack()) == 0
  {}

  function SaleTotal(grandTotal: int, lines: seq<Line>): int { Max(0, grandTotal - SumBy(lines, ValueBack())) }

  predicate Sane(l: Line) { 0 <= l.returned <= l.quantity && l.quantity > 0 }

  // ---------------------------------------------------------------- rounding

  /** Rounding to the dong is never off by more than half of one. */
  lemma RoundedWithinHalf(numerator: int, denominator: int)
    requires denominator > 0
    ensures var r := LotAllocation.RoundDiv(numerator, denominator);
      -denominator < 2 * (r * denominator - numerator) <= denominator
  {
    var r := LotAllocation.RoundDiv(numerator, denominator);
    var twice := 2 * numerator + denominator;
    assert r == twice / (2 * denominator);
    assert r * (2 * denominator) <= twice < (r + 1) * (2 * denominator);
    assert r * (2 * denominator) == 2 * (r * denominator);
    assert (r + 1) * (2 * denominator) == 2 * (r * denominator) + 2 * denominator;
  }

  /** Returning all of a line brings back exactly its total. */
  lemma FullReturnIsExact(quantity: int, lineTotal: int)
    requires quantity > 0
    ensures ReturnedValue(quantity, lineTotal, quantity) == lineTotal
  {
    var twice := 2 * (lineTotal * quantity) + quantity;
    assert twice == lineTotal * (2 * quantity) + quantity;
    QuotientIs(twice, 2 * quantity, lineTotal, quantity);
  }

  lemma QuotientIs(a: int, d: int, k: int, rest: int)
    requires d > 0 && a == k * d + rest && 0 <= rest < d
    ensures a / d == k
  {
    var q := a / d;
    assert q * d <= a < (q + 1) * d;
    if q + 1 <= k { ProductsKeepOrder(q + 1, k, d); }
    if k + 1 <= q { ProductsKeepOrder(k + 1, q, d); }
  }

  lemma ProductsKeepOrder(x: int, y: int, d: int)
    requires x <= y && d > 0
    ensures x * d <= y * d
  {}

  /** What is invoiced and what came back make up the lines' totals, to the dong. */
  lemma {:induction false} NothingRoundedAway(lines: seq<Line>)
    requires forall l :: l in lines ==> Sane(l)
    ensures SumBy(SaleLines(lines), AmountOf()) + SumBy(lines, ValueBack()) == SumBy(lines, TotalOf())
  {
    if lines != [] {
      var front, last := lines[..|lines| - 1], lines[|lines| - 1];
      assert last in lines;
      NothingRoundedAway(front);
      if last.returned < last.quantity {
        SumByAppend(SaleLines(front), SaleLine(last), AmountOf());
      } else {
        FullReturnIsExact(last.quantity, last.lineTotal);
        assert SaleLines(front) + [] == SaleLines(front);
      }
    }
  }

  /** So the invoice's total is its lines plus whatever the order charges beyond them, never below zero. */
  lemma SaleTotalMeaning(grandTotal: int, lines: seq<Line>)
    requires forall l :: l in lines ==> Sane(l)
    ensures SaleTotal(grandTotal, lines)
         == Max(0, SumBy(SaleLines(lines), AmountOf()) + (grandTotal - SumBy(lines, TotalOf())))
  {
    NothingRoundedAway(lines);
  }

  // ---------------------------------------------------------------- the life of an invoice

  datatype Status = Pending | Issued | Cancelled

  datatype Returned = Returned(line: Id, quantity: int)

  /** A sale invoice and its adjustments, each a list of negative lines. */
  datatype Invoice = Invoice(status: Status, total: int, lines: seq<InvoiceLine>, adjustments: seq<seq<InvoiceLine>>)

  function Fresh(grandTotal: int): Invoice { Invoice(Pending, grandTotal, [], []) }

  /** An invoice as it is issued. */
  function IssuedFrom(grandTotal: int, rows: seq<Line>): Invoice {
    Invoice(Issued, SaleTotal(grandTotal, Priced(rows)), SaleLines(Priced(rows)), [])
  }

  /** The sale invoice of an order that counts: cancelled ones are passed over. */
  function Live(sales: seq<Invoice>): (r: Option<nat>)
    ensures r.Some? ==> r.value < |sales| && sales[r.value].status != Cancelled
    ensures r.None? ==> forall inv :: inv in sales ==> inv.status == Cancelled
  {
    if sales == [] then None
    else if sales[0].status != Cancelled then Some(0)
    else match Live(sales[1..]) case None => None case Some(i) => Some(i + 1)
  }

  function EnsurePending(sales: seq<Invoice>, grandTotal: int): seq<Invoice> {
    if Live(sales).Some? then sales else sales + [Fresh(grandTotal)]
  }

  /** Issuing is done once; an order without a live invoice gets an issued one. */
  function Issue(sales: seq<Invoice>, grandTotal: int, rows: seq<Line>): seq<Invoice> {
    var inv := IssuedFrom(grandTotal, rows);
    match Live(sales)
    case None => sales + [inv]
    case Some(i) =>
      if sales[i].status == Issued then sales else sales[i := inv.(adjustments := sales[i].adjustments)]
  }

  function Voided(inv: Invoice): Invoice { if inv.status == Pending then inv.(status := Cancelled) else inv }

  function VoidPending(sales: seq<Invoice>): (r: seq<Invoice>)
    ensures |r| == |sales| && forall i :: 0 <= i < |r| ==> r[i] == Voided(sales[i])
  {
    seq(|sales|, i requires 0 <= i < |sales| => Voided(sales[i]))
  }

  /** The quantity of a line a return names; the last mention counts. */
  function QuantityIn(items: seq<Returned>, line: Id): int {
    if items == [] then 0
    else if items[|items| - 1].line == line then items[|items| - 1].quantity
    else QuantityIn(items[..|items| - 1], line)
  }

  function Adjustment(l: InvoiceLine, quantity: int): InvoiceLine {
    var taken := Min(quantity, l.quantity);
    InvoiceLine(l.line, taken, -ReturnedValue(l.quantity, l.amount, taken))
  }

  /** The adjustment lines of a return; no list of items means the whole order. */
  function Picked(lines: seq<InvoiceLine>, items: Option<seq<Returned>>): seq<InvoiceLine> {
    if lines == [] then []
    else
      var last := lines[|lines| - 1];
      var quantity := if items.Some? then QuantityIn(items.value, last.line) else last.quantity;
      Picked(lines[..|lines| - 1], items) + if quantity <= 0 then [] else [Adjustment(last, quantity)]
  }

  function AdjustForReturn(inv: Invoice, items: Option<seq<Returned>>): Invoice {
    if inv.status != Issued || Picked(inv.lines, items) == [] then inv
    else inv.(adjustments := inv.adjustments + [Picked(inv.lines, items)])
  }

  /** A return adjusts the live invoice. */
  function AdjustLive(sales: seq<Invoice>, items: Option<seq<Returned>>): seq<Invoice> {
    match Live(sales)
    case None => sales
    case Some(i) => sales[i := AdjustForReturn(sales[i], items)]
  }

  /** The sale invoices of an order as their rows are written. */
  class InvoiceRows {
    var sales: seq<Invoice>

    constructor ()
      ensures sales == []
    {
      sales := [];
    }

    method FindLive() returns (live: Option<nat>)
      ensures live == Live(sales)
    {
      for i := 0 to |sales|
        invariant Live(sales) == match Live(sales[i..]) case None => None case Some(j) => Some(i + j)
      {
        assert sales[i..][1..] == sales[i + 1..];
        if sales[i].status != Cancelled { return Some(i); }
      }
      return None;
    }

    /** An order is placed: its invoice waits. */
    method AwaitSale(grandTotal: int)
      modifies this
      ensures sales == EnsurePending(old(sales), grandTotal)
    {
      var live := FindLive();
      if live.None? { sales := sales + [Fresh(grandTotal)]; }
    }

    method IssueForOrder(grandTotal: int, rows: seq<Line>)
      modifies this
      ensures sales == Issue(old(sales), grandTotal, rows)
    {
      hide Priced, SaleLines, SumBy;
      NothingPriced();
      var live := FindLive();
      if live.Some? && sales[live.value].status == Issued { return; }
      var kept: seq<InvoiceLine> := [];
      var returned := 0;
      for i := 0 to |rows|
        invariant kept == SaleLines(Priced(rows[..i])) && returned == SumBy(Priced(rows[..i]), ValueBack())
        invariant sales == old(sales)
      {
        var row := rows[i];
        assert rows[..i + 1] == rows[..i] + [row];
        PricedOneMore(rows[..i], row);
        if row.parent.None? {
          SaleLinesOneMore(Priced(rows[..i]), row);
          SumByAppend(Priced(rows[..i]), row, ValueBack());
          var quantity := row.quantity - row.returned;
          var value := ReturnedValue(row.quantity, row.lineTotal, row.returned);
          returned := returned + value;
          if quantity > 0 { kept := kept + [InvoiceLine(row.id, quantity, row.lineTotal - value)]; }
        }
      }
      assert rows[..|rows|] == rows;
      var total := Max(0, grandTotal - returned);
      if live.Some? {
        sales := sales[live.value := sales[live.value].(status := Issued, total := total, lines := kept)];
      } else {
        sales := sales + [Invoice(Issued, total, kept, [])];
      }
    }

    /** Every invoice still waiting is withdrawn. */
    method WithdrawPending()
      modifies this
      ensures sales == VoidPending(old(sales))
    {
      for i := 0 to |sales|
        invariant |sales| == |old(sales)|
        invariant forall j :: 0 <= j < |sales| ==> sales[j] == if j < i then Voided(old(sales)[j]) else old(sales)[j]
      {
        if sales[i].status == Pending { sales := sales[i := sales[i].(status := Cancelled)]; }
      }
    }

    method Adjust(items: Option<seq<Returned>>)
      modifies this
      ensures sales == AdjustLive(old(sales), items)
    {
      var live := FindLive();
      if live.None? || sales[live.value].status != Issued { return; }
      var lines := sales[live.value].lines;
      var picked: seq<InvoiceLine> := [];
      for i := 0 to |lines|
        invariant picked == Picked(lines[..i], items) && sales == old(sales)
      {
        assert lines[..i + 1][..i] == lines[..i];
        var quantity := if items.Some? then QuantityIn(items.value, lines[i].line) else lines[i].quantity;
        if quantity > 0 {
          var taken := Min(quantity, lines[i].quantity);
          picked := picked + [InvoiceLine(lines[i].line, taken, -ReturnedValue(lines[i].quantity, lines[i].amount, taken))];
        }
      }
      assert lines[..|lines|] == lines;
      if picked != [] {
        var inv := sales[live.value];
        sales := sales[live.value := inv.(adjustments := inv.adjustments + [picked])];
      }
    }
  }

  // ---------------------------------------------------------------- every run

  datatype Event =
    | OrderPlaced(grandTotal: int)
    | OrderCompleted(grandTotal: int, rows: seq<Line>)
    | OrderCancelled
    | GoodsReturned(items: Option<seq<Returned>>)

  function After(sales: seq<Invoice>, e: Event): seq<Invoice> {
    match e
    case OrderPlaced(grandTotal) => EnsurePending(sales, grandTotal)
    case OrderCompleted(grandTotal, rows) => Issue(sales, grandTotal, rows)
    case OrderCancelled => VoidPending(sales)
    case GoodsReturned(items) => AdjustLive(sales, items)
  }

  predicate History(states: seq<seq<Invoice>>, events: seq<Event>) {
    && |states| == |events| + 1 && states[0] == []
    && forall n :: 0 <= n < |events| ==> states[n + 1] == After(states[n], events[n])
  }

  predicate OneLive(sales: seq<Invoice>) {
    forall i, j :: 0 <= i < j < |sales| ==> sales[i].status == Cancelled || sales[j].status == Cancelled
  }

  /** A cancelled invoice stays as it is, and so does an issued one but for the adjustments it gains. */
  predicate Stands(was: Invoice, now: Invoice) {
    match was.status
    case Pending => true
    case Issued => was.adjustments <= now.adjustments && now == was.(adjustments := now.adjustments)
    case Cancelled => now == was
  }

  predicate AllStand(was: seq<Invoice>, now: seq<Invoice>) {
    |was| <= |now| && forall i :: 0 <= i < |was| ==> Stands(was[i], now[i])
  }

  /** Only issued invoices have lines or adjustments, and they list only what was sold. */
  predicate InvoiceRight(inv: Invoice) {
    if inv.status == Issued then EachSold(inv.lines) else inv.lines == [] && inv.adjustments == []
  }

  predicate InvoicesRight(sales: seq<Invoice>) {
    OneLive(sales) && forall i :: 0 <= i < |sales| ==> InvoiceRight(sales[i])
  }

  lemma {:induction false} SaleLinesSold(lines: seq<Line>)
    ensures EachSold(SaleLines(lines))
  {
    if lines != [] { SaleLinesSold(lines[..|lines| - 1]); }
  }

  /** The live invoice is the only one, so writing it keeps the others and leaves one live at most. */
  lemma LiveWritten(sales: seq<Invoice>, inv: Invoice)
    requires InvoicesRight(sales) && Live(sales).Some? && InvoiceRight(inv) && Stands(sales[Live(sales).value], inv)
    ensures InvoicesRight(sales[Live(sales).value := inv]) && AllStand(sales, sales[Live(sales).value := inv])
  {
    var i := Live(sales).value;
    forall j | 0 <= j < |sales| && j != i ensures sales[j].status == Cancelled {
      if i < j { assert sales[i].status == Cancelled || sales[j].status == Cancelled; }
    }
  }

  lemma FirstLive(sales: seq<Invoice>, inv: Invoice)
    requires InvoicesRight(sales) && Live(sales).None? && InvoiceRight(inv)
    ensures InvoicesRight(sales + [inv]) && AllStand(sales, sales + [inv])
  {
    forall i | 0 <= i < |sales| ensures sales[i].status == Cancelled { assert sales[i] in sales; }
  }

  lemma EventKeeps(sales: seq<Invoice>, e: Event)
    requires InvoicesRight(sales)
    ensures InvoicesRight(After(sales, e)) && AllStand(sales, After(sales, e))
  {
    hide Live, Priced, SaleLines, SaleTotal, Picked, EachSold;
    match e {
      case OrderPlaced(grandTotal) =>
        if Live(sales).None? { FirstLive(sales, Fresh(grandTotal)); }
      case OrderCompleted(grandTotal, rows) =>
        SaleLinesSold(Priced(rows));
        var inv := IssuedFrom(grandTotal, rows);
        if Live(sales).None? {
          FirstLive(sales, inv);
        } else if sales[Live(sales).value].status == Pending {
          LiveWritten(sales, inv.(adjustments := sales[Live(sales).value].adjustments));
        }
      case OrderCancelled =>
      case GoodsReturned(items) =>
        if Live(sales).Some? { LiveWritten(sales, AdjustForReturn(sales[Live(sales).value], items)); }
    }
  }

  /** Main result. However an order is placed, completed, cancelled and returned, as often and in whatever
      order: it has at most one sale invoice that is not cancelled; once issued, an invoice keeps its total
      and its lines for good and only gains adjustments; once cancelled, it never changes. */
  lemma {:induction false} IssuedInvoicesStand(states: seq<seq<Invoice>>, events: seq<Event>, m: nat, n: nat)
    requires History(states, events) && m <= n < |states|
    ensures InvoicesRight(states[n]) && AllStand(states[m], states[n])
    decreases n
  {
    hide InvoicesRight, After, Stands;
    if n == 0 {
      NothingInvoiced();
      NothingToStand(states[0]);
    } else {
      IssuedInvoicesStand(states, events, if m < n then m else 0, n - 1);
      EventKeeps(states[n - 1], events[n - 1]);
      if m < n { StandTwice(states[m], states[n - 1], states[n]); } else { NothingToStand(states[n]); }
    }
  }

  lemma NothingInvoiced()
    ensures InvoicesRight([])
  {}

  lemma NothingToStand(sales: seq<Invoice>)
    ensures AllStand(sales, sales)
  {}

  lemma StandTwice(a: seq<Invoice>, b: seq<Invoice>, c: seq<Invoice>)
    requires AllStand(a, b) && AllStand(b, c)
    ensures AllStand(a, c)
  {
    forall i | 0 <= i < |a| ensures Stands(a[i], c[i]) { assert Stands(a[i], b[i]) && Stands(b[i], c[i]); }
  }

  // ---------------------------------------------------------------- many partial returns

  function OnLine(line: Id): InvoiceLine -> int { (l: InvoiceLine) => if l.line == line then l.amount else 0 }

  function UnitsOn(line: Id): InvoiceLine -> int { (l: InvoiceLine) => if l.line == line then l.quantity else 0 }

  function TakenOff(line: Id): seq<InvoiceLine> -> int { (a: seq<InvoiceLine>) => SumBy(a, OnLine(line)) }

  function UnitsBack(line: Id): seq<InvoiceLine> -> int { (a: seq<InvoiceLine>) => SumBy(a, UnitsOn(line)) }

  predicate LinesApart(lines: seq<InvoiceLine>) { forall i, j :: 0 <= i < j < |lines| ==> lines[i].line != lines[j].line }

  predicate EachSold(lines: seq<InvoiceLine>) { forall l :: l in lines ==> l.quantity > 0 }

  /** Units of an invoice line a return takes. */
  function TakenOf(l: InvoiceLine, items: Option<seq<Returned>>): int {
    Max(0, Min(if items.Some? then QuantityIn(items.value, l.line) else l.quantity, l.quantity))
  }

  lemma PickedOneMore(lines: seq<InvoiceLine>, items: Option<seq<Returned>>, line: Id)
    requires lines != [] && lines[|lines| - 1].quantity > 0
    ensures var front, last := lines[..|lines| - 1], lines[|lines| - 1];
      var units := if last.line == line then TakenOf(last, items) else 0;
      && SumBy(Picked(lines, items), UnitsOn(line)) == SumBy(Picked(front, items), UnitsOn(line)) + units
      && SumBy(Picked(lines, items), OnLine(line))
           == SumBy(Picked(front, items), OnLine(line)) - ReturnedValue(last.quantity, last.amount, units)
  {
    var front, last := lines[..|lines| - 1], lines[|lines| - 1];
    var quantity := if items.Some? then QuantityIn(items.value, last.line) else last.quantity;
    hide QuantityIn;
    if quantity > 0 {
      SumByAppend(Picked(front, items), Adjustment(last, quantity), OnLine(line));
      SumByAppend(Picked(front, items), Adjustment(last, quantity), UnitsOn(line));
    } else {
      assert Picked(front, items) + [] == Picked(front, items);
    }
  }

  lemma {:induction false} NotPicked(lines: seq<InvoiceLine>, items: Option<seq<Returned>>, line: Id)
    requires forall l :: l in lines ==> l.line != line && l.quantity > 0
    ensures SumBy(Picked(lines, items), OnLine(line)) == 0 && SumBy(Picked(lines, items), UnitsOn(line)) == 0
  {
    if lines != [] {
      var front, last := lines[..|lines| - 1], lines[|lines| - 1];
      assert last in lines;
      NotPicked(front, items, line);
      PickedOneMore(lines, items, line);
    }
  }

  /** What one adjustment takes off a line: its share, rounded. */
  lemma {:induction false} PickedShare(lines: seq<InvoiceLine>, items: Option<seq<Returned>>, i: nat)
    requires i < |lines| && LinesApart(lines) && EachSold(lines)
    ensures var l := lines[i];
      var units := SumBy(Picked(lines, items), UnitsOn(l.line));
      && 0 <= units <= l.quantity
      && SumBy(Picked(lines, items), OnLine(l.line)) == -ReturnedValue(l.quantity, l.amount, units)
  {
    var front, last := lines[..|lines| - 1], lines[|lines| - 1];
    var l := lines[i];
    assert l in lines && last in lines;
    hide Picked, ReturnedValue, QuantityIn;
    if i < |lines| - 1 {
      assert front[i] == l && l.line != last.line;
      assert forall x :: x in front ==> x in lines;
      PickedShare(front, items, i);
    } else {
      forall x | x in front ensures x.line != l.line {
        var k :| 0 <= k < |front| && front[k] == x;
        assert lines[k] == x;
      }
      NotPicked(front, items, l.line);
    }
    PickedOneMore(lines, items, l.line);
  }

  /** An invoice all of whose adjustments were written by returns. */
  ghost predicate Adjusted(inv: Invoice, given: seq<Option<seq<Returned>>>) {
    |inv.adjustments| == |given| && forall i :: 0 <= i < |given| ==> inv.adjustments[i] == Picked(inv.lines, given[i])
  }

  /** Main result. However a line is returned after it was invoiced - in any number of returns, of any
      parts - all its adjustments together are within half a dong each of its exact share. */
  lemma {:induction false} AdjustmentsStayClose(inv: Invoice, given: seq<Option<seq<Returned>>>, i: nat)
    requires Adjusted(inv, given) && i < |inv.lines| && LinesApart(inv.lines) && EachSold(inv.lines)
    ensures var l, n := inv.lines[i], |given|;
      var off, units := -SumBy(inv.adjustments, TakenOff(l.line)), SumBy(inv.adjustments, UnitsBack(l.line));
      -(n * l.quantity) <= 2 * (off * l.quantity - l.amount * units) <= n * l.quantity
    decreases |given|
  {
    hide Picked, ReturnedValue;
    var l, n := inv.lines[i], |given|;
    assert l in inv.lines;
    if n > 0 {
      var before := inv.(adjustments := inv.adjustments[..n - 1]);
      AdjustmentsStayClose(before, given[..n - 1], i);
      PickedShare(inv.lines, given[n - 1], i);
      var last := inv.adjustments[n - 1];
      assert inv.adjustments == before.adjustments + [last];
      SumByAppend(before.adjustments, last, TakenOff(l.line));
      SumByAppend(before.adjustments, last, UnitsBack(l.line));
      var units := SumBy(last, UnitsOn(l.line));
      hide SumBy;
      ShareWithinHalf(l.quantity, l.amount, units);
      StillClose(n, l.quantity, l.amount, -SumBy(before.adjustments, TakenOff(l.line)), SumBy(before.adjustments, UnitsBack(l.line)),
                 ReturnedValue(l.quantity, l.amount, units), units);
    }
  }

  lemma ShareWithinHalf(quantity: int, amount: int, units: int)
    requires quantity > 0 && units >= 0
    ensures -quantity <= 2 * (ReturnedValue(quantity, amount, units) * quantity - amount * units) <= quantity
  {
    if units > 0 { RoundedWithinHalf(amount * units, quantity); }
  }

  lemma StillClose(n: int, quantity: int, amount: int, off: int, units: int, more: int, moreUnits: int)
    requires -((n - 1) * quantity) <= 2 * (off * quantity - amount * units) <= (n - 1) * quantity
    requires -quantity <= 2 * (more * quantity - amount * moreUnits) <= quantity
    ensures -(n * quantity) <= 2 * ((off + more) * quantity - amount * (units + moreUnits)) <= n * quantity
  {
    assert (off + more) * quantity == off * quantity + more * quantity;
    assert amount * (units + moreUnits) == amount * units + amount * moreUnits;
    assert n * quantity == (n - 1) * quantity + quantity;
  }

  /** Bringing the whole order back takes every line off to the dong. */
  lemma {:induction false} WholeOrderBack(lines: seq<InvoiceLine>)
    requires EachSold(lines)
    ensures SumBy(Picked(lines, None), AmountOf()) == -SumBy(lines, AmountOf())
  {
    if lines != [] {
      var front, last := lines[..|lines| - 1], lines[|lines| - 1];
      assert last in lines;
      WholeOrderBack(front);
      FullReturnIsExact(last.quantity, last.amount);
      SumByAppend(Picked(front, None), Adjustment(last, last.quantity), AmountOf());
    }
  }

  /** Returned unit by unit, a line comes back to its exact amount only if the amount divides evenly. */
  lemma UnitByUnit(quantity: int, amount: int)
    requires quantity > 0
    ensures quantity * ReturnedValue(quantity, amount, 1) == amount <==> amount % quantity == 0
  {
    var r := ReturnedValue(quantity, amount, 1);
    assert r == LotAllocation.RoundDiv(amount, quantity);
    if amount % quantity == 0 {
      var k := amount / quantity;
      assert amount == k * quantity;
      FullReturnIsExact(quantity, k);
      assert r == k;
    }
    if quantity * r == amount {
      QuotientIs(amount, quantity, r, 0);
    }
  }

  /** Three for 200 dong, given back one at a time, come to 201. */
  lemma UnitByUnitOvershoots()
    ensures ReturnedValue(3, 200, 1) == 67 && 3 * ReturnedValue(3, 200, 1) == 201
  {}

  // ---------------------------------------------------------------- what adjusts an invoice

  lemma {:induction false} NothingPicked(lines: seq<InvoiceLine>, items: seq<Returned>)
    ensures Picked(lines, Some(items)) == [] <==> forall l :: l in lines ==> QuantityIn(items, l.line) <= 0
  {
    if lines != [] {
      var front, last := lines[..|lines| - 1], lines[|lines| - 1];
      assert lines == front + [last];
      NothingPicked(front, items);
    }
  }

  /** A return adjusts an invoice exactly when the invoice is issued and lists a line the return brings some
      of back. */
  lemma AdjustsExactly(inv: Invoice, items: seq<Returned>)
    ensures AdjustForReturn(inv, Some(items)) != inv
        <==> inv.status.Issued? && exists l :: l in inv.lines && QuantityIn(items, l.line) > 0
  {
    NothingPicked(inv.lines, items);
  }

  /** `value` is the share of `amount` that `units` of `quantity` stand for, to the nearest dong, a half up. */
  predicate IsShare(value: int, quantity: int, amount: int, units: int) {
    -quantity < 2 * (value * quantity - amount * units) <= quantity
  }

  /** No two shares: the nearest dong is one. */
  lemma OneShare(a: int, b: int, quantity: int, amount: int, units: int)
    requires quantity > 0 && IsShare(a, quantity, amount, units) && IsShare(b, quantity, amount, units)
    ensures a == b
  {
    assert (a - b) * quantity == (a * quantity - amount * units) - (b * quantity - amount * units);
    assert (b - a) * quantity == (b * quantity - amount * units) - (a * quantity - amount * units);
    if a > b {
      ProductsKeepOrder(1, a - b, quantity);
    } else if b > a {
      ProductsKeepOrder(1, b - a, quantity);
    }
  }

  lemma ReturnedIsShare(quantity: int, amount: int, units: int)
    requires quantity > 0 && units > 0
    ensures IsShare(ReturnedValue(quantity, amount, units), quantity, amount, units)
  {
    RoundedWithinHalf(amount * units, quantity);
  }

  /** The return names the line in one place, with this quantity. */
  predicate NamesOnce(items: seq<Returned>, line: Id, quantity: int) {
    exists i :: 0 <= i < |items| && items[i] == Returned(line, quantity)
                && forall j :: 0 <= j < |items| && j != i ==> items[j].line != line
  }

  predicate NamesNowhere(items: seq<Returned>, line: Id) { forall r :: r in items ==> r.line != line }

  lemma {:induction false} QuantityWhenNowhere(items: seq<Returned>, line: Id)
    requires NamesNowhere(items, line)
    ensures QuantityIn(items, line) == 0
  {
    if items != [] {
      assert items[|items| - 1] in items;
      QuantityWhenNowhere(items[..|items| - 1], line);
    }
  }

  lemma {:induction false} QuantityWhenOnce(items: seq<Returned>, line: Id, i: nat)
    requires i < |items| && items[i].line == line
    requires forall j :: 0 <= j < |items| && j != i ==> items[j].line != line
    ensures QuantityIn(items, line) == items[i].quantity
  {
    if i < |items| - 1 { QuantityWhenOnce(items[..|items| - 1], line, i); }
  }

  /** The one entry of an adjustment for a line. */
  predicate OnlyEntry(entries: seq<InvoiceLine>, entry: InvoiceLine) {
    exists i :: 0 <= i < |entries| && entries[i] == entry
                && forall j :: 0 <= j < |entries| && j != i ==> entries[j].line != entry.line
  }

  predicate NoEntry(entries: seq<InvoiceLine>, line: Id) { forall e :: e in entries ==> e.line != line }

  lemma {:induction false} NoEntryFor(lines: seq<InvoiceLine>, items: Option<seq<Returned>>, line: Id)
    requires forall l :: l in lines && l.line == line ==> items.Some? && QuantityIn(items.value, line) <= 0
    ensures NoEntry(Picked(lines, items), line)
  {
    if lines != [] {
      var front, last := lines[..|lines| - 1], lines[|lines| - 1];
      assert last in lines && forall l :: l in front ==> l in lines;
      NoEntryFor(front, items, line);
    }
  }

  /** The units a return takes of a listed line have one entry, and other lines do not disturb it. */
  lemma {:induction false} EntryFor(lines: seq<InvoiceLine>, items: Option<seq<Returned>>, i: nat)
    requires i < |lines| && LinesApart(lines)
    requires (if items.Some? then QuantityIn(items.value, lines[i].line) else lines[i].quantity) > 0
    ensures OnlyEntry(Picked(lines, items),
                      Adjustment(lines[i], if items.Some? then QuantityIn(items.value, lines[i].line) else lines[i].quantity))
  {
    hide QuantityIn, Adjustment, NoEntry;
    var front, last, l := lines[..|lines| - 1], lines[|lines| - 1], lines[i];
    var entries, before := Picked(lines, items), Picked(front, items);
    var entry := Adjustment(l, if items.Some? then QuantityIn(items.value, l.line) else l.quantity);
    AdjustmentOfLine(l, if items.Some? then QuantityIn(items.value, l.line) else l.quantity);
    AdjustmentOfLine(last, if items.Some? then QuantityIn(items.value, last.line) else last.quantity);
    if i < |front| {
      assert front[i] == l && l.line != last.line;
      EntryFor(front, items, i);
      var k :| 0 <= k < |before| && before[k] == entry && forall j :: 0 <= j < |before| && j != k ==> before[j].line != entry.line;
      assert entries[k] == entry && forall j :: 0 <= j < |entries| && j != k ==> entries[j].line != entry.line;
    } else {
      forall x | x in front ensures x.line != l.line {
        var k :| 0 <= k < |front| && front[k] == x;
        assert lines[k] == x;
      }
      NoEntryFor(front, items, l.line);
      NoEntryMeans(before, l.line);
      assert entries == before + [entry];
      assert entries[|before|] == entry && forall j :: 0 <= j < |entries| && j != |before| ==> entries[j].line != entry.line;
    }
  }

  lemma AdjustmentOfLine(l: InvoiceLine, quantity: int)
    ensures Adjustment(l, quantity).line == l.line
  {}

  lemma NoEntryMeans(entries: seq<InvoiceLine>, line: Id)
    requires NoEntry(entries, line)
    ensures forall j :: 0 <= j < |entries| ==> entries[j].line != line
  {
    forall j | 0 <= j < |entries| ensures entries[j].line != line { assert entries[j] in entries; }
  }

  /** Main result on adjusting. A return that names a listed line in one place takes exactly the units it
      brings back off it, but no more than were invoiced, at minus their share. */
  lemma ReturnIsAdjusted(inv: Invoice, items: seq<Returned>, i: nat, quantity: int) returns (value: int)
    requires inv.status == Issued && LinesApart(inv.lines) && EachSold(inv.lines)
    requires i < |inv.lines| && quantity > 0 && NamesOnce(items, inv.lines[i].line, quantity)
    ensures var l, after := inv.lines[i], AdjustForReturn(inv, Some(items));
      && |after.adjustments| == |inv.adjustments| + 1 && after == inv.(adjustments := after.adjustments)
      && after.adjustments[..|inv.adjustments|] == inv.adjustments
      && OnlyEntry(after.adjustments[|inv.adjustments|], InvoiceLine(l.line, Min(quantity, l.quantity), -value))
      && IsShare(value, l.quantity, l.amount, Min(quantity, l.quantity))
  {
    var l := inv.lines[i];
    assert l in inv.lines;
    var k :| 0 <= k < |items| && items[k] == Returned(l.line, quantity)
             && forall j :: 0 <= j < |items| && j != k ==> items[j].line != l.line;
    QuantityWhenOnce(items, l.line, k);
    EntryFor(inv.lines, Some(items), i);
    value := ReturnedValue(l.quantity, l.amount, Min(quantity, l.quantity));
    ReturnedIsShare(l.quantity, l.amount, Min(quantity, l.quantity));
  }

  /** And of a line it does not name, nothing. */
  lemma UnnamedIsNotAdjusted(inv: Invoice, items: seq<Returned>, line: Id)
    requires NamesNowhere(items, line)
    ensures var after := AdjustForReturn(inv, Some(items)).adjustments;
      && inv.adjustments <= after
      && forall a :: a in after[|inv.adjustments|..] ==> NoEntry(a, line)
  {
    QuantityWhenNowhere(items, line);
    NoEntryFor(inv.lines, Some(items), line);
  }

  /** Bringing the whole order back takes every line off in full. */
  lemma WholeLineBack(inv: Invoice, i: nat)
    requires inv.status == Issued && LinesApart(inv.lines) && EachSold(inv.lines) && i < |inv.lines|
    ensures var l, after := inv.lines[i], AdjustForReturn(inv, None);
      && |after.adjustments| == |inv.adjustments| + 1
      && OnlyEntry(after.adjustments[|inv.adjustments|], InvoiceLine(l.line, l.quantity, -l.amount))
  {
    var l := inv.lines[i];
    assert l in inv.lines;
    EntryFor(inv.lines, None, i);
    FullReturnIsExact(l.quantity, l.amount);
  }

  lemma {:induction false} SaleLinesAre(lines: seq<Line>, id: Id)
    ensures (exists x :: x in SaleLines(lines) && x.line == id)
        <==> exists l :: l in lines && l.id == id && l.returned < l.quantity
  {
    if lines != [] {
      var front, last := lines[..|lines| - 1], lines[|lines| - 1];
      assert lines == front + [last];
      SaleLinesAre(front, id);
      if x :| x in SaleLines(lines) && x.line == id {
        if x !in SaleLines(front) { assert x == SaleLine(last); }
      }
      if last.id == id && last.returned < last.quantity { assert SaleLine(last) in SaleLines(lines); }
    }
  }

  /** Told on the order: a return adjusts the invoice of an order exactly when it brings back some of a
      line the order was priced by - no component of a combo - that was not all back when the invoice was
      issued. */
  lemma AdjustedForPricedLines(grandTotal: int, rows: seq<Line>, items: seq<Returned>)
    ensures var inv := IssuedFrom(grandTotal, rows);
      AdjustForReturn(inv, Some(items)) != inv
      <==> exists l :: l in rows && l.parent.None? && l.returned < l.quantity && QuantityIn(items, l.id) > 0
  {
    hide QuantityIn, SaleLines;
    var inv := IssuedFrom(grandTotal, rows);
    AdjustsExactly(inv, items);
    PricedAre(rows);
    forall x | x in inv.lines && QuantityIn(items, x.line) > 0
      ensures exists l :: l in rows && l.parent.None? && l.returned < l.quantity && QuantityIn(items, l.id) > 0
    {
      SaleLinesAre(Priced(rows), x.line);
      var l :| l in Priced(rows) && l.id == x.line && l.returned < l.quantity;
    }
    forall l | l in rows && l.parent.None? && l.returned < l.quantity && QuantityIn(items, l.id) > 0
      ensures exists x :: x in inv.lines && QuantityIn(items, x.line) > 0
    {
      SaleLinesAre(Priced(rows), l.id);
    }
  }

  /** So an order for one combo at 900 dong, all of whose components come back - the only lines of it a
      return may name - stays invoiced at 900. */
  lemma CombosAreNotAdjusted()
    returns (rows: seq<Line>, items: seq<Returned>, inv: Invoice)
    ensures rows == [Line(0, 1, 0, 900, None), Line(1, 2, 0, 0, Some(0)), Line(2, 1, 0, 0, Some(0))]
    ensures items == [Returned(1, 2), Returned(2, 1)]
    ensures inv == IssuedFrom(900, rows) && inv == Invoice(Issued, 900, [InvoiceLine(0, 1, 900)], [])
    ensures AdjustForReturn(inv, Some(items)) == inv
  {
    rows, items := [Line(0, 1, 0, 900, None), Line(1, 2, 0, 0, Some(0)), Line(2, 1, 0, 0, Some(0))], [Returned(1, 2), Returned(2, 1)];
    inv := ComboInvoiced(rows);
    assert forall l :: l in rows && l.parent.None? ==> l.id == 0;
    ComponentsNamed(items);
    AdjustedForPricedLines(900, rows, items);
  }

  lemma ComponentsNamed(items: seq<Returned>)
    requires items == [Returned(1, 2), Returned(2, 1)]
    ensures QuantityIn(items, 0) == 0
  {
    assert items[..1] == [items[0]] && items[..1][..0] == [];
    assert QuantityIn([items[0]], 0) == QuantityIn([], 0);
  }

  lemma ComboPriced(rows: seq<Line>)
    requires |rows| == 3 && rows[0].parent.None? && rows[1].parent.Some? && rows[2].parent.Some?
    ensures Priced(rows) == [rows[0]]
  {
    hide Priced;
    NothingPriced();
    assert [] + [rows[0]] == [rows[0]] && [rows[0]] + [rows[1]] == rows[..2] && rows[..2] + [rows[2]] == rows;
    PricedOneMore([], rows[0]);
    PricedOneMore([rows[0]], rows[1]);
    PricedOneMore(rows[..2], rows[2]);
  }

  lemma ComboSold(l: Line)
    requires l.returned == 0 < l.quantity && l.lineTotal >= 0
    ensures SaleLines([l]) == [InvoiceLine(l.id, l.quantity, l.lineTotal)] && SaleTotal(l.lineTotal, [l]) == l.lineTotal
  {
    hide SaleLines, SumBy, LotAllocation.RoundDiv;
    NothingPriced();
    assert [] + [l] == [l];
    SaleLinesOneMore([], l);
    SumByAppend([], l, ValueBack());
  }

  lemma ComboInvoiced(rows: seq<Line>) returns (inv: Invoice)
    requires rows == [Line(0, 1, 0, 900, None), Line(1, 2, 0, 0, Some(0)), Line(2, 1, 0, 0, Some(0))]
    ensures inv == IssuedFrom(900, rows) && inv == Invoice(Issued, 900, [InvoiceLine(0, 1, 900)], [])
  {
    hide Priced, SaleLines, SaleTotal, SaleLine;
    inv := IssuedFrom(900, rows);
    ComboPriced(rows);
    ComboSold(rows[0]);
  }
}
