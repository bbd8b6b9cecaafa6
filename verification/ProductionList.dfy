/** What has to be made (src/modules/production-requests/production-list.ts): one row per location and
    item - or per made-to-measure order line - with what is wanted, what is there, what is on its way,
    and what is short, the most urgent first. */
module ProductionList {
  import opened Common
  import opened StableSort

  type Id = nat

  datatype Priority = Unknown | Normal | High | Urgent

  datatype DemandStatus = Confirmed | Packed | PickedUp

  /** `code` stands for the order code's place in the alphabet; no date is the end of time. */
  datatype DemandLine = DemandLine(orderItem: Id, code: int, status: DemandStatus, priority: Priority,
                                   wanted: Option<int>, location: Option<Id>, item: Id, quantity: int, custom: bool)

  datatype RequestStatus = Draft | Sent | PartiallyReceived | Closed

  datatype RequestLine = RequestLine(request: Id, status: RequestStatus, location: Id, item: Id,
                                     customFor: Option<Id>, quantity: int, received: int)

  datatype StockLevel = StockLevel(location: Id, item: Id, stock: int)

  datatype CustomLot = CustomLot(location: Id, item: Id, orderItem: Id, remaining: int)

  datatype CatalogueEntry = CatalogueEntry(location: Id, item: Id)

  datatype Input = Input(demand: seq<DemandLine>, stock: seq<StockLevel>, customLots: seq<CustomLot>,
                         requests: seq<RequestLine>, catalogue: seq<CatalogueEntry>)

  datatype RowKey = RowKey(location: Option<Id>, item: Id, customFor: Option<Id>)

  datatype Row = Row(key: RowKey, stock: int, demand: int, onOrder: int, draft: int, short: int,
                     orders: seq<DemandLine>, requests: seq<RequestLine>)

  // ---------------------------------------------------------------- what comes first

  /** Higher is more urgent; an unknown label ranks with the lowest. */
  function PriorityRank(p: Priority): nat {
    match p
    case Unknown => 0
    case Normal => 0
    case High => 1
    case Urgent => 2
  }

  function Sign(x: int): int { if x < 0 then -1 else if x > 0 then 1 else 0 }

  /** Earlier dates first, no date last. */
  function CompareDates(a: Option<int>, b: Option<int>): int {
    match (a, b)
    case (None, None) => 0
    case (None, Some(_)) => 1
    case (Some(_), None) => -1
    case (Some(x), Some(y)) => Sign(x - y)
  }

  /** Priority, then the date the customer wants it, then the order's code. */
  function CompareUrgency(a: DemandLine, b: DemandLine): int {
    if PriorityRank(a.priority) != PriorityRank(b.priority) then PriorityRank(b.priority) - PriorityRank(a.priority)
    else if a.wanted != b.wanted then CompareDates(a.wanted, b.wanted)
    else Sign(a.code - b.code)
  }

  function ShortFirst(a: Row, b: Row): int { (if b.short > 0 then 1 else 0) - (if a.short > 0 then 1 else 0) }

  /** Short rows first, then rows with orders; the most urgent order decides, then the largest gap. */
  function CompareRows(a: Row, b: Row): int {
    if ShortFirst(a, b) != 0 then ShortFirst(a, b)
    else if a.orders != [] && b.orders != [] then
      if CompareUrgency(a.orders[0], b.orders[0]) != 0 then CompareUrgency(a.orders[0], b.orders[0])
      else b.short - a.short
    else if a.orders != [] || b.orders != [] then if a.orders != [] then -1 else 1
    else b.short - a.short
  }

  function ByUrgency(): (DemandLine, DemandLine) -> int { (a: DemandLine, b: DemandLine) => CompareUrgency(a, b) }

  function ByRow(): (Row, Row) -> int { (a: Row, b: Row) => CompareRows(a, b) }

  lemma UrgencyMirrors(a: DemandLine, b: DemandLine)
    ensures CompareUrgency(a, b) < 0 <==> CompareUrgency(b, a) > 0
  {}

  lemma UrgencyTransitive(a: DemandLine, b: DemandLine, c: DemandLine)
    ensures CompareUrgency(a, b) <= 0 && CompareUrgency(b, c) <= 0 ==> CompareUrgency(a, c) <= 0
    ensures CompareUrgency(a, b) < 0 && CompareUrgency(b, c) < 0 ==> CompareUrgency(a, c) < 0
    ensures CompareUrgency(a, b) == 0 && CompareUrgency(b, c) == 0 ==> CompareUrgency(a, c) == 0
  {
    hide PriorityRank;
  }

  /** Urgency is a genuine ordering, so sorting by it means something. */
  lemma UrgencyIsAComparison()
    ensures Comparison(ByUrgency())
  {
    hide CompareUrgency;
    forall a: DemandLine, b: DemandLine ensures CompareUrgency(a, b) < 0 <==> CompareUrgency(b, a) > 0 { UrgencyMirrors(a, b); }
    forall a: DemandLine, b: DemandLine, c: DemandLine
      ensures CompareUrgency(a, b) <= 0 && CompareUrgency(b, c) <= 0 ==> CompareUrgency(a, c) <= 0
      ensures CompareUrgency(a, b) < 0 && CompareUrgency(b, c) < 0 ==> CompareUrgency(a, c) < 0
      ensures CompareUrgency(a, b) == 0 && CompareUrgency(b, c) == 0 ==> CompareUrgency(a, c) == 0
    {
      UrgencyTransitive(a, b, c);
    }
  }

  lemma RowsMirror(a: Row, b: Row)
    ensures CompareRows(a, b) < 0 <==> CompareRows(b, a) > 0
  {
    hide CompareUrgency;
    if a.orders != [] && b.orders != [] {
      UrgencyMirrors(a.orders[0], b.orders[0]);
      UrgencyMirrors(b.orders[0], a.orders[0]);
    }
  }

  lemma RowsTransitive(a: Row, b: Row, c: Row)
    ensures CompareRows(a, b) <= 0 && CompareRows(b, c) <= 0 ==> CompareRows(a, c) <= 0
    ensures CompareRows(a, b) < 0 && CompareRows(b, c) < 0 ==> CompareRows(a, c) < 0
    ensures CompareRows(a, b) == 0 && CompareRows(b, c) == 0 ==> CompareRows(a, c) == 0
  {
    hide CompareUrgency;
    if a.orders != [] && b.orders != [] && c.orders != [] {
      var x, y, z := a.orders[0], b.orders[0], c.orders[0];
      UrgencyTransitive(x, y, z);
      UrgencyTransitive(y, z, x);
      UrgencyTransitive(z, x, y);
      UrgencyMirrors(x, y);
      UrgencyMirrors(y, x);
      UrgencyMirrors(y, z);
      UrgencyMirrors(z, y);
      UrgencyMirrors(x, z);
      UrgencyMirrors(z, x);
    }
  }

  /** So is the order of the rows. */
  lemma RowsAreCompared()
    ensures Comparison(ByRow())
  {
    hide CompareRows;
    forall a: Row, b: Row ensures CompareRows(a, b) < 0 <==> CompareRows(b, a) > 0 { RowsMirror(a, b); }
    forall a: Row, b: Row, c: Row
      ensures CompareRows(a, b) <= 0 && CompareRows(b, c) <= 0 ==> CompareRows(a, c) <= 0
      ensures CompareRows(a, b) < 0 && CompareRows(b, c) < 0 ==> CompareRows(a, c) < 0
      ensures CompareRows(a, b) == 0 && CompareRows(b, c) == 0 ==> CompareRows(a, c) == 0
    {
      RowsTransitive(a, b, c);
    }
  }

  // ---------------------------------------------------------------- what a row should say

  function DemandKey(d: DemandLine): RowKey { RowKey(d.location, d.item, if d.custom then Some(d.orderItem) else None) }

  function RequestKey(r: RequestLine): RowKey { RowKey(Some(r.location), r.item, r.customFor) }

  function CatalogueKey(c: CatalogueEntry): RowKey { RowKey(Some(c.location), c.item, None) }

  function Outstanding(r: RequestLine): int { Max(0, r.quantity - r.received) }

  predicate OnOrder(r: RequestLine) { r.status == Sent || r.status == PartiallyReceived }

  function WantedAt(k: RowKey): DemandLine -> int { (d: DemandLine) => if DemandKey(d) == k then d.quantity else 0 }

  function DraftAt(k: RowKey): RequestLine -> int {
    (r: RequestLine) => if RequestKey(r) == k && r.status == Draft then Outstanding(r) else 0
  }

  function OnOrderAt(k: RowKey): RequestLine -> int {
    (r: RequestLine) => if RequestKey(r) == k && OnOrder(r) then Outstanding(r) else 0
  }

  function CustomAt(location: Id, item: Id): CustomLot -> int {
    (l: CustomLot) => if l.location == location && l.item == item then l.remaining else 0
  }

  function CustomForLine(location: Id, item: Id, line: Id): CustomLot -> int {
    (l: CustomLot) => if l.location == location && l.item == item && l.orderItem == line then l.remaining else 0
  }

  /** The stock of a pair: the last level given for it. */
  function StockOf(levels: seq<StockLevel>, location: Id, item: Id): int {
    if levels == [] then 0
    else
      var last := levels[|levels| - 1];
      if last.location == location && last.item == item then last.stock else StockOf(levels[..|levels| - 1], location, item)
  }

  /** Made-to-measure stock serves only its own line, and nobody else. */
  function StockFor(input: Input, k: RowKey): int {
    if k.location.None? then 0
    else if k.customFor.Some? then SumBy(input.customLots, CustomForLine(k.location.value, k.item, k.customFor.value))
    else Max(0, StockOf(input.stock, k.location.value, k.item) - SumBy(input.customLots, CustomAt(k.location.value, k.item)))
  }

  function OrdersAt(demand: seq<DemandLine>, k: RowKey): seq<DemandLine> {
    if demand == [] then []
    else
      var last := demand[|demand| - 1];
      OrdersAt(demand[..|demand| - 1], k) + if DemandKey(last) == k then [last] else []
  }

  function RequestsAt(requests: seq<RequestLine>, k: RowKey): seq<RequestLine> {
    if requests == [] then []
    else
      var last := requests[|requests| - 1];
      RequestsAt(requests[..|requests| - 1], k) + if RequestKey(last) == k then [last] else []
  }

  function ShortOf(demand: int, stock: int, onOrder: int, draft: int): int { Max(0, demand - stock - onOrder - draft) }

  /** The row of a key, told from the input alone. */
  function RowOf(input: Input, k: RowKey): Row {
    var demand, stock := SumBy(input.demand, WantedAt(k)), StockFor(input, k);
    var onOrder, draft := SumBy(input.requests, OnOrderAt(k)), SumBy(input.requests, DraftAt(k));
    Row(k, stock, demand, onOrder, draft, ShortOf(demand, stock, onOrder, draft),
        StableSort.Sorted(OrdersAt(input.demand, k), ByUrgency()), RequestsAt(input.requests, k))
  }

  predicate Catalogued(catalogue: seq<CatalogueEntry>, k: RowKey) { exists c :: c in catalogue && CatalogueKey(c) == k }

  predicate Wanted(demand: seq<DemandLine>, k: RowKey) { exists d :: d in demand && DemandKey(d) == k }

  predicate Requested(requests: seq<RequestLine>, k: RowKey) { exists r :: r in requests && RequestKey(r) == k }

  predicate Listed(input: Input, k: RowKey) {
    Catalogued(input.catalogue, k) || Wanted(input.demand, k) || Requested(input.requests, k)
  }

  predicate DistinctKeys(rows: seq<Row>) { forall i, j :: 0 <= i < j < |rows| ==> rows[i].key != rows[j].key }

  predicate HasKey(rows: seq<Row>, k: RowKey) { exists i :: 0 <= i < |rows| && rows[i].key == k }

  // ---------------------------------------------------------------- building it

  function Blank(k: RowKey): Row { Row(k, 0, 0, 0, 0, 0, [], []) }

  /** What a row holds once so much of the demand and so many of the requests were poured in. */
  predicate Poured(row: Row, demand: seq<DemandLine>, requests: seq<RequestLine>) {
    && row.demand == SumBy(demand, WantedAt(row.key)) && row.orders == OrdersAt(demand, row.key)
    && row.onOrder == SumBy(requests, OnOrderAt(row.key)) && row.draft == SumBy(requests, DraftAt(row.key))
    && row.requests == RequestsAt(requests, row.key)
  }

  predicate AllPoured(rows: seq<Row>, demand: seq<DemandLine>, requests: seq<RequestLine>) {
    forall i :: 0 <= i < |rows| ==> Poured(rows[i], demand, requests)
  }

  ghost predicate KeysKnown(rows: seq<Row>, demand: seq<DemandLine>, requests: seq<RequestLine>) {
    forall k :: Wanted(demand, k) || Requested(requests, k) ==> HasKey(rows, k)
  }

  lemma {:induction false} UnknownKeyIsBlank(rows: seq<Row>, demand: seq<DemandLine>, requests: seq<RequestLine>, k: RowKey)
    requires KeysKnown(rows, demand, requests) && !HasKey(rows, k)
    ensures Poured(Blank(k), demand, requests)
  {
    assert !Wanted(demand, k) && !Requested(requests, k);
    SumByZero(demand, WantedAt(k));
    SumByZero(requests, OnOrderAt(k));
    SumByZero(requests, DraftAt(k));
    NoOrdersAt(demand, k);
    NoRequestsAt(requests, k);
  }

  lemma {:induction false} NoOrdersAt(demand: seq<DemandLine>, k: RowKey)
    requires forall d :: d in demand ==> DemandKey(d) != k
    ensures OrdersAt(demand, k) == []
  {
    if demand != [] {
      assert demand[|demand| - 1] in demand;
      NoOrdersAt(demand[..|demand| - 1], k);
    }
  }

  lemma {:induction false} NoRequestsAt(requests: seq<RequestLine>, k: RowKey)
    requires forall r :: r in requests ==> RequestKey(r) != k
    ensures RequestsAt(requests, k) == []
  {
    if requests != [] {
      assert requests[|requests| - 1] in requests;
      NoRequestsAt(requests[..|requests| - 1], k);
    }
  }

  lemma PourDemand(row: Row, demand: seq<DemandLine>, requests: seq<RequestLine>, d: DemandLine)
    requires Poured(row, demand, requests)
    ensures Poured(if row.key == DemandKey(d) then row.(demand := row.demand + d.quantity, orders := row.orders + [d]) else row,
                   demand + [d], requests)
  {
    SumByAppend(demand, d, WantedAt(row.key));
    assert (demand + [d])[..|demand|] == demand;
  }

  /** A row once a request line is on it. */
  function WithRequest(row: Row, r: RequestLine): Row {
    var outstanding := Outstanding(r);
    row.(requests := row.requests + [r],
         draft := row.draft + (if r.status == Draft then outstanding else 0),
         onOrder := row.onOrder + (if r.status != Draft && OnOrder(r) then outstanding else 0))
  }

  lemma PourRequest(row: Row, demand: seq<DemandLine>, requests: seq<RequestLine>, r: RequestLine)
    requires Poured(row, demand, requests)
    ensures Poured(if row.key == RequestKey(r) then WithRequest(row, r) else row, demand, requests + [r])
  {
    SumByAppend(requests, r, OnOrderAt(row.key));
    SumByAppend(requests, r, DraftAt(row.key));
    assert (requests + [r])[..|requests|] == requests;
  }

  class Sheet {
    var rows: seq<Row>

    constructor ()
      ensures rows == []
    {
      rows := [];
    }

    /** The row of a key, made if there is none yet. */
    method RowFor(k: RowKey, ghost demand: seq<DemandLine>, ghost requests: seq<RequestLine>) returns (at: nat)
      requires DistinctKeys(rows) && AllPoured(rows, demand, requests) && KeysKnown(rows, demand, requests)
      modifies this
      ensures DistinctKeys(rows) && AllPoured(rows, demand, requests) && KeysKnown(rows, demand, requests)
      ensures at < |rows| && rows[at].key == k
      ensures forall x :: HasKey(rows, x) <==> HasKey(old(rows), x) || x == k
    {
      hide Poured;
      at := 0;
      while at < |rows| && rows[at].key != k
        invariant at <= |rows| && forall i :: 0 <= i < at ==> rows[i].key != k
      {
        at := at + 1;
      }
      if at == |rows| {
        UnknownKeyIsBlank(rows, demand, requests, k);
        rows := rows + [Blank(k)];
        MoreKeys(old(rows), k);
        assert forall x :: HasKey(old(rows), x) ==> HasKey(rows, x);
      }
    }

    method AddCatalogue(catalogue: seq<CatalogueEntry>)
      requires rows == []
      modifies this
      ensures DistinctKeys(rows) && AllPoured(rows, [], []) && KeysKnown(rows, [], [])
      ensures forall x :: HasKey(rows, x) <==> Catalogued(catalogue, x)
    {
      NothingListed();
      hide Poured, Wanted, Requested, Catalogued;
      for n := 0 to |catalogue|
        invariant DistinctKeys(rows) && AllPoured(rows, [], []) && KeysKnown(rows, [], [])
        invariant forall x :: HasKey(rows, x) <==> Catalogued(catalogue[..n], x)
      {
        var _ := RowFor(CatalogueKey(catalogue[n]), [], []);
        assert catalogue[..n + 1] == catalogue[..n] + [catalogue[n]];
        forall x ensures HasKey(rows, x) <==> Catalogued(catalogue[..n + 1], x) { CataloguedOneMore(catalogue[..n], catalogue[n], x); }
      }
      assert catalogue[..|catalogue|] == catalogue;
    }

    method AddDemand(demand: seq<DemandLine>)
      requires DistinctKeys(rows) && AllPoured(rows, [], []) && KeysKnown(rows, [], [])
      modifies this
      ensures DistinctKeys(rows) && AllPoured(rows, demand, []) && KeysKnown(rows, demand, [])
      ensures forall x :: HasKey(rows, x) <==> HasKey(old(rows), x) || Wanted(demand, x)
    {
      hide Poured, Wanted, Requested, Catalogued;
      for n := 0 to |demand|
        invariant DistinctKeys(rows) && AllPoured(rows, demand[..n], []) && KeysKnown(rows, demand[..n], [])
        invariant forall x :: HasKey(rows, x) <==> HasKey(old(rows), x) || Wanted(demand[..n], x)
      {
        var line := demand[n];
        var at := RowFor(DemandKey(line), demand[..n], []);
        ghost var before := rows;
        rows := rows[at := rows[at].(demand := rows[at].demand + line.quantity, orders := rows[at].orders + [line])];
        DemandPoured(before, rows, demand[..n], line, at);
        assert demand[..n + 1] == demand[..n] + [line];
        SameKeys(before, rows);
        forall x ensures Wanted(demand[..n + 1], x) <==> Wanted(demand[..n], x) || x == DemandKey(line) {
          WantedOneMore(demand[..n], line, x);
        }
      }
      assert demand[..|demand|] == demand;
    }

    method AddRequests(requests: seq<RequestLine>, ghost demand: seq<DemandLine>)
      requires DistinctKeys(rows) && AllPoured(rows, demand, []) && KeysKnown(rows, demand, [])
      modifies this
      ensures DistinctKeys(rows) && AllPoured(rows, demand, requests) && KeysKnown(rows, demand, requests)
      ensures forall x :: HasKey(rows, x) <==> HasKey(old(rows), x) || Requested(requests, x)
    {
      hide Poured, Wanted, Requested, Catalogued;
      for n := 0 to |requests|
        invariant DistinctKeys(rows) && AllPoured(rows, demand, requests[..n]) && KeysKnown(rows, demand, requests[..n])
        invariant forall x :: HasKey(rows, x) <==> HasKey(old(rows), x) || Requested(requests[..n], x)
      {
        var line := requests[n];
        var outstanding := Max(0, line.quantity - line.received);
        var at := RowFor(RequestKey(line), demand, requests[..n]);
        ghost var before := rows;
        var row := rows[at].(requests := rows[at].requests + [line]);
        if line.status == Draft {
          row := row.(draft := row.draft + outstanding);
        } else if OnOrder(line) {
          row := row.(onOrder := row.onOrder + outstanding);
        }
        rows := rows[at := row];
        RequestPoured(before, rows, demand, requests[..n], line, at);
        assert requests[..n + 1] == requests[..n] + [line];
        SameKeys(before, rows);
        forall x ensures Requested(requests[..n + 1], x) <==> Requested(requests[..n], x) || x == RequestKey(line) {
          RequestedOneMore(requests[..n], line, x);
        }
      }
      assert requests[..|requests|] == requests;
    }

    /** Stock, shortage and the order of the orders, row by row. */
    method Finish(input: Input, totalStock: map<(Id, Id), int>, customTotal: map<(Id, Id), int>, customByLine: map<RowKey, int>)
      requires AllPoured(rows, input.demand, input.requests)
      requires TotalsRight(input, totalStock, customTotal, customByLine)
      modifies this
      ensures |rows| == |old(rows)|
      ensures forall i :: 0 <= i < |rows| ==> rows[i] == RowOf(input, old(rows)[i].key)
    {
      hide StockOf, StableSort.Sorted, SumBy;
      for i := 0 to |rows|
        invariant |rows| == |old(rows)|
        invariant forall j :: 0 <= j < i ==> rows[j] == RowOf(input, old(rows)[j].key)
        invariant forall j :: i <= j < |rows| ==> rows[j] == old(rows)[j]
      {
        var row := rows[i];
        assert Poured(row, input.demand, input.requests);
        if row.key.location.Some? {
          var pair := (row.key.location.value, row.key.item);
          row := row.(stock :=
            if row.key.customFor.Some? then Look(customByLine, row.key)
            else Max(0, Look(totalStock, pair) - Look(customTotal, pair)));
        } else {
          row := row.(stock := 0);
        }
        row := row.(short := Max(0, row.demand - row.stock - row.onOrder - row.draft),
                    orders := StableSort.Sorted(row.orders, ByUrgency()));
        assert row == RowOf(input, row.key);
        rows := rows[i := row];
      }
    }
  }

  function Look<K>(m: map<K, int>, k: K): int { if k in m then m[k] else 0 }

  ghost predicate TotalsRight(input: Input, totalStock: map<(Id, Id), int>, customTotal: map<(Id, Id), int>, customByLine: map<RowKey, int>) {
    && (forall location, item :: Look(totalStock, (location, item)) == StockOf(input.stock, location, item))
    && (forall location, item :: Look(customTotal, (location, item)) == SumBy(input.customLots, CustomAt(location, item)))
    && (forall location, item, line ::
          Look(customByLine, RowKey(Some(location), item, Some(line))) == SumBy(input.customLots, CustomForLine(location, item, line)))
  }

  method TotalStock(levels: seq<StockLevel>) returns (total: map<(Id, Id), int>)
    ensures forall location, item :: Look(total, (location, item)) == StockOf(levels, location, item)
  {
    total := map[];
    for n := 0 to |levels|
      invariant forall location, item :: Look(total, (location, item)) == StockOf(levels[..n], location, item)
    {
      assert levels[..n + 1][..n] == levels[..n];
      total := total[(levels[n].location, levels[n].item) := levels[n].stock];
    }
    assert levels[..|levels|] == levels;
  }

  method CustomTotals(lots: seq<CustomLot>) returns (total: map<(Id, Id), int>, byLine: map<RowKey, int>)
    ensures forall location, item :: Look(total, (location, item)) == SumBy(lots, CustomAt(location, item))
    ensures forall location, item, line ::
      Look(byLine, RowKey(Some(location), item, Some(line))) == SumBy(lots, CustomForLine(location, item, line))
  {
    total, byLine := map[], map[];
    for n := 0 to |lots|
      invariant forall location, item :: Look(total, (location, item)) == SumBy(lots[..n], CustomAt(location, item))
      invariant forall location, item, line ::
        Look(byLine, RowKey(Some(location), item, Some(line))) == SumBy(lots[..n], CustomForLine(location, item, line))
    {
      var lot := lots[n];
      var pair, key := (lot.location, lot.item), RowKey(Some(lot.location), lot.item, Some(lot.orderItem));
      total := total[pair := Look(total, pair) + lot.remaining];
      byLine := byLine[key := Look(byLine, key) + lot.remaining];
      forall location, item ensures Look(total, (location, item)) == SumBy(lots[..n + 1], CustomAt(location, item)) {
        SumByPrefix(lots, n + 1, CustomAt(location, item));
      }
      forall location, item, line
        ensures Look(byLine, RowKey(Some(location), item, Some(line))) == SumBy(lots[..n + 1], CustomForLine(location, item, line))
      {
        SumByPrefix(lots, n + 1, CustomForLine(location, item, line));
      }
    }
    assert lots[..|lots|] == lots;
  }

  /** Main result. One row for each key that is in the catalogue, wanted or requested, and no other;
      each row says of its key exactly what the input adds up to; the rows are in order. */
  method BuildProductionList(input: Input) returns (list: seq<Row>)
    ensures DistinctKeys(list) && forall k :: HasKey(list, k) <==> Listed(input, k)
    ensures forall i :: 0 <= i < |list| ==> list[i] == RowOf(input, list[i].key)
    ensures InOrder(list, ByRow())
  {
    hide Poured, RowOf, StableSort.Sorted, CompareRows;
    var totalStock := TotalStock(input.stock);
    var customTotal, customByLine := CustomTotals(input.customLots);
    var sheet := new Sheet();
    sheet.AddCatalogue(input.catalogue);
    sheet.AddDemand(input.demand);
    sheet.AddRequests(input.requests, input.demand);
    ghost var keyed := sheet.rows;
    sheet.Finish(input, totalStock, customTotal, customByLine);
    RowKeys(input, keyed, sheet.rows);
    forall k ensures HasKey(sheet.rows, k) <==> Listed(input, k) {}
    list := StableSort.Sorted(sheet.rows, ByRow());
    RowsAreCompared();
    SortedRight(sheet.rows, ByRow());
    SortedRows(input, sheet.rows, list);
  }

  lemma RowKeys(input: Input, keyed: seq<Row>, rows: seq<Row>)
    requires |rows| == |keyed| && DistinctKeys(keyed)
    requires forall i :: 0 <= i < |rows| ==> rows[i] == RowOf(input, keyed[i].key)
    ensures DistinctKeys(rows) && forall k :: HasKey(rows, k) <==> HasKey(keyed, k)
    ensures forall i :: 0 <= i < |rows| ==> rows[i].key == keyed[i].key
  {
    hide StableSort.Sorted, SumBy;
    assert forall i :: 0 <= i < |rows| ==> rows[i].key == keyed[i].key;
    forall k | HasKey(keyed, k) ensures HasKey(rows, k) {
      var i :| 0 <= i < |keyed| && keyed[i].key == k;
      assert rows[i].key == k;
    }
  }

  /** Reordering rows changes neither what they say nor which keys there are. */
  lemma SortedRows(input: Input, rows: seq<Row>, list: seq<Row>)
    requires multiset(list) == multiset(rows) && |list| == |rows| && DistinctKeys(rows)
    requires forall i :: 0 <= i < |rows| ==> rows[i] == RowOf(input, rows[i].key)
    ensures DistinctKeys(list) && forall k :: HasKey(list, k) <==> HasKey(rows, k)
    ensures forall i :: 0 <= i < |list| ==> list[i] == RowOf(input, list[i].key)
  {
    hide RowOf;
    forall i | 0 <= i < |list| ensures list[i] == RowOf(input, list[i].key) && HasKey(rows, list[i].key) {
      assert list[i] in multiset(rows);
      var j :| 0 <= j < |rows| && rows[j] == list[i];
    }
    forall k | HasKey(rows, k) ensures HasKey(list, k) {
      var j :| 0 <= j < |rows| && rows[j].key == k;
      assert rows[j] in multiset(list);
      var i :| 0 <= i < |list| && list[i] == rows[j];
    }
    DistinctRows(rows);
    forall i, j | 0 <= i < j < |list| ensures list[i].key != list[j].key {
      if list[i].key == list[j].key { TwiceIsTwo(list, i, j); }
    }
  }

  lemma {:induction false} DistinctRows(rows: seq<Row>)
    requires DistinctKeys(rows)
    ensures forall r :: multiset(rows)[r] <= 1
  {
    if rows != [] {
      var front, last := rows[..|rows| - 1], rows[|rows| - 1];
      DistinctRows(front);
      LastApart(rows);
      assert forall i :: 0 <= i < |front| ==> front[i] == rows[i] && rows[i].key != last.key;
      assert last !in front;
      assert multiset(front)[last] == 0;
    }
  }

  lemma TwiceIsTwo(s: seq<Row>, i: nat, j: nat)
    requires i < j < |s| && s[i] == s[j]
    ensures multiset(s)[s[i]] >= 2
  {
    assert s == s[..j] + s[j..];
    assert s[..j][i] == s[i] && s[j..][0] == s[j];
    assert s[i] in multiset(s[..j]) && s[i] in multiset(s[j..]);
    assert multiset(s) == multiset(s[..j]) + multiset(s[j..]);
  }

  lemma DemandPoured(before: seq<Row>, after: seq<Row>, demand: seq<DemandLine>, d: DemandLine, at: nat)
    requires DistinctKeys(before) && AllPoured(before, demand, []) && at < |before| && before[at].key == DemandKey(d)
    requires after == before[at := before[at].(demand := before[at].demand + d.quantity, orders := before[at].orders + [d])]
    ensures DistinctKeys(after) && AllPoured(after, demand + [d], [])
  {
    hide Poured;
    forall i | 0 <= i < |after| ensures Poured(after[i], demand + [d], []) {
      PourDemand(before[i], demand, [], d);
      if i < at { assert before[i].key != before[at].key; }
      if i > at { assert before[at].key != before[i].key; }
    }
  }

  lemma RequestPoured(before: seq<Row>, after: seq<Row>, demand: seq<DemandLine>, requests: seq<RequestLine>, r: RequestLine, at: nat)
    requires DistinctKeys(before) && AllPoured(before, demand, requests) && at < |before| && before[at].key == RequestKey(r)
    requires after == before[at := WithRequest(before[at], r)]
    ensures DistinctKeys(after) && AllPoured(after, demand, requests + [r])
  {
    hide Poured;
    forall i | 0 <= i < |after| ensures Poured(after[i], demand, requests + [r]) {
      PourRequest(before[i], demand, requests, r);
      if i < at { assert before[i].key != before[at].key; }
      if i > at { assert before[at].key != before[i].key; }
    }
  }


  lemma NothingListed()
    ensures forall x :: !Catalogued([], x) && !Wanted([], x) && !Requested([], x)
  {}

  lemma WantedOneMore(demand: seq<DemandLine>, d: DemandLine, x: RowKey)
    ensures Wanted(demand + [d], x) <==> Wanted(demand, x) || x == DemandKey(d)
  {
    assert d in demand + [d];
    assert forall y :: y in demand ==> y in demand + [d];
  }

  lemma RequestedOneMore(requests: seq<RequestLine>, r: RequestLine, x: RowKey)
    ensures Requested(requests + [r], x) <==> Requested(requests, x) || x == RequestKey(r)
  {
    assert r in requests + [r];
    assert forall y :: y in requests ==> y in requests + [r];
  }

  lemma CataloguedOneMore(catalogue: seq<CatalogueEntry>, c: CatalogueEntry, x: RowKey)
    ensures Catalogued(catalogue + [c], x) <==> Catalogued(catalogue, x) || x == CatalogueKey(c)
  {
    assert c in catalogue + [c];
    assert forall y :: y in catalogue ==> y in catalogue + [c];
  }

  lemma SameKeys(before: seq<Row>, after: seq<Row>)
    requires |before| == |after| && forall i :: 0 <= i < |before| ==> before[i].key == after[i].key
    ensures forall x :: HasKey(before, x) <==> HasKey(after, x)
  {
    forall x | HasKey(before, x) ensures HasKey(after, x) {
      var i :| 0 <= i < |before| && before[i].key == x;
      assert after[i].key == x;
    }
    forall x | HasKey(after, x) ensures HasKey(before, x) {
      var i :| 0 <= i < |after| && after[i].key == x;
      assert before[i].key == x;
    }
  }

  lemma MoreKeys(rows: seq<Row>, k: RowKey)
    requires forall i :: 0 <= i < |rows| ==> rows[i].key != k
    ensures forall x :: HasKey(rows + [Blank(k)], x) <==> HasKey(rows, x) || x == k
  {
    var more := rows + [Blank(k)];
    assert more[|rows|].key == k;
    forall x | HasKey(rows, x) ensures HasKey(more, x) {
      var i :| 0 <= i < |rows| && rows[i].key == x;
      assert more[i].key == x;
    }
  }

  // ---------------------------------------------------------------- nothing is lost

  /** A list of rows that is right for the input. */
  ghost predicate RightList(input: Input, list: seq<Row>) {
    && DistinctKeys(list) && (forall k :: HasKey(list, k) <==> Listed(input, k))
    && forall i :: 0 <= i < |list| ==> list[i] == RowOf(input, list[i].key)
  }

  function OfKey(k: RowKey, x: int): Row -> int { (r: Row) => if r.key == k then x else 0 }

  lemma {:induction false} OneRowHasKey(list: seq<Row>, k: RowKey, x: int)
    requires DistinctKeys(list)
    ensures SumBy(list, OfKey(k, x)) == if HasKey(list, k) then x else 0
  {
    if list != [] {
      var front, last := list[..|list| - 1], list[|list| - 1];
      OneRowHasKey(front, k, x);
      if HasKey(front, k) {
        var i :| 0 <= i < |front| && front[i].key == k;
        assert list[i].key == k && list[i].key != last.key;
      }
      if last.key == k { assert list[|list| - 1].key == k; }
      if HasKey(list, k) && last.key != k {
        var i :| 0 <= i < |list| && list[i].key == k;
        assert front[i].key == k;
      }
    }
  }

  function WantedOn(demand: seq<DemandLine>): Row -> int { (r: Row) => SumBy(demand, WantedAt(r.key)) }

  function Quantity(): DemandLine -> int { (d: DemandLine) => d.quantity }

  lemma {:induction false} DemandSpreads(list: seq<Row>, demand: seq<DemandLine>)
    requires DistinctKeys(list) && forall d :: d in demand ==> HasKey(list, DemandKey(d))
    ensures SumBy(list, WantedOn(demand)) == SumBy(demand, Quantity())
  {
    if demand == [] {
      SumByZero(list, WantedOn(demand));
    } else {
      var front, last := demand[..|demand| - 1], demand[|demand| - 1];
      assert last in demand;
      DemandSpreads(list, front);
      SumByAdd(list, WantedOn(front), OfKey(DemandKey(last), last.quantity), WantedOn(demand));
      OneRowHasKey(list, DemandKey(last), last.quantity);
    }
  }

  function OpenOn(requests: seq<RequestLine>): Row -> int {
    (r: Row) => SumBy(requests, OnOrderAt(r.key)) + SumBy(requests, DraftAt(r.key))
  }

  function StillOpen(): RequestLine -> int {
    (r: RequestLine) => if r.status != Closed && r.received < r.quantity then r.quantity - r.received else 0
  }

  lemma {:induction false} RequestsSpread(list: seq<Row>, requests: seq<RequestLine>)
    requires DistinctKeys(list) && forall r :: r in requests ==> HasKey(list, RequestKey(r))
    ensures SumBy(list, OpenOn(requests)) == SumBy(requests, StillOpen())
  {
    if requests == [] {
      SumByZero(list, OpenOn(requests));
    } else {
      var front, last := requests[..|requests| - 1], requests[|requests| - 1];
      assert last in requests;
      RequestsSpread(list, front);
      SumByAdd(list, OpenOn(front), OfKey(RequestKey(last), StillOpen()(last)), OpenOn(requests));
      OneRowHasKey(list, RequestKey(last), StillOpen()(last));
    }
  }

  function DemandOf(): Row -> int { (r: Row) => r.demand }

  function ComingOf(): Row -> int { (r: Row) => r.onOrder + r.draft }

  /** Over all rows the demand is all the demand, and what is coming is all that is still open. */
  lemma NothingIsLost(input: Input, list: seq<Row>)
    requires RightList(input, list)
    ensures SumBy(list, DemandOf()) == SumBy(input.demand, Quantity())
    ensures SumBy(list, ComingOf()) == SumBy(input.requests, StillOpen())
  {
    forall d | d in input.demand ensures HasKey(list, DemandKey(d)) { assert Wanted(input.demand, DemandKey(d)); }
    forall r | r in input.requests ensures HasKey(list, RequestKey(r)) { assert Requested(input.requests, RequestKey(r)); }
    DemandSpreads(list, input.demand);
    RequestsSpread(list, input.requests);
    forall r | r in list ensures DemandOf()(r) == WantedOn(input.demand)(r) && ComingOf()(r) == OpenOn(input.requests)(r) {
      var i :| 0 <= i < |list| && list[i] == r;
    }
    SumBySame(list, DemandOf(), WantedOn(input.demand));
    SumBySame(list, ComingOf(), OpenOn(input.requests));
  }

  // ---------------------------------------------------------------- total stock or the shelf

  function WaitingAt(k: RowKey): DemandLine -> int {
    (d: DemandLine) => if DemandKey(d) == k && d.status == Confirmed then d.quantity else 0
  }

  function HeldAt(k: RowKey): DemandLine -> int {
    (d: DemandLine) => if DemandKey(d) == k && d.status != Confirmed then d.quantity else 0
  }

  /** The list counts packed orders as demand against the total stock. Where nothing is made to measure
      and the locked stock is what the packed orders hold, that is the shortage of the orders still
      waiting against the shelf. */
  lemma ShortAgainstTheShelf(input: Input, location: Id, item: Id, locked: int)
    requires var k := RowKey(Some(location), item, None);
      locked == SumBy(input.demand, HeldAt(k)) && 0 <= locked <= StockOf(input.stock, location, item)
    requires forall l :: l in input.customLots ==> l.location != location || l.item != item
    ensures var k := RowKey(Some(location), item, None);
      var shelf := StockOf(input.stock, location, item) - locked;
      RowOf(input, k).short
        == ShortOf(SumBy(input.demand, WaitingAt(k)), shelf, SumBy(input.requests, OnOrderAt(k)), SumBy(input.requests, DraftAt(k)))
  {
    hide StableSort.Sorted, OrdersAt, RequestsAt;
    var k := RowKey(Some(location), item, None);
    SumByZero(input.customLots, CustomAt(location, item));
    SumByAdd(input.demand, WaitingAt(k), HeldAt(k), WantedAt(k));
  }

  // ---------------------------------------------------------------- the order of the list, in plain words

  predicate Lowest(p: Priority) { p == Normal || p == Unknown }

  predicate SamePriority(p: Priority, q: Priority) { p == q || (Lowest(p) && Lowest(q)) }

  /** No reason to serve `b` before `a`: not its priority; at one priority not its date, no date being the
      last; on one date not its code. */
  predicate MayStandBefore(a: DemandLine, b: DemandLine) {
    && (b.priority == Urgent ==> a.priority == Urgent)
    && (b.priority == High ==> a.priority == Urgent || a.priority == High)
    && (SamePriority(a.priority, b.priority) ==>
          && (b.wanted.Some? ==> a.wanted.Some? && a.wanted.value <= b.wanted.value)
          && (a.wanted == b.wanted ==> a.code <= b.code))
  }

  predicate OrdersInLine(orders: seq<DemandLine>) {
    forall i, j :: 0 <= i < j < |orders| ==> MayStandBefore(orders[i], orders[j])
  }

  predicate EquallyUrgent(a: DemandLine, b: DemandLine) { MayStandBefore(a, b) && MayStandBefore(b, a) }

  /** Short rows before rows that are not; among either, rows with orders before rows without, by their first
      order, and where that does not decide the larger gap first. */
  predicate RowMayStandBefore(a: Row, b: Row) {
    && (b.short > 0 ==> a.short > 0)
    && ((a.short > 0) == (b.short > 0) ==>
          && (b.orders != [] ==> a.orders != [])
          && (a.orders != [] && b.orders != [] ==> MayStandBefore(a.orders[0], b.orders[0]))
          && (a.orders == [] && b.orders == [] ==> a.short >= b.short)
          && (a.orders != [] && b.orders != [] && EquallyUrgent(a.orders[0], b.orders[0]) ==> a.short >= b.short))
  }

  lemma UrgencyMeans(a: DemandLine, b: DemandLine)
    ensures CompareUrgency(a, b) <= 0 <==> MayStandBefore(a, b)
  {}

  lemma RowOrderMeans(a: Row, b: Row)
    ensures CompareRows(a, b) <= 0 <==> RowMayStandBefore(a, b)
  {
    hide CompareUrgency, MayStandBefore;
    if a.orders != [] && b.orders != [] {
      UrgencyMeans(a.orders[0], b.orders[0]);
      UrgencyMeans(b.orders[0], a.orders[0]);
      UrgencyMirrors(a.orders[0], b.orders[0]);
      UrgencyMirrors(b.orders[0], a.orders[0]);
    }
  }

  /** Demand belongs on the row of its place and item; made to measure, on that of its order line alone. */
  predicate DemandOn(d: DemandLine, k: RowKey) {
    k.location == d.location && k.item == d.item && (if d.custom then k.customFor == Some(d.orderItem) else k.customFor == None)
  }

  /** So does what was asked of the workshop. */
  predicate RequestOn(r: RequestLine, k: RowKey) { k.location == Some(r.location) && k.item == r.item && k.customFor == r.customFor }

  lemma {:induction false} RequestsAtHold(requests: seq<RequestLine>, k: RowKey, r: RequestLine)
    ensures multiset(RequestsAt(requests, k))[r] == if RequestOn(r, k) then multiset(requests)[r] else 0
  {
    if requests != [] {
      LastApart(requests);
      RequestsAtHold(requests[..|requests| - 1], k, r);
    }
  }

  lemma {:induction false} OrdersAtHolds(demand: seq<DemandLine>, k: RowKey, d: DemandLine)
    ensures multiset(OrdersAt(demand, k))[d] == if DemandOn(d, k) then multiset(demand)[d] else 0
  {
    if demand != [] {
      LastApart(demand);
      OrdersAtHolds(demand[..|demand| - 1], k, d);
    }
  }

  /** A row's orders are its demand, each as often as it was asked, and they stand in line. */
  lemma OrdersOfARow(input: Input, k: RowKey)
    ensures OrdersInLine(RowOf(input, k).orders)
    ensures forall d :: multiset(RowOf(input, k).orders)[d] == if DemandOn(d, k) then multiset(input.demand)[d] else 0
  {
    var orders := OrdersAt(input.demand, k);
    hide SumBy, StockFor, OrdersAt, StableSort.Sorted, CompareUrgency, MayStandBefore;
    UrgencyIsAComparison();
    SortedRight(orders, ByUrgency());
    var sorted := RowOf(input, k).orders;
    forall i, j | 0 <= i < j < |sorted| ensures MayStandBefore(sorted[i], sorted[j]) { UrgencyMeans(sorted[i], sorted[j]); }
    forall d ensures multiset(sorted)[d] == if DemandOn(d, k) then multiset(input.demand)[d] else 0 {
      OrdersAtHolds(input.demand, k, d);
    }
  }

  /** Main result on the order. On a list as it is built, no row stands behind one it should come before, and
      within a row no order does: urgent before high before the rest, then by date, then by code. */
  lemma MostUrgentFirst(input: Input, list: seq<Row>)
    requires RightList(input, list) && InOrder(list, ByRow())
    ensures forall i, j :: 0 <= i < j < |list| ==> RowMayStandBefore(list[i], list[j])
    ensures forall i :: 0 <= i < |list| ==> OrdersInLine(list[i].orders)
    ensures forall i, d :: 0 <= i < |list| ==>
      multiset(list[i].orders)[d] == if DemandOn(d, list[i].key) then multiset(input.demand)[d] else 0
  {
    hide RowOf, OrdersInLine, RowMayStandBefore, CompareRows;
    forall i, j | 0 <= i < j < |list| ensures RowMayStandBefore(list[i], list[j]) { RowOrderMeans(list[i], list[j]); }
    forall i | 0 <= i < |list|
      ensures OrdersInLine(list[i].orders)
      ensures forall d :: multiset(list[i].orders)[d] == if DemandOn(d, list[i].key) then multiset(input.demand)[d] else 0
    {
      OrdersOfARow(input, list[i].key);
    }
  }

  // ---------------------------------------------------------------- what is short, and whose the stock is

  function StillToCome(draft: bool): RequestLine -> int {
    (r: RequestLine) => if r.status != Closed && (r.status == Draft) == draft && r.received < r.quantity then r.quantity - r.received else 0
  }

  lemma {:induction false} RequestSums(requests: seq<RequestLine>, k: RowKey)
    ensures SumBy(requests, DraftAt(k)) == SumBy(RequestsAt(requests, k), StillToCome(true))
    ensures SumBy(requests, OnOrderAt(k)) == SumBy(RequestsAt(requests, k), StillToCome(false))
  {
    if requests != [] {
      var front, last := requests[..|requests| - 1], requests[|requests| - 1];
      RequestSums(front, k);
      assert RequestsAt(front, k) + [] == RequestsAt(front, k);
      SumByAppend(RequestsAt(front, k), last, StillToCome(true));
      SumByAppend(RequestsAt(front, k), last, StillToCome(false));
    }
  }

  lemma {:induction false} DemandSums(demand: seq<DemandLine>, k: RowKey)
    ensures SumBy(demand, WantedAt(k)) == SumBy(OrdersAt(demand, k), Quantity())
  {
    if demand != [] {
      var front, last := demand[..|demand| - 1], demand[|demand| - 1];
      DemandSums(front, k);
      assert OrdersAt(front, k) + [] == OrdersAt(front, k);
      SumByAppend(OrdersAt(front, k), last, Quantity());
    }
  }

  /** A row's figures are those of what it lists: its demand that of its orders; what is drafted and on order that
      of its requests, each as often as it was made, by what of them is still to come. */
  lemma RowAddsUp(input: Input, k: RowKey)
    ensures var row := RowOf(input, k);
      && row.demand == SumBy(row.orders, Quantity())
      && row.draft == SumBy(row.requests, StillToCome(true)) && row.onOrder == SumBy(row.requests, StillToCome(false))
      && forall r :: multiset(row.requests)[r] == if RequestOn(r, k) then multiset(input.requests)[r] else 0
  {
    hide SumBy, StockFor, OrdersAt, RequestsAt, StableSort.Sorted;
    DemandSums(input.demand, k);
    RequestSums(input.requests, k);
    SortedContents(OrdersAt(input.demand, k), ByUrgency());
    SameContentsSameSum(RowOf(input, k).orders, OrdersAt(input.demand, k), Quantity());
    forall r ensures multiset(RowOf(input, k).requests)[r] == if RequestOn(r, k) then multiset(input.requests)[r] else 0 {
      RequestsAtHold(input.requests, k, r);
    }
  }

  /** What is short is the least that, made on top, leaves nobody waiting. */
  lemma ShortIsTheLeast(input: Input, k: RowKey, more: int)
    ensures var row := RowOf(input, k);
      more >= row.short <==> more >= 0 && row.demand <= row.stock + row.onOrder + row.draft + more
  {
    hide StableSort.Sorted, StockFor, SumBy, OrdersAt, RequestsAt;
  }

  function ShownAt(location: Id, item: Id): Row -> int {
    (r: Row) => if r.key.location == Some(location) && r.key.item == item then r.stock else 0
  }

  /** What the custom lots give a row: those of its line at its place. */
  function LotShare(lots: seq<CustomLot>, location: Id, item: Id): Row -> int {
    (r: Row) => if r.key.location == Some(location) && r.key.item == item && r.key.customFor.Some?
                then SumBy(lots, CustomForLine(location, item, r.key.customFor.value)) else 0
  }

  lemma {:induction false} LotsSpread(list: seq<Row>, lots: seq<CustomLot>, location: Id, item: Id)
    requires DistinctKeys(list)
    requires forall l :: l in lots && l.location == location && l.item == item ==>
      HasKey(list, RowKey(Some(location), item, Some(l.orderItem)))
    ensures SumBy(list, LotShare(lots, location, item)) == SumBy(lots, CustomAt(location, item))
  {
    if lots == [] {
      SumByZero(list, LotShare(lots, location, item));
    } else {
      var front, last := lots[..|lots| - 1], lots[|lots| - 1];
      assert last in lots && forall l :: l in front ==> l in lots;
      LotsSpread(list, front, location, item);
      var k, share := RowKey(Some(location), item, Some(last.orderItem)), CustomAt(location, item)(last);
      SumByAdd(list, LotShare(front, location, item), OfKey(k, share), LotShare(lots, location, item));
      OneRowHasKey(list, k, share);
    }
  }

  lemma StockShown(input: Input, k: RowKey)
    ensures RowOf(input, k).key == k && RowOf(input, k).stock == StockFor(input, k)
  {}

  /** The stock of a location and item is shown once: the standard row and the rows made to measure share it,
      unless there is more made to measure than there is stock. */
  lemma StockIsShownOnce(input: Input, list: seq<Row>, location: Id, item: Id)
    requires RightList(input, list) && HasKey(list, RowKey(Some(location), item, None))
    requires forall l :: l in input.customLots && l.location == location && l.item == item ==>
      HasKey(list, RowKey(Some(location), item, Some(l.orderItem)))
    ensures SumBy(list, ShownAt(location, item))
         == Max(StockOf(input.stock, location, item), SumBy(input.customLots, CustomAt(location, item)))
  {
    hide StableSort.Sorted, OrdersAt, RequestsAt, SumBy, DistinctKeys, HasKey;
    var k := RowKey(Some(location), item, None);
    var custom := SumBy(input.customLots, CustomAt(location, item));
    var left := Max(0, StockOf(input.stock, location, item) - custom);
    LotsSpread(list, input.customLots, location, item);
    OneRowHasKey(list, k, left);
    forall r | r in list ensures ShownAt(location, item)(r) == LotShare(input.customLots, location, item)(r) + OfKey(k, left)(r) {
      var i :| 0 <= i < |list| && list[i] == r;
      StockShown(input, r.key);
    }
    SumByAdd(list, LotShare(input.customLots, location, item), OfKey(k, left), ShownAt(location, item));
  }
}
