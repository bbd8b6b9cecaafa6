/** The order journey over the stock tables: pack, hand to a carrier, ship, hand over at the counter,
    cancel, edit, and make a line to measure. Every route reads the order with its lines and packs,
    decides on what it read, and then claims the row in its transaction by the status it read; between
    the two anything may have happened. */
module OrderJourney {
  import opened Common
  import opened LotAllocation
  import opened StockLedger
  import opened StockOperations
  import opened StockInvariants

  // ---------------------------------------------------------------- the status graph

  datatype Status =
    | PendingConfirmation | Confirmed | Packed | PickedUp | Shipping | Received | Completed | Cancelled | Returned

  function Transitions(from: Status): set<Status> {
    match from
    case PendingConfirmation => {Confirmed, Cancelled}
    case Confirmed => {Packed, Cancelled}
    case Packed => {PickedUp, Completed, Cancelled}
    case PickedUp => {Shipping, Cancelled}
    case Shipping => {Received, Completed, Returned}
    case Received => {Completed, Returned}
    case Completed => {Returned}
    case Cancelled => {}
    case Returned => {}
  }

  predicate CanTransition(from: Status, to: Status) { to in Transitions(from) }

  /** How far along the journey a status is; no two statuses share a place. */
  function Rank(s: Status): nat {
    match s
    case PendingConfirmation => 0
    case Confirmed => 1
    case Packed => 2
    case PickedUp => 3
    case Shipping => 4
    case Received => 5
    case Completed => 6
    case Returned => 7
    case Cancelled => 8
  }

  /** No order ever comes back to a status it left: a claim by status cannot be fooled by a round trip. */
  lemma TransitionsOnlyClimb(from: Status, to: Status)
    ensures CanTransition(from, to) ==> Rank(from) < Rank(to)
    ensures Rank(from) == Rank(to) ==> from == to
  {
    match from {
      case PendingConfirmation => case Confirmed => case Packed => case PickedUp => case Shipping =>
      case Received => case Completed => case Cancelled => case Returned =>
    }
  }

  /** Told from the other end: an order can be called off exactly until its goods leave, come back exactly
      once they left, and otherwise goes one step at a time - or from the counter straight to its end. */
  lemma ComesFrom(from: Status)
    ensures CanTransition(from, Cancelled) <==> from in {PendingConfirmation, Confirmed, Packed, PickedUp}
    ensures CanTransition(from, Returned) <==> from in {Shipping, Received, Completed}
    ensures CanTransition(from, Completed) <==> from in {Packed, Shipping, Received}
    ensures CanTransition(from, Confirmed) <==> from == PendingConfirmation
    ensures CanTransition(from, Packed) <==> from == Confirmed
    ensures CanTransition(from, PickedUp) <==> from == Packed
    ensures CanTransition(from, Shipping) <==> from == PickedUp
    ensures CanTransition(from, Received) <==> from == Shipping
    ensures !CanTransition(from, PendingConfirmation)
  {
    match from {
      case PendingConfirmation => case Confirmed => case Packed => case PickedUp => case Shipping =>
      case Received => case Completed => case Cancelled => case Returned =>
    }
  }

  // ---------------------------------------------------------------- orders

  datatype FulfillmentType = StorePickup | HomeDelivery

  /** A stocked line is of goods; the others are a combo's price or a service. A custom line has a
      product item of its own. */
  datatype OrderLine = OrderLine(id: Id, item: Id, quantity: int, source: Option<Id>, stocked: bool, custom: bool)

  datatype PackStatus = InPack | HandedOver | Withdrawn

  /** A packed item names its order line; which product item that is, the line says. */
  datatype PackedItem = PackedItem(line: Id, quantity: int)

  datatype Pack = Pack(location: Id, items: seq<PackedItem>, status: PackStatus)

  /** `version` stands for the row's `updatedAt`. */
  datatype JourneyOrder = JourneyOrder(status: Status, kind: FulfillmentType, version: nat,
                                       lines: seq<OrderLine>, packs: seq<Pack>)

  /** `skus` are the product items there are, `lineIds` the ids order lines were ever given. */
  datatype World = World(stock: State, orders: seq<JourneyOrder>, skus: set<Id>, lineIds: set<Id>)

  function LineAt(lines: seq<OrderLine>, id: Id): (r: Option<OrderLine>)
    ensures r.Some? ==> r.value in lines && r.value.id == id
    ensures r.None? ==> forall l :: l in lines ==> l.id != id
  {
    if lines == [] then None
    else if lines[0].id == id then Some(lines[0])
    else LineAt(lines[1..], id)
  }

  predicate DistinctIds(lines: seq<OrderLine>) {
    forall i, j :: 0 <= i < j < |lines| ==> lines[i].id != lines[j].id
  }

  /** The product item of a line. A packed item's foreign key keeps its line there. */
  function SkuOf(lines: seq<OrderLine>, id: Id): Id {
    match LineAt(lines, id)
    case Some(l) => l.item
    case None => 0
  }

  function StockedLines(lines: seq<OrderLine>): (r: seq<OrderLine>)
    ensures forall l :: l in r <==> l in lines && l.stocked
  {
    if lines == [] then []
    else StockedLines(lines[..|lines| - 1]) + if lines[|lines| - 1].stocked then [lines[|lines| - 1]] else []
  }

  function Sources(lines: seq<OrderLine>): set<Id> { set l | l in lines && l.source.Some? :: l.source.value }

  /** The one location every line ships from. */
  function PackLocation(lines: seq<OrderLine>): Result<Id> {
    if |Sources(lines)| > 1 then Err(FulfillmentMultipleSources)
    else if Sources(lines) == {} || exists l :: l in lines && l.source == None then Err(FulfillmentLineNoSource)
    else
      var l := lines[0];
      if l.source.Some? then Ok(l.source.value) else Err(FulfillmentLineNoSource)
  }

  function PackedItems(lines: seq<OrderLine>): (r: seq<PackedItem>)
    ensures |r| == |lines| && forall i :: 0 <= i < |r| ==> r[i] == PackedItem(lines[i].id, lines[i].quantity)
  {
    seq(|lines|, i requires 0 <= i < |lines| => PackedItem(lines[i].id, lines[i].quantity))
  }

  /** What packing locks: the product items of the lines as they were read. */
  function LocksTaken(location: Id, lines: seq<OrderLine>): (r: seq<LockLine>)
    ensures |r| == |lines|
    ensures forall i :: 0 <= i < |r| ==> r[i] == LockLine(Key(location, lines[i].item), lines[i].quantity)
  {
    seq(|lines|, i requires 0 <= i < |lines| => LockLine(Key(location, lines[i].item), lines[i].quantity))
  }

  /** What a pack counts on being locked: the product items its lines have now. */
  function LocksOf(lines: seq<OrderLine>, location: Id, items: seq<PackedItem>): (r: seq<LockLine>)
    ensures |r| == |items|
    ensures forall i :: 0 <= i < |r| ==> r[i] == LockLine(Key(location, SkuOf(lines, items[i].line)), items[i].quantity)
  {
    seq(|items|, i requires 0 <= i < |items| => LockLine(Key(location, SkuOf(lines, items[i].line)), items[i].quantity))
  }

  predicate Locking(p: Pack) { p.status == InPack || p.status == HandedOver }

  function HoldsOf(lines: seq<OrderLine>, packs: seq<Pack>): seq<LockLine> {
    if packs == [] then []
    else
      var last := packs[|packs| - 1];
      HoldsOf(lines, packs[..|packs| - 1]) + if Locking(last) then LocksOf(lines, last.location, last.items) else []
  }

  predicate Holding(s: Status) { s == Packed || s == PickedUp }

  /** What an order counts on being locked at a key. */
  function HeldBy(k: Key): JourneyOrder -> int {
    (o: JourneyOrder) => if Holding(o.status) then SumBy(HoldsOf(o.lines, o.packs), NeedAt(k)) else 0
  }

  // ---------------------------------------------------------------- the stock side of the routes

  function ReleaseAll(s: State, holds: seq<LockLine>): Result<State> {
    if holds == [] then Ok(s)
    else
      match ReleaseAll(s, holds[..|holds| - 1])
      case Err(e) => Err(e)
      case Ok(t) => ReleaseLockedStock(t, holds[|holds| - 1].key, holds[|holds| - 1].quantity)
  }

  function ShipCause(order: Id, line: Id): LedgerRef { LedgerRef(Sale, Order, order, Some(line)) }

  function ShipAll(s: State, order: Id, lines: seq<OrderLine>, location: Id, items: seq<PackedItem>): Result<State> {
    if items == [] then Ok(s)
    else
      var last := items[|items| - 1];
      match ShipAll(s, order, lines, location, items[..|items| - 1])
      case Err(e) => Err(e)
      case Ok(t) => ShipLockedStock(t, Key(location, SkuOf(lines, last.line)), last.quantity, ShipCause(order, last.line))
  }

  // ---------------------------------------------------------------- the routes' transactions

  /** A line of an edit: one of the order, named by its id, or a new one and the id it is given. */
  datatype EditLine =
    | Kept(id: Id, item: Id, quantity: int, source: Option<Id>)
    | Added(id: Id, item: Id, quantity: int, source: Option<Id>, stocked: bool)

  /** `amountDue` is what the customer still owes when the counter hands over; `item` the id a product
      item made for a custom line gets; `requested` whether the workshop was already asked to make it. */
  datatype Request =
    | PackOrder
    | CancelOrder
    | GiveToCarrier(external: bool)
    | ShipOrder
    | HandOverAtCounter(amountDue: int)
    | EditOrder(edits: Option<seq<EditLine>>, kind: FulfillmentType)
    | Customize(line: Id, item: Id, requested: bool)

  function FirstPack(packs: seq<Pack>, status: PackStatus): Option<nat> {
    if packs == [] then None
    else if packs[0].status == status then Some(0)
    else match FirstPack(packs[1..], status) case None => None case Some(i) => Some(i + 1)
  }

  lemma {:induction false} FirstPackFound(packs: seq<Pack>, status: PackStatus)
    ensures match FirstPack(packs, status)
      case Some(i) => i < |packs| && packs[i].status == status
      case None => forall p :: p in packs ==> p.status != status
  {
    if packs != [] { FirstPackFound(packs[1..], status); }
  }

  function Write(w: World, id: nat, stock: State, o: JourneyOrder): World
    requires id < |w.orders|
  {
    w.(stock := stock, orders := w.orders[id := o.(version := w.orders[id].version + 1)])
  }

  function CommitPack(w: World, id: nat, read: JourneyOrder): Result<World>
    requires id < |w.orders|
  {
    var now := w.orders[id];
    var lines := StockedLines(read.lines);
    if !CanTransition(read.status, Packed) then Err(OrderStatusTransitionInvalid)
    else if lines == [] then Err(FulfillmentNothingToPack)
    else
      match PackLocation(lines)
      case Err(e) => Err(e)
      case Ok(location) =>
        if now.status != Confirmed then Err(OrderStatusConflict)
        else if exists l :: l in lines && LineAt(now.lines, l.id).None? then Err(ForeignKeyViolation)
        else
          match LockStock(w.stock, LocksTaken(location, lines))
          case Err(e) => Err(e)
          case Ok(stock) =>
            Ok(Write(w, id, stock, now.(status := Packed, packs := now.packs + [Pack(location, PackedItems(lines), InPack)])))
  }

  /** The packs a cancel read as locking, withdrawn. */
  function WithdrawPacks(now: seq<Pack>, read: seq<Pack>): (r: seq<Pack>)
    ensures |r| == |now|
    ensures forall i :: 0 <= i < |r| ==> r[i] == if i < |read| && Locking(read[i]) then now[i].(status := Withdrawn) else now[i]
  {
    seq(|now|, i requires 0 <= i < |now| => if i < |read| && Locking(read[i]) then now[i].(status := Withdrawn) else now[i])
  }

  function CommitCancel(w: World, id: nat, read: JourneyOrder): Result<World>
    requires id < |w.orders|
  {
    var now := w.orders[id];
    if !CanTransition(read.status, Cancelled) then Err(OrderCancelNotAllowed)
    else if now.status != read.status then Err(OrderStatusConflict)
    else
      match ReleaseAll(w.stock, HoldsOf(read.lines, read.packs))
      case Err(e) => Err(e)
      case Ok(stock) => Ok(Write(w, id, stock, now.(status := Cancelled, packs := WithdrawPacks(now.packs, read.packs))))
  }

  function HandOverPack(packs: seq<Pack>, i: nat): seq<Pack> {
    if i < |packs| && packs[i].status == InPack then packs[i := packs[i].(status := HandedOver)] else packs
  }

  /** A carrier outside the shop takes the goods at once; a driver of the shop takes it on a second visit,
      when the order's kind is no longer looked at. */
  function CommitGiveToCarrier(w: World, id: nat, read: JourneyOrder, external: bool): Result<World>
    requires id < |w.orders|
  {
    var now := w.orders[id];
    if external && read.kind == StorePickup then Err(ShipmentNotForPickup)
    else if read.status != Packed || FirstPack(read.packs, InPack).None? then
      Err(if external then ShipmentOrderNotPacked else OrderStatusTransitionInvalid)
    else if now.status != Packed then Err(OrderStatusConflict)
    else Ok(Write(w, id, w.stock, now.(status := PickedUp, packs := HandOverPack(now.packs, FirstPack(read.packs, InPack).value))))
  }

  function CommitShip(w: World, id: nat, read: JourneyOrder): Result<World>
    requires id < |w.orders|
  {
    var now := w.orders[id];
    if !CanTransition(read.status, Shipping) then Err(OrderStatusTransitionInvalid)
    else if FirstPack(read.packs, HandedOver).None? then Err(FulfillmentNotHandedOver)
    else if now.status != PickedUp then Err(OrderStatusConflict)
    else
      FirstPackFound(read.packs, HandedOver);
      var pack := read.packs[FirstPack(read.packs, HandedOver).value];
      match ShipAll(w.stock, id, read.lines, pack.location, pack.items)
      case Err(e) => Err(e)
      case Ok(stock) => Ok(Write(w, id, stock, now.(status := Shipping)))
  }

  function CommitHandOver(w: World, id: nat, read: JourneyOrder, amountDue: int): Result<World>
    requires id < |w.orders|
  {
    var now := w.orders[id];
    if read.kind != StorePickup then Err(OrderNotStorePickup)
    else if read.status != Packed || FirstPack(read.packs, InPack).None? then Err(OrderPickupNotReady)
    else if amountDue > 0 then Err(OrderPickupBalanceDue)
    else if now.status != Packed then Err(OrderStatusConflict)
    else
      FirstPackFound(read.packs, InPack);
      var i := FirstPack(read.packs, InPack).value;
      match ShipAll(w.stock, id, read.lines, read.packs[i].location, read.packs[i].items)
      case Err(e) => Err(e)
      case Ok(stock) =>
        if i >= |now.packs| || now.packs[i].status != InPack then Err(OrderStatusConflict)
        else Ok(Write(w, id, stock, now.(status := Completed, packs := HandOverPack(now.packs, i))))
  }

  // ---------------------------------------------------------------- edits and made-to-measure lines

  predicate Unshipped(s: Status) { s == Confirmed || s == Packed || s == PickedUp }

  function KeptAt(edits: seq<EditLine>, id: Id): (r: Option<EditLine>)
    ensures r.Some? ==> r.value in edits && r.value.Kept? && r.value.id == id
    ensures r.None? ==> forall e :: e in edits && e.Kept? ==> e.id != id
  {
    if edits == [] then None
    else if edits[0].Kept? && edits[0].id == id then Some(edits[0])
    else KeptAt(edits[1..], id)
  }

  /** A line named by its id must be on the order, be named once, and still be of the same product item. */
  function EditRefusal(lines: seq<OrderLine>, edits: seq<EditLine>): (r: Option<ErrorCode>)
    ensures r.Some? ==> r.value == OrderItemNotFound || r.value == OrderNotEditable
  {
    if edits == [] then None
    else
      var front, last := edits[..|edits| - 1], edits[|edits| - 1];
      if EditRefusal(lines, front).Some? || last.Added? then EditRefusal(lines, front)
      else if LineAt(lines, last.id).None? || KeptAt(front, last.id).Some? then Some(OrderItemNotFound)
      else if SkuOf(lines, last.id) != last.item then Some(OrderNotEditable)
      else None
  }

  /** Lines an edit does not name are gone; those it names change quantity and place only. */
  function KeptLines(lines: seq<OrderLine>, edits: seq<EditLine>): seq<OrderLine> {
    if lines == [] then []
    else
      var last := lines[|lines| - 1];
      KeptLines(lines[..|lines| - 1], edits)
        + match KeptAt(edits, last.id)
          case Some(e) => [last.(quantity := e.quantity, source := e.source)]
          case None => []
  }

  function AddedLines(edits: seq<EditLine>): seq<OrderLine> {
    if edits == [] then []
    else
      var last := edits[|edits| - 1];
      AddedLines(edits[..|edits| - 1])
        + if last.Added? then [OrderLine(last.id, last.item, last.quantity, last.source, last.stocked, false)] else []
  }

  function IdsOf(lines: seq<OrderLine>): set<Id> { set l | l in lines :: l.id }

  function CommitEdit(w: World, id: nat, read: JourneyOrder, edits: Option<seq<EditLine>>, kind: FulfillmentType): Result<World>
    requires id < |w.orders|
  {
    var now := w.orders[id];
    if !Unshipped(read.status) || (edits.Some? && read.status != Confirmed) then Err(OrderNotEditable)
    else if edits.Some? && EditRefusal(read.lines, edits.value).Some? then Err(EditRefusal(read.lines, edits.value).value)
    else if now.status != read.status || now.version != read.version then Err(OrderStatusConflict)
    else if edits.None? then Ok(Write(w, id, w.stock, now.(kind := kind)))
    else if exists l :: l in AddedLines(edits.value) && l.item !in w.skus then Err(ForeignKeyViolation)
    else
      var lines := KeptLines(now.lines, edits.value) + AddedLines(edits.value);
      Ok(Write(w, id, w.stock, now.(kind := kind, lines := lines)).(lineIds := w.lineIds + IdsOf(AddedLines(edits.value))))
  }

  /** A line moved to another product item. */
  function Moved(lines: seq<OrderLine>, id: Id, item: Id): (r: seq<OrderLine>)
    ensures |r| == |lines|
    ensures forall i :: 0 <= i < |r| ==> r[i] == if lines[i].id == id then lines[i].(item := item, custom := true) else lines[i]
  {
    seq(|lines|, i requires 0 <= i < |lines| => if lines[i].id == id then lines[i].(item := item, custom := true) else lines[i])
  }

  /** The first time, the line gets a product item of its own; afterwards that one is described anew. */
  function CommitCustomize(w: World, id: nat, read: JourneyOrder, line: Id, item: Id, requested: bool): Result<World>
    requires id < |w.orders|
  {
    var now := w.orders[id];
    var was := LineAt(read.lines, line);
    if was.None? then Err(OrderItemNotFound)
    else if read.status != Confirmed then Err(OrderNotEditable)
    else if !was.value.stocked then Err(OrderItemNotCustomizable)
    else if requested then Err(OrderItemCustomLocked)
    else if now.status != Confirmed then Err(OrderStatusConflict)
    else if LineAt(now.lines, line).None? then Err(if was.value.custom then ForeignKeyViolation else RecordNotFound)
    else if was.value.custom then Ok(Write(w, id, w.stock, now))
    else Ok(Write(w, id, w.stock, now.(lines := Moved(now.lines, line, item))).(skus := w.skus + {item}))
  }

  /** The transaction of a route that read the order as `read`; a refusal leaves the world alone. */
  function Commit(w: World, id: nat, read: JourneyOrder, request: Request): Result<World>
    requires id < |w.orders|
  {
    match request
    case PackOrder => CommitPack(w, id, read)
    case CancelOrder => CommitCancel(w, id, read)
    case GiveToCarrier(external) => CommitGiveToCarrier(w, id, read, external)
    case ShipOrder => CommitShip(w, id, read)
    case HandOverAtCounter(amountDue) => CommitHandOver(w, id, read, amountDue)
    case EditOrder(edits, kind) => CommitEdit(w, id, read, edits, kind)
    case Customize(line, item, requested) => CommitCustomize(w, id, read, line, item, requested)
  }

  /** The database hands out ids nobody has had. */
  predicate NewIds(w: World, request: Request) {
    match request
    case EditOrder(Some(edits), _) => DistinctIds(AddedLines(edits)) && IdsOf(AddedLines(edits)) !! w.lineIds
    case Customize(_, item, _) => item !in w.skus
    case _ => true
  }
}
