/** What a refusal tells: every route gives each of its reasons exactly when, of all it looks at in turn,
    that is the first thing wrong. */
module Refusals {
  import opened Common
  import opened StockLedger
  import opened StockOperations
  import opened OrderJourney
  import opened ShippingLaws
  import Money = OrderMoney
  import Custody = CashCustody
  import Cash = CashReconciliation

  // ---------------------------------------------------------------- goods

  predicate OfStock(e: ErrorCode) {
    e == QuantityMustBePositive || e == InsufficientStock || e == InventoryLockMismatch || e == InventoryLotShortage
  }

  lemma {:induction false} ShipAllOfStock(s: State, order: Id, lines: seq<OrderLine>, location: Id, items: seq<PackedItem>)
    ensures ShipAll(s, order, lines, location, items).Err? ==> OfStock(ShipAll(s, order, lines, location, items).error)
  {
    if items != [] { ShipAllOfStock(s, order, lines, location, items[..|items| - 1]); }
  }

  lemma {:induction false} ReleaseAllOfStock(s: State, holds: seq<LockLine>)
    ensures ReleaseAll(s, holds).Err? ==> OfStock(ReleaseAll(s, holds).error)
  {
    if holds != [] { ReleaseAllOfStock(s, holds[..|holds| - 1]); }
  }

  predicate HasPack(o: JourneyOrder, status: PackStatus) { exists p :: p in o.packs && p.status == status }

  lemma {:induction false} FirstPackIs(packs: seq<Pack>, status: PackStatus)
    ensures FirstPack(packs, status).Some? <==> exists p :: p in packs && p.status == status
  {
    if packs != [] { FirstPackIs(packs[1..], status); }
  }

  /** At the counter: first that the order is picked up there, then that it is ready, then that it is paid. */
  lemma HandOverRefused(w: World, id: nat, read: JourneyOrder, amountDue: int)
    requires id < |w.orders|
    ensures var r, ready := CommitHandOver(w, id, read, amountDue), read.status == Packed && HasPack(read, InPack);
      && (r == Err(OrderNotStorePickup) <==> read.kind != StorePickup)
      && (r == Err(OrderPickupNotReady) <==> read.kind == StorePickup && !ready)
      && (r == Err(OrderPickupBalanceDue) <==> read.kind == StorePickup && ready && amountDue > 0)
      && (read.kind == StorePickup && ready && amountDue <= 0 && w.orders[id].status != Packed ==> r == Err(OrderStatusConflict))
  {
    hide ShipAll;
    FirstPackIs(read.packs, InPack);
    FirstPackFound(read.packs, InPack);
    if FirstPack(read.packs, InPack).Some? {
      var p := read.packs[FirstPack(read.packs, InPack).value];
      ShipAllOfStock(w.stock, id, read.lines, p.location, p.items);
    }
  }

  /** On the road: first that the order may ship, then that its pack is with the carrier. */
  lemma ShipRefused(w: World, id: nat, read: JourneyOrder)
    requires id < |w.orders|
    ensures var r := CommitShip(w, id, read);
      && (r == Err(OrderStatusTransitionInvalid) <==> read.status != PickedUp)
      && (r == Err(FulfillmentNotHandedOver) <==> read.status == PickedUp && !HasPack(read, HandedOver))
      && (r == Err(OrderStatusConflict) <==> read.status == PickedUp && HasPack(read, HandedOver) && w.orders[id].status != PickedUp)
  {
    hide ShipAll;
    ComesFrom(read.status);
    FirstPackIs(read.packs, HandedOver);
    FirstPackFound(read.packs, HandedOver);
    if FirstPack(read.packs, HandedOver).Some? {
      var p := read.packs[FirstPack(read.packs, HandedOver).value];
      ShipAllOfStock(w.stock, id, read.lines, p.location, p.items);
    }
  }

  /** The source the stocked lines name. */
  predicate NamesTwo(lines: seq<OrderLine>) {
    exists l, m :: l in lines && m in lines && l.source.Some? && m.source.Some? && l.source != m.source
  }

  lemma TwoSources(lines: seq<OrderLine>)
    ensures |Sources(lines)| > 1 <==> NamesTwo(lines)
  {
    if NamesTwo(lines) {
      var l, m :| l in lines && m in lines && l.source.Some? && m.source.Some? && l.source != m.source;
      TwoElements(Sources(lines), l.source.value, m.source.value);
    } else if Sources(lines) != {} {
      var a :| a in Sources(lines);
      forall b | b in Sources(lines) ensures b == a {
        var l, m :| l in lines && m in lines && l.source == Some(a) && m.source == Some(b);
      }
      assert Sources(lines) == {a};
    }
  }

  /** Packing: first that the order may be packed, then that there is anything to pack, from one source, named by
      every line; then that it still waits. */
  lemma PackRefused(w: World, id: nat, read: JourneyOrder)
    requires id < |w.orders|
    ensures var r, lines, now := CommitPack(w, id, read), StockedLines(read.lines), w.orders[id];
      var named := forall l :: l in lines ==> l.source.Some?;
      var packs := read.status == Confirmed && lines != [] && !NamesTwo(lines) && named;
      && (r == Err(OrderStatusTransitionInvalid) <==> read.status != Confirmed)
      && (r == Err(FulfillmentNothingToPack) <==> read.status == Confirmed && lines == [])
      && (r == Err(FulfillmentMultipleSources) <==> read.status == Confirmed && lines != [] && NamesTwo(lines))
      && (r == Err(FulfillmentLineNoSource) <==> read.status == Confirmed && lines != [] && !NamesTwo(lines) && !named)
      && (r == Err(OrderStatusConflict) <==> packs && now.status != Confirmed)
  {
    hide LockEach, StockedLines, Sources;
    ComesFrom(read.status);
    var lines := StockedLines(read.lines);
    TwoSources(lines);
    NoSources(lines);
  }

  lemma NoSources(lines: seq<OrderLine>)
    ensures Sources(lines) == {} <==> forall l :: l in lines ==> l.source.None?
    ensures lines != [] ==> lines[0] in lines
  {
    forall l | l in lines && l.source.Some? ensures Sources(lines) != {} { assert l.source.value in Sources(lines); }
  }

  /** Calling off: first that the order may still be called off, then that it did not move since. */
  lemma CancelRefused(w: World, id: nat, read: JourneyOrder)
    requires id < |w.orders|
    ensures var r, early := CommitCancel(w, id, read), read.status in {PendingConfirmation, Confirmed, Packed, PickedUp};
      && (r == Err(OrderCancelNotAllowed) <==> !early)
      && (r == Err(OrderStatusConflict) <==> early && w.orders[id].status != read.status)
  {
    hide ReleaseAll;
    ComesFrom(read.status);
    ReleaseAllOfStock(w.stock, HoldsOf(read.lines, read.packs));
  }

  // ---------------------------------------------------------------- money

  /** Giving back: first that the order may still be called off; then more than is held is refused, and so is saying
      nothing while something is held; then that the order did not move; then a transfer that arrived. */
  lemma RefundRefused(now: Money.Money, read: Money.Money, amount: Option<nat>, via: Option<Money.Method>, at: int)
    ensures var r := Money.CommitCancel(now, read, amount, via, at);
      var early, held := read.status in {PendingConfirmation, Confirmed, Packed, PickedUp}, Money.Held(read.payments);
      var fits := Money.Asked(amount) <= Max(0, held);
      var said, stands := held > 0 ==> amount.Some?, Money.StillWaiting(now.payments, read.payments);
      && (r == Err(OrderCancelNotAllowed) <==> !early)
      && (r == Err(OrderRefundAmountRequired) <==> early && held > 0 && amount == None)
      && (r == Err(OrderRefundExceedsDeposit) <==> early && !fits)
      && (r == Err(OrderStatusConflict) <==> early && fits && said && now.status != read.status)
      && (r == Err(OrderQrPaymentNotPending) <==> early && fits && said && now.status == read.status && !stands)
  {
    ComesFrom(read.status);
    VoidAllRefused(now.payments, Money.PendingQr(read.payments));
    Money.WaitingVoided(now.payments, read.payments);
    hide Money.VoidAll, Money.PendingQr, Money.Held, Money.Latest;
  }

  lemma {:induction false} VoidAllRefused(payments: seq<Money.Payment>, ids: seq<nat>)
    ensures Money.VoidAll(payments, ids).Err? ==> Money.VoidAll(payments, ids).error == OrderQrPaymentNotPending
  {
    if ids != [] { VoidAllRefused(payments, ids[..|ids| - 1]); }
  }

  predicate TurnedAway(r: Result<Money.Money>, read: Money.Money) {
    var pickup, ready, owes := read.kind == StorePickup, read.status == Packed, Money.Held(read.payments) < read.grandTotal;
    && (r == Err(OrderNotStorePickup) <==> !pickup) && (r == Err(OrderPickupNotReady) <==> pickup && !ready)
    && (r == Err(OrderCollectionAmountMismatch) <==> pickup && ready && !owes)
  }

  /** Collecting: first that the order is picked up, then that it is ready, then that anything is due. */
  lemma CollectRefused(now: Money.Money, read: Money.Money, at: int)
    ensures TurnedAway(Money.CommitCollectCash(now, read, at), read) && TurnedAway(Money.CommitCollectQr(now, read, at), read)
    ensures var r := Money.CommitCollectCash(now, read, at);
      var asked := read.kind == StorePickup && read.status == Packed && Money.Held(read.payments) < read.grandTotal;
      && (r == Err(OrderQrPaymentNotPending) <==> asked && !Money.StillWaiting(now.payments, read.payments))
      && (r == Err(OrderStatusConflict) <==> asked && Money.StillWaiting(now.payments, read.payments) && now.status != Packed)
  {
    VoidAllRefused(now.payments, Money.PendingQr(read.payments));
    Money.WaitingVoided(now.payments, read.payments);
    hide Money.VoidAll, Money.PendingQr, Money.Held;
  }

  // ---------------------------------------------------------------- the drawer

  /** Filing a log: first that the day is open, then that the drawer is with whoever files; then the reasons a log is
      out of turn; then that nothing was written since. */
  lemma FilingRefused(now: Custody.Session, read: Custody.Session, f: Custody.Filing)
    ensures var r := Custody.SubmitShiftLog(now, read, f);
      var open, mine, starts := read.status == Custody.Open, read.holder == f.user, f.logType == Cash.Start;
      var started := read.logs != [] && read.logs[|read.logs| - 1].logType == Cash.Start && read.logs[|read.logs| - 1].staff == f.user;
      var named := read.logs == [] || (read.logs[|read.logs| - 1].logType == Cash.End && read.logs[|read.logs| - 1].next == Some(f.user));
      var stands := now.status == Custody.Open && now.holder == f.user && now.version == read.version;
      && (r == Err(CashDrawerClosed) <==> !open)
      && (r == Err(CashDrawerNotHolder) <==> open && !mine)
      && (r == Err(ShiftLogNextStaffInvalid) <==> open && mine && starts && f.next.Some?)
      && (r == Err(ShiftLogHandoverInvalid) <==> open && mine && starts && f.next == None && !named)
      && (r == Err(ShiftLogStartRequired) <==> open && mine && !starts && !started)
      && (r == Err(ShiftLogNextStaffSelf) <==> open && mine && !starts && started && f.next == Some(f.user))
      && (r == Err(StaffNotAtBranch) <==> open && mine && !starts && started && f.next !in {None, Some(f.user)} && !f.nextWorksHere)
      && (r == Err(CashDrawerConflict) <==> open && mine && Custody.TurnOf(read.logs, f) && !stands)
  {}
}
