/** The money routes as they run against one order's rows: pending transfers are voided one by one, the
    order is claimed, the payment and its cash-book row are written; a refusal rolls everything back.
    Each method is proved to leave the rows as the function of the same name in OrderMoney says. */
module Till {
  import opened Common
  import opened OrderMoney
  import Journey = OrderJourney

  function Settled(before: Money, outcome: Result<Money>): Money { if outcome.Ok? then outcome.value else before }

  function Refusal<T>(outcome: Result<T>): Option<ErrorCode> { if outcome.Err? then Some(outcome.error) else None }

  lemma VoidOneMore(payments: seq<Payment>, ids: seq<nat>, i: nat)
    requires i < |ids|
    ensures VoidAll(payments, ids[..i + 1])
         == match VoidAll(payments, ids[..i])
            case Err(e) => Err(e)
            case Ok(kept) =>
              if ids[i] >= |kept| || kept[ids[i]].status != Pending then Err(OrderQrPaymentNotPending)
              else Ok(kept[ids[i] := kept[ids[i]].(status := Voided)])
  {
    assert ids[..i + 1][..i] == ids[..i];
  }

  lemma {:induction false} VoidStops(payments: seq<Payment>, ids: seq<nat>, i: nat)
    requires i <= |ids| && VoidAll(payments, ids[..i]).Err?
    ensures VoidAll(payments, ids) == VoidAll(payments, ids[..i])
  {
    if i < |ids| {
      assert ids[..|ids| - 1][..i] == ids[..i];
      VoidStops(payments, ids[..|ids| - 1], i);
    } else {
      assert ids[..i] == ids;
    }
  }

  /** What was read was right, and the order only moved on since. */
  ghost predicate WasRight(read: Money, now: Money) { MoneyRight(read) && Later(read, now) }

  /** However old what a route read, it leaves the money right, or as it was. */
  lemma SettledRight(now: Money, read: Money, a: Action)
    requires Reads(a)
    ensures MoneyRight(now) && WasRight(read, now) ==>
      MoneyRight(Settled(now, Commit(now, read, a))) && Later(now, Settled(now, Commit(now, read, a)))
  {
    hide MoneyRight, Later, Commit;
    LaterItself(now);
    if MoneyRight(now) && WasRight(read, now) && Commit(now, read, a).Ok? { CommitKeeps(now, read, a); }
  }

  class OrderRows {
    var status: Status
    var kind: Journey.FulfillmentType
    var version: nat
    var grandTotal: nat
    var deposit: Option<DepositTaken>
    var payStatus: PayStatus
    var payments: seq<Payment>
    var cash: seq<CashRow>

    function State(): Money
      reads this
    {
      Money(status, kind, version, grandTotal, deposit, payStatus, payments, cash)
    }

    /** The deposit on the order is what is held of it, and the cash book has exactly what was paid. */
    ghost predicate Valid()
      reads this
    {
      MoneyRight(State())
    }

    /** An order as it is created: confirmed, its deposit already in the cash book. */
    constructor (fulfillment: Journey.FulfillmentType, total: nat, taken: Option<DepositTaken>, via: Method, now: int)
      ensures status == Journey.Confirmed && kind == fulfillment && version == 0 && grandTotal == total && deposit == taken
      ensures payStatus == PayStatusFor(AmountOf(taken), total)
      ensures (payments, cash)
           == if taken.None? then ([], [])
              else Receipt([], [], Payment(Deposit, via, Paid, taken.value.amount, now, None), taken.value.amount)
    {
      status, kind, version, grandTotal, deposit := Journey.Confirmed, fulfillment, 0, total, taken;
      payStatus := PayStatusFor(AmountOf(taken), total);
      payments, cash := [], [];
      new;
      if taken.Some? {
        payments := payments + [Payment(Deposit, via, Paid, taken.value.amount, now, None)];
        cash := cash + [CashRow(0, true, taken.value.amount, via)];
      }
    }

    /** Void the transfers that were waiting; money that has just arrived stops the caller. */
    method CancelCounterQr(pending: seq<nat>) returns (refused: Option<ErrorCode>)
      modifies this`payments
      ensures refused == Refusal(VoidAll(old(payments), pending))
      ensures refused.None? ==> VoidAll(old(payments), pending) == Ok(payments)
    {
      hide VoidAll;
      ghost var start := payments;
      assert VoidAll(start, []) == Ok(start) by { VoidNothing(start); }
      for i := 0 to |pending|
        invariant VoidAll(start, pending[..i]) == Ok(payments)
      {
        VoidOneMore(start, pending, i);
        if pending[i] >= |payments| || payments[pending[i]].status != Pending {
          VoidStops(start, pending, i + 1);
          return Some(OrderQrPaymentNotPending);
        }
        payments := payments[pending[i] := payments[pending[i]].(status := Voided)];
      }
      assert pending[..|pending|] == pending;
      return None;
    }

    /** Write a paid payment and its row in the cash book. */
    method WritePayment(p: Payment)
      requires p.status == Paid
      modifies this`payments, this`cash
      ensures (payments, cash) == Receipt(old(payments), old(cash), p, p.amount)
    {
      var id := |payments|;
      payments := payments + [p];
      cash := cash + [CashRow(id, p.kind != Refund, p.amount, p.via)];
    }

    method CollectCash(read: Money, at: int) returns (refused: Option<ErrorCode>)
      modifies this
      ensures State() == Settled(old(State()), CommitCollectCash(old(State()), read, at))
      ensures refused == Refusal(CommitCollectCash(old(State()), read, at))
      ensures old(Valid()) && WasRight(read, old(State())) ==> Valid() && Later(old(State()), State())
    {
      hide VoidAll, PendingQr, WasRight, MoneyRight, Later;
      SettledRight(State(), read, Action.CollectCash(0, at));
      var due := AmountDue(read.grandTotal, read.payments);
      if read.kind != Journey.StorePickup { return Some(OrderNotStorePickup); }
      if read.status != Journey.Packed { return Some(OrderPickupNotReady); }
      if due == 0 { return Some(OrderCollectionAmountMismatch); }
      var saved := payments;
      refused := CancelCounterQr(PendingQr(read.payments));
      if refused.Some? { payments := saved; return refused; }
      if status != Journey.Packed { payments := saved; return Some(OrderStatusConflict); }
      payStatus, version := FullyPaid, version + 1;
      WritePayment(Payment(Balance, Cash, Paid, due, at, None));
      return None;
    }

    method CollectQr(read: Money, at: int) returns (refused: Option<ErrorCode>)
      modifies this`payments
      ensures State() == Settled(old(State()), CommitCollectQr(old(State()), read, at))
      ensures refused == Refusal(CommitCollectQr(old(State()), read, at))
      ensures old(Valid()) && WasRight(read, old(State())) ==> Valid() && Later(old(State()), State())
    {
      hide VoidStillPending, WasRight, MoneyRight, Later;
      SettledRight(State(), read, Action.CollectQr(0, at));
      var due := AmountDue(read.grandTotal, read.payments);
      if read.kind != Journey.StorePickup { return Some(OrderNotStorePickup); }
      if read.status != Journey.Packed { return Some(OrderPickupNotReady); }
      if due == 0 { return Some(OrderCollectionAmountMismatch); }
      var pending := PendingQr(read.payments);
      if exists i :: i in pending && read.payments[i].amount == due { return None; }
      payments := VoidStillPending(payments, pending);
      payments := payments + [Payment(Balance, Sepay, Pending, due, at, None)];
      return None;
    }

    method GiveBack(plan: RefundPlan, at: int)
      modifies this`payments, this`cash
      ensures (payments, cash) == if plan.amount == 0 then (old(payments), old(cash))
        else Receipt(old(payments), old(cash), Payment(Refund, plan.via, Paid, plan.amount, at, Some(plan.refundOf)), plan.amount)
    {
      if plan.amount > 0 { WritePayment(Payment(Refund, plan.via, Paid, plan.amount, at, Some(plan.refundOf))); }
    }

    method Cancel(read: Money, amount: Option<nat>, via: Option<Method>, at: int) returns (refused: Option<ErrorCode>)
      modifies this
      ensures State() == Settled(old(State()), CommitCancel(old(State()), read, amount, via, at))
      ensures refused == Refusal(CommitCancel(old(State()), read, amount, via, at))
      ensures old(Valid()) && WasRight(read, old(State())) ==> Valid() && Later(old(State()), State())
    {
      hide VoidAll, PendingQr, ResolveRefund, Receipt, WasRight, MoneyRight, Later, Journey.Transitions, PayStatusFor, CommitEdit,
        CommitCollectCash, CommitCollectQr;
      SettledRight(State(), read, Action.CancelOrder(0, amount, via, at));
      if !Journey.CanTransition(read.status, Journey.Cancelled) { return Some(OrderCancelNotAllowed); }
      var plan := ResolveRefund(read.payments, amount, via);
      if plan.Err? { return Some(plan.error); }
      if status != read.status { return Some(OrderStatusConflict); }
      var savedPayments, savedStatus, savedPayStatus := payments, status, payStatus;
      status, version := Journey.Cancelled, version + 1;
      if plan.value.Some? && plan.value.value.payStatus.Some? { payStatus := plan.value.value.payStatus.value; }
      refused := CancelCounterQr(PendingQr(read.payments));
      if refused.Some? {
        payments, status, payStatus, version := savedPayments, savedStatus, savedPayStatus, version - 1;
        return refused;
      }
      if plan.value.Some? { GiveBack(plan.value.value, at); }
      return None;
    }

    method EditOrder(read: Money, e: Edit) returns (refused: Option<ErrorCode>)
      modifies this
      ensures State() == Settled(old(State()), CommitEdit(old(State()), read, e))
      ensures refused == Refusal(CommitEdit(old(State()), read, e))
      ensures old(Valid()) && WasRight(read, old(State())) ==> Valid() && Later(old(State()), State())
    {
      hide VoidAll, PendingQr, ResolveEditedDeposit, WasRight, MoneyRight, Later;
      SettledRight(State(), read, Action.EditOrder(0, e));
      if !Unshipped(read.status) { return Some(OrderNotEditable); }
      if Leaving(read, e) && Collected(read.payments) { return Some(OrderPickupAlreadyCollected); }
      if e.kind != read.kind && !e.kindAllowed { return Some(OrderFulfillmentTypeLocked); }
      var next := DepositAfter(read, e);
      if next.Err? { return Some(next.error); }
      if status != read.status || version != read.version { return Some(OrderStatusConflict); }
      if Leaving(read, e) {
        var saved := payments;
        refused := CancelCounterQr(PendingQr(read.payments));
        if refused.Some? { payments := saved; return refused; }
      }
      kind, grandTotal, version := e.kind, e.grandTotal, version + 1;
      if next.value.Some? {
        deposit := next.value.value;
        payStatus := PayStatusFor(AmountOf(deposit), e.grandTotal);
      }
      return None;
    }
  }

  lemma VoidNothing(payments: seq<Payment>)
    ensures VoidAll(payments, []) == Ok(payments)
  {}
}
