/** The money of an order before its goods leave: the deposit taken with it, edits that must not
    disturb it, the balance collected at the counter, and the refund when it is cancelled. Amounts are
    in dong, percentages in hundredths of a percent. */
module OrderMoney {
  import opened Common
  import LotAllocation
  import Journey = OrderJourney

  type Status = Journey.Status

  datatype PaymentKind = Deposit | Balance | Refund

  datatype Method = Cash | Sepay | BankTransfer | Card

  datatype PaymentStatus = Pending | Paid | Voided

  /** The id of a payment is its place in the order's list. */
  datatype Payment = Payment(kind: PaymentKind, via: Method, status: PaymentStatus, amount: nat, createdAt: int,
                             refundOf: Option<nat>)

  datatype CashRow = CashRow(payment: nat, income: bool, amount: int, via: Method)

  datatype PayStatus = Unpaid | PartiallyPaid | FullyPaid | PartiallyRefunded | Refunded

  datatype DepositInput = Percent(value: nat, via: Method) | Amount(value: nat, via: Method)

  datatype DepositTaken = DepositTaken(amount: nat, percent: Option<nat>)

  /** `version` stands for the row's `updatedAt`. */
  datatype Money = Money(status: Status, kind: Journey.FulfillmentType, version: nat, grandTotal: nat,
                         deposit: Option<DepositTaken>, payStatus: PayStatus, payments: seq<Payment>, cash: seq<CashRow>)

  // ---------------------------------------------------------------- deposits

  const HUNDRED_PERCENT: nat := 10000

  function PercentOf(total: nat, percent: nat): nat { LotAllocation.RoundDiv(total * percent, HUNDRED_PERCENT) }

  function ResolveDeposit(input: Option<DepositInput>, grandTotal: nat): Result<Option<DepositTaken>> {
    match input
    case None => Ok(None)
    case Some(Percent(value, _)) =>
      if value > HUNDRED_PERCENT then Err(OrderDepositExceedsTotal)
      else Taken(PercentOf(grandTotal, value), Some(value), grandTotal)
    case Some(Amount(value, _)) => Taken(value, None, grandTotal)
  }

  function Taken(amount: nat, percent: Option<nat>, grandTotal: nat): Result<Option<DepositTaken>> {
    if amount > grandTotal then Err(OrderDepositExceedsTotal)
    else if amount == 0 then Ok(None)
    else Ok(Some(DepositTaken(amount, percent)))
  }

  function PayStatusFor(deposit: int, grandTotal: nat): PayStatus {
    if deposit <= 0 then Unpaid else if deposit >= grandTotal then FullyPaid else PartiallyPaid
  }

  function AmountOf(d: Option<DepositTaken>): int { if d.Some? then d.value.amount else 0 }

  /** The deposit after an edit; refused when it would differ from what the shop holds. */
  function ResolveEditedDeposit(sent: Option<DepositInput>, stored: Option<DepositTaken>, grandTotal: nat, held: int)
    : Result<Option<DepositTaken>>
  {
    var next :=
      if sent.Some? then ResolveDeposit(sent, grandTotal)
      else if stored.Some? && stored.value.percent.Some? then
        Ok(Some(DepositTaken(PercentOf(grandTotal, stored.value.percent.value), stored.value.percent)))
      else if stored.Some? && stored.value.amount > grandTotal then Err(OrderDepositExceedsTotal)
      else Ok(stored);
    match next
    case Err(e) => Err(e)
    case Ok(d) => if AmountOf(d) != held then Err(OrderDepositChanged) else Ok(d)
  }

  lemma PercentWithinTotal(total: nat, percent: nat)
    requires percent <= HUNDRED_PERCENT
    ensures 0 <= PercentOf(total, percent) <= total
  {
    var x := total * percent;
    assert 0 <= x <= total * HUNDRED_PERCENT;
    var twice := 2 * x + HUNDRED_PERCENT;
    assert twice / (2 * HUNDRED_PERCENT) <= (2 * total * HUNDRED_PERCENT + HUNDRED_PERCENT) / (2 * HUNDRED_PERCENT);
    assert (2 * total * HUNDRED_PERCENT + HUNDRED_PERCENT) / (2 * HUNDRED_PERCENT) == total;
  }

  // ---------------------------------------------------------------- what is held, what is due

  function PaidOf(kind: PaymentKind): Payment -> int {
    (p: Payment) => if p.status == Paid && p.kind == kind then p.amount else 0
  }

  function Sum(payments: seq<Payment>, kind: PaymentKind): int { SumBy(payments, PaidOf(kind)) }

  function DepositHeld(payments: seq<Payment>): int { Sum(payments, Deposit) - Sum(payments, Refund) }

  /** Everything the shop took for the order, less what it gave back. */
  function Held(payments: seq<Payment>): int {
    Sum(payments, Deposit) + Sum(payments, Balance) - Sum(payments, Refund)
  }

  function AmountDue(grandTotal: nat, payments: seq<Payment>): nat { Max(0, grandTotal - Held(payments)) }

  predicate IsPendingQr(p: Payment) { p.kind == Balance && p.via == Sepay && p.status == Pending }

  function PendingQr(payments: seq<Payment>): (r: seq<nat>)
    ensures forall i: nat :: i in r <==> i < |payments| && IsPendingQr(payments[i])
  {
    if payments == [] then []
    else
      var n := |payments| - 1;
      PendingQr(payments[..n]) + if IsPendingQr(payments[n]) then [n] else []
  }

  /** Void the pending transfers; one that is no longer pending stops everything. */
  function VoidAll(payments: seq<Payment>, ids: seq<nat>): Result<seq<Payment>> {
    if ids == [] then Ok(payments)
    else
      match VoidAll(payments, ids[..|ids| - 1])
      case Err(e) => Err(e)
      case Ok(before) =>
        var id := ids[|ids| - 1];
        if id >= |before| || before[id].status != Pending then Err(OrderQrPaymentNotPending)
        else Ok(before[id := before[id].(status := Voided)])
  }

  /** Void whatever of them is still pending. */
  function VoidStillPending(payments: seq<Payment>, ids: seq<nat>): (r: seq<Payment>)
    ensures |r| == |payments|
    ensures forall i :: 0 <= i < |r| ==>
      r[i] == if i in ids && payments[i].status == Pending then payments[i].(status := Voided) else payments[i]
  {
    seq(|payments|, i requires 0 <= i < |payments| =>
      if i in ids && payments[i].status == Pending then payments[i].(status := Voided) else payments[i])
  }

  // ---------------------------------------------------------------- refunds

  datatype RefundPlan = RefundPlan(amount: nat, via: Method, refundOf: nat, payStatus: Option<PayStatus>)

  predicate Refundable(p: Payment) { p.status == Paid && (p.kind == Deposit || p.kind == Balance) }

  /** The latest payment that could be refunded; the first of those made at the same moment. */
  function Latest(payments: seq<Payment>): (r: Option<nat>)
    ensures r.Some? ==> r.value < |payments| && Refundable(payments[r.value])
  {
    if payments == [] then None
    else
      var n := |payments| - 1;
      var before := Latest(payments[..n]);
      if Refundable(payments[n]) && (before.None? || payments[before.value].createdAt < payments[n].createdAt)
      then Some(n) else before
  }

  /** Money is only held if some refundable payment brought it. */
  lemma HeldWasReceived(payments: seq<Payment>)
    ensures Held(payments) > 0 ==> Latest(payments).Some?
  {
    if Latest(payments).None? {
      NothingReceived(payments, Deposit);
      NothingReceived(payments, Balance);
      SumByNonNegative(payments, PaidOf(Refund));
    }
  }

  lemma {:induction false} NothingReceived(payments: seq<Payment>, kind: PaymentKind)
    requires Latest(payments).None? && kind != Refund
    ensures Sum(payments, kind) == 0
  {
    if payments != [] { NothingReceived(payments[..|payments| - 1], kind); }
  }

  function ResolveRefund(payments: seq<Payment>, amount: Option<nat>, via: Option<Method>): Result<Option<RefundPlan>> {
    var held := Held(payments);
    if held <= 0 then
      if amount.Some? && amount.value > 0 then Err(OrderRefundExceedsDeposit) else Ok(None)
    else if amount.None? then Err(OrderRefundAmountRequired)
    else if amount.value > held then Err(OrderRefundExceedsDeposit)
    else
      HeldWasReceived(payments);
      var latest := Latest(payments);
      var last := payments[latest.value];
      Ok(Some(RefundPlan(amount.value,
                         if via.Some? then via.value else if last.via == Sepay then BankTransfer else last.via,
                         latest.value,
                         if amount.value == 0 then None
                         else if amount.value == held then Some(Refunded) else Some(PartiallyRefunded))))
  }

  // ---------------------------------------------------------------- the routes

  function Receipt(payments: seq<Payment>, cash: seq<CashRow>, p: Payment, received: int): (seq<Payment>, seq<CashRow>) {
    (payments + [p], cash + [CashRow(|payments|, p.kind != Refund, received, p.via)])
  }

  function Create(kind: Journey.FulfillmentType, grandTotal: nat, input: Option<DepositInput>, now: int): Result<Money> {
    match ResolveDeposit(input, grandTotal)
    case Err(e) => Err(e)
    case Ok(d) =>
      var m := Money(Journey.Confirmed, kind, 0, grandTotal, d, PayStatusFor(AmountOf(d), grandTotal), [], []);
      if d.None? then Ok(m)
      else
        var (payments, cash) := Receipt([], [], Payment(Deposit, input.value.via, Paid, d.value.amount, now, None), d.value.amount);
        Ok(m.(payments := payments, cash := cash))
  }

  predicate Unshipped(s: Status) { Journey.Unshipped(s) }

  /** `kindAllowed`: no open shipment stands in the way of the new kind of delivery. */
  datatype Edit = Edit(grandTotal: nat, deposit: Option<DepositInput>, kind: Journey.FulfillmentType, kindAllowed: bool)

  predicate Leaving(read: Money, e: Edit) { read.kind == Journey.StorePickup && e.kind != Journey.StorePickup }

  predicate Collected(payments: seq<Payment>) { exists p :: p in payments && p.kind == Balance && p.status == Paid }

  /** The deposit is looked at again only when one is sent or the total changes. */
  function DepositAfter(read: Money, e: Edit): Result<Option<Option<DepositTaken>>> {
    if e.deposit.None? && e.grandTotal == read.grandTotal then Ok(None)
    else
      match ResolveEditedDeposit(e.deposit, read.deposit, e.grandTotal, DepositHeld(read.payments))
      case Err(error) => Err(error)
      case Ok(d) => Ok(Some(d))
  }

  function CommitEdit(now: Money, read: Money, e: Edit): Result<Money> {
    if !Unshipped(read.status) then Err(OrderNotEditable)
    else if Leaving(read, e) && Collected(read.payments) then Err(OrderPickupAlreadyCollected)
    else if e.kind != read.kind && !e.kindAllowed then Err(OrderFulfillmentTypeLocked)
    else
      match DepositAfter(read, e)
      case Err(error) => Err(error)
      case Ok(deposit) =>
        if now.status != read.status || now.version != read.version then Err(OrderStatusConflict)
        else
          match if Leaving(read, e) then VoidAll(now.payments, PendingQr(read.payments)) else Ok(now.payments)
          case Err(error) => Err(error)
          case Ok(payments) =>
            var m := now.(kind := e.kind, grandTotal := e.grandTotal, version := now.version + 1, payments := payments);
            Ok(if deposit.None? then m
               else m.(deposit := deposit.value, payStatus := PayStatusFor(AmountOf(deposit.value), e.grandTotal)))
  }

  function CommitCollectCash(now: Money, read: Money, at: int): Result<Money> {
    var due := AmountDue(read.grandTotal, read.payments);
    if read.kind != Journey.StorePickup then Err(OrderNotStorePickup)
    else if read.status != Journey.Packed then Err(OrderPickupNotReady)
    else if due == 0 then Err(OrderCollectionAmountMismatch)
    else
      match VoidAll(now.payments, PendingQr(read.payments))
      case Err(e) => Err(e)
      case Ok(kept) =>
        if now.status != Journey.Packed then Err(OrderStatusConflict)
        else
          var (payments, cash) := Receipt(kept, now.cash, Payment(Balance, Cash, Paid, due, at, None), due);
          Ok(now.(version := now.version + 1, payStatus := FullyPaid, payments := payments, cash := cash))
  }

  /** Show a transfer code; the payment waits, and an order still waiting for the same amount keeps its code. */
  function CommitCollectQr(now: Money, read: Money, at: int): Result<Money> {
    var due := AmountDue(read.grandTotal, read.payments);
    var pending := PendingQr(read.payments);
    if read.kind != Journey.StorePickup then Err(OrderNotStorePickup)
    else if read.status != Journey.Packed then Err(OrderPickupNotReady)
    else if due == 0 then Err(OrderCollectionAmountMismatch)
    else if exists i :: i in pending && read.payments[i].amount == due then Ok(now)
    else Ok(now.(payments := VoidStillPending(now.payments, pending) + [Payment(Balance, Sepay, Pending, due, at, None)]))
  }

  /** The bank reports a transfer: enough money makes a waiting payment paid, for what really came. */
  function TransferArrives(now: Money, id: nat, received: int): Money {
    if id >= |now.payments| || now.payments[id].status != Pending || received < now.payments[id].amount then now
    else
      var m := now.(payments := now.payments[id := now.payments[id].(status := Paid)],
                    cash := now.cash + [CashRow(id, true, received, Sepay)]);
      if now.status == Journey.Packed && now.kind == Journey.StorePickup
      then m.(payStatus := FullyPaid, version := now.version + 1) else m
  }

  function CommitCancel(now: Money, read: Money, amount: Option<nat>, via: Option<Method>, at: int): Result<Money> {
    if !Journey.CanTransition(read.status, Journey.Cancelled) then Err(OrderCancelNotAllowed)
    else
      match ResolveRefund(read.payments, amount, via)
      case Err(e) => Err(e)
      case Ok(plan) =>
        if now.status != read.status then Err(OrderStatusConflict)
        else
          match VoidAll(now.payments, PendingQr(read.payments))
          case Err(e) => Err(e)
          case Ok(kept) =>
            var m := now.(status := Journey.Cancelled, version := now.version + 1, payments := kept,
                          payStatus := if plan.Some? && plan.value.payStatus.Some? then plan.value.payStatus.value else now.payStatus);
            if plan.None? || plan.value.amount == 0 then Ok(m)
            else
              var (payments, cash) := Receipt(kept, now.cash,
                Payment(Refund, plan.value.via, Paid, plan.value.amount, at, Some(plan.value.refundOf)), plan.value.amount);
              Ok(m.(payments := payments, cash := cash))
  }

  // ---------------------------------------------------------------- the cash book

  function Signed(): CashRow -> int { (r: CashRow) => if r.income then r.amount else -r.amount }

  function NetCash(cash: seq<CashRow>): int { SumBy(cash, Signed()) }

  function RowFor(id: nat): CashRow -> int { (r: CashRow) => if r.payment == id then 1 else 0 }

  /** What came in beyond what was asked: only a bank transfer can bring more. */
  function Surplus(payments: seq<Payment>): CashRow -> int {
    (r: CashRow) => if r.payment < |payments| then r.amount - payments[r.payment].amount else 0
  }

  /** A row records its payment, on the right side of the book, for its amount. */
  predicate RowRight(payments: seq<Payment>, r: CashRow) {
    && r.payment < |payments| && payments[r.payment].status == Paid
    && r.income == (payments[r.payment].kind != Refund)
    && (if payments[r.payment].kind == Balance && payments[r.payment].via == Sepay
        then r.amount >= payments[r.payment].amount else r.amount == payments[r.payment].amount)
  }

  /** Every paid payment has exactly one row, every other none. */
  ghost predicate BookRight(payments: seq<Payment>, cash: seq<CashRow>) {
    && (forall i :: 0 <= i < |payments| ==> SumBy(cash, RowFor(i)) == if payments[i].status == Paid then 1 else 0)
    && (forall r :: r in cash ==> RowRight(payments, r))
    && NetCash(cash) == Held(payments) + SumBy(cash, Surplus(payments))
  }

  /** Only a counter transfer ever waits. */
  predicate PaymentRight(p: Payment) { p.status == Pending ==> IsPendingQr(p) }

  /** While the goods are here: the deposit on the order is what was taken and not given back. */
  ghost predicate MoneyRight(m: Money) {
    && BookRight(m.payments, m.cash)
    && (forall p :: p in m.payments ==> PaymentRight(p))
    && (Unshipped(m.status) || m.status == Journey.Cancelled)
    && (Unshipped(m.status) ==>
          0 <= AmountOf(m.deposit) == DepositHeld(m.payments) <= m.grandTotal && Sum(m.payments, Refund) == 0)
    && (m.deposit.Some? && m.deposit.value.percent.Some? ==> m.deposit.value.percent.value <= HUNDRED_PERCENT)
    && Held(m.payments) >= 0
  }

  // ---------------------------------------------------------------- small steps of the book

  /** Nothing happened but pending payments being voided. */
  predicate OnlyVoids(a: seq<Payment>, b: seq<Payment>) {
    |a| == |b| && forall i :: 0 <= i < |a| ==>
      b[i] == a[i] || (a[i].status == Pending && b[i] == a[i].(status := Voided))
  }

  lemma {:induction false} VoidAllOnlyVoids(payments: seq<Payment>, ids: seq<nat>)
    requires VoidAll(payments, ids).Ok?
    ensures OnlyVoids(payments, VoidAll(payments, ids).value)
  {
    if ids != [] { VoidAllOnlyVoids(payments, ids[..|ids| - 1]); }
  }

  lemma {:induction false} VoidsKeepSums(a: seq<Payment>, b: seq<Payment>, kind: PaymentKind)
    requires OnlyVoids(a, b)
    ensures Sum(a, kind) == Sum(b, kind)
  {
    if a != [] { VoidsKeepSums(a[..|a| - 1], b[..|b| - 1], kind); }
  }

  /** Rows stay right, and bring the same surplus, when paid payments keep what they are. */
  lemma SamePaidSameRows(a: seq<Payment>, b: seq<Payment>, cash: seq<CashRow>)
    requires |a| <= |b| && forall i :: 0 <= i < |a| && a[i].status == Paid ==> b[i] == a[i]
    requires forall r :: r in cash ==> RowRight(a, r)
    ensures forall r :: r in cash ==> RowRight(b, r)
    ensures SumBy(cash, Surplus(b)) == SumBy(cash, Surplus(a))
  {
    SumBySame(cash, Surplus(b), Surplus(a));
  }

  lemma VoidsKeepBook(a: seq<Payment>, b: seq<Payment>, cash: seq<CashRow>)
    requires OnlyVoids(a, b) && BookRight(a, cash)
    ensures BookRight(b, cash) && Held(b) == Held(a) && DepositHeld(b) == DepositHeld(a) && Sum(b, Refund) == Sum(a, Refund)
  {
    VoidsKeepSums(a, b, Deposit);
    VoidsKeepSums(a, b, Balance);
    VoidsKeepSums(a, b, Refund);
    SamePaidSameRows(a, b, cash);
  }

  lemma NoRowYet(payments: seq<Payment>, cash: seq<CashRow>, id: nat)
    requires (forall r :: r in cash ==> RowRight(payments, r)) && id >= |payments|
    ensures SumBy(cash, RowFor(id)) == 0
  {
    SumByZero(cash, RowFor(id));
  }

  lemma SumsGrow(payments: seq<Payment>, p: Payment)
    ensures forall kind :: Sum(payments + [p], kind) == Sum(payments, kind) + PaidOf(kind)(p)
  {
    forall kind ensures Sum(payments + [p], kind) == Sum(payments, kind) + PaidOf(kind)(p) {
      SumByAppend(payments, p, PaidOf(kind));
    }
  }

  /** A paid payment and its row, written together, keep the book right. */
  lemma ReceiptKeepsBook(payments: seq<Payment>, cash: seq<CashRow>, p: Payment)
    requires BookRight(payments, cash) && p.status == Paid
    ensures BookRight(Receipt(payments, cash, p, p.amount).0, Receipt(payments, cash, p, p.amount).1)
  {
    var (after, book) := Receipt(payments, cash, p, p.amount);
    var row := CashRow(|payments|, p.kind != Refund, p.amount, p.via);
    SumsGrow(payments, p);
    SamePaidSameRows(payments, after, cash);
    NoRowYet(payments, cash, |payments|);
    forall i | 0 <= i < |after| ensures SumBy(book, RowFor(i)) == if after[i].status == Paid then 1 else 0 {
      SumByAppend(cash, row, RowFor(i));
    }
    SumByAppend(cash, row, Signed());
    SumByAppend(cash, row, Surplus(after));
    assert NetCash(book) == Held(after) + SumBy(book, Surplus(after));
  }

  lemma WaitingKeepsBook(payments: seq<Payment>, cash: seq<CashRow>, p: Payment)
    requires BookRight(payments, cash) && p.status == Pending
    ensures BookRight(payments + [p], cash)
  {
    SumsGrow(payments, p);
    SamePaidSameRows(payments, payments + [p], cash);
    NoRowYet(payments, cash, |payments|);
  }

  lemma TransferKeepsBook(payments: seq<Payment>, cash: seq<CashRow>, id: nat, received: int)
    requires BookRight(payments, cash) && id < |payments| && IsPendingQr(payments[id]) && received >= payments[id].amount
    ensures var after := payments[id := payments[id].(status := Paid)];
      && BookRight(after, cash + [CashRow(id, true, received, Sepay)])
      && Held(after) == Held(payments) + payments[id].amount && DepositHeld(after) == DepositHeld(payments)
      && Sum(after, Refund) == Sum(payments, Refund)
  {
    var after, row := payments[id := payments[id].(status := Paid)], CashRow(id, true, received, Sepay);
    SumByUpdate(payments, id, after[id], PaidOf(Deposit));
    SumByUpdate(payments, id, after[id], PaidOf(Balance));
    SumByUpdate(payments, id, after[id], PaidOf(Refund));
    SamePaidSameRows(payments, after, cash);
    forall i | 0 <= i < |after| ensures SumBy(cash + [row], RowFor(i)) == if after[i].status == Paid then 1 else 0 {
      SumByAppend(cash, row, RowFor(i));
    }
    SumByAppend(cash, row, Signed());
    SumByAppend(cash, row, Surplus(after));
    assert NetCash(cash + [row]) == Held(after) + SumBy(cash + [row], Surplus(after));
  }

  // ---------------------------------------------------------------- what each route keeps

  /** What a route may still rely on about the order it read. */
  ghost predicate Later(a: Money, b: Money) {
    && Journey.Rank(a.status) <= Journey.Rank(b.status) && a.version <= b.version
    && (a.version == b.version ==> b.status == a.status && b.kind == a.kind && b.grandTotal == a.grandTotal && b.deposit == a.deposit)
    && (Journey.Rank(b.status) <= Journey.Rank(Journey.PickedUp) ==>
          DepositHeld(a.payments) == DepositHeld(b.payments) && Held(a.payments) <= Held(b.payments))
  }

  lemma PaymentsRightAfterVoids(a: seq<Payment>, b: seq<Payment>)
    requires OnlyVoids(a, b) && forall p :: p in a ==> PaymentRight(p)
    ensures forall p :: p in b ==> PaymentRight(p)
  {
    forall p | p in b ensures PaymentRight(p) {
      var i :| 0 <= i < |b| && b[i] == p;
      assert a[i] in a;
    }
  }

  /** A deposit is only taken when it is more than nothing and no more than the total. */
  lemma ResolvedDepositRight(input: Option<DepositInput>, grandTotal: nat)
    requires ResolveDeposit(input, grandTotal).Ok?
    ensures var d := ResolveDeposit(input, grandTotal).value;
      d.Some? ==>
        && input.Some? && 0 < d.value.amount <= grandTotal
        && (d.value.percent.Some? ==> d.value.percent.value <= HUNDRED_PERCENT)
  {}

  lemma CreateRight(kind: Journey.FulfillmentType, grandTotal: nat, input: Option<DepositInput>, now: int)
    requires Create(kind, grandTotal, input, now).Ok?
    ensures MoneyRight(Create(kind, grandTotal, input, now).value)
  {
    hide BookRight, ResolveDeposit, PayStatusFor, Sum;
    var m := Create(kind, grandTotal, input, now).value;
    ResolvedDepositRight(input, grandTotal);
    EmptyBook();
    if m.deposit.Some? {
      FirstReceipt(Payment(Deposit, input.value.via, Paid, m.deposit.value.amount, now, None));
    }
  }

  lemma FirstReceipt(p: Payment)
    requires p.status == Paid
    ensures BookRight(Receipt([], [], p, p.amount).0, Receipt([], [], p, p.amount).1)
    ensures forall kind :: Sum(Receipt([], [], p, p.amount).0, kind) == PaidOf(kind)(p)
    ensures Receipt([], [], p, p.amount).0 == [p]
  {
    hide BookRight;
    EmptyBook();
    ReceiptKeepsBook([], [], p);
    SumsGrow([], p);
    assert [] + [p] == [p];
  }

  lemma EmptyBook()
    ensures BookRight([], []) && forall kind :: Sum([], kind) == 0
  {}

  lemma EditedDepositRight(read: Money, e: Edit)
    requires MoneyRight(read) && Unshipped(read.status) && DepositAfter(read, e).Ok?
    ensures match DepositAfter(read, e).value
      case None => e.grandTotal == read.grandTotal
      case Some(d) =>
        && AmountOf(d) == DepositHeld(read.payments) <= e.grandTotal
        && (d.Some? && d.value.percent.Some? ==> d.value.percent.value <= HUNDRED_PERCENT)
  {
    if read.deposit.Some? && read.deposit.value.percent.Some? {
      PercentWithinTotal(e.grandTotal, read.deposit.value.percent.value);
    }
  }

  lemma EditKeeps(now: Money, read: Money, e: Edit)
    requires MoneyRight(now) && MoneyRight(read) && Later(read, now) && CommitEdit(now, read, e).Ok?
    ensures MoneyRight(CommitEdit(now, read, e).value) && Later(now, CommitEdit(now, read, e).value)
  {
    hide BookRight, ResolveEditedDeposit;
    var m := CommitEdit(now, read, e).value;
    EditedDepositRight(read, e);
    if Leaving(read, e) { VoidAllOnlyVoids(now.payments, PendingQr(read.payments)); }
    VoidsKeepBook(now.payments, m.payments, now.cash);
    PaymentsRightAfterVoids(now.payments, m.payments);
  }

  lemma CollectCashKeeps(now: Money, read: Money, at: int)
    requires MoneyRight(now) && CommitCollectCash(now, read, at).Ok?
    ensures MoneyRight(CommitCollectCash(now, read, at).value) && Later(now, CommitCollectCash(now, read, at).value)
    ensures Held(CommitCollectCash(now, read, at).value.payments) == Held(now.payments) + AmountDue(read.grandTotal, read.payments)
  {
    hide BookRight;
    var kept := VoidAll(now.payments, PendingQr(read.payments)).value;
    VoidAllOnlyVoids(now.payments, PendingQr(read.payments));
    VoidsKeepBook(now.payments, kept, now.cash);
    PaymentsRightAfterVoids(now.payments, kept);
    var p := Payment(Balance, Cash, Paid, AmountDue(read.grandTotal, read.payments), at, None);
    ReceiptKeepsBook(kept, now.cash, p);
    SumsGrow(kept, p);
  }

  lemma StillPendingOnlyVoids(payments: seq<Payment>, ids: seq<nat>)
    ensures OnlyVoids(payments, VoidStillPending(payments, ids))
  {}

  /** Showing a code takes no money: the book and what is held stay as they were. */
  lemma CollectQrKeeps(now: Money, read: Money, at: int)
    requires MoneyRight(now) && CommitCollectQr(now, read, at).Ok?
    ensures MoneyRight(CommitCollectQr(now, read, at).value) && Later(now, CommitCollectQr(now, read, at).value)
    ensures Held(CommitCollectQr(now, read, at).value.payments) == Held(now.payments)
    ensures CommitCollectQr(now, read, at).value.cash == now.cash
  {
    hide BookRight, AmountDue, OnlyVoids, VoidStillPending, PendingQr;
    var m := CommitCollectQr(now, read, at).value;
    if m != now {
      var kept := VoidStillPending(now.payments, PendingQr(read.payments));
      StillPendingOnlyVoids(now.payments, PendingQr(read.payments));
      VoidsKeepBook(now.payments, kept, now.cash);
      PaymentsRightAfterVoids(now.payments, kept);
      var p := Payment(Balance, Sepay, Pending, AmountDue(read.grandTotal, read.payments), at, None);
      WaitingKeepsBook(kept, now.cash, p);
      SumsGrow(kept, p);
    }
  }

  /** Asked on the order as it stands, a code that is still waiting for exactly what is due is kept;
      otherwise every code waiting so far is void and only the new one waits, for what is due. */
  lemma OneCodeWaits(now: Money, at: int)
    requires CommitCollectQr(now, now, at).Ok?
    ensures var m, due := CommitCollectQr(now, now, at).value, AmountDue(now.grandTotal, now.payments);
      if exists i :: i in PendingQr(now.payments) && now.payments[i].amount == due then m == now
      else
        && |m.payments| == |now.payments| + 1 && m.payments[|now.payments|].amount == due
        && forall i :: i in PendingQr(m.payments) <==> i == |now.payments|
  {
    hide AmountDue;
  }

  lemma TransferKeeps(now: Money, id: nat, received: int)
    requires MoneyRight(now)
    ensures MoneyRight(TransferArrives(now, id, received)) && Later(now, TransferArrives(now, id, received))
  {
    hide BookRight;
    var m := TransferArrives(now, id, received);
    if m != now {
      assert now.payments[id] in now.payments;
      TransferKeepsBook(now.payments, now.cash, id, received);
      forall p | p in m.payments ensures PaymentRight(p) {
        var i :| 0 <= i < |m.payments| && m.payments[i] == p;
        assert now.payments[i] in now.payments;
      }
    }
  }

  // ---------------------------------------------------------------- what a cancellation gives back

  /** What the canceller chose to give back; nothing said is nothing. */
  function Asked(amount: Option<nat>): nat { if amount.Some? then amount.value else 0 }

  function VoidedIf(p: Payment, voided: bool): Payment { if voided then p.(status := Voided) else p }

  predicate WasWaiting(read: seq<Payment>, i: nat) { i < |read| && IsPendingQr(read[i]) }

  /** The transfers that were waiting when the order was read still wait. */
  predicate StillWaiting(now: seq<Payment>, read: seq<Payment>) {
    forall i :: 0 <= i < |read| && WasWaiting(read, i) ==> i < |now| && now[i].status == Pending
  }

  /** The payment a refund is of: the latest that was received, the first of those of the same moment. */
  predicate LatestReceived(payments: seq<Payment>, i: nat) {
    && i < |payments| && Refundable(payments[i])
    && forall j :: 0 <= j < |payments| && j != i && Refundable(payments[j]) ==>
         payments[j].createdAt < payments[i].createdAt || (payments[j].createdAt == payments[i].createdAt && i < j)
  }

  lemma {:induction false} LatestIs(payments: seq<Payment>)
    ensures Latest(payments).Some? ==> LatestReceived(payments, Latest(payments).value)
    ensures Latest(payments).None? ==> forall i :: 0 <= i < |payments| ==> !Refundable(payments[i])
  {
    if payments != [] { LatestIs(payments[..|payments| - 1]); }
  }

  lemma {:induction false} PendingApart(payments: seq<Payment>)
    ensures IdsApart(PendingQr(payments))
  {
    if payments != [] {
      PendingApart(payments[..|payments| - 1]);
      var front := PendingQr(payments[..|payments| - 1]);
      forall i | 0 <= i < |front| ensures front[i] < |payments| - 1 { assert front[i] in front; }
    }
  }

  predicate AllWaiting(payments: seq<Payment>, ids: seq<nat>) {
    forall i :: 0 <= i < |ids| ==> ids[i] < |payments| && payments[ids[i]].status == Pending
  }

  predicate IdsApart(ids: seq<nat>) { forall i, j :: 0 <= i < j < |ids| ==> ids[i] != ids[j] }

  /** `b` is `a` with just the payments listed void. */
  predicate VoidedThese(a: seq<Payment>, b: seq<Payment>, ids: seq<nat>) {
    |b| == |a| && forall i :: 0 <= i < |a| ==> b[i] == VoidedIf(a[i], i in ids)
  }

  lemma OneMoreVoided(a: seq<Payment>, b: seq<Payment>, front: seq<nat>, last: nat)
    requires VoidedThese(a, b, front) && last !in front
    ensures last < |a| ==> b[last] == a[last] && VoidedThese(a, b[last := b[last].(status := Voided)], front + [last])
  {}

  lemma LastApart(front: seq<nat>, last: nat)
    requires IdsApart(front + [last])
    ensures IdsApart(front) && last !in front
  {
    var ids := front + [last];
    forall i, j | 0 <= i < j < |front| ensures front[i] != front[j] { assert ids[i] != ids[j]; }
    forall id | id in front ensures id != last {
      var i :| 0 <= i < |front| && front[i] == id;
      assert ids[i] != ids[|front|];
    }
  }

  lemma AllWaitingMore(payments: seq<Payment>, front: seq<nat>, last: nat)
    ensures AllWaiting(payments, front + [last])
        <==> AllWaiting(payments, front) && last < |payments| && payments[last].status == Pending
  {
    var ids := front + [last];
    assert forall i :: 0 <= i < |front| ==> ids[i] == front[i];
    assert ids[|front|] == last;
  }

  /** Voiding each of some payments once succeeds exactly when they all still wait, and voids just those. */
  lemma {:induction false} VoidAllWhen(payments: seq<Payment>, ids: seq<nat>)
    requires IdsApart(ids)
    ensures VoidAll(payments, ids).Ok? <==> AllWaiting(payments, ids)
    ensures VoidAll(payments, ids).Ok? ==> VoidedThese(payments, VoidAll(payments, ids).value, ids)
  {
    if ids != [] {
      hide AllWaiting, VoidedThese, IdsApart;
      var front, last := ids[..|ids| - 1], ids[|ids| - 1];
      assert ids == front + [last];
      LastApart(front, last);
      VoidAllWhen(payments, front);
      AllWaitingMore(payments, front, last);
      if VoidAll(payments, front).Ok? {
        OneMoreVoided(payments, VoidAll(payments, front).value, front, last);
        SameLength(payments, VoidAll(payments, front).value, front);
      }
    }
  }

  lemma SameLength(a: seq<Payment>, b: seq<Payment>, ids: seq<nat>)
    requires VoidedThese(a, b, ids)
    ensures |b| == |a|
  {}

  lemma WaitingVoided(now: seq<Payment>, read: seq<Payment>)
    ensures VoidAll(now, PendingQr(read)).Ok? <==> StillWaiting(now, read)
    ensures VoidAll(now, PendingQr(read)).Ok? ==>
      && |VoidAll(now, PendingQr(read)).value| == |now|
      && forall i :: 0 <= i < |now| ==> VoidAll(now, PendingQr(read)).value[i] == VoidedIf(now[i], WasWaiting(read, i))
  {
    PendingApart(read);
    VoidAllWhen(now, PendingQr(read));
    var ids := PendingQr(read);
    forall i | 0 <= i < |ids| ensures WasWaiting(read, ids[i]) { assert ids[i] in ids; }
    if AllWaiting(now, ids) {
      forall i | 0 <= i < |read| && WasWaiting(read, i) ensures i < |now| && now[i].status == Pending {
        var j :| 0 <= j < |ids| && ids[j] == i;
      }
    }
  }

  lemma VoidsKeepHeld(a: seq<Payment>, b: seq<Payment>)
    requires OnlyVoids(a, b)
    ensures Held(a) == Held(b)
  {
    VoidsKeepSums(a, b, Deposit);
    VoidsKeepSums(a, b, Balance);
    VoidsKeepSums(a, b, Refund);
  }

  lemma RefundLowersHeld(payments: seq<Payment>, p: Payment)
    requires p.kind == Refund && p.status == Paid
    ensures Held(payments + [p]) == Held(payments) - p.amount
  {
    SumsGrow(payments, p);
  }

  /** Money only ever leaves by a cancellation, and never more than was there. */
  lemma CancelKeeps(now: Money, read: Money, amount: Option<nat>, via: Option<Method>, at: int)
    requires MoneyRight(now) && MoneyRight(read) && Later(read, now) && CommitCancel(now, read, amount, via, at).Ok?
    requires Unshipped(now.status)
    ensures MoneyRight(CommitCancel(now, read, amount, via, at).value) && Later(now, CommitCancel(now, read, amount, via, at).value)
    ensures Held(CommitCancel(now, read, amount, via, at).value.payments)
         == Held(now.payments) - Asked(amount)
  {
    hide BookRight, VoidAll, PendingQr, Latest, OnlyVoids;
    var kept := VoidAll(now.payments, PendingQr(read.payments)).value;
    var plan := ResolveRefund(read.payments, amount, via).value;
    VoidAllOnlyVoids(now.payments, PendingQr(read.payments));
    VoidsKeepBook(now.payments, kept, now.cash);
    PaymentsRightAfterVoids(now.payments, kept);
    if plan.Some? && plan.value.amount > 0 {
      var p := Payment(Refund, plan.value.via, Paid, plan.value.amount, at, Some(plan.value.refundOf));
      ReceiptKeepsBook(kept, now.cash, p);
      SumsGrow(kept, p);
    }
  }

  // ---------------------------------------------------------------- every run

  datatype Action =
    | EditOrder(readAt: nat, edit: Edit)
    | CollectCash(readAt: nat, at: int)
    | CollectQr(readAt: nat, at: int)
    | BankTransferIn(id: nat, received: int)
    | CancelOrder(readAt: nat, amount: Option<nat>, via: Option<Method>, at: int)
    | Proceed(to: Status)

  predicate Reads(a: Action) { a.EditOrder? || a.CollectCash? || a.CollectQr? || a.CancelOrder? }

  /** The transaction of a route that read the order as `read`. */
  function Commit(now: Money, read: Money, a: Action): Result<Money>
    requires Reads(a)
  {
    match a
    case EditOrder(_, edit) => CommitEdit(now, read, edit)
    case CollectCash(_, at) => CommitCollectCash(now, read, at)
    case CollectQr(_, at) => CommitCollectQr(now, read, at)
    case CancelOrder(_, amount, via, at) => CommitCancel(now, read, amount, via, at)
  }

  predicate Took(states: seq<Money>, n: nat, a: Action)
    requires n + 1 < |states|
  {
    var now, next := states[n], states[n + 1];
    if Reads(a) then
      a.readAt <= n && next == match Commit(now, states[a.readAt], a) case Ok(m) => m case Err(_) => now
    else if a.BankTransferIn? then next == TransferArrives(now, a.id, a.received)
    else
      && Journey.CanTransition(now.status, a.to) && Unshipped(a.to)
      && next == now.(status := a.to, version := now.version + 1)
  }

  predicate Life(states: seq<Money>, actions: seq<Action>, deposit: Option<DepositInput>, at: int) {
    && |states| == |actions| + 1
    && Create(states[0].kind, states[0].grandTotal, deposit, at) == Ok(states[0])
    && forall n :: 0 <= n < |actions| ==> Took(states, n, actions[n])
  }

  lemma LaterTwice(a: Money, b: Money, c: Money)
    requires Later(a, b) && Later(b, c)
    ensures Later(a, c)
  {
    Journey.TransitionsOnlyClimb(a.status, b.status);
    Journey.TransitionsOnlyClimb(b.status, c.status);
  }

  lemma ProceedKeeps(now: Money, to: Status)
    requires MoneyRight(now) && Journey.CanTransition(now.status, to) && Unshipped(to)
    ensures MoneyRight(now.(status := to, version := now.version + 1)) && Later(now, now.(status := to, version := now.version + 1))
  {
    hide BookRight;
  }

  lemma CommitKeeps(now: Money, read: Money, a: Action)
    requires Reads(a) && MoneyRight(now) && MoneyRight(read) && Later(read, now) && Commit(now, read, a).Ok?
    ensures MoneyRight(Commit(now, read, a).value) && Later(now, Commit(now, read, a).value)
  {
    match a {
      case EditOrder(_, edit) => EditKeeps(now, read, edit);
      case CollectCash(_, at) => CollectCashKeeps(now, read, at);
      case CollectQr(_, at) => CollectQrKeeps(now, read, at);
      case CancelOrder(_, amount, via, at) => CancelKeeps(now, read, amount, via, at);
    }
  }

  lemma TookKeeps(states: seq<Money>, n: nat, a: Action)
    requires n + 1 < |states| && Took(states, n, a) && MoneyRight(states[n])
    requires Reads(a) ==> a.readAt <= n && MoneyRight(states[a.readAt]) && Later(states[a.readAt], states[n])
    ensures MoneyRight(states[n + 1]) && Later(states[n], states[n + 1])
  {
    hide MoneyRight, Commit;
    if Reads(a) {
      if Commit(states[n], states[a.readAt], a).Ok? { CommitKeeps(states[n], states[a.readAt], a); }
    } else if a.BankTransferIn? {
      TransferKeeps(states[n], a.id, a.received);
    } else {
      ProceedKeeps(states[n], a.to);
    }
  }

  /** Main result. Along every run of edits, collections, transfers and cancellations, however stale
      the reads: while the goods are here the deposit on the order is what was taken and not given
      back, within the total; every paid payment has exactly one row in the cash book; and the book's
      net is what the shop holds for the order, plus what transfers brought beyond what was asked. */
  lemma {:induction false} MoneyAddsUp(states: seq<Money>, actions: seq<Action>, deposit: Option<DepositInput>, at: int, n: nat)
    requires Life(states, actions, deposit, at) && n < |states|
    ensures forall m :: 0 <= m <= n ==> MoneyRight(states[m]) && Later(states[m], states[n])
  {
    hide MoneyRight, Later, Took, Create;
    if n == 0 {
      CreateRight(states[0].kind, states[0].grandTotal, deposit, at);
      LaterItself(states[0]);
    } else {
      MoneyAddsUp(states, actions, deposit, at, n - 1);
      TookReadsPast(states, n - 1, actions[n - 1]);
      TookKeeps(states, n - 1, actions[n - 1]);
      forall m | 0 <= m <= n ensures MoneyRight(states[m]) && Later(states[m], states[n]) {
        if m < n { LaterTwice(states[m], states[n - 1], states[n]); } else { LaterItself(states[n]); }
      }
    }
  }

  lemma LaterItself(m: Money)
    ensures Later(m, m)
  {}

  lemma TookReadsPast(states: seq<Money>, n: nat, a: Action)
    requires n + 1 < |states| && Took(states, n, a)
    ensures Reads(a) ==> a.readAt <= n
  {}

  lemma {:induction false} SurplusIsNotNegative(payments: seq<Payment>, cash: seq<CashRow>)
    requires forall r :: r in cash ==> RowRight(payments, r)
    ensures SumBy(cash, Surplus(payments)) >= 0
    ensures (forall r :: r in cash ==> Surplus(payments)(r) == 0) ==> SumBy(cash, Surplus(payments)) == 0
  {
    SumByNonNegative(cash, Surplus(payments));
    if forall r :: r in cash ==> Surplus(payments)(r) == 0 { SumByZero(cash, Surplus(payments)); }
  }

  /** After an accepted cancellation the cash book of the order nets what was held less what was
      refunded - never a loss. */
  lemma CancelledMoney(states: seq<Money>, actions: seq<Action>, deposit: Option<DepositInput>, at: int, n: nat)
    requires Life(states, actions, deposit, at) && n < |actions| && actions[n].CancelOrder?
    requires Took(states, n, actions[n]) && Commit(states[n], states[actions[n].readAt], actions[n]).Ok?
    ensures var refunded := Asked(actions[n].amount);
      var after := states[n + 1];
      && after.status == Journey.Cancelled && refunded <= Held(states[n].payments)
      && NetCash(after.cash) == Held(states[n].payments) - refunded + SumBy(after.cash, Surplus(after.payments))
      && NetCash(after.cash) >= 0
  {
    hide BookRight;
    MoneyAddsUp(states, actions, deposit, at, n);
    var a, now := actions[n], states[n];
    var read := states[a.readAt];
    assert MoneyRight(read) && Later(read, now);
    CancelKeeps(now, read, a.amount, a.via, a.at);
    BookMeans(states[n + 1].payments, states[n + 1].cash);
    SurplusIsNotNegative(states[n + 1].payments, states[n + 1].cash);
  }

  lemma BookMeans(payments: seq<Payment>, cash: seq<CashRow>)
    requires BookRight(payments, cash)
    ensures NetCash(cash) == Held(payments) + SumBy(cash, Surplus(payments)) && forall r :: r in cash ==> RowRight(payments, r)
  {}

  // ---------------------------------------------------------------- where the code falls short

  /** Collecting claims the order by its status alone. The order ends up paid in full - no more, no
      less - exactly when the amount due at the commit is still the amount that was read. */
  lemma CollectedInFullWhen(now: Money, read: Money, at: int)
    requires MoneyRight(now) && CommitCollectCash(now, read, at).Ok?
    ensures Held(CommitCollectCash(now, read, at).value.payments) == now.grandTotal
        <==> AmountDue(now.grandTotal, now.payments) == AmountDue(read.grandTotal, read.payments)
  {
    CollectCashKeeps(now, read, at);
  }

  /** Main result on cancelling. It is accepted exactly when the goods had not left and have not, no
      waiting transfer arrived since, and no more is given back than was read as held - and, if anything
      was, the canceller said how much. */
  lemma CancelAcceptedWhen(now: Money, read: Money, amount: Option<nat>, via: Option<Method>, at: int)
    ensures CommitCancel(now, read, amount, via, at).Ok? <==>
      && Journey.CanTransition(read.status, Journey.Cancelled) && now.status == read.status
      && StillWaiting(now.payments, read.payments)
      && Asked(amount) <= Max(0, Held(read.payments)) && (Held(read.payments) > 0 ==> amount.Some?)
  {
    hide VoidAll, PendingQr, Held, Latest;
    WaitingVoided(now.payments, read.payments);
  }

  /** A refund is paid out of the order: the payment that was the latest, by the way asked for, and where
      none was, the way the money came - a transfer for what came by code. */
  predicate RefundOf(read: seq<Payment>, p: Payment, amount: nat, via: Option<Method>, at: int) {
    && p.kind == Refund && p.status == Paid && p.amount == amount && p.createdAt == at
    && p.refundOf.Some? && LatestReceived(read, p.refundOf.value)
    && p.via == (if via.Some? then via.value
                 else if read[p.refundOf.value].via == Sepay then BankTransfer else read[p.refundOf.value].via)
  }

  /** What an accepted cancellation writes: what was asked is given back, as one payment and one expense, or
      nothing is; the waiting transfers are void; the status of the money says how much went back. */
  lemma CancelGivesBack(now: Money, read: Money, amount: Option<nat>, via: Option<Method>, at: int)
    requires CommitCancel(now, read, amount, via, at).Ok?
    ensures var m, n := CommitCancel(now, read, amount, via, at).value, |now.payments|;
      && m.status == Journey.Cancelled && m.grandTotal == now.grandTotal && m.deposit == now.deposit
      && Held(m.payments) == Held(now.payments) - Asked(amount)
      && |m.payments| == n + (if Asked(amount) > 0 then 1 else 0)
      && (forall i :: 0 <= i < n ==> m.payments[i] == VoidedIf(now.payments[i], WasWaiting(read.payments, i)))
      && (Asked(amount) == 0 ==> m.cash == now.cash && m.payStatus == now.payStatus)
      && (Asked(amount) > 0 ==>
            && RefundOf(read.payments, m.payments[n], Asked(amount), via, at)
            && m.cash == now.cash + [CashRow(n, false, Asked(amount), m.payments[n].via)]
            && m.payStatus == (if Asked(amount) == Held(read.payments) then Refunded else PartiallyRefunded))
  {
    WaitingVoided(now.payments, read.payments);
    VoidAllOnlyVoids(now.payments, PendingQr(read.payments));
    LatestIs(read.payments);
    HeldWasReceived(read.payments);
    hide VoidAll, PendingQr, Held, Latest, LatestReceived;
    var kept := VoidAll(now.payments, PendingQr(read.payments)).value;
    VoidsKeepHeld(now.payments, kept);
    if Asked(amount) > 0 {
      var plan := ResolveRefund(read.payments, amount, via).value.value;
      var p := Payment(Refund, plan.via, Paid, plan.amount, at, Some(plan.refundOf));
      assert CommitCancel(now, read, amount, via, at).value.payments == kept + [p];
      assert plan.refundOf == Latest(read.payments).value && LatestReceived(read.payments, plan.refundOf);
      RefundLowersHeld(kept, p);
    }
  }

  /** What a cancellation keeps is what it meant to keep - what it read as held, less what it gives back -
      exactly when nothing came in since the read; and in particular one that gives back all it read as
      held leaves nothing exactly then. */
  lemma RefundedInFullWhen(now: Money, read: Money, amount: Option<nat>, via: Option<Method>, at: int)
    requires MoneyRight(now) && MoneyRight(read) && Later(read, now)
    requires CommitCancel(now, read, amount, via, at).Ok?
    ensures var kept := Held(CommitCancel(now, read, amount, via, at).value.payments);
      && (kept == Held(read.payments) - Asked(amount) <==> Held(now.payments) == Held(read.payments))
      && kept >= Held(read.payments) - Asked(amount) >= 0
      && (Asked(amount) == Held(read.payments) ==> (kept == 0 <==> Held(now.payments) == Held(read.payments)))
  {
    hide CommitCancel, Held, MoneyRight, Later, StillWaiting;
    CancelIsEarly(now, read, amount, via, at);
    HeldGrew(now, read);
    CancelAcceptedWhen(now, read, amount, via, at);
    CancelGivesBack(now, read, amount, via, at);
  }

  lemma HeldGrew(now: Money, read: Money)
    requires MoneyRight(read) && Later(read, now) && Unshipped(now.status)
    ensures 0 <= Held(read.payments) <= Held(now.payments)
  {
    hide BookRight, Held;
  }

  lemma CancelIsEarly(now: Money, read: Money, amount: Option<nat>, via: Option<Method>, at: int)
    requires MoneyRight(now) && CommitCancel(now, read, amount, via, at).Ok?
    ensures Unshipped(now.status)
  {
    hide BookRight, ResolveRefund, VoidAll;
  }

  /** The balance makes no difference to the payment status. */
  predicate SameStatusWith(deposit: int, balance: int, total: int) {
    balance == 0 || (deposit > 0 && (deposit + balance < total || deposit >= total))
  }

  /** An edit that looks at the deposit sets the payment status from the deposit alone. It is right for
      all the money held exactly when no balance was collected, or the deposit by itself already says
      the same. */
  lemma EditedPayStatusWhen(now: Money, read: Money, e: Edit)
    requires MoneyRight(now) && MoneyRight(read) && Later(read, now)
    requires CommitEdit(now, read, e).Ok? && DepositAfter(read, e).value.Some?
    ensures var after := CommitEdit(now, read, e).value;
      var d, balance := DepositHeld(now.payments), Sum(now.payments, Balance);
      after.payStatus == PayStatusFor(Held(after.payments), e.grandTotal)
      <==> SameStatusWith(d, balance, e.grandTotal)
  {
    hide BookRight, ResolveEditedDeposit;
    var after := CommitEdit(now, read, e).value;
    EditedDepositRight(read, e);
    if Leaving(read, e) { VoidAllOnlyVoids(now.payments, PendingQr(read.payments)); }
    VoidsKeepBook(now.payments, after.payments, now.cash);
    SumByNonNegative(now.payments, PaidOf(Balance));
  }

  /** A pickup order of 100 dong, packed and unpaid. */
  function Waiting(): Money {
    Money(Journey.Packed, Journey.StorePickup, 1, 100, None, Unpaid, [], [])
  }

  /** What a till that read the order as unpaid makes of it. */
  function TillTakes(now: Money): Money {
    now.(version := now.version + 1, payStatus := FullyPaid,
         payments := now.payments + [Payment(Balance, Cash, Paid, 100, 0, None)],
         cash := now.cash + [CashRow(|now.payments|, true, 100, Cash)])
  }

  lemma TillTakesHundred(now: Money)
    requires now.status == Journey.Packed
    ensures CommitCollectCash(now, Waiting(), 0) == Ok(TillTakes(now))
  {
    NothingHeld();
  }

  /** How it starts, and how it comes to be packed. */
  lemma StartsUnpaid(start: Money)
    requires start == Waiting().(status := Journey.Confirmed, version := 0)
    ensures Create(start.kind, start.grandTotal, None, 0) == Ok(start)
  {}

  lemma ThreeSteps(states: seq<Money>, actions: seq<Action>, deposit: Option<DepositInput>)
    requires |states| == 4 && |actions| == 3 && Create(states[0].kind, states[0].grandTotal, deposit, 0) == Ok(states[0])
    requires Took(states, 0, actions[0]) && Took(states, 1, actions[1]) && Took(states, 2, actions[2])
    ensures Life(states, actions, deposit, 0)
  {
    hide Took, Create;
    forall n | 0 <= n < |actions| ensures Took(states, n, actions[n]) {
      if n == 0 {} else if n == 1 {} else {}
    }
  }

  /** Two tills that both read it as unpaid both collect: 200 dong are taken for 100. */
  lemma CollectedTwice() returns (states: seq<Money>, actions: seq<Action>)
    ensures Life(states, actions, None, 0) && |actions| == 3 && states[0].grandTotal == 100
    ensures states[3].grandTotal == 100 && Held(states[3].payments) == 200
  {
    hide CommitCollectCash, VoidAll, PendingQr, Life, Create, Held, DepositHeld;
    var m0 := Waiting().(status := Journey.Confirmed, version := 0);
    var m1 := Waiting();
    var m2, m3 := TillTakes(m1), TillTakes(TillTakes(m1));
    TillTakesHundred(m1);
    TillTakesHundred(m2);
    states, actions := [m0, m1, m2, m3], [Proceed(Journey.Packed), CollectCash(1, 0), CollectCash(1, 0)];
    assert Took(states, 0, actions[0]) && Took(states, 1, actions[1]) && Took(states, 2, actions[2]);
    StartsUnpaid(m0);
    ThreeSteps(states, actions, None);
    HundredHeld();
  }

  lemma NothingHeld()
    ensures Held([]) == 0 && DepositHeld([]) == 0 && PendingQr([]) == [] && forall ps :: VoidAll(ps, []) == Ok(ps)
  {}

  lemma NothingToRefund(now: Money)
    requires now.status == Journey.Packed
    ensures CommitCancel(now, Waiting(), None, None, 0) == Ok(now.(version := now.version + 1, status := Journey.Cancelled))
  {
    NothingHeld();
  }

  /** A till collects the 100 dong between the read and the commit of a cancellation that read nothing
      held and so asked for no refund: the order is cancelled and the 100 dong stay. */
  lemma CancelMissesACollection() returns (states: seq<Money>, actions: seq<Action>)
    ensures Life(states, actions, None, 0) && |actions| == 3
    ensures states[3].status == Journey.Cancelled && states[3].payStatus == FullyPaid && Held(states[3].payments) == 100
  {
    hide CommitCollectCash, CommitCancel, PendingQr, Life, Create, Held, DepositHeld, VoidAll;
    var m0 := Waiting().(status := Journey.Confirmed, version := 0);
    var m1 := Waiting();
    var m2 := TillTakes(m1);
    TillTakesHundred(m1);
    NothingToRefund(m2);
    var m3 := m2.(version := 3, status := Journey.Cancelled);
    states, actions := [m0, m1, m2, m3], [Proceed(Journey.Packed), CollectCash(1, 0), CancelOrder(1, None, None, 0)];
    assert Took(states, 0, actions[0]) && Took(states, 1, actions[1]) && Took(states, 2, actions[2]);
    StartsUnpaid(m0);
    ThreeSteps(states, actions, None);
    HundredHeld();
  }

  lemma HundredHeld()
    ensures Held(TillTakes(Waiting()).payments) == 100 && Held(TillTakes(TillTakes(Waiting())).payments) == 200
  {
    hide Sum;
    var p := Payment(Balance, Cash, Paid, 100, 0, None);
    EmptyBook();
    SumsGrow([], p);
    SumsGrow([p], p);
    assert [] + [p] == [p];
  }

  /** An order of 100 dong, 50 of them a deposit. */
  function Deposited(): Money {
    Money(Journey.Confirmed, Journey.StorePickup, 0, 100, Some(DepositTaken(50, None)), PartiallyPaid,
          [Payment(Deposit, Cash, Paid, 50, 0, None)], [CashRow(0, true, 50, Cash)])
  }

  /** The other 50 collected at the counter. */
  function DepositedAndCollected(): Money {
    Deposited().(status := Journey.Packed, version := 2, payStatus := FullyPaid,
                 payments := Deposited().payments + [Payment(Balance, Cash, Paid, 50, 0, None)],
                 cash := Deposited().cash + [CashRow(1, true, 50, Cash)])
  }

  lemma DepositedHeld()
    ensures DepositHeld(Deposited().payments) == 50 == Held(Deposited().payments) && PendingQr(Deposited().payments) == []
    ensures DepositHeld(DepositedAndCollected().payments) == 50 && Held(DepositedAndCollected().payments) == 100
  {
    var p := Deposited().payments[0];
    assert [p][..0] == [] && PendingQr([]) == [];
    hide Sum, PendingQr;
    EmptyBook();
    assert [] + [p] == [p];
    SumsGrow([], p);
    SumsGrow([p], Payment(Balance, Cash, Paid, 50, 0, None));
  }

  lemma DepositedStart(m: Money)
    requires m == Deposited()
    ensures Create(m.kind, m.grandTotal, Some(Amount(50, Cash)), 0) == Ok(m)
  {
    assert [] + m.payments == m.payments && [] + m.cash == m.cash;
  }

  lemma BalanceCollected()
    ensures CommitCollectCash(Deposited().(status := Journey.Packed, version := 1), Deposited().(status := Journey.Packed, version := 1), 0)
         == Ok(DepositedAndCollected())
  {
    DepositedHeld();
    NothingHeld();
    hide PendingQr, VoidAll, Held;
  }

  lemma DepositSentAgain(m: Money, e: Edit)
    requires m == DepositedAndCollected() && e == Edit(100, Some(Amount(50, Cash)), Journey.StorePickup, true)
    ensures CommitEdit(m, m, e) == Ok(m.(version := 3, payStatus := PartiallyPaid))
  {
    DepositedHeld();
    hide DepositHeld, Held;
  }

  /** An order of 100 dong, 50 of them a deposit and 50 collected at the counter, is fully paid; sending the
      same deposit again with an edit leaves it marked as partially paid. */
  lemma EditForgetsTheBalance() returns (states: seq<Money>, actions: seq<Action>)
    ensures Life(states, actions, Some(Amount(50, Cash)), 0) && |actions| == 3
    ensures states[2].payStatus == FullyPaid && states[2].grandTotal == 100 && Held(states[2].payments) == 100
    ensures states[3] == states[2].(version := 3, payStatus := PartiallyPaid)
  {
    hide CommitCollectCash, CommitEdit, Life, Create, Held, DepositHeld, PendingQr;
    var m0, m2 := Deposited(), DepositedAndCollected();
    var m1 := m0.(status := Journey.Packed, version := 1);
    var e := Edit(100, Some(Amount(50, Cash)), Journey.StorePickup, true);
    var m3 := m2.(version := 3, payStatus := PartiallyPaid);
    BalanceCollected();
    DepositSentAgain(m2, e);
    DepositedHeld();
    states, actions := [m0, m1, m2, m3], [Proceed(Journey.Packed), CollectCash(1, 0), EditOrder(2, e)];
    assert Took(states, 0, actions[0]) && Took(states, 1, actions[1]) && Took(states, 2, actions[2]);
    DepositedStart(m0);
    ThreeSteps(states, actions, Some(Amount(50, Cash)));
  }
}
