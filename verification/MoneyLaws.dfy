/** What each route of an order's money comes to, in plain sums: which deposits are taken, when a
    balance may be collected, what an edit may touch, what an arriving transfer settles - and what each
    of them then writes. */
module MoneyLaws {
  import opened Common
  import opened OrderMoney
  import Journey = OrderJourney

  // ---------------------------------------------------------------- deposits

  /** `amount` is so many hundredths of a percent of the total, to the nearest dong. */
  predicate PercentAsked(amount: nat, total: nat, percent: nat) {
    -10000 < 2 * (amount * 10000 - total * percent) <= 10000
  }

  lemma PercentIs(amount: nat, total: nat, percent: nat)
    ensures amount == PercentOf(total, percent) <==> PercentAsked(amount, total, percent)
  {
    var product := total * percent;
    assert 0 <= product;
  }

  lemma PercentUnique(total: nat, percent: nat)
    ensures PercentAsked(PercentOf(total, percent), total, percent)
    ensures forall a: nat, b: nat :: PercentAsked(a, total, percent) && PercentAsked(b, total, percent) ==> a == b
  {
    PercentIs(PercentOf(total, percent), total, percent);
    forall a: nat, b: nat | PercentAsked(a, total, percent) && PercentAsked(b, total, percent) ensures a == b {
      PercentIs(a, total, percent);
      PercentIs(b, total, percent);
    }
  }

  /** What was asked as a deposit comes to `amount`, and it is part of the total. */
  predicate DepositIs(input: Option<DepositInput>, total: nat, amount: nat) {
    match input
    case None => amount == 0
    case Some(Amount(value, _)) => amount == value <= total
    case Some(Percent(value, _)) => value <= 10000 && PercentAsked(amount, total, value)
  }

  /** How it is kept on the order: nothing if it is nothing, else with the percentage it was asked as. */
  predicate KeptAs(d: Option<DepositTaken>, input: Option<DepositInput>, amount: nat) {
    if amount == 0 then d == None
    else d == Some(DepositTaken(amount, match input case Some(Percent(value, _)) => Some(value) case _ => None))
  }

  /** A deposit is taken exactly when what was asked comes to an amount within the total. */
  lemma DepositTakenWhen(input: Option<DepositInput>, total: nat)
    ensures ResolveDeposit(input, total).Ok? <==> exists amount: nat :: DepositIs(input, total, amount)
    ensures forall amount: nat :: DepositIs(input, total, amount) && ResolveDeposit(input, total).Ok? ==>
      KeptAs(ResolveDeposit(input, total).value, input, amount)
  {
    match input {
      case None => assert DepositIs(input, total, 0);
      case Some(Amount(value, _)) => assert value <= total ==> DepositIs(input, total, value);
      case Some(Percent(value, _)) =>
        PercentUnique(total, value);
        if value <= 10000 {
          PercentWithinTotal(total, value);
          assert DepositIs(input, total, PercentOf(total, value));
        }
    }
  }

  // ---------------------------------------------------------------- a new order

  /** How much of the total a deposit covers. */
  predicate StatusOfDeposit(status: PayStatus, amount: int, total: int) {
    match status
    case Unpaid => amount <= 0
    case PartiallyPaid => 0 < amount < total
    case FullyPaid => 0 < amount && total <= amount
    case _ => false
  }

  /** A new order is taken exactly when its deposit is, which is then its one payment and its one cash row. */
  lemma CreateWhen(kind: Journey.FulfillmentType, total: nat, input: Option<DepositInput>, at: int)
    ensures Create(kind, total, input, at).Ok? <==> exists amount: nat :: DepositIs(input, total, amount)
    ensures forall amount: nat :: DepositIs(input, total, amount) && Create(kind, total, input, at).Ok? ==>
      var m := Create(kind, total, input, at).value;
      && m.status == Journey.Confirmed && m.kind == kind && m.grandTotal == total && m.version == 0
      && KeptAs(m.deposit, input, amount) && StatusOfDeposit(m.payStatus, amount, total)
      && (amount == 0 ==> m.payments == [] && m.cash == [])
      && (amount > 0 ==>
            && m.payments == [Payment(Deposit, input.value.via, Paid, amount, at, None)]
            && m.cash == [CashRow(0, true, amount, input.value.via)])
  {
    DepositTakenWhen(input, total);
    hide ResolveDeposit, DepositIs;
    forall amount: nat | DepositIs(input, total, amount) && ResolveDeposit(input, total).Ok?
      ensures KeptAs(ResolveDeposit(input, total).value, input, amount)
      ensures amount > 0 ==> input.Some?
    {
      if amount > 0 { SomethingAsked(input, total, amount); }
    }
  }

  lemma SomethingAsked(input: Option<DepositInput>, total: nat, amount: nat)
    requires DepositIs(input, total, amount) && amount > 0
    ensures input.Some?
  {}

  // ---------------------------------------------------------------- collecting the balance

  /** Every payment as it was, but the transfers that waited at the read void. */
  predicate VoidedSince(now: seq<Payment>, read: seq<Payment>, after: seq<Payment>) {
    |after| >= |now| && forall i :: 0 <= i < |now| ==> after[i] == VoidedIf(now[i], WasWaiting(read, i))
  }

  /** Cash is taken exactly at the counter, for a packed order that was read as owing something, and only
      if no waiting transfer arrived since; it then takes what was read as owing. */
  lemma CollectCashWhen(now: Money, read: Money, at: int)
    ensures CommitCollectCash(now, read, at).Ok? <==>
      && read.kind == Journey.StorePickup && read.status == Journey.Packed && now.status == Journey.Packed
      && Held(read.payments) < read.grandTotal && StillWaiting(now.payments, read.payments)
    ensures CommitCollectCash(now, read, at).Ok? ==>
      var m, due := CommitCollectCash(now, read, at).value, read.grandTotal - Held(read.payments);
      && m == now.(version := now.version + 1, payStatus := FullyPaid, payments := m.payments, cash := m.cash)
      && VoidedSince(now.payments, read.payments, m.payments)
      && m.payments[|now.payments|..] == [Payment(Balance, Cash, Paid, due, at, None)]
      && m.cash == now.cash + [CashRow(|now.payments|, true, due, Cash)]
  {
    WaitingVoided(now.payments, read.payments);
    hide VoidAll, PendingQr, Held;
  }

  /** A waiting code for exactly what is read as owing. */
  predicate CodeStands(read: Money) {
    exists i :: 0 <= i < |read.payments| && WasWaiting(read.payments, i)
                && read.payments[i].amount == read.grandTotal - Held(read.payments)
  }

  /** A code is shown exactly at the counter, for an order read as packed and owing. One that stands is shown
      again; otherwise those that waited and still do are void, and one is made out for what is owing. */
  lemma CollectQrWhen(now: Money, read: Money, at: int)
    ensures CommitCollectQr(now, read, at).Ok? <==>
      && read.kind == Journey.StorePickup && read.status == Journey.Packed && Held(read.payments) < read.grandTotal
    ensures CommitCollectQr(now, read, at).Ok? ==>
      var m, due := CommitCollectQr(now, read, at).value, read.grandTotal - Held(read.payments);
      if CodeStands(read) then m == now
      else
        && m == now.(payments := m.payments) && |m.payments| == |now.payments| + 1
        && (forall i :: 0 <= i < |now.payments| ==>
              m.payments[i] == VoidedIf(now.payments[i], WasWaiting(read.payments, i) && now.payments[i].status == Pending))
        && m.payments[|now.payments|] == Payment(Balance, Sepay, Pending, due, at, None)
  {
    hide Held;
  }

  /** An arriving transfer settles a payment that waits for no more than it brings, and the order with it if
      it is packed and waits at the counter; any other changes nothing. */
  lemma TransferWhen(now: Money, id: nat, received: int)
    ensures var m := TransferArrives(now, id, received);
      if id < |now.payments| && now.payments[id].status == Pending && now.payments[id].amount <= received then
        var settles := now.status == Journey.Packed && now.kind == Journey.StorePickup;
        && m.payments == now.payments[id := now.payments[id].(status := Paid)]
        && m.cash == now.cash + [CashRow(id, true, received, Sepay)]
        && m == now.(payments := m.payments, cash := m.cash, payStatus := m.payStatus, version := m.version)
        && m.payStatus == (if settles then FullyPaid else now.payStatus)
        && m.version == (if settles then now.version + 1 else now.version)
      else m == now
  {}

  // ---------------------------------------------------------------- editing

  /** The deposit an edit settles on: what it sends, or what the order has - a percentage being taken
      of the new total. */
  predicate EditedTo(e: Edit, read: Money, d: Option<DepositTaken>, amount: nat) {
    match e.deposit
    case Some(_) => DepositIs(e.deposit, e.grandTotal, amount) && KeptAs(d, e.deposit, amount)
    case None =>
      match read.deposit
      case None => d == None && amount == 0
      case Some(DepositTaken(had, None)) => d == read.deposit && amount == had <= e.grandTotal
      case Some(DepositTaken(_, Some(percent))) => PercentAsked(amount, e.grandTotal, percent) && d == Some(DepositTaken(amount, Some(percent)))
  }

  /** Nothing about the money is said and the total stays. */
  predicate LeavesDeposit(e: Edit, read: Money) { e.deposit == None && e.grandTotal == read.grandTotal }

  /** The deposit does not stand in the way: it is left alone, or settles on just what is held of it. */
  ghost predicate DepositStands(e: Edit, read: Money) {
    LeavesDeposit(e, read)
    || exists d: Option<DepositTaken>, amount: nat :: SettlesOn(e, read, d, amount)
  }

  predicate Resolves(e: Edit, read: Money, d: Option<DepositTaken>, amount: nat) {
    amount == AmountOf(d) && ResolveEditedDeposit(e.deposit, read.deposit, e.grandTotal, DepositHeld(read.payments)) == Ok(d)
  }

  predicate SettlesOn(e: Edit, read: Money, d: Option<DepositTaken>, amount: nat) {
    amount == DepositHeld(read.payments) && EditedTo(e, read, d, amount)
  }

  lemma ResolvedTo(e: Edit, read: Money)
    ensures forall d: Option<DepositTaken>, amount: nat :: SettlesOn(e, read, d, amount) <==> Resolves(e, read, d, amount)
  {
    hide PercentAsked, DepositIs, DepositHeld, PercentOf, ResolveDeposit;
    DepositTakenWhen(e.deposit, e.grandTotal);
    forall d: Option<DepositTaken>, amount: nat
      ensures SettlesOn(e, read, d, amount) <==> Resolves(e, read, d, amount)
    {
      match e.deposit {
        case Some(input) => SentOnce(e, d, amount);
        case None => if read.deposit.Some? && read.deposit.value.percent.Some? {
          PercentIs(amount, e.grandTotal, read.deposit.value.percent.value);
        }
      }
    }
  }

  lemma StandsWhen(e: Edit, read: Money)
    ensures DepositStands(e, read) <==> DepositAfter(read, e).Ok?
  {
    ResolvedTo(e, read);
    hide SettlesOn, DepositHeld;
    if !LeavesDeposit(e, read) && DepositAfter(read, e).Ok? {
      SettledAmount(e, read);
      var d := DepositAfter(read, e).value.value;
      assert Resolves(e, read, d, AmountOf(d));
    }
    if !LeavesDeposit(e, read) && DepositStands(e, read) {
      var d: Option<DepositTaken>, amount: nat :| SettlesOn(e, read, d, amount);
      assert Resolves(e, read, d, amount);
    }
  }

  lemma SentOnce(e: Edit, d: Option<DepositTaken>, amount: nat)
    ensures DepositIs(e.deposit, e.grandTotal, amount) && KeptAs(d, e.deposit, amount)
      <==> ResolveDeposit(e.deposit, e.grandTotal) == Ok(d) && amount == AmountOf(d)
  {
    DepositTakenWhen(e.deposit, e.grandTotal);
    if e.deposit.Some? && e.deposit.value.Percent? { PercentIs(amount, e.grandTotal, e.deposit.value.value); }
  }

  /** Main result on edits. An edit of the money goes through exactly when the goods had not left and nothing
      was written since the read, the way of delivery stays or may change - not away from the counter once a
      balance was collected there, nor while a transfer shown there has just arrived - and the deposit stands. */
  lemma EditWhen(now: Money, read: Money, e: Edit)
    ensures CommitEdit(now, read, e).Ok? <==>
      && (read.status == Journey.Confirmed || read.status == Journey.Packed || read.status == Journey.PickedUp)
      && now.status == read.status && now.version == read.version
      && (e.kind == read.kind || e.kindAllowed)
      && (read.kind == Journey.StorePickup && e.kind != Journey.StorePickup ==>
            && StillWaiting(now.payments, read.payments)
            && !exists p :: p in read.payments && p.kind == Balance && p.status == Paid)
      && DepositStands(e, read)
  {
    StandsWhen(e, read);
    WaitingVoided(now.payments, read.payments);
    hide VoidAll, PendingQr, DepositAfter, DepositStands, StillWaiting;
  }

  /** What it writes: the total and the way of delivery asked for; the deposit as settled, with the status it
      gives the money, or both as they were; the shown codes void once the goods do not wait at the counter. */
  lemma EditWrites(now: Money, read: Money, e: Edit)
    requires CommitEdit(now, read, e).Ok?
    ensures var m := CommitEdit(now, read, e).value;
      && m.status == now.status && m.version == now.version + 1 && m.cash == now.cash
      && m.grandTotal == e.grandTotal && m.kind == e.kind && |m.payments| == |now.payments|
      && (if read.kind == Journey.StorePickup && e.kind != Journey.StorePickup
          then VoidedSince(now.payments, read.payments, m.payments) else m.payments == now.payments)
      && (if LeavesDeposit(e, read) then m.deposit == now.deposit && m.payStatus == now.payStatus
          else
            && DepositHeld(read.payments) >= 0 && EditedTo(e, read, m.deposit, DepositHeld(read.payments))
            && StatusOfDeposit(m.payStatus, DepositHeld(read.payments), e.grandTotal))
  {
    ResolvedTo(e, read);
    WaitingVoided(now.payments, read.payments);
    hide VoidAll, PendingQr, DepositHeld, ResolveEditedDeposit, EditedTo, StillWaiting;
    if !LeavesDeposit(e, read) {
      SettledAmount(e, read);
      var d := DepositAfter(read, e).value.value;
      assert Resolves(e, read, d, AmountOf(d)) && SettlesOn(e, read, d, AmountOf(d));
    }
  }

  lemma SettledAmount(e: Edit, read: Money)
    requires DepositAfter(read, e).Ok? && !LeavesDeposit(e, read)
    ensures DepositAfter(read, e).value.Some?
    ensures ResolveEditedDeposit(e.deposit, read.deposit, e.grandTotal, DepositHeld(read.payments)) == Ok(DepositAfter(read, e).value.value)
    ensures AmountOf(DepositAfter(read, e).value.value) == DepositHeld(read.payments) >= 0
  {
    hide DepositHeld;
  }
}
