/** Vocabulary every module shares: optional values, results of an operation that may be refused,
    and sums over a sequence with the few laws the proofs need. */
module Common {

  datatype Option<+T> = None | Some(value: T)

  /** What the services throw. A refused operation rolls its transaction back. */
  datatype ErrorCode =
    | QuantityMustBePositive
    | InsufficientStock
    | InventoryLockMismatch
    | InventoryLotShortage
    | OrderStatusConflict
    | OrderStatusTransitionInvalid
    | OrderCancelNotAllowed
    | OrderNotEditable
    | OrderNotStorePickup
    | OrderPickupNotReady
    | OrderPickupBalanceDue
    | FulfillmentNothingToPack
    | FulfillmentMultipleSources
    | FulfillmentLineNoSource
    | FulfillmentNotHandedOver
    | ShipmentNotForPickup
    | ShipmentOrderNotPacked
    | ForeignKeyViolation
    | RecordNotFound
    | CashDrawerClosed
    | CashDrawerNotHolder
    | ShiftLogNextStaffInvalid
    | ShiftLogHandoverInvalid
    | ShiftLogStartRequired
    | ShiftLogNextStaffSelf
    | StaffNotAtBranch
    | CashDrawerConflict
    | CashDrawerEndLogRequired
    | OrderReturnStatusInvalid
    | OrderReturnConditionRequired
    | OrderReturnQtyExceeds
    | OrderReturnOrderNotReturnable
    | OrderReturnEmpty
    | OrderItemNotFound
    | OrderItemNotCustomizable
    | OrderItemCustomLocked
    | LocationDamagedRequired
    | LocationRequired
    | LocationNotFound
    | LocationNotSellable
    | OrderDepositExceedsTotal
    | OrderDepositChanged
    | OrderRefundExceedsDeposit
    | OrderRefundAmountRequired
    | OrderCollectionAmountMismatch
    | OrderPickupAlreadyCollected
    | OrderQrPaymentNotPending
    | OrderFulfillmentTypeLocked
    | ProductComboInvalid
    | ProductItemNotFound
    | ProductComboComponentDiscontinued

  datatype Result<+T> = Ok(value: T) | Err(error: ErrorCode)

  function Min(a: int, b: int): int { if a <= b then a else b }

  function Max(a: int, b: int): int { if a >= b then a else b }

  /** The sum of `f` over `s`, counted from the left. */
  function SumBy<T>(s: seq<T>, f: T -> int): int {
    if s == [] then 0 else SumBy(s[..|s| - 1], f) + f(s[|s| - 1])
  }

  lemma SumByAppend<T>(s: seq<T>, x: T, f: T -> int)
    ensures SumBy(s + [x], f) == SumBy(s, f) + f(x)
  {
    assert (s + [x])[..|s|] == s;
  }

  lemma SumByPrefix<T>(s: seq<T>, i: nat, f: T -> int)
    requires 0 < i <= |s|
    ensures SumBy(s[..i], f) == SumBy(s[..i - 1], f) + f(s[i - 1])
  {
    assert s[..i][..i - 1] == s[..i - 1];
  }

  lemma {:induction false} SumByConcat<T>(a: seq<T>, b: seq<T>, f: T -> int)
    ensures SumBy(a + b, f) == SumBy(a, f) + SumBy(b, f)
  {
    if b == [] {
      assert a + b == a;
    } else {
      assert (a + b)[..|a + b| - 1] == a + b[..|b| - 1];
      SumByConcat(a, b[..|b| - 1], f);
    }
  }

  lemma SumByHead<T>(s: seq<T>, f: T -> int)
    requires s != []
    ensures SumBy(s, f) == f(s[0]) + SumBy(s[1..], f)
  {
    assert s == [s[0]] + s[1..];
    SumByConcat([s[0]], s[1..], f);
    assert [s[0]][..0] == [];
  }

  lemma SumByUpdate<T>(s: seq<T>, i: nat, x: T, f: T -> int)
    requires i < |s|
    ensures SumBy(s[i := x], f) == SumBy(s, f) - f(s[i]) + f(x)
  {
    assert s == s[..i] + ([s[i]] + s[i + 1..]);
    assert s[i := x] == s[..i] + ([x] + s[i + 1..]);
    SumByConcat(s[..i], [s[i]] + s[i + 1..], f);
    SumByConcat(s[..i], [x] + s[i + 1..], f);
    SumByHead([s[i]] + s[i + 1..], f);
    SumByHead([x] + s[i + 1..], f);
  }

  lemma {:induction false} SumBySame<T>(s: seq<T>, f: T -> int, g: T -> int)
    requires forall x :: x in s ==> f(x) == g(x)
    ensures SumBy(s, f) == SumBy(s, g)
  {
    if s != [] {
      SumBySame(s[..|s| - 1], f, g);
      assert s[|s| - 1] in s;
    }
  }

  lemma {:induction false} SumByZero<T>(s: seq<T>, f: T -> int)
    requires forall x :: x in s ==> f(x) == 0
    ensures SumBy(s, f) == 0
  {
    if s != [] {
      SumByZero(s[..|s| - 1], f);
      assert s[|s| - 1] in s;
    }
  }

  lemma {:induction false} SumByAtMost<T>(s: seq<T>, f: T -> int, g: T -> int)
    requires forall x :: x in s ==> f(x) <= g(x)
    ensures SumBy(s, f) <= SumBy(s, g)
  {
    if s != [] {
      SumByAtMost(s[..|s| - 1], f, g);
      assert s[|s| - 1] in s;
    }
  }

  lemma {:induction false} SumByAdd<T>(s: seq<T>, f: T -> int, g: T -> int, h: T -> int)
    requires forall x :: x in s ==> h(x) == f(x) + g(x)
    ensures SumBy(s, h) == SumBy(s, f) + SumBy(s, g)
  {
    if s != [] {
      SumByAdd(s[..|s| - 1], f, g, h);
      assert s[|s| - 1] in s;
    }
  }

  /** A sum of non-negative terms covers each of its terms. */
  lemma {:induction false} SumByCovers<T>(s: seq<T>, f: T -> int, i: nat)
    requires i < |s|
    requires forall x :: x in s ==> f(x) >= 0
    ensures 0 <= f(s[i]) <= SumBy(s, f)
  {
    SumByUpdate(s, i, s[i], f);
    var rest := s[..|s| - 1];
    if i < |rest| {
      SumByCovers(rest, f, i);
      assert s[|s| - 1] in s;
    } else {
      SumByNonNegative(rest, f);
      assert s[i] in s;
    }
  }

  lemma {:induction false} SumByNonNegative<T>(s: seq<T>, f: T -> int)
    requires forall x :: x in s ==> f(x) >= 0
    ensures SumBy(s, f) >= 0
  {
    if s != [] {
      SumByNonNegative(s[..|s| - 1], f);
      assert s[|s| - 1] in s;
    }
  }
}
