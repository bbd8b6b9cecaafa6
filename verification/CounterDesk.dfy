/** The counter as it runs: a sale draws its lines from the branch one by one, a cancellation brings
    them back one by one, and a refusal on any line undoes the lines before it. */
module CounterDesk {
  import opened Common
  import opened StockLedger
  import opened CounterSale
  import Ops = StockOperations
  import InventoryService

  lemma SellOneMore(s: State, c: Counter, lines: seq<SaleLine>, i: nat)
    requires i < |lines|
    ensures SellAll(s, c, lines[..i + 1])
         == match SellAll(s, c, lines[..i]) case Err(e) => Err(e) case Ok(t) => SellLine(t, c, lines[i])
  {
    assert lines[..i + 1][..i] == lines[..i];
  }

  lemma {:induction false} SellStops(s: State, c: Counter, lines: seq<SaleLine>, i: nat)
    requires i <= |lines| && SellAll(s, c, lines[..i]).Err?
    ensures SellAll(s, c, lines) == SellAll(s, c, lines[..i])
  {
    if i < |lines| {
      assert lines[..|lines| - 1][..i] == lines[..i];
      SellStops(s, c, lines[..|lines| - 1], i);
    } else {
      assert lines[..i] == lines;
    }
  }

  function NextBack(so: Result<State>, c: Counter, l: SaleLine): Result<State>
    requires so.Ok? ==> Consistent(so.value)
  {
    if so.Err? then so else Ops.ReturnDrawn(so.value, ReversalOf(c, l))
  }

  lemma CancelOneMore(s: State, c: Counter, lines: seq<SaleLine>, i: nat)
    requires Consistent(s) && i < |lines|
    ensures CancelAll(s, c, lines[..i]).Ok? ==> Consistent(CancelAll(s, c, lines[..i]).value)
    ensures CancelAll(s, c, lines[..i + 1]) == NextBack(CancelAll(s, c, lines[..i]), c, lines[i])
  {
    assert lines[..i + 1][..i] == lines[..i];
  }

  lemma {:induction false} CancelStops(s: State, c: Counter, lines: seq<SaleLine>, i: nat)
    requires Consistent(s) && i <= |lines| && CancelAll(s, c, lines[..i]).Err?
    ensures CancelAll(s, c, lines) == CancelAll(s, c, lines[..i])
  {
    if i < |lines| {
      assert lines[..|lines| - 1][..i] == lines[..i];
      CancelStops(s, c, lines[..|lines| - 1], i);
      CancelOneMore(s, c, lines, |lines| - 1);
      assert lines[..|lines|] == lines;
    } else {
      assert lines[..i] == lines;
    }
  }

  class Desk {
    const inventory: InventoryService.Service

    ghost predicate Valid()
      reads this, inventory
    {
      inventory.Valid()
    }

    constructor ()
      ensures Valid() && fresh(inventory) && inventory.Tables() == EMPTY
    {
      var service := new InventoryService.Service();
      inventory := service;
    }

    method Sell(c: Counter, lines: seq<SaleLine>) returns (r: Result<()>)
      requires Valid()
      modifies inventory
      ensures Valid() && inventory.Tables() == InventoryService.Settled(old(inventory.Tables()), SellAll(old(inventory.Tables()), c, lines))
      ensures r == InventoryService.Verdict(SellAll(old(inventory.Tables()), c, lines))
    {
      hide Ops.DeductStock;
      var saved := inventory.Tables();
      for i := 0 to |lines|
        invariant Valid() && SellAll(saved, c, lines[..i]) == Ok(inventory.Tables())
      {
        SellOneMore(saved, c, lines, i);
        r := inventory.DeductStock(Key(c.branch, lines[i].item), lines[i].quantity, SaleCause(c, lines[i]));
        if r.Err? {
          SellStops(saved, c, lines, i + 1);
          inventory.RollBack(saved);
          return r;
        }
      }
      assert lines[..|lines|] == lines;
      return Ok(());
    }

    method Cancel(c: Counter, lines: seq<SaleLine>) returns (r: Result<()>)
      requires Valid()
      modifies inventory
      ensures Valid() && inventory.Tables() == InventoryService.Settled(old(inventory.Tables()), CancelAll(old(inventory.Tables()), c, lines))
      ensures r == InventoryService.Verdict(CancelAll(old(inventory.Tables()), c, lines))
    {
      hide Ops.ReturnDrawn, Consistent;
      var saved := inventory.Tables();
      for i := 0 to |lines|
        invariant Valid() && CancelAll(saved, c, lines[..i]) == Ok(inventory.Tables())
      {
        CancelOneMore(saved, c, lines, i);
        r := inventory.ReturnDrawn(ReversalOf(c, lines[i]));
        if r.Err? {
          CancelStops(saved, c, lines, i + 1);
          inventory.RollBack(saved);
          return r;
        }
      }
      assert lines[..|lines|] == lines;
      return Ok(());
    }
  }
}
