/** Two lists of locks that need the same at every key weigh the same, whatever a unit of each key weighs. */
module LockWeights {
  import opened Common
  import opened StockLedger
  import opened StockOperations
  import opened StockInvariants

  function Weigh(g: Key -> int): LockLine -> int { (l: LockLine) => l.quantity * g(l.key) }

  function Elsewhere(a: seq<LockLine>, k: Key): (r: seq<LockLine>)
    ensures |r| <= |a|
  {
    if a == [] then []
    else Elsewhere(a[..|a| - 1], k) + if a[|a| - 1].key == k then [] else [a[|a| - 1]]
  }

  lemma ElsewhereLast(a: seq<LockLine>, k: Key, f: LockLine -> int)
    requires a != []
    ensures SumBy(Elsewhere(a, k), f)
         == SumBy(Elsewhere(a[..|a| - 1], k), f) + if a[|a| - 1].key == k then 0 else f(a[|a| - 1])
  {
    if a[|a| - 1].key == k {
      assert Elsewhere(a, k) == Elsewhere(a[..|a| - 1], k);
    } else {
      SumByAppend(Elsewhere(a[..|a| - 1], k), a[|a| - 1], f);
    }
  }

  lemma Distributes(x: int, y: int, z: int)
    ensures (x + y) * z == x * z + y * z
  {}

  lemma {:induction false} PullOut(a: seq<LockLine>, k: Key, g: Key -> int)
    ensures SumBy(a, Weigh(g)) == SumBy(a, NeedAt(k)) * g(k) + SumBy(Elsewhere(a, k), Weigh(g))
  {
    if a != [] {
      var front, last := a[..|a| - 1], a[|a| - 1];
      PullOut(front, k, g);
      ElsewhereLast(a, k, Weigh(g));
      assert SumBy(a, NeedAt(k)) == SumBy(front, NeedAt(k)) + NeedAt(k)(last);
      if last.key == k { Distributes(SumBy(front, NeedAt(k)), last.quantity, g(k)); }
    }
  }

  lemma {:induction false} ElsewhereNeeds(a: seq<LockLine>, k: Key, at: Key)
    ensures SumBy(Elsewhere(a, k), NeedAt(at)) == if at == k then 0 else SumBy(a, NeedAt(at))
  {
    if a != [] {
      ElsewhereNeeds(a[..|a| - 1], k, at);
      ElsewhereLast(a, k, NeedAt(at));
    }
  }

  ghost predicate SameNeeds(a: seq<LockLine>, b: seq<LockLine>) {
    forall k: Key :: SumBy(a, NeedAt(k)) == SumBy(b, NeedAt(k))
  }

  /** Two lists that need the same at every key weigh the same, whatever a unit of each key weighs. */
  lemma {:induction false} SameNeedsWeighSame(a: seq<LockLine>, b: seq<LockLine>, g: Key -> int)
    requires SameNeeds(a, b)
    ensures SumBy(a, Weigh(g)) == SumBy(b, Weigh(g))
    decreases |a| + |b|
  {
    if a != [] || b != [] {
      var k := if a != [] then a[|a| - 1].key else b[|b| - 1].key;
      PullOut(a, k, g);
      PullOut(b, k, g);
      forall at: Key ensures SumBy(Elsewhere(a, k), NeedAt(at)) == SumBy(Elsewhere(b, k), NeedAt(at)) {
        ElsewhereNeeds(a, k, at);
        ElsewhereNeeds(b, k, at);
        assert SumBy(a, NeedAt(at)) == SumBy(b, NeedAt(at));
      }
      SameNeedsWeighSame(Elsewhere(a, k), Elsewhere(b, k), g);
    }
  }

  /** The same quantities, line by line, of goods that weigh at least as much. */
  ghost predicate LineByLineHeavier(a: seq<LockLine>, b: seq<LockLine>, g: Key -> int) {
    |a| == |b| && forall i :: 0 <= i < |a| ==> a[i].quantity == b[i].quantity > 0 && g(a[i].key) <= g(b[i].key)
  }

  lemma {:induction false} HeavierWeighsMore(a: seq<LockLine>, b: seq<LockLine>, g: Key -> int)
    requires LineByLineHeavier(a, b, g)
    ensures SumBy(a, Weigh(g)) <= SumBy(b, Weigh(g))
    ensures (exists i :: 0 <= i < |a| && g(a[i].key) < g(b[i].key)) ==> SumBy(a, Weigh(g)) < SumBy(b, Weigh(g))
  {
    if a != [] {
      var n := |a| - 1;
      HeavierWeighsMore(a[..n], b[..n], g);
      WeighsMore(a[n].quantity, g(a[n].key), g(b[n].key));
      if i :| 0 <= i < n && g(a[i].key) < g(b[i].key) {
        assert g(a[..n][i].key) < g(b[..n][i].key);
      }
    }
  }

  lemma WeighsMore(quantity: int, x: int, y: int)
    requires quantity > 0 && x <= y
    ensures quantity * x <= quantity * y
    ensures x < y ==> quantity * x < quantity * y
  {}
}
