/** Why a combo does not open: each reason given is a way down one can point at, and five levels are just
    as many as there may be. */
module ComboRefusals {
  import opened Common
  import opened ComboExpansion

  /** A way down that shows the reason at its end. */
  predicate Shows(g: Graph, p: seq<Id>, why: Refusal) {
    && p != []
    && var last := p[|p| - 1];
       match why
       case TooDeep => |p| > MAX_COMBO_DEPTH
       case NoComponents(combo) => last == combo && Parts(g, combo) == []
       case ContainsItself(combo) => last == combo && combo in p[..|p| - 1]
  }

  ghost predicate Shown(g: Graph, id: Id, why: Refusal) { exists p :: Chain(g, p) && p[0] == id && Shows(g, p, why) }

  lemma {:induction false} WalkRefused(g: Graph, id: Id, multiplier: int, path: seq<Id>, leaves: seq<Leaf>)
    requires Chain(g, path) && path[|path| - 1] == id && WalkFrom(g, id, multiplier, path, leaves).Refused?
    ensures Shown(g, path[0], WalkFrom(g, id, multiplier, path, leaves).why)
    decreases MAX_COMBO_DEPTH + 1 - |path|, 1, 0
  {
    if |path| > MAX_COMBO_DEPTH || Parts(g, id) == [] {
      assert Shows(g, path, WalkFrom(g, id, multiplier, path, leaves).why);
    } else {
      assert Parts(g, id)[..|Parts(g, id)|] == Parts(g, id);
      WalkPartsRefused(g, id, |Parts(g, id)|, multiplier, path, leaves);
    }
  }

  lemma {:induction false} WalkPartsRefused(g: Graph, id: Id, n: nat, multiplier: int, path: seq<Id>, leaves: seq<Leaf>)
    requires Chain(g, path) && path[|path| - 1] == id && |path| <= MAX_COMBO_DEPTH && n <= |Parts(g, id)|
    requires WalkParts(g, Parts(g, id)[..n], multiplier, path, leaves).Refused?
    ensures Shown(g, path[0], WalkParts(g, Parts(g, id)[..n], multiplier, path, leaves).why)
    decreases MAX_COMBO_DEPTH + 1 - |path|, 0, n
  {
    var part := Parts(g, id)[n - 1];
    WalkOneMore(g, Parts(g, id), multiplier, path, leaves, n - 1);
    var before := WalkParts(g, Parts(g, id)[..n - 1], multiplier, path, leaves);
    if before.Refused? {
      WalkPartsRefused(g, id, n - 1, multiplier, path, leaves);
    } else {
      assert part in Parts(g, id) && part.item == Item(part.item.id, Combo);
      var longer := path + [part.item.id];
      ChainSnoc(g, path, part.item.id);
      assert longer[0] == path[0] && longer[..|path|] == path;
      if part.item.id in path {
        assert Shows(g, longer, ContainsItself(part.item.id));
      } else {
        WalkRefused(g, part.item.id, multiplier * part.quantity, longer, before.leaves);
      }
    }
  }

  /** Every refusal is true: there is a way down from the combo that is too long, comes back to the combo named, or
      ends in the empty combo named. */
  lemma RefusalMeans(id: Id, g: Graph)
    requires FlattenCombo(id, g).Refused?
    ensures Shown(g, id, FlattenCombo(id, g).why)
  {
    WalkRefused(g, id, 1, [id], []);
  }

  // ---------------------------------------------------------------- how deep is too deep

  /** Combo `id` of a tower of so many holds just the next, the last one a product. */
  function Storey(id: nat, top: nat): seq<Edge> { [Edge(Item(id + 1, if id < top then Combo else Product), 1)] }

  /** Combos 1 to `n` of a tower. */
  function Storeys(n: nat, top: nat): Graph { if n == 0 then map[] else Storeys(n - 1, top)[n := Storey(n, top)] }

  function Tower(top: nat): Graph { Storeys(top, top) }

  lemma {:induction false} StoreysAre(n: nat, top: nat, id: Id)
    ensures Parts(Storeys(n, top), id) == if 1 <= id <= n then Storey(id, top) else []
  {
    if n > 0 { StoreysAre(n - 1, top, id); }
  }

  lemma TowerNests(top: nat, a: Id, b: Id)
    ensures Nests(Tower(top), a, b) <==> 1 <= a < top && b == a + 1
  {
    StoreysAre(top, top, a);
    if 1 <= a < top && b == a + 1 { assert Storey(a, top)[0] in Parts(Tower(top), a); }
  }

  lemma {:induction false} TowerChain(top: nat, p: seq<Id>)
    requires top > 0 && Chain(Tower(top), p) && p[0] == 1
    ensures |p| <= top && forall i :: 0 <= i < |p| ==> p[i] == i + 1
  {
    if |p| > 1 {
      var n := |p| - 2;
      assert Nests(Tower(top), p[n], p[n + 1]);
      TowerNests(top, p[n], p[n + 1]);
      TowerChain(top, p[..|p| - 1]);
    }
  }

  lemma FiveOpen()
    ensures FlattenCombo(1, Tower(5)).Leaves?
  {
    hide FlattenCombo, Tower;
    FlattensExactly(1, Tower(5));
    forall p | Chain(Tower(5), p) && p[0] == 1 ensures WellNested(Tower(5), p) { TowerNested(5, p); }
  }

  lemma TowerNested(top: nat, p: seq<Id>)
    requires 0 < top <= 5 && Chain(Tower(top), p) && p[0] == 1
    ensures WellNested(Tower(top), p)
  {
    TowerChain(top, p);
    StoreysAre(top, top, p[|p| - 1]);
  }

  lemma SixInARow()
    ensures Chain(Tower(6), [1, 2, 3, 4, 5, 6]) && !WellNested(Tower(6), [1, 2, 3, 4, 5, 6])
  {
    hide Tower;
    var six := [1, 2, 3, 4, 5, 6];
    forall i | 0 <= i < 5 ensures Nests(Tower(6), six[i], six[i + 1]) { TowerNests(6, six[i], six[i + 1]); }
  }

  /** No way down a tower is empty at its end or comes back to itself. */
  lemma TowerShows(top: nat, p: seq<Id>, why: Refusal)
    requires top > 0 && Chain(Tower(top), p) && p[0] == 1 && Shows(Tower(top), p, why)
    ensures why == TooDeep
  {
    TowerChain(top, p);
    StoreysAre(top, top, p[|p| - 1]);
  }

  /** A combo in a combo opens up to five levels, and not at six. */
  lemma FiveLevels()
    ensures FlattenCombo(1, Tower(5)).Leaves?
    ensures FlattenCombo(1, Tower(6)) == Refused(TooDeep)
  {
    hide FlattenCombo, Tower, WellNested, Shows;
    FiveOpen();
    FlattensExactly(1, Tower(6));
    SixInARow();
    assert [1, 2, 3, 4, 5, 6][0] == 1;
    RefusalMeans(1, Tower(6));
    var p :| p != [] && Chain(Tower(6), p) && p[0] == 1 && Shows(Tower(6), p, FlattenCombo(1, Tower(6)).why);
    TowerShows(6, p, FlattenCombo(1, Tower(6)).why);
  }
}
