/** Opening a combo down to the things that are really sold (src/modules/orders/combo-expansion.ts):
    a depth-first walk that multiplies quantities on the way down and merges equal leaves. */
module ComboExpansion {
  import opened Common

  type Id = nat

  const MAX_COMBO_DEPTH := 5

  datatype ItemType = Product | Service | Combo

  datatype Item = Item(id: Id, itemType: ItemType)

  /** One part of a combo. */
  datatype Edge = Edge(item: Item, quantity: int)

  /** The parts of every combo that has any. */
  type Graph = map<Id, seq<Edge>>

  datatype Leaf = Leaf(item: Item, quantity: int)

  datatype Refusal = TooDeep | NoComponents(combo: Id) | ContainsItself(combo: Id)

  datatype Expansion = Leaves(leaves: seq<Leaf>) | Refused(why: Refusal)

  function Parts(g: Graph, id: Id): seq<Edge> { if id in g then g[id] else [] }

  // ---------------------------------------------------------------- the walk

  /** Units of a leaf join those already found, at the place where it was first found. */
  function AddLeaf(leaves: seq<Leaf>, item: Item, quantity: int): seq<Leaf> {
    if leaves == [] then [Leaf(item, quantity)]
    else if leaves[0].item.id == item.id then [leaves[0].(quantity := leaves[0].quantity + quantity)] + leaves[1..]
    else [leaves[0]] + AddLeaf(leaves[1..], item, quantity)
  }

  function WalkFrom(g: Graph, id: Id, multiplier: int, path: seq<Id>, leaves: seq<Leaf>): Expansion
    decreases MAX_COMBO_DEPTH + 1 - |path|, 1, 0
  {
    if |path| > MAX_COMBO_DEPTH then Refused(TooDeep)
    else if Parts(g, id) == [] then Refused(NoComponents(id))
    else WalkParts(g, Parts(g, id), multiplier, path, leaves)
  }

  function WalkParts(g: Graph, parts: seq<Edge>, multiplier: int, path: seq<Id>, leaves: seq<Leaf>): Expansion
    requires |path| <= MAX_COMBO_DEPTH
    decreases MAX_COMBO_DEPTH + 1 - |path|, 0, |parts|
  {
    if parts == [] then Leaves(leaves)
    else
      match WalkParts(g, parts[..|parts| - 1], multiplier, path, leaves)
      case Refused(why) => Refused(why)
      case Leaves(found) => WalkPart(g, parts[|parts| - 1], multiplier, path, found)
  }

  function WalkPart(g: Graph, part: Edge, multiplier: int, path: seq<Id>, leaves: seq<Leaf>): Expansion
    requires |path| <= MAX_COMBO_DEPTH
    decreases MAX_COMBO_DEPTH + 1 - |path|, 0, 0
  {
    if part.item.itemType != Combo then Leaves(AddLeaf(leaves, part.item, multiplier * part.quantity))
    else if part.item.id in path then Refused(ContainsItself(part.item.id))
    else WalkFrom(g, part.item.id, multiplier * part.quantity, path + [part.item.id], leaves)
  }

  function FlattenCombo(id: Id, g: Graph): Expansion { WalkFrom(g, id, 1, [id], []) }

  /** The walk as it runs: one table of leaves, written by every level of the recursion. */
  class Walker {
    const graph: Graph
    var leaves: seq<Leaf>

    constructor (g: Graph)
      ensures graph == g && leaves == []
    {
      graph, leaves := g, [];
    }

    method Merge(item: Item, quantity: int)
      modifies this
      ensures leaves == AddLeaf(old(leaves), item, quantity)
    {
      var i := 0;
      while i < |leaves| && leaves[i].item.id != item.id
        invariant 0 <= i <= |leaves|
        invariant AddLeaf(leaves, item, quantity) == leaves[..i] + AddLeaf(leaves[i..], item, quantity)
      {
        assert leaves[i..][1..] == leaves[i + 1..];
        assert leaves[..i + 1] == leaves[..i] + [leaves[i]];
        i := i + 1;
      }
      if i < |leaves| {
        assert leaves[i..][1..] == leaves[i + 1..];
        leaves := leaves[i := leaves[i].(quantity := leaves[i].quantity + quantity)];
      } else {
        leaves := leaves + [Leaf(item, quantity)];
      }
    }

    method Walk(id: Id, multiplier: int, path: seq<Id>) returns (refusal: Option<Refusal>)
      modifies this
      ensures match WalkFrom(graph, id, multiplier, path, old(leaves))
        case Leaves(found) => refusal == None && leaves == found
        case Refused(why) => refusal == Some(why)
      decreases MAX_COMBO_DEPTH + 1 - |path|
    {
      if |path| > MAX_COMBO_DEPTH { return Some(TooDeep); }
      var parts := Parts(graph, id);
      if parts == [] { return Some(NoComponents(id)); }
      for i := 0 to |parts|
        invariant WalkParts(graph, parts[..i], multiplier, path, old(leaves)) == Leaves(leaves)
      {
        WalkOneMore(graph, parts, multiplier, path, old(leaves), i);
        var part := parts[i];
        if part.item.itemType == Combo {
          if part.item.id in path {
            refusal := Some(ContainsItself(part.item.id));
          } else {
            refusal := Walk(part.item.id, multiplier * part.quantity, path + [part.item.id]);
          }
          if refusal.Some? {
            WalkStops(graph, parts, multiplier, path, old(leaves), i + 1);
            return refusal;
          }
        } else {
          Merge(part.item, multiplier * part.quantity);
        }
      }
      assert parts[..|parts|] == parts;
      return None;
    }
  }

  method Flatten(id: Id, g: Graph) returns (r: Expansion)
    ensures r == FlattenCombo(id, g)
  {
    var walker := new Walker(g);
    var refusal := walker.Walk(id, 1, [id]);
    return match refusal case Some(why) => Refused(why) case None => Leaves(walker.leaves);
  }

  lemma WalkOneMore(g: Graph, parts: seq<Edge>, multiplier: int, path: seq<Id>, leaves: seq<Leaf>, i: nat)
    requires |path| <= MAX_COMBO_DEPTH && i < |parts|
    ensures WalkParts(g, parts[..i + 1], multiplier, path, leaves)
         == match WalkParts(g, parts[..i], multiplier, path, leaves)
            case Refused(why) => Refused(why)
            case Leaves(found) => WalkPart(g, parts[i], multiplier, path, found)
  {
    assert parts[..i + 1][..i] == parts[..i];
  }

  lemma {:induction false} WalkStops(g: Graph, parts: seq<Edge>, multiplier: int, path: seq<Id>, leaves: seq<Leaf>, i: nat)
    requires |path| <= MAX_COMBO_DEPTH && i <= |parts|
    requires WalkParts(g, parts[..i], multiplier, path, leaves).Refused?
    ensures WalkParts(g, parts, multiplier, path, leaves) == WalkParts(g, parts[..i], multiplier, path, leaves)
  {
    if i < |parts| {
      assert parts[..|parts| - 1][..i] == parts[..i];
      WalkStops(g, parts[..|parts| - 1], multiplier, path, leaves, i);
    } else {
      assert parts[..i] == parts;
    }
  }

  // ---------------------------------------------------------------- when it succeeds

  predicate Nests(g: Graph, a: Id, b: Id) {
    exists e :: e in Parts(g, a) && e.item == Item(b, Combo)
  }

  /** A way down through combos only. */
  predicate Chain(g: Graph, p: seq<Id>) {
    p != [] && forall i :: 0 <= i < |p| - 1 ==> Nests(g, p[i], p[i + 1])
  }

  predicate NoRepeats(p: seq<Id>) { forall i, j :: 0 <= i < j < |p| ==> p[i] != p[j] }

  predicate WellNested(g: Graph, p: seq<Id>)
    requires p != []
  {
    |p| <= MAX_COMBO_DEPTH && NoRepeats(p) && Parts(g, p[|p| - 1]) != []
  }

  /** No way down from a combo holds more than five combos, comes back to itself, or ends in an empty one. */
  ghost predicate Flattenable(g: Graph, id: Id) {
    forall p :: Chain(g, p) && p[0] == id ==> WellNested(g, p)
  }

  lemma ChainSnoc(g: Graph, p: seq<Id>, b: Id)
    requires Chain(g, p) && Nests(g, p[|p| - 1], b)
    ensures Chain(g, p + [b])
  {}

  lemma {:induction false} WalkSucceeds(g: Graph, id: Id, multiplier: int, path: seq<Id>, leaves: seq<Leaf>)
    requires Chain(g, path) && path[|path| - 1] == id && Flattenable(g, path[0])
    ensures WalkFrom(g, id, multiplier, path, leaves).Leaves?
    decreases MAX_COMBO_DEPTH + 1 - |path|, 1, 0
  {
    assert WellNested(g, path);
    WalkPartsSucceeds(g, id, |Parts(g, id)|, multiplier, path, leaves);
    assert Parts(g, id)[..|Parts(g, id)|] == Parts(g, id);
  }

  lemma {:induction false} WalkPartsSucceeds(g: Graph, id: Id, n: nat, multiplier: int, path: seq<Id>, leaves: seq<Leaf>)
    requires Chain(g, path) && path[|path| - 1] == id && Flattenable(g, path[0]) && |path| <= MAX_COMBO_DEPTH
    requires n <= |Parts(g, id)|
    ensures WalkParts(g, Parts(g, id)[..n], multiplier, path, leaves).Leaves?
    decreases MAX_COMBO_DEPTH + 1 - |path|, 0, n
  {
    if n > 0 {
      var part := Parts(g, id)[n - 1];
      WalkOneMore(g, Parts(g, id), multiplier, path, leaves, n - 1);
      WalkPartsSucceeds(g, id, n - 1, multiplier, path, leaves);
      if part.item.itemType == Combo {
        assert part in Parts(g, id) && part.item == Item(part.item.id, Combo);
        ChainSnoc(g, path, part.item.id);
        var longer := path + [part.item.id];
        assert longer[0] == path[0];
        assert WellNested(g, longer);
        assert forall i :: 0 <= i < |path| ==> path[i] == longer[i] && longer[i] != longer[|path|];
        var found := WalkParts(g, Parts(g, id)[..n - 1], multiplier, path, leaves).leaves;
        WalkSucceeds(g, part.item.id, multiplier * part.quantity, longer, found);
      }
    }
  }

  /** A walk that got through got through each of its parts. */
  lemma {:induction false} PartGotThrough(g: Graph, parts: seq<Edge>, multiplier: int, path: seq<Id>, leaves: seq<Leaf>, j: nat)
    returns (found: seq<Leaf>)
    requires |path| <= MAX_COMBO_DEPTH && j < |parts| && WalkParts(g, parts, multiplier, path, leaves).Leaves?
    ensures WalkPart(g, parts[j], multiplier, path, found).Leaves?
  {
    if j == |parts| - 1 {
      found := WalkParts(g, parts[..j], multiplier, path, leaves).leaves;
    } else {
      found := PartGotThrough(g, parts[..|parts| - 1], multiplier, path, leaves, j);
    }
  }

  lemma {:induction false} WalkCovers(g: Graph, id: Id, multiplier: int, path: seq<Id>, leaves: seq<Leaf>, rest: seq<Id>)
    requires path != [] && path[|path| - 1] == id && NoRepeats(path) && Chain(g, path + rest)
    requires WalkFrom(g, id, multiplier, path, leaves).Leaves?
    ensures WellNested(g, path + rest)
    decreases |rest|
  {
    if rest == [] {
      assert path + rest == path;
    } else {
      var child := rest[0];
      assert (path + rest)[|path| - 1] == id && (path + rest)[|path|] == child;
      assert Nests(g, id, child);
      var e :| e in Parts(g, id) && e.item == Item(child, Combo);
      var j :| 0 <= j < |Parts(g, id)| && Parts(g, id)[j] == e;
      var found := PartGotThrough(g, Parts(g, id), multiplier, path, leaves, j);
      assert (path + [child]) + rest[1..] == path + rest;
      WalkCovers(g, child, multiplier * e.quantity, path + [child], found, rest[1..]);
    }
  }

  /** A combo opens exactly when no way down from it is longer than five combos, repeats one, or ends
      in an empty one - whatever the graph, cycles included. */
  lemma FlattensExactly(id: Id, g: Graph)
    ensures FlattenCombo(id, g).Leaves? <==> Flattenable(g, id)
  {
    if Flattenable(g, id) {
      WalkSucceeds(g, id, 1, [id], []);
    } else {
      var p :| Chain(g, p) && p[0] == id && !WellNested(g, p);
      if FlattenCombo(id, g).Leaves? {
        assert [id] + p[1..] == p;
        WalkCovers(g, id, 1, [id], [], p[1..]);
        assert false;
      }
    }
  }

  // ---------------------------------------------------------------- what it yields

  /** A way down to a leaf, as the place of the part taken at every level. */
  predicate IsRoute(g: Graph, id: Id, r: seq<nat>)
    decreases |r|
  {
    && r != [] && r[0] < |Parts(g, id)|
    && var part := Parts(g, id)[r[0]];
       if part.item.itemType == Combo then IsRoute(g, part.item.id, r[1..]) else |r| == 1
  }

  function RouteEnd(g: Graph, id: Id, r: seq<nat>): Item
    requires IsRoute(g, id, r)
    decreases |r|
  {
    var part := Parts(g, id)[r[0]];
    if part.item.itemType == Combo then RouteEnd(g, part.item.id, r[1..]) else part.item
  }

  /** The product of the quantities along the way. */
  function RouteUnits(g: Graph, id: Id, r: seq<nat>): int
    requires IsRoute(g, id, r)
    decreases |r|
  {
    var part := Parts(g, id)[r[0]];
    part.quantity * if part.item.itemType == Combo then RouteUnits(g, part.item.id, r[1..]) else 1
  }

  function Prefixed(i: nat, routes: seq<seq<nat>>): (r: seq<seq<nat>>)
    ensures |r| == |routes| && forall k :: 0 <= k < |r| ==> r[k] == [i] + routes[k]
  {
    seq(|routes|, k requires 0 <= k < |routes| => [i] + routes[k])
  }

  /** All ways down of at most `depth` levels. */
  function Routes(g: Graph, id: Id, depth: nat): seq<seq<nat>>
    decreases depth, 1, 0
  {
    if depth == 0 then [] else RoutesThrough(g, id, depth, |Parts(g, id)|)
  }

  function RoutesVia(g: Graph, id: Id, depth: nat, i: nat): seq<seq<nat>>
    requires depth > 0 && i < |Parts(g, id)|
    decreases depth, 0, 0
  {
    var item := Parts(g, id)[i].item;
    if item.itemType == Combo then Prefixed(i, Routes(g, item.id, depth - 1)) else [[i]]
  }

  function RoutesThrough(g: Graph, id: Id, depth: nat, n: nat): seq<seq<nat>>
    requires depth > 0 && n <= |Parts(g, id)|
    decreases depth, 0, n
  {
    if n == 0 then [] else RoutesThrough(g, id, depth, n - 1) + RoutesVia(g, id, depth, n - 1)
  }

  /** The enumeration is exact: every way down of that length is in it. */
  lemma {:induction false} RoutesComplete(g: Graph, id: Id, depth: nat, r: seq<nat>)
    ensures r in Routes(g, id, depth) <==> IsRoute(g, id, r) && |r| <= depth
    decreases depth, 1, 0
  {
    if depth > 0 { RoutesThroughComplete(g, id, depth, |Parts(g, id)|, r); }
  }

  lemma {:induction false} RoutesThroughComplete(g: Graph, id: Id, depth: nat, n: nat, r: seq<nat>)
    requires depth > 0 && n <= |Parts(g, id)|
    ensures r in RoutesThrough(g, id, depth, n) <==> IsRoute(g, id, r) && |r| <= depth && r[0] < n
    decreases depth, 0, n
  {
    if n > 0 {
      RoutesThroughComplete(g, id, depth, n - 1, r);
      RoutesViaComplete(g, id, depth, n - 1, r);
    }
  }

  lemma {:induction false} RoutesViaComplete(g: Graph, id: Id, depth: nat, i: nat, r: seq<nat>)
    requires depth > 0 && i < |Parts(g, id)|
    ensures r in RoutesVia(g, id, depth, i) <==> IsRoute(g, id, r) && |r| <= depth && r[0] == i
    decreases depth, 0, 0
  {
    var item := Parts(g, id)[i].item;
    if item.itemType == Combo {
      var below := Routes(g, item.id, depth - 1);
      if r != [] {
        RoutesComplete(g, item.id, depth - 1, r[1..]);
        if r[0] == i {
          assert r == [i] + r[1..];
          if r[1..] in below {
            var k :| 0 <= k < |below| && below[k] == r[1..];
            assert Prefixed(i, below)[k] == r;
          }
        }
        if r in Prefixed(i, below) {
          var k :| 0 <= k < |below| && Prefixed(i, below)[k] == r;
          assert r[1..] == below[k];
        }
      }
    } else if r == [i] {
      assert r in [[i]];
    }
  }

  /** And it names no way down twice. */
  lemma {:induction false} RoutesDistinct(g: Graph, id: Id, depth: nat, n: nat, a: nat, b: nat)
    requires depth > 0 && n <= |Parts(g, id)| && a < b < |RoutesThrough(g, id, depth, n)|
    ensures RoutesThrough(g, id, depth, n)[a] != RoutesThrough(g, id, depth, n)[b]
    decreases depth, n
  {
    var front, via := RoutesThrough(g, id, depth, n - 1), RoutesVia(g, id, depth, n - 1);
    if b < |front| {
      RoutesDistinct(g, id, depth, n - 1, a, b);
    } else if a < |front| {
      RoutesThroughComplete(g, id, depth, n - 1, front[a]);
      RoutesViaComplete(g, id, depth, n - 1, via[b - |front|]);
    } else {
      var child := Parts(g, id)[n - 1].item.id;
      var below := Routes(g, child, depth - 1);
      assert depth > 1;
      RoutesDistinct(g, child, depth - 1, |Parts(g, child)|, a - |front|, b - |front|);
      assert via[a - |front|][1..] == below[a - |front|] && via[b - |front|][1..] == below[b - |front|];
    }
  }

  /** What a way down contributes to a leaf. */
  function Worth(g: Graph, id: Id, leaf: Id): seq<nat> -> int {
    (r: seq<nat>) => if IsRoute(g, id, r) && RouteEnd(g, id, r).id == leaf then RouteUnits(g, id, r) else 0
  }

  /** Units of a leaf in one combo: the sum over all ways down of the product of their quantities. */
  function PerCombo(g: Graph, id: Id, leaf: Id, depth: nat): int {
    SumBy(Routes(g, id, depth), Worth(g, id, leaf))
  }

  lemma {:induction false} PrefixedWorth(g: Graph, id: Id, i: nat, routes: seq<seq<nat>>, leaf: Id)
    requires i < |Parts(g, id)| && Parts(g, id)[i].item.itemType == Combo
    ensures SumBy(Prefixed(i, routes), Worth(g, id, leaf))
         == Parts(g, id)[i].quantity * SumBy(routes, Worth(g, Parts(g, id)[i].item.id, leaf))
  {
    if routes != [] {
      var front, last := routes[..|routes| - 1], routes[|routes| - 1];
      PrefixedWorth(g, id, i, front, leaf);
      assert Prefixed(i, routes)[..|routes| - 1] == Prefixed(i, front);
      var child := Parts(g, id)[i].item.id;
      OneWorth(g, id, i, last, leaf);
      hide Worth;
      Distributes(Parts(g, id)[i].quantity, SumBy(front, Worth(g, child, leaf)), Worth(g, child, leaf)(last));
    }
  }

  lemma OneWorth(g: Graph, id: Id, i: nat, r: seq<nat>, leaf: Id)
    requires i < |Parts(g, id)| && Parts(g, id)[i].item.itemType == Combo
    ensures Worth(g, id, leaf)([i] + r) == Parts(g, id)[i].quantity * Worth(g, Parts(g, id)[i].item.id, leaf)(r)
  {
    assert ([i] + r)[1..] == r;
  }

  lemma Distributes(q: int, a: int, b: int)
    ensures q * (a + b) == q * a + q * b
  {}

  /** Units a part brings per unit of its combo. */
  function PartWorth(g: Graph, part: Edge, leaf: Id, depth: nat): int
    requires depth > 0
  {
    part.quantity
      * if part.item.itemType == Combo then PerCombo(g, part.item.id, leaf, depth - 1)
        else if part.item.id == leaf then 1 else 0
  }

  lemma ViaWorth(g: Graph, id: Id, depth: nat, i: nat, leaf: Id)
    requires depth > 0 && i < |Parts(g, id)|
    ensures SumBy(RoutesVia(g, id, depth, i), Worth(g, id, leaf)) == PartWorth(g, Parts(g, id)[i], leaf, depth)
  {
    var part := Parts(g, id)[i];
    if part.item.itemType == Combo {
      PrefixedWorth(g, id, i, Routes(g, part.item.id, depth - 1), leaf);
    } else {
      assert [[i]] == [] + [[i]];
      SumByAppend([], [i], Worth(g, id, leaf));
      assert IsRoute(g, id, [i]);
    }
  }

  // ---------------------------------------------------------------- the leaf table

  function UnitsAt(leaf: Id): Leaf -> int { (l: Leaf) => if l.item.id == leaf then l.quantity else 0 }

  predicate Lists(leaves: seq<Leaf>, leaf: Id) { exists l :: l in leaves && l.item.id == leaf }

  predicate EachOnce(leaves: seq<Leaf>) {
    forall i, j :: 0 <= i < j < |leaves| ==> leaves[i].item.id != leaves[j].item.id
  }

  lemma {:induction false} AddLeafEffect(leaves: seq<Leaf>, item: Item, quantity: int, leaf: Id)
    ensures SumBy(AddLeaf(leaves, item, quantity), UnitsAt(leaf))
         == SumBy(leaves, UnitsAt(leaf)) + if item.id == leaf then quantity else 0
    ensures Lists(AddLeaf(leaves, item, quantity), leaf) <==> Lists(leaves, leaf) || item.id == leaf
  {
    var after := AddLeaf(leaves, item, quantity);
    if leaves == [] {
      assert [Leaf(item, quantity)] == [] + [Leaf(item, quantity)];
      SumByAppend([], Leaf(item, quantity), UnitsAt(leaf));
      assert after[0] in after;
    } else {
      SumByHead(leaves, UnitsAt(leaf));
      SumByHead(after, UnitsAt(leaf));
      assert forall l :: l in leaves <==> l == leaves[0] || l in leaves[1..];
      assert forall l :: l in after <==> l == after[0] || l in after[1..];
      assert leaves[0] in leaves && after[0] in after;
      if leaves[0].item.id == item.id {
        assert after[1..] == leaves[1..];
      } else {
        AddLeafEffect(leaves[1..], item, quantity, leaf);
        assert after[1..] == AddLeaf(leaves[1..], item, quantity);
        if Lists(after, leaf) && leaves[0].item.id != leaf { assert Lists(after[1..], leaf); }
        if Lists(leaves, leaf) && leaves[0].item.id != leaf { assert Lists(leaves[1..], leaf); }
      }
    }
  }

  lemma {:induction false} AddLeafOnce(leaves: seq<Leaf>, item: Item, quantity: int)
    requires EachOnce(leaves)
    ensures EachOnce(AddLeaf(leaves, item, quantity))
    ensures forall l :: l in AddLeaf(leaves, item, quantity) ==> l.item == item || exists m :: m in leaves && m.item == l.item
  {
    if leaves != [] {
      var after := AddLeaf(leaves, item, quantity);
      if leaves[0].item.id == item.id {
        assert forall l :: l in after ==> l == after[0] || l in leaves;
        assert leaves[0] in leaves;
      } else {
        AddLeafOnce(leaves[1..], item, quantity);
        var rest := AddLeaf(leaves[1..], item, quantity);
        forall j | 0 <= j < |rest| ensures rest[j].item.id != leaves[0].item.id {
          AddLeafEffect(leaves[1..], item, quantity, rest[j].item.id);
          assert rest[j] in rest;
          if rest[j].item.id != item.id {
            var m :| m in leaves[1..] && m.item.id == rest[j].item.id;
            var k :| 0 <= k < |leaves[1..]| && leaves[1..][k] == m;
          }
        }
        assert forall l :: l in after ==> l == leaves[0] || l in rest;
        assert forall m :: m in leaves[1..] ==> m in leaves;
        assert leaves[0] in leaves;
      }
    }
  }

  // ---------------------------------------------------------------- leaves = ways down

  /** Some way down of at most `depth` levels ends in the leaf. */
  ghost predicate Reached(g: Graph, id: Id, leaf: Id, depth: nat) {
    exists r :: IsRoute(g, id, r) && |r| <= depth && RouteEnd(g, id, r).id == leaf
  }

  ghost predicate ReachedBy(g: Graph, part: Edge, leaf: Id, depth: nat)
    requires depth > 0
  {
    if part.item.itemType == Combo then Reached(g, part.item.id, leaf, depth - 1) else part.item.id == leaf
  }

  /** One of the first `n` parts leads to the leaf. */
  ghost predicate ReachedAmong(g: Graph, id: Id, n: nat, leaf: Id, depth: nat)
    requires depth > 0 && n <= |Parts(g, id)|
  {
    exists i :: 0 <= i < n && ReachedBy(g, Parts(g, id)[i], leaf, depth)
  }

  lemma ReachedThrough(g: Graph, id: Id, leaf: Id, depth: nat)
    requires depth > 0
    ensures Reached(g, id, leaf, depth)
        <==> ReachedAmong(g, id, |Parts(g, id)|, leaf, depth)
  {
    if Reached(g, id, leaf, depth) {
      var r :| IsRoute(g, id, r) && |r| <= depth && RouteEnd(g, id, r).id == leaf;
      var part := Parts(g, id)[r[0]];
      if part.item.itemType == Combo { assert IsRoute(g, part.item.id, r[1..]) && |r[1..]| <= depth - 1; }
      assert ReachedBy(g, part, leaf, depth);
    }
    if i :| 0 <= i < |Parts(g, id)| && ReachedBy(g, Parts(g, id)[i], leaf, depth) {
      var part := Parts(g, id)[i];
      if part.item.itemType == Combo {
        var r :| IsRoute(g, part.item.id, r) && |r| <= depth - 1 && RouteEnd(g, part.item.id, r).id == leaf;
        assert ([i] + r)[1..] == r;
        assert IsRoute(g, id, [i] + r) && RouteEnd(g, id, [i] + r).id == leaf;
      } else {
        assert IsRoute(g, id, [i]) && RouteEnd(g, id, [i]).id == leaf;
      }
    }
  }

  /** A walk adds to every leaf what its ways down bring, and lists nothing else. */
  ghost predicate Adds(before: seq<Leaf>, after: seq<Leaf>, leaf: Id, units: int, listed: bool) {
    && SumBy(after, UnitsAt(leaf)) == SumBy(before, UnitsAt(leaf)) + units
    && (Lists(after, leaf) <==> Lists(before, leaf) || listed)
  }

  lemma AddsTwice(before: seq<Leaf>, mid: seq<Leaf>, after: seq<Leaf>, leaf: Id, m: int, u: int, v: int, a: bool, b: bool)
    requires Adds(before, mid, leaf, m * u, a) && Adds(mid, after, leaf, m * v, b)
    ensures Adds(before, after, leaf, m * (u + v), a || b)
  {
    assert m * (u + v) == m * u + m * v;
  }

  lemma RoutesWorthStep(g: Graph, id: Id, depth: nat, n: nat, leaf: Id)
    requires depth > 0 && n < |Parts(g, id)|
    ensures SumBy(RoutesThrough(g, id, depth, n + 1), Worth(g, id, leaf))
         == SumBy(RoutesThrough(g, id, depth, n), Worth(g, id, leaf)) + PartWorth(g, Parts(g, id)[n], leaf, depth)
    ensures ReachedAmong(g, id, n + 1, leaf, depth)
        <==> ReachedAmong(g, id, n, leaf, depth) || ReachedBy(g, Parts(g, id)[n], leaf, depth)
  {
    SumByConcat(RoutesThrough(g, id, depth, n), RoutesVia(g, id, depth, n), Worth(g, id, leaf));
    ViaWorth(g, id, depth, n, leaf);
    if ReachedAmong(g, id, n + 1, leaf, depth) {
      var i :| 0 <= i < n + 1 && ReachedBy(g, Parts(g, id)[i], leaf, depth);
      assert i < n || i == n;
    }
  }

  lemma {:induction false} WalkAdds(g: Graph, id: Id, multiplier: int, path: seq<Id>, leaves: seq<Leaf>, leaf: Id)
    requires WalkFrom(g, id, multiplier, path, leaves).Leaves?
    ensures var depth := MAX_COMBO_DEPTH + 1 - |path|;
      depth > 0 && Adds(leaves, WalkFrom(g, id, multiplier, path, leaves).leaves, leaf,
                        multiplier * PerCombo(g, id, leaf, depth), Reached(g, id, leaf, depth))
    decreases MAX_COMBO_DEPTH + 1 - |path|, 1, 0
  {
    var depth := MAX_COMBO_DEPTH + 1 - |path|;
    var n := |Parts(g, id)|;
    assert Parts(g, id)[..n] == Parts(g, id);
    WalkPartsAdds(g, id, n, multiplier, path, leaves, leaf);
    ReachedThrough(g, id, leaf, depth);
  }

  lemma {:induction false} WalkPartsAdds(g: Graph, id: Id, n: nat, multiplier: int, path: seq<Id>, leaves: seq<Leaf>, leaf: Id)
    requires |path| <= MAX_COMBO_DEPTH && n <= |Parts(g, id)|
    requires WalkParts(g, Parts(g, id)[..n], multiplier, path, leaves).Leaves?
    ensures var depth := MAX_COMBO_DEPTH + 1 - |path|;
      Adds(leaves, WalkParts(g, Parts(g, id)[..n], multiplier, path, leaves).leaves, leaf,
           multiplier * SumBy(RoutesThrough(g, id, depth, n), Worth(g, id, leaf)),
           ReachedAmong(g, id, n, leaf, depth))
    decreases MAX_COMBO_DEPTH + 1 - |path|, 0, n
  {
    hide Adds, RoutesThrough, ReachedAmong, ReachedBy, PartWorth, WalkPart, WalkParts;
    var depth := MAX_COMBO_DEPTH + 1 - |path|;
    if n == 0 {
      WalkNoPart(g, id, depth, multiplier, path, leaves, leaf);
    } else {
      var part := Parts(g, id)[n - 1];
      WalkOneMore(g, Parts(g, id), multiplier, path, leaves, n - 1);
      WalkPartsAdds(g, id, n - 1, multiplier, path, leaves, leaf);
      var found := WalkParts(g, Parts(g, id)[..n - 1], multiplier, path, leaves).leaves;
      WalkPartAdds(g, part, multiplier, path, found, leaf);
      RoutesWorthStep(g, id, depth, n - 1, leaf);
      AddsTwice(leaves, found, WalkPart(g, part, multiplier, path, found).leaves, leaf, multiplier,
                SumBy(RoutesThrough(g, id, depth, n - 1), Worth(g, id, leaf)), PartWorth(g, part, leaf, depth),
                ReachedAmong(g, id, n - 1, leaf, depth), ReachedBy(g, part, leaf, depth));
    }
  }

  lemma WalkNoPart(g: Graph, id: Id, depth: nat, multiplier: int, path: seq<Id>, leaves: seq<Leaf>, leaf: Id)
    requires depth > 0 && |path| <= MAX_COMBO_DEPTH
    ensures Parts(g, id)[..0] == [] && WalkParts(g, [], multiplier, path, leaves) == Leaves(leaves)
    ensures Adds(leaves, leaves, leaf, multiplier * SumBy(RoutesThrough(g, id, depth, 0), Worth(g, id, leaf)),
                 ReachedAmong(g, id, 0, leaf, depth))
  {}

  lemma {:induction false} WalkPartAdds(g: Graph, part: Edge, multiplier: int, path: seq<Id>, leaves: seq<Leaf>, leaf: Id)
    requires |path| <= MAX_COMBO_DEPTH && WalkPart(g, part, multiplier, path, leaves).Leaves?
    ensures var depth := MAX_COMBO_DEPTH + 1 - |path|;
      Adds(leaves, WalkPart(g, part, multiplier, path, leaves).leaves, leaf,
           multiplier * PartWorth(g, part, leaf, depth), ReachedBy(g, part, leaf, depth))
    decreases MAX_COMBO_DEPTH + 1 - |path|, 0, 0
  {
    hide WalkFrom, PerCombo, Reached, AddLeaf;
    var depth := MAX_COMBO_DEPTH + 1 - |path|;
    if part.item.itemType == Combo {
      WalkAdds(g, part.item.id, multiplier * part.quantity, path + [part.item.id], leaves, leaf);
      var below := PerCombo(g, part.item.id, leaf, depth - 1);
      assert (multiplier * part.quantity) * below == multiplier * (part.quantity * below);
    } else {
      AddLeafEffect(leaves, part.item, multiplier * part.quantity, leaf);
    }
  }

  // ---------------------------------------------------------------- each leaf once, as itself

  ghost predicate SellsAs(g: Graph, leaves: seq<Leaf>) {
    && EachOnce(leaves)
    && forall l :: l in leaves ==> l.item.itemType != Combo && exists id: Id, e :: e in Parts(g, id) && e.item == l.item
  }

  lemma {:induction false} WalkSells(g: Graph, id: Id, multiplier: int, path: seq<Id>, leaves: seq<Leaf>)
    requires SellsAs(g, leaves) && WalkFrom(g, id, multiplier, path, leaves).Leaves?
    ensures SellsAs(g, WalkFrom(g, id, multiplier, path, leaves).leaves)
    decreases MAX_COMBO_DEPTH + 1 - |path|, 1, 0
  {
    assert Parts(g, id)[..|Parts(g, id)|] == Parts(g, id);
    WalkPartsSells(g, id, |Parts(g, id)|, multiplier, path, leaves);
  }

  lemma {:induction false} WalkPartsSells(g: Graph, id: Id, n: nat, multiplier: int, path: seq<Id>, leaves: seq<Leaf>)
    requires |path| <= MAX_COMBO_DEPTH && n <= |Parts(g, id)| && SellsAs(g, leaves)
    requires WalkParts(g, Parts(g, id)[..n], multiplier, path, leaves).Leaves?
    ensures SellsAs(g, WalkParts(g, Parts(g, id)[..n], multiplier, path, leaves).leaves)
    decreases MAX_COMBO_DEPTH + 1 - |path|, 0, n
  {
    if n > 0 {
      var part := Parts(g, id)[n - 1];
      WalkOneMore(g, Parts(g, id), multiplier, path, leaves, n - 1);
      WalkPartsSells(g, id, n - 1, multiplier, path, leaves);
      var found := WalkParts(g, Parts(g, id)[..n - 1], multiplier, path, leaves).leaves;
      if part.item.itemType == Combo {
        WalkSells(g, part.item.id, multiplier * part.quantity, path + [part.item.id], found);
      } else {
        AddLeafOnce(found, part.item, multiplier * part.quantity);
        assert part in Parts(g, id);
      }
    }
  }

  lemma {:induction false} OnceIsAll(leaves: seq<Leaf>, l: Leaf)
    requires EachOnce(leaves) && l in leaves
    ensures SumBy(leaves, UnitsAt(l.item.id)) == l.quantity
  {
    var front, last := leaves[..|leaves| - 1], leaves[|leaves| - 1];
    if l == last {
      forall x | x in front ensures UnitsAt(l.item.id)(x) == 0 {
        var i :| 0 <= i < |front| && front[i] == x;
        assert leaves[i].item.id != leaves[|leaves| - 1].item.id;
      }
      SumByZero(front, UnitsAt(l.item.id));
    } else {
      var i :| 0 <= i < |leaves| && leaves[i] == l;
      assert front[i] == l;
      OnceIsAll(front, l);
    }
  }

  /** A way down passes one combo per level. */
  lemma {:induction false} RouteIsChain(g: Graph, id: Id, r: seq<nat>) returns (p: seq<Id>)
    requires IsRoute(g, id, r)
    ensures Chain(g, p) && p[0] == id && |p| == |r|
    decreases |r|
  {
    var part := Parts(g, id)[r[0]];
    if part.item.itemType == Combo {
      var below := RouteIsChain(g, part.item.id, r[1..]);
      p := [id] + below;
      assert part in Parts(g, id) && part.item == Item(part.item.id, Combo);
      assert Nests(g, id, part.item.id);
      forall i | 0 <= i < |p| - 1 ensures Nests(g, p[i], p[i + 1]) {
        if i > 0 { assert Nests(g, below[i - 1], below[i]); }
      }
    } else {
      p := [id];
    }
  }

  lemma FlattenSells(id: Id, g: Graph)
    requires FlattenCombo(id, g).Leaves?
    ensures SellsAs(g, FlattenCombo(id, g).leaves) && EachOnce(FlattenCombo(id, g).leaves)
  {
    WalkSells(g, id, 1, [id], []);
  }

  lemma RouteInReach(id: Id, g: Graph, r: seq<nat>)
    requires FlattenCombo(id, g).Leaves? && IsRoute(g, id, r)
    ensures |r| <= MAX_COMBO_DEPTH && r in Routes(g, id, MAX_COMBO_DEPTH)
  {
    FlattensExactly(id, g);
    var p := RouteIsChain(g, id, r);
    assert WellNested(g, p);
    RoutesComplete(g, id, MAX_COMBO_DEPTH, r);
  }

  /** Some way down ends in the leaf. */
  ghost predicate LeadsTo(g: Graph, id: Id, leaf: Id) {
    exists r :: IsRoute(g, id, r) && RouteEnd(g, id, r).id == leaf
  }

  lemma LeadsToInReach(id: Id, g: Graph, leaf: Id)
    requires FlattenCombo(id, g).Leaves?
    ensures LeadsTo(g, id, leaf) <==> Reached(g, id, leaf, MAX_COMBO_DEPTH)
  {
    if LeadsTo(g, id, leaf) {
      var r :| IsRoute(g, id, r) && RouteEnd(g, id, r).id == leaf;
      RouteInReach(id, g, r);
    }
  }

  /** Main result. The leaves of a combo that opens: each once, nothing but real goods and services,
      exactly those some way down ends in, and of each the sum over all ways down to it of the
      product of the quantities on the way. */
  lemma FlattenMeaning(id: Id, g: Graph)
    requires FlattenCombo(id, g).Leaves?
    ensures var leaves := FlattenCombo(id, g).leaves;
      && SellsAs(g, leaves)
      && (forall r :: IsRoute(g, id, r) ==> r in Routes(g, id, MAX_COMBO_DEPTH))
      && (forall leaf: Id :: Lists(leaves, leaf) <==> LeadsTo(g, id, leaf))
      && (forall l :: l in leaves ==> l.quantity == SumBy(Routes(g, id, MAX_COMBO_DEPTH), Worth(g, id, l.item.id)))
  {
    hide WalkFrom, Routes, IsRoute, RouteEnd, SellsAs;
    var leaves := FlattenCombo(id, g).leaves;
    assert SellsAs(g, leaves) && EachOnce(leaves) by { FlattenSells(id, g); }
    forall r | IsRoute(g, id, r) ensures |r| <= MAX_COMBO_DEPTH && r in Routes(g, id, MAX_COMBO_DEPTH) {
      RouteInReach(id, g, r);
    }
    forall leaf: Id
      ensures Lists(leaves, leaf) <==> LeadsTo(g, id, leaf)
      ensures SumBy(leaves, UnitsAt(leaf)) == SumBy(Routes(g, id, MAX_COMBO_DEPTH), Worth(g, id, leaf))
    {
      WalkAdds(g, id, 1, [id], [], leaf);
      LeadsToInReach(id, g, leaf);
    }
    forall l | l in leaves ensures l.quantity == SumBy(Routes(g, id, MAX_COMBO_DEPTH), Worth(g, id, l.item.id)) {
      OnceIsAll(leaves, l);
    }
  }

  // ---------------------------------------------------------------- only what is below matters

  /** Two graphs with the same parts on a set of combos that nests nothing outside itself. */
  ghost predicate SameWithin(g: Graph, h: Graph, inside: iset<Id>) {
    && (forall id :: id in inside ==> Parts(g, id) == Parts(h, id))
    && (forall id, child :: id in inside && Nests(g, id, child) ==> child in inside)
  }

  lemma {:induction false} WalkSame(g: Graph, h: Graph, inside: iset<Id>, id: Id, multiplier: int, path: seq<Id>, leaves: seq<Leaf>)
    requires SameWithin(g, h, inside) && id in inside
    ensures WalkFrom(g, id, multiplier, path, leaves) == WalkFrom(h, id, multiplier, path, leaves)
    decreases MAX_COMBO_DEPTH + 1 - |path|, 1, 0
  {
    if |path| <= MAX_COMBO_DEPTH {
      assert Parts(g, id)[..|Parts(g, id)|] == Parts(g, id);
      WalkPartsSame(g, h, inside, id, |Parts(g, id)|, multiplier, path, leaves);
    }
  }

  lemma {:induction false} WalkPartsSame(g: Graph, h: Graph, inside: iset<Id>, id: Id, n: nat, multiplier: int, path: seq<Id>, leaves: seq<Leaf>)
    requires SameWithin(g, h, inside) && id in inside && |path| <= MAX_COMBO_DEPTH && n <= |Parts(g, id)|
    ensures WalkParts(g, Parts(g, id)[..n], multiplier, path, leaves) == WalkParts(h, Parts(g, id)[..n], multiplier, path, leaves)
    decreases MAX_COMBO_DEPTH + 1 - |path|, 0, n
  {
    if n > 0 {
      var part := Parts(g, id)[n - 1];
      WalkOneMore(g, Parts(g, id), multiplier, path, leaves, n - 1);
      WalkOneMore(h, Parts(g, id), multiplier, path, leaves, n - 1);
      WalkPartsSame(g, h, inside, id, n - 1, multiplier, path, leaves);
      var before := WalkParts(g, Parts(g, id)[..n - 1], multiplier, path, leaves);
      if part.item.itemType == Combo && before.Leaves? {
        assert part in Parts(g, id) && part.item == Item(part.item.id, Combo);
        assert Nests(g, id, part.item.id);
        WalkSame(g, h, inside, part.item.id, multiplier * part.quantity, path + [part.item.id], before.leaves);
      }
    }
  }
}
