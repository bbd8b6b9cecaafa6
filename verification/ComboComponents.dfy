/** What a combo is made of (src/modules/products/combo-components.ts): writing its components only
    when every combo can still be opened, and keeping the stored cost of every combo equal to the
    cost of its parts by recomputing only the combos above a change. */
module ComboComponents {
  import opened Common
  import opened ComboExpansion

  // ---------------------------------------------------------------- above

  /** `a` lists `b` among its parts. */
  predicate Contains(g: Graph, a: Id, b: Id) { exists e :: e in Parts(g, a) && e.item.id == b }

  ghost predicate Upward(g: Graph, p: seq<Id>) {
    |p| >= 2 && forall i :: 0 <= i < |p| - 1 ==> Contains(g, p[i], p[i + 1])
  }

  /** `a` contains `b` at some depth. */
  ghost predicate Above(g: Graph, a: Id, b: Id) {
    exists p :: Upward(g, p) && p[0] == a && p[|p| - 1] == b
  }

  lemma AboveStep(g: Graph, a: Id, b: Id, c: Id)
    requires Contains(g, a, b) && (b == c || Above(g, b, c))
    ensures Above(g, a, c)
  {
    if Above(g, b, c) {
      var p :| Upward(g, p) && p[0] == b && p[|p| - 1] == c;
      assert Upward(g, [a] + p) && ([a] + p)[0] == a;
    } else {
      assert Upward(g, [a, b]);
    }
  }

  /** A set that holds every combo listing one of its members holds everything above them. */
  lemma {:induction false} ClosedHoldsAbove(g: Graph, closed: set<Id>, p: seq<Id>, i: nat)
    requires Upward(g, p) && i < |p| && p[|p| - 1] in closed
    requires forall a, b :: Contains(g, a, b) && b in closed ==> a in closed
    ensures p[i] in closed
    decreases |p| - i
  {
    if i < |p| - 1 {
      ClosedHoldsAbove(g, closed, p, i + 1);
      assert Contains(g, p[i], p[i + 1]);
    }
  }

  ghost predicate ParentsOf(g: Graph, parents: map<Id, seq<Id>>) {
    forall a, b :: (b in parents && a in parents[b]) <==> Contains(g, a, b)
  }

  /** The table turned upside down: for every item, the combos that list it. */
  method TurnOver(g: Graph) returns (parents: map<Id, seq<Id>>)
    ensures ParentsOf(g, parents)
  {
    parents := map[];
    var todo := g.Keys;
    while todo != {}
      invariant todo <= g.Keys
      invariant forall a, b :: (b in parents && a in parents[b]) <==> (a !in todo && Contains(g, a, b))
      decreases |todo|
    {
      var combo :| combo in todo;
      todo := todo - {combo};
      for i := 0 to |g[combo]|
        invariant forall a, b :: (b in parents && a in parents[b]) <==>
          (a !in todo && a != combo && Contains(g, a, b)) || (a == combo && exists j :: 0 <= j < i && g[combo][j].item.id == b)
      {
        var part := g[combo][i].item.id;
        var known := if part in parents then parents[part] else [];
        parents := parents[part := known + [combo]];
      }
      forall b ensures Contains(g, combo, b) <==> exists j :: 0 <= j < |g[combo]| && g[combo][j].item.id == b {
        if Contains(g, combo, b) {
          var e :| e in g[combo] && e.item.id == b;
          var j :| 0 <= j < |g[combo]| && g[combo][j] == e;
        }
      }
    }
  }

  ghost predicate AboveAny(g: Graph, a: Id, start: seq<Id>) { exists b :: b in start && Above(g, a, b) }

  ghost predicate AllAboveAny(g: Graph, seen: set<Id>, start: seq<Id>) {
    seen <= g.Keys && forall a :: a in seen ==> AboveAny(g, a, start)
  }

  /** What was reached and is no longer queued has had all its parents seen. */
  ghost predicate Climbed(g: Graph, start: seq<Id>, seen: set<Id>, queue: seq<Id>) {
    forall a, b :: Contains(g, a, b) && (b in start || b in seen) && b !in queue ==> a in seen
  }

  /** Mark the parents and queue those not yet seen. */
  method Visit(parents: seq<Id>, seen: set<Id>, queue: seq<Id>) returns (marked: set<Id>, queued: seq<Id>)
    ensures marked == seen + (set p | p in parents)
    ensures forall x :: x in queued <==> x in queue || (x in marked && x !in seen)
    ensures marked == seen ==> queued == queue
  {
    marked, queued := seen, queue;
    for i := 0 to |parents|
      invariant marked == seen + (set j | 0 <= j < i :: parents[j])
      invariant forall x :: x in queued <==> x in queue || (x in marked && x !in seen)
      invariant marked == seen ==> queued == queue
    {
      if parents[i] !in marked {
        marked := marked + {parents[i]};
        queued := queued + [parents[i]];
      }
    }
  }

  /** Everything above the start, by climbing from part to combo. */
  method Climb(g: Graph, start: seq<Id>) returns (seen: set<Id>)
    ensures forall a :: a in seen <==> AboveAny(g, a, start)
    ensures seen <= g.Keys
  {
    hide Contains, AboveAny;
    var parents := TurnOver(g);
    seen := {};
    var queue := start;
    while queue != []
      invariant AllAboveAny(g, seen, start)
      invariant forall q :: q in queue ==> q in start || q in seen
      invariant Climbed(g, start, seen, queue)
      decreases |g.Keys - seen|, |queue|
    {
      var id := queue[|queue| - 1];
      var ups := if id in parents then parents[id] else [];
      forall a ensures a in ups <==> Contains(g, a, id) {}
      var marked, queued := Visit(ups, seen, queue[..|queue| - 1]);
      ParentsAbove(g, id, ups, start, seen);
      VisitKeeps(g, start, seen, queue, ups, marked, queued);
      if marked != seen { FewerLeft(g.Keys, seen, marked); }
      seen, queue := marked, queued;
    }
    forall a | AboveAny(g, a, start) ensures a in seen { ClimbedAll(g, start, seen, a); }
  }

  lemma VisitKeeps(g: Graph, start: seq<Id>, seen: set<Id>, queue: seq<Id>, ups: seq<Id>, marked: set<Id>, queued: seq<Id>)
    requires queue != [] && Climbed(g, start, seen, queue)
    requires forall a :: a in ups <==> Contains(g, a, queue[|queue| - 1])
    requires marked == seen + (set p | p in ups)
    requires forall x :: x in queued <==> x in queue[..|queue| - 1] || (x in marked && x !in seen)
    ensures Climbed(g, start, marked, queued)
  {
    hide Contains;
    var id := queue[|queue| - 1];
    assert forall x :: x in queue <==> x in queue[..|queue| - 1] || x == id;
    forall a, b | Contains(g, a, b) && (b in start || b in marked) && b !in queued ensures a in marked {
      if b == id { assert a in ups; } else { assert b in start || b in seen; }
    }
  }

  lemma ParentsAbove(g: Graph, id: Id, ups: seq<Id>, start: seq<Id>, seen: set<Id>)
    requires forall a :: a in ups <==> Contains(g, a, id)
    requires (id in start || id in seen) && AllAboveAny(g, seen, start)
    ensures AllAboveAny(g, seen + (set p | p in ups), start)
  {
    forall a | a in ups ensures a in g.Keys && AboveAny(g, a, start) {
      if id in start {
        AboveStep(g, a, id, id);
      } else {
        var b :| b in start && Above(g, id, b);
        AboveStep(g, a, id, b);
      }
    }
  }

  lemma ClimbedAll(g: Graph, start: seq<Id>, seen: set<Id>, a: Id)
    requires Climbed(g, start, seen, []) && AboveAny(g, a, start)
    ensures a in seen
  {
    var b :| b in start && Above(g, a, b);
    var p :| Upward(g, p) && p[0] == a && p[|p| - 1] == b;
    var closed := seen + (set s | s in start);
    assert Contains(g, p[0], p[1]);
    ClosedHoldsAbove(g, closed, p, 1);
  }

  lemma FewerLeft(all: set<Id>, a: set<Id>, b: set<Id>)
    requires a < b <= all
    ensures |all - b| < |all - a|
  {
    var x :| x in b && x !in a;
    assert all - b < all - a;
    SmallerSet(all - b, all - a);
  }

  lemma {:induction false} SmallerSet(a: set<Id>, b: set<Id>)
    requires a < b
    ensures |a| < |b|
  {
    if a != {} {
      var x :| x in a;
      SmallerSet(a - {x}, b - {x});
    }
  }

  // ---------------------------------------------------------------- the graph check

  ghost predicate AllOpen(g: Graph) { forall c :: c in g ==> FlattenCombo(c, g).Leaves? }

  /** The edited combo and every combo above it can be opened. */
  ghost predicate OpensUpward(combo: Id, g: Graph) {
    FlattenCombo(combo, g).Leaves? && forall a :: Above(g, a, combo) ==> FlattenCombo(a, g).Leaves?
  }

  method AncestorsOf(id: Id, g: Graph) returns (above: set<Id>)
    ensures forall a :: a in above <==> a != id && Above(g, a, id)
  {
    above := Climb(g, [id]);
    above := above - {id};
  }

  method AssertComboGraph(combo: Id, edges: seq<Edge>, childrenOf: Graph) returns (refusal: Option<Refusal>)
    ensures refusal == None <==> OpensUpward(combo, childrenOf[combo := edges])
  {
    var graph := childrenOf[combo := edges];
    var outcome := Flatten(combo, graph);
    if outcome.Refused? { return Some(outcome.why); }
    var todo := AncestorsOf(combo, graph);
    ghost var above := todo;
    while todo != {}
      invariant todo <= above
      invariant forall a :: a in above && a !in todo ==> FlattenCombo(a, graph).Leaves?
      decreases |todo|
    {
      var id :| id in todo;
      outcome := Flatten(id, graph);
      if outcome.Refused? { return Some(outcome.why); }
      todo := todo - {id};
    }
    return None;
  }

  /** Main result. Where every stored combo can be opened, checking the edited combo and what is above
      it is as good as checking them all: nothing else can have changed. */
  lemma UpwardIsEnough(combo: Id, edges: seq<Edge>, g: Graph)
    requires AllOpen(g)
    ensures OpensUpward(combo, g[combo := edges]) <==> AllOpen(g[combo := edges])
  {
    var h := g[combo := edges];
    if OpensUpward(combo, h) {
      forall c | c in h ensures FlattenCombo(c, h).Leaves? {
        if c != combo && !Above(h, c, combo) { ElsewhereUntouched(combo, edges, g, c); }
      }
    }
    if AllOpen(h) {
      forall a | Above(h, a, combo) ensures FlattenCombo(a, h).Leaves? {
        var p :| Upward(h, p) && p[0] == a && p[|p| - 1] == combo;
        assert Contains(h, p[0], p[1]);
      }
    }
  }

  /** A combo that is not the edited one, nor above it, opens to the same leaves. */
  lemma ElsewhereUntouched(combo: Id, edges: seq<Edge>, g: Graph, c: Id)
    requires c != combo && !Above(g[combo := edges], c, combo)
    ensures FlattenCombo(c, g[combo := edges]) == FlattenCombo(c, g)
  {
    var h := g[combo := edges];
    var inside := iset x: Id | x != combo && !Above(h, x, combo);
    forall id, child | id in inside && Nests(h, id, child) ensures child in inside {
      var e :| e in Parts(h, id) && e.item == Item(child, Combo);
      assert Contains(h, id, child);
      if child == combo || Above(h, child, combo) { AboveStep(h, id, child, combo); }
    }
    WalkSame(h, g, inside, c, 1, [c], []);
  }

  // ---------------------------------------------------------------- ranks

  /** Every part of a combo ranks below it: the graph has no cycle. */
  ghost predicate Ranked(g: Graph, rank: Id -> nat) {
    forall c, e :: c in g && e in g[c] ==> rank(e.item.id) < rank(c)
  }

  /** Whatever has parts is a combo. */
  predicate Typed(g: Graph) { forall c, e :: c in g && e in g[c] && e.item.id in g ==> e.item.itemType == Combo }

  ghost predicate LongChain(g: Graph, id: Id, n: nat) { exists p :: Chain(g, p) && p[0] == id && |p| == n }

  ghost function Longest(g: Graph, id: Id, n: nat): (r: nat)
    ensures r <= n && (r > 0 ==> LongChain(g, id, r)) && forall k :: r < k <= n ==> !LongChain(g, id, k)
  {
    if n == 0 || LongChain(g, id, n) then n else Longest(g, id, n - 1)
  }

  /** How many combos deep an item goes; what is no combo does not go at all. */
  ghost function Depths(g: Graph): Id -> nat {
    (id: Id) => if id in g then Longest(g, id, MAX_COMBO_DEPTH) else 0
  }

  lemma OpenGraphsAreRanked(g: Graph)
    requires AllOpen(g) && Typed(g)
    ensures Ranked(g, Depths(g))
  {
    forall c, e | c in g && e in g[c] ensures Depths(g)(e.item.id) < Depths(g)(c) {
      assert Chain(g, [c]) && LongChain(g, c, 1);
      var child := e.item.id;
      if child in g {
        assert e.item == Item(child, Combo) && Nests(g, c, child);
        var n := Longest(g, child, MAX_COMBO_DEPTH);
        if n > 0 {
          var p :| Chain(g, p) && p[0] == child && |p| == n;
          var longer := [c] + p;
          forall i | 0 <= i < |longer| - 1 ensures Nests(g, longer[i], longer[i + 1]) {
            if i > 0 { assert Nests(g, p[i - 1], p[i]); }
          }
          FlattensExactly(c, g);
          assert WellNested(g, longer);
          assert LongChain(g, c, n + 1);
        }
      }
    }
  }

  // ---------------------------------------------------------------- costs

  function Get(costs: map<Id, int>, id: Id): int { if id in costs then costs[id] else 0 }

  function PartCost(costs: map<Id, int>): Edge -> int { (e: Edge) => e.quantity * Get(costs, e.item.id) }

  /** The stored cost of a combo is the cost of its parts. */
  predicate CostRight(g: Graph, costs: map<Id, int>, c: Id)
    requires c in g
  {
    Get(costs, c) == SumBy(g[c], PartCost(costs))
  }

  /** A combo's cost from the ground up: what is affected is computed from its parts, the rest stands. */
  ghost function Target(g: Graph, stored: map<Id, int>, affected: set<Id>, rank: Id -> nat, id: Id): int
    requires Ranked(g, rank) && affected <= g.Keys
    decreases rank(id), 1, 0
  {
    if id !in affected then Get(stored, id) else TargetSum(g, stored, affected, rank, id, |g[id]|)
  }

  ghost function TargetSum(g: Graph, stored: map<Id, int>, affected: set<Id>, rank: Id -> nat, id: Id, n: nat): int
    requires Ranked(g, rank) && affected <= g.Keys && id in g && n <= |g[id]|
    decreases rank(id), 0, n
  {
    if n == 0 then 0
    else
      var part := g[id][n - 1];
      assert part in g[id];
      TargetSum(g, stored, affected, rank, id, n - 1) + part.quantity * Target(g, stored, affected, rank, part.item.id)
  }

  /** The costs after a recomputation. */
  ghost predicate Recomputed(g: Graph, stored: map<Id, int>, affected: set<Id>, rank: Id -> nat, costs: map<Id, int>)
    requires Ranked(g, rank) && affected <= g.Keys
  {
    forall id :: Get(costs, id) == Target(g, stored, affected, rank, id)
  }

  ghost predicate UpwardClosed(g: Graph, affected: set<Id>) {
    forall a, b :: Contains(g, a, b) && b in affected ==> a in affected
  }

  lemma {:induction false} TargetSumIs(g: Graph, stored: map<Id, int>, affected: set<Id>, rank: Id -> nat, costs: map<Id, int>, id: Id, n: nat)
    requires Ranked(g, rank) && affected <= g.Keys && id in g && n <= |g[id]|
    requires Recomputed(g, stored, affected, rank, costs)
    ensures TargetSum(g, stored, affected, rank, id, n) == SumBy(g[id][..n], PartCost(costs))
  {
    if n > 0 {
      TargetSumIs(g, stored, affected, rank, costs, id, n - 1);
      SumByPrefix(g[id], n, PartCost(costs));
    }
  }

  /** Recomputing only what is above a change leaves every combo right, if the others were right. */
  lemma RecomputingKeepsCostsRight(g: Graph, stored: map<Id, int>, affected: set<Id>, rank: Id -> nat, costs: map<Id, int>)
    requires Ranked(g, rank) && affected <= g.Keys && UpwardClosed(g, affected)
    requires forall c :: c in g && c !in affected ==> CostRight(g, stored, c)
    requires Recomputed(g, stored, affected, rank, costs)
    ensures forall c :: c in g ==> CostRight(g, costs, c)
  {
    forall c | c in g ensures CostRight(g, costs, c) {
      if c in affected {
        TargetSumIs(g, stored, affected, rank, costs, c, |g[c]|);
        assert g[c][..|g[c]|] == g[c];
      } else {
        forall e | e in g[c] ensures PartCost(costs)(e) == PartCost(stored)(e) {
          assert Contains(g, c, e.item.id);
          assert Get(costs, e.item.id) == Target(g, stored, affected, rank, e.item.id);
        }
        SumBySame(g[c], PartCost(costs), PartCost(stored));
        assert Get(costs, c) == Target(g, stored, affected, rank, c);
      }
    }
  }

  /** Costs that are right everywhere are those of a full computation from the bottom up, in which
      only items without parts bring a stored cost. */
  lemma {:induction false} RightIsFull(g: Graph, stored: map<Id, int>, rank: Id -> nat, costs: map<Id, int>, id: Id)
    requires Ranked(g, rank)
    requires forall c :: c in g ==> CostRight(g, costs, c)
    requires forall x :: x !in g ==> Get(costs, x) == Get(stored, x)
    ensures Get(costs, id) == Target(g, stored, g.Keys, rank, id)
    decreases rank(id), 1, 0
  {
    if id in g {
      RightSumIsFull(g, stored, rank, costs, id, |g[id]|);
      assert g[id][..|g[id]|] == g[id];
      assert CostRight(g, costs, id);
    }
  }

  lemma {:induction false} RightSumIsFull(g: Graph, stored: map<Id, int>, rank: Id -> nat, costs: map<Id, int>, id: Id, n: nat)
    requires Ranked(g, rank) && id in g && n <= |g[id]|
    requires forall c :: c in g ==> CostRight(g, costs, c)
    requires forall x :: x !in g ==> Get(costs, x) == Get(stored, x)
    ensures SumBy(g[id][..n], PartCost(costs)) == TargetSum(g, stored, g.Keys, rank, id, n)
    decreases rank(id), 0, n
  {
    if n > 0 {
      var part := g[id][n - 1];
      assert part in g[id];
      RightSumIsFull(g, stored, rank, costs, id, n - 1);
      RightIsFull(g, stored, rank, costs, part.item.id);
      SumByPrefix(g[id], n, PartCost(costs));
    }
  }

  // ---------------------------------------------------------------- resolving, with a memo

  /** The recomputation as it runs: `affected` shrinks as combos are resolved, `costs` fills up. */
  class Recomputation {
    const graph: Graph
    ghost const all: set<Id>
    ghost const stored: map<Id, int>
    ghost const rank: Id -> nat
    const involved: set<Id>
    var affected: set<Id>
    var costs: map<Id, int>
    ghost var resolved: seq<Id>

    ghost predicate Valid()
      reads this
    {
      && Ranked(graph, rank) && all <= graph.Keys && affected <= all <= involved
      && (forall id, e :: id in all && e in graph[id] ==> e.item.id in involved)
      && (forall id :: id in involved && id !in affected ==> Get(costs, id) == Target(graph, stored, all, rank, id))
      && (forall id :: id in resolved <==> id in all && id !in affected)
      && (forall i, j :: 0 <= i < j < |resolved| ==> resolved[i] != resolved[j])
    }

    constructor (g: Graph, toResolve: set<Id>, costsNow: map<Id, int>, ghost ranks: Id -> nat)
      requires Ranked(g, ranks) && toResolve <= g.Keys
      ensures Valid() && graph == g && all == affected == toResolve && stored == costsNow && rank == ranks
    {
      graph, all, affected, stored, rank, resolved := g, toResolve, toResolve, costsNow, ranks, [];
      involved := toResolve + set id, e | id in toResolve && e in g[id] :: e.item.id;
      new;
      costs := map id | id in involved && id in costsNow :: costsNow[id];
    }

    /** The new cost of an item. A combo is computed once, after the combos it contains. */
    method Resolve(id: Id) returns (cost: int)
      requires Valid() && id in involved
      modifies this
      ensures Valid() && cost == Target(graph, stored, all, rank, id)
      ensures affected <= old(affected) && id !in affected
      ensures forall x :: x in old(affected) && x !in affected ==> rank(x) <= rank(id)
      decreases rank(id)
    {
      if id !in affected { return Get(costs, id); }
      var parts := graph[id];
      cost := 0;
      for i := 0 to |parts|
        invariant Valid() && affected <= old(affected) && id in affected
        invariant cost == TargetSum(graph, stored, all, rank, id, i)
        invariant forall x :: x in old(affected) && x !in affected ==> rank(x) < rank(id)
      {
        assert parts[i] in graph[id];
        var part := Resolve(parts[i].item.id);
        cost := cost + parts[i].quantity * part;
      }
      costs := costs[id := cost];
      affected := affected - {id};
      resolved := resolved + [id];
    }
  }

  // ---------------------------------------------------------------- the catalogue

  datatype Variant = Variant(itemType: ItemType, cost: int, discontinued: bool)

  datatype ComponentRow = ComponentRow(combo: Id, component: Id, quantity: int)

  datatype ComponentInput = ComponentInput(component: Id, quantity: int)

  function ItemOf(items: map<Id, Variant>, id: Id): Item {
    Item(id, if id in items then items[id].itemType else Product)
  }

  function PartsIn(items: map<Id, Variant>, rows: seq<ComponentRow>, combo: Id): seq<Edge> {
    if rows == [] then []
    else
      var last := rows[|rows| - 1];
      PartsIn(items, rows[..|rows| - 1], combo) + PartOf(items, last, combo)
  }

  function PartOf(items: map<Id, Variant>, row: ComponentRow, combo: Id): seq<Edge> {
    if row.combo == combo then [Edge(ItemOf(items, row.component), row.quantity)] else []
  }

  lemma PartsOneMore(items: map<Id, Variant>, rows: seq<ComponentRow>, row: ComponentRow, c: Id)
    ensures PartsIn(items, rows + [row], c) == PartsIn(items, rows, c) + PartOf(items, row, c)
  {
    assert (rows + [row])[..|rows|] == rows;
  }

  function CombosIn(rows: seq<ComponentRow>): set<Id> { set r | r in rows :: r.combo }

  /** The stored rows, gathered by combo. */
  function GraphOf(items: map<Id, Variant>, rows: seq<ComponentRow>): Graph {
    map c | c in CombosIn(rows) :: PartsIn(items, rows, c)
  }

  function CostsOf(items: map<Id, Variant>): map<Id, int> { map id | id in items :: items[id].cost }

  function EdgesOf(items: map<Id, Variant>, components: seq<ComponentInput>): (r: seq<Edge>)
    ensures |r| == |components|
    ensures forall i :: 0 <= i < |r| ==> r[i] == Edge(ItemOf(items, components[i].component), components[i].quantity)
  {
    seq(|components|, i requires 0 <= i < |components| =>
      Edge(ItemOf(items, components[i].component), components[i].quantity))
  }

  function RowsOf(combo: Id, components: seq<ComponentInput>): (r: seq<ComponentRow>)
    ensures |r| == |components|
    ensures forall i :: 0 <= i < |r| ==> r[i] == ComponentRow(combo, components[i].component, components[i].quantity)
  {
    seq(|components|, i requires 0 <= i < |components| =>
      ComponentRow(combo, components[i].component, components[i].quantity))
  }

  function Without(rows: seq<ComponentRow>, combo: Id): (r: seq<ComponentRow>)
    ensures forall x :: x in r <==> x in rows && x.combo != combo
  {
    if rows == [] then []
    else
      var last := rows[|rows| - 1];
      Without(rows[..|rows| - 1], combo) + if last.combo == combo then [] else [last]
  }

  lemma {:induction false} PartsConcat(items: map<Id, Variant>, a: seq<ComponentRow>, b: seq<ComponentRow>, c: Id)
    ensures PartsIn(items, a + b, c) == PartsIn(items, a, c) + PartsIn(items, b, c)
  {
    if b == [] {
      assert a + b == a;
    } else {
      assert (a + b)[..|a + b| - 1] == a + b[..|b| - 1];
      PartsConcat(items, a, b[..|b| - 1], c);
    }
  }

  lemma WithoutOneMore(rows: seq<ComponentRow>, row: ComponentRow, combo: Id)
    ensures Without(rows + [row], combo) == if row.combo == combo then Without(rows, combo) else Without(rows, combo) + [row]
  {
    assert (rows + [row])[..|rows|] == rows;
  }

  lemma OtherPart(items: map<Id, Variant>, rows: seq<ComponentRow>, row: ComponentRow, c: Id)
    requires row.combo != c
    ensures PartsIn(items, rows + [row], c) == PartsIn(items, rows, c)
  {
    PartsOneMore(items, rows, row, c);
    assert PartsIn(items, rows, c) + [] == PartsIn(items, rows, c);
  }

  lemma {:induction false} PartsWithout(items: map<Id, Variant>, rows: seq<ComponentRow>, combo: Id, c: Id)
    ensures PartsIn(items, Without(rows, combo), c) == if c == combo then [] else PartsIn(items, rows, c)
  {
    if rows != [] {
      hide PartsIn, Without, PartOf;
      var front, last := rows[..|rows| - 1], rows[|rows| - 1];
      PartsWithout(items, front, combo, c);
      assert front + [last] == rows;
      WithoutOneMore(front, last, combo);
      if last.combo == c { PartsOneMore(items, front, last, c); } else { OtherPart(items, front, last, c); }
      if last.combo != combo {
        if last.combo == c {
          PartsOneMore(items, Without(front, combo), last, c);
        } else {
          OtherPart(items, Without(front, combo), last, c);
        }
      }
    }
  }

  lemma NewOneMore(items: map<Id, Variant>, combo: Id, components: seq<ComponentInput>)
    requires components != []
    ensures var front, last := components[..|components| - 1], components[|components| - 1];
      && RowsOf(combo, components) == RowsOf(combo, front) + [ComponentRow(combo, last.component, last.quantity)]
      && EdgesOf(items, components) == EdgesOf(items, front) + [Edge(ItemOf(items, last.component), last.quantity)]
  {}

  lemma {:induction false} PartsOfNew(items: map<Id, Variant>, combo: Id, components: seq<ComponentInput>, c: Id)
    ensures PartsIn(items, RowsOf(combo, components), c) == if c == combo then EdgesOf(items, components) else []
  {
    if components != [] {
      hide PartsIn;
      var front, last := components[..|components| - 1], components[|components| - 1];
      PartsOfNew(items, combo, front, c);
      var row := ComponentRow(combo, last.component, last.quantity);
      NewOneMore(items, combo, components);
      PartsOneMore(items, RowsOf(combo, front), row, c);
    }
  }

  /** Replacing a combo's rows replaces its parts and nothing else. */
  lemma RowsReplaced(items: map<Id, Variant>, rows: seq<ComponentRow>, combo: Id, components: seq<ComponentInput>)
    requires components != []
    ensures GraphOf(items, Without(rows, combo) + RowsOf(combo, components))
         == GraphOf(items, rows)[combo := EdgesOf(items, components)]
  {
    var kept, added := Without(rows, combo), RowsOf(combo, components);
    assert added[0] in added;
    forall c
      ensures PartsIn(items, kept + added, c) == if c == combo then EdgesOf(items, components) else PartsIn(items, rows, c)
      ensures c in CombosIn(kept + added) <==> c == combo || c in CombosIn(rows)
    {
      PartsConcat(items, kept, added, c);
      PartsWithout(items, rows, combo, c);
      PartsOfNew(items, combo, components, c);
      if c in CombosIn(rows) && c != combo {
        var r :| r in rows && r.combo == c;
        assert r in kept + added;
      }
      if c == combo { assert added[0] in kept + added; }
    }
  }

  lemma {:induction false} PartsOfListed(items: map<Id, Variant>, rows: seq<ComponentRow>, c: Id, e: Edge)
    requires e in PartsIn(items, rows, c)
    ensures exists r :: r in rows && r.combo == c && e == Edge(ItemOf(items, r.component), r.quantity)
  {
    var front, last := rows[..|rows| - 1], rows[|rows| - 1];
    if e in PartsIn(items, front, c) {
      PartsOfListed(items, front, c, e);
      var r :| r in front && r.combo == c && e == Edge(ItemOf(items, r.component), r.quantity);
      assert r in rows;
    } else {
      assert last in rows;
    }
  }

  /** Only combos have components, and every id is known. */
  predicate RowsTyped(items: map<Id, Variant>, rows: seq<ComponentRow>) {
    forall r :: r in rows ==> r.component in items && r.combo in items && items[r.combo].itemType == Combo
  }

  lemma TypedRowsTypedGraph(items: map<Id, Variant>, rows: seq<ComponentRow>)
    requires RowsTyped(items, rows)
    ensures Typed(GraphOf(items, rows))
    ensures forall c, e :: c in GraphOf(items, rows) && e in GraphOf(items, rows)[c] ==> e.item.id in items
    ensures forall c :: c in GraphOf(items, rows) ==> c in items
  {
    var g := GraphOf(items, rows);
    forall c: Id, e: Edge | c in g && e in g[c]
      ensures e.item.id in items && (e.item.id in g ==> e.item.itemType == Combo)
    {
      PartsOfListed(items, rows, c, e);
      var r :| r in rows && r.combo == c && e == Edge(ItemOf(items, r.component), r.quantity);
      if r.component in g { var q :| q in rows && q.combo == r.component; }
    }
  }

  /** A change of costs alone leaves the graph as it is. */
  predicate SameTypes(a: map<Id, Variant>, b: map<Id, Variant>) {
    a.Keys == b.Keys && forall id :: id in a ==> b[id] == a[id].(cost := b[id].cost)
  }

  lemma {:induction false} SameTypesSameParts(a: map<Id, Variant>, b: map<Id, Variant>, rows: seq<ComponentRow>, c: Id)
    requires SameTypes(a, b)
    ensures PartsIn(a, rows, c) == PartsIn(b, rows, c)
  {
    if rows != [] { SameTypesSameParts(a, b, rows[..|rows| - 1], c); }
  }

  lemma SameTypesSameGraph(a: map<Id, Variant>, b: map<Id, Variant>, rows: seq<ComponentRow>)
    requires SameTypes(a, b)
    ensures GraphOf(a, rows) == GraphOf(b, rows)
  {
    forall c { SameTypesSameParts(a, b, rows, c); }
  }

  ghost predicate AllCostsRight(items: map<Id, Variant>, rows: seq<ComponentRow>) {
    forall c :: c in GraphOf(items, rows) ==> CostRight(GraphOf(items, rows), CostsOf(items), c)
  }

  /** Every combo that is not above the changed items costs what its parts cost. */
  ghost predicate RightBelow(items: map<Id, Variant>, rows: seq<ComponentRow>, changed: seq<Id>) {
    var g := GraphOf(items, rows);
    forall c :: c in g && !AboveAny(g, c, changed) ==> CostRight(g, CostsOf(items), c)
  }

  predicate NoneTwice(components: seq<ComponentInput>) {
    forall i, j :: 0 <= i < j < |components| ==> components[i].component != components[j].component
  }

  /** Exactly when a new list of components is accepted. */
  ghost predicate Acceptable(items: map<Id, Variant>, rows: seq<ComponentRow>, combo: Id, components: seq<ComponentInput>) {
    && NoneTwice(components)
    && (forall c :: c in components ==> c.component != combo && c.component in items && !items[c.component].discontinued)
    && AllOpen(GraphOf(items, rows)[combo := EdgesOf(items, components)])
  }

  /** The cost of a combo: the sum over its parts of quantity times cost. */
  method ComboCostOf(items: map<Id, Variant>, components: seq<ComponentInput>) returns (cost: int)
    ensures cost == SumBy(EdgesOf(items, components), PartCost(CostsOf(items)))
  {
    cost := 0;
    ghost var edges := EdgesOf(items, components);
    for i := 0 to |components|
      invariant cost == SumBy(edges[..i], PartCost(CostsOf(items)))
    {
      var part := components[i];
      cost := cost + part.quantity * if part.component in items then items[part.component].cost else 0;
      SumByPrefix(edges, i + 1, PartCost(CostsOf(items)));
    }
    assert edges[..|components|] == edges;
  }

  /** A combo without parts cannot be opened, so an empty list is never accepted. */
  lemma NothingDoesNotOpen(g: Graph, combo: Id, edges: seq<Edge>)
    requires AllOpen(g[combo := edges])
    ensures edges != []
  {
    assert combo in g[combo := edges];
  }

  class Catalogue {
    var items: map<Id, Variant>
    var rows: seq<ComponentRow>

    function Graph(): ComboExpansion.Graph
      reads this
    {
      GraphOf(items, rows)
    }

    /** Every stored combo can be opened. */
    ghost predicate Valid()
      reads this
    {
      RowsTyped(items, rows) && AllOpen(Graph())
    }

    method LoadGraph() returns (g: ComboExpansion.Graph)
      ensures g == Graph()
    {
      g := map[];
      for n := 0 to |rows|
        invariant g == GraphOf(items, rows[..n])
      {
        var row := rows[n];
        assert rows[..n + 1] == rows[..n] + [row];
        GraphOneMore(items, rows[..n], row);
        var known := if row.combo in g then g[row.combo] else [];
        g := g[row.combo := known + [Edge(ItemOf(items, row.component), row.quantity)]];
      }
      assert rows[..|rows|] == rows;
    }

    /** Store the resolved cost of every affected combo, each once. */
    method WriteBack(work: Recomputation, affected: set<Id>) returns (written: seq<Id>)
      requires work.Valid() && work.all == work.affected == affected && affected <= items.Keys
      modifies this`items, work
      ensures forall id :: id in written <==> id in affected
      ensures forall i, j :: 0 <= i < j < |written| ==> written[i] != written[j]
      ensures Ranked(work.graph, work.rank) && affected <= work.graph.Keys && SameTypes(old(items), items)
      ensures forall id :: id in items ==>
        items[id].cost == if id in affected then Target(work.graph, work.stored, affected, work.rank, id) else old(items)[id].cost
    {
      hide Target, Ranked;
      written := [];
      var todo := affected;
      while todo != {}
        invariant work.Valid()
        invariant todo <= affected && forall id :: id in written <==> id in affected && id !in todo
        invariant forall i, j :: 0 <= i < j < |written| ==> written[i] != written[j]
        invariant SameTypes(old(items), items)
        invariant forall id :: id in items ==>
          items[id].cost == if id in written then Target(work.graph, work.stored, affected, work.rank, id) else old(items)[id].cost
        decreases |todo|
      {
        var id :| id in todo;
        todo := todo - {id};
        var cost := work.Resolve(id);
        items := items[id := items[id].(cost := cost)];
        written := written + [id];
      }
    }

    /** Recompute the combos above the changed items: children before parents, each once. For this the
        combos need only be free of cycles, which a rank shows; how deep they nest does not matter. */
    method RecomputeComboCosts(changed: seq<Id>, ghost rank: Id -> nat) returns (written: seq<Id>)
      requires RowsTyped(items, rows) && Ranked(Graph(), rank)
      modifies this`items
      ensures RowsTyped(items, rows) && Graph() == old(Graph()) && SameTypes(old(items), items)
      ensures forall id :: id in written <==> AboveAny(Graph(), id, changed)
      ensures forall i, j :: 0 <= i < j < |written| ==> written[i] != written[j]
      ensures forall id :: id in items && id !in written ==> items[id] == old(items)[id]
      ensures old(RightBelow(items, rows, changed)) ==> AllCostsRight(items, rows)
    {
      hide AboveAny, FlattenCombo, Target, Ranked, GraphOf, RightBelow, AllCostsRight;
      var g := LoadGraph();
      ghost var before := items;
      TypedRowsTypedGraph(items, rows);
      var affected := Climb(g, changed);
      var work := new Recomputation(g, affected, CostsOf(items), rank);
      written := WriteBack(work, affected);
      RecomputeSettles(before, items, rows, changed, affected, rank);
    }

    /** Replace the components of a combo. */
    method WriteComboComponents(combo: Id, components: seq<ComponentInput>) returns (r: Result<()>)
      requires Valid() && combo in items && items[combo].itemType == Combo
      modifies this
      ensures Valid()
      ensures r.Ok? <==> Acceptable(old(items), old(rows), combo, components)
      ensures r.Ok? ==> Graph() == old(Graph())[combo := EdgesOf(old(items), components)]
      ensures r.Ok? && old(AllCostsRight(items, rows)) ==> AllCostsRight(items, rows)
      ensures SameTypes(old(items), items) && (r.Err? ==> items == old(items) && rows == old(rows))
    {
      hide FlattenCombo, AllOpen, OpensUpward, CostRight, GraphOf, PartsIn, AboveAny;
      if !NoneTwice(components) { return Err(ProductComboInvalid); }
      if exists c :: c in components && c.component == combo { return Err(ProductComboInvalid); }
      if exists c :: c in components && c.component !in items { return Err(ProductItemNotFound); }
      if !KnownAndSold(items, components) { return Err(ProductComboComponentDiscontinued); }
      var childrenOf := LoadGraph();
      var edges := EdgesOf(items, components);
      var refusal := AssertComboGraph(combo, edges, childrenOf);
      UpwardIsEnough(combo, edges, childrenOf);
      if refusal.Some? { return Err(ProductComboInvalid); }
      Replace(combo, components);
      return Ok(());
    }

    /** Rewrite the rows of a combo and its own cost. */
    method SetParts(combo: Id, components: seq<ComponentInput>)
      requires RowsTyped(items, rows) && combo in items && items[combo].itemType == Combo
      requires Acceptable(items, rows, combo, components)
      modifies this
      ensures Valid() && SameTypes(old(items), items)
      ensures Graph() == old(Graph())[combo := EdgesOf(old(items), components)]
      ensures old(AllCostsRight(items, rows)) ==> RightBelow(items, rows, [combo])
    {
      hide FlattenCombo, AllOpen, CostRight, GraphOf, PartsIn, AllCostsRight, RightBelow;
      var cost := ComboCostOf(items, components);
      PartsSet(items, rows, combo, components, cost);
      rows := Without(rows, combo) + RowsOf(combo, components);
      items := items[combo := items[combo].(cost := cost)];
    }

    /** Rewrite a combo, then the costs above it. */
    method Replace(combo: Id, components: seq<ComponentInput>)
      requires RowsTyped(items, rows) && combo in items && items[combo].itemType == Combo
      requires Acceptable(items, rows, combo, components)
      modifies this
      ensures Valid() && SameTypes(old(items), items)
      ensures Graph() == old(Graph())[combo := EdgesOf(old(items), components)]
      ensures old(AllCostsRight(items, rows)) ==> AllCostsRight(items, rows)
    {
      hide FlattenCombo, AllOpen, CostRight, GraphOf, PartsIn, AboveAny, AllCostsRight;
      SetParts(combo, components);
      TypedRowsTypedGraph(items, rows);
      OpenGraphsAreRanked(Graph());
      var _ := RecomputeComboCosts([combo], Depths(Graph()));
    }
  }

  predicate KnownAndSold(items: map<Id, Variant>, components: seq<ComponentInput>) {
    forall c :: c in components ==> c.component in items && !items[c.component].discontinued
  }

  /** The new rows keep the table typed, and the new cost of the edited combo is that of its parts. */
  lemma WrittenRowsTyped(items: map<Id, Variant>, rows: seq<ComponentRow>, combo: Id, components: seq<ComponentInput>)
    requires RowsTyped(items, rows) && combo in items && items[combo].itemType == Combo
    requires forall c :: c in components ==> c.component in items
    ensures RowsTyped(items, Without(rows, combo) + RowsOf(combo, components))
  {
    forall r | r in RowsOf(combo, components) ensures r.component in items && r.combo == combo {
      var i :| 0 <= i < |components| && RowsOf(combo, components)[i] == r;
      assert components[i] in components;
    }
  }

  /** Changing one combo's parts and cost leaves the cost equation standing wherever the combo is not
      among the parts. */
  lemma OthersStayRight(g: Graph, costs: map<Id, int>, combo: Id, edges: seq<Edge>, cost: int, c: Id)
    requires c in g && c != combo && CostRight(g, costs, c) && !Contains(g, c, combo)
    ensures CostRight(g[combo := edges], costs[combo := cost], c)
  {
    forall e | e in g[c] ensures PartCost(costs[combo := cost])(e) == PartCost(costs)(e) {
      assert e.item.id != combo;
    }
    SumBySame(g[c], PartCost(costs[combo := cost]), PartCost(costs));
  }

  lemma EditedIsRight(items: map<Id, Variant>, g: Graph, combo: Id, components: seq<ComponentInput>, cost: int)
    requires forall c :: c in components ==> c.component != combo
    requires cost == SumBy(EdgesOf(items, components), PartCost(CostsOf(items)))
    ensures CostRight(g[combo := EdgesOf(items, components)], CostsOf(items)[combo := cost], combo)
  {
    var edges := EdgesOf(items, components);
    var after := CostsOf(items)[combo := cost];
    forall e | e in edges ensures PartCost(after)(e) == PartCost(CostsOf(items))(e) {
      var i :| 0 <= i < |edges| && edges[i] == e;
      assert components[i] in components;
    }
    SumBySame(edges, PartCost(after), PartCost(CostsOf(items)));
  }

  /** After an edit only the combos above it may be wrong. */
  lemma OnlyAboveIsWrong(items: map<Id, Variant>, g: Graph, combo: Id, components: seq<ComponentInput>, cost: int)
    requires forall c :: c in components ==> c.component != combo
    requires cost == SumBy(EdgesOf(items, components), PartCost(CostsOf(items)))
    requires forall c :: c in g ==> CostRight(g, CostsOf(items), c)
    ensures var h := g[combo := EdgesOf(items, components)];
      forall c :: c in h && !AboveAny(h, c, [combo]) ==> CostRight(h, CostsOf(items)[combo := cost], c)
  {
    var h := g[combo := EdgesOf(items, components)];
    forall c | c in h && !AboveAny(h, c, [combo]) ensures CostRight(h, CostsOf(items)[combo := cost], c) {
      if c == combo {
        EditedIsRight(items, g, combo, components, cost);
      } else {
        if Contains(g, c, combo) {
          assert Contains(h, c, combo);
          AboveStep(h, c, combo, combo);
        }
        OthersStayRight(g, CostsOf(items), combo, EdgesOf(items, components), cost, c);
      }
    }
  }

  /** The tables once a combo's rows and its own cost are rewritten. */
  lemma PartsSet(items: map<Id, Variant>, rows: seq<ComponentRow>, combo: Id, components: seq<ComponentInput>, cost: int)
    requires RowsTyped(items, rows) && combo in items && items[combo].itemType == Combo
    requires Acceptable(items, rows, combo, components)
    requires cost == SumBy(EdgesOf(items, components), PartCost(CostsOf(items)))
    ensures var after, rowsAfter := items[combo := items[combo].(cost := cost)], Without(rows, combo) + RowsOf(combo, components);
      && SameTypes(items, after) && RowsTyped(after, rowsAfter)
      && GraphOf(after, rowsAfter) == GraphOf(items, rows)[combo := EdgesOf(items, components)]
      && AllOpen(GraphOf(after, rowsAfter))
      && (AllCostsRight(items, rows) ==> RightBelow(after, rowsAfter, [combo]))
  {
    hide FlattenCombo, CostRight, GraphOf, PartsIn, AboveAny;
    var after, rowsAfter := items[combo := items[combo].(cost := cost)], Without(rows, combo) + RowsOf(combo, components);
    var g := GraphOf(items, rows);
    NothingDoesNotOpen(g, combo, EdgesOf(items, components));
    RowsReplaced(items, rows, combo, components);
    WrittenRowsTyped(items, rows, combo, components);
    SameTypesSameGraph(items, after, rowsAfter);
    assert CostsOf(after) == CostsOf(items)[combo := cost];
    if AllCostsRight(items, rows) { OnlyAboveIsWrong(items, g, combo, components, cost); }
  }

  lemma GraphOneMore(items: map<Id, Variant>, rows: seq<ComponentRow>, row: ComponentRow)
    ensures GraphOf(items, rows + [row])
         == GraphOf(items, rows)[row.combo := Parts(GraphOf(items, rows), row.combo) + [Edge(ItemOf(items, row.component), row.quantity)]]
  {
    if row.combo !in CombosIn(rows) { NoRowsNoParts(items, rows, row.combo); }
    hide PartsIn, ItemOf;
    assert Parts(GraphOf(items, rows), row.combo) == PartsIn(items, rows, row.combo);
    CombosOneMore(rows, row);
    hide CombosIn;
    PartsOneMore(items, rows, row, row.combo);
    forall c | c != row.combo ensures PartsIn(items, rows + [row], c) == PartsIn(items, rows, c) {
      OtherPart(items, rows, row, c);
    }
    hide PartOf, Parts;
    var edge := Edge(ItemOf(items, row.component), row.quantity);
    var g, h := GraphOf(items, rows), GraphOf(items, rows + [row]);
    GraphsAgree(g, h, row.combo, PartsIn(items, rows, row.combo) + [edge]) by {
      assert h.Keys == g.Keys + {row.combo};
    }
  }

  lemma GraphsAgree(g: Graph, h: Graph, combo: Id, parts: seq<Edge>)
    requires h.Keys == g.Keys + {combo} && h[combo] == parts
    requires forall c :: c in g && c != combo ==> h[c] == g[c]
    ensures h == g[combo := parts]
  {}

  lemma CombosOneMore(rows: seq<ComponentRow>, row: ComponentRow)
    ensures CombosIn(rows + [row]) == CombosIn(rows) + {row.combo}
  {
    assert row in rows + [row];
    forall c | c in CombosIn(rows) ensures c in CombosIn(rows + [row]) {
      var r :| r in rows && r.combo == c;
      assert r in rows + [row];
    }
  }

  lemma {:induction false} NoRowsNoParts(items: map<Id, Variant>, rows: seq<ComponentRow>, c: Id)
    requires c !in CombosIn(rows)
    ensures PartsIn(items, rows, c) == []
  {
    if rows != [] {
      assert rows[|rows| - 1] in rows;
      NoRowsNoParts(items, rows[..|rows| - 1], c);
    }
  }

  lemma AboveIsClosed(g: Graph, start: seq<Id>, affected: set<Id>)
    requires forall a :: a in affected <==> AboveAny(g, a, start)
    ensures UpwardClosed(g, affected)
  {
    forall a, b | Contains(g, a, b) && b in affected ensures a in affected {
      var s :| s in start && Above(g, b, s);
      AboveStep(g, a, b, s);
    }
  }

  lemma WrittenIsRecomputed(g: Graph, before: map<Id, Variant>, after: map<Id, Variant>, affected: set<Id>, rank: Id -> nat)
    requires Ranked(g, rank) && affected <= g.Keys && SameTypes(before, after) && g.Keys <= before.Keys
    requires forall id :: id in after ==>
      after[id].cost == if id in affected then Target(g, CostsOf(before), affected, rank, id) else before[id].cost
    ensures Recomputed(g, CostsOf(before), affected, rank, CostsOf(after))
  {}

  lemma RecomputeSettles(before: map<Id, Variant>, after: map<Id, Variant>, rows: seq<ComponentRow>, changed: seq<Id>, affected: set<Id>, rank: Id -> nat)
    requires RowsTyped(before, rows) && SameTypes(before, after)
    requires forall a :: a in affected <==> AboveAny(GraphOf(before, rows), a, changed)
    requires Ranked(GraphOf(before, rows), rank) && affected <= GraphOf(before, rows).Keys
    requires forall id :: id in after ==>
      after[id].cost == if id in affected
                        then Target(GraphOf(before, rows), CostsOf(before), affected, rank, id)
                        else before[id].cost
    ensures RowsTyped(after, rows) && GraphOf(after, rows) == GraphOf(before, rows)
    ensures RightBelow(before, rows, changed) ==> AllCostsRight(after, rows)
  {
    var g := GraphOf(before, rows);
    SameTypesSameGraph(before, after, rows);
    TypedRowsTypedGraph(before, rows);
    if RightBelow(before, rows, changed) {
      hide GraphOf, Target, AboveAny, CostRight;
      AboveIsClosed(g, changed, affected);
      WrittenIsRecomputed(g, before, after, affected, rank);
      RecomputingKeepsCostsRight(g, CostsOf(before), affected, rank, CostsOf(after));
    }
  }

  /** Main result. In a catalogue without cycles whose costs are right, the stored cost of every combo is
      what a full computation from the bottom up would give. */
  lemma StoredCostsAreFull(items: map<Id, Variant>, rows: seq<ComponentRow>, rank: Id -> nat, id: Id)
    requires RowsTyped(items, rows) && Ranked(GraphOf(items, rows), rank) && AllCostsRight(items, rows)
    ensures Get(CostsOf(items), id)
         == Target(GraphOf(items, rows), CostsOf(items), GraphOf(items, rows).Keys, rank, id)
  {
    var g := GraphOf(items, rows);
    TypedRowsTypedGraph(items, rows);
    RightIsFull(g, CostsOf(items), rank, CostsOf(items), id);
  }
}
