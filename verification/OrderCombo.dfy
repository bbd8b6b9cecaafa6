/** Combos on an order (src/modules/orders/order-combo.ts): loading the part of the combo graph below
    the ordered combos level by level, opening each, and laying out the order's lines. */
module OrderCombo {
  import opened Common
  import opened ComboExpansion

  // ---------------------------------------------------------------- loading

  /** The combos listed by a level that are not loaded yet, each once, in the order first met. */
  function NewCombos(edges: seq<Edge>, loaded: set<Id>): (r: seq<Id>)
    ensures forall c :: c in r <==> c !in loaded && exists e :: e in edges && e.item == Item(c, Combo)
    ensures NoRepeats(r)
  {
    if edges == [] then []
    else
      var last := edges[|edges| - 1];
      var rest := NewCombos(edges[..|edges| - 1], loaded);
      assert forall e :: e in edges <==> e in edges[..|edges| - 1] || e == last;
      if last.item.itemType == Combo && last.item.id !in loaded && last.item.id !in rest then rest + [last.item.id] else rest
  }

  function EdgesAt(stored: Graph, level: seq<Id>): (r: seq<Edge>)
    ensures forall e :: e in r <==> exists c :: c in level && e in Parts(stored, c)
  {
    if level == [] then []
    else
      var last := level[|level| - 1];
      assert forall c :: c in level <==> c in level[..|level| - 1] || c == last;
      EdgesAt(stored, level[..|level| - 1]) + Parts(stored, last)
  }

  function WithLevel(g: Graph, stored: Graph, level: seq<Id>): (r: Graph)
    ensures r.Keys == g.Keys + set c | c in level
    ensures forall c :: c in level ==> r[c] == Parts(stored, c)
    ensures forall c :: c in g && c !in level ==> r[c] == g[c]
  {
    map c | c in g.Keys + (set x | x in level) :: if c in level then Parts(stored, c) else g[c]
  }

  /** What is loaded has all its parts, and what it lists is loaded or next. */
  ghost predicate LoadedSoFar(stored: Graph, g: Graph, frontier: seq<Id>) {
    && (forall c :: c in g ==> g[c] == Parts(stored, c))
    && (forall c, d :: c in g && Nests(stored, c, d) ==> d in g || d in frontier)
  }

  /** Every combo of the frontier is `depth` levels below one that was asked for. */
  ghost predicate AtDepth(stored: Graph, asked: seq<Id>, frontier: seq<Id>, depth: nat) {
    forall c :: c in frontier ==> Below(stored, asked, c, depth)
  }

  ghost predicate Below(stored: Graph, asked: seq<Id>, c: Id, depth: nat) {
    exists p :: Chain(stored, p) && p[0] in asked && p[|p| - 1] == c && |p| == depth + 1
  }

  lemma OneDeeper(stored: Graph, asked: seq<Id>, c: Id, d: Id, depth: nat)
    requires Below(stored, asked, c, depth) && Nests(stored, c, d)
    ensures Below(stored, asked, d, depth + 1)
  {
    var p :| Chain(stored, p) && p[0] in asked && p[|p| - 1] == c && |p| == depth + 1;
    ChainSnoc(stored, p, d);
    assert (p + [d])[0] == p[0];
  }

  /** Load the combos below those asked for, one query a level, refusing past the depth limit. */
  method LoadComboGraph(stored: Graph, asked: seq<Id>) returns (r: Option<Graph>)
    ensures r.Some? ==> LoadedSoFar(stored, r.value, []) && forall c :: c in asked ==> c in r.value
    ensures r.None? ==> exists c :: c in asked && FlattenCombo(c, stored).Refused?
  {
    var childrenOf: Graph := map[];
    var frontier := asked;
    var depth := 0;
    AskedAtDepth(stored, asked);
    while frontier != []
      invariant depth <= MAX_COMBO_DEPTH + 1
      invariant LoadedSoFar(stored, childrenOf, frontier)
      invariant forall c :: c in asked ==> c in childrenOf || c in frontier
      invariant AtDepth(stored, asked, frontier, depth)
      decreases MAX_COMBO_DEPTH + 1 - depth
    {
      if depth > MAX_COMBO_DEPTH {
        TooDeepFails(stored, asked, frontier, depth);
        return None;
      }
      var edges := EdgesAt(stored, frontier);
      var next := WithLevel(childrenOf, stored, frontier);
      var below := NewCombos(edges, next.Keys);
      LevelLoaded(stored, childrenOf, frontier, edges, next, below);
      LevelDeeper(stored, asked, frontier, edges, next.Keys, below, depth);
      childrenOf, frontier, depth := next, below, depth + 1;
    }
    return Some(childrenOf);
  }

  lemma AskedAtDepth(stored: Graph, asked: seq<Id>)
    ensures AtDepth(stored, asked, asked, 0)
  {
    forall c | c in asked ensures Below(stored, asked, c, 0) {
      assert Chain(stored, [c]);
    }
  }

  lemma LevelLoaded(stored: Graph, g: Graph, frontier: seq<Id>, edges: seq<Edge>, next: Graph, below: seq<Id>)
    requires LoadedSoFar(stored, g, frontier) && edges == EdgesAt(stored, frontier)
    requires next == WithLevel(g, stored, frontier) && below == NewCombos(edges, next.Keys)
    ensures LoadedSoFar(stored, next, below)
  {
    forall c, d | c in next && Nests(stored, c, d) ensures d in next || d in below {
      if c in frontier {
        var e :| e in Parts(stored, c) && e.item == Item(d, Combo);
        assert e in edges;
      } else {
        assert c in g;
      }
    }
  }

  lemma LevelDeeper(stored: Graph, asked: seq<Id>, frontier: seq<Id>, edges: seq<Edge>, loaded: set<Id>, below: seq<Id>, depth: nat)
    requires AtDepth(stored, asked, frontier, depth) && edges == EdgesAt(stored, frontier) && below == NewCombos(edges, loaded)
    ensures AtDepth(stored, asked, below, depth + 1)
  {
    hide Below, NewCombos, EdgesAt;
    forall d | d in below ensures Below(stored, asked, d, depth + 1) {
      var e :| e in edges && e.item == Item(d, Combo);
      var c :| c in frontier && e in Parts(stored, c);
      assert Nests(stored, c, d);
      OneDeeper(stored, asked, c, d, depth);
    }
  }

  lemma TooDeepFails(stored: Graph, asked: seq<Id>, frontier: seq<Id>, depth: nat)
    requires AtDepth(stored, asked, frontier, depth) && frontier != [] && depth > MAX_COMBO_DEPTH
    ensures exists c :: c in asked && FlattenCombo(c, stored).Refused?
  {
    assert frontier[0] in frontier;
    var p :| Chain(stored, p) && p[0] in asked && p[|p| - 1] == frontier[0] && |p| == depth + 1;
    FlattensExactly(p[0], stored);
    assert !WellNested(stored, p);
  }

  /** On what was loaded, an asked combo opens - or is refused, for the same reason - as it would on
      the whole graph. */
  lemma LoadedIsEnough(stored: Graph, loaded: Graph, c: Id)
    requires LoadedSoFar(stored, loaded, []) && c in loaded
    ensures FlattenCombo(c, loaded) == FlattenCombo(c, stored)
  {
    var inside := iset x | x in loaded;
    forall id, child | id in inside && Nests(loaded, id, child) ensures child in inside {
      assert Nests(stored, id, child);
    }
    WalkSame(loaded, stored, inside, c, 1, [c], []);
  }

  // ---------------------------------------------------------------- expanding

  datatype PricedLine = PricedLine(item: Item, quantity: int, source: Option<Id>)

  predicate Ordered(lines: seq<PricedLine>, c: Id) { exists l :: l in lines && l.item == Item(c, Combo) }

  /** The combos on the order, each once. */
  method ComboIdsOf(lines: seq<PricedLine>) returns (ids: seq<Id>)
    ensures forall c :: c in ids <==> Ordered(lines, c)
  {
    ids := [];
    for i := 0 to |lines|
      invariant forall c :: c in ids <==> exists j :: 0 <= j < i && lines[j].item == Item(c, Combo)
    {
      if lines[i].item.itemType == Combo && lines[i].item.id !in ids { ids := ids + [lines[i].item.id]; }
    }
    forall c ensures c in ids <==> Ordered(lines, c) {
      if Ordered(lines, c) {
        var l :| l in lines && l.item == Item(c, Combo);
        var j :| 0 <= j < |lines| && lines[j] == l;
      }
    }
  }

  /** Main result. Expanding the combos of an order succeeds exactly when every ordered combo opens on
      the whole stored graph, and yields the leaves it has there. */
  method ExpandCombos(stored: Graph, lines: seq<PricedLine>) returns (r: Option<map<Id, seq<Leaf>>>)
    ensures r.Some? <==> forall c :: Ordered(lines, c) ==> FlattenCombo(c, stored).Leaves?
    ensures r.Some? ==> forall c :: c in r.value <==> Ordered(lines, c)
    ensures r.Some? ==> forall c :: c in r.value ==> FlattenCombo(c, stored) == Leaves(r.value[c])
  {
    hide FlattenCombo;
    var ids := ComboIdsOf(lines);
    var loaded := LoadComboGraph(stored, ids);
    if loaded.None? { return None; }
    var found := map[];
    for i := 0 to |ids|
      invariant forall c :: c in found <==> c in ids[..i]
      invariant forall c :: c in found ==> FlattenCombo(c, stored) == Leaves(found[c])
    {
      var expansion := Flatten(ids[i], loaded.value);
      LoadedIsEnough(stored, loaded.value, ids[i]);
      if expansion.Refused? {
        assert ids[i] in ids;
        return None;
      }
      found := found[ids[i] := expansion.leaves];
    }
    assert ids[..|ids|] == ids;
    return Some(found);
  }

  // ---------------------------------------------------------------- order lines

  datatype LineType = ProductLine | ServiceLine | ComboLine | ComponentLine

  /** `parent` is the place of the combo line a component line sits under. */
  datatype OrderRow = OrderRow(item: Id, lineType: LineType, quantity: int, source: Option<Id>, parent: Option<nat>)

  function LineTypeOf(t: ItemType): LineType {
    match t
    case Product => ProductLine
    case Service => ServiceLine
    case Combo => ComboLine
  }

  function PricedRow(line: PricedLine): OrderRow {
    OrderRow(line.item.id, LineTypeOf(line.item.itemType), line.quantity,
             if line.item.itemType == Product then line.source else None, None)
  }

  function LeafRow(line: PricedLine, leaf: Leaf, parent: nat): OrderRow {
    var service := leaf.item.itemType == Service;
    OrderRow(leaf.item.id, if service then ServiceLine else ComponentLine, line.quantity * leaf.quantity,
             if service then None else line.source, Some(parent))
  }

  function LeafRows(line: PricedLine, leaves: seq<Leaf>, parent: nat): (r: seq<OrderRow>)
    ensures |r| == |leaves| && forall i :: 0 <= i < |r| ==> r[i] == LeafRow(line, leaves[i], parent)
  {
    seq(|leaves|, i requires 0 <= i < |leaves| => LeafRow(line, leaves[i], parent))
  }

  /** The rows of one line, the first of them landing at place `at`. */
  function RowsOfLine(line: PricedLine, components: map<Id, seq<Leaf>>, at: nat): seq<OrderRow> {
    [PricedRow(line)]
      + if line.item.itemType == Combo && line.item.id in components
        then LeafRows(line, components[line.item.id], at) else []
  }

  function OrderRows(lines: seq<PricedLine>, components: map<Id, seq<Leaf>>): seq<OrderRow> {
    if lines == [] then []
    else
      var before := OrderRows(lines[..|lines| - 1], components);
      before + RowsOfLine(lines[|lines| - 1], components, |before|)
  }

  method BuildOrderItemRows(lines: seq<PricedLine>, components: map<Id, seq<Leaf>>) returns (rows: seq<OrderRow>)
    ensures rows == OrderRows(lines, components)
  {
    rows := [];
    for i := 0 to |lines|
      invariant rows == OrderRows(lines[..i], components)
    {
      assert lines[..i + 1][..i] == lines[..i];
      var line, parent := lines[i], |rows|;
      ghost var before := rows;
      var isCombo := line.item.itemType == Combo;
      rows := rows + [OrderRow(line.item.id, LineTypeOf(line.item.itemType), line.quantity,
                               if isCombo || line.item.itemType == Service then None else line.source, None)];
      if isCombo && line.item.id in components {
        var leaves := components[line.item.id];
        for j := 0 to |leaves|
          invariant rows == before + ([PricedRow(line)] + LeafRows(line, leaves, parent)[..j])
        {
          var service := leaves[j].item.itemType == Service;
          rows := rows + [OrderRow(leaves[j].item.id, if service then ServiceLine else ComponentLine,
                                   line.quantity * leaves[j].quantity, if service then None else line.source, Some(parent))];
        }
        assert LeafRows(line, leaves, parent)[..|leaves|] == LeafRows(line, leaves, parent);
      } else {
        assert [PricedRow(line)] + [] == [PricedRow(line)];
      }
    }
    assert lines[..|lines|] == lines;
  }

  // ---------------------------------------------------------------- what the rows of an order mean

  predicate Opens(line: PricedLine, components: map<Id, seq<Leaf>>) {
    line.item.itemType == Combo && line.item.id in components
  }

  /** Where the rows of line `n` begin. */
  function PlaceOf(lines: seq<PricedLine>, components: map<Id, seq<Leaf>>, n: nat): nat
    requires n <= |lines|
  {
    |OrderRows(lines[..n], components)|
  }

  lemma RowsOneMore(lines: seq<PricedLine>, components: map<Id, seq<Leaf>>, n: nat)
    requires n < |lines|
    ensures OrderRows(lines[..n + 1], components)
         == OrderRows(lines[..n], components) + RowsOfLine(lines[n], components, PlaceOf(lines, components, n))
  {
    assert lines[..n + 1][..n] == lines[..n];
  }

  lemma {:induction false} RowsPrefix(lines: seq<PricedLine>, components: map<Id, seq<Leaf>>, n: nat)
    requires n <= |lines|
    ensures OrderRows(lines[..n], components) <= OrderRows(lines, components)
    decreases |lines| - n
  {
    if n == |lines| {
      assert lines[..n] == lines;
    } else {
      RowsPrefix(lines, components, n + 1);
      RowsOneMore(lines, components, n);
    }
  }

  /** The priced row of a line: of its item, as many as ordered; where it ships from is said of goods alone. */
  predicate SaysLine(row: OrderRow, line: PricedLine) {
    && row.item == line.item.id && row.quantity == line.quantity && row.parent == None
    && match line.item.itemType
       case Product => row.lineType == ProductLine && row.source == line.source
       case Service => row.lineType == ServiceLine && row.source == None
       case Combo => row.lineType == ComboLine && row.source == None
  }

  /** The row of a leaf below a combo line: of what is left of the combo, for all the sets ordered; goods ship from
      where the combo does. */
  predicate SaysLeaf(row: OrderRow, line: PricedLine, leaf: Leaf, parent: nat) {
    && row.item == leaf.item.id && row.quantity == line.quantity * leaf.quantity && row.parent == Some(parent)
    && if leaf.item.itemType == Service then row.lineType == ServiceLine && row.source == None
       else row.lineType == ComponentLine && row.source == line.source
  }

  lemma RowsSay(line: PricedLine, leaf: Leaf, parent: nat)
    ensures SaysLine(PricedRow(line), line) && SaysLeaf(LeafRow(line, leaf, parent), line, leaf, parent)
  {}

  /** Every line has its priced row, and every leaf of a combo line its own row right after it. */
  lemma LineHasItsRows(lines: seq<PricedLine>, components: map<Id, seq<Leaf>>, n: nat)
    requires n < |lines|
    ensures var rows, at := OrderRows(lines, components), PlaceOf(lines, components, n);
      && at < |rows| && rows[at] == PricedRow(lines[n]) && SaysLine(rows[at], lines[n])
      && (Opens(lines[n], components) ==>
            var leaves := components[lines[n].item.id];
            && at + |leaves| < |rows|
            && forall k :: 0 <= k < |leaves| ==>
                 rows[at + 1 + k] == LeafRow(lines[n], leaves[k], at) && SaysLeaf(rows[at + 1 + k], lines[n], leaves[k], at))
  {
    hide OrderRows, RowsOfLine, PricedRow, LeafRow, SaysLine, SaysLeaf;
    RowsSay(lines[n], Leaf(lines[n].item, 0), 0);
    var rows, at := OrderRows(lines, components), PlaceOf(lines, components, n);
    var before, own := OrderRows(lines[..n], components), RowsOfLine(lines[n], components, at);
    RowsOneMore(lines, components, n);
    RowsPrefix(lines, components, n + 1);
    RowsOfLineAre(lines[n], components, at);
    assert forall k :: 0 <= k < |own| ==> (before + own)[at + k] == own[k];
    forall k | 0 <= k < |own| ensures rows[at + k] == own[k] {}
    if Opens(lines[n], components) {
      var leaves := components[lines[n].item.id];
      forall k | 0 <= k < |leaves| ensures rows[at + 1 + k] == LeafRow(lines[n], leaves[k], at) && SaysLeaf(rows[at + 1 + k], lines[n], leaves[k], at) {
        RowsSay(lines[n], leaves[k], at);
      }
    }
  }

  lemma RowsOfLineAre(line: PricedLine, components: map<Id, seq<Leaf>>, at: nat)
    ensures var own := RowsOfLine(line, components, at);
      && own != [] && own[0] == PricedRow(line)
      && (Opens(line, components) ==>
            var leaves := components[line.item.id];
            |own| == 1 + |leaves| && forall k :: 0 <= k < |leaves| ==> own[1 + k] == LeafRow(line, leaves[k], at))
  {
    hide PricedRow, LeafRow;
    if Opens(line, components) {
      var leaves := components[line.item.id];
      var own, below := RowsOfLine(line, components, at), LeafRows(line, leaves, at);
      assert own == [PricedRow(line)] + below;
      forall k | 0 <= k < |leaves| ensures own[1 + k] == LeafRow(line, leaves[k], at) {
        assert own[1 + k] == below[k];
      }
    }
  }

  /** Row `i` is that of leaf `k` of line `n`, under the row of that line. */
  predicate UnderLine(lines: seq<PricedLine>, components: map<Id, seq<Leaf>>, i: nat, n: nat, k: nat) {
    && i < |OrderRows(lines, components)| && n < |lines| && Opens(lines[n], components) && k < |components[lines[n].item.id]|
    && i == PlaceOf(lines, components, n) + 1 + k
    && OrderRows(lines, components)[i] == LeafRow(lines[n], components[lines[n].item.id][k], PlaceOf(lines, components, n))
  }

  /** There are no other rows: one with a parent is that of a leaf of the combo line whose row it names, and
      one without is the priced row of its line. */
  lemma {:induction false} RowsAreOfLines(lines: seq<PricedLine>, components: map<Id, seq<Leaf>>, i: nat)
    requires i < |OrderRows(lines, components)|
    ensures var row := OrderRows(lines, components)[i];
      if row.parent.Some? then exists n, k :: UnderLine(lines, components, i, n, k) && row.parent == Some(PlaceOf(lines, components, n))
      else exists n :: 0 <= n < |lines| && i == PlaceOf(lines, components, n) && row == PricedRow(lines[n])
  {
    var last := |lines| - 1;
    var front, at := lines[..last], PlaceOf(lines, components, last);
    assert lines[..last + 1] == lines;
    RowsOneMore(lines, components, last);
    var row := OrderRows(lines, components)[i];
    if i < at {
      RowsAreOfLines(front, components, i);
      forall n | 0 <= n <= last ensures PlaceOf(front, components, n) == PlaceOf(lines, components, n) {
        assert front[..n] == lines[..n];
      }
      if row.parent.Some? {
        var n, k :| UnderLine(front, components, i, n, k) && row.parent == Some(PlaceOf(front, components, n));
        assert UnderLine(lines, components, i, n, k);
      } else {
        var n :| 0 <= n < |front| && i == PlaceOf(front, components, n) && row == PricedRow(front[n]);
        assert lines[n] == front[n];
      }
    } else if i > at {
      assert UnderLine(lines, components, i, last, i - at - 1);
    }
  }

  /** Units of an item on component rows. */
  function UnitsUnder(item: Id): OrderRow -> int {
    (r: OrderRow) => if r.parent.Some? && r.item == item then r.quantity else 0
  }

  /** What a line takes of an item through its combo. */
  function UnitsOfLine(components: map<Id, seq<Leaf>>, item: Id): PricedLine -> int {
    (l: PricedLine) => if Opens(l, components) then l.quantity * SumBy(components[l.item.id], UnitsAt(item)) else 0
  }

  lemma {:induction false} LeafUnits(line: PricedLine, leaves: seq<Leaf>, at: nat, item: Id)
    ensures SumBy(LeafRows(line, leaves, at), UnitsUnder(item)) == line.quantity * SumBy(leaves, UnitsAt(item))
  {
    if leaves != [] {
      var front, last := leaves[..|leaves| - 1], leaves[|leaves| - 1];
      LeafUnits(line, front, at, item);
      assert LeafRows(line, leaves, at) == LeafRows(line, front, at) + [LeafRow(line, last, at)];
      SumByAppend(LeafRows(line, front, at), LeafRow(line, last, at), UnitsUnder(item));
      Distributes(line.quantity, SumBy(front, UnitsAt(item)), UnitsAt(item)(last));
    }
  }

  lemma Distributes(x: int, y: int, z: int)
    ensures x * (y + z) == x * y + x * z
  {}

  lemma LineUnits(line: PricedLine, components: map<Id, seq<Leaf>>, at: nat, item: Id)
    ensures SumBy(RowsOfLine(line, components, at), UnitsUnder(item)) == UnitsOfLine(components, item)(line)
  {
    assert [PricedRow(line)] == [] + [PricedRow(line)];
    SumByAppend([], PricedRow(line), UnitsUnder(item));
    if Opens(line, components) {
      LeafUnits(line, components[line.item.id], at, item);
      SumByConcat([PricedRow(line)], LeafRows(line, components[line.item.id], at), UnitsUnder(item));
    } else {
      assert [PricedRow(line)] + [] == [PricedRow(line)];
    }
  }

  /** Main result. Whatever lines are ordered, the component rows carry of every item, in all, the sum over
      the combo lines of the line's quantity times what one combo holds of it. */
  lemma {:induction false} ComponentUnits(lines: seq<PricedLine>, components: map<Id, seq<Leaf>>, item: Id)
    ensures SumBy(OrderRows(lines, components), UnitsUnder(item)) == SumBy(lines, UnitsOfLine(components, item))
  {
    hide RowsOfLine;
    if lines != [] {
      var n := |lines| - 1;
      ComponentUnits(lines[..n], components, item);
      LineUnits(lines[n], components, PlaceOf(lines, components, n), item);
      SumByConcat(OrderRows(lines[..n], components), RowsOfLine(lines[n], components, PlaceOf(lines, components, n)), UnitsUnder(item));
    }
  }
}
