/** The order journey over time: any number of orders, any interleaving of reads and commits, any other
    movement of stock in between. A line made to measure moves to a product item that did not exist before;
    a pack decided on an earlier reading of the lines then locks the old product item, while every later step
    of the order asks for the new one. */
module JourneyRuns {
  import opened Common
  import opened LotAllocation
  import opened StockLedger
  import opened StockOperations
  import opened StockInvariants
  import opened OrderJourney
  import opened JourneyLaws
  import opened LockWeights

  // ---------------------------------------------------------------- every interleaving

  /** A route commits with an order it read in some earlier world; the rest is what else happens. */
  datatype Action =
    | Route(id: nat, readAt: nat, request: Request)
    | Create(order: JourneyOrder)
    | Advance(id: nat, to: Status)
    | StockMove(call: Call)
    | AddProduct(item: Id)

  /** The moves of the journey that touch no stock: confirming, and everything after the goods left. */
  predicate NeedsNoStock(from: Status, to: Status) {
    CanTransition(from, to) && !Holding(from) && !Holding(to) && to != Cancelled
  }

  /** An order as it is first written: not packed, its lines new and of products there are. */
  predicate NewOrder(w: World, o: JourneyOrder) {
    && (o.status == PendingConfirmation || o.status == Confirmed) && o.packs == []
    && DistinctIds(o.lines) && IdsOf(o.lines) !! w.lineIds
    && forall l :: l in o.lines ==> l.item in w.skus
  }

  function Created(w: World, o: JourneyOrder): World {
    w.(orders := w.orders + [o], lineIds := w.lineIds + IdsOf(o.lines))
  }

  ghost predicate Took(worlds: seq<World>, n: nat, a: Action)
    requires n + 1 < |worlds|
  {
    var w, x := worlds[n], worlds[n + 1];
    match a
    case Route(id, readAt, request) =>
      && readAt <= n && id < |worlds[readAt].orders| && id < |w.orders| && NewIds(w, request)
      && x == (match Commit(w, id, worlds[readAt].orders[id], request) case Ok(next) => next case Err(_) => w)
    case Create(o) => NewOrder(w, o) && x == Created(w, o)
    case Advance(id, to) =>
      && id < |w.orders| && NeedsNoStock(w.orders[id].status, to)
      && x == Write(w, id, w.stock, w.orders[id].(status := to))
    case StockMove(call) =>
      && LeavesLocks(call) && EntriesPlaced(w.stock)
      && x == w.(stock := match Outcome(w.stock, call) case Ok(next) => next case Err(_) => w.stock)
    case AddProduct(item) => x == w.(skus := w.skus + {item})
  }

  const START := World(EMPTY, [], {}, {})

  ghost predicate Journey(worlds: seq<World>, actions: seq<Action>) {
    && |worlds| == |actions| + 1 && worlds[0] == START
    && forall n :: 0 <= n < |actions| ==> Took(worlds, n, actions[n])
  }

  // ---------------------------------------------------------------- packs

  /** What the route of step `n` had read. */
  ghost function ReadBy(worlds: seq<World>, n: nat, a: Action): JourneyOrder
    requires n + 1 < |worlds| && Took(worlds, n, a) && a.Route?
  {
    worlds[a.readAt].orders[a.id]
  }

  /** And what stands in the table. */
  ghost function Standing(worlds: seq<World>, n: nat, a: Action): JourneyOrder
    requires n + 1 < |worlds| && Took(worlds, n, a) && a.Route?
  {
    worlds[n].orders[a.id]
  }

  ghost predicate PackAccepted(worlds: seq<World>, n: nat, a: Action)
    requires n + 1 < |worlds| && Took(worlds, n, a)
  {
    a.Route? && a.request == PackOrder && CommitPack(worlds[n], a.id, ReadBy(worlds, n, a)).Ok?
  }

  /** If step `n` packed an order, the lines it had read still named the same product items. */
  ghost predicate PackAligned(worlds: seq<World>, n: nat, a: Action)
    requires n + 1 < |worlds| && Took(worlds, n, a)
  {
    PackAccepted(worlds, n, a) ==> Aligned(ReadBy(worlds, n, a), Standing(worlds, n, a))
  }

  /** What all packs accepted before step `n` locked. */
  ghost function AllTaken(worlds: seq<World>, actions: seq<Action>, n: nat): seq<LockLine>
    requires Journey(worlds, actions) && n < |worlds|
  {
    if n == 0 then []
    else
      var a := actions[n - 1];
      assert Took(worlds, n - 1, a);
      AllTaken(worlds, actions, n - 1) + if PackAccepted(worlds, n - 1, a) then TakenBy(ReadBy(worlds, n - 1, a)) else []
  }

  /** And what their orders counted on from then. */
  ghost function AllCounted(worlds: seq<World>, actions: seq<Action>, n: nat): seq<LockLine>
    requires Journey(worlds, actions) && n < |worlds|
  {
    if n == 0 then []
    else
      var a := actions[n - 1];
      assert Took(worlds, n - 1, a);
      AllCounted(worlds, actions, n - 1)
        + if PackAccepted(worlds, n - 1, a) then CountedBy(ReadBy(worlds, n - 1, a), Standing(worlds, n - 1, a)) else []
  }

  // ---------------------------------------------------------------- one step

  lemma CreateKeeps(w: World, o: JourneyOrder)
    requires Tidy(w) && NewOrder(w, o)
    ensures Tidy(Created(w, o)) && MovedOn(w, Created(w, o)) && SameStray(w, Created(w, o))
  {
    hide Consistent;
    var x := Created(w, o);
    MovedOnNowhere(w);
    forall i | 0 <= i < |x.orders| ensures WellFormed(x.orders[i]) && Placed(x.orders[i], x.skus, x.lineIds) {
      if i < |w.orders| { assert Placed(w.orders[i], w.skus, w.lineIds); }
    }
    forall i | 0 <= i < |w.orders| ensures Later(w.orders[i], x.orders[i]) && LinesDescend(x.orders[i], w.orders[i], w) {
      assert LinesDescend(w.orders[i], w.orders[i], w);
    }
    forall k: Key ensures Stray(x, k) == Stray(w, k) { SumByAppend(w.orders, o, HeldBy(k)); }
  }

  lemma AdvanceKeeps(w: World, id: nat, to: Status)
    requires Tidy(w) && id < |w.orders| && NeedsNoStock(w.orders[id].status, to)
    ensures var x := Write(w, id, w.stock, w.orders[id].(status := to));
      Tidy(x) && MovedOn(w, x) && SameStray(w, x)
  {
    hide Consistent;
    TransitionsOnlyClimb(w.orders[id].status, to);
    WriteKeeps(w, id, w.stock, w.orders[id].(status := to));
  }

  lemma StockMoveKeeps(w: World, call: Call)
    requires Tidy(w) && LeavesLocks(call) && Outcome(w.stock, call).Ok?
    ensures var x := w.(stock := Outcome(w.stock, call).value);
      Tidy(x) && MovedOn(w, x) && SameStray(w, x)
  {
    hide Consistent, Outcome;
    ConsistentPlaces(w.stock);
    OutcomeKeeps(w.stock, call);
    OutcomeLeavesLocks(w.stock, call);
    MovedOnNowhere(w);
    var x := w.(stock := Outcome(w.stock, call).value);
    forall i | 0 <= i < |w.orders| ensures LinesDescend(x.orders[i], w.orders[i], w) {
      assert LinesDescend(w.orders[i], w.orders[i], w);
    }
    forall k: Key ensures Stray(x, k) == Stray(w, k) {}
  }

  lemma AddProductKeeps(w: World, item: Id)
    requires Tidy(w)
    ensures var x := w.(skus := w.skus + {item});
      Tidy(x) && MovedOn(w, x) && SameStray(w, x)
  {
    hide Consistent;
    var x := w.(skus := w.skus + {item});
    MovedOnNowhere(w);
    forall i | 0 <= i < |w.orders| ensures WellFormed(x.orders[i]) && Placed(x.orders[i], x.skus, x.lineIds) {
      assert Placed(w.orders[i], w.skus, w.lineIds);
    }
    forall i | 0 <= i < |w.orders| ensures LinesDescend(x.orders[i], w.orders[i], w) {
      assert LinesDescend(w.orders[i], w.orders[i], w);
    }
    forall k: Key ensures Stray(x, k) == Stray(w, k) {}
  }

  /** What one step leaves: tables in shape, orders that only move on, and stray units that change only
      when it packs. */
  ghost predicate Stepped(worlds: seq<World>, n: nat, a: Action)
    requires n + 1 < |worlds| && Took(worlds, n, a)
  {
    && Tidy(worlds[n + 1]) && MovedOn(worlds[n], worlds[n + 1])
    && if PackAccepted(worlds, n, a)
       then StraysBySlip(worlds[n], worlds[n + 1], ReadBy(worlds, n, a), Standing(worlds, n, a))
       else SameStray(worlds[n], worlds[n + 1])
  }

  lemma RouteTook(worlds: seq<World>, n: nat, a: Action)
    requires n + 1 < |worlds| && Took(worlds, n, a) && a.Route?
    requires Tidy(worlds[n]) && Tidy(worlds[a.readAt]) && MovedOn(worlds[a.readAt], worlds[n])
    ensures Stepped(worlds, n, a)
    ensures var r := Commit(worlds[n], a.id, ReadBy(worlds, n, a), a.request);
      r == Err(InventoryLockMismatch) ==> LocksMissing(worlds[n], a.id)
  {
    hide Consistent, Commit, CommitPack, Later, WellFormed, LinesDescend, Placed, NewIds, LocksMissing, Slip, Stray;
    var w, read := worlds[n], ReadBy(worlds, n, a);
    MovedOnNowhere(w);
    if a.request == PackOrder {
      assert DistinctIds(read.lines) by { ReadApart(worlds[a.readAt], a.id); }
      CommitIsPack(w, a.id, read);
      PackKeeps(w, a.id, read);
    } else {
      CommitKeeps(w, a.id, read, a.request);
    }
  }

  lemma ReadApart(w: World, id: nat)
    requires Tidy(w) && id < |w.orders|
    ensures DistinctIds(w.orders[id].lines)
  {}

  lemma CommitIsPack(w: World, id: nat, read: JourneyOrder)
    requires id < |w.orders|
    ensures Commit(w, id, read, PackOrder) == CommitPack(w, id, read)
  {}

  lemma TookKeeps(worlds: seq<World>, n: nat, a: Action)
    requires n + 1 < |worlds| && Took(worlds, n, a)
    requires forall m :: 0 <= m <= n ==> Tidy(worlds[m]) && MovedOn(worlds[m], worlds[n])
    ensures Stepped(worlds, n, a)
  {
    hide Consistent, Commit, Outcome, Tidy, MovedOn, SameStray, StraysBySlip;
    var w := worlds[n];
    assert Tidy(w);
    match a {
      case Route(id, readAt, request) => RouteTook(worlds, n, a);
      case Create(o) => CreateKeeps(w, o);
      case Advance(id, to) => AdvanceKeeps(w, id, to);
      case StockMove(call) =>
        if Outcome(w.stock, call).Ok? { StockMoveKeeps(w, call); } else { StoodStill(w, worlds[n + 1]); }
      case AddProduct(item) => AddProductKeeps(w, item);
    }
  }

  lemma StoodStill(w: World, x: World)
    requires x == w && Tidy(w)
    ensures Tidy(x) && MovedOn(w, x) && SameStray(w, x)
  {
    hide Consistent;
    MovedOnNowhere(w);
  }

  lemma NothingYet()
    ensures Tidy(START) && forall k: Key :: Stray(START, k) == 0
  {
    assert EMPTY.lots == [] && EMPTY.ledger == [];
    assert forall k: Key :: LockedAt(EMPTY, k) == 0 == SumBy([], HeldBy(k));
  }

  // ---------------------------------------------------------------- the laws of every run

  /** In every run the tables stay in shape, and no order ever comes back to where it was. */
  lemma {:induction false} OrdersOnlyMoveOn(worlds: seq<World>, actions: seq<Action>, n: nat)
    requires Journey(worlds, actions) && n < |worlds|
    ensures forall m :: 0 <= m <= n ==> Tidy(worlds[m]) && MovedOn(worlds[m], worlds[n])
  {
    hide Tidy, MovedOn, Took, SameStray, StraysBySlip;
    if n == 0 {
      NothingYet();
      MovedOnNowhere(worlds[0]);
    } else {
      OrdersOnlyMoveOn(worlds, actions, n - 1);
      TookKeeps(worlds, n - 1, actions[n - 1]);
      forall m | 0 <= m <= n ensures Tidy(worlds[m]) && MovedOn(worlds[m], worlds[n]) {
        if m < n { MovedOnTwice(worlds[m], worlds[n - 1], worlds[n]); } else { MovedOnNowhere(worlds[n]); }
      }
    }
  }

  lemma Steps(worlds: seq<World>, actions: seq<Action>, n: nat)
    requires Journey(worlds, actions) && n < |actions|
    ensures Took(worlds, n, actions[n]) && Stepped(worlds, n, actions[n])
  {
    hide Took, Stepped;
    OrdersOnlyMoveOn(worlds, actions, n);
    TookKeeps(worlds, n, actions[n]);
  }

  /** In every run - any orders, any interleaving of reads and commits, any other movement of stock - the
      locked units of a key are what the orders now PACKED or PICKED_UP count on there, plus what all
      packs so far locked there beyond what their orders counted on. */
  lemma {:induction false} StrayUnitsArePacked(worlds: seq<World>, actions: seq<Action>, n: nat, k: Key)
    requires Journey(worlds, actions) && n < |worlds|
    ensures LockedAt(worlds[n].stock, k) == SumBy(worlds[n].orders, HeldBy(k))
      + SumBy(AllTaken(worlds, actions, n), NeedAt(k)) - SumBy(AllCounted(worlds, actions, n), NeedAt(k))
  {
    hide Took, Journey, AllTaken, AllCounted, Stepped;
    if n == 0 {
      NothingYet();
      assert worlds[0] == START by { JourneyStarts(worlds, actions); }
      assert Stray(START, k) == 0;
      NothingTaken(worlds, actions);
    } else {
      JourneyStarts(worlds, actions);
      StrayUnitsArePacked(worlds, actions, n - 1, k);
      OneMoreStep(worlds, actions, n - 1, k);
    }
  }

  lemma JourneyStarts(worlds: seq<World>, actions: seq<Action>)
    requires Journey(worlds, actions)
    ensures |worlds| == |actions| + 1 && worlds[0] == START
  {}

  lemma NothingTaken(worlds: seq<World>, actions: seq<Action>)
    requires Journey(worlds, actions)
    ensures AllTaken(worlds, actions, 0) == [] && AllCounted(worlds, actions, 0) == []
  {}

  lemma OneMoreStep(worlds: seq<World>, actions: seq<Action>, n: nat, k: Key)
    requires Journey(worlds, actions) && n < |actions|
    ensures Stray(worlds[n + 1], k) - Stray(worlds[n], k)
      == SumBy(AllTaken(worlds, actions, n + 1), NeedAt(k)) - SumBy(AllTaken(worlds, actions, n), NeedAt(k))
         - (SumBy(AllCounted(worlds, actions, n + 1), NeedAt(k)) - SumBy(AllCounted(worlds, actions, n), NeedAt(k)))
  {
    hide Took, Tidy, MovedOn, TakenBy, CountedBy, Stray, CommitPack, ReadBy, Standing;
    Steps(worlds, actions, n);
    var a := actions[n];
    if PackAccepted(worlds, n, a) {
      var read, now := ReadBy(worlds, n, a), Standing(worlds, n, a);
      assert Stray(worlds[n + 1], k) == Stray(worlds[n], k) + Slip(read, now, k);
      SumByConcat(AllTaken(worlds, actions, n), TakenBy(read), NeedAt(k));
      SumByConcat(AllCounted(worlds, actions, n), CountedBy(read, now), NeedAt(k));
    } else {
      assert AllTaken(worlds, actions, n + 1) == AllTaken(worlds, actions, n);
      assert AllCounted(worlds, actions, n + 1) == AllCounted(worlds, actions, n);
      assert Stray(worlds[n + 1], k) == Stray(worlds[n], k);
    }
  }

  // ---------------------------------------------------------------- how young a product item is

  function Missing(item: Id): World -> int { (w: World) => if item in w.skus then 0 else 1 }

  /** In how many worlds of the run the product item is not there: the later it came, the more. */
  function Youth(worlds: seq<World>): Key -> int { (k: Key) => SumBy(worlds, Missing(k.item)) }

  lemma YoungerThan(worlds: seq<World>, m: nat, was: Key, became: Key)
    requires m < |worlds| && was.item in worlds[m].skus && became.item !in worlds[m].skus
    requires forall i, j :: 0 <= i <= j < |worlds| ==> worlds[i].skus <= worlds[j].skus
    ensures Youth(worlds)(was) < Youth(worlds)(became)
  {
    var f, g := Missing(was.item), Missing(became.item);
    var gap := (w: World) => g(w) - f(w);
    forall w | w in worlds ensures gap(w) >= 0 {
      var i :| 0 <= i < |worlds| && worlds[i] == w;
      assert i <= m ==> worlds[i].skus <= worlds[m].skus;
      assert m <= i ==> worlds[m].skus <= worlds[i].skus;
    }
    SumByCovers(worlds, gap, m);
    SumByAdd(worlds, f, gap, g);
  }

  // ---------------------------------------------------------------- an accepted pack

  lemma GrowingSkus(worlds: seq<World>, actions: seq<Action>)
    requires Journey(worlds, actions)
    ensures forall i, j :: 0 <= i <= j < |worlds| ==> worlds[i].skus <= worlds[j].skus
  {
    hide Journey, Tidy;
    forall i, j | 0 <= i <= j < |worlds| ensures worlds[i].skus <= worlds[j].skus {
      OrdersOnlyMoveOn(worlds, actions, j);
      assert MovedOn(worlds[i], worlds[j]);
    }
  }

  /** A line read for packing still stands, and names the product item it named or one that is new since. */
  lemma LineStands(w: World, read: JourneyOrder, now: JourneyOrder, l: OrderLine)
    requires WellFormed(read) && Placed(read, w.skus, w.lineIds) && LinesDescend(now, read, w)
    requires l in read.lines && LineAt(now.lines, l.id).Some?
    ensures l.item in w.skus
    ensures SkuOf(now.lines, l.id) == l.item || SkuOf(now.lines, l.id) !in w.skus
  {
    var z := LineAt(now.lines, l.id).value;
    assert z in now.lines && z.id in w.lineIds;
    LineAtIs(read.lines, l);
    assert Descends(z, read.lines, w.skus);
  }

  lemma PackedLinesStand(w: World, id: nat, read: JourneyOrder)
    requires id < |w.orders| && CommitPack(w, id, read).Ok?
    ensures var lines := StockedLines(read.lines);
      && PackLocation(lines).Ok? && AllPositive(LocksTaken(PackLocation(lines).value, lines))
      && forall l :: l in lines ==> LineAt(w.orders[id].lines, l.id).Some?
  {
    hide PackLocation, StockedLines, LocksTaken;
  }

  /** Line by line, an accepted pack locks the quantity its order counts on, of the same product item or
      of one that was there before. */
  ghost predicate LockedOlder(worlds: seq<World>, read: JourneyOrder, now: JourneyOrder) {
    var taken, counted, lines, g := TakenBy(read), CountedBy(read, now), StockedLines(read.lines), Youth(worlds);
    && |taken| == |counted| == |lines|
    && forall i :: 0 <= i < |lines| ==>
      && taken[i].quantity == counted[i].quantity > 0
      && if SkuOf(now.lines, lines[i].id) == lines[i].item then taken[i] == counted[i] else g(taken[i].key) < g(counted[i].key)
  }

  lemma PackLocksOlder(worlds: seq<World>, actions: seq<Action>, n: nat)
    requires Journey(worlds, actions) && n < |actions| && Took(worlds, n, actions[n])
    requires PackAccepted(worlds, n, actions[n])
    ensures LockedOlder(worlds, ReadBy(worlds, n, actions[n]), Standing(worlds, n, actions[n]))
  {
    hide Journey, Consistent, CommitPack, StockedLines, PackLocation, Youth, WellFormed, LinesDescend, Later, Placed;
    JourneyStarts(worlds, actions);
    var a := actions[n];
    var read, now, w := ReadBy(worlds, n, a), Standing(worlds, n, a), worlds[a.readAt];
    OrdersOnlyMoveOn(worlds, actions, n);
    assert Tidy(w) && MovedOn(w, worlds[n]);
    GrowingSkus(worlds, actions);
    PackedLinesStand(worlds[n], a.id, read);
    var lines, taken, counted := StockedLines(read.lines), TakenBy(read), CountedBy(read, now);
    forall i | 0 <= i < |lines|
      ensures taken[i].quantity == counted[i].quantity > 0
      ensures SkuOf(now.lines, lines[i].id) == lines[i].item || Youth(worlds)(taken[i].key) < Youth(worlds)(counted[i].key)
    {
      assert taken[i] in taken && lines[i] in lines;
      LineStands(w, read, now, lines[i]);
      if SkuOf(now.lines, lines[i].id) != lines[i].item {
        YoungerThan(worlds, a.readAt, taken[i].key, counted[i].key);
      }
    }
  }

  /** What a pack locks weighs no more than what its order counts on, and less unless the lines still
      named what they named. */
  lemma PackWeighs(worlds: seq<World>, read: JourneyOrder, now: JourneyOrder)
    requires LockedOlder(worlds, read, now)
    ensures var g := Weigh(Youth(worlds));
      && SumBy(TakenBy(read), g) <= SumBy(CountedBy(read, now), g)
      && (!Aligned(read, now) ==> SumBy(TakenBy(read), g) < SumBy(CountedBy(read, now), g))
  {
    hide StockedLines, Youth, TakenBy, CountedBy;
    var lines, taken, counted := StockedLines(read.lines), TakenBy(read), CountedBy(read, now);
    forall i | 0 <= i < |lines| ensures lines[i] in lines {}
    HeavierWeighsMore(taken, counted, Youth(worlds));
    if !Aligned(read, now) {
      var l :| l in lines && SkuOf(now.lines, l.id) != l.item;
      var i :| 0 <= i < |lines| && lines[i] == l;
      assert Youth(worlds)(taken[i].key) < Youth(worlds)(counted[i].key);
    }
  }

  // ---------------------------------------------------------------- all packs of a run

  ghost predicate PacksAligned(worlds: seq<World>, actions: seq<Action>, n: nat)
    requires n < |worlds| && n <= |actions|
  {
    forall m :: 0 <= m < n ==> Took(worlds, m, actions[m]) && PackAligned(worlds, m, actions[m])
  }

  lemma {:induction false} AllPacksWeigh(worlds: seq<World>, actions: seq<Action>, n: nat)
    requires Journey(worlds, actions) && n < |worlds|
    ensures var taken, counted, g := AllTaken(worlds, actions, n), AllCounted(worlds, actions, n), Weigh(Youth(worlds));
      && SumBy(taken, g) <= SumBy(counted, g)
      && (!PacksAligned(worlds, actions, n) ==> SumBy(taken, g) < SumBy(counted, g))
  {
    hide Took, Youth, Aligned, TakenBy, CountedBy, ReadBy, Standing, CommitPack, LockedOlder;
    if n > 0 {
      var m, a, g := n - 1, actions[n - 1], Weigh(Youth(worlds));
      assert Took(worlds, m, a);
      AllPacksWeigh(worlds, actions, m);
      if PackAccepted(worlds, m, a) {
        PackLocksOlder(worlds, actions, m);
        PackWeighs(worlds, ReadBy(worlds, m, a), Standing(worlds, m, a));
        SumByConcat(AllTaken(worlds, actions, m), TakenBy(ReadBy(worlds, m, a)), g);
        SumByConcat(AllCounted(worlds, actions, m), CountedBy(ReadBy(worlds, m, a), Standing(worlds, m, a)), g);
      } else {
        assert AllTaken(worlds, actions, n) == AllTaken(worlds, actions, m);
        assert AllCounted(worlds, actions, n) == AllCounted(worlds, actions, m);
      }
      assert PacksAligned(worlds, actions, n) <==> PacksAligned(worlds, actions, m) && PackAligned(worlds, m, a);
    }
  }

  /** Aligned packs locked, key by key, what their orders count on. */
  lemma {:induction false} AlignedPacksBalance(worlds: seq<World>, actions: seq<Action>, n: nat, k: Key)
    requires Journey(worlds, actions) && n < |worlds| && PacksAligned(worlds, actions, n)
    ensures SumBy(AllTaken(worlds, actions, n), NeedAt(k)) == SumBy(AllCounted(worlds, actions, n), NeedAt(k))
  {
    hide Took, Aligned, TakenBy, CountedBy, ReadBy, Standing, CommitPack;
    if n > 0 {
      var m, a := n - 1, actions[n - 1];
      assert Took(worlds, m, a) && PackAligned(worlds, m, a);
      AlignedPacksBalance(worlds, actions, m, k);
      if PackAccepted(worlds, m, a) {
        var read, now := ReadBy(worlds, m, a), Standing(worlds, m, a);
        AlignedSlipsNothing(read, now);
        assert Slip(read, now, k) == 0;
        SumByConcat(AllTaken(worlds, actions, m), TakenBy(read), NeedAt(k));
        SumByConcat(AllCounted(worlds, actions, m), CountedBy(read, now), NeedAt(k));
      } else {
        assert AllTaken(worlds, actions, n) == AllTaken(worlds, actions, m);
        assert AllCounted(worlds, actions, n) == AllCounted(worlds, actions, m);
      }
    }
  }

  /** So while every pack was aligned, no unit is astray. */
  lemma NothingAstray(worlds: seq<World>, actions: seq<Action>, n: nat)
    requires Journey(worlds, actions) && n < |worlds| && PacksAligned(worlds, actions, n)
    ensures LocksMatch(worlds[n])
  {
    hide Journey, PacksAligned, AllTaken, AllCounted;
    forall k: Key ensures Stray(worlds[n], k) == 0 {
      StrayUnitsArePacked(worlds, actions, n, k);
      AlignedPacksBalance(worlds, actions, n, k);
    }
  }

  /** Main result. Under any interleaving of reads and commits over any number of orders, with any other
      movement of stock in between, the locked stock of every key is what the orders now PACKED or
      PICKED_UP count on there, exactly when every pack accepted so far locked the product items its lines
      named when it committed. After one that did not, the two never agree again. */
  lemma LocksFollowTheOrders(worlds: seq<World>, actions: seq<Action>, n: nat)
    requires Journey(worlds, actions) && n < |worlds|
    ensures LocksMatch(worlds[n]) <==> PacksAligned(worlds, actions, n)
  {
    hide Journey, PacksAligned, AllTaken, AllCounted, Youth;
    JourneyStarts(worlds, actions);
    if PacksAligned(worlds, actions, n) {
      NothingAstray(worlds, actions, n);
    } else if LocksMatch(worlds[n]) {
      var taken, counted := AllTaken(worlds, actions, n), AllCounted(worlds, actions, n);
      AllPacksWeigh(worlds, actions, n);
      forall k: Key ensures SumBy(taken, NeedAt(k)) == SumBy(counted, NeedAt(k)) {
        StrayUnitsArePacked(worlds, actions, n, k);
        assert Stray(worlds[n], k) == 0;
      }
      SameNeedsWeighSame(taken, counted, Youth(worlds));
      assert false;
    }
  }

  /** The row's version would tell: a pack whose order was not written since the read is aligned. */
  lemma UnwrittenPackIsAligned(worlds: seq<World>, actions: seq<Action>, n: nat)
    requires Journey(worlds, actions) && n < |actions| && Took(worlds, n, actions[n])
    requires PackAccepted(worlds, n, actions[n])
    requires ReadBy(worlds, n, actions[n]).version == Standing(worlds, n, actions[n]).version
    ensures PackAligned(worlds, n, actions[n])
  {
    hide Journey, Consistent, CommitPack, Aligned;
    JourneyStarts(worlds, actions);
    var a := actions[n];
    OrdersOnlyMoveOn(worlds, actions, n);
    assert Tidy(worlds[a.readAt]) && MovedOn(worlds[a.readAt], worlds[n]);
    UnwrittenIsAligned(ReadBy(worlds, n, a), Standing(worlds, n, a));
  }

  /** While every pack so far was aligned, no commit of any route, however stale its read, finds a lock of
      its order missing. */
  lemma NoRouteMissesItsLocks(worlds: seq<World>, actions: seq<Action>, n: nat)
    requires Journey(worlds, actions) && n < |actions| && actions[n].Route? && PacksAligned(worlds, actions, n)
    ensures Took(worlds, n, actions[n])
    ensures var a := actions[n];
      Commit(worlds[n], a.id, ReadBy(worlds, n, a), a.request) != Err(InventoryLockMismatch)
  {
    hide Consistent, Commit, PacksAligned, Took, HoldsOf, LocksCover;
    var a := actions[n];
    LocksFollowTheOrders(worlds, actions, n);
    OrdersOnlyMoveOn(worlds, actions, n);
    assert Took(worlds, n, a);
    RouteIsRead(worlds, n, a);
    RouteTook(worlds, n, a);
    if Holding(worlds[n].orders[a.id].status) { OwnLocksAreThere(worlds[n], a.id); }
  }

  lemma RouteIsRead(worlds: seq<World>, n: nat, a: Action)
    requires n + 1 < |worlds| && Took(worlds, n, a) && a.Route?
    ensures a.readAt <= n && a.id < |worlds[n].orders| && a.id < |worlds[a.readAt].orders|
  {}

  // ---------------------------------------------------------------- what was packed, and what was ordered

  predicate PackedAsOrdered(o: JourneyOrder) {
    |o.packs| == 1 && o.packs[0].items == PackedItems(StockedLines(o.lines))
  }

  /** The same lines in the same quantities; where they ship from, and what they name, may differ. */
  predicate SameQuantities(a: seq<OrderLine>, b: seq<OrderLine>) {
    && |a| == |b|
    && forall i :: 0 <= i < |a| ==> a[i].id == b[i].id && a[i].quantity == b[i].quantity
  }

  /** Packing claims the order by its status alone, so an edit of the lines may slip in after the read:
      what is packed is then of the lines as they were. It is of the lines as they are exactly when the
      stocked lines it read still stand in their quantities, as they do whenever the row has not been
      written since. */
  lemma PackedAsOrderedWhen(worlds: seq<World>, actions: seq<Action>, n: nat)
    requires Journey(worlds, actions) && n < |actions| && Took(worlds, n, actions[n])
    requires PackAccepted(worlds, n, actions[n])
    ensures var a := actions[n];
      var read, now := ReadBy(worlds, n, a), Standing(worlds, n, a);
      && a.id < |worlds[n + 1].orders|
      && (PackedAsOrdered(worlds[n + 1].orders[a.id]) <==> SameQuantities(StockedLines(read.lines), StockedLines(now.lines)))
      && (read.version == now.version ==> PackedAsOrdered(worlds[n + 1].orders[a.id]))
  {
    hide Consistent, LockStock, StockedLines, PackLocation, LocksTaken;
    var a := actions[n];
    OrdersOnlyMoveOn(worlds, actions, n);
    assert Tidy(worlds[n]) && MovedOn(worlds[a.readAt], worlds[n]);
    var read, now := ReadBy(worlds, n, a), Standing(worlds, n, a);
    assert Later(read, now);
    var was, stands := StockedLines(read.lines), StockedLines(now.lines);
    assert worlds[n + 1].orders[a.id].packs[0].items == PackedItems(was);
    if PackedItems(was) == PackedItems(stands) {
      forall i | 0 <= i < |was| ensures was[i].id == stands[i].id && was[i].quantity == stands[i].quantity {
        assert PackedItems(was)[i] == PackedItems(stands)[i];
      }
    }
  }

  // ---------------------------------------------------------------- runs told step by step

  const SAMPLE := OrderLine(0, 0, 2, Some(0), true, false)

  lemma SampleStocked()
    ensures StockedLines([SAMPLE]) == [SAMPLE] && PackLocation([SAMPLE]) == Ok(0)
  {
    assert [SAMPLE][..0] == [];
    assert StockedLines([]) == [];
    assert Sources([SAMPLE]) == {0};
  }

  /** A run with one step more. */
  lemma OneMore(worlds: seq<World>, actions: seq<Action>, a: Action, x: World)
    returns (more: seq<World>, moreActions: seq<Action>)
    requires Journey(worlds, actions) && Took(worlds + [x], |actions|, a)
    ensures more == worlds + [x] && moreActions == actions + [a] && Journey(more, moreActions)
  {
    more, moreActions := worlds + [x], actions + [a];
    forall n | 0 <= n < |moreActions| ensures Took(more, n, moreActions[n]) {
      if n < |actions| { assert Took(worlds, n, actions[n]); }
    }
  }

  /** Five of a product arrive, and two of them are ordered. */
  lemma OrderPlaced(kind: FulfillmentType) returns (worlds: seq<World>, actions: seq<Action>)
    ensures Journey(worlds, actions) && |actions| == 3 && |worlds| == 4
    ensures var w := worlds[3];
      && w.stock.rows == map[Key(0, 0) := StockRow(5, 0)] && w.skus == {0} && w.lineIds == {0}
      && w.orders == [JourneyOrder(Confirmed, kind, 0, [SAMPLE], [])]
  {
    hide AppendLot, Journey, Consistent;
    var cause := LedgerRef(Import, StockMovement, 0, None);
    var receipt := Receipt(Key(0, 0), 5, 0, Provenance(Supplier, None, None, None), None, 0, cause);
    var w1 := START.(skus := {0});
    var w2 := w1.(stock := AppendLot(EMPTY, NewLot(receipt), cause));
    FiveArrive(receipt);
    var o := JourneyOrder(Confirmed, kind, 0, [SAMPLE], []);
    var w3 := w2.(orders := [o], lineIds := {0});
    assert Created(w2, o) == w3 by { assert IdsOf([SAMPLE]) == {0}; }
    Starts();
    worlds, actions := OneMore([START], [], AddProduct(0), w1);
    worlds, actions := OneMore(worlds, actions, StockMove(CallOpenLot(receipt)), w2);
    worlds, actions := OneMore(worlds, actions, Create(o), w3);
  }

  lemma Starts()
    ensures Journey([START], [])
  {}

  lemma FiveArrive(r: Receipt)
    requires r.key == Key(0, 0) && r.quantity == 5
    ensures AppendLot(EMPTY, NewLot(r), r.cause).rows == map[Key(0, 0) := StockRow(5, 0)]
    ensures EntriesPlaced(EMPTY) && Outcome(EMPTY, CallOpenLot(r)) == Ok(AppendLot(EMPTY, NewLot(r), r.cause))
  {}

  /** What was packed and what is ordered do come apart: the line is edited from two units to three between
      the read and the packing, and two units are packed on an order for three. */
  lemma PackMayBeStale() returns (worlds: seq<World>, actions: seq<Action>)
    ensures Journey(worlds, actions) && |actions| == 5 && |worlds| == 6
    ensures |worlds[5].orders| == 1 && worlds[5].orders[0].status == Packed && !PackedAsOrdered(worlds[5].orders[0])
  {
    hide Journey, CommitPack, PackedAsOrdered;
    worlds, actions := OrderPlaced(HomeDelivery);
    var w, o, edits := worlds[3], worlds[3].orders[0], [Kept(0, 0, 3, Some(0))];
    var x := w.(orders := [o.(version := 1, lines := [SAMPLE.(quantity := 3)])]);
    assert CommitEdit(w, 0, o, Some(edits), HomeDelivery) == Ok(x) by { SampleEdited(w, o, edits); }
    assert NewIds(w, EditOrder(Some(edits), HomeDelivery)) by { SampleEdited(w, o, edits); }
    worlds, actions := OneMore(worlds, actions, Route(0, 3, EditOrder(Some(edits), HomeDelivery)), x);
    var y := StalePack(x, o);
    worlds, actions := OneMore(worlds, actions, Route(0, 3, PackOrder), y);
  }

  lemma SampleEdited(w: World, o: JourneyOrder, edits: seq<EditLine>)
    requires o == JourneyOrder(Confirmed, HomeDelivery, 0, [SAMPLE], []) && w.orders == [o]
    requires edits == [Kept(0, 0, 3, Some(0))]
    ensures CommitEdit(w, 0, o, Some(edits), HomeDelivery)
         == Ok(w.(orders := [o.(version := 1, lines := [SAMPLE.(quantity := 3)])]))
    ensures NewIds(w, EditOrder(Some(edits), HomeDelivery))
  {
    assert edits[..0] == [] && o.lines[..0] == [];
    assert LineAt(o.lines, 0) == Some(SAMPLE);
    assert KeptAt(edits, 0) == Some(edits[0]) && KeptAt([], 0) == None;
    assert EditRefusal(o.lines, []) == None;
    assert EditRefusal(o.lines, edits) == None;
    assert KeptLines([], edits) == [];
    assert KeptLines(o.lines, edits) == [SAMPLE.(quantity := 3)];
    assert AddedLines([]) == [] && AddedLines(edits) == [];
    assert w.lineIds + IdsOf([]) == w.lineIds;
    assert KeptLines(o.lines, edits) + AddedLines(edits) == [SAMPLE.(quantity := 3)];
    assert w.orders[0 := o.(version := 1, lines := [SAMPLE.(quantity := 3)])] == [o.(version := 1, lines := [SAMPLE.(quantity := 3)])];
  }

  lemma StalePack(w: World, read: JourneyOrder) returns (x: World)
    requires read == JourneyOrder(Confirmed, HomeDelivery, 0, [SAMPLE], [])
    requires w.orders == [read.(version := 1, lines := [SAMPLE.(quantity := 3)])]
    requires w.stock.rows == map[Key(0, 0) := StockRow(5, 0)]
    ensures CommitPack(w, 0, read) == Ok(x)
    ensures |x.orders| == 1 && x.orders[0].status == Packed && !PackedAsOrdered(x.orders[0])
  {
    var now := w.orders[0];
    SampleStocked();
    assert now.lines[..0] == [] && StockedLines([]) == [];
    assert StockedLines(now.lines) == now.lines;
    assert LineAt(now.lines, 0) == Some(now.lines[0]);
    var locks := LocksTaken(0, [SAMPLE]);
    assert locks == [LockLine(Key(0, 0), 2)];
    assert locks[..0] == [];
    assert LockEach(w.stock, []) == (w.stock, []);
    assert LockStock(w.stock, locks).Ok?;
    assert PackedItems([SAMPLE])[0].quantity == 2 && PackedItems(now.lines)[0].quantity == 3;
    x := CommitPack(w, 0, read).value;
    assert x.orders[0].packs[0].items == PackedItems([SAMPLE]);
    assert x.orders[0].lines == now.lines;
  }

  // ---------------------------------------------------------------- a pack that was not

  /** And packs come misaligned. A customer is promised two of a product of which five are on the shelf;
      between packing's read and its claim the line is made to measure, which keeps the order CONFIRMED.
      Packing locks two of the shelf product, the order counts on two of its own product item, and so
      neither handing over nor cancelling ever succeeds: two units stay locked that no order counts on. */
  lemma LocksMayBeStranded() returns (worlds: seq<World>, actions: seq<Action>)
    ensures Journey(worlds, actions) && |actions| == 5 && |worlds| == 6
    ensures |worlds[5].orders| == 1 && worlds[5].orders[0].status == Packed
    ensures var now := worlds[5].orders[0];
      && Commit(worlds[5], 0, now, CancelOrder) == Err(InventoryLockMismatch)
      && Commit(worlds[5], 0, now, HandOverAtCounter(0)) == Err(InventoryLockMismatch)
    ensures LockedAt(worlds[5].stock, Key(0, 0)) == 2 && HeldBy(Key(0, 0))(worlds[5].orders[0]) == 0
  {
    hide Journey, CommitPack, CommitCancel, CommitHandOver;
    worlds, actions := OrderPlaced(StorePickup);
    var w, o := worlds[3], worlds[3].orders[0];
    var line := SAMPLE;
    var tailored := o.(version := 1, lines := [line.(item := 1, custom := true)]);
    var x := w.(orders := [tailored], skus := {0, 1});
    assert CommitCustomize(w, 0, o, 0, 1, false) == Ok(x) by {
      assert LineAt(o.lines, 0) == Some(line);
      assert Moved(o.lines, 0, 1) == tailored.lines;
      assert w.orders[0 := tailored] == [tailored];
      assert w.skus + {1} == {0, 1};
    }
    worlds, actions := OneMore(worlds, actions, Route(0, 3, Customize(0, 1, false)), x);
    var y := TailoredPack(x, o);
    worlds, actions := OneMore(worlds, actions, Route(0, 3, PackOrder), y);
    NothingToRelease(y);
  }

  lemma TailoredPack(w: World, read: JourneyOrder) returns (x: World)
    requires read == JourneyOrder(Confirmed, StorePickup, 0, [SAMPLE], [])
    requires w.orders == [read.(version := 1, lines := [SAMPLE.(item := 1, custom := true)])]
    requires w.stock.rows == map[Key(0, 0) := StockRow(5, 0)]
    ensures CommitPack(w, 0, read) == Ok(x)
    ensures x.stock.rows == map[Key(0, 0) := StockRow(5, 2)]
    ensures x.orders == [JourneyOrder(Packed, StorePickup, 2, w.orders[0].lines, [Pack(0, [PackedItem(0, 2)], InPack)])]
  {
    var now := w.orders[0];
    SampleStocked();
    assert LineAt(now.lines, 0) == Some(now.lines[0]);
    var locks := LocksTaken(0, [SAMPLE]);
    assert locks == [LockLine(Key(0, 0), 2)];
    assert locks[..0] == [];
    assert LockEach(w.stock, []) == (w.stock, []);
    assert LockStock(w.stock, locks).Ok?;
    x := CommitPack(w, 0, read).value;
    assert PackedItems([SAMPLE]) == [PackedItem(0, 2)];
    assert now.packs + [Pack(0, PackedItems([SAMPLE]), InPack)] == [Pack(0, [PackedItem(0, 2)], InPack)];
    assert x.orders == [x.orders[0]];
  }

  lemma NothingToRelease(w: World)
    requires w.stock.rows == map[Key(0, 0) := StockRow(5, 2)]
    requires |w.orders| == 1 && w.orders[0].status == Packed && w.orders[0].kind == StorePickup
    requires w.orders[0].lines == [SAMPLE.(item := 1, custom := true)]
    requires w.orders[0].packs == [Pack(0, [PackedItem(0, 2)], InPack)]
    ensures CommitCancel(w, 0, w.orders[0]) == Err(InventoryLockMismatch)
    ensures CommitHandOver(w, 0, w.orders[0], 0) == Err(InventoryLockMismatch)
    ensures HeldBy(Key(0, 0))(w.orders[0]) == 0
  {
    var o, items := w.orders[0], [PackedItem(0, 2)];
    var p := o.packs[0];
    assert LineAt(o.lines, 0) == Some(o.lines[0]);
    var holds := LocksOf(o.lines, 0, items);
    assert holds == [LockLine(Key(0, 1), 2)];
    assert o.packs == [p];
    OnePackHolds(o.lines, p);
    OneNeed(holds[0], Key(0, 0));
    assert holds[..0] == [];
    assert ReleaseAll(w.stock, []) == Ok(w.stock);
    assert ReleaseAll(w.stock, holds) == Err(InventoryLockMismatch);
    assert items[..0] == [];
    assert ShipAll(w.stock, 0, o.lines, 0, []) == Ok(w.stock);
    assert ShipAll(w.stock, 0, o.lines, 0, items) == Err(InventoryLockMismatch);
  }
}
