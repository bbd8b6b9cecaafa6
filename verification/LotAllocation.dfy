/** The allocation rules of src/modules/inventories/lot-allocation.ts: which lots a draw takes from,
    which lots a return goes back to, and the balance and cost each ledger row carries. */
module LotAllocation {
  import opened Common

  datatype LotSlice = LotSlice(lotId: nat, quantity: int)

  /** `madeFor` is set only on a lot made for one custom order line. */
  datatype DrawableLot = DrawableLot(id: nat, remaining: int, receivedAt: int, madeFor: Option<nat>)

  datatype DrawnLot = DrawnLot(lotId: nat, drawn: int, returned: int)

  /** What one lot can still give, in the order the lots are asked. */
  datatype Offer = Offer(lotId: nat, available: int)

  // ---------------------------------------------------------------- the greedy walk over offers

  function Greedy(offers: seq<Offer>, left: int): seq<LotSlice> {
    if offers == [] || left <= 0 then []
    else
      var take := Min(left, offers[0].available);
      if take <= 0 then Greedy(offers[1..], left)
      else [LotSlice(offers[0].lotId, take)] + Greedy(offers[1..], left - take)
  }

  function Unmet(offers: seq<Offer>, left: int): int {
    if offers == [] || left <= 0 then left
    else
      var take := Min(left, offers[0].available);
      if take <= 0 then Unmet(offers[1..], left) else Unmet(offers[1..], left - take)
  }

  function Plan(offers: seq<Offer>, quantity: int): Option<seq<LotSlice>> {
    if Unmet(offers, quantity) > 0 then None else Some(Greedy(offers, quantity))
  }

  function Supply(): Offer -> int { (o: Offer) => Max(0, o.available) }

  function Units(): LotSlice -> int { (s: LotSlice) => s.quantity }

  function UnitsOf(lotId: nat): LotSlice -> int {
    (s: LotSlice) => if s.lotId == lotId then s.quantity else 0
  }

  function TakenFrom(slices: seq<LotSlice>, lotId: nat): int { SumBy(slices, UnitsOf(lotId)) }

  function Clamp(x: int, high: int): int { Max(0, Min(x, high)) }

  ghost predicate DistinctOffers(offers: seq<Offer>) {
    forall i, j :: 0 <= i < j < |offers| ==> offers[i].lotId != offers[j].lotId
  }

  lemma {:induction false} GreedyTotals(offers: seq<Offer>, left: int)
    ensures SumBy(Greedy(offers, left), Units()) + Unmet(offers, left) == left
    ensures Unmet(offers, left) > 0 <==> SumBy(offers, Supply()) < left
    ensures left >= 0 ==> Unmet(offers, left) >= 0
  {
    SumByNonNegative(offers, Supply());
    if offers != [] && left > 0 {
      SumByHead(offers, Supply());
      var take := Min(left, offers[0].available);
      if take <= 0 {
        GreedyTotals(offers[1..], left);
      } else {
        GreedyTotals(offers[1..], left - take);
        SumByNonNegative(offers[1..], Supply());
        SumByConcat([LotSlice(offers[0].lotId, take)], Greedy(offers[1..], left - take), Units());
        SumByHead([LotSlice(offers[0].lotId, take)], Units());
      }
    }
  }

  /** Every slice takes a positive amount from one of the offers, at most what it offers. */
  lemma {:induction false} GreedySlices(offers: seq<Offer>, left: int)
    ensures forall s :: s in Greedy(offers, left) ==>
      exists i :: 0 <= i < |offers| && offers[i].lotId == s.lotId && 0 < s.quantity <= offers[i].available
  {
    if offers != [] && left > 0 {
      var take := Min(left, offers[0].available);
      var next := if take <= 0 then left else left - take;
      GreedySlices(offers[1..], next);
      forall s | s in Greedy(offers, left)
        ensures exists i :: 0 <= i < |offers| && offers[i].lotId == s.lotId && 0 < s.quantity <= offers[i].available
      {
        if s in Greedy(offers[1..], next) {
          var i :| 0 <= i < |offers[1..]| && offers[1..][i].lotId == s.lotId
                   && 0 < s.quantity <= offers[1..][i].available;
          assert offers[i + 1] == offers[1..][i];
        } else {
          assert offers[0].lotId == s.lotId;
        }
      }
    }
  }

  lemma {:induction false} TakenElsewhere(offers: seq<Offer>, left: int, lotId: nat)
    requires forall i :: 0 <= i < |offers| ==> offers[i].lotId != lotId
    ensures TakenFrom(Greedy(offers, left), lotId) == 0
  {
    GreedySlices(offers, left);
    SumByZero(Greedy(offers, left), UnitsOf(lotId));
  }

  /** One step of the walk: the first offer gives what it can, the rest answer for what is left. */
  lemma GreedyStep(offers: seq<Offer>, left: int, lotId: nat)
    requires offers != []
    ensures var first := Clamp(left, Max(0, offers[0].available));
      TakenFrom(Greedy(offers, left), lotId)
        == (if offers[0].lotId == lotId then first else 0) + TakenFrom(Greedy(offers[1..], left - first), lotId)
  {
    var first := Clamp(left, Max(0, offers[0].available));
    if left > 0 && offers[0].available > 0 {
      var head := [LotSlice(offers[0].lotId, first)];
      SumByConcat(head, Greedy(offers[1..], left - first), UnitsOf(lotId));
      SumByHead(head, UnitsOf(lotId));
    }
  }

  /** What the walk takes from an offer, in closed form: whatever the offers ahead of it left over,
      up to what it has. */
  lemma {:induction false} GreedyTakes(offers: seq<Offer>, left: int, i: nat)
    requires i < |offers| && DistinctOffers(offers)
    ensures TakenFrom(Greedy(offers, left), offers[i].lotId)
         == Clamp(left - SumBy(offers[..i], Supply()), Max(0, offers[i].available))
  {
    var id, rest := offers[i].lotId, offers[1..];
    var first := Clamp(left, Max(0, offers[0].available));
    GreedyStep(offers, left, id);
    hide Greedy;
    if i == 0 {
      TakenElsewhere(rest, left - first, id);
    } else {
      assert DistinctOffers(rest) && rest[i - 1] == offers[i];
      GreedyTakes(rest, left - first, i - 1);
      SumByHead(offers[..i], Supply());
      assert offers[..i][1..] == rest[..i - 1];
      SumByNonNegative(rest[..i - 1], Supply());
    }
  }

  function Drained(offers: seq<Offer>, slices: seq<LotSlice>): (r: seq<Offer>)
    ensures |r| == |offers|
    ensures forall i :: 0 <= i < |r| ==>
      r[i] == Offer(offers[i].lotId, offers[i].available - TakenFrom(slices, offers[i].lotId))
  {
    seq(|offers|, i requires 0 <= i < |offers| =>
      Offer(offers[i].lotId, offers[i].available - TakenFrom(slices, offers[i].lotId)))
  }

  lemma DrainedOffer(offers: seq<Offer>, a: int, i: nat)
    requires a >= 0 && i < |offers| && DistinctOffers(offers)
    ensures DrainedBy(offers, Drained(offers, Greedy(offers, a)), a, i)
  {
    GreedyTakes(offers, a, i);
  }

  /** Offer `i` gave what the offers ahead of it left of `a`. */
  ghost predicate DrainedBy(offers: seq<Offer>, after: seq<Offer>, a: int, i: nat)
    requires i < |offers| == |after|
  {
    Supply()(after[i])
      == Supply()(offers[i]) - Clamp(a - SumBy(offers[..i], Supply()), Supply()(offers[i]))
  }

  /** What is still ahead of offer `i` once `a` units were drawn. */
  lemma {:induction false} DrainedPrefix(offers: seq<Offer>, after: seq<Offer>, a: int, i: nat)
    requires a >= 0 && i <= |offers| == |after|
    requires forall j :: 0 <= j < i ==> DrainedBy(offers, after, a, j)
    ensures SumBy(after[..i], Supply()) == SumBy(offers[..i], Supply()) - Min(a, SumBy(offers[..i], Supply()))
  {
    if i > 0 {
      DrainedPrefix(offers, after, a, i - 1);
      assert DrainedBy(offers, after, a, i - 1);
      SumByPrefix(offers, i, Supply());
      SumByPrefix(after, i, Supply());
      SumByNonNegative(offers[..i - 1], Supply());
    }
  }

  /** Taking `a` and then `b` takes from every offer what taking `a + b` at once takes. */
  lemma GreedyInTwoSteps(offers: seq<Offer>, a: int, b: int, i: nat)
    requires a >= 0 && b >= 0 && i < |offers| && DistinctOffers(offers)
    ensures var after := Drained(offers, Greedy(offers, a));
      TakenFrom(Greedy(offers, a), offers[i].lotId) + TakenFrom(Greedy(after, b), offers[i].lotId)
        == TakenFrom(Greedy(offers, a + b), offers[i].lotId)
  {
    hide Greedy;
    var after := Drained(offers, Greedy(offers, a));
    GreedyTakes(offers, a, i);
    GreedyTakes(after, b, i);
    GreedyTakes(offers, a + b, i);
    forall j | 0 <= j < i ensures DrainedBy(offers, after, a, j) { DrainedOffer(offers, a, j); }
    DrainedPrefix(offers, after, a, i);
    SumByNonNegative(offers[..i], Supply());
  }

  // ---------------------------------------------------------------- drawing

  predicate IsOwn(lot: DrawableLot, line: Option<nat>) { line.Some? && lot.madeFor == line }

  predicate Eligible(lot: DrawableLot, line: Option<nat>) { lot.madeFor == None || IsOwn(lot, line) }

  /** FIFO: the older lot first, the id breaking a tie. */
  predicate Older(a: DrawableLot, b: DrawableLot) {
    a.receivedAt < b.receivedAt || (a.receivedAt == b.receivedAt && a.id < b.id)
  }

  function Own(lots: seq<DrawableLot>, line: Option<nat>): seq<DrawableLot> {
    if lots == [] then []
    else
      var last := lots[|lots| - 1];
      Own(lots[..|lots| - 1], line) + if IsOwn(last, line) then [last] else []
  }

  function InsertByAge(lot: DrawableLot, sorted: seq<DrawableLot>): seq<DrawableLot> {
    if sorted == [] || !Older(sorted[0], lot) then [lot] + sorted
    else [sorted[0]] + InsertByAge(lot, sorted[1..])
  }

  /** The lots open to every line, oldest first. */
  function SharedByAge(lots: seq<DrawableLot>): seq<DrawableLot> {
    if lots == [] then []
    else
      var last := lots[|lots| - 1];
      var rest := SharedByAge(lots[..|lots| - 1]);
      if last.madeFor == None then InsertByAge(last, rest) else rest
  }

  function OfferOf(lot: DrawableLot): Offer { Offer(lot.id, lot.remaining) }

  function Offers(lots: seq<DrawableLot>): (r: seq<Offer>)
    ensures |r| == |lots| && forall i :: 0 <= i < |lots| ==> r[i] == OfferOf(lots[i])
  {
    seq(|lots|, i requires 0 <= i < |lots| => OfferOf(lots[i]))
  }

  function DrawOrder(lots: seq<DrawableLot>, line: Option<nat>): seq<DrawableLot> {
    Own(lots, line) + SharedByAge(lots)
  }

  function DrawPlan(lots: seq<DrawableLot>, quantity: int, line: Option<nat>): Option<seq<LotSlice>> {
    Plan(Offers(DrawOrder(lots, line)), quantity)
  }

  ghost predicate DistinctLots(lots: seq<DrawableLot>) {
    forall i, j :: 0 <= i < j < |lots| ==> lots[i].id != lots[j].id
  }

  method PlanDraw(lots: seq<DrawableLot>, quantity: int, line: Option<nat>)
    returns (plan: Option<seq<LotSlice>>)
    ensures plan == DrawPlan(lots, quantity, line)
  {
    var order := DrawOrder(lots, line);
    ghost var all := Offers(order);
    var slices: seq<LotSlice> := [];
    var left := quantity;
    var i := 0;
    while i < |order| && left > 0
      invariant 0 <= i <= |order|
      invariant slices + Greedy(all[i..], left) == Greedy(all, quantity)
      invariant Unmet(all[i..], left) == Unmet(all, quantity)
    {
      var lot := order[i];
      var take := Min(left, lot.remaining);
      assert all[i] == OfferOf(lot) && all[i..][1..] == all[i + 1..];
      if take > 0 {
        assert slices + ([LotSlice(lot.id, take)] + Greedy(all[i + 1..], left - take))
            == slices + [LotSlice(lot.id, take)] + Greedy(all[i + 1..], left - take);
        slices := slices + [LotSlice(lot.id, take)];
        left := left - take;
      }
      i := i + 1;
    }
    assert left <= 0 || all[i..] == [];
    assert Greedy(all[i..], left) == [] && slices + [] == slices;
    plan := if left > 0 then None else Some(slices);
  }

  /** The units drawn before lot `i` is asked, told without sorting: own lots in the order given,
      then shared lots by age. */
  function OwnSupply(line: Option<nat>): DrawableLot -> int {
    (l: DrawableLot) => if IsOwn(l, line) then Max(0, l.remaining) else 0
  }

  function OlderSupply(lot: DrawableLot): DrawableLot -> int {
    (l: DrawableLot) => if l.madeFor == None && Older(l, lot) then Max(0, l.remaining) else 0
  }

  function EligibleSupply(line: Option<nat>): DrawableLot -> int {
    (l: DrawableLot) => if Eligible(l, line) then Max(0, l.remaining) else 0
  }

  function Ahead(lots: seq<DrawableLot>, line: Option<nat>, i: nat): int
    requires i < |lots|
  {
    if IsOwn(lots[i], line) then SumBy(lots[..i], OwnSupply(line))
    else SumBy(lots, OwnSupply(line)) + SumBy(lots, OlderSupply(lots[i]))
  }

  function LotSupply(): DrawableLot -> int { (l: DrawableLot) => Max(0, l.remaining) }

  lemma {:induction false} OffersSum(lots: seq<DrawableLot>, i: nat)
    requires i <= |lots|
    ensures SumBy(Offers(lots)[..i], Supply()) == SumBy(lots[..i], LotSupply())
  {
    if i > 0 {
      OffersSum(lots, i - 1);
      SumByPrefix(lots, i, LotSupply());
      SumByPrefix(Offers(lots), i, Supply());
    }
  }

  /** A lot made for the line is asked after the own lots listed before it, and after nothing else. */
  lemma {:induction false} OwnAt(lots: seq<DrawableLot>, line: Option<nat>, i: nat)
    requires i < |lots| && IsOwn(lots[i], line)
    ensures Own(lots[..i], line) + [lots[i]] <= Own(lots, line)
  {
    var front := lots[..|lots| - 1];
    if i < |front| {
      OwnAt(front, line, i);
      assert front[..i] == lots[..i];
    }
  }

  lemma {:induction false} OwnSum(lots: seq<DrawableLot>, line: Option<nat>)
    ensures SumBy(Own(lots, line), LotSupply()) == SumBy(lots, OwnSupply(line))
    ensures forall l :: l in Own(lots, line) <==> l in lots && IsOwn(l, line)
  {
    if lots != [] {
      var front, last := lots[..|lots| - 1], lots[|lots| - 1];
      OwnSum(front, line);
      assert lots == front + [last];
      if IsOwn(last, line) {
        SumByAppend(Own(front, line), last, LotSupply());
      } else {
        assert Own(lots, line) == Own(front, line);
      }
    }
  }

  lemma {:induction false} InsertKeeps(lot: DrawableLot, s: seq<DrawableLot>, f: DrawableLot -> int)
    ensures SumBy(InsertByAge(lot, s), f) == SumBy(s, f) + f(lot)
    ensures forall l :: l in InsertByAge(lot, s) <==> l == lot || l in s
    ensures |InsertByAge(lot, s)| == |s| + 1
  {
    var r := InsertByAge(lot, s);
    SumByHead(r, f);
    if s == [] || !Older(s[0], lot) {
      assert r[1..] == s;
    } else {
      InsertKeeps(lot, s[1..], f);
      SumByHead(s, f);
      assert r[1..] == InsertByAge(lot, s[1..]);
      assert s == [s[0]] + s[1..];
    }
  }

  ghost predicate ByAge(s: seq<DrawableLot>) {
    forall i, j :: 0 <= i < j < |s| ==> Older(s[i], s[j])
  }

  lemma {:induction false} InsertStaysByAge(lot: DrawableLot, s: seq<DrawableLot>)
    requires ByAge(s) && forall l :: l in s ==> l.id != lot.id
    ensures ByAge(InsertByAge(lot, s))
  {
    if s != [] && Older(s[0], lot) {
      assert forall i, j :: 0 <= i < j < |s[1..]| ==> s[1..][i] == s[i + 1] && s[1..][j] == s[j + 1];
      InsertStaysByAge(lot, s[1..]);
      InsertKeeps(lot, s[1..], LotSupply());
      var rest := InsertByAge(lot, s[1..]);
      forall j | 0 <= j < |rest| ensures Older(s[0], rest[j]) { assert rest[j] in rest; }
    }
  }

  function OfShared(f: DrawableLot -> int): DrawableLot -> int {
    (l: DrawableLot) => if l.madeFor == None then f(l) else 0
  }

  /** The shared lots in age order are exactly the lots open to everybody. */
  lemma {:induction false} SharedSum(lots: seq<DrawableLot>, f: DrawableLot -> int)
    ensures SumBy(SharedByAge(lots), f) == SumBy(lots, OfShared(f))
    ensures forall l :: l in SharedByAge(lots) <==> l in lots && l.madeFor == None
  {
    if lots != [] {
      var front, last := lots[..|lots| - 1], lots[|lots| - 1];
      SharedSum(front, f);
      assert lots == front + [last];
      if last.madeFor == None { InsertKeeps(last, SharedByAge(front), f); }
    }
  }

  lemma {:induction false} SharedStaysByAge(lots: seq<DrawableLot>)
    requires DistinctLots(lots)
    ensures ByAge(SharedByAge(lots))
  {
    if lots != [] {
      var front, last := lots[..|lots| - 1], lots[|lots| - 1];
      SharedStaysByAge(front);
      SharedSum(front, LotSupply());
      if last.madeFor == None { InsertStaysByAge(last, SharedByAge(front)); }
    }
  }

  function IfOlder(lot: DrawableLot): DrawableLot -> int {
    (l: DrawableLot) => if Older(l, lot) then Max(0, l.remaining) else 0
  }

  lemma OlderIsStrict(a: DrawableLot, b: DrawableLot)
    ensures !Older(a, b) || !Older(b, a)
    ensures !Older(a, a)
  {}

  /** In age order, the lots standing before a lot are the older ones. */
  lemma AgePrefix(s: seq<DrawableLot>, p: nat)
    requires ByAge(s) && p < |s|
    ensures SumBy(s[..p], LotSupply()) == SumBy(s, IfOlder(s[p]))
  {
    hide Older;
    var f := IfOlder(s[p]);
    assert s == s[..p] + s[p..];
    SumByConcat(s[..p], s[p..], f);
    forall l | l in s[..p] ensures LotSupply()(l) == f(l) {
      var i :| 0 <= i < p && s[i] == l;
      assert Older(s[i], s[p]);
    }
    SumBySame(s[..p], LotSupply(), f);
    forall l | l in s[p..] ensures f(l) == 0 {
      var i :| p <= i < |s| && s[i] == l;
      assert i == p || Older(s[p], s[i]);
      OlderIsStrict(s[p], s[i]);
    }
    SumByZero(s[p..], f);
  }

  /** Where lot `i` stands in the draw order, and how many units stand before it. */
  lemma PlaceInOrder(lots: seq<DrawableLot>, line: Option<nat>, i: nat) returns (p: nat)
    requires i < |lots| && DistinctLots(lots) && Eligible(lots[i], line)
    ensures p < |DrawOrder(lots, line)| && DrawOrder(lots, line)[p] == lots[i]
    ensures SumBy(DrawOrder(lots, line)[..p], LotSupply()) == Ahead(lots, line, i)
  {
    hide Own, SharedByAge, ByAge, SumBy;
    var own, shared := Own(lots, line), SharedByAge(lots);
    OwnSum(lots, line);
    if IsOwn(lots[i], line) {
      OwnAt(lots, line, i);
      OwnSum(lots[..i], line);
      p := |Own(lots[..i], line)|;
      assert own[p] == lots[i];
      assert DrawOrder(lots, line)[..p] == Own(lots[..i], line);
    } else {
      SharedSum(lots, IfOlder(lots[i]));
      SharedStaysByAge(lots);
      assert lots[i] in shared;
      var q :| 0 <= q < |shared| && shared[q] == lots[i];
      p := |own| + q;
      assert DrawOrder(lots, line)[..p] == own + shared[..q];
      SumByConcat(own, shared[..q], LotSupply());
      AgePrefix(shared, q);
      SumBySame(lots, OfShared(IfOlder(lots[i])), OlderSupply(lots[i]));
    }
  }

  lemma OrderHasDistinctOffers(lots: seq<DrawableLot>, line: Option<nat>)
    requires DistinctLots(lots)
    ensures DistinctOffers(Offers(DrawOrder(lots, line)))
  {
    OwnSum(lots, line);
    SharedSum(lots, LotSupply());
    SharedStaysByAge(lots);
    OwnDistinct(lots, line);
    AgeDistinct(lots, SharedByAge(lots));
    var own, shared := Own(lots, line), SharedByAge(lots);
    forall i, j | 0 <= i < |own| && 0 <= j < |shared| ensures own[i].id != shared[j].id {
      assert own[i] in own && shared[j] in shared;
      SameIdSameLot(lots, own[i], shared[j]);
    }
  }

  lemma SameIdSameLot(lots: seq<DrawableLot>, a: DrawableLot, b: DrawableLot)
    requires DistinctLots(lots) && a in lots && b in lots
    ensures a.id == b.id ==> a == b
  {
    var x :| 0 <= x < |lots| && lots[x] == a;
    var y :| 0 <= y < |lots| && lots[y] == b;
  }

  lemma AgeDistinct(lots: seq<DrawableLot>, s: seq<DrawableLot>)
    requires DistinctLots(lots) && ByAge(s) && forall l :: l in s ==> l in lots
    ensures DistinctLots(s)
  {
    forall i, j | 0 <= i < j < |s| ensures s[i].id != s[j].id {
      assert s[i] in s && s[j] in s;
      SameIdSameLot(lots, s[i], s[j]);
      assert Older(s[i], s[j]);
    }
  }

  lemma {:induction false} OwnDistinct(lots: seq<DrawableLot>, line: Option<nat>)
    requires DistinctLots(lots)
    ensures DistinctLots(Own(lots, line))
  {
    if lots != [] {
      var front, last := lots[..|lots| - 1], lots[|lots| - 1];
      OwnDistinct(front, line);
      OwnSum(front, line);
      forall l | l in Own(front, line) ensures l.id != last.id {
        var i :| 0 <= i < |front| && front[i] == l;
      }
      if IsOwn(last, line) {
        assert forall i :: 0 <= i < |Own(front, line)| ==> Own(front, line)[i] in Own(front, line);
      } else {
        assert Own(lots, line) == Own(front, line);
      }
    }
  }

  /** The order asks exactly the lots the line may draw. */
  lemma OrderSupply(lots: seq<DrawableLot>, line: Option<nat>)
    ensures SumBy(Offers(DrawOrder(lots, line)), Supply()) == SumBy(lots, EligibleSupply(line))
  {
    var order := DrawOrder(lots, line);
    OffersSum(order, |order|);
    assert Offers(order)[..|order|] == Offers(order) && order[..|order|] == order;
    SumByConcat(Own(lots, line), SharedByAge(lots), LotSupply());
    OwnSum(lots, line);
    SharedSum(lots, LotSupply());
    SumByAdd(lots, OwnSupply(line), OfShared(LotSupply()), EligibleSupply(line));
  }

  /** What the plan takes from lot `i`. */
  function Share(lots: seq<DrawableLot>, quantity: int, line: Option<nat>, i: nat): int
    requires i < |lots|
  {
    if Eligible(lots[i], line) then Clamp(quantity - Ahead(lots, line, i), Max(0, lots[i].remaining)) else 0
  }

  lemma PlanTakes(lots: seq<DrawableLot>, quantity: int, line: Option<nat>, i: nat)
    requires DistinctLots(lots) && i < |lots|
    ensures TakenFrom(Greedy(Offers(DrawOrder(lots, line)), quantity), lots[i].id) == Share(lots, quantity, line, i)
  {
    var order := DrawOrder(lots, line);
    if Eligible(lots[i], line) {
      var p := PlaceInOrder(lots, line, i);
      OrderHasDistinctOffers(lots, line);
      GreedyTakes(Offers(order), quantity, p);
      OffersSum(order, p);
    } else {
      OwnSum(lots, line);
      SharedSum(lots, LotSupply());
      forall p | 0 <= p < |order| ensures Offers(order)[p].lotId != lots[i].id {
        assert order[p] in order;
        var x :| 0 <= x < |lots| && lots[x] == order[p];
        assert x != i;
      }
      TakenElsewhere(Offers(order), quantity, lots[i].id);
    }
  }

  /** Main result on draws. The plan exists exactly when the lots the line may draw hold the
      quantity; it then takes exactly that quantity, and from lot `i` exactly what the lots ahead of
      it (own lots first, then shared ones by age) left over - nothing from another line's lot. */
  lemma DrawPlanMeaning(lots: seq<DrawableLot>, quantity: int, line: Option<nat>)
    requires DistinctLots(lots)
    ensures DrawPlan(lots, quantity, line) == None <==> SumBy(lots, EligibleSupply(line)) < quantity
    ensures DrawPlan(lots, quantity, line).Some? && quantity >= 0 ==>
      SumBy(DrawPlan(lots, quantity, line).value, Units()) == quantity
    ensures DrawPlan(lots, quantity, line).Some? ==> forall i :: 0 <= i < |lots| ==>
      TakenFrom(DrawPlan(lots, quantity, line).value, lots[i].id) == Share(lots, quantity, line, i)
  {
    GreedyTotals(Offers(DrawOrder(lots, line)), quantity);
    OrderSupply(lots, line);
    forall i | 0 <= i < |lots|
      ensures TakenFrom(Greedy(Offers(DrawOrder(lots, line)), quantity), lots[i].id) == Share(lots, quantity, line, i)
    {
      PlanTakes(lots, quantity, line, i);
    }
  }

  /** Each slice of a plan is a positive part of one eligible lot. */
  lemma DrawPlanSlices(lots: seq<DrawableLot>, quantity: int, line: Option<nat>)
    requires DrawPlan(lots, quantity, line).Some?
    ensures forall s :: s in DrawPlan(lots, quantity, line).value ==>
      exists l :: l in lots && l.id == s.lotId && Eligible(l, line) && 0 < s.quantity <= l.remaining
  {
    var order := DrawOrder(lots, line);
    GreedySlices(Offers(order), quantity);
    OwnSum(lots, line);
    SharedSum(lots, LotSupply());
    forall s | s in DrawPlan(lots, quantity, line).value
      ensures exists l :: l in lots && l.id == s.lotId && Eligible(l, line) && 0 < s.quantity <= l.remaining
    {
      var i :| 0 <= i < |order| && Offers(order)[i].lotId == s.lotId && 0 < s.quantity <= Offers(order)[i].available;
      assert order[i] in order;
      assert order[i] in lots && Eligible(order[i], line);
    }
  }

  /** FIFO: a shared lot gives something only when every older shared lot, and every lot made for
      the line, is empty. */
  lemma OldestFirst(lots: seq<DrawableLot>, quantity: int, line: Option<nat>, i: nat, j: nat)
    requires DistinctLots(lots) && i < |lots| && j < |lots|
    requires DrawPlan(lots, quantity, line).Some? && lots[i].remaining >= 0
    requires lots[j].madeFor == None && TakenFrom(DrawPlan(lots, quantity, line).value, lots[j].id) > 0
    requires IsOwn(lots[i], line) || (lots[i].madeFor == None && Older(lots[i], lots[j]))
    ensures TakenFrom(DrawPlan(lots, quantity, line).value, lots[i].id) == lots[i].remaining
  {
    DrawPlanMeaning(lots, quantity, line);
    SumByNonNegative(lots, OlderSupply(lots[j]));
    SumByNonNegative(lots, OwnSupply(line));
    if IsOwn(lots[i], line) {
      assert lots == lots[..i] + lots[i..];
      SumByConcat(lots[..i], lots[i..], OwnSupply(line));
      SumByCovers(lots[i..], OwnSupply(line), 0);
    } else {
      var older := (l: DrawableLot) =>
        if l.madeFor == None && Older(l, lots[j]) && !Older(l, lots[i]) then Max(0, l.remaining) else 0;
      SumByAdd(lots, OlderSupply(lots[i]), older, OlderSupply(lots[j]));
      SumByCovers(lots, older, i);
    }
  }

  // ---------------------------------------------------------------- two draws in a row

  function DrainLot(lot: DrawableLot, slices: seq<LotSlice>): DrawableLot {
    lot.(remaining := lot.remaining - TakenFrom(slices, lot.id))
  }

  function DrainLots(lots: seq<DrawableLot>, slices: seq<LotSlice>): (r: seq<DrawableLot>)
    ensures |r| == |lots| && forall i :: 0 <= i < |lots| ==> r[i] == DrainLot(lots[i], slices)
  {
    seq(|lots|, i requires 0 <= i < |lots| => DrainLot(lots[i], slices))
  }

  lemma {:induction false} OwnDrains(lots: seq<DrawableLot>, line: Option<nat>, slices: seq<LotSlice>)
    ensures Own(DrainLots(lots, slices), line) == DrainLots(Own(lots, line), slices)
  {
    if lots != [] {
      OwnDrains(lots[..|lots| - 1], line, slices);
      assert DrainLots(lots, slices)[..|lots| - 1] == DrainLots(lots[..|lots| - 1], slices);
    }
  }

  lemma {:induction false} InsertDrains(lot: DrawableLot, s: seq<DrawableLot>, slices: seq<LotSlice>)
    ensures InsertByAge(DrainLot(lot, slices), DrainLots(s, slices)) == DrainLots(InsertByAge(lot, s), slices)
  {
    if s != [] && Older(s[0], lot) {
      InsertDrains(lot, s[1..], slices);
      assert DrainLots(s, slices)[1..] == DrainLots(s[1..], slices);
    }
  }

  lemma {:induction false} SharedDrains(lots: seq<DrawableLot>, slices: seq<LotSlice>)
    ensures SharedByAge(DrainLots(lots, slices)) == DrainLots(SharedByAge(lots), slices)
  {
    if lots != [] {
      var front, last := lots[..|lots| - 1], lots[|lots| - 1];
      SharedDrains(front, slices);
      assert DrainLots(lots, slices)[..|lots| - 1] == DrainLots(front, slices);
      InsertDrains(last, SharedByAge(front), slices);
    }
  }

  lemma OrderDrains(lots: seq<DrawableLot>, line: Option<nat>, slices: seq<LotSlice>)
    ensures Offers(DrawOrder(DrainLots(lots, slices), line)) == Drained(Offers(DrawOrder(lots, line)), slices)
  {
    OwnDrains(lots, line, slices);
    SharedDrains(lots, slices);
    assert DrawOrder(DrainLots(lots, slices), line) == DrainLots(DrawOrder(lots, line), slices);
  }

  lemma TwoStepsPerLot(lots: seq<DrawableLot>, line: Option<nat>, a: int, b: int, i: nat)
    requires DistinctLots(lots) && a >= 0 && b >= 0 && i < |lots|
    ensures var offers := Offers(DrawOrder(lots, line));
      var first := Greedy(offers, a);
      TakenFrom(first, lots[i].id) + TakenFrom(Greedy(Drained(offers, first), b), lots[i].id)
        == TakenFrom(Greedy(offers, a + b), lots[i].id)
  {
    var offers := Offers(DrawOrder(lots, line));
    var first := Greedy(offers, a);
    OrderHasDistinctOffers(lots, line);
    if Eligible(lots[i], line) {
      var p := PlaceInOrder(lots, line, i);
      GreedyInTwoSteps(offers, a, b, p);
    } else {
      PlanTakes(lots, a, line, i);
      PlanTakes(lots, a + b, line, i);
      OrderDrains(lots, line, first);
      PlanTakes(DrainLots(lots, first), b, line, i);
    }
  }

  lemma TwoStepsSucceed(offers: seq<Offer>, a: int, b: int)
    requires DistinctOffers(offers) && a >= 0 && b >= 0
    ensures Unmet(offers, a + b) > 0 <==> Unmet(offers, a) > 0 || Unmet(Drained(offers, Greedy(offers, a)), b) > 0
  {
    var after := Drained(offers, Greedy(offers, a));
    GreedyTotals(offers, a);
    GreedyTotals(offers, a + b);
    GreedyTotals(after, b);
    forall j | 0 <= j < |offers| ensures DrainedBy(offers, after, a, j) { DrainedOffer(offers, a, j); }
    DrainedPrefix(offers, after, a, |offers|);
    assert after[..|offers|] == after && offers[..|offers|] == offers;
  }

  /** Drawing `a` and then `b` succeeds exactly when drawing `a + b` does, and leaves the same lots. */
  lemma DrawInTwoSteps(lots: seq<DrawableLot>, line: Option<nat>, a: int, b: int)
    requires DistinctLots(lots) && a >= 0 && b >= 0
    ensures DrawPlan(lots, a + b, line).Some? <==>
      DrawPlan(lots, a, line).Some?
      && DrawPlan(DrainLots(lots, DrawPlan(lots, a, line).value), b, line).Some?
    ensures DrawPlan(lots, a + b, line).Some? ==>
      var first := DrawPlan(lots, a, line).value;
      var second := DrawPlan(DrainLots(lots, first), b, line).value;
      DrainLots(DrainLots(lots, first), second) == DrainLots(lots, DrawPlan(lots, a + b, line).value)
  {
    var offers := Offers(DrawOrder(lots, line));
    OrderHasDistinctOffers(lots, line);
    OrderDrains(lots, line, Greedy(offers, a));
    TwoStepsSucceed(offers, a, b);
    forall i | 0 <= i < |lots|
      ensures TakenFrom(Greedy(offers, a), lots[i].id) + TakenFrom(Greedy(Drained(offers, Greedy(offers, a)), b), lots[i].id)
        == TakenFrom(Greedy(offers, a + b), lots[i].id)
    {
      TwoStepsPerLot(lots, line, a, b, i);
    }
  }

  // ---------------------------------------------------------------- empty lots do not matter

  function Stocked(lots: seq<DrawableLot>): seq<DrawableLot> {
    if lots == [] then []
    else
      var last := lots[|lots| - 1];
      Stocked(lots[..|lots| - 1]) + if last.remaining > 0 then [last] else []
  }

  lemma {:induction false} StockedConcat(a: seq<DrawableLot>, b: seq<DrawableLot>)
    ensures Stocked(a + b) == Stocked(a) + Stocked(b)
  {
    if b == [] {
      assert a + b == a && Stocked(a) + [] == Stocked(a);
    } else {
      assert (a + b)[..|a + b| - 1] == a + b[..|b| - 1];
      StockedConcat(a, b[..|b| - 1]);
    }
  }

  lemma StockedOne(lot: DrawableLot)
    ensures Stocked([lot]) == if lot.remaining > 0 then [lot] else []
  {
    assert [lot][..0] == [];
  }

  lemma StockedHead(lots: seq<DrawableLot>)
    requires lots != []
    ensures Stocked(lots) == if lots[0].remaining > 0 then [lots[0]] + Stocked(lots[1..]) else Stocked(lots[1..])
  {
    assert lots == [lots[0]] + lots[1..];
    StockedConcat([lots[0]], lots[1..]);
    StockedOne(lots[0]);
    hide Stocked;
  }

  lemma {:induction false} StockedOwn(lots: seq<DrawableLot>, line: Option<nat>)
    ensures Own(Stocked(lots), line) == Stocked(Own(lots, line))
  {
    if lots != [] {
      var front, last := lots[..|lots| - 1], lots[|lots| - 1];
      StockedOwn(front, line);
      assert Stocked(front) + [] == Stocked(front) && Own(front, line) + [] == Own(front, line);
      assert (Stocked(front) + [last])[..|Stocked(front)|] == Stocked(front);
      StockedConcat(Own(front, line), if IsOwn(last, line) then [last] else []);
      assert Stocked([last]) == if last.remaining > 0 then [last] else [];
    }
  }

  lemma {:induction false} StockedMembers(lots: seq<DrawableLot>)
    ensures forall l :: l in Stocked(lots) <==> l in lots && l.remaining > 0
  {
    if lots != [] {
      StockedMembers(lots[..|lots| - 1]);
      assert lots == lots[..|lots| - 1] + [lots[|lots| - 1]];
    }
  }

  /** A lot older than the first one kept goes in front of it. */
  lemma StockedFirst(lot: DrawableLot, s: seq<DrawableLot>)
    requires ByAge(s) && s != [] && !Older(s[0], lot)
    ensures InsertByAge(lot, Stocked(s)) == [lot] + Stocked(s)
  {
    StockedMembers(s);
    var kept := Stocked(s);
    if kept != [] {
      assert kept[0] in kept;
      var i :| 0 <= i < |s| && s[i] == kept[0];
      assert i == 0 || Older(s[0], s[i]);
    }
  }

  lemma {:induction false} StockedInsert(lot: DrawableLot, s: seq<DrawableLot>)
    requires ByAge(s)
    ensures Stocked(InsertByAge(lot, s)) == if lot.remaining > 0 then InsertByAge(lot, Stocked(s)) else Stocked(s)
  {
    var r := InsertByAge(lot, s);
    StockedHead(r);
    if s == [] {
      assert r[1..] == s;
    } else if Older(s[0], lot) {
      assert ByAge(s[1..]);
      StockedInsert(lot, s[1..]);
      StockedHead(s);
      assert r[1..] == InsertByAge(lot, s[1..]);
      if s[0].remaining > 0 { assert Stocked(s)[1..] == Stocked(s[1..]); }
    } else {
      assert r[1..] == s;
      StockedFirst(lot, s);
    }
  }

  lemma {:induction false} StockedShared(lots: seq<DrawableLot>)
    requires DistinctLots(lots)
    ensures SharedByAge(Stocked(lots)) == Stocked(SharedByAge(lots))
  {
    if lots != [] {
      var front, last := lots[..|lots| - 1], lots[|lots| - 1];
      StockedShared(front);
      SharedStaysByAge(front);
      StockedInsert(last, SharedByAge(front));
      assert Stocked(front) + [] == Stocked(front);
      assert (Stocked(front) + [last])[..|Stocked(front)|] == Stocked(front);
    }
  }

  lemma StockedEmpty()
    ensures Stocked([]) == []
  {}

  lemma {:induction false} GreedySkipsEmpty(lots: seq<DrawableLot>, left: int)
    ensures Greedy(Offers(Stocked(lots)), left) == Greedy(Offers(lots), left)
  {
    hide Stocked, Offers;
    if lots == [] {
      StockedEmpty();
    } else if left > 0 {
      StockedHead(lots);
      assert Offers(lots)[1..] == Offers(lots[1..]);
      var take := Min(left, lots[0].remaining);
      if take <= 0 {
        GreedySkipsEmpty(lots[1..], left);
      } else {
        GreedySkipsEmpty(lots[1..], left - take);
        var kept := Offers(Stocked(lots));
        assert kept[0] == OfferOf(lots[0]) && kept[1..] == Offers(Stocked(lots[1..]));
      }
    }
  }

  lemma {:induction false} UnmetSkipsEmpty(lots: seq<DrawableLot>, left: int)
    ensures Unmet(Offers(Stocked(lots)), left) == Unmet(Offers(lots), left)
  {
    hide Stocked, Offers;
    if lots == [] {
      StockedEmpty();
    } else if left > 0 {
      StockedHead(lots);
      assert Offers(lots)[1..] == Offers(lots[1..]);
      var take := Min(left, lots[0].remaining);
      if take <= 0 {
        UnmetSkipsEmpty(lots[1..], left);
      } else {
        UnmetSkipsEmpty(lots[1..], left - take);
        var kept := Offers(Stocked(lots));
        assert kept[0] == OfferOf(lots[0]) && kept[1..] == Offers(Stocked(lots[1..]));
      }
    }
  }

  /** Leaving the empty lots out of the query, as the service does, changes no plan. */
  lemma EmptyLotsDoNotMatter(lots: seq<DrawableLot>, quantity: int, line: Option<nat>)
    requires DistinctLots(lots)
    ensures DrawPlan(Stocked(lots), quantity, line) == DrawPlan(lots, quantity, line)
  {
    StockedOwn(lots, line);
    StockedShared(lots);
    StockedConcat(Own(lots, line), SharedByAge(lots));
    GreedySkipsEmpty(DrawOrder(lots, line), quantity);
    UnmetSkipsEmpty(DrawOrder(lots, line), quantity);
  }

  // ---------------------------------------------------------------- returning

  function ReturnOffers(lots: seq<DrawnLot>): (r: seq<Offer>)
    ensures |r| == |lots|
    ensures forall i :: 0 <= i < |lots| ==> r[i] == Offer(lots[i].lotId, lots[i].drawn - lots[i].returned)
  {
    seq(|lots|, i requires 0 <= i < |lots| => Offer(lots[i].lotId, lots[i].drawn - lots[i].returned))
  }

  function ReturnPlan(lots: seq<DrawnLot>, quantity: int): Option<seq<LotSlice>> {
    Plan(ReturnOffers(lots), quantity)
  }

  method PlanReturn(lots: seq<DrawnLot>, quantity: int) returns (plan: Option<seq<LotSlice>>)
    ensures plan == ReturnPlan(lots, quantity)
  {
    ghost var all := ReturnOffers(lots);
    var slices: seq<LotSlice> := [];
    var left := quantity;
    var i := 0;
    while i < |lots| && left > 0
      invariant 0 <= i <= |lots|
      invariant slices + Greedy(all[i..], left) == Greedy(all, quantity)
      invariant Unmet(all[i..], left) == Unmet(all, quantity)
    {
      var lot := lots[i];
      var take := Min(left, lot.drawn - lot.returned);
      assert all[i..][1..] == all[i + 1..];
      if take > 0 {
        assert slices + ([LotSlice(lot.lotId, take)] + Greedy(all[i + 1..], left - take))
            == slices + [LotSlice(lot.lotId, take)] + Greedy(all[i + 1..], left - take);
        slices := slices + [LotSlice(lot.lotId, take)];
        left := left - take;
      }
      i := i + 1;
    }
    assert left <= 0 || all[i..] == [];
    assert Greedy(all[i..], left) == [] && slices + [] == slices;
    plan := if left > 0 then None else Some(slices);
  }

  /** What a lot gave a document and did not get back. */
  function OwedUnits(): DrawnLot -> int { (l: DrawnLot) => Max(0, l.drawn - l.returned) }

  lemma {:induction false} ReturnSupply(lots: seq<DrawnLot>)
    ensures SumBy(ReturnOffers(lots), Supply()) == SumBy(lots, OwedUnits())
  {
    if lots != [] {
      var n := |lots| - 1;
      assert ReturnOffers(lots)[..n] == ReturnOffers(lots[..n]);
      ReturnSupply(lots[..n]);
    }
  }

  /** What a return plan means. There is none exactly when fewer units are out than come back; otherwise
      it brings back exactly what was asked, in the order the lots are given: each lot gets what those
      ahead of it left, up to what it still has out, and no lot gets more. */
  lemma ReturnPlanMeaning(lots: seq<DrawnLot>, quantity: int)
    requires forall i, j :: 0 <= i < j < |lots| ==> lots[i].lotId != lots[j].lotId
    ensures ReturnPlan(lots, quantity) == None <==> SumBy(lots, OwedUnits()) < quantity
    ensures ReturnPlan(lots, quantity).Some? && quantity >= 0 ==> SumBy(ReturnPlan(lots, quantity).value, Units()) == quantity
    ensures ReturnPlan(lots, quantity).Some? ==> forall i :: 0 <= i < |lots| ==>
      TakenFrom(ReturnPlan(lots, quantity).value, lots[i].lotId)
        == Clamp(quantity - SumBy(lots[..i], OwedUnits()), OwedUnits()(lots[i]))
    ensures ReturnPlan(lots, quantity).Some? ==> forall s :: s in ReturnPlan(lots, quantity).value ==>
      exists l :: l in lots && l.lotId == s.lotId && 0 < s.quantity <= l.drawn - l.returned
  {
    hide Greedy, Unmet;
    var offers := ReturnOffers(lots);
    GreedyTotals(offers, quantity);
    ReturnSupply(lots);
    forall i | 0 <= i < |lots|
      ensures TakenFrom(Greedy(offers, quantity), lots[i].lotId)
           == Clamp(quantity - SumBy(lots[..i], OwedUnits()), OwedUnits()(lots[i]))
    {
      GreedyTakes(offers, quantity, i);
      assert offers[..i] == ReturnOffers(lots[..i]);
      ReturnSupply(lots[..i]);
    }
    GreedySlices(offers, quantity);
    forall s | s in Greedy(offers, quantity)
      ensures exists l :: l in lots && l.lotId == s.lotId && 0 < s.quantity <= l.drawn - l.returned
    {
      var i :| 0 <= i < |offers| && offers[i].lotId == s.lotId && 0 < s.quantity <= offers[i].available;
      assert lots[i] in lots;
    }
  }

  // ---------------------------------------------------------------- balances and cost

  function Itself(): int -> int { (x: int) => x }

  /** The level after each part, from the level before the whole movement. */
  method RunningBalances(before: int, signed: seq<int>) returns (balances: seq<int>)
    ensures |balances| == |signed|
    ensures forall j :: 0 <= j < |signed| ==> balances[j] == before + SumBy(signed[..j + 1], Itself())
  {
    balances := [];
    var balance := before;
    for i := 0 to |signed|
      invariant |balances| == i
      invariant balance == before + SumBy(signed[..i], Itself())
      invariant forall j :: 0 <= j < i ==> balances[j] == before + SumBy(signed[..j + 1], Itself())
    {
      SumByPrefix(signed, i + 1, Itself());
      balance := balance + signed[i];
      balances := balances + [balance];
    }
  }

  datatype CostRow = CostRow(quantity: int, unitCost: int)

  function UnitsOut(): CostRow -> int { (r: CostRow) => -r.quantity }

  function CostOut(): CostRow -> int { (r: CostRow) => -(r.quantity * r.unitCost) }

  /** JavaScript's Math.round of `numerator / denominator`: a half goes up. */
  function RoundDiv(numerator: int, denominator: int): int
    requires denominator > 0
  {
    (2 * numerator + denominator) / (2 * denominator)
  }

  function AverageCost(rows: seq<CostRow>): Option<int> {
    var units := SumBy(rows, UnitsOut());
    if units > 0 then Some(RoundDiv(SumBy(rows, CostOut()), units)) else None
  }

  /** Money in xu, so rounding to two decimals is rounding to a whole xu. */
  method AverageUnitCost(rows: seq<CostRow>) returns (cost: Option<int>)
    ensures cost == AverageCost(rows)
  {
    var units, total := 0, 0;
    for i := 0 to |rows|
      invariant units == SumBy(rows[..i], UnitsOut())
      invariant total == SumBy(rows[..i], CostOut())
    {
      SumByPrefix(rows, i + 1, UnitsOut());
      SumByPrefix(rows, i + 1, CostOut());
      units := units - rows[i].quantity;
      total := total - rows[i].quantity * rows[i].unitCost;
    }
    assert rows[..|rows|] == rows;
    cost := if units > 0 then Some(RoundDiv(total, units)) else None;
  }
}
