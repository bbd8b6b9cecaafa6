/** No lot ever holds more than it received, in any run whose callers name their documents the way
    the order, return and transfer services do. */
module LotBounds {
  import opened Common
  import opened LotAllocation
  import opened StockLedger
  import opened StockOperations
  import opened StockInvariants
  import opened ReturnTrail

  /** Every row belongs to one document: the order line it names, or else its reference. */
  function DocumentOf(cause: LedgerRef): Document {
    if cause.line.Some? then ByLine(cause.line.value) else ByReference(cause.refType, cause.refId)
  }

  /** References whose rows name an order line: sales and customer returns. */
  predicate ForLines(refType: RefType) { refType == Order || refType == OrderReturn || refType == Fulfillment }

  predicate ProperCause(cause: LedgerRef) { cause.line.Some? ==> ForLines(cause.refType) }

  predicate ProperDocument(doc: Document) { doc.ByReference? ==> !ForLines(doc.refType) }

  /** Sales and customer returns are followed by order line, transfers by their own reference, and
      what a return writes belongs to the document it brings goods back for. */
  predicate Proper(c: Call) {
    && (CauseOf(c).Some? ==> ProperCause(CauseOf(c).value))
    && (c.CallReturn? ==> ProperDocument(c.ret.drawnBy) && DocumentOf(ReturnCause(c.ret)) == c.ret.drawnBy)
  }

  /** Where a lot's first row stands. */
  function Birth(ledger: seq<Entry>, lot: nat): nat {
    if ledger == [] then 0
    else
      var n := |ledger| - 1;
      var p := Birth(ledger[..n], lot);
      if p < n then p else if ledger[n].lot == lot then n else n + 1
  }

  lemma {:induction false} BirthIsFirst(ledger: seq<Entry>, lot: nat)
    ensures Birth(ledger, lot) <= |ledger|
    ensures Birth(ledger, lot) < |ledger| ==> ledger[Birth(ledger, lot)].lot == lot
    ensures forall j :: 0 <= j < Birth(ledger, lot) ==> ledger[j].lot != lot
  {
    if ledger != [] {
      var n := |ledger| - 1;
      BirthIsFirst(ledger[..n], lot);
      assert forall j :: 0 <= j < n ==> ledger[..n][j] == ledger[j];
    }
  }

  /** Units that left a lot for documents outside `docs`, net of what came back for them. */
  function NetOut(lot: nat, docs: set<Document>): Entry -> int {
    (e: Entry) => if e.lot == lot && DocumentOf(e.cause) !in docs then -e.quantity else 0
  }

  function NetOutBy(lot: nat, doc: Document): Entry -> int {
    (e: Entry) => if e.lot == lot && DocumentOf(e.cause) == doc then -e.quantity else 0
  }

  function AfterBirth(s: State, lot: nat): seq<Entry> {
    var b := Birth(s.ledger, lot);
    if b < |s.ledger| then s.ledger[b + 1..] else []
  }

  /** The lot's first row is its receipt, and no set of documents put back more than it took. */
  ghost predicate Flows(s: State, lot: nat)
    requires lot < |s.lots|
  {
    && Birth(s.ledger, lot) < |s.ledger|
    && s.ledger[Birth(s.ledger, lot)].quantity == s.lots[lot].received >= 0
    && forall docs: set<Document> :: SumBy(AfterBirth(s, lot), NetOut(lot, docs)) >= 0
  }

  ghost predicate AllFlow(s: State) {
    && (forall lot :: 0 <= lot < |s.lots| ==> Flows(s, lot))
    && (forall j :: 0 <= j < |s.ledger| ==> ProperCause(s.ledger[j].cause))
  }

  /** What a document still owes a lot. */
  function Owed(s: State, lot: nat, doc: Document): int { SumBy(AfterBirth(s, lot), NetOutBy(lot, doc)) }

  lemma AfterBirthAppend(s: State, t: State, e: Entry, lot: nat)
    requires t.ledger == s.ledger + [e] && Birth(s.ledger, lot) < |s.ledger|
    ensures Birth(t.ledger, lot) == Birth(s.ledger, lot)
    ensures AfterBirth(t, lot) == AfterBirth(s, lot) + [e]
    ensures t.ledger[Birth(t.ledger, lot)] == s.ledger[Birth(s.ledger, lot)]
  {
    assert t.ledger[..|s.ledger|] == s.ledger;
  }

  /** A unit put back for `doc` comes out of what `doc` owes. */
  lemma OwedCovers(s: State, lot: nat, doc: Document, docs: set<Document>)
    requires lot < |s.lots| && Flows(s, lot)
    ensures doc !in docs ==> SumBy(AfterBirth(s, lot), NetOut(lot, docs)) >= Owed(s, lot, doc)
  {
    if doc !in docs {
      var rows := AfterBirth(s, lot);
      assert SumBy(rows, NetOut(lot, docs + {doc})) >= 0;
      SumByAdd(rows, NetOut(lot, docs + {doc}), NetOutBy(lot, doc), NetOut(lot, docs));
    }
  }

  /** One row: a draw, or a return of no more than is owed. */
  lemma ShiftFlows(s: State, id: nat, delta: int, cause: LedgerRef)
    requires AllFlow(s) && id < |s.lots| && ProperCause(cause)
    requires delta > 0 ==> delta <= Owed(s, id, DocumentOf(cause))
    ensures AllFlow(ShiftLot(s, id, delta, cause))
    ensures forall lot :: 0 <= lot < |s.lots| ==>
      Owed(ShiftLot(s, id, delta, cause), lot, DocumentOf(cause))
        == Owed(s, lot, DocumentOf(cause)) - if lot == id then delta else 0
  {
    var t := ShiftLot(s, id, delta, cause);
    var e := t.ledger[|s.ledger|];
    forall lot | 0 <= lot < |s.lots|
      ensures Flows(t, lot)
      ensures Owed(t, lot, DocumentOf(cause)) == Owed(s, lot, DocumentOf(cause)) - if lot == id then delta else 0
    {
      assert Flows(s, lot);
      AfterBirthAppend(s, t, e, lot);
      SumByAppend(AfterBirth(s, lot), e, NetOutBy(lot, DocumentOf(cause)));
      forall docs: set<Document> ensures SumBy(AfterBirth(t, lot), NetOut(lot, docs)) >= 0 {
        SumByAppend(AfterBirth(s, lot), e, NetOut(lot, docs));
        OwedCovers(s, lot, DocumentOf(cause), docs);
      }
    }
  }

  lemma AppendFlows(s: State, lot: Lot, cause: LedgerRef)
    requires AllFlow(s) && EntriesPlaced(s) && lot.received == lot.remaining >= 0 && ProperCause(cause)
    ensures AllFlow(AppendLot(s, lot, cause))
    ensures forall i :: 0 <= i < |s.lots| ==>
      Owed(AppendLot(s, lot, cause), i, DocumentOf(cause)) == Owed(s, i, DocumentOf(cause))
  {
    var t := AppendLot(s, lot, cause);
    var e := t.ledger[|s.ledger|];
    forall i | 0 <= i < |t.lots|
      ensures Flows(t, i)
      ensures i < |s.lots| ==> Owed(t, i, DocumentOf(cause)) == Owed(s, i, DocumentOf(cause))
    {
      if i < |s.lots| {
        assert Flows(s, i);
        AfterBirthAppend(s, t, e, i);
        SumByAppend(AfterBirth(s, i), e, NetOutBy(i, DocumentOf(cause)));
        forall docs: set<Document> ensures SumBy(AfterBirth(t, i), NetOut(i, docs)) >= 0 {
          SumByAppend(AfterBirth(s, i), e, NetOut(i, docs));
        }
      } else {
        BirthIsFirst(t.ledger, i);
        assert forall j :: 0 <= j < |s.ledger| ==> t.ledger[j] == s.ledger[j] && s.ledger[j].lot < i;
        assert AfterBirth(t, i) == [];
      }
    }
  }

  lemma {:induction false} DrawFlows(s: State, slices: seq<LotSlice>, cause: LedgerRef)
    requires AllFlow(s) && ProperCause(cause) && Within(slices, |s.lots|) && forall x :: x in slices ==> x.quantity > 0
    ensures AllFlow(DrawSlices(s, slices, cause))
  {
    if slices != [] {
      var front, last := slices[..|slices| - 1], slices[|slices| - 1];
      DrawFlows(s, front, cause);
      assert last in slices;
      ShiftFlows(DrawSlices(s, front, cause), last.lotId, -last.quantity, cause);
      assert DrawSlices(s, slices, cause) == ShiftLot(DrawSlices(s, front, cause), last.lotId, -last.quantity, cause);
    }
  }

  ghost predicate WithinOwed(s: State, slices: seq<LotSlice>, doc: Document) {
    && (forall x :: x in slices ==> x.lotId < |s.lots| && x.quantity > 0)
    && (forall i :: 0 <= i < |s.lots| ==> TakenFrom(slices, i) <= Owed(s, i, doc))
  }

  /** After the returned slices a lot is owed at most what they left. */
  ghost predicate OwedLeft(s: State, t: State, slices: seq<LotSlice>, doc: Document) {
    forall i :: 0 <= i < |s.lots| ==> Owed(t, i, doc) >= Owed(s, i, doc) - TakenFrom(slices, i)
  }

  lemma WithinOwedPrefix(s: State, slices: seq<LotSlice>, doc: Document)
    requires WithinOwed(s, slices, doc) && slices != []
    ensures WithinOwed(s, slices[..|slices| - 1], doc)
  {
    var front, last := slices[..|slices| - 1], slices[|slices| - 1];
    assert last in slices;
    forall i | 0 <= i < |s.lots| ensures TakenFrom(front, i) <= Owed(s, i, doc) {
      assert TakenFrom(slices, i) == TakenFrom(front, i) + UnitsOf(i)(last);
    }
  }

  lemma {:induction false} ReturnFlows(s: State, slices: seq<LotSlice>, location: Id, cause: LedgerRef)
    requires Consistent(s) && AllFlow(s) && ProperCause(cause)
    requires Within(slices, |s.lots|) && WithinOwed(s, slices, DocumentOf(cause))
    ensures AllFlow(ReturnSlices(s, slices, location, cause))
    ensures OwedLeft(s, ReturnSlices(s, slices, location, cause), slices, DocumentOf(cause))
  {
    if slices != [] {
      var front, last := slices[..|slices| - 1], slices[|slices| - 1];
      var doc := DocumentOf(cause);
      WithinOwedPrefix(s, slices, doc);
      ReturnFlows(s, front, location, cause);
      ReturnSlicesKeeps(s, front, location, cause);
      assert last in slices;
      var t := ReturnSlices(s, front, location, cause);
      assert TakenFrom(slices, last.lotId) == TakenFrom(front, last.lotId) + last.quantity;
      if t.lots[last.lotId].key.location == location {
        ShiftFlows(t, last.lotId, last.quantity, cause);
      } else {
        AppendFlows(t, SplitOff(t, last.lotId, location, last.quantity), cause);
      }
      forall i | 0 <= i < |s.lots|
        ensures Owed(ReturnSlices(s, slices, location, cause), i, doc) >= Owed(s, i, doc) - TakenFrom(slices, i)
      {
        assert TakenFrom(slices, i) == TakenFrom(front, i) + UnitsOf(i)(last);
      }
    }
  }

  /** Up to its receipt a lot gave nothing. */
  lemma TrailBeforeBirth(s: State, item: Id, doc: Document, o: nat)
    requires o < |s.lots| && Flows(s, o)
    ensures var before := s.ledger[..Birth(s.ledger, o) + 1];
      SumBy(before, DrawnRow(item, doc, o)) == 0
      && SumBy(before, ReturnedRow(s.lots, Origins(s, item, doc), item, doc, o)) >= 0
  {
    var b := Birth(s.ledger, o);
    BirthIsFirst(s.ledger, o);
    var before := s.ledger[..b + 1];
    forall e | e in before ensures DrawnRow(item, doc, o)(e) == 0 {
      var x :| 0 <= x < |before| && before[x] == e;
    }
    SumByZero(before, DrawnRow(item, doc, o));
    SumByNonNegative(before, ReturnedRow(s.lots, Origins(s, item, doc), item, doc, o));
  }

  /** A row of an origin lot that the trail counts is a row of the document. */
  lemma TrailRow(s: State, item: Id, doc: Document, o: nat, j: nat)
    requires EntriesPlaced(s) && AllFlow(s) && ProperDocument(doc) && o in Origins(s, item, doc)
    requires j < |s.ledger|
    ensures DrawnRow(item, doc, o)(s.ledger[j])
      <= NetOutBy(o, doc)(s.ledger[j]) + ReturnedRow(s.lots, Origins(s, item, doc), item, doc, o)(s.ledger[j])
  {
    var i :| 0 <= i < |s.ledger| && Outbound(s.ledger[i], item, doc) && s.ledger[i].lot == o;
    assert s.lots[o].key.item == item;
    var e := s.ledger[j];
    if e.lot == o {
      assert e.key.item == item;
      assert Names(e.cause, doc) <==> DocumentOf(e.cause) == doc;
    }
  }

  lemma FlowsStart(s: State, lot: nat)
    requires lot < |s.lots| && Flows(s, lot)
    ensures Birth(s.ledger, lot) < |s.ledger|
  {}

  /** The returned-minus-drawn arithmetic of the service never grants more than a lot is owed. */
  lemma OwedByTrail(s: State, item: Id, doc: Document, o: nat)
    requires EntriesPlaced(s) && AllFlow(s) && ProperDocument(doc) && o in Origins(s, item, doc)
    requires o < |s.lots|
    ensures Drawn(s, item, doc, o) - Returned(s, item, doc, o) <= Owed(s, o, doc)
  {
    assert Flows(s, o);
    hide AllFlow, Flows, EntriesPlaced, OriginLots, Birth, DrawnRow, ReturnedRow, NetOutBy, SumBy;
    FlowsStart(s, o);
    TrailBeforeBirth(s, item, doc, o);
    TrailAfterBirth(s, item, doc, o);
    LessBack(s.ledger, Birth(s.ledger, o) + 1, DrawnRow(item, doc, o), ReturnedRow(s.lots, Origins(s, item, doc), item, doc, o),
             NetOutBy(o, doc));
  }

  lemma TrailAfterBirth(s: State, item: Id, doc: Document, o: nat)
    requires EntriesPlaced(s) && AllFlow(s) && ProperDocument(doc) && o in Origins(s, item, doc)
    requires Birth(s.ledger, o) < |s.ledger|
    ensures forall e :: e in s.ledger[Birth(s.ledger, o) + 1..] ==>
      DrawnRow(item, doc, o)(e) <= NetOutBy(o, doc)(e) + ReturnedRow(s.lots, Origins(s, item, doc), item, doc, o)(e)
  {
    hide AllFlow, EntriesPlaced, OriginLots, Birth, DrawnRow, ReturnedRow, NetOutBy;
    var cut := Birth(s.ledger, o) + 1;
    forall e | e in s.ledger[cut..]
      ensures DrawnRow(item, doc, o)(e) <= NetOutBy(o, doc)(e) + ReturnedRow(s.lots, Origins(s, item, doc), item, doc, o)(e)
    {
      var x :| 0 <= x < |s.ledger[cut..]| && s.ledger[cut..][x] == e;
      TrailRow(s, item, doc, o, cut + x);
    }
  }

  /** If the rows before the cut give nothing, and every row after it gives at most its net plus
      what it brings back, the whole gives at most the net after the cut plus what it brings back. */
  lemma LessBack(ledger: seq<Entry>, cut: nat, given: Entry -> int, back: Entry -> int, net: Entry -> int)
    requires cut <= |ledger| && SumBy(ledger[..cut], given) <= SumBy(ledger[..cut], back)
    requires forall e :: e in ledger[cut..] ==> given(e) <= net(e) + back(e)
    ensures SumBy(ledger, given) - SumBy(ledger, back) <= SumBy(ledger[cut..], net)
  {
    assert ledger == ledger[..cut] + ledger[cut..];
    SumByConcat(ledger[..cut], ledger[cut..], given);
    SumByConcat(ledger[..cut], ledger[cut..], back);
    var both := (e: Entry) => net(e) + back(e);
    SumByAtMost(ledger[cut..], given, both);
    SumByAdd(ledger[cut..], net, back, both);
  }

  /** What one document took from a lot it did not give back twice. */
  lemma NetOutOfOne(s: State, lot: nat, doc: Document)
    requires lot < |s.lots| && Flows(s, lot)
    ensures Owed(s, lot, doc) >= 0
  {
    var rows := AfterBirth(s, lot);
    var docs := DocumentsIn(rows) - {doc};
    forall e | e in rows ensures NetOut(lot, docs)(e) == NetOutBy(lot, doc)(e) { DocumentListed(rows, e); }
    SumBySame(rows, NetOut(lot, docs), NetOutBy(lot, doc));
  }

  function DocumentsIn(rows: seq<Entry>): set<Document> {
    if rows == [] then {} else DocumentsIn(rows[..|rows| - 1]) + {DocumentOf(rows[|rows| - 1].cause)}
  }

  lemma {:induction false} DocumentListed(rows: seq<Entry>, e: Entry)
    requires e in rows
    ensures DocumentOf(e.cause) in DocumentsIn(rows)
  {
    if e != rows[|rows| - 1] { DocumentListed(rows[..|rows| - 1], e); }
  }

  /** A return's plan stays within what each lot is owed. */
  lemma PlanWithinOwedLots(s: State, r: Return)
    requires EntriesPlaced(s) && AllFlow(s) && ProperDocument(r.drawnBy) && ReturnsTo(s, r).Some?
    ensures WithinOwed(s, ReturnsTo(s, r).value, r.drawnBy)
  {
    hide AllFlow, Flows, ReturnsTo;
    ReturnPlanWithin(s, r);
    forall i | 0 <= i < |s.lots| ensures TakenFrom(ReturnsTo(s, r).value, i) <= Owed(s, i, r.drawnBy) {
      LotWithinOwed(s, r, i);
    }
  }

  lemma LotWithinOwed(s: State, r: Return, i: nat)
    requires EntriesPlaced(s) && AllFlow(s) && ProperDocument(r.drawnBy) && ReturnsTo(s, r).Some? && i < |s.lots|
    ensures TakenFrom(ReturnsTo(s, r).value, i) <= Owed(s, i, r.drawnBy)
  {
    hide ReturnsTo;
    if i in Origins(s, r.item, r.drawnBy) {
      PlanWithinOwed(s, r, i);
      OwedByTrail(s, r.item, r.drawnBy, i);
    } else {
      NotAnOrigin(s, r, i);
    }
    assert Flows(s, i);
    NetOutOfOne(s, i, r.drawnBy);
  }

  lemma ReturnCallFlows(s: State, r: Return)
    requires Consistent(s) && AllFlow(s) && Proper(CallReturn(r)) && ReturnDrawn(s, r).Ok?
    ensures AllFlow(ReturnDrawn(s, r).value)
  {
    hide Consistent, AllFlow, ReturnsTo, WithinOwed, OriginLots;
    Placed(s);
    if Origins(s, r.item, r.drawnBy) == [] && r.ifNeverDrawn.Some? {
      AppendFlows(s, NewLot(OpeningReceipt(r)), ReturnCause(r));
    } else {
      var slices := ReturnsTo(s, r).value;
      ReturnPlanWithin(s, r);
      PlanWithinOwedLots(s, r);
      ReturnFlows(s, slices, r.location, ReturnCause(r));
      SameFlows(ReturnSlices(s, slices, r.location, ReturnCause(r)), ReturnDrawn(s, r).value);
    }
  }

  lemma SameFlows(s: State, t: State)
    requires AllFlow(s) && t.lots == s.lots && t.ledger == s.ledger
    ensures AllFlow(t)
  {
    forall lot | 0 <= lot < |t.lots| ensures Flows(t, lot) {
      assert Flows(s, lot) && AfterBirth(t, lot) == AfterBirth(s, lot);
    }
  }

  lemma DrawCallFlows(s: State, k: Key, quantity: int, cause: LedgerRef)
    requires Consistent(s) && AllFlow(s) && ProperCause(cause) && quantity > 0 && Draw(s, k, quantity, cause).Ok?
    ensures AllFlow(Draw(s, k, quantity, cause).value)
  {
    var slices := DrawPlan(QueryLots(s.lots, k, cause.line), quantity, cause.line).value;
    PlanFits(s, k, quantity, cause.line);
    DrawFlows(s, slices, cause);
    SameFlows(DrawSlices(s, slices, cause), Draw(s, k, quantity, cause).value);
  }

  lemma CallFlows(s: State, c: Call, t: State)
    requires Consistent(s) && AllFlow(s) && Proper(c) && Outcome(s, c) == Ok(t)
    ensures AllFlow(t)
  {
    hide AllFlow, Draw, ReturnDrawn, LockEach;
    match c {
      case CallOpenLot(receipt) => AppendFlows(s, NewLot(receipt), receipt.cause);
      case CallDeduct(key, quantity, cause) => DrawCallFlows(s, key, quantity, cause);
      case CallLock(lines) => LockEachKeeps(s, lines); SameFlows(s, t);
      case CallShip(key, quantity, cause) =>
        var u := Relock(s, key, -quantity);
        RelockKeeps(s, key, -quantity);
        SameFlows(s, u);
        DrawCallFlows(u, key, quantity, cause);
      case CallRelease(key, quantity) => SameFlows(s, t);
      case CallReturn(ret) => ReturnCallFlows(s, ret);
    }
  }

  lemma {:induction false} EveryRunFlows(calls: seq<Call>, states: seq<State>, n: nat)
    requires Run(calls, states) && n < |states|
    requires forall c :: c in calls ==> Proper(c)
    ensures AllFlow(states[n])
  {
    hide Consistent, Outcome, AllFlow, Proper;
    if n == 0 {
      NothingFlows();
    } else {
      EveryRunFlows(calls, states, n - 1);
      EveryRunIsConsistent(calls, states, n - 1);
      assert Step(states[n - 1], calls[n - 1], states[n]) && calls[n - 1] in calls;
      if Outcome(states[n - 1], calls[n - 1]).Ok? { CallFlows(states[n - 1], calls[n - 1], states[n]); }
    }
  }

  lemma NothingFlows()
    ensures AllFlow(EMPTY)
  {
    assert EMPTY.lots == [] && EMPTY.ledger == [];
  }

  /** Main result. In every run of properly documented calls, every lot holds between nothing and
      what it received. */
  lemma NoLotOverflows(calls: seq<Call>, states: seq<State>, n: nat, lot: nat)
    requires Run(calls, states) && n < |states| && lot < |states[n].lots|
    requires forall c :: c in calls ==> Proper(c)
    ensures 0 <= states[n].lots[lot].remaining <= states[n].lots[lot].received
  {
    EveryRunFlows(calls, states, n);
    EveryRunIsConsistent(calls, states, n);
    assert Flows(states[n], lot);
    FlowBound(states[n], lot);
  }

  lemma FlowBound(s: State, lot: nat)
    requires lot < |s.lots| && Flows(s, lot)
    requires s.lots[lot].remaining == SumBy(s.ledger, MovedIn(lot))
    ensures s.lots[lot].remaining <= s.lots[lot].received
  {
    var b := Birth(s.ledger, lot);
    BirthIsFirst(s.ledger, lot);
    SumSplits(s.ledger, b, MovedIn(lot));
    forall e | e in s.ledger[..b] ensures MovedIn(lot)(e) == 0 {
      var j :| 0 <= j < b && s.ledger[j] == e;
    }
    SumByZero(s.ledger[..b], MovedIn(lot));
    MovedIsNetOut(AfterBirth(s, lot), lot);
    assert SumBy(AfterBirth(s, lot), NetOut(lot, {})) >= 0;
  }

  /** A sum over the rows before one of them, that one, and those after it. */
  lemma SumSplits(ledger: seq<Entry>, b: nat, f: Entry -> int)
    requires b < |ledger|
    ensures SumBy(ledger, f) == SumBy(ledger[..b], f) + f(ledger[b]) + SumBy(ledger[b + 1..], f)
  {
    assert ledger == ledger[..b + 1] + ledger[b + 1..];
    SumByConcat(ledger[..b + 1], ledger[b + 1..], f);
    SumByPrefix(ledger, b + 1, f);
  }

  lemma {:induction false} MovedIsNetOut(rows: seq<Entry>, lot: nat)
    ensures SumBy(rows, MovedIn(lot)) == -SumBy(rows, NetOut(lot, {}))
  {
    if rows != [] { MovedIsNetOut(rows[..|rows| - 1], lot); }
  }
}
