/** Where goods come back to: in every run, each row an accepted return writes stands on a lot its
    document had drawn from, or on a lot split off from such a one. */
module ReturnHomes {
  import opened Common
  import opened LotAllocation
  import opened StockLedger
  import opened StockOperations
  import opened StockInvariants
  import opened ReturnTrail

  /** The document had drawn from the lot before row `j`. */
  ghost predicate DrawnBefore(ledger: seq<Entry>, j: nat, item: Id, doc: Document, lot: nat)
    requires j <= |ledger|
  {
    exists i :: 0 <= i < j && Outbound(ledger[i], item, doc) && ledger[i].lot == lot
  }

  ghost predicate NeverDrawn(ledger: seq<Entry>, j: nat, item: Id, doc: Document)
    requires j <= |ledger|
  {
    forall i :: 0 <= i < j ==> !Outbound(ledger[i], item, doc)
  }

  /** Lot `lot` is the origin lot, or was split off from it: of the same goods, cost and provenance. */
  predicate OfOrigin(lots: seq<Lot>, lot: nat, origin: nat)
    requires lot < |lots| && origin < |lots|
  {
    lot == origin || (lots[lot].parent == Some(origin) && ChildOf(lots[lot], lots[origin]))
  }

  /** Row `j` puts goods where the document took them, or in a lot of their own if it never took any. */
  ghost predicate Homed(s: State, j: nat, item: Id, doc: Document)
    requires j < |s.ledger|
  {
    && s.ledger[j].lot < |s.lots|
    && ((exists origin :: 0 <= origin < |s.lots| && DrawnBefore(s.ledger, j, item, doc, origin)
                          && OfOrigin(s.lots, s.ledger[j].lot, origin))
        || (s.lots[s.ledger[j].lot].parent == None && NeverDrawn(s.ledger, j, item, doc)))
  }

  /** Row `j` is of a return: its goods, its destination, its cause, and it is at home. */
  ghost predicate BroughtBack(s: State, j: nat, r: Return)
    requires j < |s.ledger|
  {
    && s.ledger[j].key == Key(r.location, r.item) && s.ledger[j].cause == ReturnCause(r) && s.ledger[j].quantity > 0
    && Homed(s, j, r.item, r.drawnBy)
  }

  /** All rows `t` adds to `s` are of the return. */
  ghost predicate AllBroughtBack(s: State, t: State, r: Return) {
    forall j :: |s.ledger| <= j < |t.ledger| ==> BroughtBack(t, j, r)
  }

  // ---------------------------------------------------------------- rows stay at home

  lemma HomeStays(s: State, t: State, cause: LedgerRef, j: nat, item: Id, doc: Document)
    requires Grows(s, t, cause) && j < |s.ledger| && Homed(s, j, item, doc)
    ensures Homed(t, j, item, doc)
  {
    var lot := s.ledger[j].lot;
    assert t.ledger[j] == s.ledger[j];
    if origin :| 0 <= origin < |s.lots| && DrawnBefore(s.ledger, j, item, doc, origin) && OfOrigin(s.lots, lot, origin) {
      var i :| 0 <= i < j && Outbound(s.ledger[i], item, doc) && s.ledger[i].lot == origin;
      assert t.ledger[i] == s.ledger[i];
      assert DrawnBefore(t.ledger, j, item, doc, origin) && OfOrigin(t.lots, lot, origin);
    } else {
      forall i | 0 <= i < j ensures !Outbound(t.ledger[i], item, doc) { assert t.ledger[i] == s.ledger[i]; }
    }
  }

  lemma StaysBroughtBack(s: State, t: State, cause: LedgerRef, j: nat, r: Return)
    requires Grows(s, t, cause) && j < |s.ledger| && BroughtBack(s, j, r)
    ensures j < |t.ledger| && BroughtBack(t, j, r)
  {
    HomeStays(s, t, cause, j, r.item, r.drawnBy);
    assert t.ledger[j] == s.ledger[j];
  }

  lemma SameRows(s: State, t: State, j: nat, r: Return)
    requires t.lots == s.lots && t.ledger == s.ledger && j < |s.ledger| && BroughtBack(s, j, r)
    ensures BroughtBack(t, j, r)
  {}

  // ---------------------------------------------------------------- one return

  /** A slice to give back: some of a lot the document had drawn from. */
  ghost predicate FromDrawn(s: State, slice: LotSlice, r: Return) {
    && slice.quantity > 0 && slice.lotId < |s.lots| && s.lots[slice.lotId].key.item == r.item
    && DrawnBefore(s.ledger, |s.ledger|, r.item, r.drawnBy, slice.lotId)
  }

  lemma SliceHomed(s: State, slice: LotSlice, r: Return)
    requires FromDrawn(s, slice, r)
    ensures Grows(s, ReturnSlice(s, slice, r.location, ReturnCause(r)), ReturnCause(r))
    ensures AllBroughtBack(s, ReturnSlice(s, slice, r.location, ReturnCause(r)), r)
  {
    var t := ReturnSlice(s, slice, r.location, ReturnCause(r));
    var j := |s.ledger|;
    var i :| 0 <= i < j && Outbound(s.ledger[i], r.item, r.drawnBy) && s.ledger[i].lot == slice.lotId;
    assert t.ledger[i] == s.ledger[i];
    assert DrawnBefore(t.ledger, j, r.item, r.drawnBy, slice.lotId);
    assert OfOrigin(t.lots, t.ledger[j].lot, slice.lotId);
    assert BroughtBack(t, j, r);
  }

  lemma StillFromDrawn(s: State, t: State, cause: LedgerRef, slice: LotSlice, r: Return)
    requires Grows(s, t, cause) && FromDrawn(s, slice, r)
    ensures FromDrawn(t, slice, r)
  {
    var i :| 0 <= i < |s.ledger| && Outbound(s.ledger[i], r.item, r.drawnBy) && s.ledger[i].lot == slice.lotId;
    assert t.ledger[i] == s.ledger[i];
  }

  lemma {:induction false} SlicesHomed(s: State, slices: seq<LotSlice>, r: Return)
    requires Within(slices, |s.lots|) && forall x :: x in slices ==> FromDrawn(s, x, r)
    ensures AllBroughtBack(s, ReturnSlices(s, slices, r.location, ReturnCause(r)), r)
  {
    hide FromDrawn, BroughtBack, ReturnSlice, Grows;
    if slices != [] {
      var front, last, cause := slices[..|slices| - 1], slices[|slices| - 1], ReturnCause(r);
      assert last in slices;
      SlicesHomed(s, front, r);
      ReturnSlicesGrows(s, front, r.location, cause);
      var mid, t := ReturnSlices(s, front, r.location, cause), ReturnSlices(s, slices, r.location, cause);
      StillFromDrawn(s, mid, cause, last, r);
      SliceHomed(mid, last, r);
      forall j | |s.ledger| <= j < |t.ledger| ensures BroughtBack(t, j, r) {
        if j < |mid.ledger| { StaysBroughtBack(mid, t, cause, j, r); }
      }
    }
  }

  lemma PlanFromDrawn(s: State, r: Return)
    requires EntriesPlaced(s) && ReturnsTo(s, r).Some?
    ensures forall x :: x in ReturnsTo(s, r).value ==> FromDrawn(s, x, r)
  {
    hide ReturnsTo;
    ReturnPlanWithin(s, r);
    forall x | x in ReturnsTo(s, r).value ensures DrawnBefore(s.ledger, |s.ledger|, r.item, r.drawnBy, x.lotId) {
      var j :| 0 <= j < |s.ledger| && Outbound(s.ledger[j], r.item, r.drawnBy) && s.ledger[j].lot == x.lotId;
    }
  }

  lemma OpeningHomed(s: State, r: Return)
    requires r.ifNeverDrawn.Some? && r.quantity > 0 && OriginLots(s.ledger, r.item, r.drawnBy) == []
    ensures AllBroughtBack(s, AppendLot(s, NewLot(OpeningReceipt(r)), ReturnCause(r)), r)
  {
    var t := AppendLot(s, NewLot(OpeningReceipt(r)), ReturnCause(r));
    forall i | 0 <= i < |s.ledger| ensures !Outbound(t.ledger[i], r.item, r.drawnBy) {
      assert t.ledger[i] == s.ledger[i];
      assert s.ledger[i].lot !in OriginLots(s.ledger, r.item, r.drawnBy);
    }
  }

  /** Whatever the return is for - a customer's goods, a reversed sale, a transfer that arrives or comes
      back - every row it writes is of its goods, at its destination, under its cause, and at home. */
  lemma ReturnHomed(s: State, r: Return)
    requires EntriesPlaced(s) && ReturnDrawn(s, r).Ok?
    ensures AllBroughtBack(s, ReturnDrawn(s, r).value, r)
  {
    hide DrawnLots, BroughtBack;
    if OriginLots(s.ledger, r.item, r.drawnBy) == [] && r.ifNeverDrawn.Some? {
      OpeningHomed(s, r);
    } else {
      ReturnPlanWithin(s, r);
      PlanFromDrawn(s, r);
      SlicesHomed(s, ReturnsTo(s, r).value, r);
      var t, u := ReturnSlices(s, ReturnsTo(s, r).value, r.location, ReturnCause(r)), ReturnDrawn(s, r).value;
      forall j | |s.ledger| <= j < |u.ledger| ensures BroughtBack(u, j, r) { SameRows(t, u, j, r); }
    }
  }

  // ---------------------------------------------------------------- every run

  lemma CallKeepsHome(s: State, c: Call, t: State, j: nat, r: Return)
    requires Consistent(s) && Outcome(s, c) == Ok(t) && j < |s.ledger| && BroughtBack(s, j, r)
    ensures j < |t.ledger| && BroughtBack(t, j, r)
  {
    hide Consistent, Outcome, BroughtBack, Grows;
    Placed(s);
    OutcomeGrows(s, c);
    if CauseOf(c).Some? { StaysBroughtBack(s, t, CauseOf(c).value, j, r); } else { SameRows(s, t, j, r); }
  }

  lemma OutcomeIsReturn(s: State, r: Return)
    requires Consistent(s)
    ensures EntriesPlaced(s) && Outcome(s, CallReturn(r)) == ReturnDrawn(s, r)
  {}

  /** Main result. In every run, every row any return wrote is at every later moment of the goods returned,
      where they were brought, under the return's cause, and on a lot its document had drawn from before it,
      or on a lot split off from such a one - the same goods at the same cost and of the same provenance;
      on a lot of its own only if the document had never drawn any. */
  lemma {:induction false} GoodsComeHome(calls: seq<Call>, states: seq<State>, n: nat, j: nat, m: nat)
    requires Run(calls, states) && n < |calls| && calls[n].CallReturn? && n < m < |states|
    requires |states[n].ledger| <= j < |states[n + 1].ledger|
    ensures j < |states[m].ledger| && BroughtBack(states[m], j, calls[n].ret)
  {
    hide Consistent, Outcome, BroughtBack;
    var s, c := states[m - 1], calls[m - 1];
    EveryRunIsConsistent(calls, states, m - 1);
    assert Step(s, c, states[m]);
    if m == n + 1 {
      OutcomeIsReturn(s, c.ret);
      assert Outcome(s, c).Ok?;
      ReturnHomed(s, c.ret);
    } else {
      GoodsComeHome(calls, states, n, j, m - 1);
      if Outcome(s, c).Ok? { CallKeepsHome(s, c, states[m], j, calls[n].ret); }
    }
  }
}
