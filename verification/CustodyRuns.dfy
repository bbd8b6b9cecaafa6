/** The drawer over time: requests on stale reads, and the segments a closed day falls into. */
module CustodyRuns {
  import opened Common
  import opened CashReconciliation
  import opened CashCustody
  import StableSort

  // ---------------------------------------------------------------- every run

  /** A request that read the session as it was in some earlier state. */
  datatype Action = Submit(readAt: nat, filing: Filing) | Close(readAt: nat, amount: int)

  predicate Took(states: seq<Session>, n: nat, a: Action)
    requires n + 1 < |states|
  {
    a.readAt <= n && states[n + 1] == Settled(states[n],
      match a
      case Submit(readAt, filing) => SubmitShiftLog(states[n], states[readAt], filing)
      case Close(readAt, amount) => FinalizeSession(states[n], states[readAt], amount))
    && (a.Submit? ==> NotBefore(states[n], a.filing.at))
  }

  predicate Day(states: seq<Session>, actions: seq<Action>) {
    && |states| == |actions| + 1 && states[0] == Opened(states[0].openedFor, states[0].openingAmount)
    && forall n :: 0 <= n < |actions| ==> Took(states, n, actions[n])
  }

  /** Main result. However requests interleave and however stale their reads, the chain of hands is
      unbroken at every moment. */
  lemma {:induction false} CustodyHolds(states: seq<Session>, actions: seq<Action>, n: nat)
    requires Day(states, actions) && n < |states|
    ensures Custody(states[n]) && forall m :: 0 <= m <= n ==> SinceThen(states[m], states[n])
  {
    if n > 0 {
      CustodyHolds(states, actions, n - 1);
      var a, s := actions[n - 1], states[n - 1];
      assert Took(states, n - 1, a);
      assert SinceThen(states[a.readAt], s);
      if states[n] != s {
        assert states[a.readAt] == s;
        match a {
          case Submit(_, filing) => SubmitKeeps(s, filing);
          case Close(_, amount) => CloseKeeps(s, amount);
        }
      }
      forall m | 0 <= m <= n ensures SinceThen(states[m], states[n]) {
        if m < n { assert SinceThen(states[m], s); }
      }
    }
  }

  /** The last log is an END that names nobody. */
  predicate EndedForAll(s: Session) {
    s.logs != [] && LastLog(s).value.logType == End && LastLog(s).value.next == None
  }

  /** The day can be closed exactly when it is open and the last log is an END that names nobody. */
  lemma CloseableWhen(states: seq<Session>, actions: seq<Action>, n: nat, amount: int)
    requires Day(states, actions) && n < |states|
    ensures FinalizeSession(states[n], states[n], amount).Ok? <==> states[n].status == Open && EndedForAll(states[n])
  {
    CustodyHolds(states, actions, n);
    var s := states[n];
    if s.logs != [] { assert InTurn(s, |s.logs| - 1); }
  }

  /** And after such an END nobody can file another log. */
  lemma FinalEndIsLast(states: seq<Session>, actions: seq<Action>, n: nat, f: Filing)
    requires Day(states, actions) && n < |states| && EndedForAll(states[n])
    ensures SubmitShiftLog(states[n], states[n], f).Err?
  {
    CustodyHolds(states, actions, n);
  }

  // ---------------------------------------------------------------- the segments of a closed day

  function ForReconciling(s: Session): (r: seq<ShiftLog>)
    ensures |r| == |s.logs|
    ensures forall i :: 0 <= i < |r| ==> r[i] == ShiftLog(s.logs[i].logType, s.logs[i].staff, s.logs[i].amount, s.logs[i].loggedAt)
  {
    seq(|s.logs|, i requires 0 <= i < |s.logs| =>
      ShiftLog(s.logs[i].logType, s.logs[i].staff, s.logs[i].amount, s.logs[i].loggedAt))
  }

  lemma ClosedDayLogs(s: Session)
    requires Custody(s) && s.status == Closed
    ensures Ordered(ForReconciling(s)) == ForReconciling(s) && |s.logs| >= 2 && |s.logs| % 2 == 0
  {
    hide StableSort.Sorted;
    assert InTurn(s, |s.logs| - 1);
    assert StableSort.InOrder(ForReconciling(s), Earlier(LogTime()));
    StableSort.AlreadySorted(ForReconciling(s), Earlier(LogTime()));
  }

  lemma SegmentOfClosedDay(s: Session, movements: seq<Movement>, i: nat)
    requires Custody(s) && s.status == Closed && i <= |s.logs| && |s.logs| % 2 == 0
    ensures var segment := SegmentOf(Input(s.openingAmount, s.finalAmount, ForReconciling(s), movements), ForReconciling(s), i);
      && segment.kind == (if i == 0 then Opening else if i == |s.logs| then Closing else if i % 2 == 1 then Shift else Gap)
      && (if i % 2 == 1 then segment.staff == Some(s.logs[i - 1].staff) && s.logs[i].staff == s.logs[i - 1].staff
          else segment.staff == None)
      && segment.variance.Some?
  {
    hide SumBy;
    if i > 0 { assert InTurn(s, i - 1); }
    if i < |s.logs| { assert InTurn(s, i); }
  }

  /** Main result. The segments of a closed day read OPENING (SHIFT GAP)* SHIFT CLOSING, and each SHIFT
      is charged to the cashier who held the drawer through it. */
  lemma SegmentsOfAClosedDay(states: seq<Session>, actions: seq<Action>, n: nat, movements: seq<Movement>, i: nat)
    requires Day(states, actions) && n < |states| && states[n].status == Closed
    requires i <= |states[n].logs|
    ensures var s := states[n];
      var logs := Ordered(ForReconciling(s));
      && |logs| == |s.logs| >= 2 && |logs| % 2 == 0 && s.finalAmount.Some?
      && var segment := SegmentOf(Input(s.openingAmount, s.finalAmount, ForReconciling(s), movements), logs, i);
         && segment.kind == (if i == 0 then Opening else if i == |logs| then Closing else if i % 2 == 1 then Shift else Gap)
         && (if i % 2 == 1 then segment.staff == Some(s.logs[i - 1].staff) && s.logs[i].staff == s.logs[i - 1].staff
             else segment.staff == None)
         && segment.variance.Some?
  {
    hide Sorted, Day, InTurn, SumBy;
    CustodyHolds(states, actions, n);
    ClosedDayLogs(states[n]);
    SegmentOfClosedDay(states[n], movements, i);
  }
}
