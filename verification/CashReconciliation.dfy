/** What a drawer should have held against what was counted
    (src/modules/cash-drawer-sessions/cash-reconciliation.ts): the day is cut at every counted amount,
    and every cash movement is put in the stretch it fell in. Amounts are in hundredths. */
module CashReconciliation {
  import opened Common
  import StableSort

  type Staff = nat

  datatype FlowType = Income | Expense

  datatype Movement = Movement(at: int, flowType: FlowType, amount: int)

  datatype LogType = Start | End

  datatype ShiftLog = ShiftLog(logType: LogType, staff: Staff, amount: int, loggedAt: int)

  datatype SegmentKind = Opening | Shift | Gap | Closing

  datatype Segment = Segment(kind: SegmentKind, staff: Option<Staff>, since: Option<int>, until: Option<int>,
                             openingCount: int, closingCount: Option<int>, cashIn: int, cashOut: int, netCash: int,
                             expected: int, variance: Option<int>, movementCount: int)

  datatype Input = Input(openingAmount: int, finalAmount: Option<int>, shiftLogs: seq<ShiftLog>, movements: seq<Movement>)

  datatype Totals = Totals(openingAmount: int, cashIn: int, cashOut: int, netCash: int, expectedClosing: int,
                           countedClosing: Option<int>, variance: Option<int>)

  datatype Reconciliation = Reconciliation(totals: Totals, movementCount: int, segments: seq<Segment>)

  // ---------------------------------------------------------------- sorting by time

  function Earlier<T>(time: T -> int): (T, T) -> int { (a: T, b: T) => time(a) - time(b) }

  /** In order of time; equal times keep their order. */
  function Sorted<T>(s: seq<T>, time: T -> int): seq<T> { StableSort.Sorted(s, Earlier(time)) }

  ghost predicate InOrder<T>(s: seq<T>, time: T -> int) {
    forall i, j :: 0 <= i < j < |s| ==> time(s[i]) <= time(s[j])
  }

  lemma SortedInOrder<T(!new)>(s: seq<T>, time: T -> int)
    ensures InOrder(Sorted(s, time), time) && multiset(Sorted(s, time)) == multiset(s)
    ensures |Sorted(s, time)| == |s|
  {
    StableSort.SortedRight(s, Earlier(time));
    var t := Sorted(s, time);
    assert forall i, j :: 0 <= i < j < |t| ==> Earlier(time)(t[i], t[j]) <= 0;
  }

  // ---------------------------------------------------------------- what a segment should be

  function LogTime(): ShiftLog -> int { (l: ShiftLog) => l.loggedAt }

  function MovedAt(): Movement -> int { (m: Movement) => m.at }

  function Ordered(logs: seq<ShiftLog>): seq<ShiftLog> { Sorted(logs, LogTime()) }

  /** The half-open stretch between the neighbouring logs; the last one has no end. */
  predicate Within(logs: seq<ShiftLog>, i: nat, m: Movement)
    requires i <= |logs|
  {
    (i > 0 ==> logs[i - 1].loggedAt <= m.at) && (i < |logs| ==> m.at < logs[i].loggedAt)
  }

  function InOf(): Movement -> int { (m: Movement) => if m.flowType == Income then m.amount else 0 }

  function OutOf(): Movement -> int { (m: Movement) => if m.flowType == Income then 0 else m.amount }

  function One(): Movement -> int { (m: Movement) => 1 }

  function If(f: Movement -> int, logs: seq<ShiftLog>, i: nat): Movement -> int
    requires i <= |logs|
  {
    (m: Movement) => if Within(logs, i, m) then f(m) else 0
  }

  function SegmentKindOf(previous: Option<ShiftLog>, next: Option<ShiftLog>): SegmentKind {
    if previous.None? then Opening
    else if previous.value.logType == Start then Shift
    else if next.Some? then Gap
    else Closing
  }

  function Before(logs: seq<ShiftLog>, i: nat): Option<ShiftLog>
    requires i <= |logs|
  {
    if i == 0 then None else Some(logs[i - 1])
  }

  function After(logs: seq<ShiftLog>, i: nat): Option<ShiftLog>
    requires i <= |logs|
  {
    if i < |logs| then Some(logs[i]) else None
  }

  function TimeOf(log: Option<ShiftLog>): Option<int> { if log.Some? then Some(log.value.loggedAt) else None }

  function SegmentFrom(previous: Option<ShiftLog>, next: Option<ShiftLog>, openingCount: int, closingCount: Option<int>,
                       cashIn: int, cashOut: int, count: int): Segment
  {
    var expected := openingCount + (cashIn - cashOut);
    Segment(SegmentKindOf(previous, next),
            if previous.Some? && previous.value.logType == Start then Some(previous.value.staff) else None,
            TimeOf(previous), TimeOf(next), openingCount, closingCount, cashIn, cashOut, cashIn - cashOut, expected,
            if closingCount.Some? then Some(closingCount.value - expected) else None, count)
  }

  /** The amount counted at the end of stretch `i`, if any was. */
  function CountAt(input: Input, logs: seq<ShiftLog>, i: nat): Option<int>
    requires i <= |logs|
  {
    if i < |logs| then Some(logs[i].amount) else input.finalAmount
  }

  function CountBefore(input: Input, logs: seq<ShiftLog>, i: nat): int
    requires i <= |logs|
  {
    if i == 0 then input.openingAmount else logs[i - 1].amount
  }

  /** A segment told from the unsorted movements: sums over those that fall in its stretch. */
  function SegmentOf(input: Input, logs: seq<ShiftLog>, i: nat): Segment
    requires i <= |logs|
  {
    SegmentFrom(Before(logs, i), After(logs, i), CountBefore(input, logs, i), CountAt(input, logs, i),
                SumBy(input.movements, If(InOf(), logs, i)), SumBy(input.movements, If(OutOf(), logs, i)),
                SumBy(input.movements, If(One(), logs, i)))
  }

  function SummarizeVariance(openingAmount: int, finalAmount: Option<int>, cashIn: int, cashOut: int): Totals {
    var expectedClosing := openingAmount + (cashIn - cashOut);
    Totals(openingAmount, cashIn, cashOut, cashIn - cashOut, expectedClosing, finalAmount,
           if finalAmount.Some? then Some(finalAmount.value - expectedClosing) else None)
  }

  // ---------------------------------------------------------------- the sweep

  lemma SlicePoints(ms: seq<Movement>, a: nat, b: nat, f: Movement -> int)
    requires a <= b <= |ms|
    ensures SumBy(ms, f) == SumBy(ms[..a], f) + SumBy(ms[a..b], f) + SumBy(ms[b..], f)
  {
    hide SumBy;
    assert ms == ms[..b] + ms[b..];
    SumByConcat(ms[..b], ms[b..], f);
    assert ms[..b] == ms[..a] + ms[a..b];
    SumByConcat(ms[..a], ms[a..b], f);
  }

  /** The cursor stands where stretch `i` begins. */
  ghost predicate StandsAt(logs: seq<ShiftLog>, ms: seq<Movement>, i: nat, cursor: nat)
    requires i <= |logs| + 1 && cursor <= |ms|
  {
    && (forall k :: 0 <= k < cursor ==> if i == 0 then false else if i <= |logs| then ms[k].at < logs[i - 1].loggedAt else true)
    && (forall k :: cursor <= k < |ms| ==> if i == 0 then true else if i <= |logs| then ms[k].at >= logs[i - 1].loggedAt else false)
  }

  /** What the sweep takes between two standings is what falls in the stretch. */
  lemma SweptIsWithin(logs: seq<ShiftLog>, ms: seq<Movement>, i: nat, a: nat, b: nat, f: Movement -> int)
    requires InOrder(logs, LogTime()) && i <= |logs| && a <= b <= |ms|
    requires StandsAt(logs, ms, i, a) && StandsAt(logs, ms, i + 1, b)
    ensures SumBy(ms[a..b], f) == SumBy(ms, If(f, logs, i))
  {
    var g := If(f, logs, i);
    SlicePoints(ms, a, b, g);
    forall m | m in ms[..a] ensures g(m) == 0 {
      var k :| 0 <= k < a && ms[k] == m;
    }
    SumByZero(ms[..a], g);
    forall m | m in ms[b..] ensures g(m) == 0 {
      var k :| b <= k < |ms| && ms[k] == m;
    }
    SumByZero(ms[b..], g);
    forall m | m in ms[a..b] ensures g(m) == f(m) {
      var k :| a <= k < b && ms[k] == m;
      if i > 0 { assert LogTime()(logs[i - 1]) <= ms[k].at; }
    }
    SumBySame(ms[a..b], g, f);
  }

  lemma SweptOneMore(ms: seq<Movement>, a: nat, b: nat, f: Movement -> int)
    requires a <= b < |ms|
    ensures SumBy(ms[a..b + 1], f) == SumBy(ms[a..b], f) + f(ms[b])
  {
    assert ms[a..b + 1] == ms[a..b] + [ms[b]];
    SumByAppend(ms[a..b], ms[b], f);
  }

  lemma NothingSwept(ms: seq<Movement>, a: nat)
    requires a <= |ms|
    ensures SumBy(ms[a..a], InOf()) == 0 && SumBy(ms[a..a], OutOf()) == 0 && SumBy(ms[a..a], One()) == 0
  {
    assert ms[a..a] == [];
  }

  /** Take the movements from the cursor up to the next count, adding them up. */
  method Sweep(movements: seq<Movement>, begun: nat, next: Option<ShiftLog>)
    returns (cursor: nat, cashIn: int, cashOut: int, movementCount: int)
    requires begun <= |movements|
    ensures begun <= cursor <= |movements|
    ensures forall k :: begun <= k < cursor ==> next.None? || movements[k].at < next.value.loggedAt
    ensures cursor < |movements| ==> next.Some? && movements[cursor].at >= next.value.loggedAt
    ensures cashIn == SumBy(movements[begun..cursor], InOf()) && cashOut == SumBy(movements[begun..cursor], OutOf())
    ensures movementCount == SumBy(movements[begun..cursor], One()) == cursor - begun
  {
    hide SumBy;
    cursor, cashIn, cashOut, movementCount := begun, 0, 0, 0;
    NothingSwept(movements, begun);
    while cursor < |movements| && (next.None? || movements[cursor].at < next.value.loggedAt)
      invariant begun <= cursor <= |movements|
      invariant forall k :: begun <= k < cursor ==> next.None? || movements[k].at < next.value.loggedAt
      invariant cashIn == SumBy(movements[begun..cursor], InOf()) && cashOut == SumBy(movements[begun..cursor], OutOf())
      invariant movementCount == SumBy(movements[begun..cursor], One()) == cursor - begun
    {
      var movement := movements[cursor];
      SweptOneMore(movements, begun, cursor, InOf());
      SweptOneMore(movements, begun, cursor, OutOf());
      SweptOneMore(movements, begun, cursor, One());
      if movement.flowType == Income { cashIn := cashIn + movement.amount; } else { cashOut := cashOut + movement.amount; }
      movementCount := movementCount + 1;
      cursor := cursor + 1;
    }
  }

  method ReconcileSession(input: Input) returns (r: Reconciliation)
    ensures var logs := Ordered(input.shiftLogs);
      && |logs| == |input.shiftLogs|
      && |r.segments| == |logs| + 1
      && forall i :: 0 <= i <= |logs| ==> r.segments[i] == SegmentOf(input, logs, i)
    ensures r.totals == SummarizeVariance(input.openingAmount, input.finalAmount,
                                          SumBy(input.movements, InOf()), SumBy(input.movements, OutOf()))
    ensures r.movementCount == |input.movements|
  {
    hide Sorted, InOrder, SegmentOf;
    var logs := Ordered(input.shiftLogs);
    var movements := Sorted(input.movements, MovedAt());
    SortedInOrder(input.shiftLogs, LogTime());
    SortedInOrder(input.movements, MovedAt());
    var segments := CutDay(input, logs, movements);
    var _, cashIn, cashOut, count := Sweep(movements, 0, None);
    assert movements[0..|movements|] == movements;
    StableSort.SameContentsSameSum(movements, input.movements, InOf());
    StableSort.SameContentsSameSum(movements, input.movements, OutOf());
    var netCash := cashIn - cashOut;
    var expectedClosing := input.openingAmount + netCash;
    r := Reconciliation(
      Totals(input.openingAmount, cashIn, cashOut, netCash, expectedClosing, input.finalAmount,
             if input.finalAmount.Some? then Some(input.finalAmount.value - expectedClosing) else None),
      count, segments);
  }

  /** One segment per stretch, the movements handed out in one pass over the sorted day. */
  method CutDay(input: Input, logs: seq<ShiftLog>, movements: seq<Movement>) returns (segments: seq<Segment>)
    requires InOrder(logs, LogTime()) && InOrder(movements, MovedAt())
    requires multiset(movements) == multiset(input.movements)
    ensures |segments| == |logs| + 1
    ensures forall i :: 0 <= i <= |logs| ==> segments[i] == SegmentOf(input, logs, i)
  {
    hide StandsAt, SegmentOf, SegmentFrom, Within, InOrder;
    segments := [];
    var cursor := 0;
    var openingCount := input.openingAmount;
    StandsAtStart(logs, movements);
    for i := 0 to |logs| + 1
      invariant cursor <= |movements| && StandsAt(logs, movements, i, cursor)
      invariant i <= |logs| ==> openingCount == CountBefore(input, logs, i)
      invariant |segments| == i && forall j :: 0 <= j < i ==> segments[j] == SegmentOf(input, logs, j)
    {
      var previous, next := Before(logs, i), After(logs, i);
      var begun := cursor;
      var cashIn, cashOut, movementCount;
      cursor, cashIn, cashOut, movementCount := Sweep(movements, begun, next);
      SweptTo(logs, movements, i, begun, cursor);
      var closingCount := if next.Some? then Some(next.value.amount) else input.finalAmount;
      SegmentMade(input, logs, movements, i, begun, cursor);
      segments := segments + [SegmentFrom(previous, next, openingCount, closingCount, cashIn, cashOut, movementCount)];
      if closingCount.None? {
        assert i == |logs|;
      } else {
        openingCount := closingCount.value;
      }
    }
  }

  lemma StandsAtStart(logs: seq<ShiftLog>, ms: seq<Movement>)
    ensures StandsAt(logs, ms, 0, 0)
  {}

  lemma SegmentMade(input: Input, logs: seq<ShiftLog>, ms: seq<Movement>, i: nat, a: nat, b: nat)
    requires InOrder(logs, LogTime()) && multiset(ms) == multiset(input.movements) && i <= |logs| && a <= b <= |ms|
    requires StandsAt(logs, ms, i, a) && StandsAt(logs, ms, i + 1, b)
    ensures SegmentFrom(Before(logs, i), After(logs, i), CountBefore(input, logs, i), CountAt(input, logs, i),
                        SumBy(ms[a..b], InOf()), SumBy(ms[a..b], OutOf()), SumBy(ms[a..b], One()))
         == SegmentOf(input, logs, i)
  {
    SegmentSwept(input, logs, ms, i, a, b);
  }

  lemma SweptTo(logs: seq<ShiftLog>, ms: seq<Movement>, i: nat, begun: nat, cursor: nat)
    requires InOrder(logs, LogTime()) && InOrder(ms, MovedAt()) && i <= |logs| && begun <= cursor <= |ms|
    requires StandsAt(logs, ms, i, begun)
    requires forall k :: begun <= k < cursor && i < |logs| ==> ms[k].at < logs[i].loggedAt
    requires cursor == |ms| || (i < |logs| && ms[cursor].at >= logs[i].loggedAt)
    ensures StandsAt(logs, ms, i + 1, cursor)
  {
    if i < |logs| {
      forall k | 0 <= k < cursor ensures ms[k].at < logs[i].loggedAt {
        if k < begun && i > 0 { assert LogTime()(logs[i - 1]) <= LogTime()(logs[i]); }
      }
      forall k | cursor <= k < |ms| ensures ms[k].at >= logs[i].loggedAt {
        if k > cursor { assert MovedAt()(ms[cursor]) <= MovedAt()(ms[k]); }
      }
    }
  }

  lemma SegmentSwept(input: Input, logs: seq<ShiftLog>, ms: seq<Movement>, i: nat, a: nat, b: nat)
    requires InOrder(logs, LogTime()) && multiset(ms) == multiset(input.movements) && i <= |logs| && a <= b <= |ms|
    requires StandsAt(logs, ms, i, a) && StandsAt(logs, ms, i + 1, b)
    ensures SumBy(ms[a..b], InOf()) == SumBy(input.movements, If(InOf(), logs, i))
    ensures SumBy(ms[a..b], OutOf()) == SumBy(input.movements, If(OutOf(), logs, i))
    ensures SumBy(ms[a..b], One()) == SumBy(input.movements, If(One(), logs, i))
  {
    hide StandsAt;
    SweptIsWithin(logs, ms, i, a, b, InOf());
    SweptIsWithin(logs, ms, i, a, b, OutOf());
    SweptIsWithin(logs, ms, i, a, b, One());
    StableSort.SameContentsSameSum(ms, input.movements, If(InOf(), logs, i));
    StableSort.SameContentsSameSum(ms, input.movements, If(OutOf(), logs, i));
    StableSort.SameContentsSameSum(ms, input.movements, If(One(), logs, i));
  }

  // ---------------------------------------------------------------- every movement in one segment

  /** Every movement falls in exactly one stretch. */
  lemma {:induction false} ExactlyOneSegment(logs: seq<ShiftLog>, m: Movement) returns (i: nat)
    requires InOrder(logs, LogTime())
    ensures i <= |logs| && Within(logs, i, m)
    ensures forall j :: 0 <= j <= |logs| && Within(logs, j, m) ==> j == i
  {
    i := 0;
    while i < |logs| && logs[i].loggedAt <= m.at
      invariant i <= |logs| && forall j :: 0 <= j < i ==> logs[j].loggedAt <= m.at
    {
      i := i + 1;
    }
    assert forall k :: i <= k < |logs| ==> LogTime()(logs[i]) <= LogTime()(logs[k]);
    assert forall k :: i <= k < |logs| ==> m.at < logs[k].loggedAt;
  }

  function IfUpTo(f: Movement -> int, logs: seq<ShiftLog>, n: nat): Movement -> int
    requires n <= |logs| + 1
  {
    (m: Movement) => if exists i :: 0 <= i < n && Within(logs, i, m) then f(m) else 0
  }

  /** The sums of a quantity over the first `n` stretches. */
  function SumOver(input: Input, f: Movement -> int, logs: seq<ShiftLog>, n: nat): int
    requires n <= |logs| + 1
  {
    if n == 0 then 0 else SumOver(input, f, logs, n - 1) + SumBy(input.movements, If(f, logs, n - 1))
  }

  lemma {:induction false} SumsUpTo(input: Input, f: Movement -> int, logs: seq<ShiftLog>, n: nat)
    requires InOrder(logs, LogTime()) && n <= |logs| + 1
    ensures SumOver(input, f, logs, n) == SumBy(input.movements, IfUpTo(f, logs, n))
  {
    if n == 0 {
      SumByZero(input.movements, IfUpTo(f, logs, 0));
    } else {
      SumsUpTo(input, f, logs, n - 1);
      forall m | m in input.movements ensures IfUpTo(f, logs, n)(m) == IfUpTo(f, logs, n - 1)(m) + If(f, logs, n - 1)(m) {
        var i := ExactlyOneSegment(logs, m);
        if n - 1 == i { assert Within(logs, n - 1, m); }
      }
      SumByAdd(input.movements, IfUpTo(f, logs, n - 1), If(f, logs, n - 1), IfUpTo(f, logs, n));
    }
  }

  /** Nothing is lost and nothing is counted twice: over all segments, any quantity of the movements
      adds up to its total for the day. */
  lemma SegmentsCoverTheDay(input: Input, f: Movement -> int)
    ensures var logs := Ordered(input.shiftLogs);
      SumOver(input, f, logs, |logs| + 1) == SumBy(input.movements, f)
  {
    var logs := Ordered(input.shiftLogs);
    SortedInOrder(input.shiftLogs, LogTime());
    SumsUpTo(input, f, logs, |logs| + 1);
    forall m | m in input.movements ensures IfUpTo(f, logs, |logs| + 1)(m) == f(m) {
      var i := ExactlyOneSegment(logs, m);
    }
    SumBySame(input.movements, IfUpTo(f, logs, |logs| + 1), f);
  }

  // ---------------------------------------------------------------- variances telescope

  function Variances(segments: seq<Segment>): int { SumBy(segments, VarianceOf()) }

  function VarianceOf(): Segment -> int { (s: Segment) => if s.variance.Some? then s.variance.value else 0 }

  function SegmentsOf(input: Input, logs: seq<ShiftLog>, n: nat): (r: seq<Segment>)
    requires n <= |logs| + 1
    ensures |r| == n && forall i :: 0 <= i < n ==> r[i] == SegmentOf(input, logs, i)
  {
    seq(n, i requires 0 <= i < n => SegmentOf(input, logs, i))
  }

  lemma {:induction false} VariancesTelescope(input: Input, logs: seq<ShiftLog>, n: nat)
    requires n <= |logs| + 1 && input.finalAmount.Some?
    ensures Variances(SegmentsOf(input, logs, n))
         == (if n == 0 then input.openingAmount else CountAt(input, logs, n - 1).value) - input.openingAmount
            - (SumOver(input, InOf(), logs, n) - SumOver(input, OutOf(), logs, n))
  {
    if n > 0 {
      VariancesTelescope(input, logs, n - 1);
      assert SegmentsOf(input, logs, n) == SegmentsOf(input, logs, n - 1) + [SegmentOf(input, logs, n - 1)];
      SumByAppend(SegmentsOf(input, logs, n - 1), SegmentOf(input, logs, n - 1), VarianceOf());
    }
  }

  /** Main result. For a closed session the variances of the segments add up to the variance of the
      session - what was counted at the end, less the opening amount, less the cash that moved - and
      the short form computed from grouped sums gives the same totals. */
  lemma SegmentVariancesAddUp(input: Input)
    requires input.finalAmount.Some?
    ensures var logs := Ordered(input.shiftLogs);
      var cashIn, cashOut := SumBy(input.movements, InOf()), SumBy(input.movements, OutOf());
      var total := SummarizeVariance(input.openingAmount, input.finalAmount, cashIn, cashOut);
      && Variances(SegmentsOf(input, logs, |logs| + 1)) == total.variance.value
      && total.variance.value == input.finalAmount.value - input.openingAmount - (cashIn - cashOut)
  {
    var logs := Ordered(input.shiftLogs);
    VariancesTelescope(input, logs, |logs| + 1);
    SegmentsCoverTheDay(input, InOf());
    SegmentsCoverTheDay(input, OutOf());
  }

  // ---------------------------------------------------------------- what a segment tells

  /** From one moment up to another; no moment is no bound. */
  predicate Between(since: Option<int>, until: Option<int>, at: int) {
    (since.Some? ==> since.value <= at) && (until.Some? ==> at < until.value)
  }

  function Among(ms: seq<Movement>, since: Option<int>, until: Option<int>): seq<Movement> {
    if ms == [] then []
    else
      var last := ms[|ms| - 1];
      Among(ms[..|ms| - 1], since, until) + if Between(since, until, last.at) then [last] else []
  }

  function AmountOf(flow: FlowType): Movement -> int { (m: Movement) => if m.flowType == flow then m.amount else 0 }

  lemma {:induction false} AmongSums(ms: seq<Movement>, logs: seq<ShiftLog>, i: nat)
    requires i <= |logs|
    ensures var since, until := TimeOf(Before(logs, i)), TimeOf(After(logs, i));
      && SumBy(ms, If(InOf(), logs, i)) == SumBy(Among(ms, since, until), AmountOf(Income))
      && SumBy(ms, If(OutOf(), logs, i)) == SumBy(Among(ms, since, until), AmountOf(Expense))
      && SumBy(ms, If(One(), logs, i)) == |Among(ms, since, until)|
  {
    if ms != [] {
      var since, until := TimeOf(Before(logs, i)), TimeOf(After(logs, i));
      var front, last := ms[..|ms| - 1], ms[|ms| - 1];
      AmongSums(front, logs, i);
      assert Among(front, since, until) + [] == Among(front, since, until);
      SumByAppend(Among(front, since, until), last, AmountOf(Income));
      SumByAppend(Among(front, since, until), last, AmountOf(Expense));
    }
  }

  /** A segment runs from one count to the next, and tells of the movements in between how much came in, how much
      went out and how many they were; what is missing is what was counted less what should be there. */
  lemma SegmentTells(input: Input, logs: seq<ShiftLog>, i: nat)
    requires i <= |logs|
    ensures var s := SegmentOf(input, logs, i);
      var own := Among(input.movements, s.since, s.until);
      && s.since == (if i == 0 then None else Some(logs[i - 1].loggedAt))
      && s.until == (if i == |logs| then None else Some(logs[i].loggedAt))
      && s.openingCount == (if i == 0 then input.openingAmount else logs[i - 1].amount)
      && s.closingCount == (if i == |logs| then input.finalAmount else Some(logs[i].amount))
      && s.cashIn == SumBy(own, AmountOf(Income)) && s.cashOut == SumBy(own, AmountOf(Expense)) && s.movementCount == |own|
      && s.netCash == s.cashIn - s.cashOut && s.expected == s.openingCount + s.netCash
      && (s.variance.Some? <==> s.closingCount.Some?)
      && (s.variance.Some? ==> s.expected + s.variance.value == s.closingCount.value)
  {
    AmongSums(input.movements, logs, i);
  }

  /** And so does the whole day. */
  lemma DayTells(input: Input)
    ensures var t := SummarizeVariance(input.openingAmount, input.finalAmount, SumBy(input.movements, InOf()), SumBy(input.movements, OutOf()));
      && t.openingAmount == input.openingAmount && t.countedClosing == input.finalAmount
      && t.cashIn == SumBy(input.movements, AmountOf(Income)) && t.cashOut == SumBy(input.movements, AmountOf(Expense))
      && t.netCash == t.cashIn - t.cashOut && t.expectedClosing == t.openingAmount + t.netCash
      && (t.variance.Some? <==> input.finalAmount.Some?)
      && (t.variance.Some? ==> t.expectedClosing + t.variance.value == input.finalAmount.value)
  {
    SumBySame(input.movements, InOf(), AmountOf(Income));
    SumBySame(input.movements, OutOf(), AmountOf(Expense));
  }

  // ---------------------------------------------------------------- order does not matter

  /** The order in which the movements are given changes no segment. */
  lemma MovementOrderDoesNotMatter(input: Input, movements: seq<Movement>, logs: seq<ShiftLog>, i: nat)
    requires multiset(movements) == multiset(input.movements) && i <= |logs|
    ensures SegmentOf(input.(movements := movements), logs, i) == SegmentOf(input, logs, i)
  {
    StableSort.SameContentsSameSum(movements, input.movements, If(InOf(), logs, i));
    StableSort.SameContentsSameSum(movements, input.movements, If(OutOf(), logs, i));
    StableSort.SameContentsSameSum(movements, input.movements, If(One(), logs, i));
  }

  ghost predicate DistinctTimes(logs: seq<ShiftLog>) {
    forall a, b :: a in logs && b in logs && a.loggedAt == b.loggedAt ==> a == b
  }

  /** Nor does the order of the logs, as long as logs of the same moment are the same log. */
  lemma LogOrderDoesNotMatter(a: seq<ShiftLog>, b: seq<ShiftLog>)
    requires multiset(a) == multiset(b) && DistinctTimes(a)
    ensures Ordered(a) == Ordered(b)
  {
    SortedInOrder(a, LogTime());
    SortedInOrder(b, LogTime());
    forall x, y | x in Ordered(a) && y in Ordered(a) && x.loggedAt == y.loggedAt ensures x == y {
      assert x in multiset(Ordered(a)) && y in multiset(Ordered(a));
      assert x in multiset(a) && y in multiset(a);
    }
    OrderIsUnique(Ordered(a), Ordered(b));
  }

  lemma LastIsUnique(s: seq<ShiftLog>, t: seq<ShiftLog>)
    requires InOrder(s, LogTime()) && InOrder(t, LogTime()) && multiset(s) == multiset(t) && DistinctTimes(s)
    requires s != [] && |s| == |t|
    ensures s[|s| - 1] == t[|t| - 1]
  {
    var n := |s| - 1;
    assert s[n] in multiset(t) && t[n] in multiset(s);
    var i :| 0 <= i < |t| && t[i] == s[n];
    var j :| 0 <= j < |s| && s[j] == t[n];
    assert i < n ==> LogTime()(t[i]) <= LogTime()(t[n]);
    assert j < n ==> LogTime()(s[j]) <= LogTime()(s[n]);
    assert s[n] in s && s[j] in s;
  }

  lemma FrontStaysOrdered(s: seq<ShiftLog>)
    requires s != [] && InOrder(s, LogTime())
    ensures InOrder(s[..|s| - 1], LogTime()) && (DistinctTimes(s) ==> DistinctTimes(s[..|s| - 1]))
  {
    var front := s[..|s| - 1];
    assert forall i :: 0 <= i < |front| ==> front[i] == s[i];
    assert forall x :: x in front ==> x in s;
  }

  lemma {:induction false} OrderIsUnique(s: seq<ShiftLog>, t: seq<ShiftLog>)
    requires InOrder(s, LogTime()) && InOrder(t, LogTime()) && multiset(s) == multiset(t) && DistinctTimes(s)
    ensures s == t
  {
    assert |multiset(s)| == |s| && |multiset(t)| == |t|;
    if s != [] {
      var n := |s| - 1;
      hide InOrder, DistinctTimes;
      LastIsUnique(s, t);
      FrontStaysOrdered(s);
      FrontStaysOrdered(t);
      StableSort.LastApart(s);
      StableSort.LastApart(t);
      StableSort.CancelOne(multiset(s[..n]), multiset(t[..n]), s[n]);
      OrderIsUnique(s[..n], t[..n]);
    }
  }
}
