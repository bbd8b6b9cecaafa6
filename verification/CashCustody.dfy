/** Who holds the drawer (src/modules/cash-drawer-sessions/cash-drawer-sessions.service.ts): START and
    END logs filed by the cashiers, and the count that closes the day. Each request decides on the
    session it read and claims the row only if it has not been written since. */
module CashCustody {
  import opened Common
  import opened CashReconciliation

  datatype DrawerStatus = Open | Closed

  datatype Log = Log(logType: LogType, staff: Staff, amount: int, next: Option<Staff>, loggedAt: int)

  /** `version` stands for the row's `updatedAt`; `openedFor` is the cashier named at opening. */
  datatype Session = Session(status: DrawerStatus, openedFor: Staff, holder: Staff, version: nat, openingAmount: int,
                             logs: seq<Log>, finalAmount: Option<int>)

  function Opened(staff: Staff, amount: int): Session { Session(Open, staff, staff, 0, amount, [], None) }

  function LastLog(s: Session): Option<Log> { if s.logs == [] then None else Some(s.logs[|s.logs| - 1]) }

  /** `nextWorksHere`: the named cashier is an active member of this branch's staff. */
  datatype Filing = Filing(user: Staff, logType: LogType, amount: int, next: Option<Staff>, nextWorksHere: bool, at: int)

  function FilingRefused(read: Session, f: Filing): Option<ErrorCode> {
    var last := LastLog(read);
    if read.status != Open then Some(CashDrawerClosed)
    else if read.holder != f.user then Some(CashDrawerNotHolder)
    else if f.logType == Start && f.next.Some? then Some(ShiftLogNextStaffInvalid)
    else if f.logType == Start && last.Some? && !(last.value.logType == End && last.value.next == Some(f.user))
    then Some(ShiftLogHandoverInvalid)
    else if f.logType == End && !(last.Some? && last.value.logType == Start && last.value.staff == f.user)
    then Some(ShiftLogStartRequired)
    else if f.next == Some(f.user) then Some(ShiftLogNextStaffSelf)
    else if f.next.Some? && !f.nextWorksHere then Some(StaffNotAtBranch)
    else None
  }

  function SubmitShiftLog(now: Session, read: Session, f: Filing): Result<Session> {
    var refused := FilingRefused(read, f);
    if refused.Some? then Err(refused.value)
    else if now.status != Open || now.holder != f.user || now.version != read.version then Err(CashDrawerConflict)
    else
      Ok(now.(holder := if f.next.Some? then f.next.value else f.user, version := now.version + 1,
              logs := now.logs + [Log(f.logType, f.user, f.amount, f.next, f.at)]))
  }

  predicate ClosedOut(s: Session) {
    s.logs != [] && LastLog(s).value.logType == End && LastLog(s).value.staff == s.holder && LastLog(s).value.next == None
  }

  function FinalizeSession(now: Session, read: Session, amount: int): Result<Session> {
    if read.status != Open then Err(CashDrawerClosed)
    else if !ClosedOut(read) then Err(CashDrawerEndLogRequired)
    else if now.status != Open || now.version != read.version then Err(CashDrawerConflict)
    else Ok(now.(status := Closed, version := now.version + 1, finalAmount := Some(amount)))
  }

  function Settled(before: Session, outcome: Result<Session>): Session {
    if outcome.Ok? then outcome.value else before
  }

  // ---------------------------------------------------------------- what every request keeps

  /** The clock does not run backwards. */
  predicate NotBefore(s: Session, at: int) { s.logs != [] ==> LastLog(s).value.loggedAt <= at }

  /** The chain of hands: START and END take turns, each END is by the cashier who started, and each
      later START is by the cashier the END before it named. */
  predicate InTurn(s: Session, i: nat)
    requires i < |s.logs|
  {
    var l := s.logs[i];
    if i % 2 == 0 then
      && l.logType == Start && l.next == None
      && (if i == 0 then l.staff == s.openedFor else s.logs[i - 1].next == Some(l.staff))
    else l.logType == End && l.staff == s.logs[i - 1].staff && l.next != Some(l.staff)
  }

  /** The holder is whom the last log named, or its author if it named nobody. */
  predicate HolderRight(s: Session) {
    s.holder == match LastLog(s)
                case None => s.openedFor
                case Some(l) => if l.next.Some? then l.next.value else l.staff
  }

  predicate TimesRise(s: Session) {
    forall i, j :: 0 <= i < j < |s.logs| ==> s.logs[i].loggedAt <= s.logs[j].loggedAt
  }

  predicate Custody(s: Session) {
    && (forall i :: 0 <= i < |s.logs| ==> InTurn(s, i))
    && HolderRight(s) && TimesRise(s)
    && (s.status == Closed <==> s.finalAmount.Some?)
    && (s.status == Closed ==> ClosedOut(s))
  }

  /** A log filed on the session as it stands keeps the chain: the hands it passes to are the right ones. */
  lemma SubmitKeeps(s: Session, f: Filing)
    requires Custody(s) && NotBefore(s, f.at) && SubmitShiftLog(s, s, f).Ok?
    ensures Custody(SubmitShiftLog(s, s, f).value)
  {
    var t := SubmitShiftLog(s, s, f).value;
    var n := |s.logs|;
    if n > 0 { assert InTurn(s, n - 1); }
    forall i | 0 <= i < |t.logs| ensures InTurn(t, i) {
      if i < n { assert InTurn(s, i); }
    }
  }

  /** A day closed on the session as it stands ends with its holder's END, and its count is kept. */
  lemma CloseKeeps(s: Session, amount: int)
    requires Custody(s) && FinalizeSession(s, s, amount).Ok?
    ensures Custody(FinalizeSession(s, s, amount).value)
  {
    var t := FinalizeSession(s, s, amount).value;
    forall i | 0 <= i < |t.logs| ensures InTurn(t, i) { assert InTurn(s, i); }
  }

  /** Same version, same session: a claim that goes through was decided on what it writes. */
  predicate SinceThen(a: Session, b: Session) { a.version <= b.version && (a.version == b.version ==> a == b) }

  /** However old the reading it was decided on, a filing that is accepted keeps the chain of hands. */
  lemma StaleSubmitKeeps(now: Session, read: Session, f: Filing)
    requires Custody(now) && SinceThen(read, now) && NotBefore(now, f.at)
    ensures Custody(Settled(now, SubmitShiftLog(now, read, f)))
    ensures SubmitShiftLog(now, read, f).Ok? ==> read == now
  {
    if SubmitShiftLog(now, read, f).Ok? { SubmitKeeps(now, f); }
  }

  /** And so does a closing. */
  lemma StaleCloseKeeps(now: Session, read: Session, amount: int)
    requires Custody(now) && SinceThen(read, now)
    ensures Custody(Settled(now, FinalizeSession(now, read, amount)))
    ensures FinalizeSession(now, read, amount).Ok? ==> read == now
  {
    if FinalizeSession(now, read, amount).Ok? { CloseKeeps(now, amount); }
  }

  // ---------------------------------------------------------------- when a request is accepted

  /** Whose turn it is: a START by the first holder or by whom the last END named, handing to nobody; an END
      by whoever started, handing to nobody or to a colleague of the branch. */
  predicate TurnOf(logs: seq<Log>, f: Filing) {
    match f.logType
    case Start => f.next == None && (logs == [] || (logs[|logs| - 1].logType == End && logs[|logs| - 1].next == Some(f.user)))
    case End =>
      && logs != [] && logs[|logs| - 1].logType == Start && logs[|logs| - 1].staff == f.user
      && f.next != Some(f.user) && (f.next.Some? ==> f.nextWorksHere)
  }

  /** A log is filed exactly on an open day, by the one who holds the drawer, in turn, and if nothing was written
      since the read. It is then the last one, with its amount, and the drawer is with whom it names. */
  lemma SubmitWhen(now: Session, read: Session, f: Filing)
    ensures SubmitShiftLog(now, read, f).Ok? <==>
      && read.status == Open && read.holder == f.user && TurnOf(read.logs, f)
      && now.status == Open && now.holder == f.user && now.version == read.version
    ensures SubmitShiftLog(now, read, f).Ok? ==>
      var t := SubmitShiftLog(now, read, f).value;
      && t == Session(Open, now.openedFor, t.holder, now.version + 1, now.openingAmount, t.logs, now.finalAmount)
      && t.logs == now.logs + [Log(f.logType, f.user, f.amount, f.next, f.at)]
      && (f.next == None ==> t.holder == f.user) && (f.next.Some? ==> Some(t.holder) == f.next)
  {}

  /** A day is closed exactly when it is open and its last log is its holder's END naming nobody, and nothing was
      written since the read. The count is kept with it, and all else stays. */
  lemma FinalizeWhen(now: Session, read: Session, amount: int)
    ensures FinalizeSession(now, read, amount).Ok? <==>
      && read.status == Open && now.status == Open && now.version == read.version
      && read.logs != [] && var last := read.logs[|read.logs| - 1]; last.logType == End && last.staff == read.holder && last.next == None
    ensures FinalizeSession(now, read, amount).Ok? ==>
      FinalizeSession(now, read, amount).value
        == Session(Closed, now.openedFor, now.holder, now.version + 1, now.openingAmount, now.logs, Some(amount))
  {}

  /** The session as its row is written. */
  class Drawer {
    var status: DrawerStatus
    var holder: Staff
    var version: nat
    var logs: seq<Log>
    var finalAmount: Option<int>
    const openedFor: Staff
    const openingAmount: int

    function State(): Session
      reads this
    {
      Session(status, openedFor, holder, version, openingAmount, logs, finalAmount)
    }

    /** The chain of hands is unbroken. */
    ghost predicate Valid()
      reads this
    {
      Custody(State())
    }

    constructor (staff: Staff, amount: int)
      ensures State() == Opened(staff, amount) && Valid()
    {
      status, holder, version, logs, finalAmount := Open, staff, 0, [], None;
      openedFor, openingAmount := staff, amount;
    }

    method SubmitLog(read: Session, f: Filing) returns (error: Option<ErrorCode>)
      modifies this
      ensures State() == Settled(old(State()), SubmitShiftLog(old(State()), read, f))
      ensures error == match SubmitShiftLog(old(State()), read, f) case Ok(_) => None case Err(e) => Some(e)
      ensures old(Valid()) && SinceThen(read, old(State())) && NotBefore(old(State()), f.at) ==> Valid()
    {
      hide Custody;
      ghost var was := State();
      if Custody(was) && SinceThen(read, was) && NotBefore(was, f.at) { StaleSubmitKeeps(was, read, f); }
      if read.status != Open { return Some(CashDrawerClosed); }
      if read.holder != f.user { return Some(CashDrawerNotHolder); }
      if f.logType == Start && f.next.Some? { return Some(ShiftLogNextStaffInvalid); }
      var last := LastLog(read);
      if f.logType == Start {
        var isFirstShift := last.None?;
        var handedToMe := last.Some? && last.value.logType == End && last.value.next == Some(f.user);
        if !isFirstShift && !handedToMe { return Some(ShiftLogHandoverInvalid); }
      } else {
        var startedByMe := last.Some? && last.value.logType == Start && last.value.staff == f.user;
        if !startedByMe { return Some(ShiftLogStartRequired); }
      }
      if f.next.Some? {
        if f.next.value == f.user { return Some(ShiftLogNextStaffSelf); }
        if !f.nextWorksHere { return Some(StaffNotAtBranch); }
      }
      var nextHolder := if f.next.Some? then f.next.value else f.user;
      if status != Open || holder != f.user || version != read.version { return Some(CashDrawerConflict); }
      holder, version := nextHolder, version + 1;
      logs := logs + [Log(f.logType, f.user, f.amount, f.next, f.at)];
      return None;
    }

    method Finalize(read: Session, amount: int) returns (error: Option<ErrorCode>)
      modifies this
      ensures State() == Settled(old(State()), FinalizeSession(old(State()), read, amount))
      ensures error == match FinalizeSession(old(State()), read, amount) case Ok(_) => None case Err(e) => Some(e)
      ensures old(Valid()) && SinceThen(read, old(State())) ==> Valid()
    {
      hide Custody;
      ghost var was := State();
      if Custody(was) && SinceThen(read, was) { StaleCloseKeeps(was, read, amount); }
      if read.status != Open { return Some(CashDrawerClosed); }
      if !ClosedOut(read) { return Some(CashDrawerEndLogRequired); }
      if status != Open || version != read.version { return Some(CashDrawerConflict); }
      status, version, finalAmount := Closed, version + 1, Some(amount);
      return None;
    }
  }
}
