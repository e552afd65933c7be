/**
 One capability job (appserver/capabilities.py:551-655, 713-749): the thread that
 invokes it, the runner and any number of cancelling threads, interleaved between
 the sections they hold the lock for.
 */
module CapabilityJobs {
  import opened Wrappers

  datatype Status = Started | Completed | Failed | Cancelled

  /** How the runner came to finalize: what it ran returned, or raised one of the two kinds of error. */
  datatype How = Succeeded | CapabilityError | OtherError

  datatype Runner =
    NotStarted | Working | WantsLock(to: Status, how: How) | TellsTool(how: How) | Audits(how: How) | Ended

  datatype Canceller = SetsFlag | TakesLock | FinishesTool | Returned

  /** The invoker binds the task id and the flag, writes the row that publishes the job id, and starts the runner. */
  datatype Invoker = BindsTask | BindsFlag | Publishes | StartsRunner | Done

  datatype Winner = ByRunner | ByCancel(c: nat)

  /** What ran: a result, a time-out, another capability error or any other exception. */
  datatype Outcome = Result | Timeout | OtherCode | Exception

  /** finishes: what the tool record was told; told: the status in the runner's audit row and how it came about. */
  datatype Job = Job(hasTask: bool, status: Status, winner: Option<Winner>, flag: bool, invoker: Invoker,
                     runner: Runner, cancels: map<nat, Canceller>, finishes: seq<Status>,
                     told: Option<(Status, How)>)

  function New(hasTask: bool): Job {
    Job(hasTask, Started, None, false, BindsTask, NotStarted, map[], [], None)
  }

  predicate Terminal(s: Status) { s != Started }

  /** The audit row with the job id is out; nobody can name the job before. */
  predicate Published(j: Job) { j.invoker == StartsRunner || j.invoker == Done }

  datatype Event =
    | InvokerMoves
    | RunnerConcludes(outcome: Outcome)
    | RunnerLocks
    | RunnerFinishesTool
    | RunnerAudits(raises: bool)
    | CancelBegins(c: nat)
    | CancelMoves(c: nat)

  // ---------------------------------------------------------------- steps

  /** The runner's view of an outcome: a capability error with the flag up is a cancellation, unless it timed out. */
  function Conclusion(outcome: Outcome, flag: bool): Runner {
    match outcome
    case Result => WantsLock(Completed, Succeeded)
    case Timeout => WantsLock(Failed, CapabilityError)
    case OtherCode => WantsLock(if flag then Cancelled else Failed, CapabilityError)
    case Exception => WantsLock(Failed, OtherError)
  }

  function Invoke(j: Job): Job {
    match j.invoker
    case BindsTask => j.(invoker := BindsFlag)
    case BindsFlag => j.(invoker := Publishes)
    case Publishes => j.(invoker := StartsRunner)
    case StartsRunner => j.(invoker := Done, runner := Working)
    case Done => j
  }

  /** _finalize_job, the part under the lock. */
  function Finalize(j: Job): Job
    requires j.runner.WantsLock?
  {
    if Terminal(j.status) then j.(runner := Audits(j.runner.how))
    else j.(status := j.runner.to, winner := Some(ByRunner), runner := TellsTool(j.runner.how))
  }

  function TellTool(j: Job, to: Status): seq<Status> { if j.hasTask then j.finishes + [to] else j.finishes }

  /** The audit row: the job's own status after a capability error, else what the runner tried for. */
  function Audited(j: Job, how: How): Status {
    match how case Succeeded => Completed case OtherError => Failed case CapabilityError => j.status
  }

  /** The success row is written inside the try: if that raises, the runner finalizes once more as failed. */
  function Audit(j: Job, raises: bool): Job
    requires j.runner.Audits?
  {
    var how := j.runner.how;
    if raises && how == Succeeded then j.(runner := WantsLock(Failed, OtherError))
    else j.(runner := Ended, told := if raises then None else Some((Audited(j, how), how)))
  }

  function Cancel(j: Job, c: nat): Job
    requires c in j.cancels
  {
    match j.cancels[c]
    case SetsFlag => j.(flag := true, cancels := j.cancels[c := TakesLock])
    case TakesLock =>
      if Terminal(j.status) then j.(cancels := j.cancels[c := Returned])
      else j.(status := Cancelled, winner := Some(ByCancel(c)), cancels := j.cancels[c := FinishesTool])
    case FinishesTool => j.(finishes := TellTool(j, Cancelled), cancels := j.cancels[c := Returned])
    case Returned => j
  }

  /** A result is only returned by a runner that found the flag down when it last looked. */
  predicate Enabled(j: Job, e: Event) {
    match e
    case InvokerMoves => j.invoker != Done
    case RunnerConcludes(outcome) => j.runner == Working && (outcome == Result ==> !j.flag)
    case RunnerLocks => j.runner.WantsLock?
    case RunnerFinishesTool => j.runner.TellsTool?
    case RunnerAudits(_) => j.runner.Audits?
    case CancelBegins(c) => c !in j.cancels && Published(j)
    case CancelMoves(c) => c in j.cancels && j.cancels[c] != Returned
  }

  function Step(j: Job, e: Event): Job
    requires Enabled(j, e)
  {
    match e
    case InvokerMoves => Invoke(j)
    case RunnerConcludes(outcome) => j.(runner := Conclusion(outcome, j.flag))
    case RunnerLocks => Finalize(j)
    case RunnerFinishesTool => j.(finishes := TellTool(j, j.status), runner := Audits(j.runner.how))
    case RunnerAudits(raises) => Audit(j, raises)
    case CancelBegins(c) => j.(cancels := j.cancels[c := SetsFlag])
    case CancelMoves(c) => Cancel(j, c)
  }

  // ---------------------------------------------------------------- invariant

  predicate WinnerOk(status: Status, winner: Option<Winner>, runner: Runner, cancels: map<nat, Canceller>) {
    && (Terminal(status) <==> winner.Some?)
    && (runner.TellsTool? ==> winner == Some(ByRunner))
    && (runner == Working || runner == NotStarted ==> winner != Some(ByRunner))
    && (forall c :: c in cancels && cancels[c] == FinishesTool ==> winner == Some(ByCancel(c)))
    && (winner.Some? && winner.value.ByCancel? ==>
      && status == Cancelled && winner.value.c in cancels
      && (cancels[winner.value.c] == FinishesTool || cancels[winner.value.c] == Returned))
  }

  /** The winner has told the tool its status once, or is about to. */
  predicate ToolOk(hasTask: bool, status: Status, winner: Option<Winner>, runner: Runner, cancels: map<nat, Canceller>,
                   finishes: seq<Status>) {
    && (winner.None? ==> finishes == [])
    && (winner == Some(ByRunner) ==> finishes == (if hasTask && !runner.TellsTool? then [status] else []))
    && (winner.Some? && winner.value.ByCancel? && winner.value.c in cancels ==>
      finishes == (if hasTask && cancels[winner.value.c] == Returned then [Cancelled] else []))
  }

  predicate RunnerOk(runner: Runner, status: Status, invoker: Invoker) {
    && (runner.Audits? || runner == Ended ==> Terminal(status))
    && (invoker != Done <==> runner == NotStarted)
    && (runner.WantsLock? ==>
      && Terminal(runner.to) && (runner.how == Succeeded ==> runner.to == Completed)
      && (runner.how == OtherError ==> runner.to == Failed))
  }

  /** What the audit row says of the job. */
  predicate AuditTruth(told: Option<(Status, How)>, status: Status, runner: Runner) {
    told.Some? ==>
      && runner == Ended
      && (told.value.1 == CapabilityError ==> told.value.0 == status)
      && (told.value.1 == Succeeded ==> told.value.0 == Completed)
      && (told.value.1 == OtherError ==> told.value.0 == Failed)
  }

  predicate Inv(j: Job) {
    && WinnerOk(j.status, j.winner, j.runner, j.cancels)
    && ToolOk(j.hasTask, j.status, j.winner, j.runner, j.cancels, j.finishes)
    && RunnerOk(j.runner, j.status, j.invoker)
    && AuditTruth(j.told, j.status, j.runner)
  }

  lemma RunnerKeepsInv(j: Job, e: Event)
    requires Inv(j) && Enabled(j, e) && (e.RunnerConcludes? || e.RunnerAudits?)
    ensures Inv(Step(j, e))
  {}

  lemma FinishKeepsInv(j: Job)
    requires Inv(j) && j.runner.TellsTool?
    ensures Inv(Step(j, RunnerFinishesTool))
  {}

  lemma FinalizeKeepsInv(j: Job)
    requires Inv(j) && j.runner.WantsLock?
    ensures Inv(Finalize(j))
  {}

  lemma CancelKeepsInv(j: Job, c: nat)
    requires Inv(j) && Enabled(j, CancelMoves(c))
    ensures Inv(Cancel(j, c))
  {
    if j.cancels[c] == TakesLock {
      CancelLockKeepsInv(j, c);
    } else if j.cancels[c] == SetsFlag {
      hide AuditTruth; hide RunnerOk;
    } else {
      assert j.winner == Some(ByCancel(c));
    }
  }

  lemma CancelLockKeepsInv(j: Job, c: nat)
    requires Inv(j) && Enabled(j, CancelMoves(c)) && j.cancels[c] == TakesLock
    ensures Inv(Cancel(j, c))
  {}

  lemma OthersKeepInv(j: Job, e: Event)
    requires Inv(j) && Enabled(j, e) && (e == InvokerMoves || e.CancelBegins?)
    ensures Inv(Step(j, e))
  {}

  /** Every interleaving keeps the invariant. */
  lemma StepKeepsInv(j: Job, e: Event)
    requires Inv(j) && Enabled(j, e)
    ensures Inv(Step(j, e))
  {
    hide Inv; hide Finalize; hide Cancel;
    match e
    case InvokerMoves => OthersKeepInv(j, e);
    case RunnerConcludes(_) => RunnerKeepsInv(j, e);
    case RunnerLocks => FinalizeKeepsInv(j);
    case RunnerFinishesTool => FinishKeepsInv(j);
    case RunnerAudits(_) => RunnerKeepsInv(j, e);
    case CancelBegins(_) => OthersKeepInv(j, e);
    case CancelMoves(c) => CancelKeepsInv(j, c);
  }

  /** The state after a run, if every event of it could happen. */
  function Run(j: Job, events: seq<Event>): Option<Job>
    decreases |events|
  {
    if events == [] then Some(j)
    else if Enabled(j, events[0]) then Run(Step(j, events[0]), events[1..])
    else None
  }

  lemma {:induction false} RunKeepsInv(j: Job, events: seq<Event>)
    requires Inv(j) && Run(j, events).Some?
    ensures Inv(Run(j, events).value)
    decreases |events|
  {
    hide Inv; hide Step;
    if events != [] {
      StepKeepsInv(j, events[0]);
      RunKeepsInv(Step(j, events[0]), events[1..]);
    }
  }

  // ---------------------------------------------------------------- what every run guarantees

  lemma StatusStays(j: Job, e: Event)
    requires Enabled(j, e)
    ensures Step(j, e).hasTask == j.hasTask
    ensures Terminal(j.status) ==> Step(j, e).status == j.status && Step(j, e).winner == j.winner
  {}

  /** The first terminal status is the last, and its writer the only winner. */
  lemma {:induction false} StatusIsFinal(j: Job, events: seq<Event>)
    requires Terminal(j.status) && Run(j, events).Some?
    ensures Run(j, events).value.status == j.status && Run(j, events).value.winner == j.winner
    decreases |events|
  {
    hide Step; hide Terminal;
    if events != [] {
      StatusStays(j, events[0]);
      StatusIsFinal(Step(j, events[0]), events[1..]);
    }
  }

  ghost predicate Reachable(j: Job) {
    exists events: seq<Event> :: Run(New(j.hasTask), events) == Some(j)
  }

  lemma ReachableInv(j: Job)
    requires Reachable(j)
    ensures Inv(j)
  {
    var events: seq<Event> :| Run(New(j.hasTask), events) == Some(j);
    RunKeepsInv(New(j.hasTask), events);
  }

  /** Once the runner has ended the job is terminal. */
  lemma EndedMeansTerminal(j: Job)
    requires Reachable(j) && j.runner == Ended
    ensures Terminal(j.status)
  {
    ReachableInv(j);
  }

  /** Nobody is about to tell the tool anything. */
  predicate Settled(j: Job) {
    !j.runner.TellsTool? && forall c :: c in j.cancels ==> j.cancels[c] != FinishesTool
  }

  /** The tool record is finished at most once, and that of a settled terminal job once, with the job's own status. */
  lemma ToolFinishedOnce(j: Job)
    requires Reachable(j)
    ensures |j.finishes| <= 1
    ensures Settled(j) && Terminal(j.status) ==> j.finishes == if j.hasTask then [j.status] else []
  {
    ReachableInv(j);
  }

  lemma {:induction false} RunAppend(j: Job, events: seq<Event>, e: Event)
    requires Run(j, events).Some? && Enabled(Run(j, events).value, e)
    ensures Run(j, events + [e]) == Some(Step(Run(j, events).value, e))
    decreases |events|
  {
    hide Step;
    if events == [] {
      assert [e][1..] == [] && [] + [e] == [e];
    } else {
      assert (events + [e])[1..] == events[1..] + [e];
      RunAppend(Step(j, events[0]), events[1..], e);
    }
  }

  lemma Continue(j: Job, e: Event)
    requires Reachable(j) && Enabled(j, e)
    ensures Reachable(Step(j, e)) && Step(j, e).hasTask == j.hasTask
  {
    var events: seq<Event> :| Run(New(j.hasTask), events) == Some(j);
    RunAppend(New(j.hasTask), events, e);
    StatusStays(j, e);
    hide Step; hide Enabled; hide Run;
  }

  lemma Begin(hasTask: bool)
    ensures Reachable(New(hasTask))
  {
    assert Run(New(hasTask), []) == Some(New(hasTask));
  }

  // ---------------------------------------------------------------- the audit of a cancelled job

  /** The runner found something to raise a capability error about: a time-out, or a code of its own. */
  predicate RaisesCode(outcome: Outcome) { outcome == Timeout || outcome == OtherCode }

  function HowOf(r: Runner): Option<How> {
    match r
    case WantsLock(_, how) => Some(how)
    case TellsTool(how) => Some(how)
    case Audits(how) => Some(how)
    case NotStarted => None
    case Working => None
    case Ended => None
  }

  /** The way of a capability error stays until its row is written. */
  predicate LeavesByCode(j: Job) {
    || HowOf(j.runner) == Some(CapabilityError)
    || (j.runner == Ended && (j.told.Some? ==> j.told.value.1 == CapabilityError))
  }

  predicate LeavesOtherwise(j: Job) {
    (HowOf(j.runner).Some? && HowOf(j.runner) != Some(CapabilityError))
    || (j.runner == Ended && (j.told.Some? ==> j.told.value.1 != CapabilityError))
  }

  lemma WayStays(j: Job, e: Event)
    requires Inv(j) && Enabled(j, e)
    ensures LeavesByCode(j) ==> LeavesByCode(Step(j, e))
    ensures LeavesOtherwise(j) ==> LeavesOtherwise(Step(j, e))
  {
    hide WinnerOk; hide ToolOk;
  }

  lemma {:induction false} WayIsFinal(j: Job, events: seq<Event>)
    requires Inv(j) && Run(j, events).Some?
    ensures LeavesByCode(j) ==> LeavesByCode(Run(j, events).value)
    ensures LeavesOtherwise(j) ==> LeavesOtherwise(Run(j, events).value)
    decreases |events|
  {
    hide Inv; hide Step; hide LeavesByCode; hide LeavesOtherwise;
    if events != [] {
      StepKeepsInv(j, events[0]);
      WayStays(j, events[0]);
      WayIsFinal(Step(j, events[0]), events[1..]);
    }
  }

  /**
   In any run in which a cancel wins and the runner's row is written, the row says
   cancelled exactly when what ran timed out or ended with a capability error; it lies
   after a result, which needs the flag down at the runner's last look, and after any
   other exception.
   */
  lemma CancelledJobAudit(j: Job, outcome: Outcome, events: seq<Event>)
    requires Reachable(j) && Enabled(j, RunnerConcludes(outcome))
    requires Run(Step(j, RunnerConcludes(outcome)), events).Some?
    ensures outcome == Result ==> !j.flag
    ensures var end := Run(Step(j, RunnerConcludes(outcome)), events).value;
      end.status == Cancelled && end.winner != Some(ByRunner) && end.told.Some? ==>
        (end.told.value.0 == Cancelled <==> RaisesCode(outcome))
  {
    ReachableInv(j);
    var next := Step(j, RunnerConcludes(outcome));
    StepKeepsInv(j, RunnerConcludes(outcome));
    assert RaisesCode(outcome) ==> LeavesByCode(next);
    assert !RaisesCode(outcome) ==> LeavesOtherwise(next);
    WayIsFinal(next, events);
    RunKeepsInv(next, events);
    hide WinnerOk; hide ToolOk; hide Run; hide Step; hide Enabled;
  }

  /** A job that runs, with its cancel about to set the flag. */
  lemma RunningJob() returns (j: Job)
    ensures Reachable(j) && j == New(true).(invoker := Done, runner := Working, cancels := map[0 := SetsFlag])
  {
    Begin(true);
    hide Reachable; hide Inv;
    j := New(true);
    Continue(j, InvokerMoves); j := Step(j, InvokerMoves);
    Continue(j, InvokerMoves); j := Step(j, InvokerMoves);
    Continue(j, InvokerMoves); j := Step(j, InvokerMoves);
    Continue(j, InvokerMoves); j := Step(j, InvokerMoves);
    Continue(j, CancelBegins(0)); j := Step(j, CancelBegins(0));
  }

  /** The capability returns just before the flag goes up: the job is cancelled and its row says completed. */
  lemma CancelledJobAuditedCompleted() returns (j: Job)
    ensures Reachable(j) && j.status == Cancelled && j.finishes == [Cancelled]
    ensures j.told == Some((Completed, Succeeded))
  {
    j := RunningJob();
    hide Reachable; hide Inv;
    Continue(j, RunnerConcludes(Result)); j := Step(j, RunnerConcludes(Result));
    Continue(j, CancelMoves(0)); j := Step(j, CancelMoves(0));
    Continue(j, CancelMoves(0)); j := Step(j, CancelMoves(0));
    Continue(j, CancelMoves(0)); j := Step(j, CancelMoves(0));
    Continue(j, RunnerLocks); j := Step(j, RunnerLocks);
    Continue(j, RunnerAudits(false)); j := Step(j, RunnerAudits(false));
  }

  // ---------------------------------------------------------------- the status a job ends with

  /** What the runner makes of what ran, with the cancel flag as it stood then. */
  function Verdict(outcome: Outcome, flag: bool): Status {
    if outcome == Result then Completed else if outcome == OtherCode && flag then Cancelled else Failed
  }

  /** The runner is to write this status, or has written it, or somebody else was first. */
  predicate HeadsFor(j: Job, status: Status) {
    && (j.status == Started ==> j.runner.WantsLock? && j.runner.to == status)
    && (j.winner == Some(ByRunner) ==> j.status == status)
    && j.runner != Working && j.invoker == Done
  }

  lemma HeadingStays(j: Job, e: Event, status: Status)
    requires Inv(j) && Enabled(j, e) && HeadsFor(j, status)
    ensures HeadsFor(Step(j, e), status)
  {
    hide ToolOk; hide AuditTruth;
  }

  lemma {:induction false} HeadingLeads(j: Job, events: seq<Event>, status: Status)
    requires Inv(j) && HeadsFor(j, status) && Run(j, events).Some?
    ensures HeadsFor(Run(j, events).value, status) && Inv(Run(j, events).value)
    decreases |events|
  {
    if events != [] {
      StepKeepsInv(j, events[0]);
      HeadingStays(j, events[0], status);
      hide Step; hide Inv; hide HeadsFor;
      HeadingLeads(Step(j, events[0]), events[1..], status);
    }
  }

  /**
   Whatever happens after the runner's last look, the job ends completed by its runner only
   after a result, cancelled only by a cancel or after a capability error with the flag up
   that is no time-out, and failed otherwise.
   */
  lemma StatusExactly(j: Job, outcome: Outcome, events: seq<Event>)
    requires Reachable(j) && Enabled(j, RunnerConcludes(outcome))
    requires Run(Step(j, RunnerConcludes(outcome)), events).Some?
    ensures var end := Run(Step(j, RunnerConcludes(outcome)), events).value;
      Terminal(end.status) ==>
        end.status == if end.winner == Some(ByRunner) then Verdict(outcome, j.flag) else Cancelled
  {
    ReachableInv(j);
    StepKeepsInv(j, RunnerConcludes(outcome));
    var next := Step(j, RunnerConcludes(outcome));
    HeadingLeads(next, events, Verdict(outcome, j.flag));
  }

  /** The flag goes up before the lock is asked for; under it a cancel takes exactly a job without a status. */
  lemma CancelExactly(j: Job, c: nat)
    requires c in j.cancels
    ensures j.cancels[c] == SetsFlag ==> Cancel(j, c) == j.(flag := true, cancels := j.cancels[c := TakesLock])
    ensures j.cancels[c] == TakesLock && j.status == Started ==>
      Cancel(j, c).status == Cancelled && Cancel(j, c).cancels == j.cancels[c := FinishesTool]
    ensures j.cancels[c] == TakesLock && j.status != Started ==> Cancel(j, c) == j.(cancels := j.cancels[c := Returned])
    ensures j.cancels[c] == FinishesTool ==>
      && Cancel(j, c).finishes == (if j.hasTask then j.finishes + [Cancelled] else j.finishes)
      && Cancel(j, c).cancels == j.cancels[c := Returned]
  {}

  // ---------------------------------------------------------------- a job can end

  predicate Uncancelled(events: seq<Event>) {
    forall i :: 0 <= i < |events| ==> !events[i].CancelBegins? && !events[i].CancelMoves?
  }

  /** What the invoker and the runner have left to do at most. */
  function Left(j: Job): nat {
    var setup := match j.invoker
      case BindsTask => 4 case BindsFlag => 3 case Publishes => 2 case StartsRunner => 1 case Done => 0;
    var work := match j.runner
      case NotStarted => 4 case Working => 4 case WantsLock(_, _) => 3 case TellsTool(_) => 2 case Audits(_) => 1
      case Ended => 0;
    setup + work
  }

  /** The next thing the invoker or the runner does when what runs raises. */
  function Next(j: Job): Event {
    if j.invoker != Done then InvokerMoves
    else match j.runner
      case Working => RunnerConcludes(Exception)
      case WantsLock(_, _) => RunnerLocks
      case TellsTool(_) => RunnerFinishesTool
      case _ => RunnerAudits(false)
  }

  lemma NextHelps(j: Job)
    requires Inv(j) && j.runner != Ended
    ensures Enabled(j, Next(j)) && Left(Step(j, Next(j))) < Left(j)
  {
    hide WinnerOk; hide ToolOk; hide AuditTruth;
  }

  /** Every job can get to its end without a cancel: no thread waits for another. */
  lemma {:induction false} JobCanEnd(j: Job) returns (events: seq<Event>)
    requires Reachable(j)
    ensures Uncancelled(events) && Run(j, events).Some?
    ensures Run(j, events).value.runner == Ended && Terminal(Run(j, events).value.status)
    decreases Left(j)
  {
    ReachableInv(j);
    if j.runner == Ended {
      events := [];
    } else {
      var e := Next(j);
      NextHelps(j);
      Continue(j, e);
      hide Step; hide Inv; hide Reachable; hide Left;
      var rest := JobCanEnd(Step(j, e));
      events := [e] + rest;
      assert events[1..] == rest;
    }
  }

  // ---------------------------------------------------------------- rows and ids

  /**
   The runner's row: completed after a result, failed after another exception, the job's own
   status after a capability error.  A row that cannot be written is lost, and after a result
   the runner then finalizes the job as failed, too late if it is terminal.
   */
  lemma RowExactly(j: Job, raises: bool)
    requires j.runner.Audits?
    ensures var after := Step(j, RunnerAudits(raises)); var how := j.runner.how;
      && after.status == j.status && after.winner == j.winner && after.finishes == j.finishes
      && (raises && how == Succeeded ==> after.runner == WantsLock(Failed, OtherError) && after.told == j.told)
      && (raises && how != Succeeded ==> after.runner == Ended && after.told == None)
      && (!raises ==>
            && after.runner == Ended
            && after.told == Some((
                 if how == Succeeded then Completed else if how == OtherError then Failed else j.status, how)))
  {}

  /** The id is out. */
  predicate IdIsOut(j: Job) { j.invoker == StartsRunner || j.invoker == Done }

  lemma {:induction false} IdComesFirst(j: Job, events: seq<Event>)
    requires (j.cancels == map[] || IdIsOut(j)) && Run(j, events).Some?
    ensures Run(j, events).value.cancels == map[] || IdIsOut(Run(j, events).value)
    decreases |events|
  {
    if events != [] {
      IdComesFirst(Step(j, events[0]), events[1..]);
    }
  }

  /** Nobody cancels a job before its row has published its id; from then on anybody can, with no runner yet too. */
  lemma CancelsFollowTheRow(j: Job, c: nat)
    requires Reachable(j)
    ensures j.cancels != map[] ==> j.invoker == StartsRunner || j.invoker == Done
    ensures c !in j.cancels ==> (Enabled(j, CancelBegins(c)) <==> j.invoker == StartsRunner || j.invoker == Done)
  {
    var events: seq<Event> :| Run(New(j.hasTask), events) == Some(j);
    IdComesFirst(New(j.hasTask), events);
  }
}
