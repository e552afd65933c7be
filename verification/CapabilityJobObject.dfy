/**
 The job dictionary of CapabilityService and the threads that write it
 (appserver/capabilities.py:551-655, 713-749), proved against module CapabilityJobs.
 */
module CapabilityServices {
  import opened Wrappers
  import opened CapabilityJobs

  class CapabilityJob {
    const hasTask: bool
    var status: Status
    var flag: bool
    var invoker: Invoker
    var runner: Runner
    var cancels: map<nat, Canceller>
    var finishes: seq<Status>
    var told: Option<(Status, How)>
    ghost var winner: Option<Winner>

    ghost function View(): Job
      reads this
    {
      Job(hasTask, status, winner, flag, invoker, runner, cancels, finishes, told)
    }

    ghost predicate Valid()
      reads this
    {
      Inv(View())
    }

    constructor (hasTask: bool)
      ensures Valid() && View() == New(hasTask)
    {
      this.hasTask := hasTask;
      status, flag, invoker, runner := CapabilityJobs.Started, false, BindsTask, NotStarted;
      cancels, finishes, told, winner := map[], [], None, None;
    }

    /** The compare-and-set under the lock that every writer of a terminal status goes through. */
    method TakeTerminal(to: Status, who: Winner) returns (won: bool)
      modifies `status, `winner
      ensures won <==> !Terminal(old(status))
      ensures won ==> status == to && winner == Some(who)
      ensures !won ==> status == old(status) && winner == old(winner)
    {
      won := !Terminal(status);
      if won {
        status, winner := to, Some(who);
      }
    }

    method FinishTool(to: Status)
      modifies `finishes
      ensures finishes == TellTool(old(View()), to)
    {
      if hasTask {
        finishes := finishes + [to];
      }
    }

    method InvokeNext()
      modifies `invoker, `runner
      ensures View() == Invoke(old(View()))
    {
      match invoker
      case BindsTask => invoker := BindsFlag;
      case BindsFlag => invoker := Publishes;
      case Publishes => invoker := StartsRunner;
      case StartsRunner => invoker, runner := Done, Working;
      case Done =>
    }

    method FinalizeJob()
      requires runner.WantsLock?
      modifies `status, `winner, `runner
      ensures View() == Finalize(old(View()))
    {
      var how := runner.how;
      var won := TakeTerminal(runner.to, ByRunner);
      runner := if won then TellsTool(how) else Audits(how);
    }

    method AuditRun(raises: bool)
      requires runner.Audits?
      modifies `runner, `told
      ensures View() == Audit(old(View()), raises)
    {
      var how := runner.how;
      if raises && how == Succeeded {
        runner := WantsLock(Failed, OtherError);
      } else {
        var row := match how case Succeeded => Completed case OtherError => Failed case CapabilityError => status;
        runner, told := Ended, if raises then None else Some((row, how));
      }
    }

    /** cancel(), cut before the lock and before the tool record is told. */
    method CancelNext(c: nat)
      requires c in cancels && cancels[c] != Returned
      modifies `flag, `status, `winner, `cancels, `finishes
      ensures View() == Cancel(old(View()), c)
    {
      var at := cancels[c];
      if at == SetsFlag {
        flag, cancels := true, cancels[c := TakesLock];
      } else if at == TakesLock {
        var won := TakeTerminal(Cancelled, ByCancel(c));
        cancels := cancels[c := if won then FinishesTool else Returned];
      } else {
        FinishTool(Cancelled);
        cancels := cancels[c := Returned];
      }
    }

    /** One stretch of whichever thread runs next. */
    method Advance(e: Event)
      requires Valid() && Enabled(View(), e)
      modifies this
      ensures Valid() && View() == Step(old(View()), e)
    {
      StepKeepsInv(View(), e);
      hide Inv; hide Finalize; hide Cancel; hide Audit; hide Invoke; hide TellTool;
      match e
      case InvokerMoves => InvokeNext();
      case RunnerConcludes(outcome) => runner := Conclusion(outcome, flag);
      case RunnerLocks => FinalizeJob();
      case RunnerFinishesTool => {
        FinishTool(status);
        runner := Audits(runner.how);
      }
      case RunnerAudits(raises) => AuditRun(raises);
      case CancelBegins(c) => cancels := cancels[c := SetsFlag];
      case CancelMoves(c) => CancelNext(c);
    }
  }
}
