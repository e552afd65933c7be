/**
 What the steps of module AgentLifecycle come to: when exactly an agent enters a
 state, starts or stops a main task, calls its target and publishes an event; that
 every operation can end; and what each operation brings about when nothing is in
 its way.  Nothing here is told in terms of the steps of the operations.
 */
module AgentOutcomes {
  import opened Wrappers
  import opened AgentLifecycle

  /** The event lets an operation that stands at op run on. */
  predicate Resumes(t: Task, e: Event, op: Op) {
    e.OpResumes? && e.id in t.ops && t.ops[e.id] == op
  }

  /** The event ends a target call in the given way. */
  predicate TargetEnds(t: Task, e: Event, outcome: Outcome) {
    e.MainResumes? && e.k < |t.mains| && t.mains[e.k].spot.InTarget? && e.outcome == outcome
  }

  /** A call with the checkpoint, not yet the plain call that follows a TypeError. */
  predicate TakesCheckpoint(m: Main) { m.resumed && m.spot == InTarget(false) }

  /** What interrupt may be asked of. */
  predicate Interruptible(life: Life) { life == Running || life == Paused || life == Bootstrap }

  // ---------------------------------------------------------------- states

  /** The table, pair by pair. */
  lemma TableExactly(a: Life, b: Life)
    ensures Allowed(a, b) <==>
      (a, b) in {
        (Idle, Bootstrap), (Bootstrap, Running), (Bootstrap, Failed), (Bootstrap, Cancelled),
        (Running, Done), (Running, Failed), (Running, Paused), (Running, Cancelled),
        (Paused, Running), (Paused, Cancelled), (Failed, Running)
      }
  {}

  /** Every way into a state. */
  predicate Enters(t: Task, e: Event, to: Life) {
    match to
    case Idle => false
    case Bootstrap => t.life == Idle && Resumes(t, e, SpawnWantsBootstrap)
    case Running =>
      || (t.life == Bootstrap && Resumes(t, e, SpawnWantsRunning))
      || (Resumes(t, e, ResumeLoads) && e.ok)
    case Paused => t.life == Running && Resumes(t, e, PauseWantsPaused)
    case Done => t.life == Running && TargetEnds(t, e, Returns)
    case Failed =>
      && t.life == Running
      && (TargetEnds(t, e, Raises) || (TargetEnds(t, e, RaisesTypeError) && !TakesCheckpoint(t.mains[e.k])))
    case Cancelled => Interruptible(t.life) && Resumes(t, e, InterruptWantsCancelled)
  }

  lemma DoneAt(t: Task, e: Event)
    requires Inv(t) && Enabled(t, e) && t.life != Done
    ensures Step(t, e).life == Done <==> Enters(t, e, Done)
  {
    if e.MainResumes? {
      BootHasNoMain(t);
    }
    hide Inv;
  }

  lemma FailedAt(t: Task, e: Event)
    requires Reachable(t) && Enabled(t, e) && t.life != Failed
    ensures Step(t, e).life == Failed <==> Enters(t, e, Failed)
  {
    FailsWithItsTarget(t, e);
    hide Reachable;
  }

  lemma BootstrapAt(t: Task, e: Event)
    requires Inv(t) && Enabled(t, e) && t.life != Bootstrap
    ensures Step(t, e).life == Bootstrap <==> Enters(t, e, Bootstrap)
  {
    if e.OpResumes? {
      SpawnSeesBootstrap(t, e.id);
    }
    hide Inv;
  }

  lemma RunningAt(t: Task, e: Event)
    requires Inv(t) && Enabled(t, e) && t.life != Running
    ensures Step(t, e).life == Running <==> Enters(t, e, Running)
  {
    if e.OpResumes? {
      SpawnSeesBootstrap(t, e.id);
    }
    hide Inv;
  }

  lemma PausedAt(t: Task, e: Event)
    requires Inv(t) && Enabled(t, e) && t.life != Paused
    ensures Step(t, e).life == Paused <==> Enters(t, e, Paused)
  {
    if e.OpResumes? {
      SpawnSeesBootstrap(t, e.id);
    }
    hide Inv;
  }

  lemma CancelledAt(t: Task, e: Event)
    requires Inv(t) && Enabled(t, e) && t.life != Cancelled
    ensures Step(t, e).life == Cancelled <==> Enters(t, e, Cancelled)
  {
    hide MainLive; hide Blocked;
    if e.OpResumes? {
      SpawnSeesBootstrap(t, e.id);
    }
    hide Inv;
  }

  /** An operation loads a checkpoint only in an agent at rest. */
  lemma LoaderFindsRest(t: Task, e: Event)
    requires Inv(t) && Resumes(t, e, ResumeLoads)
    ensures t.life == Paused || t.life == Failed
    ensures !MainLive(t.mains)
  {}

  lemma NeverIdleAgain(t: Task, e: Event)
    requires Enabled(t, e) && t.life != Idle
    ensures Step(t, e).life == Idle <==> Enters(t, e, Idle)
  {
    hide Blocked;
  }

  /** Those are all: the whole life of an agent.  A checkpoint is loaded only in an agent that paused or failed. */
  lemma EntersExactly(t: Task, e: Event, to: Life)
    requires Reachable(t) && Enabled(t, e) && to != t.life
    ensures Step(t, e).life == to <==> Enters(t, e, to)
    ensures Resumes(t, e, ResumeLoads) ==> (t.life == Paused || t.life == Failed) && !MainLive(t.mains)
  {
    hide *;
    ReachableInv(t);
    if Resumes(t, e, ResumeLoads) {
      LoaderFindsRest(t, e);
    }
    match to
    case Idle => NeverIdleAgain(t, e);
    case Bootstrap => BootstrapAt(t, e);
    case Running => RunningAt(t, e);
    case Paused => PausedAt(t, e);
    case Done => DoneAt(t, e);
    case Failed => FailedAt(t, e);
    case Cancelled => CancelledAt(t, e);
  }

  /** An agent is done exactly when its target returns while it runs; the done event goes out then, once. */
  lemma DoneWithItsTarget(t: Task, e: Event)
    requires Reachable(t) && Enabled(t, e) && t.life != Done
    ensures Step(t, e).life == Done <==>
      t.life == Running && e.MainResumes? && t.mains[e.k].spot.InTarget? && e.outcome == Returns
    ensures Step(t, e).life == Done ==>
      && Step(t, e).notes == t.notes + [AgentDone]
      && Step(t, e).mains == t.mains[e.k := t.mains[e.k].(spot := Ended)]
  {
    ReachableInv(t);
    DoneAt(t, e);
    hide Reachable; hide Inv; hide Go; hide Begin; hide Abort;
  }

  // ---------------------------------------------------------------- main tasks, target calls, events

  predicate Starts(t: Task, e: Event) { t.life != Running && Enters(t, e, Running) }

  /** The operation asks the current main task to stop. */
  predicate Stops(t: Task, e: Event) {
    && MainLive(t.mains)
    && ((Resumes(t, e, PauseSaves) && e.ok) || (Interruptible(t.life) && Resumes(t, e, InterruptWantsCancelled)))
  }

  /** Where a main task stands after its next stretch. */
  function NextSpot(m: Main, outcome: Outcome): Spot {
    if m.spot == Created && !m.cancelAsked then InTarget(false)
    else if TakesCheckpoint(m) && outcome == RaisesTypeError then InTarget(true)
    else Ended
  }

  function MainsAfter(t: Task, e: Event): seq<Main> {
    if Starts(t, e) then t.mains + [Main(Resumes(t, e, ResumeLoads), Created, false)]
    else if Stops(t, e) then t.mains[|t.mains| - 1 := t.mains[|t.mains| - 1].(cancelAsked := true)]
    else if e.MainResumes? && e.k < |t.mains|
    then t.mains[e.k := t.mains[e.k].(spot := NextSpot(t.mains[e.k], e.outcome))]
    else t.mains
  }

  function CallsAfter(t: Task, e: Event): seq<Call> {
    if e.MainResumes? && e.k < |t.mains| && NextSpot(t.mains[e.k], e.outcome).InTarget?
    then t.calls + [Call(t.life, NextSpot(t.mains[e.k], e.outcome).again)]
    else t.calls
  }

  /** An operation that stands here neither starts nor stops a main task next. */
  predicate LeavesMains(op: Op) {
    op != SpawnWantsRunning && op != ResumeLoads && op != PauseSaves && op != InterruptWantsCancelled
  }

  lemma OtherOperation(t: Task, id: nat, ok: bool)
    requires Enabled(t, OpResumes(id, ok)) && LeavesMains(t.ops[id])
    ensures Go(t, id, ok).mains == t.mains && Go(t, id, ok).calls == t.calls
    ensures MainsAfter(t, OpResumes(id, ok)) == t.mains
  {
    hide Blocked; hide Allowed; hide MainLive;
  }

  lemma OperationMains(t: Task, id: nat, ok: bool)
    requires Inv(t) && Enabled(t, OpResumes(id, ok))
    ensures Go(t, id, ok).mains == MainsAfter(t, OpResumes(id, ok)) && Go(t, id, ok).calls == t.calls
  {
    if LeavesMains(t.ops[id]) {
      OtherOperation(t, id, ok);
      hide *;
    } else {
      SpawnSeesBootstrap(t, id);
      if t.ops[id] == ResumeLoads {
        LoaderFindsRest(t, OpResumes(id, ok));
      }
      hide Inv; hide Blocked;
    }
  }

  lemma MainMoves(t: Task, k: nat, outcome: Outcome)
    requires Inv(t) && Enabled(t, MainResumes(k, outcome))
    ensures MainGo(t, k, outcome).mains == MainsAfter(t, MainResumes(k, outcome))
    ensures MainGo(t, k, outcome).calls == CallsAfter(t, MainResumes(k, outcome))
  {
    hide Inv; hide Allowed; hide Go; hide MainLive;
  }

  /**
   A main task starts exactly when the agent enters RUNNING and is asked to stop exactly
   by a pause that has saved or an interrupt that cancels; a target call begins exactly
   with a main task that nobody stopped, or after a TypeError of a call with the checkpoint.
   */
  lemma MainsExactly(t: Task, e: Event)
    requires Reachable(t) && Enabled(t, e)
    ensures Step(t, e).mains == MainsAfter(t, e) && Step(t, e).calls == CallsAfter(t, e)
  {
    ReachableInv(t);
    hide Reachable; hide Inv; hide Go; hide MainGo;
    match e
    case OpResumes(id, ok) => OperationMains(t, id, ok); hide MainsAfter;
    case MainResumes(k, outcome) => MainMoves(t, k, outcome); hide MainsAfter; hide CallsAfter;
    case _ =>
  }

  /** What a step publishes. */
  function Published(t: Task, e: Event): seq<Note> {
    if t.life == Idle && Enters(t, e, Bootstrap) then [AgentStarted]
    else if Enters(t, e, Paused) then [AgentPaused]
    else if Enters(t, e, Done) then [AgentDone]
    else if Enters(t, e, Cancelled) && !MainLive(t.mains) then [AgentCancelled]
    else if e.OpResumes? && e.id in t.ops && t.ops[e.id].InterruptGathers? then [AgentCancelled]
    else []
  }

  predicate Silent(op: Op) {
    && op != SpawnWantsBootstrap && op != PauseWantsPaused && op != InterruptWantsCancelled
    && !op.InterruptGathers?
  }

  lemma SilentOperation(t: Task, id: nat, ok: bool)
    requires Enabled(t, OpResumes(id, ok)) && Silent(t.ops[id])
    ensures Go(t, id, ok).notes == t.notes && Published(t, OpResumes(id, ok)) == []
  {
    hide Blocked; hide Allowed; hide MainLive;
  }

  lemma OperationPublishes(t: Task, id: nat, ok: bool)
    requires Enabled(t, OpResumes(id, ok))
    ensures Go(t, id, ok).notes == t.notes + Published(t, OpResumes(id, ok))
  {
    if Silent(t.ops[id]) {
      SilentOperation(t, id, ok);
      hide *;
    }
    hide Blocked;
  }

  lemma MainPublishes(t: Task, k: nat, outcome: Outcome)
    requires Inv(t) && Enabled(t, MainResumes(k, outcome))
    ensures MainGo(t, k, outcome).notes == t.notes + Published(t, MainResumes(k, outcome))
  {
    BootHasNoMain(t);
    hide Inv; hide Go;
  }

  /** Every event goes out with its state, except the cancelled event of an interrupt that waits for the main task. */
  lemma PublishesExactly(t: Task, e: Event)
    requires Reachable(t) && Enabled(t, e)
    ensures Step(t, e).notes == t.notes + Published(t, e)
  {
    ReachableInv(t);
    hide Reachable; hide Inv; hide Go; hide MainGo;
    match e
    case OpResumes(id, ok) => OperationPublishes(t, id, ok);
    case MainResumes(k, outcome) => MainPublishes(t, k, outcome);
    case _ =>
  }

  // ---------------------------------------------------------------- waiting

  /** An operation waits for the main task it stopped, or for the condition, and for nothing else. */
  lemma WaitsExactly(t: Task, id: nat, ok: bool)
    requires id in t.ops
    ensures var op := t.ops[id];
      Enabled(t, OpResumes(id, ok)) <==>
        if op.PauseGathers? || op.InterruptGathers? then op.main < |t.mains| ==> t.mains[op.main].spot == Ended
        else op == PauseSaves || op == InterruptSaves || op == ResumeLoads || t.lock.None?
  {}

  /** An interrupt that waits does so for the newest main task, and the cancelled event comes after that has ended. */
  predicate TellsLast(t: Task) {
    && (forall id :: id in t.ops && t.ops[id].InterruptGathers? ==> t.ops[id].main + 1 == |t.mains|)
    && (t.ending == Told ==> !MainLive(t.mains))
  }

  lemma OperationTellsLast(t: Task, id: nat, ok: bool)
    requires Inv(t) && TellsLast(t) && Enabled(t, OpResumes(id, ok))
    ensures TellsLast(Go(t, id, ok))
  {
    SpawnSeesBootstrap(t, id);
    OneEndingOnly(t);
    hide Inv;
  }

  lemma OneEndingOnly(t: Task)
    requires Inv(t)
    ensures t.life == Cancelled <==> t.ending != NoEnd
    ensures forall id :: id in t.ops && t.ops[id].InterruptGathers? ==> t.life == Cancelled
    ensures forall id :: id in t.ops && t.ops[id] == ResumeLoads ==> t.life != Cancelled
  {
    hide PathOk; hide CallsOk; hide OpsOk; hide MainsOk; hide Count;
  }

  lemma MainTellsLast(t: Task, k: nat, outcome: Outcome)
    requires Inv(t) && TellsLast(t) && Enabled(t, MainResumes(k, outcome))
    ensures TellsLast(MainGo(t, k, outcome))
  {
    assert k == |t.mains| - 1;
    hide Inv; hide Go;
  }

  lemma StepTellsLast(t: Task, e: Event)
    requires Inv(t) && TellsLast(t) && Enabled(t, e)
    ensures TellsLast(Step(t, e))
  {
    hide Inv; hide Go; hide MainGo;
    match e
    case OpResumes(id, ok) => OperationTellsLast(t, id, ok); hide TellsLast;
    case MainResumes(k, outcome) => MainTellsLast(t, k, outcome); hide TellsLast;
    case _ =>
  }

  lemma {:induction false} RunTellsLast(t: Task, events: seq<Event>)
    requires Inv(t) && TellsLast(t) && Run(t, events).Some?
    ensures TellsLast(Run(t, events).value)
    decreases |events|
  {
    if events != [] {
      StepKeepsInv(t, events[0]);
      StepTellsLast(t, events[0]);
      hide Step; hide Inv; hide TellsLast;
      RunTellsLast(Step(t, events[0]), events[1..]);
    }
  }

  /** When the cancelled event is out no main task is live any more. */
  lemma CancelledEventComesLast(t: Task)
    requires Reachable(t) && AgentCancelled in t.notes
    ensures t.life == Cancelled && forall k :: 0 <= k < |t.mains| ==> t.mains[k].spot == Ended
  {
    var events: seq<Event> :| Run(FRESH, events) == Some(t);
    RunTellsLast(FRESH, events);
    ReachableInv(t);
    CancelledIsAnnounced(t);
    EndPublishedOnce(t);
    hide Run; hide Reachable;
  }

  // ---------------------------------------------------------------- every operation can end

  /** The condition is held over a suspension only by a resume that is loading its checkpoint. */
  predicate HeldByLoader(t: Task) {
    t.lock.Some? ==> t.lock.value in t.ops && t.ops[t.lock.value] == ResumeLoads
  }

  lemma StepKeepsHeld(t: Task, e: Event)
    requires Inv(t) && HeldByLoader(t) && Enabled(t, e)
    ensures HeldByLoader(Step(t, e))
  {
    hide PathOk; hide CallsOk; hide OpsOk; hide NotesOk; hide MainsOk; hide Allowed; hide MainLive;
  }

  lemma {:induction false} RunKeepsHeld(t: Task, events: seq<Event>)
    requires Inv(t) && HeldByLoader(t) && Run(t, events).Some?
    ensures HeldByLoader(Run(t, events).value)
    decreases |events|
  {
    if events != [] {
      StepKeepsInv(t, events[0]);
      StepKeepsHeld(t, events[0]);
      hide Step; hide Inv; hide HeldByLoader;
      RunKeepsHeld(Step(t, events[0]), events[1..]);
    }
  }

  lemma ReachableHeld(t: Task)
    requires Reachable(t)
    ensures HeldByLoader(t)
  {
    var events: seq<Event> :| Run(FRESH, events) == Some(t);
    RunKeepsHeld(FRESH, events);
  }

  /** No caller gives up. */
  predicate Patient(events: seq<Event>) { forall i :: 0 <= i < |events| ==> !events[i].CallerCancelled? }

  ghost predicate Leads(t: Task, end: Task) {
    exists events: seq<Event> :: Patient(events) && Run(t, events) == Some(end)
  }

  lemma LeadsNowhere(t: Task)
    ensures Leads(t, t)
  {
    assert Patient([]) && Run(t, []) == Some(t);
  }

  lemma LeadsOn(t: Task, end: Task, e: Event)
    requires Leads(t, end) && Enabled(end, e) && !e.CallerCancelled?
    ensures Leads(t, Step(end, e))
  {
    var events: seq<Event> :| Patient(events) && Run(t, events) == Some(end);
    RunAppend(t, events, e);
    assert Patient(events + [e]);
  }

  lemma LeadsReachable(t: Task, end: Task)
    requires Reachable(t) && Leads(t, end)
    ensures Reachable(end)
  {
    var before: seq<Event> :| Run(FRESH, before) == Some(t);
    var after: seq<Event> :| Patient(after) && Run(t, after) == Some(end);
    RunsJoin(FRESH, before, after);
  }

  lemma {:induction false} RunsJoin(t: Task, before: seq<Event>, after: seq<Event>)
    requires Run(t, before).Some?
    ensures Run(t, before + after) == Run(Run(t, before).value, after)
    decreases |before|
  {
    if before == [] {
      assert before + after == after;
    } else {
      assert (before + after)[1..] == before[1..] + after;
      RunsJoin(Step(t, before[0]), before[1..], after);
    }
  }

  /** Whoever holds the condition can give it back, and nothing else need change. */
  lemma Unlock(t: Task) returns (end: Task)
    requires Reachable(t)
    ensures Leads(t, end) && Reachable(end) && end.lock == None
    ensures end.life == t.life && end.mains == t.mains && end.notes == t.notes
    ensures end.ops == if t.lock.Some? then t.ops - {t.lock.value} else t.ops
    ensures t.lock.Some? ==> t.lock.value in t.ops && t.ops[t.lock.value] == ResumeLoads
  {
    ReachableHeld(t);
    hide Run; hide Reachable; hide Leads;
    LeadsNowhere(t);
    end := t;
    if t.lock.Some? {
      var e := OpResumes(t.lock.value, false);
      LeadsOn(t, end, e);
      end := Step(t, e);
    }
    LeadsReachable(t, end);
  }

  /** A main task can end. */
  lemma StopMain(t: Task, k: nat) returns (end: Task)
    requires Reachable(t) && k < |t.mains|
    ensures Leads(t, end) && Reachable(end) && k < |end.mains| && end.mains[k].spot == Ended
    ensures end.life == t.life && end.ops == t.ops && end.notes == t.notes && end.lock == t.lock
    ensures |end.mains| == |t.mains|
  {
    hide Run; hide Reachable; hide Leads;
    LeadsNowhere(t);
    end := t;
    if end.mains[k].spot == Created {
      LeadsOn(t, end, MainResumes(k, Cancels));
      end := Step(end, MainResumes(k, Cancels));
    }
    if end.mains[k].spot != Ended {
      LeadsOn(t, end, MainResumes(k, Cancels));
      end := Step(end, MainResumes(k, Cancels));
    }
    LeadsReachable(t, end);
  }

  /** The stretches an operation has left at most. */
  function Left(op: Op): nat {
    match op
    case SpawnWantsBootstrap => 3
    case SpawnWantsRunning => 2
    case SpawnWantsFailed => 1
    case PauseSaves => 3
    case PauseGathers(_) => 2
    case PauseWantsPaused => 1
    case InterruptSaves => 3
    case InterruptWantsCancelled => 2
    case InterruptGathers(_) => 1
    case ResumeWantsLock => 2
    case ResumeLoads => 1
  }

  lemma OneStretchLess(t: Task, id: nat, ok: bool)
    requires Enabled(t, OpResumes(id, ok))
    ensures var end := Step(t, OpResumes(id, ok)); id in end.ops ==> Left(end.ops[id]) < Left(t.ops[id])
  {
    hide Blocked; hide Allowed; hide MainLive;
  }

  /** What an operation waits for can happen without it. */
  lemma Unblock(t: Task, id: nat) returns (end: Task)
    requires Reachable(t) && id in t.ops
    ensures Leads(t, end) && Reachable(end)
    ensures id in end.ops && end.ops[id] == t.ops[id] && !Blocked(end, end.ops[id])
  {
    hide Run; hide Reachable; hide Leads;
    if t.ops[id].PauseGathers? && t.ops[id].main < |t.mains| {
      end := StopMain(t, t.ops[id].main);
    } else if t.ops[id].InterruptGathers? && t.ops[id].main < |t.mains| {
      end := StopMain(t, t.ops[id].main);
    } else if Blocked(t, t.ops[id]) {
      end := Unlock(t);
    } else {
      LeadsNowhere(t);
      end := t;
    }
  }

  /** No operation is ever stuck: from every reachable state some run ends it in which no caller gives up. */
  lemma OperationCanEnd(t: Task, id: nat) returns (end: Task)
    requires Reachable(t) && id in t.ops
    ensures Leads(t, end) && Reachable(end) && id !in end.ops
    decreases Left(t.ops[id])
  {
    var free := Unblock(t, id);
    OneStretchLess(free, id, true);
    LeadsOn(t, free, OpResumes(id, true));
    end := Step(free, OpResumes(id, true));
    hide Run; hide Reachable; hide Leads; hide Step; hide Left;
    LeadsReachable(t, end);
    if id in end.ops {
      var later := OperationCanEnd(end, id);
      LeadsJoin(t, end, later);
      end := later;
    }
  }

  lemma LeadsJoin(t: Task, middle: Task, end: Task)
    requires Leads(t, middle) && Leads(middle, end)
    ensures Leads(t, end)
  {
    var before: seq<Event> :| Patient(before) && Run(t, before) == Some(middle);
    var after: seq<Event> :| Patient(after) && Run(middle, after) == Some(end);
    RunsJoin(t, before, after);
    assert Patient(before + after);
  }

  // ---------------------------------------------------------------- what the operations bring about

  /** Pause and interrupt are refused at once in the wrong state; everything else is taken up. */
  lemma RefusedExactly(t: Task, id: nat, r: Request)
    requires id !in t.ops
    ensures Step(t, Requested(id, r)) == t <==>
      (r == Pause && t.life != Running) || (r == Interrupt && !Interruptible(t.life))
    ensures Step(t, Requested(id, r)) == t || id in Step(t, Requested(id, r)).ops
  {}

  /** An operation whose checkpoint cannot be written or read is over and has changed nothing. */
  lemma WithoutCheckpoint(t: Task, id: nat)
    requires Enabled(t, OpResumes(id, false))
    requires t.ops[id] == PauseSaves || t.ops[id] == InterruptSaves || t.ops[id] == ResumeLoads
    ensures var end := Step(t, OpResumes(id, false));
      end == t.(ops := t.ops - {id}, lock := if t.ops[id] == ResumeLoads then None else t.lock)
  {}

  /** A stretch of operation id, with its checkpoint there. */
  lemma Onward(t: Task, now: Task, id: nat) returns (next: Task)
    requires Leads(t, now) && Enabled(now, OpResumes(id, true))
    ensures next == Step(now, OpResumes(id, true)) && Leads(t, next)
  {
    LeadsOn(t, now, OpResumes(id, true));
    next := Step(now, OpResumes(id, true));
  }

  lemma SpawnStarts(t: Task, id: nat) returns (end: Task)
    requires Reachable(t) && t.life == Idle && id !in t.ops
    ensures Leads(t, end) && end.life == Running && id !in end.ops
    ensures end.notes == t.notes + [AgentStarted] && end.mains == [Main(false, Created, false)]
  {
    ReachableInv(t);
    IdleIsUnborn(t);
    assert t.lock == None;
    hide Inv; hide Run; hide Reachable; hide Leads;
    LeadsNowhere(t);
    LeadsOn(t, t, Requested(id, Spawn));
    end := Step(t, Requested(id, Spawn));
    end := Onward(t, end, id);
    end := Onward(t, end, id);
  }

  lemma RunningIsFree(t: Task)
    requires Inv(t) && (t.life == Running || t.life == Bootstrap)
    ensures t.lock == None
  {}

  /** A pause saves and asks the main task to stop. */
  lemma PauseAsks(t: Task, id: nat) returns (end: Task)
    requires Reachable(t) && t.life == Running && id !in t.ops && MainLive(t.mains)
    ensures Leads(t, end) && end.life == Running && end.lock == None && end.notes == t.notes
    ensures id in end.ops && end.ops[id] == PauseGathers(|t.mains| - 1)
    ensures |end.mains| == |t.mains| && MainLive(end.mains) && end.mains[|t.mains| - 1].cancelAsked
  {
    ReachableInv(t);
    RunningIsFree(t);
    hide Inv; hide Run; hide Reachable; hide Leads;
    LeadsNowhere(t);
    LeadsOn(t, t, Requested(id, Pause));
    end := Step(t, Requested(id, Pause));
    end := Onward(t, end, id);
  }

  /** The main task an operation waits for ends. */
  lemma Gathered(t: Task, now: Task, id: nat, k: nat) returns (end: Task)
    requires Leads(t, now) && k == |now.mains| - 1 && MainLive(now.mains) && now.mains[k].cancelAsked
    requires id in now.ops && (now.ops[id] == PauseGathers(k) || now.ops[id] == InterruptGathers(k))
    ensures Leads(t, end) && !MainLive(end.mains) && Enabled(end, OpResumes(id, true))
    ensures end.life == now.life && end.ops == now.ops && end.notes == now.notes && end.lock == now.lock
  {
    hide Leads;
    LeadsOn(t, now, MainResumes(k, Cancels));
    end := Step(now, MainResumes(k, Cancels));
  }

  /** A running agent that is asked to pause and whose main task then stops is paused, and says so. */
  lemma PausePauses(t: Task, id: nat) returns (end: Task)
    requires Reachable(t) && t.life == Running && id !in t.ops
    ensures Leads(t, end) && end.life == Paused && id !in end.ops
    ensures end.notes == t.notes + [AgentPaused] && !MainLive(end.mains)
  {
    hide Run; hide Reachable; hide Leads;
    if MainLive(t.mains) {
      end := PauseAsks(t, id);
      end := Gathered(t, end, id, |t.mains| - 1);
      end := Onward(t, end, id);
    } else {
      ReachableInv(t);
      RunningIsFree(t);
      hide Inv;
      LeadsNowhere(t);
      LeadsOn(t, t, Requested(id, Pause));
      end := Step(t, Requested(id, Pause));
      end := Onward(t, end, id);
    }
    end := Onward(t, end, id);
  }

  /** An interrupt saves and gets to the condition. */
  lemma InterruptSaved(t: Task, id: nat) returns (end: Task)
    requires Reachable(t) && Interruptible(t.life) && id !in t.ops
    ensures Leads(t, end) && end.life == t.life && end.lock == None && end.mains == t.mains && end.notes == t.notes
    ensures id in end.ops && end.ops[id] == InterruptWantsCancelled
  {
    var free := Unlock(t);
    hide Run; hide Reachable; hide Leads; hide MainLive; hide Allowed;
    LeadsOn(t, free, Requested(id, Interrupt));
    end := Step(free, Requested(id, Interrupt));
    end := Onward(t, end, id);
  }

  /** An interrupted agent whose main task then stops is cancelled, and says so. */
  lemma InterruptCancels(t: Task, id: nat) returns (end: Task)
    requires Reachable(t) && Interruptible(t.life) && id !in t.ops
    ensures Leads(t, end) && end.life == Cancelled && id !in end.ops
    ensures end.notes == t.notes + [AgentCancelled] && !MainLive(end.mains)
  {
    end := InterruptSaved(t, id);
    hide Run; hide Reachable; hide Leads;
    end := Onward(t, end, id);
    if MainLive(t.mains) {
      end := Gathered(t, end, id, |t.mains| - 1);
      end := Onward(t, end, id);
    }
  }

  /** A paused or failed agent is resumed with a new main task, as soon as the old one has ended. */
  lemma ResumeRestarts(t: Task, id: nat) returns (end: Task)
    requires Reachable(t) && (t.life == Paused || t.life == Failed) && !MainLive(t.mains) && id !in t.ops
    ensures Leads(t, end) && end.life == Running && id !in end.ops
    ensures end.notes == t.notes && end.mains == t.mains + [Main(true, Created, false)] && end.lock == None
  {
    var free := Unlock(t);
    hide Run; hide Reachable; hide Leads;
    LeadsOn(t, free, Requested(id, Resume));
    end := Step(free, Requested(id, Resume));
    end := Onward(t, end, id);
    end := Onward(t, end, id);
  }

  /** A running agent's main task runs its target; when that returns the agent is done, and says so. */
  lemma ReturnFinishes(t: Task) returns (end: Task)
    requires Reachable(t) && t.life == Running && MainLive(t.mains) && !t.mains[|t.mains| - 1].cancelAsked
    ensures Leads(t, end) && end.life == Done && end.ops == t.ops
    ensures end.notes == t.notes + [AgentDone] && !MainLive(end.mains)
  {
    ReachableInv(t);
    RunningIsFree(t);
    hide Inv; hide Run; hide Reachable; hide Leads;
    LeadsNowhere(t);
    end := t;
    var e := MainResumes(|t.mains| - 1, Returns);
    if t.mains[|t.mains| - 1].spot == Created {
      LeadsOn(t, end, e);
      end := Step(end, e);
    }
    LeadsOn(t, end, e);
    end := Step(end, e);
  }

  /** Two runs to the end: of a first main task, and of a resumed one. */
  lemma FirstMainIsDone() returns (end: Task)
    ensures Reachable(end) && end.life == Done && end.notes == [AgentStarted, AgentDone]
    ensures end.mains == [Main(false, Ended, false)] && end.calls == [Call(Running, false)]
  {
    var t := WorkingAgent();
    hide Run; hide Reachable;
    ReachableStep(t, MainResumes(0, Returns));
    end := Step(t, MainResumes(0, Returns));
  }

  lemma ResumedMainIsDone() returns (end: Task)
    ensures Reachable(end) && end.life == Done && end.notes == [AgentStarted, AgentPaused, AgentDone]
    ensures end.mains == [Main(false, Ended, true), Main(true, Ended, false)]
  {
    var t := ResumedAgent();
    hide Run; hide Reachable;
    ReachableStep(t, MainResumes(1, Returns));
    end := Step(t, MainResumes(1, Returns));
  }
}
