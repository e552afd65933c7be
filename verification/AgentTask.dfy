/**
 AgentTask (appserver/agent_task.py): a lifecycle machine whose operations are
 coroutines racing with the agent's own main task.  One step is the code between
 two suspensions; ops holds the suspended operations, mains the main tasks ever
 created.  Publishing on the bus never suspends (appserver/eventbus.py:119-132,
 253-267), so an event is out in the stretch that publishes it.
 */
module AgentLifecycle {
  import opened Wrappers

  datatype Life = Idle | Bootstrap | Running | Paused | Done | Failed | Cancelled

  /** The transition table. */
  predicate Allowed(a: Life, b: Life) {
    match a
    case Idle => b == Bootstrap
    case Bootstrap => b == Running || b == Failed || b == Cancelled
    case Running => b == Done || b == Failed || b == Paused || b == Cancelled
    case Paused => b == Running || b == Cancelled
    case Failed => b == Running
    case Done => false
    case Cancelled => false
  }

  datatype Note = AgentStarted | AgentPaused | AgentCancelled | AgentDone

  /** Where a main task is suspended; again marks the fallback call after a TypeError. */
  datatype Spot = Created | InTarget(again: bool) | Ended
  datatype Main = Main(resumed: bool, spot: Spot, cancelAsked: bool)

  /** Where an operation is suspended. */
  datatype Op =
    | SpawnWantsBootstrap | SpawnWantsRunning | SpawnWantsFailed
    | PauseSaves | PauseGathers(main: nat) | PauseWantsPaused
    | InterruptSaves | InterruptWantsCancelled | InterruptGathers(main: nat)
    | ResumeWantsLock | ResumeLoads

  datatype Request = Spawn | Pause | Interrupt | Resume
  datatype Outcome = Returns | Raises | RaisesTypeError | Cancels

  /** A call of the run target and the lifecycle state it began in. */
  datatype Call = Call(life: Life, again: bool)

  /** The cancelled event of a cancelled agent: an interrupt owes it, it is out, or its interrupt was cut short. */
  datatype Ending = NoEnd | Owed(id: nat) | Told | CutShort

  datatype Task = Task(life: Life, mains: seq<Main>, ops: map<nat, Op>, lock: Option<nat>,
                       path: seq<Life>, notes: seq<Note>, calls: seq<Call>, ending: Ending)

  const FRESH := Task(Idle, [], map[], None, [Idle], [], [], NoEnd)

  datatype Event =
    | Requested(id: nat, r: Request)
    | OpResumes(id: nat, ok: bool)
    | MainResumes(k: nat, outcome: Outcome)
    | CallerCancelled(id: nat)

  // ---------------------------------------------------------------- steps

  function Enter(t: Task, life: Life): Task {
    t.(life := life, path := t.path + [life])
  }

  predicate MainLive(mains: seq<Main>) { mains != [] && mains[|mains| - 1].spot != Ended }

  /** main_task.cancel() on the current main task. */
  function AskCancel(t: Task): Task
    requires t.mains != []
  {
    var k := |t.mains| - 1;
    t.(mains := t.mains[k := t.mains[k].(cancelAsked := true)])
  }

  function At(t: Task, id: nat, op: Op): Task { t.(ops := t.ops[id := op]) }

  function Leave(t: Task, id: nat): Task { t.(ops := t.ops - {id}) }

  /** A transition, its event and the end of the operation, in one stretch. */
  function Settle(t: Task, id: nat, life: Life, n: Note, ending: Ending): Task {
    t.(life := life, path := t.path + [life], notes := t.notes + [n], ops := t.ops - {id}, ending := ending)
  }

  function Begin(t: Task, id: nat, r: Request): Task {
    match r
    case Spawn => At(t, id, SpawnWantsBootstrap)
    case Pause => if t.life == Running then At(t, id, PauseSaves) else t
    case Interrupt =>
      if t.life == Running || t.life == Paused || t.life == Bootstrap then At(t, id, InterruptSaves) else t
    case Resume => At(t, id, ResumeWantsLock)
  }

  /** The operation waits for something that has not happened. */
  predicate Blocked(t: Task, op: Op) {
    match op
    case SpawnWantsBootstrap => t.lock.Some?
    case SpawnWantsRunning => t.lock.Some?
    case SpawnWantsFailed => t.lock.Some?
    case PauseGathers(m) => m < |t.mains| && t.mains[m].spot != Ended
    case PauseWantsPaused => t.lock.Some?
    case InterruptGathers(m) => m < |t.mains| && t.mains[m].spot != Ended
    case InterruptWantsCancelled => t.lock.Some?
    case ResumeWantsLock => t.lock.Some?
    case _ => false
  }

  /** The next stretch of an operation; ok says whether the checkpoint could be saved or loaded. */
  function Go(t: Task, id: nat, ok: bool): Task
    requires id in t.ops && !Blocked(t, t.ops[id])
  {
    match t.ops[id]
    case SpawnWantsBootstrap =>
      if Allowed(t.life, Bootstrap) then
        Enter(t, Bootstrap).(notes := t.notes + [AgentStarted], ops := t.ops[id := SpawnWantsRunning])
      else Leave(t, id)
    case SpawnWantsRunning =>
      if Allowed(t.life, Running)
      then Enter(t, Running).(ops := t.ops - {id}, mains := t.mains + [Main(false, Created, false)])
      else At(t, id, SpawnWantsFailed)
    case SpawnWantsFailed =>
      if Allowed(t.life, Failed) then Leave(Enter(t, Failed), id) else Leave(t, id)
    case PauseSaves =>
      if !ok then Leave(t, id)
      else if MainLive(t.mains) then At(AskCancel(t), id, PauseGathers(|t.mains| - 1))
      else At(t, id, PauseWantsPaused)
    case PauseGathers(_) => At(t, id, PauseWantsPaused)
    case PauseWantsPaused =>
      if Allowed(t.life, Paused) then Settle(t, id, Paused, AgentPaused, t.ending) else Leave(t, id)
    case InterruptSaves => if ok then At(t, id, InterruptWantsCancelled) else Leave(t, id)
    case InterruptWantsCancelled =>
      if !Allowed(t.life, Cancelled) then Leave(t, id)
      else if MainLive(t.mains)
      then Enter(AskCancel(t), Cancelled).(
        ops := t.ops[id := InterruptGathers(|t.mains| - 1)], ending := Owed(id))
      else Settle(t, id, Cancelled, AgentCancelled, Told)
    case InterruptGathers(_) => t.(notes := t.notes + [AgentCancelled], ops := t.ops - {id}, ending := Told)
    case ResumeWantsLock =>
      if MainLive(t.mains) || (t.life != Paused && t.life != Failed) then Leave(t, id)
      else At(t, id, ResumeLoads).(lock := Some(id))
    case ResumeLoads =>
      if ok then Enter(t, Running).(ops := t.ops - {id}, lock := None, mains := t.mains + [Main(true, Created, false)])
      else t.(ops := t.ops - {id}, lock := None)
  }

  function MoveTo(t: Task, k: nat, spot: Spot): Task
    requires k < |t.mains|
  {
    t.(mains := t.mains[k := t.mains[k].(spot := spot)])
  }

  /** The target ends in a way after which the main task takes the condition. */
  predicate Finishes(m: Main, outcome: Outcome) {
    m.spot.InTarget? && (outcome == Returns || outcome == Raises || (outcome == RaisesTypeError && !FallsBack(m)))
  }

  predicate FallsBack(m: Main) { m.resumed && m.spot == InTarget(false) }

  predicate MainBlocked(t: Task, k: nat, outcome: Outcome)
    requires k < |t.mains|
  {
    t.mains[k].spot == Ended || (t.lock.Some? && Finishes(t.mains[k], outcome))
  }

  /** The next stretch of main task k: a finished target is followed at once by its transition and its event. */
  function MainGo(t: Task, k: nat, outcome: Outcome): Task
    requires k < |t.mains| && !MainBlocked(t, k, outcome)
  {
    var m := t.mains[k];
    if m.spot == Created then
      if m.cancelAsked then MoveTo(t, k, Ended)
      else MoveTo(t, k, InTarget(false)).(calls := t.calls + [Call(t.life, false)])
    else
      match outcome
      case Returns =>
        if Allowed(t.life, Done)
        then Enter(t, Done).(notes := t.notes + [AgentDone], mains := t.mains[k := m.(spot := Ended)])
        else MoveTo(t, k, Ended)
      case Raises => Collapse(t, k)
      case RaisesTypeError =>
        if FallsBack(m) then MoveTo(t, k, InTarget(true)).(calls := t.calls + [Call(t.life, true)])
        else Collapse(t, k)
      case Cancels => MoveTo(t, k, Ended)
  }

  function Collapse(t: Task, k: nat): Task
    requires k < |t.mains|
  {
    if Allowed(t.life, Failed) then Enter(t, Failed).(mains := t.mains[k := t.mains[k].(spot := Ended)])
    else MoveTo(t, k, Ended)
  }

  /** The caller of an operation is cancelled while it waits; a held lock is released. */
  function Abort(t: Task, id: nat): Task {
    Leave(t, id).(lock := if t.lock == Some(id) then None else t.lock,
                  ending := if t.ending == Owed(id) then CutShort else t.ending)
  }

  predicate Enabled(t: Task, e: Event) {
    match e
    case Requested(id, _) => id !in t.ops
    case OpResumes(id, _) => id in t.ops && !Blocked(t, t.ops[id])
    case MainResumes(k, outcome) => k < |t.mains| && !MainBlocked(t, k, outcome)
    case CallerCancelled(id) => id in t.ops
  }

  function Step(t: Task, e: Event): Task
    requires Enabled(t, e)
  {
    match e
    case Requested(id, r) => Begin(t, id, r)
    case OpResumes(id, ok) => Go(t, id, ok)
    case MainResumes(k, outcome) => MainGo(t, k, outcome)
    case CallerCancelled(id) => Abort(t, id)
  }

  function Run(t: Task, events: seq<Event>): Option<Task>
    decreases |events|
  {
    if events == [] then Some(t)
    else if Enabled(t, events[0]) then Run(Step(t, events[0]), events[1..])
    else None
  }

  // ---------------------------------------------------------------- invariant

  predicate PathOk(path: seq<Life>, life: Life) {
    && path != [] && path[0] == Idle && path[|path| - 1] == life
    && forall i :: 0 < i < |path| ==> Allowed(path[i - 1], path[i])
  }

  /** At most one main task is live, and it is the newest. */
  predicate MainsOk(mains: seq<Main>, life: Life) {
    && (forall k :: 0 <= k < |mains| - 1 ==> mains[k].spot == Ended)
    && (mains != [] ==> life != Idle && life != Bootstrap)
    && (life == Cancelled && MainLive(mains) ==> mains[|mains| - 1].cancelAsked)
  }

  /** Nothing runs and nothing can change the state but a resume. */
  predicate AtRest(mains: seq<Main>, life: Life) { !MainLive(mains) && (life == Paused || life == Failed) }

  /** The lock is held across steps only by a resume that is loading its checkpoint. */
  predicate LockOk(ops: map<nat, Op>, lock: Option<nat>, atRest: bool) {
    && (forall id :: id in ops && ops[id] == ResumeLoads ==> lock == Some(id))
    && (lock.Some? ==> atRest)
  }

  /** Any operation but a spawn past its first transition: nothing is known about it. */
  predicate Quiet(op: Op) { op != SpawnWantsRunning && op != SpawnWantsFailed }

  /** At most one spawn is past its first transition. */
  predicate OpsOk(ops: map<nat, Op>, life: Life, unborn: bool) {
    && (forall id :: id in ops && ops[id] == SpawnWantsRunning ==> unborn && (life == Bootstrap || life == Cancelled))
    && (forall id, id' :: id in ops && id' in ops && ops[id] == ops[id'] == SpawnWantsRunning ==> id == id')
    && (forall id :: id in ops && ops[id] == SpawnWantsFailed ==> life == Cancelled)
  }

  /** The interrupt that owes the cancelled event is the one that waits for the main task. */
  predicate OwedOk(ops: map<nat, Op>, ending: Ending) {
    forall id :: id in ops ==> (ops[id].InterruptGathers? <==> ending == Owed(id))
  }

  function Count(notes: seq<Note>, n: Note): nat { multiset(notes)[n] }

  /** The done event is out exactly in DONE; the cancelled event exactly when told, and CANCELLED has an ending. */
  predicate NotesOk(notes: seq<Note>, life: Life, ending: Ending) {
    && Count(notes, AgentDone) == (if life == Done then 1 else 0)
    && Count(notes, AgentCancelled) == (if ending == Told then 1 else 0)
    && (life == Cancelled <==> ending != NoEnd)
  }

  predicate CallsOk(calls: seq<Call>) {
    forall i :: 0 <= i < |calls| && calls[i].life == Cancelled ==> calls[i].again
  }

  predicate Inv(t: Task) {
    && PathOk(t.path, t.life) && CallsOk(t.calls)
    && MainsOk(t.mains, t.life) && LockOk(t.ops, t.lock, AtRest(t.mains, t.life))
    && OpsOk(t.ops, t.life, t.mains == []) && OwedOk(t.ops, t.ending)
    && (t.ending.Owed? ==> t.ending.id in t.ops)
    && NotesOk(t.notes, t.life, t.ending)
  }

  lemma PathExtends(path: seq<Life>, life: Life, next: Life)
    requires PathOk(path, life) && Allowed(life, next)
    ensures PathOk(path + [next], next)
  {}

  lemma NoteAdds(notes: seq<Note>, n: Note, m: Note)
    ensures Count(notes + [n], m) == Count(notes, m) + if n == m then 1 else 0
    ensures m in notes <==> Count(notes, m) > 0
  {}

  lemma OpsMove(ops: map<nat, Op>, id: nat, op: Op, life: Life, unborn: bool)
    requires OpsOk(ops, life, unborn)
    requires Quiet(op) || (op == SpawnWantsFailed && life == Cancelled)
    ensures OpsOk(ops[id := op], life, unborn)
  {}

  lemma OpsLeave(ops: map<nat, Op>, id: nat, life: Life, unborn: bool)
    requires OpsOk(ops, life, unborn)
    ensures OpsOk(ops - {id}, life, unborn)
    ensures id in ops && ops[id] == SpawnWantsRunning && life == Bootstrap ==> OpsOk(ops - {id}, Running, false)
  {}

  lemma OwedMove(ops: map<nat, Op>, id: nat, op: Op, ending: Ending)
    requires OwedOk(ops, ending) && ending != Owed(id)
    ensures OwedOk(ops - {id}, ending)
    ensures !op.InterruptGathers? ==> OwedOk(ops[id := op], ending)
    ensures op.InterruptGathers? && !ending.Owed? ==> OwedOk(ops[id := op], Owed(id))
  {}

  /** An interrupt that is told or cut short leaves nothing owed. */
  lemma OwedEnds(ops: map<nat, Op>, id: nat, ending: Ending)
    requires OwedOk(ops, ending) && (ending.Owed? ==> ending == Owed(id))
    ensures OwedOk(ops - {id}, Told) && OwedOk(ops - {id}, CutShort)
  {}

  /** Outside bootstrap and cancellation every operation is quiet, so the state may change. */
  lemma OpsFree(ops: map<nat, Op>, id: nat, op: Op, life: Life, unborn: bool, life': Life, unborn': bool)
    requires OpsOk(ops, life, unborn) && life != Bootstrap && life != Cancelled
    requires op == SpawnWantsRunning ==> unborn' && life' == Bootstrap
    requires op != SpawnWantsFailed
    ensures OpsOk(ops[id := op], life', unborn')
    ensures OpsOk(ops - {id}, life', unborn') && OpsOk(ops, life', unborn')
  {}

  /** An interrupt during bootstrap: the spawn in progress finds the agent cancelled. */
  lemma OpsCancel(ops: map<nat, Op>, id: nat, op: Op, life: Life, unborn: bool)
    requires OpsOk(ops, life, unborn) && life != Cancelled && Quiet(op)
    ensures OpsOk(ops[id := op], Cancelled, unborn) && OpsOk(ops - {id}, Cancelled, unborn)
  {}

  lemma LockMove(ops: map<nat, Op>, id: nat, op: Op, lock: Option<nat>, atRest: bool)
    requires LockOk(ops, lock, atRest) && op != ResumeLoads
    ensures LockOk(ops[id := op], lock, atRest) && LockOk(ops - {id}, lock, atRest)
    ensures id in ops && ops[id] == ResumeLoads ==> LockOk(ops - {id}, None, false)
  {}

  /** A free lock constrains nothing. */
  lemma LockFree(ops: map<nat, Op>, atRest: bool, b: bool)
    requires LockOk(ops, None, atRest)
    ensures LockOk(ops, None, b)
  {}

  lemma MainsAsk(mains: seq<Main>, life: Life)
    requires MainsOk(mains, life) && MainLive(mains)
    ensures var k := |mains| - 1; var mains' := mains[k := mains[k].(cancelAsked := true)];
      MainsOk(mains', life) && MainsOk(mains', Cancelled) && MainLive(mains') && mains' != []
      && !AtRest(mains, life) && !AtRest(mains', life) && !AtRest(mains', Cancelled)
  {}

  lemma MainsNew(mains: seq<Main>, life: Life, resumed: bool)
    requires MainsOk(mains, life) && !MainLive(mains)
    ensures var mains' := mains + [Main(resumed, Created, false)]; MainsOk(mains', Running) && MainLive(mains')
  {}

  lemma MainsMove(mains: seq<Main>, life: Life, k: nat, spot: Spot)
    requires MainsOk(mains, life) && k < |mains| && mains[k].spot != Ended
    ensures k == |mains| - 1
    ensures var mains' := mains[k := mains[k].(spot := spot)];
      && MainsOk(mains', life) && MainsOk(mains', Done) && MainsOk(mains', Failed)
      && (MainLive(mains') <==> spot != Ended)
  {}

  lemma MainsLife(mains: seq<Main>, life: Life, life': Life)
    requires MainsOk(mains, life)
    requires life' != Idle && (life' == Bootstrap ==> mains == []) && (life' == Cancelled ==> !MainLive(mains))
    ensures MainsOk(mains, life')
  {}

  /** An event that ends nothing changes nothing about the end. */
  lemma NotesMove(notes: seq<Note>, n: Note, life: Life, life': Life, ending: Ending)
    requires NotesOk(notes, life, ending)
    requires (life == Done <==> life' == Done) && (life == Cancelled <==> life' == Cancelled)
    ensures NotesOk(notes, life', ending)
    ensures n == AgentStarted || n == AgentPaused ==> NotesOk(notes + [n], life', ending)
  {
    NoteAdds(notes, n, AgentDone);
    NoteAdds(notes, n, AgentCancelled);
    hide Count;
  }

  /** The end and its event, in one stretch or, for an interrupt that waits, in two. */
  lemma NotesEnd(notes: seq<Note>, life: Life, ending: Ending, id: nat)
    requires NotesOk(notes, life, ending)
    ensures life != Done && life != Cancelled ==>
      && NotesOk(notes + [AgentDone], Done, ending)
      && NotesOk(notes + [AgentCancelled], Cancelled, Told)
      && NotesOk(notes, Cancelled, Owed(id))
    ensures ending.Owed? ==> NotesOk(notes + [AgentCancelled], life, Told) && NotesOk(notes, life, CutShort)
  {
    NoteAdds(notes, AgentDone, AgentDone);
    NoteAdds(notes, AgentDone, AgentCancelled);
    NoteAdds(notes, AgentCancelled, AgentDone);
    NoteAdds(notes, AgentCancelled, AgentCancelled);
    hide Count;
  }

  lemma BeginKeepsInv(t: Task, id: nat, r: Request)
    requires Inv(t) && id !in t.ops
    ensures Inv(Begin(t, id, r))
  {
    var op := match r
      case Spawn => SpawnWantsBootstrap case Pause => PauseSaves
      case Interrupt => InterruptSaves case Resume => ResumeWantsLock;
    OpsMove(t.ops, id, op, t.life, t.mains == []);
    OwedMove(t.ops, id, op, t.ending);
    LockMove(t.ops, id, op, t.lock, AtRest(t.mains, t.life));
    hide PathOk; hide CallsOk; hide NotesOk; hide OpsOk; hide OwedOk; hide LockOk; hide MainsOk; hide AtRest;
  }

  lemma AbortKeepsInv(t: Task, id: nat)
    requires Inv(t) && id in t.ops
    ensures Inv(Abort(t, id))
  {
    OpsLeave(t.ops, id, t.life, t.mains == []);
    if t.ending == Owed(id) {
      OwedEnds(t.ops, id, t.ending);
      NotesEnd(t.notes, t.life, t.ending, id);
    } else {
      OwedMove(t.ops, id, PauseSaves, t.ending);
    }
    hide PathOk; hide CallsOk; hide NotesOk; hide OpsOk; hide OwedOk;
  }

  predicate Ready(t: Task, id: nat) {
    Inv(t) && id in t.ops && !Blocked(t, t.ops[id])
  }

  // Operations, one family at a time.

  lemma SpawnSeesBootstrap(t: Task, id: nat)
    requires Inv(t) && id in t.ops
    ensures t.ops[id] == SpawnWantsRunning ==> t.mains == [] && (t.life == Bootstrap || t.life == Cancelled)
    ensures t.ops[id] == SpawnWantsFailed ==> t.life == Cancelled
    ensures !t.ops[id].InterruptGathers? ==> t.ending != Owed(id)
  {}

  lemma SpawnKeepsInv(t: Task, id: nat, ok: bool)
    requires Ready(t, id) && t.ops[id] == SpawnWantsBootstrap
    ensures Inv(Go(t, id, ok))
  {
    SpawnSeesBootstrap(t, id);
    IdleIsUnborn(t);
    hide PathOk; hide CallsOk; hide OpsOk; hide OwedOk; hide LockOk; hide NotesOk; hide MainsOk;
    OpsLeave(t.ops, id, t.life, t.mains == []);
    OwedMove(t.ops, id, SpawnWantsRunning, t.ending);
    LockMove(t.ops, id, SpawnWantsRunning, t.lock, AtRest(t.mains, t.life));
    if t.life == Idle {
      PathExtends(t.path, t.life, Bootstrap);
      OpsFree(t.ops, id, SpawnWantsRunning, t.life, true, Bootstrap, true);
      MainsLife(t.mains, t.life, Bootstrap);
      NotesMove(t.notes, AgentStarted, t.life, Bootstrap, t.ending);
    }
  }

  lemma IdleIsUnborn(t: Task)
    requires Inv(t)
    ensures t.life == Idle || t.life == Bootstrap ==> t.mains == []
  {}

  lemma SpawnRuns(t: Task, id: nat, ok: bool)
    requires Ready(t, id) && (t.ops[id] == SpawnWantsRunning || t.ops[id] == SpawnWantsFailed)
    ensures Inv(Go(t, id, ok))
  {
    SpawnSeesBootstrap(t, id);
    hide PathOk; hide CallsOk; hide OpsOk; hide OwedOk; hide LockOk; hide NotesOk; hide MainsOk;
    OpsLeave(t.ops, id, t.life, t.mains == []);
    OwedMove(t.ops, id, SpawnWantsFailed, t.ending);
    LockMove(t.ops, id, SpawnWantsFailed, t.lock, AtRest(t.mains, t.life));
    if t.life == Cancelled {
      OpsMove(t.ops, id, SpawnWantsFailed, t.life, t.mains == []);
    } else {
      PathExtends(t.path, t.life, Running);
      MainsNew(t.mains, t.life, false);
      LockFree(t.ops - {id}, AtRest(t.mains, t.life), false);
      NotesMove(t.notes, AgentStarted, t.life, Running, t.ending);
    }
  }

  /** A step that only moves its operation on. */
  lemma MoveKeepsInv(t: Task, id: nat, op: Op)
    requires Ready(t, id) && !t.ops[id].InterruptGathers? && Quiet(op) && !op.InterruptGathers? && op != ResumeLoads
    ensures Inv(At(t, id, op)) && Inv(Leave(t, id))
  {
    SpawnSeesBootstrap(t, id);
    hide PathOk; hide CallsOk; hide OpsOk; hide OwedOk; hide LockOk; hide NotesOk; hide MainsOk; hide AtRest;
    OpsLeave(t.ops, id, t.life, t.mains == []);
    OpsMove(t.ops, id, op, t.life, t.mains == []);
    OwedMove(t.ops, id, op, t.ending);
    LockMove(t.ops, id, op, t.lock, AtRest(t.mains, t.life));
  }

  lemma PauseKeepsInv(t: Task, id: nat, ok: bool)
    requires Ready(t, id) && t.ops[id] == PauseSaves
    ensures Inv(Go(t, id, ok))
  {
    hide Inv; hide AskCancel;
    MoveKeepsInv(t, id, PauseWantsPaused);
    if MainLive(t.mains) {
      PauseWaits(t, id);
    }
  }

  lemma PauseWaits(t: Task, id: nat)
    requires Ready(t, id) && t.ops[id] == PauseSaves && MainLive(t.mains)
    ensures Inv(At(AskCancel(t), id, PauseGathers(|t.mains| - 1)))
  {
    MoveKeepsInv(t, id, PauseGathers(|t.mains| - 1));
    MainsAsk(t.mains, t.life);
    hide PathOk; hide CallsOk; hide OpsOk; hide OwedOk; hide LockOk; hide NotesOk; hide MainsOk; hide AtRest;
  }

  lemma PausedKeepsInv(t: Task, id: nat, ok: bool)
    requires Ready(t, id) && t.ops[id] == PauseWantsPaused
    ensures Inv(Go(t, id, ok))
  {
    SpawnSeesBootstrap(t, id);
    hide PathOk; hide CallsOk; hide OpsOk; hide OwedOk; hide LockOk; hide NotesOk; hide MainsOk;
    OpsLeave(t.ops, id, t.life, t.mains == []);
    OwedMove(t.ops, id, PauseSaves, t.ending);
    LockMove(t.ops, id, PauseSaves, t.lock, AtRest(t.mains, t.life));
    if t.life == Running {
      PathExtends(t.path, t.life, Paused);
      OpsFree(t.ops, id, PauseSaves, t.life, t.mains == [], Paused, t.mains == []);
      MainsLife(t.mains, t.life, Paused);
      NotesMove(t.notes, AgentPaused, t.life, Paused, t.ending);
      LockFree(t.ops - {id}, AtRest(t.mains, t.life), AtRest(t.mains, Paused));
    }
  }

  lemma GatheredKeepsInv(t: Task, id: nat, ok: bool)
    requires Ready(t, id) && (t.ops[id].PauseGathers? || t.ops[id] == InterruptSaves)
    ensures Inv(Go(t, id, ok))
  {
    MoveKeepsInv(t, id, if t.ops[id] == InterruptSaves then InterruptWantsCancelled else PauseWantsPaused);
    hide Inv;
  }

  lemma GatherKeepsInv(t: Task, id: nat, ok: bool)
    requires Ready(t, id) && t.ops[id].InterruptGathers?
    ensures Inv(Go(t, id, ok))
  {
    OpsLeave(t.ops, id, t.life, t.mains == []);
    OwedEnds(t.ops, id, t.ending);
    LockMove(t.ops, id, InterruptSaves, t.lock, AtRest(t.mains, t.life));
    NotesEnd(t.notes, t.life, t.ending, id);
    hide PathOk; hide CallsOk; hide OpsOk; hide OwedOk; hide LockOk; hide NotesOk; hide MainsOk; hide AtRest;
  }

  lemma CancelKeepsInv(t: Task, id: nat, ok: bool)
    requires Ready(t, id) && t.ops[id] == InterruptWantsCancelled
    ensures Inv(Go(t, id, ok))
  {
    SpawnSeesBootstrap(t, id);
    hide PathOk; hide CallsOk; hide OpsOk; hide OwedOk; hide LockOk; hide NotesOk; hide MainsOk;
    OpsLeave(t.ops, id, t.life, t.mains == []);
    OwedMove(t.ops, id, InterruptSaves, t.ending);
    LockMove(t.ops, id, InterruptSaves, t.lock, AtRest(t.mains, t.life));
    if Allowed(t.life, Cancelled) {
      PathExtends(t.path, t.life, Cancelled);
      NotesEnd(t.notes, t.life, t.ending, id);
      OwedEnds(t.ops, id, t.ending);
      if MainLive(t.mains) {
        CancelWaits(t, id);
        assert Go(t, id, ok) == CancelledAndWaiting(t, id);
      } else {
        OpsCancel(t.ops, id, InterruptSaves, t.life, t.mains == []);
        LockFree(t.ops - {id}, AtRest(t.mains, t.life), false);
        MainsLife(t.mains, t.life, Cancelled);
      }
    }
  }

  /** The agent once an interrupt has cancelled it and waits for its main task. */
  function CancelledAndWaiting(t: Task, id: nat): Task
    requires t.mains != []
  {
    var k := |t.mains| - 1;
    Task(Cancelled, t.mains[k := t.mains[k].(cancelAsked := true)], t.ops[id := InterruptGathers(k)], t.lock,
         t.path + [Cancelled], t.notes, t.calls, Owed(id))
  }

  lemma CancelWaits(t: Task, id: nat)
    requires Ready(t, id) && t.ops[id] == InterruptWantsCancelled
    requires Allowed(t.life, Cancelled) && MainLive(t.mains)
    ensures Inv(CancelledAndWaiting(t, id))
  {
    var op' := InterruptGathers(|t.mains| - 1);
    SpawnSeesBootstrap(t, id);
    MainsAsk(t.mains, t.life);
    hide PathOk; hide CallsOk; hide OpsOk; hide OwedOk; hide LockOk; hide NotesOk; hide MainsOk; hide AtRest;
    OwedMove(t.ops, id, op', t.ending);
    NotesEnd(t.notes, t.life, t.ending, id);
    NotOwed(t);
    PathExtends(t.path, t.life, Cancelled);
    OpsCancel(t.ops, id, op', t.life, t.mains == []);
    LockMove(t.ops, id, op', t.lock, AtRest(t.mains, t.life));
  }

  lemma NotOwed(t: Task)
    requires Inv(t) && t.life != Cancelled
    ensures t.ending == NoEnd
  {}

  lemma ResumeKeepsInv(t: Task, id: nat, ok: bool)
    requires Ready(t, id) && t.ops[id] == ResumeWantsLock
    ensures Inv(Go(t, id, ok))
  {
    SpawnSeesBootstrap(t, id);
    OpsLeave(t.ops, id, t.life, t.mains == []);
    LockMove(t.ops, id, ResumeWantsLock, t.lock, AtRest(t.mains, t.life));
    OpsMove(t.ops, id, ResumeLoads, t.life, t.mains == []);
    OwedMove(t.ops, id, ResumeLoads, t.ending);
    assert LockOk(t.ops[id := ResumeLoads], Some(id), true);
    hide PathOk; hide CallsOk; hide OpsOk; hide OwedOk; hide LockOk; hide NotesOk; hide MainsOk;
  }

  lemma LoadKeepsInv(t: Task, id: nat, ok: bool)
    requires Ready(t, id) && t.ops[id] == ResumeLoads
    ensures Inv(Go(t, id, ok))
  {
    var unborn := t.mains == [];
    SpawnSeesBootstrap(t, id);
    OpsLeave(t.ops, id, t.life, unborn);
    OwedMove(t.ops, id, ResumeWantsLock, t.ending);
    LockMove(t.ops, id, ResumeWantsLock, t.lock, AtRest(t.mains, t.life));
    assert t.lock == Some(id);
    PathExtends(t.path, t.life, Running);
    OpsFree(t.ops, id, ResumeWantsLock, t.life, unborn, Running, false);
    MainsNew(t.mains, t.life, true);
    LockFree(t.ops - {id}, false, AtRest(t.mains, t.life));
    NotesMove(t.notes, AgentStarted, t.life, Running, t.ending);
    hide PathOk; hide CallsOk; hide OpsOk; hide OwedOk; hide LockOk; hide NotesOk; hide MainsOk; hide MainLive;
  }

  lemma MainKeepsInv(t: Task, k: nat, outcome: Outcome)
    requires Inv(t) && k < |t.mains| && !MainBlocked(t, k, outcome)
    requires !Finishes(t.mains[k], outcome)
    ensures Inv(MainGo(t, k, outcome))
  {
    MainsMove(t.mains, t.life, k, Ended);
    MainsMove(t.mains, t.life, k, InTarget(false));
    MainsMove(t.mains, t.life, k, InTarget(true));
    assert !AtRest(t.mains, t.life) && t.lock == None;
    LockFree(t.ops, false, true);
    CallsExtend(t, k);
    hide PathOk; hide OpsOk; hide OwedOk; hide LockOk; hide MainsOk; hide AtRest; hide NotesOk; hide CallsOk;
  }

  lemma FinishKeepsInv(t: Task, k: nat, outcome: Outcome)
    requires Inv(t) && k < |t.mains| && !MainBlocked(t, k, outcome) && Finishes(t.mains[k], outcome)
    ensures Inv(MainGo(t, k, outcome))
  {
    MainsMove(t.mains, t.life, k, Ended);
    BootHasNoMain(t);
    assert !AtRest(t.mains, t.life) && t.lock == None;
    hide PathOk; hide CallsOk; hide OpsOk; hide OwedOk; hide LockOk; hide NotesOk; hide MainsOk;
    hide AtRest;
    LockFree(t.ops, false, true);
    if t.life == Running {
      OpsFree(t.ops, 0, PauseSaves, t.life, false, if outcome == Returns then Done else Failed, false);
      if outcome == Returns {
        PathExtends(t.path, t.life, Done);
        NotesEnd(t.notes, t.life, t.ending, 0);
      } else {
        PathExtends(t.path, t.life, Failed);
        NotesMove(t.notes, AgentStarted, t.life, Failed, t.ending);
      }
    }
  }

  lemma BootHasNoMain(t: Task)
    requires Inv(t) && t.mains != []
    ensures t.life != Idle && t.life != Bootstrap
  {}

  lemma CallsExtend(t: Task, k: nat)
    requires CallsOk(t.calls) && MainsOk(t.mains, t.life) && k == |t.mains| - 1 && t.mains[k].spot != Ended
    ensures CallsOk(t.calls + [Call(t.life, true)])
    ensures !t.mains[k].cancelAsked ==> CallsOk(t.calls + [Call(t.life, false)])
  {}

  /** Every step of every interleaving keeps the invariant. */
  lemma StepKeepsInv(t: Task, e: Event)
    requires Inv(t) && Enabled(t, e)
    ensures Inv(Step(t, e))
  {
    hide Inv; hide Go; hide MainGo; hide Begin; hide Abort;
    match e
    case Requested(id, r) => BeginKeepsInv(t, id, r);
    case CallerCancelled(id) => AbortKeepsInv(t, id);
    case MainResumes(k, outcome) =>
      if Finishes(t.mains[k], outcome) {
        FinishKeepsInv(t, k, outcome);
      } else {
        MainKeepsInv(t, k, outcome);
      }
    case OpResumes(id, ok) =>
      match t.ops[id] {
      case SpawnWantsBootstrap => SpawnKeepsInv(t, id, ok);
      case SpawnWantsRunning => SpawnRuns(t, id, ok);
      case SpawnWantsFailed => SpawnRuns(t, id, ok);
      case PauseSaves => PauseKeepsInv(t, id, ok);
      case PauseGathers(_) => GatheredKeepsInv(t, id, ok);
      case PauseWantsPaused => PausedKeepsInv(t, id, ok);
      case InterruptWantsCancelled => CancelKeepsInv(t, id, ok);
      case InterruptSaves => GatheredKeepsInv(t, id, ok);
      case InterruptGathers(_) => GatherKeepsInv(t, id, ok);
      case ResumeWantsLock => ResumeKeepsInv(t, id, ok);
      case ResumeLoads => LoadKeepsInv(t, id, ok);
      }
  }

  lemma {:induction false} RunKeepsInv(t: Task, events: seq<Event>)
    requires Inv(t) && Run(t, events).Some?
    ensures Inv(Run(t, events).value)
    decreases |events|
  {
    if events != [] {
      StepKeepsInv(t, events[0]);
      RunKeepsInv(Step(t, events[0]), events[1..]);
    }
  }

  // ---------------------------------------------------------------- what every run guarantees

  ghost predicate Reachable(t: Task) {
    exists events: seq<Event> :: Run(FRESH, events) == Some(t)
  }

  lemma ReachableInv(t: Task)
    requires Reachable(t)
    ensures Inv(t)
  {
    var events: seq<Event> :| Run(FRESH, events) == Some(t);
    RunKeepsInv(FRESH, events);
  }

  /** Every run is a path of the transition table, resume's direct write included. */
  lemma RunFollowsTable(t: Task)
    requires Reachable(t)
    ensures t.path != [] && t.path[0] == Idle && t.path[|t.path| - 1] == t.life
    ensures forall i :: 0 < i < |t.path| ==> Allowed(t.path[i - 1], t.path[i])
  {
    ReachableInv(t);
  }

  /** At most one main task is ever live, and none starts the target after CANCELLED by itself. */
  lemma OneMainTask(t: Task)
    requires Reachable(t)
    ensures forall i, j :: 0 <= i < |t.mains| && 0 <= j < |t.mains| ==>
      (t.mains[i].spot != Ended && t.mains[j].spot != Ended ==> i == j)
    ensures forall i :: 0 <= i < |t.calls| && t.calls[i].life == Cancelled ==> t.calls[i].again
  {
    ReachableInv(t);
  }

  /** A run publishes done or cancelled, never both, and neither twice. */
  lemma EndPublishedOnce(t: Task)
    requires Reachable(t)
    ensures Count(t.notes, AgentDone) + Count(t.notes, AgentCancelled) <= 1
    ensures AgentCancelled in t.notes ==> t.life == Cancelled
  {
    ReachableInv(t);
    NoteAdds(t.notes, AgentDone, AgentCancelled);
  }

  /** A finished agent has published its done event, and only a finished one has. */
  lemma DoneExactlyWhenPublished(t: Task)
    requires Reachable(t)
    ensures t.life == Done <==> AgentDone in t.notes
  {
    ReachableInv(t);
    NoteAdds(t.notes, AgentDone, AgentDone);
  }

  /** A live main task never finds the condition held: nobody holds it over a suspension while one is live. */
  lemma FinishNeverWaits(t: Task, k: nat)
    requires Reachable(t) && k < |t.mains| && t.mains[k].spot != Ended
    ensures t.lock == None
  {
    ReachableInv(t);
    assert k == |t.mains| - 1;
  }

  /**
   A cancelled agent has published its cancelled event, or an interrupt that waits for
   the main task still will, or the caller of that interrupt was cancelled.
   */
  lemma CancelledIsAnnounced(t: Task)
    requires Reachable(t) && t.life == Cancelled
    ensures AgentCancelled in t.notes <==> t.ending == Told
    ensures AgentCancelled !in t.notes && t.ending != CutShort <==>
      exists id :: id in t.ops && t.ops[id].InterruptGathers?
  {
    ReachableInv(t);
    NoteAdds(t.notes, AgentDone, AgentCancelled);
    if t.ending.Owed? {
      assert t.ops[t.ending.id].InterruptGathers?;
    }
  }

  /** Once an interrupt is cut short its event never comes. */
  lemma {:induction false} CutShortForGood(t: Task, events: seq<Event>)
    requires Inv(t) && t.ending == CutShort && Run(t, events).Some?
    ensures var end := Run(t, events).value; end.life == Cancelled && AgentCancelled !in end.notes
    decreases |events|
  {
    if events == [] {
      NoteAdds(t.notes, AgentDone, AgentCancelled);
    } else {
      StepKeepsInv(t, events[0]);
      EndingStays(t, events[0]);
      hide Step; hide Inv;
      CutShortForGood(Step(t, events[0]), events[1..]);
    }
  }

  lemma EndingStays(t: Task, e: Event)
    requires Inv(t) && Enabled(t, e) && t.ending == CutShort
    ensures Step(t, e).ending == CutShort
  {
    assert t.life == Cancelled;
    hide PathOk; hide CallsOk; hide LockOk; hide OpsOk; hide MainsOk; hide Count;
  }

  /** An interrupt without a checkpoint gives up: the agent goes on, and no interrupt ever puts it into FAILED. */
  lemma InterruptNeverFails(t: Task, id: nat, ok: bool)
    requires Reachable(t) && id in t.ops && !Blocked(t, t.ops[id])
    requires var op := t.ops[id]; op == InterruptSaves || op == InterruptWantsCancelled || op.InterruptGathers?
    ensures var after := Go(t, id, ok);
      && (t.ops[id] == InterruptSaves && !ok ==>
            after.life == t.life && after.mains == t.mains && after.notes == t.notes && id !in after.ops)
      && (after.life != t.life ==> after.life == Cancelled)
  {}

  lemma OperationNeverFails(t: Task, id: nat, ok: bool)
    requires Inv(t) && id in t.ops && !Blocked(t, t.ops[id]) && t.life != Failed
    ensures Go(t, id, ok).life != Failed
  {
    SpawnSeesBootstrap(t, id);
    hide Inv;
  }

  /** An agent enters FAILED exactly when its target raises while it runs: no operation ever puts it there. */
  lemma FailsWithItsTarget(t: Task, e: Event)
    requires Reachable(t) && Enabled(t, e) && t.life != Failed
    ensures Step(t, e).life == Failed <==>
      && t.life == Running && e.MainResumes? && t.mains[e.k].spot.InTarget?
      && (e.outcome == Raises
          || (e.outcome == RaisesTypeError && !(t.mains[e.k].resumed && t.mains[e.k].spot == InTarget(false))))
  {
    ReachableInv(t);
    match e
    case OpResumes(id, ok) => OperationNeverFails(t, id, ok); hide Inv; hide Reachable; hide Go; hide Blocked;
    case MainResumes(_, _) => BootHasNoMain(t); hide Inv; hide Reachable;
    case Requested(_, _) => hide Inv; hide Reachable;
    case CallerCancelled(_) => hide Inv; hide Reachable;
  }

  /**
   A target call begins in a cancelled agent exactly when a resumed main task
   falls back to the plain call after a TypeError.
   */
  lemma LateCallIsTheFallback(t: Task, k: nat, outcome: Outcome)
    requires Reachable(t) && t.life == Cancelled
    requires k < |t.mains| && Enabled(t, MainResumes(k, outcome))
    ensures |Step(t, MainResumes(k, outcome)).calls| > |t.calls| <==>
            t.mains[k].resumed && t.mains[k].spot == InTarget(false) && outcome == RaisesTypeError
  {
    ReachableInv(t);
    assert k == |t.mains| - 1;
  }

  // ---------------------------------------------------------------- two races, as runs

  lemma {:induction false} RunAppend(t: Task, events: seq<Event>, e: Event)
    requires Run(t, events).Some? && Enabled(Run(t, events).value, e)
    ensures Run(t, events + [e]) == Some(Step(Run(t, events).value, e))
    decreases |events|
  {
    if events == [] {
      assert [e][1..] == [];
      assert events + [e] == [e];
    } else {
      assert (events + [e])[1..] == events[1..] + [e];
      RunAppend(Step(t, events[0]), events[1..], e);
    }
  }

  lemma ReachableStep(t: Task, e: Event)
    requires Reachable(t) && Enabled(t, e)
    ensures Reachable(Step(t, e))
  {
    var events: seq<Event> :| Run(FRESH, events) == Some(t);
    RunAppend(FRESH, events, e);
  }

  /** An agent that was spawned and whose main task is inside the target. */
  lemma WorkingAgent() returns (t: Task)
    ensures Reachable(t) && t.life == Running && t.lock == None && t.ops == map[] && t.notes == [AgentStarted]
    ensures t.mains == [Main(false, InTarget(false), false)] && t.ending == NoEnd
    ensures t.calls == [Call(Running, false)]
  {
    assert Run(FRESH, []) == Some(FRESH);
    t := FRESH;
    hide Run; hide Reachable;
    ReachableStep(t, Requested(0, Spawn)); t := Step(t, Requested(0, Spawn));
    ReachableStep(t, OpResumes(0, true)); t := Step(t, OpResumes(0, true));
    ReachableStep(t, OpResumes(0, true)); t := Step(t, OpResumes(0, true));
    ReachableStep(t, MainResumes(0, Returns)); t := Step(t, MainResumes(0, Returns));
  }

  /** A working agent whose interrupt could not save its checkpoint goes on working. */
  lemma FailedInterruptLeavesRunning() returns (t: Task)
    ensures Reachable(t) && t.life == Running && t.ops == map[] && t.notes == [AgentStarted]
    ensures t.mains == [Main(false, InTarget(false), false)]
  {
    t := WorkingAgent();
    hide Run; hide Reachable;
    ReachableStep(t, Requested(1, Interrupt)); t := Step(t, Requested(1, Interrupt));
    ReachableStep(t, OpResumes(1, false)); t := Step(t, OpResumes(1, false));
  }

  /** An interrupt's caller is cancelled while it waits for the main task: the agent is cancelled, nobody is told. */
  lemma CutShortInterruptIsSilent() returns (t: Task)
    ensures Reachable(t) && t.life == Cancelled && t.ending == CutShort
    ensures AgentCancelled !in t.notes && forall k :: 0 <= k < |t.mains| ==> t.mains[k].spot == Ended
  {
    t := WorkingAgent();
    hide Run; hide Reachable;
    ReachableStep(t, Requested(1, Interrupt)); t := Step(t, Requested(1, Interrupt));
    ReachableStep(t, OpResumes(1, true)); t := Step(t, OpResumes(1, true));
    ReachableStep(t, OpResumes(1, true)); t := Step(t, OpResumes(1, true));
    ReachableStep(t, CallerCancelled(1)); t := Step(t, CallerCancelled(1));
    ReachableStep(t, MainResumes(0, Cancels)); t := Step(t, MainResumes(0, Cancels));
  }

  /** A paused, resumed and interrupted agent whose target answers the cancellation with a TypeError. */
  lemma FallbackCanRunAfterCancelled() returns (t: Task)
    ensures Reachable(t) && t.life == Cancelled
    ensures t.calls != [] && t.calls[|t.calls| - 1] == Call(Cancelled, true)
  {
    t := ResumedAgent();
    hide Run; hide Reachable;
    ReachableStep(t, Requested(3, Interrupt)); t := Step(t, Requested(3, Interrupt));
    ReachableStep(t, OpResumes(3, true)); t := Step(t, OpResumes(3, true));
    ReachableStep(t, OpResumes(3, true)); t := Step(t, OpResumes(3, true));
    ReachableStep(t, MainResumes(1, RaisesTypeError)); t := Step(t, MainResumes(1, RaisesTypeError));
  }

  lemma ResumedAgent() returns (t: Task)
    ensures Reachable(t) && t.life == Running && t.lock == None && t.ops == map[]
    ensures t.mains == [Main(false, Ended, true), Main(true, InTarget(false), false)]
    ensures t.notes == [AgentStarted, AgentPaused]
  {
    t := PausedAgent();
    hide Run; hide Reachable;
    ReachableStep(t, Requested(2, Resume)); t := Step(t, Requested(2, Resume));
    ReachableStep(t, OpResumes(2, true)); t := Step(t, OpResumes(2, true));
    ReachableStep(t, OpResumes(2, true)); t := Step(t, OpResumes(2, true));
    ReachableStep(t, MainResumes(1, Returns)); t := Step(t, MainResumes(1, Returns));
  }

  lemma PausedAgent() returns (t: Task)
    ensures Reachable(t) && t.life == Paused && t.lock == None && t.ops == map[]
    ensures t.mains == [Main(false, Ended, true)] && t.notes == [AgentStarted, AgentPaused]
  {
    t := WorkingAgent();
    hide Run; hide Reachable;
    ReachableStep(t, Requested(1, Pause)); t := Step(t, Requested(1, Pause));
    ReachableStep(t, OpResumes(1, true)); t := Step(t, OpResumes(1, true));
    ReachableStep(t, MainResumes(0, Cancels)); t := Step(t, MainResumes(0, Cancels));
    ReachableStep(t, OpResumes(1, true)); t := Step(t, OpResumes(1, true));
    ReachableStep(t, OpResumes(1, true)); t := Step(t, OpResumes(1, true));
  }
}
