/**
 The AgentTask object (appserver/agent_task.py:68-311): its methods cut at their
 awaits, each stretch proved against the step of module AgentLifecycle.
 */
module AgentTasks {
  import opened Wrappers
  import opened AgentLifecycle

  class AgentTask {
    var life: Life
    /** All main tasks created; the last one is _main_task. */
    var mains: seq<Main>
    /** Suspended coroutines of the public operations. */
    var ops: map<nat, Op>
    /** Holder of the state condition across an await. */
    var lock: Option<nat>
    ghost var path: seq<Life>
    ghost var notes: seq<Note>
    ghost var calls: seq<Call>
    ghost var ending: Ending

    ghost function View(): Task
      reads this
    {
      Task(life, mains, ops, lock, path, notes, calls, ending)
    }

    ghost predicate Valid()
      reads this
    {
      Inv(View())
    }

    constructor ()
      ensures Valid() && View() == FRESH
    {
      life, mains, ops, lock := Idle, [], map[], None;
      path, notes, calls, ending := [Idle], [], [], NoEnd;
    }

    /** _set_state with the condition free: refuse what the table does not allow. */
    method SetState(next: Life) returns (ok: bool)
      modifies `life, `path
      ensures ok == Allowed(old(life), next)
      ensures ok ==> life == next && path == old(path) + [next]
      ensures !ok ==> life == old(life) && path == old(path)
    {
      ok := Allowed(life, next);
      if ok {
        life, path := next, path + [next];
      }
    }

    method CancelMain()
      requires mains != []
      modifies `mains
      ensures mains == old(mains)[|old(mains)| - 1 := old(mains)[|old(mains)| - 1].(cancelAsked := true)]
    {
      var k := |mains| - 1;
      mains := mains[k := mains[k].(cancelAsked := true)];
    }

    /** The first stretch of spawn, pause, interrupt and resume. */
    method Request(id: nat, r: AgentLifecycle.Request)
      requires id !in ops
      modifies this
      ensures View() == Step(old(View()), Requested(id, r))
    {
      match r
      case Spawn => ops := ops[id := SpawnWantsBootstrap];
      case Pause => if life == Running { ops := ops[id := PauseSaves]; }
      case Interrupt =>
        if life == Running || life == Paused || life == Bootstrap { ops := ops[id := InterruptSaves]; }
      case Resume => ops := ops[id := ResumeWantsLock];
    }

    method ResumeSpawn(id: nat, ok: bool)
      requires id in ops && !Blocked(View(), ops[id])
      requires ops[id] == SpawnWantsBootstrap || ops[id] == SpawnWantsRunning || ops[id] == SpawnWantsFailed
      modifies this
      ensures View() == Step(old(View()), OpResumes(id, ok))
    {
      hide Allowed;
      var op := ops[id];
      var moved := SetState(
        if op == SpawnWantsBootstrap then Bootstrap else if op == SpawnWantsRunning then Running else Failed);
      if op == SpawnWantsBootstrap && moved {
        notes, ops := notes + [AgentStarted], ops[id := SpawnWantsRunning];
      } else if op == SpawnWantsRunning && !moved {
        ops := ops[id := SpawnWantsFailed];
      } else {
        ops := ops - {id};
        if op == SpawnWantsRunning {
          mains := mains + [Main(false, Created, false)];
        }
      }
    }

    method ResumePause(id: nat, saved: bool)
      requires id in ops && !Blocked(View(), ops[id])
      requires ops[id] == PauseSaves || ops[id].PauseGathers? || ops[id] == PauseWantsPaused
      modifies this
      ensures View() == Step(old(View()), OpResumes(id, saved))
    {
      hide Allowed;
      var op := ops[id];
      if op == PauseSaves {
        if !saved {
          ops := ops - {id};
        } else if mains != [] && mains[|mains| - 1].spot != Ended {
          CancelMain();
          ops := ops[id := PauseGathers(|mains| - 1)];
        } else {
          ops := ops[id := PauseWantsPaused];
        }
      } else if op.PauseGathers? {
        ops := ops[id := PauseWantsPaused];
      } else {
        var ok := SetState(Paused);
        ops := ops - {id};
        if ok {
          notes := notes + [AgentPaused];
        }
      }
    }

    method ResumeInterrupt(id: nat, saved: bool)
      requires id in ops && !Blocked(View(), ops[id])
      requires ops[id] == InterruptSaves || ops[id].InterruptGathers? || ops[id] == InterruptWantsCancelled
      modifies this
      ensures View() == Step(old(View()), OpResumes(id, saved))
    {
      hide Allowed;
      var op := ops[id];
      if op == InterruptSaves {
        ops := if saved then ops[id := InterruptWantsCancelled] else ops - {id};
      } else if op == InterruptWantsCancelled {
        var ok := SetState(Cancelled);
        if !ok {
          ops := ops - {id};
        } else if mains != [] && mains[|mains| - 1].spot != Ended {
          CancelMain();
          ops, ending := ops[id := InterruptGathers(|mains| - 1)], Owed(id);
        } else {
          Announce(id);
        }
      } else {
        Announce(id);
      }
    }

    /** The cancelled event goes out and the interrupt is done. */
    method Announce(id: nat)
      modifies `notes, `ops, `ending
      ensures notes == old(notes) + [AgentCancelled] && ops == old(ops) - {id} && ending == Told
    {
      notes, ops, ending := notes + [AgentCancelled], ops - {id}, Told;
    }

    /** resume writes the state itself, holding the condition over the checkpoint load. */
    method ResumeResume(id: nat, loaded: bool)
      requires id in ops && !Blocked(View(), ops[id])
      requires ops[id] == ResumeWantsLock || ops[id] == ResumeLoads
      modifies this
      ensures View() == Step(old(View()), OpResumes(id, loaded))
    {
      hide Allowed;
      if ops[id] == ResumeWantsLock {
        if (mains != [] && mains[|mains| - 1].spot != Ended) || (life != Paused && life != Failed) {
          ops := ops - {id};
        } else {
          ops, lock := ops[id := ResumeLoads], Some(id);
        }
      } else {
        ops, lock := ops - {id}, None;
        if loaded {
          life, path := Running, path + [Running];
          mains := mains + [Main(true, Created, false)];
        }
      }
    }

    /** _run_main and _run_from between two suspensions. */
    method ResumeMain(k: nat, outcome: Outcome)
      requires k < |mains| && !MainBlocked(View(), k, outcome)
      modifies this
      ensures View() == Step(old(View()), MainResumes(k, outcome))
    {
      hide Allowed;
      var m := mains[k];
      var spot := Ended;
      if m.spot == Created {
        if !m.cancelAsked {
          spot, calls := InTarget(false), calls + [Call(life, false)];
        }
      } else if outcome == RaisesTypeError && m.resumed && m.spot == InTarget(false) {
        spot, calls := InTarget(true), calls + [Call(life, true)];
      } else if outcome != Cancels {
        var ok := SetState(if outcome == Returns then Done else Failed);
        if ok && outcome == Returns {
          notes := notes + [AgentDone];
        }
      }
      mains := mains[k := m.(spot := spot)];
    }

    /** A cancelled caller: the operation stops, and resume gives the condition back. */
    method Abort(id: nat)
      requires id in ops
      modifies `ops, `lock, `ending
      ensures View() == Step(old(View()), CallerCancelled(id))
    {
      ops := ops - {id};
      if lock == Some(id) {
        lock := None;
      }
      ending := if ending == Owed(id) then CutShort else ending;
    }

    method ResumeOp(id: nat, ok: bool)
      requires id in ops && !Blocked(View(), ops[id])
      modifies this
      ensures View() == Step(old(View()), OpResumes(id, ok))
    {
      hide View; hide Step; hide Blocked;
      var op := ops[id];
      if op == SpawnWantsBootstrap || op == SpawnWantsRunning || op == SpawnWantsFailed {
        ResumeSpawn(id, ok);
      } else if op == PauseSaves || op.PauseGathers? || op == PauseWantsPaused {
        ResumePause(id, ok);
      } else if op == ResumeWantsLock || op == ResumeLoads {
        ResumeResume(id, ok);
      } else {
        ResumeInterrupt(id, ok);
      }
    }

    /** One stretch of whichever coroutine the event loop runs next. */
    method Advance(e: Event)
      requires Valid() && Enabled(View(), e)
      modifies this
      ensures Valid() && View() == Step(old(View()), e)
    {
      StepKeepsInv(View(), e);
      hide Inv; hide Step; hide Blocked; hide MainBlocked;
      match e
      case Requested(id, r) => Request(id, r);
      case OpResumes(id, ok) => ResumeOp(id, ok);
      case MainResumes(k, outcome) => ResumeMain(k, outcome);
      case CallerCancelled(id) => Abort(id);
    }
  }
}
