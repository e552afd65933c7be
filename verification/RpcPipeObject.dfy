/**
 The AsyncRpcPipe object (appserver/agent_host.py:100-485): each stretch between two
 awaits is proved against the step of module RpcPipes.
 */
module AsyncRpcPipes {
  import opened Wrappers
  import opened RpcPipes

  class AsyncRpcPipe {
    var nextId: nat
    var requests: set<nat>
    var requestMethods: map<nat, string>
    var futures: map<nat, Fate>
    var outgoing: seq<Item>
    var written: seq<nat>
    var degraded: bool
    var failure: Option<Reason>
    var graceful: bool
    var confirmed: bool
    var closed: bool
    var reader: Loop
    var writer: Loop
    var closing: Closing
    ghost var closeRuns: nat

    ghost function Requests(): Table
      reads `nextId, `requests, `requestMethods, `futures
    {
      Table(nextId, requests, requestMethods, futures)
    }

    ghost function View(): Pipe
      reads this
    {
      Pipe(Requests(), outgoing, written, degraded, failure, graceful, confirmed, closed, reader, writer, closing,
           closeRuns)
    }

    ghost predicate Valid()
      reads this
    {
      Inv(View())
    }

    constructor ()
      ensures Valid() && View() == FRESH
    {
      nextId, requests, requestMethods, futures := 1, {}, map[], map[];
      outgoing, written, degraded, failure := [], [], false, None;
      graceful, confirmed, closed := false, false, false;
      reader, writer, closing, closeRuns := Running(false), Running(false), NotAsked, 0;
    }

    method FailAllPending(why: Reason)
      modifies `requests, `requestMethods, `futures
      ensures Requests() == FailAll(old(Requests()), why)
    {
      var pending := requests;
      requests, requestMethods := {}, map[];
      while pending != {}
        invariant requests == {} && requestMethods == map[] && pending <= old(requests)
        invariant futures.Keys == old(futures).Keys
        invariant forall id :: id in futures ==>
          futures[id] ==
            if id in old(requests) && id !in pending && old(futures)[id] == Pending then Failed(why)
            else old(futures)[id]
        decreases |pending|
      {
        var id :| id in pending;
        pending := pending - {id};
        if id in futures && futures[id] == Pending {
          futures := futures[id := Failed(why)];
        }
      }
      assert futures == FailAll(old(Requests()), why).futures;
    }

    /** Only the first failure is recorded. */
    method TransitionFailed(why: Reason)
      modifies `failure, `degraded
      ensures failure == (if old(failure).None? then Some(why) else old(failure))
      ensures degraded == (old(degraded) || old(failure).None?)
    {
      if failure.None? {
        failure, degraded := Some(why), true;
      }
    }

    /** The ways a loop or a done callback ends: record the failure unless it is expected, fail what is pending. */
    method Fail(why: Reason, breaks: bool)
      modifies `requests, `requestMethods, `futures, `failure, `degraded
      ensures View() == Collapse(old(View()), why, breaks, reader, writer)
    {
      if breaks {
        TransitionFailed(why);
      }
      FailAllPending(why);
      hide FailAll;
    }

    method Send(name: string)
      modifies `nextId, `requests, `requestMethods, `futures, `outgoing
      ensures View() == Step(old(View()), Request(name))
    {
      if closed || failure.Some? || (graceful && name != "shutdown") {
        return;
      }
      outgoing := outgoing + [Call(nextId)];
      Enter(name);
      hide Add;
    }

    method Enter(name: string)
      modifies `nextId, `requests, `requestMethods, `futures
      ensures Requests() == Add(old(Requests()), name)
    {
      futures := futures[nextId := Pending];
      requests, requestMethods := requests + {nextId}, requestMethods[nextId := name];
      nextId := nextId + 1;
    }

    /** wait_for gives up and cancels the future; the table entry stays until the caller runs again. */
    method GiveUp(id: nat)
      requires id in futures && futures[id] == Pending
      modifies `futures
      ensures View() == Step(old(View()), WaitEnds(id))
    {
      futures := futures[id := Abandoned];
    }

    method Forget(id: nat)
      requires id in futures && futures[id] != Pending
      modifies `requests, `requestMethods
      ensures View() == Step(old(View()), CleanUp(id))
    {
      requests, requestMethods := requests - {id}, requestMethods - {id};
    }

    method ReaderRaises()
      requires reader.Running?
      modifies this
      ensures View() == ReaderThrows(old(View()))
    {
      Fail(ReaderFailed, !closed && !graceful);
      reader := Exited(Threw(ReaderFailed), false);
      hide FailAll;
    }

    method ReadLine(msg: Message, emitRaises: bool)
      requires reader.Running?
      modifies this
      ensures View() == Receive(old(View()), msg, emitRaises)
    {
      hide FailAll;
      if msg.hasMethod {
        if emitRaises {
          ReaderRaises();
        }
      } else if msg.isResponse {
        if msg.rid == Compound {
          ReaderRaises();
        } else {
          AnswerRequest(msg);
        }
      }
    }

    method AnswerRequest(msg: Message)
      requires !msg.hasMethod && msg.isResponse && msg.rid != Compound
      modifies `requests, `requestMethods, `futures, `confirmed
      ensures View() == Receive(old(View()), msg, false)
    {
      var key := Key(msg.rid);
      if key.Some? && key.value >= 0 && key.value in requests {
        var id: nat := key.value;
        if id in requestMethods && requestMethods[id] == "shutdown" {
          confirmed := true;
        }
        Resolve(id, msg);
      }
      hide Key; hide Settle; hide Drop;
    }

    method Resolve(id: nat, msg: Message)
      modifies `requests, `requestMethods, `futures
      ensures Requests() == Settle(Drop(old(Requests()), id), id, Answered(msg))
    {
      requests, requestMethods := requests - {id}, requestMethods - {id};
      if id in futures && futures[id] == Pending {
        futures := futures[id := Answered(msg)];
      }
    }

    method ReaderEnds()
      requires reader.Running?
      modifies this
      ensures View() == ReadEof(old(View()))
    {
      var expected := closed || graceful || confirmed;
      Fail(if expected then ShutDown else Eof, !expected);
      reader := Exited(if expected then Clean else Threw(Eof), false);
      hide FailAll;
    }

    method CancelReader()
      requires reader.Running?
      modifies this
      ensures View() == Step(old(View()), ReaderCancelled)
    {
      Fail(TaskCancelled, false);
      reader := Exited(WasCancelled, false);
      hide FailAll;
    }

    method WriteOne()
      requires outgoing != [] && writer.Running?
      modifies `outgoing, `written, `writer
      ensures View() == WriterTurn(old(View()))
    {
      var item := outgoing[0];
      outgoing := outgoing[1..];
      if item == CloseMark {
        writer := Exited(Clean, false);
      } else if !closed {
        written := written + [item.id];
      }
    }

    method WriterRaises()
      requires writer.Running?
      modifies this
      ensures View() == WriterThrows(old(View()))
    {
      Fail(WriterFailed, !closed);
      writer := Exited(Threw(WriterFailed), false);
      hide FailAll;
    }

    method CancelWriter()
      requires writer.Running?
      modifies this
      ensures View() == Step(old(View()), WriterCancelled)
    {
      Fail(TaskCancelled, false);
      writer := Exited(WasCancelled, false);
      hide FailAll;
    }

    /** The done callback of the reader task. */
    method OnReaderDone()
      requires reader.Exited? && !reader.noticed
      modifies this
      ensures View() == NoticeReader(old(View()))
    {
      var exit := reader.exit;
      reader := Exited(exit, true);
      if exit != Clean && !closed && !graceful {
        Fail(ExitReason(exit), true);
        writer := Asked(writer);
      } else if exit.Threw? {
        Fail(exit.why, false);
      }
      hide FailAll; hide Asked; hide ExitReason;
    }

    method OnWriterDone()
      requires writer.Exited? && !writer.noticed
      modifies this
      ensures View() == NoticeWriter(old(View()))
    {
      var exit := writer.exit;
      writer := Exited(exit, true);
      if exit != Clean && !closed && !graceful {
        Fail(ExitReason(exit), true);
        reader := Asked(reader);
      } else if exit.Threw? {
        Fail(exit.why, false);
      }
      hide FailAll; hide Asked; hide ExitReason;
    }

    /** close() schedules one teardown; later callers wait for it or return. */
    method Close()
      modifies `closing
      ensures View() == Step(old(View()), CloseAsked)
    {
      if closing == NotAsked && !closed {
        closing := Scheduled;
      }
    }

    method BeginClose()
      requires closing == Scheduled
      modifies `closing, `closed, `closeRuns, `outgoing
      ensures View() == Step(old(View()), CloseBegins)
    {
      closing, closed, closeRuns, outgoing := ReaderPhase, true, closeRuns + 1, outgoing + [CloseMark];
    }

    method FailRest()
      requires closing == ReaderPhase && reader.Exited?
      modifies `requests, `requestMethods, `futures, `closing
      ensures View() == Step(old(View()), CloseFailsPending)
    {
      FailAllPending(Closed);
      closing := WriterPhase;
      hide FailAll;
    }

    method EndClose()
      requires closing == WriterPhase && writer.Exited?
      modifies `closing
      ensures View() == Step(old(View()), CloseEnds)
    {
      closing := Finished;
    }

    method Confirm()
      modifies `graceful, `confirmed
      ensures View() == Step(old(View()), ConfirmShutdown)
    {
      graceful, confirmed := true, true;
    }

    /** One stretch of whichever coroutine or callback the event loop runs next. */
    method Advance(e: Event)
      requires Valid() && Enabled(View(), e)
      modifies this
      ensures Valid() && View() == Step(old(View()), e)
    {
      StepKeepsInv(View(), e);
      hide Inv; hide NoticeReader; hide NoticeWriter; hide ReadEof; hide ReaderThrows; hide WriterThrows;
      hide Receive; hide Collapse; hide WriterTurn; hide Add; hide Settle; hide Drop; hide FailAll; hide Rejects;
      match e
      case Request(name) => Send(name);
      case WaitEnds(id) => GiveUp(id);
      case CleanUp(id) => Forget(id);
      case Deliver(msg, emitRaises) => ReadLine(msg, emitRaises);
      case ReaderEof => ReaderEnds();
      case ReaderFails => ReaderRaises();
      case ReaderCancelled => CancelReader();
      case WriterTakes => WriteOne();
      case WriterFails => WriterRaises();
      case WriterCancelled => CancelWriter();
      case ReaderNoticed => OnReaderDone();
      case WriterNoticed => OnWriterDone();
      case ConfirmShutdown => Confirm();
      case CloseAsked => Close();
      case CloseBegins => BeginClose();
      case CloseFailsPending => FailRest();
      case CloseEnds => EndClose();
    }
  }
}
