/**
 What becomes of the requests of module RpcPipes: which are accepted, how each can
 end and why, when the pipe breaks, and that a close that was asked for runs to its
 end.  The conditions are told in terms of the pipe's fields alone.
 */
module PipeOutcomes {
  import opened Wrappers
  import opened RpcPipes

  // ---------------------------------------------------------------- accepting and writing

  /** A request is turned away by a closed pipe, a broken one, and, but for the shutdown call, by a stopping one. */
  lemma AcceptedExactly(p: Pipe, name: string)
    ensures var turnedAway := p.closed || p.failure.Some? || (p.graceful && name != "shutdown");
      var q := Step(p, Request(name));
      && (turnedAway ==> q == p)
      && (!turnedAway ==>
            && q.table.futures == p.table.futures[p.table.next := Pending]
            && q.table.requests == p.table.requests + {p.table.next}
            && q.table.methods == p.table.methods[p.table.next := name]
            && q.outgoing == p.outgoing + [Call(p.table.next)] && q.table.next == p.table.next + 1)
  {}

  ghost predicate Leads(p: Pipe, q: Pipe, only: Event -> bool) {
    exists events: seq<Event> :: (forall i :: 0 <= i < |events| ==> only(events[i])) && Run(p, events) == Some(q)
  }

  lemma LeadsNowhere(p: Pipe, only: Event -> bool)
    ensures Leads(p, p, only)
  {
    assert Run(p, []) == Some(p);
  }

  lemma LeadsOn(p: Pipe, q: Pipe, only: Event -> bool, e: Event)
    requires Leads(p, q, only) && Enabled(q, e) && only(e)
    ensures Leads(p, Step(q, e), only)
  {
    var events: seq<Event> :| (forall i :: 0 <= i < |events| ==> only(events[i])) && Run(p, events) == Some(q);
    hide Step; hide Enabled; hide Run;
    RunAppend(p, events, e);
    var longer := events + [e];
    assert forall i :: 0 <= i < |longer| ==> only(longer[i]);
  }

  predicate WriterOnly(e: Event) { e.WriterTakes? }

  lemma {:induction false} WriterWorks(p: Pipe, now: Pipe) returns (end: Pipe)
    requires Leads(p, now, WriterOnly) && Inv(now) && !now.closed && now.writer.Running?
    ensures Leads(p, end, WriterOnly) && end.outgoing == [] && end.table == now.table
    ensures end.written == Upto(now.table.next - 1)
    decreases |now.outgoing|
  {
    end := now;
    if now.outgoing != [] {
      QueueTakes(now.table.next, now.outgoing, now.written);
      StepKeepsInv(now, WriterTakes);
      LeadsOn(p, now, WriterOnly, WriterTakes);
      hide Leads; hide Inv;
      end := WriterWorks(p, Step(now, WriterTakes));
    }
  }

  /** On an open pipe the writer alone gets every accepted request out, in the order of their numbers. */
  lemma QueueDrains(p: Pipe) returns (end: Pipe)
    requires Reachable(p) && !p.closed && p.writer.Running?
    ensures Leads(p, end, WriterOnly) && end.outgoing == [] && end.table == p.table
    ensures |end.written| == p.table.next - 1 && forall i :: 0 <= i < |end.written| ==> end.written[i] == i + 1
  {
    ReachableInv(p);
    LeadsNowhere(p, WriterOnly);
    end := WriterWorks(p, p);
    hide Leads; hide Inv;
  }

  // ---------------------------------------------------------------- how a request ends

  /** A line the reader cannot digest. */
  predicate Chokes(msg: Message, emitRaises: bool) {
    (msg.hasMethod && emitRaises) || (!msg.hasMethod && msg.isResponse && msg.rid == Compound)
  }

  /** What a done callback reports: the exception of the task, or its cancellation unless that was expected. */
  function Reported(exit: Exit, expected: bool): Option<Reason> {
    if exit.Threw? then Some(exit.why) else if exit.WasCancelled? && !expected then Some(TaskCancelled) else None
  }

  predicate Stopping(p: Pipe) { p.closed || p.graceful }

  /** The error every pending request gets from an event, if it is one that ends them. */
  function Downfall(p: Pipe, e: Event): Option<Reason> {
    match e
    case Deliver(msg, emitRaises) => if Chokes(msg, emitRaises) then Some(ReaderFailed) else None
    case ReaderEof => Some(if Stopping(p) || p.confirmed then ShutDown else Eof)
    case ReaderFails => Some(ReaderFailed)
    case WriterFails => Some(WriterFailed)
    case ReaderCancelled => Some(TaskCancelled)
    case WriterCancelled => Some(TaskCancelled)
    case ReaderNoticed => if p.reader.Exited? then Reported(p.reader.exit, Stopping(p)) else None
    case WriterNoticed => if p.writer.Exited? then Reported(p.writer.exit, Stopping(p)) else None
    case CloseFailsPending => Some(Closed)
    case _ => None
  }

  lemma FailAllFails(t: Table, why: Reason, id: nat)
    requires TableOk(t) && id in t.futures && t.futures[id] == Pending
    ensures id in FailAll(t, why).futures && FailAll(t, why).futures[id] == Failed(why)
  {}

  lemma ReaderDownfall(p: Pipe, e: Event)
    requires Enabled(p, e)
    requires e.Deliver? || e.ReaderEof? || e.ReaderFails? || e.ReaderCancelled? || e.ReaderNoticed?
    ensures Downfall(p, e).Some? ==> Step(p, e).table == FailAll(p.table, Downfall(p, e).value)
    ensures Downfall(p, e).None? && !e.Deliver? ==> Step(p, e).table == p.table
    ensures Downfall(p, e).None? && e.Deliver? ==>
      Step(p, e).table == if Matches(p.table, e.msg) then Answer(p.table, e.msg) else p.table
  {
    hide FailAll; hide Key; hide Settle; hide Drop;
  }

  lemma WriterDownfall(p: Pipe, e: Event)
    requires Enabled(p, e)
    requires e.WriterFails? || e.WriterCancelled? || e.WriterNoticed? || e.WriterTakes?
    ensures Downfall(p, e).Some? ==> Step(p, e).table == FailAll(p.table, Downfall(p, e).value)
    ensures Downfall(p, e).None? ==> Step(p, e).table == p.table
  {
    hide FailAll;
  }

  lemma CloseDownfall(p: Pipe, e: Event)
    requires Enabled(p, e)
    requires e.ConfirmShutdown? || e.CloseAsked? || e.CloseBegins? || e.CloseFailsPending? || e.CloseEnds?
    ensures Downfall(p, e).Some? ==> Step(p, e).table == FailAll(p.table, Downfall(p, e).value)
    ensures Downfall(p, e).None? ==> Step(p, e).table == p.table
  {
    hide FailAll;
  }

  lemma CallerMoves(p: Pipe, e: Event, id: nat)
    requires Inv(p) && Enabled(p, e) && id in p.table.futures && p.table.futures[id] == Pending
    requires e.Request? || e.WaitEnds? || e.CleanUp?
    ensures id in Step(p, e).table.futures && Downfall(p, e).None?
    ensures Step(p, e).table.futures[id] == if e == WaitEnds(id) then Abandoned else Pending
  {
    assert id != p.table.next;
    hide Inv; hide Rejects;
  }

  lemma AnswerFuture(t: Table, msg: Message, id: nat)
    requires Matches(t, msg) && id in t.futures && t.futures[id] == Pending
    ensures id in Answer(t, msg).futures && var f := Answer(t, msg).futures[id]; f == Pending || f == Answered(msg)
  {
    hide Key;
  }

  /**
   A pending request fails exactly when the reader or the writer ends or is found to have
   ended badly, a line chokes the reader, or the teardown gets to it; an expected end of
   file fails it too.  The error is that of the first such event.
   */
  lemma FailsExactly(p: Pipe, e: Event, id: nat)
    requires Reachable(p) && Enabled(p, e) && id in p.table.futures && p.table.futures[id] == Pending
    ensures id in Step(p, e).table.futures
    ensures Step(p, e).table.futures[id].Failed? <==> Downfall(p, e).Some?
    ensures Step(p, e).table.futures[id].Failed? ==> Step(p, e).table.futures[id].why == Downfall(p, e).value
    ensures Step(p, e).table.futures[id] == Abandoned <==> e == WaitEnds(id)
  {
    ReachableInv(p);
    if Downfall(p, e).Some? {
      FailAllFails(p.table, Downfall(p, e).value, id);
    }
    if e.Deliver? && Matches(p.table, e.msg) {
      AnswerFuture(p.table, e.msg, id);
    }
    if e.Request? || e.WaitEnds? || e.CleanUp? {
      CallerMoves(p, e, id);
    }
    hide *;
    if e.Request? || e.WaitEnds? || e.CleanUp? {
    } else if e.WriterFails? || e.WriterCancelled? || e.WriterNoticed? || e.WriterTakes? {
      WriterDownfall(p, e);
    } else if e.ConfirmShutdown? || e.CloseAsked? || e.CloseBegins? || e.CloseFailsPending? || e.CloseEnds? {
      CloseDownfall(p, e);
    } else {
      ReaderDownfall(p, e);
    }
  }

  /** A caller that runs again after its wait ended takes its entry out of the table, and no other. */
  lemma ForgottenExactly(p: Pipe, id: nat)
    requires id in p.table.futures && p.table.futures[id] != Pending
    ensures var q := Step(p, CleanUp(id));
      && q.table.requests == p.table.requests - {id} && q.table.methods == p.table.methods - {id}
      && q.table.futures == p.table.futures && q.outgoing == p.outgoing && q.failure == p.failure
  {}

  /** Nothing keeps a running reader or writer from ending in any way, or a waiting caller from giving up. */
  lemma AnythingCanHappen(p: Pipe, msg: Message, emitRaises: bool, id: nat)
    ensures p.reader.Running? <==>
      && Enabled(p, ReaderEof) && Enabled(p, ReaderFails) && Enabled(p, ReaderCancelled)
      && Enabled(p, Deliver(msg, emitRaises))
    ensures p.writer.Running? <==> Enabled(p, WriterFails) && Enabled(p, WriterCancelled)
    ensures (p.reader.Exited? && !p.reader.noticed <==> Enabled(p, ReaderNoticed))
      && (p.writer.Exited? && !p.writer.noticed <==> Enabled(p, WriterNoticed))
    ensures id in p.table.futures ==> (Enabled(p, WaitEnds(id)) <==> p.table.futures[id] == Pending)
    ensures id in p.table.futures ==> (Enabled(p, CleanUp(id)) <==> p.table.futures[id] != Pending)
    ensures Enabled(p, CloseAsked) && Enabled(p, ConfirmShutdown)
  {}

  // ---------------------------------------------------------------- when the pipe breaks

  lemma CollapsedFields(p: Pipe)
    ensures forall why: Reason, breaks: bool, reader: Loop, writer: Loop ::
      var q := Collapse(p, why, breaks, reader, writer);
      && q.written == p.written && q.closed == p.closed && q.graceful == p.graceful && q.confirmed == p.confirmed
      && q.closing == p.closing && q.reader == reader && q.writer == writer
      && q.failure == if breaks && p.failure.None? then Some(why) else p.failure
  {
    hide FailAll;
  }

  /** A step writes exactly the next accepted request, and only while the pipe is open. */
  lemma WrittenExactly(p: Pipe, e: Event)
    requires Enabled(p, e)
    ensures Step(p, e).written ==
      if e.WriterTakes? && p.outgoing[0].Call? && !p.closed then p.written + [p.outgoing[0].id] else p.written
  {
    CollapsedFields(p);
    hide Collapse; hide FailAll; hide Add; hide Settle; hide Drop; hide Rejects; hide Matches; hide Key; hide Alarms;
    hide Asked; hide ExitReason;
  }

  /** What breaks an unbroken pipe: an end of its reader or writer that nobody asked for. */
  function Breaks(p: Pipe, e: Event): Option<Reason> {
    match e
    case Deliver(msg, emitRaises) => if Chokes(msg, emitRaises) && !Stopping(p) then Some(ReaderFailed) else None
    case ReaderEof => if Stopping(p) || p.confirmed then None else Some(Eof)
    case ReaderFails => if Stopping(p) then None else Some(ReaderFailed)
    case WriterFails => if p.closed then None else Some(WriterFailed)
    case ReaderNoticed => if p.reader.Exited? && !Stopping(p) then Reported(p.reader.exit, false) else None
    case WriterNoticed => if p.writer.Exited? && !Stopping(p) then Reported(p.writer.exit, false) else None
    case _ => None
  }

  /** The failure a pipe shows is the first of these, for good; nothing expected is ever recorded as one. */
  lemma BreaksExactly(p: Pipe, e: Event)
    requires Enabled(p, e)
    ensures Step(p, e).failure == if p.failure.Some? then p.failure else Breaks(p, e)
  {
    CollapsedFields(p);
    hide Collapse; hide FailAll; hide Add; hide Settle; hide Drop; hide Rejects; hide Matches; hide Key; hide Asked;
  }

  lemma StopsExactly(p: Pipe, e: Event)
    requires Enabled(p, e)
    ensures Step(p, e).graceful <==> p.graceful || e.ConfirmShutdown?
    ensures Step(p, e).closed <==> p.closed || e.CloseBegins?
  {
    CollapsedFields(p);
    hide Collapse; hide FailAll; hide Add; hide Settle; hide Drop; hide Rejects; hide Asked; hide Alarms; hide Matches;
    hide ExitReason; hide Key;
  }

  /** The line answers a shutdown call that is still in the table. */
  predicate AcceptsShutdown(t: Table, msg: Message) {
    exists id :: id in t.requests && id in t.methods && t.methods[id] == "shutdown" && ByOwnId(msg, id)
  }

  lemma DeliveryConfirms(p: Pipe, msg: Message, emitRaises: bool)
    requires p.reader.Running?
    ensures Receive(p, msg, emitRaises).confirmed <==> p.confirmed || AcceptsShutdown(p.table, msg)
  {
    CollapsedFields(p);
    hide Collapse; hide Settle; hide Drop;
    if Matches(p.table, msg) {
      assert ByOwnId(msg, Key(msg.rid).value);
    }
    hide Key;
  }

  /** Only the host stops a pipe; shutting down is confirmed by the host or by the answer to a shutdown call. */
  lemma ConfirmedExactly(p: Pipe, e: Event)
    requires Enabled(p, e)
    ensures Step(p, e).graceful <==> p.graceful || e.ConfirmShutdown?
    ensures Step(p, e).closed <==> p.closed || e.CloseBegins?
    ensures Step(p, e).confirmed <==>
      p.confirmed || e.ConfirmShutdown? || (e.Deliver? && AcceptsShutdown(p.table, e.msg))
  {
    StopsExactly(p, e);
    CollapsedFields(p);
    if e.Deliver? {
      DeliveryConfirms(p, e.msg, e.emitRaises);
    }
    hide Collapse; hide FailAll; hide Add; hide Settle; hide Drop; hide Rejects; hide Asked; hide Alarms; hide Receive;
    hide ExitReason; hide AcceptsShutdown;
  }

  /** What an event makes of the reader; it is asked to stop when the writer is found dead on a pipe nobody stopped. */
  function ReaderAfter(p: Pipe, e: Event): Loop {
    if p.reader.Exited? then (if e.ReaderNoticed? then Exited(p.reader.exit, true) else p.reader)
    else if e.ReaderEof? then Exited(if Stopping(p) || p.confirmed then Clean else Threw(Eof), false)
    else if e.ReaderFails? || (e.Deliver? && Chokes(e.msg, e.emitRaises)) then Exited(Threw(ReaderFailed), false)
    else if e.ReaderCancelled? then Exited(WasCancelled, false)
    else if e.WriterNoticed? && p.writer.Exited? && p.writer.exit != Clean && !Stopping(p) then Running(true)
    else p.reader
  }

  function WriterAfter(p: Pipe, e: Event): Loop {
    if p.writer.Exited? then (if e.WriterNoticed? then Exited(p.writer.exit, true) else p.writer)
    else if e.WriterTakes? && p.outgoing != [] && p.outgoing[0] == CloseMark then Exited(Clean, false)
    else if e.WriterFails? then Exited(Threw(WriterFailed), false)
    else if e.WriterCancelled? then Exited(WasCancelled, false)
    else if e.ReaderNoticed? && p.reader.Exited? && p.reader.exit != Clean && !Stopping(p) then Running(true)
    else p.writer
  }

  lemma ReaderExactly(p: Pipe, e: Event)
    requires Enabled(p, e)
    ensures Step(p, e).reader == ReaderAfter(p, e)
  {
    CollapsedFields(p);
    hide Collapse; hide FailAll; hide Add; hide Settle; hide Drop; hide Rejects; hide Matches; hide Key;
    hide ExitReason;
  }

  lemma WriterExactly(p: Pipe, e: Event)
    requires Enabled(p, e)
    ensures Step(p, e).writer == WriterAfter(p, e)
  {
    CollapsedFields(p);
    hide Collapse; hide FailAll; hide Add; hide Settle; hide Drop; hide Rejects; hide Matches; hide Key;
    hide ExitReason;
  }

  // ---------------------------------------------------------------- closing

  /** How far the teardown is. */
  function Progress(closing: Closing): nat {
    match closing
    case NotAsked => 0
    case Scheduled => 1
    case ReaderPhase => 2
    case WriterPhase => 3
    case Finished => 4
  }

  lemma ProgressStays(p: Pipe, e: Event)
    requires Inv(p) && Enabled(p, e)
    ensures Progress(p.closing) <= Progress(Step(p, e).closing)
    ensures e.CloseAsked? ==> Step(p, e).closing != NotAsked
  {
    assert p.closed ==> p.closing != NotAsked;
    hide Inv;
    if e.CloseAsked? || e.CloseBegins? || e.CloseFailsPending? || e.CloseEnds? {
      hide FailAll;
    } else {
      ProgressKept(p, e);
      hide Step; hide Enabled;
    }
  }

  lemma ProgressKept(p: Pipe, e: Event)
    requires Enabled(p, e) && !e.CloseAsked? && !e.CloseBegins? && !e.CloseFailsPending? && !e.CloseEnds?
    ensures Step(p, e).closing == p.closing
  {
    CollapsedFields(p);
    hide Collapse; hide FailAll; hide Add; hide Settle; hide Drop; hide Rejects; hide Matches; hide Key; hide Asked;
    hide Alarms; hide ExitReason;
  }

  /** A close that was asked for is under way from then on. */
  lemma {:induction false} CloseIsTakenUp(p: Pipe, events: seq<Event>)
    requires Inv(p) && Run(p, events).Some?
    ensures Progress(p.closing) <= Progress(Run(p, events).value.closing)
    ensures CloseAsked in events ==> Run(p, events).value.closing != NotAsked
    decreases |events|
  {
    if events != [] {
      ProgressStays(p, events[0]);
      StepKeepsInv(p, events[0]);
      hide Step; hide Inv;
      CloseIsTakenUp(Step(p, events[0]), events[1..]);
    }
  }

  /** While the writer of a closing pipe runs, the mark that ends it is still in its queue. */
  predicate MarkOk(p: Pipe) { p.closed && p.writer.Running? ==> CloseMark in p.outgoing }

  lemma MarkStays(p: Pipe, e: Event)
    requires MarkOk(p) && Enabled(p, e)
    ensures MarkOk(Step(p, e))
  {
    WriterExactly(p, e);
    StopsExactly(p, e);
    QueueMoves(p, e);
    hide Step; hide Chokes;
    if e.WriterTakes? && p.outgoing[0] != CloseMark && CloseMark in p.outgoing {
      var i :| 0 <= i < |p.outgoing| && p.outgoing[i] == CloseMark;
      assert p.outgoing[1..][i - 1] == CloseMark;
    }
  }

  lemma QueueMoves(p: Pipe, e: Event)
    requires Enabled(p, e)
    ensures e.WriterTakes? ==> Step(p, e).outgoing == p.outgoing[1..]
    ensures e.CloseBegins? ==> Step(p, e).outgoing == p.outgoing + [CloseMark]
    ensures !e.WriterTakes? ==> p.outgoing <= Step(p, e).outgoing
  {
    hide FailAll; hide Add; hide Settle; hide Drop; hide Rejects; hide Matches; hide Key; hide Asked; hide Alarms;
  }

  lemma {:induction false} RunKeepsMark(p: Pipe, events: seq<Event>)
    requires MarkOk(p) && Run(p, events).Some?
    ensures MarkOk(Run(p, events).value)
    decreases |events|
  {
    if events != [] {
      MarkStays(p, events[0]);
      hide Step; hide MarkOk;
      RunKeepsMark(Step(p, events[0]), events[1..]);
    }
  }

  /** What the teardown waits for: the end of file, and the writer working off its queue. */
  predicate Winding(e: Event) {
    e.CloseBegins? || e.ReaderEof? || e.CloseFailsPending? || e.WriterTakes? || e.CloseEnds?
  }

  /** The writer of a closing pipe finds the mark. */
  lemma {:induction false} WriterEnds(p: Pipe, now: Pipe) returns (end: Pipe)
    requires Leads(p, now, Winding) && now.closed && MarkOk(now)
    ensures Leads(p, end, Winding) && end.writer.Exited? && end.closed
    ensures end.written == now.written && end.reader == now.reader && end.closing == now.closing
    decreases |now.outgoing|
  {
    end := now;
    if now.writer.Running? {
      MarkStays(now, WriterTakes);
      LeadsOn(p, now, Winding, WriterTakes);
      hide Leads; hide MarkOk;
      end := WriterEnds(p, Step(now, WriterTakes));
    }
  }

  /** The reader of a closing pipe gets to its end of file. */
  lemma ReaderEnds(p: Pipe, now: Pipe) returns (end: Pipe)
    requires Leads(p, now, Winding) && now.closed
    ensures Leads(p, end, Winding) && end.reader.Exited? && end.closed
    ensures end.written == now.written && end.closing == now.closing
    ensures end.writer == now.writer && end.outgoing == now.outgoing
  {
    end := now;
    if now.reader.Running? {
      LeadsOn(p, now, Winding, ReaderEof);
      end := Step(now, ReaderEof);
    }
    hide Leads; hide FailAll;
  }

  /** The rest of a teardown that has begun. */
  lemma CloseGoesOn(p: Pipe, now: Pipe) returns (end: Pipe)
    requires Leads(p, now, Winding) && now.closed && MarkOk(now)
    requires now.closing == ReaderPhase || now.closing == WriterPhase || now.closing == Finished
    ensures Leads(p, end, Winding) && end.closing == Finished && end.closed && end.written == now.written
  {
    hide Leads; hide FailAll;
    end := now;
    if end.closing == ReaderPhase {
      end := ReaderEnds(p, end);
      LeadsOn(p, end, Winding, CloseFailsPending);
      end := Step(end, CloseFailsPending);
    }
    if end.closing == WriterPhase {
      end := WriterEnds(p, end);
      LeadsOn(p, end, Winding, CloseEnds);
      end := Step(end, CloseEnds);
    }
  }

  lemma CloseStarts(p: Pipe) returns (end: Pipe)
    requires Inv(p) && MarkOk(p) && p.closing != NotAsked
    ensures Leads(p, end, Winding) && end.closed && MarkOk(end) && end.written == p.written
    ensures end.closing == ReaderPhase || end.closing == WriterPhase || end.closing == Finished
  {
    LeadsNowhere(p, Winding);
    hide Leads;
    end := p;
    if end.closing == Scheduled {
      MarkStays(end, CloseBegins);
      hide MarkOk;
      LeadsOn(p, end, Winding, CloseBegins);
      end := Step(end, CloseBegins);
    }
  }

  /**
   From every reachable state in which a close was asked for, the end of file and the
   writer's own work bring the teardown to its end: nothing more is written, nothing is
   pending, and every request is turned away.
   */
  lemma CloseDrains(p: Pipe) returns (end: Pipe)
    requires Reachable(p) && p.closing != NotAsked
    ensures Leads(p, end, Winding) && Reachable(end)
    ensures end.closing == Finished && end.closed && end.written == p.written
    ensures forall id :: id in end.table.futures ==> end.table.futures[id] != Pending
    ensures forall name :: Step(end, Request(name)) == end
  {
    var events: seq<Event> :| Run(FRESH, events) == Some(p);
    RunKeepsMark(FRESH, events);
    ReachableInv(p);
    end := CloseStarts(p);
    end := CloseGoesOn(p, end);
    LeadsReachable(p, end);
    ReachableInv(end);
    NothingPending(end);
    hide Inv; hide Reachable; hide Run; hide Leads; hide MarkOk;
  }

  lemma LeadsReachable(p: Pipe, end: Pipe)
    requires Reachable(p) && Leads(p, end, Winding)
    ensures Reachable(end)
  {
    var before: seq<Event> :| Run(FRESH, before) == Some(p);
    var after: seq<Event> :| (forall i :: 0 <= i < |after| ==> Winding(after[i])) && Run(p, after) == Some(end);
    RunsJoin(FRESH, before, after);
  }

  lemma {:induction false} RunsJoin(p: Pipe, before: seq<Event>, after: seq<Event>)
    requires Run(p, before).Some?
    ensures Run(p, before + after) == Run(Run(p, before).value, after)
    decreases |before|
  {
    hide Step; hide Enabled;
    if before == [] {
      assert before + after == after;
    } else {
      assert (before + after)[1..] == before[1..] + after;
      RunsJoin(Step(p, before[0]), before[1..], after);
    }
  }
}
