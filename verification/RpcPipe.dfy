/**
 AsyncRpcPipe (appserver/agent_host.py:100-485): request ids matched to pending
 futures, a reader and a writer task, a one-shot failure and a single teardown.
 One step is the code between two awaits.
 */
module RpcPipes {
  import opened Wrappers

  /** The id of a message, as the JSON decoder gives it. */
  datatype Rid = Absent | Integer(n: int) | Real(r: real) | Boolean(b: bool) | Text(s: string) | Compound

  datatype Message = Message(rid: Rid, hasMethod: bool, isResponse: bool)

  datatype Reason = Eof | ReaderFailed | WriterFailed | TaskCancelled | ShutDown | Closed

  /** Abandoned: the caller's wait timed out or was cancelled. */
  datatype Fate = Pending | Answered(msg: Message) | Failed(why: Reason) | Abandoned

  datatype Item = Call(id: nat) | CloseMark

  datatype Exit = Clean | Threw(why: Reason) | WasCancelled

  /** asked: cancel() was called on it; noticed: its done callback has run. */
  datatype Loop = Running(asked: bool) | Exited(exit: Exit, noticed: bool)

  datatype Closing = NotAsked | Scheduled | ReaderPhase | WriterPhase | Finished

  datatype Table = Table(next: nat, requests: set<nat>, methods: map<nat, string>, futures: map<nat, Fate>)

  datatype Pipe = Pipe(table: Table, outgoing: seq<Item>, written: seq<nat>,
                       degraded: bool, failure: Option<Reason>,
                       graceful: bool, confirmed: bool, closed: bool,
                       reader: Loop, writer: Loop, closing: Closing, closeRuns: nat)

  const FRESH := Pipe(Table(1, {}, map[], map[]), [], [], false, None, false, false, false,
                      Running(false), Running(false), NotAsked, 0)

  datatype Event =
    | Request(name: string)
    | WaitEnds(id: nat)
    | CleanUp(id: nat)
    | Deliver(msg: Message, emitRaises: bool)
    | ReaderEof
    | ReaderFails
    | ReaderCancelled
    | WriterTakes
    | WriterFails
    | WriterCancelled
    | ReaderNoticed
    | WriterNoticed
    | ConfirmShutdown
    | CloseAsked
    | CloseBegins
    | CloseFailsPending
    | CloseEnds

  // ---------------------------------------------------------------- the request table

  /** The integer key a message id is equal to, as a dictionary key. */
  function Key(rid: Rid): Option<int> {
    match rid
    case Integer(n) => Some(n)
    case Real(r) => if r == r.Floor as real then Some(r.Floor) else None
    case Boolean(b) => Some(if b then 1 else 0)
    case Absent => None
    case Text(_) => None
    case Compound => None
  }

  predicate Rejects(p: Pipe, name: string) {
    p.closed || p.failure.Some? || (p.graceful && name != "shutdown")
  }

  function Add(t: Table, name: string): Table {
    Table(t.next + 1, t.requests + {t.next}, t.methods[t.next := name], t.futures[t.next := Pending])
  }

  function Drop(t: Table, id: nat): Table { t.(requests := t.requests - {id}, methods := t.methods - {id}) }

  function Settle(t: Table, id: nat, fate: Fate): Table {
    t.(futures := if id in t.futures && t.futures[id] == Pending then t.futures[id := fate] else t.futures)
  }

  function FailAll(t: Table, why: Reason): Table {
    Table(t.next, {}, map[],
          map id | id in t.futures ::
            if id in t.requests && t.futures[id] == Pending then Failed(why) else t.futures[id])
  }

  predicate Matches(t: Table, msg: Message) {
    && !msg.hasMethod && msg.isResponse
    && var key := Key(msg.rid); key.Some? && key.value >= 0 && key.value in t.requests
  }

  // ---------------------------------------------------------------- steps

  /** Every pending request fails; breaks records the failure too, unless one is recorded. */
  function Collapse(p: Pipe, why: Reason, breaks: bool, reader: Loop, writer: Loop): Pipe {
    p.(table := FailAll(p.table, why),
       failure := if breaks && p.failure.None? then Some(why) else p.failure,
       degraded := p.degraded || (breaks && p.failure.None?),
       reader := reader, writer := writer)
  }

  function ReaderThrows(p: Pipe): Pipe {
    Collapse(p, ReaderFailed, !p.closed && !p.graceful, Exited(Threw(ReaderFailed), false), p.writer)
  }

  /** A line from the worker; a response whose id cannot be a dictionary key is a reader error. */
  function Receive(p: Pipe, msg: Message, emitRaises: bool): Pipe {
    if msg.hasMethod then (if emitRaises then ReaderThrows(p) else p)
    else if msg.isResponse && msg.rid == Compound then ReaderThrows(p)
    else if Matches(p.table, msg) then
      var id := Key(msg.rid).value as nat;
      var shutdown := id in p.table.methods && p.table.methods[id] == "shutdown";
      p.(confirmed := p.confirmed || shutdown, table := Settle(Drop(p.table, id), id, Answered(msg)))
    else p
  }

  function ReadEof(p: Pipe): Pipe {
    if p.closed || p.graceful || p.confirmed
    then Collapse(p, ShutDown, false, Exited(Clean, false), p.writer)
    else Collapse(p, Eof, true, Exited(Threw(Eof), false), p.writer)
  }

  function WriterTurn(p: Pipe): Pipe
    requires p.outgoing != []
  {
    match p.outgoing[0]
    case CloseMark => p.(outgoing := p.outgoing[1..], writer := Exited(Clean, false))
    case Call(id) =>
      if p.closed then p.(outgoing := p.outgoing[1..])
      else p.(outgoing := p.outgoing[1..], written := p.written + [id])
  }

  function WriterThrows(p: Pipe): Pipe {
    Collapse(p, WriterFailed, !p.closed, p.reader, Exited(Threw(WriterFailed), false))
  }

  function Asked(task: Loop): Loop { if task.Running? then Running(true) else task }

  function ExitReason(exit: Exit): Reason { if exit.Threw? then exit.why else TaskCancelled }

  /** The done callback of a task, before the pipe closes, breaks it and stops the sibling. */
  predicate Alarms(p: Pipe, exit: Exit) { exit != Clean && !p.closed && !p.graceful }

  function NoticeReader(p: Pipe): Pipe
    requires p.reader.Exited?
  {
    var exit, seen := p.reader.exit, Exited(p.reader.exit, true);
    if Alarms(p, exit) then Collapse(p, ExitReason(exit), true, seen, Asked(p.writer))
    else if exit.Threw? then Collapse(p, exit.why, false, seen, p.writer)
    else p.(reader := seen)
  }

  function NoticeWriter(p: Pipe): Pipe
    requires p.writer.Exited?
  {
    var exit, seen := p.writer.exit, Exited(p.writer.exit, true);
    if Alarms(p, exit) then Collapse(p, ExitReason(exit), true, Asked(p.reader), seen)
    else if exit.Threw? then Collapse(p, exit.why, false, p.reader, seen)
    else p.(writer := seen)
  }

  predicate Enabled(p: Pipe, e: Event) {
    match e
    case Request(_) => true
    case WaitEnds(id) => id in p.table.futures && p.table.futures[id] == Pending
    case CleanUp(id) => id in p.table.futures && p.table.futures[id] != Pending
    case Deliver(_, _) => p.reader.Running?
    case ReaderEof => p.reader.Running?
    case ReaderFails => p.reader.Running?
    case ReaderCancelled => p.reader.Running?
    case WriterTakes => p.writer.Running? && p.outgoing != []
    case WriterFails => p.writer.Running?
    case WriterCancelled => p.writer.Running?
    case ReaderNoticed => p.reader.Exited? && !p.reader.noticed
    case WriterNoticed => p.writer.Exited? && !p.writer.noticed
    case ConfirmShutdown => true
    case CloseAsked => true
    case CloseBegins => p.closing == Scheduled
    case CloseFailsPending => p.closing == ReaderPhase && p.reader.Exited?
    case CloseEnds => p.closing == WriterPhase && p.writer.Exited?
  }

  function Step(p: Pipe, e: Event): Pipe
    requires Enabled(p, e)
  {
    match e
    case Request(name) =>
      if Rejects(p, name) then p
      else p.(table := Add(p.table, name), outgoing := p.outgoing + [Call(p.table.next)])
    case WaitEnds(id) => p.(table := Settle(p.table, id, Abandoned))
    case CleanUp(id) => p.(table := Drop(p.table, id))
    case Deliver(msg, emitRaises) => Receive(p, msg, emitRaises)
    case ReaderEof => ReadEof(p)
    case ReaderFails => ReaderThrows(p)
    case ReaderCancelled => Collapse(p, TaskCancelled, false, Exited(WasCancelled, false), p.writer)
    case WriterTakes => WriterTurn(p)
    case WriterFails => WriterThrows(p)
    case WriterCancelled => Collapse(p, TaskCancelled, false, p.reader, Exited(WasCancelled, false))
    case ReaderNoticed => NoticeReader(p)
    case WriterNoticed => NoticeWriter(p)
    case ConfirmShutdown => p.(graceful := true, confirmed := true)
    case CloseAsked => if p.closing == NotAsked && !p.closed then p.(closing := Scheduled) else p
    case CloseBegins =>
      p.(closing := ReaderPhase, closed := true, closeRuns := p.closeRuns + 1, outgoing := p.outgoing + [CloseMark])
    case CloseFailsPending => p.(table := FailAll(p.table, Closed), closing := WriterPhase)
    case CloseEnds => p.(closing := Finished)
  }

  // ---------------------------------------------------------------- invariant

  ghost predicate TableOk(t: Table) {
    && t.next >= 1 && t.methods.Keys == t.requests && t.requests <= t.futures.Keys
    && (forall id :: id in t.futures <==> 1 <= id < t.next)
    && (forall id :: id in t.futures && t.futures[id] == Pending ==> id in t.requests)
    && (forall id :: id in t.requests ==> t.futures[id] == Pending || t.futures[id] == Abandoned)
    && (forall id :: id in t.futures && t.futures[id].Answered? ==> ByOwnId(t.futures[id].msg, id))
  }

  predicate ByOwnId(m: Message, id: nat) { !m.hasMethod && m.isResponse && Key(m.rid) == Some(id) }

  predicate FailureOk(degraded: bool, failure: Option<Reason>, requests: set<nat>) {
    (degraded <==> failure.Some?) && (failure.Some? ==> requests == {})
  }

  predicate ClosingOk(closing: Closing, closeRuns: nat, closed: bool, requests: set<nat>) {
    && closeRuns == (if closing == NotAsked || closing == Scheduled then 0 else 1)
    && (closed <==> closeRuns == 1)
    && (closing == WriterPhase || closing == Finished ==> requests == {})
  }

  function Upto(n: nat): seq<nat> { seq(n, i requires 0 <= i < n => i + 1) }

  function Calls(from: nat, to: nat): seq<Item>
    requires from <= to
  {
    seq(to - from, i requires 0 <= i < to - from => Call(from + i))
  }

  /** Calls are written in the order they were accepted; until the pipe closes none is missing. */
  predicate QueueOk(next: nat, outgoing: seq<Item>, written: seq<nat>, live: bool) {
    && |written| < next && written == Upto(|written|)
    && (live ==> outgoing == Calls(|written| + 1, next))
  }

  /** A loop that ended badly and was noticed has had its sibling stopped or asked to stop. */
  predicate SiblingOk(one: Loop, other: Loop) {
    one.Exited? && one.noticed && one.exit != Clean ==> other != Running(false)
  }

  /** Why there may be no reader on a pipe that still takes requests. */
  predicate ReaderGone(p: Pipe) {
    p.reader.Exited? && p.failure.None? && !p.closed ==>
      p.graceful || (p.confirmed && p.reader.exit == Clean) || (p.reader.exit == WasCancelled && !p.reader.noticed)
  }

  ghost predicate Inv(p: Pipe) {
    && TableOk(p.table)
    && FailureOk(p.degraded, p.failure, p.table.requests)
    && ClosingOk(p.closing, p.closeRuns, p.closed, p.table.requests)
    && QueueOk(p.table.next, p.outgoing, p.written, !p.closed && p.writer.Running?)
    && (!p.closed && !p.graceful ==> SiblingOk(p.reader, p.writer) && SiblingOk(p.writer, p.reader))
    && ReaderGone(p)
  }

  lemma AddKeeps(t: Table, name: string)
    requires TableOk(t)
    ensures TableOk(Add(t, name))
  {}

  lemma SettleKeeps(t: Table, id: nat)
    requires TableOk(t)
    ensures TableOk(Settle(t, id, Abandoned))
  {}

  lemma DropKeeps(t: Table, id: nat)
    requires TableOk(t) && (id in t.futures ==> t.futures[id] != Pending)
    ensures TableOk(Drop(t, id)) && Drop(t, id).requests <= t.requests
  {}

  lemma AnswerKeeps(t: Table, id: nat, msg: Message)
    requires TableOk(t) && ByOwnId(msg, id)
    ensures TableOk(Settle(Drop(t, id), id, Answered(msg)))
  {}

  lemma FailAllKeeps(t: Table, why: Reason)
    requires TableOk(t)
    ensures TableOk(FailAll(t, why)) && FailAll(t, why).requests == {} && FailAll(t, why).next == t.next
  {}

  lemma QueueAdds(next: nat, outgoing: seq<Item>, written: seq<nat>, live: bool)
    requires QueueOk(next, outgoing, written, live)
    ensures QueueOk(next + 1, outgoing + [Call(next)], written, live)
  {}

  lemma QueueTakes(next: nat, outgoing: seq<Item>, written: seq<nat>)
    requires QueueOk(next, outgoing, written, true) && outgoing != []
    ensures outgoing[0] == Call(|written| + 1)
    ensures QueueOk(next, outgoing[1..], written + [|written| + 1], true)
  {}

  lemma RequestKeepsInv(p: Pipe, name: string)
    requires Inv(p)
    ensures Inv(Step(p, Request(name)))
  {
    AddKeeps(p.table, name);
    QueueAdds(p.table.next, p.outgoing, p.written, !p.closed && p.writer.Running?);
    hide TableOk; hide QueueOk; hide SiblingOk;
  }

  lemma WaitKeepsInv(p: Pipe, e: Event)
    requires Inv(p) && Enabled(p, e) && (e.WaitEnds? || e.CleanUp?)
    ensures Inv(Step(p, e))
  {
    SettleKeeps(p.table, e.id);
    if e.CleanUp? { DropKeeps(p.table, e.id); }
    hide TableOk; hide QueueOk; hide SiblingOk; hide ReaderGone;
  }

  lemma CollapseKeepsInv(p: Pipe, why: Reason, breaks: bool, reader: Loop, writer: Loop)
    requires Inv(p) && (writer.Running? ==> p.writer.Running?)
    requires !p.closed && !p.graceful ==> SiblingOk(reader, writer) && SiblingOk(writer, reader)
    requires breaks || ReaderGone(p.(reader := reader))
    ensures Inv(Collapse(p, why, breaks, reader, writer))
  {
    FailAllKeeps(p.table, why);
    hide TableOk; hide SiblingOk; hide FailAll; hide Upto; hide Calls;
  }

  lemma ThrowKeepsInv(p: Pipe)
    requires Inv(p) && p.reader.Running?
    ensures Inv(ReaderThrows(p))
  {
    hide Inv; hide Collapse;
    CollapseKeepsInv(p, ReaderFailed, !p.closed && !p.graceful, Exited(Threw(ReaderFailed), false), p.writer);
  }

  lemma DeliverKeepsInv(p: Pipe, msg: Message, emitRaises: bool)
    requires Inv(p) && p.reader.Running?
    ensures Inv(Receive(p, msg, emitRaises))
  {
    ThrowKeepsInv(p);
    hide ReaderThrows;
    if Matches(p.table, msg) {
      AnswerKeeps(p.table, Key(msg.rid).value, msg);
    }
    hide TableOk; hide QueueOk; hide Key; hide SiblingOk;
  }

  lemma ReaderKeepsInv(p: Pipe, e: Event)
    requires Inv(p) && Enabled(p, e) && (e.ReaderEof? || e.ReaderFails? || e.ReaderCancelled?)
    ensures Inv(Step(p, e))
  {
    hide Inv; hide Collapse;
    match e {
      case ReaderEof =>
        if p.closed || p.graceful || p.confirmed {
          CollapseKeepsInv(p, ShutDown, false, Exited(Clean, false), p.writer);
        } else {
          CollapseKeepsInv(p, Eof, true, Exited(Threw(Eof), false), p.writer);
        }
      case ReaderFails => ThrowKeepsInv(p);
      case ReaderCancelled => CollapseKeepsInv(p, TaskCancelled, false, Exited(WasCancelled, false), p.writer);
    }
  }

  lemma WriterKeepsInv(p: Pipe, e: Event)
    requires Inv(p) && Enabled(p, e) && (e.WriterFails? || e.WriterCancelled?)
    ensures Inv(Step(p, e))
  {
    if e.WriterFails? {
      CollapseKeepsInv(p, WriterFailed, !p.closed, p.reader, Exited(Threw(WriterFailed), false));
    } else {
      CollapseKeepsInv(p, TaskCancelled, false, p.reader, Exited(WasCancelled, false));
    }
    hide Inv; hide Collapse;
  }

  lemma WriteKeepsInv(p: Pipe)
    requires Inv(p) && Enabled(p, WriterTakes)
    ensures Inv(WriterTurn(p))
  {
    if !p.closed {
      QueueTakes(p.table.next, p.outgoing, p.written);
    }
    hide TableOk; hide Upto; hide Calls; hide ReaderGone;
  }

  lemma NoticeKeepsInv(p: Pipe, e: Event)
    requires Inv(p) && Enabled(p, e) && (e.ReaderNoticed? || e.WriterNoticed?)
    ensures Inv(Step(p, e))
  {
    var exit := if e.ReaderNoticed? then p.reader.exit else p.writer.exit;
    var seen := Exited(exit, true);
    if Alarms(p, exit) {
      if e.ReaderNoticed? {
        CollapseKeepsInv(p, ExitReason(exit), true, seen, Asked(p.writer));
      } else {
        CollapseKeepsInv(p, ExitReason(exit), true, Asked(p.reader), seen);
      }
    } else if exit.Threw? {
      if e.ReaderNoticed? {
        CollapseKeepsInv(p, exit.why, false, seen, p.writer);
      } else {
        CollapseKeepsInv(p, exit.why, false, p.reader, seen);
      }
    }
    hide TableOk; hide QueueOk; hide Collapse; hide ExitReason;
  }

  lemma CloseKeepsInv(p: Pipe, e: Event)
    requires Inv(p) && Enabled(p, e)
    requires e.ConfirmShutdown? || e.CloseAsked? || e.CloseBegins? || e.CloseFailsPending? || e.CloseEnds?
    ensures Inv(Step(p, e))
  {
    FailAllKeeps(p.table, Closed);
    hide TableOk; hide Upto; hide Calls; hide SiblingOk;
  }

  /** Every step of every interleaving keeps the invariant. */
  lemma StepKeepsInv(p: Pipe, e: Event)
    requires Inv(p) && Enabled(p, e)
    ensures Inv(Step(p, e))
  {
    hide Inv;
    match e
    case Request(name) => RequestKeepsInv(p, name);
    case WaitEnds(_) => WaitKeepsInv(p, e);
    case CleanUp(_) => WaitKeepsInv(p, e);
    case Deliver(msg, emitRaises) => DeliverKeepsInv(p, msg, emitRaises);
    case ReaderEof => ReaderKeepsInv(p, e);
    case ReaderFails => ReaderKeepsInv(p, e);
    case ReaderCancelled => ReaderKeepsInv(p, e);
    case WriterTakes => WriteKeepsInv(p);
    case WriterFails => WriterKeepsInv(p, e);
    case WriterCancelled => WriterKeepsInv(p, e);
    case ReaderNoticed => NoticeKeepsInv(p, e);
    case WriterNoticed => NoticeKeepsInv(p, e);
    case ConfirmShutdown => CloseKeepsInv(p, e);
    case CloseAsked => CloseKeepsInv(p, e);
    case CloseBegins => CloseKeepsInv(p, e);
    case CloseFailsPending => CloseKeepsInv(p, e);
    case CloseEnds => CloseKeepsInv(p, e);
  }

  /** The state after a run, if every event of it could happen. */
  function Run(p: Pipe, events: seq<Event>): Option<Pipe>
    decreases |events|
  {
    if events == [] then Some(p)
    else if Enabled(p, events[0]) then Run(Step(p, events[0]), events[1..])
    else None
  }

  lemma {:induction false} RunKeepsInv(p: Pipe, events: seq<Event>)
    requires Inv(p) && Run(p, events).Some?
    ensures Inv(Run(p, events).value)
    decreases |events|
  {
    hide Inv; hide Step;
    if events != [] {
      StepKeepsInv(p, events[0]);
      RunKeepsInv(Step(p, events[0]), events[1..]);
    }
  }

  ghost predicate Reachable(p: Pipe) {
    exists events: seq<Event> :: Run(FRESH, events) == Some(p)
  }

  lemma ReachableInv(p: Pipe)
    requires Reachable(p)
    ensures Inv(p)
  {
    var events: seq<Event> :| Run(FRESH, events) == Some(p);
    FreshInv();
    RunKeepsInv(FRESH, events);
  }

  lemma FreshInv()
    ensures Inv(FRESH)
  {}

  // ---------------------------------------------------------------- correlation

  /** Everything a step can do to the request table. */
  predicate Moves(p: Pipe, e: Event, after: Table, why: Reason) {
    || after == p.table
    || after == FailAll(p.table, why)
    || (e.Request? && !Rejects(p, e.name) && after == Add(p.table, e.name))
    || (e.WaitEnds? && after == Settle(p.table, e.id, Abandoned))
    || (e.CleanUp? && after == Drop(p.table, e.id))
    || (e.Deliver? && Matches(p.table, e.msg) && after == Answer(p.table, e.msg))
  }

  function Answer(t: Table, msg: Message): Table
    requires Matches(t, msg)
  {
    Settle(Drop(t, Key(msg.rid).value), Key(msg.rid).value, Answered(msg))
  }

  lemma HowTableMoves(p: Pipe, e: Event) returns (why: Reason)
    requires Enabled(p, e)
    ensures Moves(p, e, Step(p, e).table, why)
    ensures e.Deliver? && Matches(p.table, e.msg) ==> Step(p, e).table == Answer(p.table, e.msg)
  {
    hide FailAll; hide Add; hide Settle; hide Drop; hide Rejects;
    match e
    case Request(_) => why := Eof;
    case WaitEnds(_) => why := Eof;
    case CleanUp(_) => why := Eof;
    case Deliver(_, _) => why := ReaderFailed;
    case ReaderEof => why := if p.closed || p.graceful || p.confirmed then ShutDown else Eof;
    case ReaderFails => why := ReaderFailed;
    case ReaderCancelled => why := TaskCancelled;
    case WriterTakes => why := Eof;
    case WriterFails => why := WriterFailed;
    case WriterCancelled => why := TaskCancelled;
    case ReaderNoticed => why := ExitReason(p.reader.exit);
    case WriterNoticed => why := ExitReason(p.writer.exit);
    case ConfirmShutdown => why := Eof;
    case CloseAsked => why := Eof;
    case CloseBegins => why := Eof;
    case CloseFailsPending => why := Closed;
    case CloseEnds => why := Eof;
  }

  /** A settled future keeps its outcome whatever happens next. */
  lemma FateIsFinal(p: Pipe, e: Event, id: nat)
    requires Inv(p) && Enabled(p, e) && id in p.table.futures && p.table.futures[id] != Pending
    ensures id in Step(p, e).table.futures && Step(p, e).table.futures[id] == p.table.futures[id]
  {
    assert id != p.table.next;
    var why := HowTableMoves(p, e);
    hide Inv; hide Step; hide Rejects; hide Matches;
  }

  /** Over a whole run: settled at most once. */
  lemma {:induction false} SettledOnce(p: Pipe, events: seq<Event>, id: nat)
    requires Inv(p) && Run(p, events).Some? && id in p.table.futures && p.table.futures[id] != Pending
    ensures var q := Run(p, events).value.table.futures; id in q && q[id] == p.table.futures[id]
    decreases |events|
  {
    if events != [] {
      StepKeepsInv(p, events[0]);
      FateIsFinal(p, events[0], id);
      SettledOnce(Step(p, events[0]), events[1..], id);
    }
  }

  /** A future waiting for its answer gets one exactly from a response with its id and no method. */
  lemma AnsweredByOwnResponse(p: Pipe, e: Event, id: nat)
    requires Inv(p) && Enabled(p, e) && id in p.table.futures && p.table.futures[id] == Pending
    ensures id in Step(p, e).table.futures
    ensures Step(p, e).table.futures[id].Answered? <==> e.Deliver? && ByOwnId(e.msg, id)
    ensures Step(p, e).table.futures[id].Answered? ==> Step(p, e).table.futures[id].msg == e.msg
  {
    assert id != p.table.next && id in p.table.requests;
    assert e.Deliver? && ByOwnId(e.msg, id) ==> Matches(p.table, e.msg);
    var why := HowTableMoves(p, e);
    hide Inv; hide Step; hide Rejects; hide Key;
  }

  /** A message touches no future but the pending one it answers: no late one, no worker call, no unknown id. */
  lemma DeliveryTouchesNothingElse(p: Pipe, msg: Message, id: nat)
    requires Inv(p) && p.reader.Running? && id in p.table.futures
    requires msg.hasMethod || msg.isResponse ==> msg.rid != Compound
    ensures var after := Step(p, Deliver(msg, false)).table.futures;
            id in after && (after[id] != p.table.futures[id] <==> p.table.futures[id] == Pending && ByOwnId(msg, id))
  {
    hide Key;
  }

  /** Which ids match request n: as dictionary keys, n itself, the float n, and for one and zero the booleans. */
  lemma IdsThatMatch(rid: Rid, n: int)
    ensures Key(rid) == Some(n) <==>
      || rid == Integer(n) || rid == Real(n as real)
      || (rid == Boolean(true) && n == 1) || (rid == Boolean(false) && n == 0)
  {
    if rid.Real? {
      assert (n as real).Floor == n;
    }
  }

  lemma {:induction false} RunAppend(p: Pipe, events: seq<Event>, e: Event)
    requires Run(p, events).Some? && Enabled(Run(p, events).value, e)
    ensures Run(p, events + [e]) == Some(Step(Run(p, events).value, e))
    decreases |events|
  {
    hide Step;
    if events == [] {
      assert [e][1..] == [] && [] + [e] == [e];
    } else {
      assert (events + [e])[1..] == events[1..] + [e];
      RunAppend(Step(p, events[0]), events[1..], e);
    }
  }

  lemma Start()
    ensures Reachable(FRESH)
  {
    assert Run(FRESH, []) == Some(FRESH);
  }

  lemma Continue(p: Pipe, e: Event)
    requires Reachable(p) && Enabled(p, e)
    ensures Reachable(Step(p, e))
  {
    var events: seq<Event> :| Run(FRESH, events) == Some(p);
    RunAppend(FRESH, events, e);
    hide Step; hide Enabled; hide Run;
  }

  /** The boolean id true answers the pipe's first request. */
  lemma TrueAnswersFirstRequest(name: string) returns (p: Pipe)
    ensures Reachable(p) && p.table.futures == map[1 := Answered(Message(Boolean(true), false, true))]
  {
    Start();
    hide Reachable; hide Run;
    p := FRESH;
    Continue(p, Request(name)); p := Step(p, Request(name));
    var msg := Message(Boolean(true), false, true);
    Continue(p, Deliver(msg, false)); p := Step(p, Deliver(msg, false));
  }

  // ---------------------------------------------------------------- failure and close

  /** A pipe whose failure is recorded, or whose teardown has failed the pending requests. */
  predicate Dead(p: Pipe) { p.failure.Some? || p.closing == WriterPhase || p.closing == Finished }

  lemma NothingPending(p: Pipe)
    requires Inv(p) && Dead(p)
    ensures p.table.requests == {} && p.table.methods == map[]
    ensures forall id :: id in p.table.futures ==> p.table.futures[id] != Pending
    ensures forall name :: Rejects(p, name)
  {
    assert p.table.methods.Keys == {};
  }

  lemma FailNothing(t: Table, why: Reason)
    requires t.requests == {} && t.methods == map[]
    ensures FailAll(t, why) == t
  {
    assert FailAll(t, why).futures == t.futures;
  }

  lemma DeadStepDoesNothing(p: Pipe, e: Event)
    requires Inv(p) && Enabled(p, e) && Dead(p)
    ensures Dead(Step(p, e)) && Step(p, e).table == p.table
    ensures p.failure.Some? ==> Step(p, e).failure == p.failure
  {
    NothingPending(p);
    var why := HowTableMoves(p, e);
    FailNothing(p.table, why);
    assert e.CleanUp? ==> p.table.requests - {e.id} == {} && p.table.methods - {e.id} == map[];
    StepsForward(p, e);
    hide Inv; hide FailAll; hide Step; hide Rejects; hide Key; hide Add;
  }

  /** What no step takes back: the failure, the close, the reader's exit; and a closed pipe writes nothing. */
  predicate Forward(p: Pipe, q: Pipe) {
    && (p.failure.Some? ==> q.failure == p.failure)
    && (p.closed ==> q.closed && q.written == p.written)
    && (p.reader.Exited? ==> q.reader.Exited?)
    && (p.closing == WriterPhase || p.closing == Finished ==> q.closing == WriterPhase || q.closing == Finished)
  }

  lemma CollapseForward(p: Pipe, why: Reason, breaks: bool, reader: Loop, writer: Loop)
    requires p.reader.Exited? ==> reader.Exited?
    ensures Forward(p, Collapse(p, why, breaks, reader, writer))
  {
    hide FailAll;
  }

  lemma NoticeForward(p: Pipe)
    ensures p.reader.Exited? ==> Forward(p, NoticeReader(p))
    ensures p.writer.Exited? ==> Forward(p, NoticeWriter(p))
  {
    hide FailAll;
  }

  lemma ReaderForward(p: Pipe, msg: Message, emitRaises: bool)
    requires p.reader.Running?
    ensures Forward(p, ReadEof(p)) && Forward(p, ReaderThrows(p)) && Forward(p, Receive(p, msg, emitRaises))
  {
    hide FailAll; hide Matches; hide Settle; hide Drop;
  }

  lemma PlainForward(p: Pipe, e: Event)
    requires Enabled(p, e)
    requires e.Request? || e.WaitEnds? || e.CleanUp? || e.ConfirmShutdown?
      || e.CloseAsked? || e.CloseBegins? || e.CloseFailsPending? || e.CloseEnds?
    ensures Forward(p, Step(p, e))
  {
    hide FailAll; hide Add; hide Settle; hide Drop; hide Rejects;
  }

  lemma WriterForward(p: Pipe)
    requires p.writer.Running? && p.outgoing != []
    ensures Forward(p, WriterTurn(p))
  {}

  lemma StepsForward(p: Pipe, e: Event)
    requires Enabled(p, e)
    ensures Forward(p, Step(p, e))
  {
    hide Forward; hide NoticeReader; hide NoticeWriter; hide ReadEof; hide ReaderThrows; hide Receive; hide Collapse;
    hide WriterTurn;
    match e
    case Deliver(msg, emitRaises) => ReaderForward(p, msg, emitRaises);
    case ReaderEof => ReaderForward(p, Message(Absent, false, false), false);
    case ReaderFails => ReaderForward(p, Message(Absent, false, false), false);
    case ReaderCancelled => CollapseForward(p, TaskCancelled, false, Exited(WasCancelled, false), p.writer);
    case WriterTakes => WriterForward(p);
    case WriterFails => CollapseForward(p, WriterFailed, !p.closed, p.reader, Exited(Threw(WriterFailed), false));
    case WriterCancelled => CollapseForward(p, TaskCancelled, false, p.reader, Exited(WasCancelled, false));
    case ReaderNoticed => NoticeForward(p);
    case WriterNoticed => NoticeForward(p);
    case Request(_) => PlainForward(p, e);
    case WaitEnds(_) => PlainForward(p, e);
    case CleanUp(_) => PlainForward(p, e);
    case ConfirmShutdown => PlainForward(p, e);
    case CloseAsked => PlainForward(p, e);
    case CloseBegins => PlainForward(p, e);
    case CloseFailsPending => PlainForward(p, e);
    case CloseEnds => PlainForward(p, e);
  }

  /**
   After the first failure, and after a completed teardown, nothing is pending, every
   request is rejected and no future changes, in every continuation; the failure stays.
   */
  lemma {:induction false} DeadForever(p: Pipe, events: seq<Event>)
    requires Inv(p) && Dead(p) && Run(p, events).Some?
    ensures var q := Run(p, events).value;
            && Dead(q) && q.table == p.table && q.table.requests == {}
            && (forall id :: id in q.table.futures ==> q.table.futures[id] != Pending)
            && (forall name :: Rejects(q, name))
            && (p.failure.Some? ==> q.failure == p.failure)
    decreases |events|
  {
    NothingPending(p);
    if events != [] {
      StepKeepsInv(p, events[0]);
      DeadStepDoesNothing(p, events[0]);
      DeadForever(Step(p, events[0]), events[1..]);
    }
  }

  /** In every run: degraded says a failure is recorded, and the teardown has run at most once. */
  lemma DegradedMeansFailed(p: Pipe)
    requires Reachable(p)
    ensures p.degraded <==> p.failure.Some?
    ensures p.closeRuns <= 1 && (p.closing == Finished ==> p.closeRuns == 1)
  {
    ReachableInv(p);
  }

  /** What the worker was sent is the accepted calls, in order. */
  lemma WritesInOrder(p: Pipe)
    requires Reachable(p)
    ensures |p.written| < p.table.next && forall i :: 0 <= i < |p.written| ==> p.written[i] == i + 1
  {
    ReachableInv(p);
  }

  /**
   With nobody left to read its answer a request is accepted exactly on an open pipe
   without a failure, and then in graceful shutdown for the shutdown call, after a
   confirmed end of file, or before the callback of a cancelled reader has run.
   */
  lemma AcceptedWithoutReader(p: Pipe, name: string)
    requires Reachable(p) && p.reader.Exited?
    ensures !Rejects(p, name) <==>
      && !p.closed && p.failure.None?
      && (|| (p.graceful && name == "shutdown")
          || (!p.graceful && p.confirmed && p.reader.exit == Clean)
          || (!p.graceful && p.reader.exit == WasCancelled && !p.reader.noticed))
  {
    ReachableInv(p);
  }

  /** Such a request is never answered. */
  lemma {:induction false} NoReaderNoAnswer(p: Pipe, events: seq<Event>, id: nat)
    requires Inv(p) && p.reader.Exited? && Run(p, events).Some?
    requires id in p.table.futures && !p.table.futures[id].Answered?
    ensures var q := Run(p, events).value; q.reader.Exited? && id in q.table.futures && !q.table.futures[id].Answered?
    decreases |events|
  {
    if events != [] {
      StepKeepsInv(p, events[0]);
      if p.table.futures[id] == Pending {
        AnsweredByOwnResponse(p, events[0], id);
      } else {
        FateIsFinal(p, events[0], id);
      }
      StepsForward(p, events[0]);
      hide Step;
      NoReaderNoAnswer(Step(p, events[0]), events[1..], id);
    }
  }

  /** The worker acknowledges shutdown and exits; a request made before the host confirms is accepted and stranded. */
  lemma StrandedRequest(name: string) returns (p: Pipe)
    ensures Reachable(p) && p.failure.None? && !p.closed && p.reader == Exited(Clean, true)
    ensures 2 in p.table.futures && p.table.futures[2] == Pending
  {
    Start();
    hide Reachable; hide Run;
    p := FRESH;
    Continue(p, Request("shutdown")); p := Step(p, Request("shutdown"));
    var msg := Message(Integer(1), false, true);
    Continue(p, Deliver(msg, false)); p := Step(p, Deliver(msg, false));
    Continue(p, ReaderEof); p := Step(p, ReaderEof);
    Continue(p, ReaderNoticed); p := Step(p, ReaderNoticed);
    Continue(p, Request(name)); p := Step(p, Request(name));
  }
}
