/**
 The worker's prompt output (appserver/agent_worker.py): stream tokens go
 through the coalescer, plain notifications through the emit barrier, and both
 end in one FIFO write queue.  The reference is the direct path, which queues
 one message per token.
 */
module WorkerOutput {
  import opened Wrappers
  import opened Segments
  import opened Coalescing
  import opened StreamCoalescers

  /** A queued notification: a stream notification, marked when a delegated agent speaks, or any other one. */
  datatype Message = Stream(kind: string, text: string, intermediate: bool) | Plain(payload: string)

  /** What the sink makes of a segment: it never sets the mark. */
  function SinkMessage(x: Segment): Message { Stream(x.kind, x.text, false) }

  function ToMessages(segs: seq<Segment>): seq<Message> {
    seq(|segs|, i requires 0 <= i < |segs| => SinkMessage(segs[i]))
  }

  // ---------------------------------------------------------------- merged form

  predicate Joins(a: Message, b: Message) {
    && a.Stream? && b.Stream? && a.kind == b.kind && b.kind != PROGRESS
    && a.intermediate == b.intermediate
  }

  function Append(merged: seq<Message>, m: Message): seq<Message> {
    var n := |merged|;
    if n > 0 && Joins(merged[n - 1], m)
    then merged[..n - 1] + [m.(text := merged[n - 1].text + m.text)]
    else merged + [m]
  }

  /** A message sequence with adjacent stream messages of one kind merged. */
  function Canon(ms: seq<Message>): seq<Message> {
    if ms == [] then [] else Append(Canon(ms[..|ms| - 1]), ms[|ms| - 1])
  }

  /** Equal merged forms stay equal when the same messages follow. */
  lemma {:induction false} CanonCongruence(a: seq<Message>, b: seq<Message>, c: seq<Message>)
    requires Canon(a) == Canon(b)
    ensures Canon(a + c) == Canon(b + c)
  {
    if c == [] {
      assert a + c == a && b + c == b;
    } else {
      var n := |c| - 1;
      CanonCongruence(a, b, c[..n]);
      assert (a + c)[..|a + c| - 1] == a + c[..n];
      assert (b + c)[..|b + c| - 1] == b + c[..n];
    }
  }

  predicate Spread(ms: seq<Message>) {
    forall i :: 0 < i < |ms| ==> !Joins(ms[i - 1], ms[i])
  }

  lemma {:induction false} CanonIsSpread(ms: seq<Message>)
    ensures Spread(Canon(ms))
  {
    if ms != [] {
      CanonIsSpread(ms[..|ms| - 1]);
    }
  }

  lemma {:induction false} CanonOfSpread(ms: seq<Message>)
    requires Spread(ms)
    ensures Canon(ms) == ms
  {
    if ms != [] {
      CanonOfSpread(ms[..|ms| - 1]);
    }
  }

  /** The merge of the coalescer is the merged form of its messages. */
  lemma {:induction false} MergeIsCanon(segs: seq<Segment>)
    ensures ToMessages(Merge(segs)) == Canon(ToMessages(segs))
  {
    if segs == [] {
    } else {
      hide Absorb; hide Append;
      var n := |segs| - 1;
      MergeIsCanon(segs[..n]);
      assert ToMessages(segs)[..n] == ToMessages(segs[..n]);
      AbsorbIsAppend(Merge(segs[..n]), segs[n]);
    }
  }

  lemma AbsorbIsAppend(m: seq<Segment>, x: Segment)
    ensures ToMessages(Absorb(m, x)) == Append(ToMessages(m), SinkMessage(x))
  {
    assert ToMessages(Absorb(m, x)) == Append(ToMessages(m), SinkMessage(x));
  }

  lemma CanonLast(ms: seq<Message>, m: Message)
    ensures Canon(ms + [m]) == Append(Canon(ms), m)
  {
    assert (ms + [m])[..|ms|] == ms;
  }

  /** Joining two messages into the last one of a merged form, one after the other or at once. */
  lemma AppendTwice(d: seq<Message>, x: Message, m: Message)
    requires Joins(x, m)
    ensures Append(Append(d, x), m) == Append(d, m.(text := x.text + m.text))
  {
    var n := |d|;
    if n > 0 && Joins(d[n - 1], x) {
      assert d[n - 1].text + (x.text + m.text) == (d[n - 1].text + x.text) + m.text;
    }
  }

  /** Joining into the last message, then putting the batch behind a, is joining behind a. */
  lemma AbsorbBehind(a: seq<Message>, c: seq<Message>, m: Message)
    ensures Canon(a + Append(c, m)) == Append(Canon(a + c), m)
  {
    hide Canon;
    var k := |c| - 1;
    if c != [] && Joins(c[k], m) {
      var pre, l := a + c[..k], m.(text := c[k].text + m.text);
      assert a + c == pre + [c[k]] && a + Append(c, m) == pre + [l];
      CanonLast(pre, c[k]);
      CanonLast(pre, l);
      AppendTwice(Canon(pre), c[k], m);
    } else {
      assert a + Append(c, m) == (a + c) + [m];
      CanonLast(a + c, m);
    }
  }

  /** Queueing a merged batch instead of its pieces does not change the merged form. */
  lemma {:induction false} CanonOfBatch(a: seq<Message>, b: seq<Message>)
    ensures Canon(a + Canon(b)) == Canon(a + b)
    decreases |b|
  {
    assert Canon([]) == [];
    hide Canon; hide Append;
    if b != [] {
      var b', m := b[..|b| - 1], b[|b| - 1];
      assert b == b' + [m] && a + b == (a + b') + [m];
      CanonOfBatch(a, b');
      AbsorbBehind(a, Canon(b'), m);
      CanonLast(a + b', m);
      CanonLast(b', m);
    }
  }

  // ---------------------------------------------------------------- the prompt's output

  /**
   One prompt's output.  queue is the FIFO of the writer; direct is what the
   direct path would have queued; overtaken records that some plain message was
   queued while stream text was still buffered.
   */
  datatype Output = Output(c: State, queue: seq<Message>, direct: seq<Message>, overtaken: bool)

  datatype Command =
    | Token(kind: string, text: string, depth: nat)    // a stream callback of the TUI, at some delegation depth
    | Emit(payload: string)                // a plain notification, behind the barrier
    | TakeLock                             // a ticker, threshold or wind-down flush gets the flush lock
    | FlushBody(final: bool)               // and, in a later stretch, flushes
    | WriteDirectly(payload: string)       // heartbeat, steer echo, terminal response: no barrier

  /** The sink is the queue: whatever the coalescer newly handed over is queued. */
  function Sunk(queue: seq<Message>, before: State, after: State): seq<Message>
    requires |before.handed| <= |after.handed|
  {
    queue + ToMessages(after.handed[|before.handed|..])
  }

  /** The worker's sink never fails and never suspends, so no flush is suspended in it. */
  predicate Healthy(c: State) {
    Inv(c) && c.job.None? && !c.terminated && !c.sinkIsAsync && c.undecided == []
  }

  predicate OutputOk(w: Output) {
    Healthy(w.c) && StreamsOf(w.queue) == ToMessages(w.c.handed)
  }

  /** The command empties the buffer: a flush that owns the lock, or a barrier that finds it free. */
  predicate Drains(c: State, cmd: Command) {
    (cmd.Emit? && !c.lockTaken) || (cmd.FlushBody? && c.lockTaken)
  }

  /** The command queues a plain message without the barrier; the barrier is skipped while the lock is taken. */
  predicate Bypasses(c: State, cmd: Command) {
    cmd.WriteDirectly? || (cmd.Emit? && c.lockTaken)
  }

  /** A flush or barrier into the healthy sink. */
  function Flushed(c: State, cmd: Command): State
    requires Healthy(c) && Drains(c, cmd)
  {
    if cmd.Emit? then SubmitSync(c, |c.order|)
    else BeginFlush(c.(lockTaken := false), cmd.final, |c.order|, Raises)
  }

  lemma FlushedIsDrained(c: State, cmd: Command)
    requires Healthy(c) && Drains(c, cmd)
    ensures var t := Flushed(c, cmd);
      && Healthy(t) && t.order == [] && t.handed == c.handed + Merge(c.order) && t.history == c.history && !t.lockTaken
  {
    hide Tiles; hide Unsures; hide Bytes; hide Drive; hide Submit;
    var final, c0 := cmd.FlushBody? && cmd.final, c.(lockTaken := false);
    FlushDrains(c0, final, |c.order|, Raises);
    FlushKeepsInv(c0, final, |c.order|, Raises);
    DriveKeepsControls(c0.(order := [], pendingBytes := 0),
                       Job(Merge(SortByNum(c.order)), 0, c.epoch, final), |c.order|, Raises);
    if cmd.Emit? && c.order != [] {
      SubmitIsDrive(c.(order := [], pendingBytes := 0), Merge(SortByNum(c.order)), 0, |c.order|);
    }
  }

  lemma FlushedIsStep(c: State, cmd: Command)
    requires Healthy(c) && Drains(c, cmd)
    ensures cmd.Emit? ==> Flushed(c, cmd) == Step(c, Submits(|c.order|))
    ensures cmd.FlushBody? ==> Flushed(c, cmd) == Step(c, FlushStarts(cmd.final, |c.order|, Raises))
  {
    hide Drive; hide Submit; hide Tiles; hide Merge;
  }

  function Bypass(w: Output, payload: string): Output {
    w.(queue := w.queue + [Plain(payload)], direct := w.direct + [Plain(payload)],
       overtaken := w.overtaken || w.c.order != [])
  }

  /** A lock that is taken is waited for, and a flush without the lock does nothing. */
  function Perform(w: Output, cmd: Command): Output
    requires OutputOk(w)
  {
    match cmd
    case Token(kind, text, depth) =>
      w.(c := Push(w.c, kind, text), direct := w.direct + [Stream(kind, text, depth > 0)])
    case Emit(payload) =>
      if w.c.lockTaken then Bypass(w, payload)
      else
        FlushedIsDrained(w.c, cmd);
        var t := Flushed(w.c, cmd);
        w.(c := t, queue := Sunk(w.queue, w.c, t) + [Plain(payload)], direct := w.direct + [Plain(payload)])
    case TakeLock => w.(c := w.c.(lockTaken := true))
    case FlushBody(final) =>
      if !w.c.lockTaken then w
      else
        FlushedIsDrained(w.c, cmd);
        var t := Flushed(w.c, cmd);
        w.(c := t, queue := Sunk(w.queue, w.c, t))
    case WriteDirectly(payload) => Bypass(w, payload)
  }

  function StreamsOf(ms: seq<Message>): seq<Message> {
    if ms == [] then [] else
      StreamsOf(ms[..|ms| - 1]) + if ms[|ms| - 1].Stream? then [ms[|ms| - 1]] else []
  }

  lemma {:induction false} StreamsOfAppend(a: seq<Message>, b: seq<Message>)
    ensures StreamsOf(a + b) == StreamsOf(a) + StreamsOf(b)
  {
    if b == [] {
      assert a + b == a;
    } else {
      assert (a + b)[..|a + b| - 1] == a + b[..|b| - 1];
      StreamsOfAppend(a, b[..|b| - 1]);
    }
  }

  lemma {:induction false} StreamsOfSegments(segs: seq<Segment>)
    ensures StreamsOf(ToMessages(segs)) == ToMessages(segs)
  {
    if segs != [] {
      assert ToMessages(segs)[..|segs| - 1] == ToMessages(segs[..|segs| - 1]);
      StreamsOfSegments(segs[..|segs| - 1]);
    }
  }

  lemma ToMessagesAppend(a: seq<Segment>, b: seq<Segment>)
    ensures ToMessages(a + b) == ToMessages(a) + ToMessages(b)
  {}

  lemma SunkIs(queue: seq<Message>, before: State, after: State, batch: seq<Segment>)
    requires after.handed == before.handed + batch
    ensures Sunk(queue, before, after) == queue + ToMessages(batch)
  {
    assert after.handed[|before.handed|..] == batch;
  }

  lemma FlushKeepsOutputOk(w: Output, cmd: Command)
    requires OutputOk(w) && Drains(w.c, cmd)
    ensures var t := Flushed(w.c, cmd);
      && Healthy(t) && w.c.handed <= t.handed
      && StreamsOf(Sunk(w.queue, w.c, t)) == ToMessages(t.handed)
  {
    hide Inv; hide Flushed; hide Merge; hide Healthy;
    FlushedIsDrained(w.c, cmd);
    var batch := Merge(w.c.order);
    SunkIs(w.queue, w.c, Flushed(w.c, cmd), batch);
    StreamsOfSegments(batch);
    StreamsOfAppend(w.queue, ToMessages(batch));
    ToMessagesAppend(w.c.handed, batch);
  }

  lemma StepKeepsOutputOk(w: Output, cmd: Command)
    requires OutputOk(w)
    ensures OutputOk(Perform(w, cmd))
  {
    hide Tiles; hide Unsures; hide Bytes; hide Drive; hide Submit; hide Flushed;
    match cmd
    case Token(kind, text, _) => PushKeepsInv(w.c, kind, text);
    case WriteDirectly(payload) => StreamsOfAppend(w.queue, [Plain(payload)]);
    case Emit(payload) =>
      if w.c.lockTaken {
        StreamsOfAppend(w.queue, [Plain(payload)]);
      } else {
        FlushKeepsOutputOk(w, cmd);
        StreamsOfAppend(Sunk(w.queue, w.c, Flushed(w.c, cmd)), [Plain(payload)]);
      }
    case TakeLock =>
    case FlushBody(_) => if w.c.lockTaken { FlushKeepsOutputOk(w, cmd); }
  }

  const FRESH: Output := Output(Init(false), [], [], false)

  lemma FreshIsOk()
    ensures OutputOk(FRESH)
  {}

  function RunPrompt(w: Output, cmds: seq<Command>): (r: Output)
    requires OutputOk(w)
    ensures OutputOk(r)
    decreases |cmds|
  {
    if cmds == [] then w
    else
      StepKeepsOutputOk(w, cmds[0]);
      RunPrompt(Perform(w, cmds[0]), cmds[1..])
  }

  // ---------------------------------------------------------------- refinement

  /** What will have been queued once the buffered text is flushed. */
  function Eventually(w: Output): seq<Message> { w.queue + ToMessages(w.c.order) }

  predicate Refines(w: Output) {
    Canon(Eventually(w)) == Canon(w.direct)
  }

  /** No token comes from a delegated agent. */
  predicate MainOnly(cmds: seq<Command>) {
    forall i :: 0 <= i < |cmds| && cmds[i].Token? ==> cmds[i].depth == 0
  }

  lemma StepKeepsRefines(w: Output, cmd: Command)
    requires OutputOk(w) && Refines(w)
    requires Bypasses(w.c, cmd) ==> w.c.order == []
    requires MainOnly([cmd])
    ensures Refines(Perform(w, cmd))
  {
    hide Tiles; hide Unsures; hide Bytes; hide Drive; hide Submit; hide Flushed; hide Canon; hide Inv;
    var t := Perform(w, cmd);
    match cmd
    case Token(kind, text, _) =>
      assert [cmd][0].depth == 0;
      assert Eventually(t) == Eventually(w) + [Stream(kind, text, false)];
      CanonCongruence(Eventually(w), w.direct, [Stream(kind, text, false)]);
    case WriteDirectly(payload) =>
      assert Eventually(t) == Eventually(w) + [Plain(payload)];
      CanonCongruence(Eventually(w), w.direct, [Plain(payload)]);
    case Emit(payload) =>
      if w.c.lockTaken {
        assert Eventually(t) == Eventually(w) + [Plain(payload)];
        CanonCongruence(Eventually(w), w.direct, [Plain(payload)]);
      } else {
        FlushKeepsCanon(w, cmd);
        var q := Sunk(w.queue, w.c, Flushed(w.c, cmd));
        assert Eventually(t) == q + [Plain(payload)];
        CanonCongruence(q, w.direct, [Plain(payload)]);
      }
    case TakeLock =>
    case FlushBody(_) =>
      if w.c.lockTaken {
        FlushKeepsCanon(w, cmd);
        assert Eventually(t) == Sunk(w.queue, w.c, Flushed(w.c, cmd));
      }
  }

  /** Queueing the merged batch is queueing its pieces, up to merging. */
  lemma FlushKeepsCanon(w: Output, cmd: Command)
    requires OutputOk(w) && Drains(w.c, cmd)
    ensures var t := Flushed(w.c, cmd);
      t.order == [] && w.c.handed <= t.handed && Canon(Sunk(w.queue, w.c, t)) == Canon(Eventually(w))
  {
    hide Inv; hide Flushed; hide Merge; hide Healthy; hide Canon;
    FlushedIsDrained(w.c, cmd);
    SunkIs(w.queue, w.c, Flushed(w.c, cmd), Merge(w.c.order));
    MergeIsCanon(w.c.order);
    CanonOfBatch(w.queue, ToMessages(w.c.order));
  }

  /**
   Coalescing refines the direct path: after merging adjacent stream messages,
   the FIFO holds what the direct path writes, in the same order, as long as no
   plain message was queued past buffered stream text and no delegated agent spoke.
   */
  lemma {:induction false} FifoRefinesDirectPath(w: Output, cmds: seq<Command>)
    requires OutputOk(w) && Refines(w) && !RunPrompt(w, cmds).overtaken && MainOnly(cmds)
    ensures Refines(RunPrompt(w, cmds))
    decreases |cmds|
  {
    if cmds != [] {
      assert MainOnly([cmds[0]]);
      StepKeepsOutputOk(w, cmds[0]);
      var t := Perform(w, cmds[0]);
      if t.overtaken {
        OvertakenIsFinal(t, cmds[1..]);
      }
      StepKeepsRefines(w, cmds[0]);
      FifoRefinesDirectPath(t, cmds[1..]);
    }
  }

  lemma {:induction false} OvertakenIsFinal(w: Output, cmds: seq<Command>)
    requires OutputOk(w) && w.overtaken
    ensures RunPrompt(w, cmds).overtaken
    decreases |cmds|
  {
    if cmds != [] {
      StepKeepsOutputOk(w, cmds[0]);
      OvertakenIsFinal(Perform(w, cmds[0]), cmds[1..]);
    }
  }

  // ---------------------------------------------------------------- exactly when it refines

  function TextLen(ms: seq<Message>): nat {
    if ms == [] then 0 else
      TextLen(ms[..|ms| - 1]) + if ms[|ms| - 1].Stream? then |ms[|ms| - 1].text| else 0
  }

  /** For every plain message, the length of the stream text before it, summed up. */
  function MarkSum(ms: seq<Message>): nat {
    if ms == [] then 0 else
      MarkSum(ms[..|ms| - 1]) + if ms[|ms| - 1].Plain? then TextLen(ms[..|ms| - 1]) else 0
  }

  lemma MarkLast(ms: seq<Message>, m: Message)
    ensures TextLen(ms + [m]) == TextLen(ms) + if m.Stream? then |m.text| else 0
    ensures MarkSum(ms + [m]) == MarkSum(ms) + if m.Plain? then TextLen(ms) else 0
  {
    assert (ms + [m])[..|ms|] == ms;
  }

  lemma {:induction false} MarkStreams(a: seq<Message>, b: seq<Message>)
    requires forall i :: 0 <= i < |b| ==> b[i].Stream?
    ensures TextLen(a + b) == TextLen(a) + TextLen(b) && MarkSum(a + b) == MarkSum(a)
  {
    if b == [] {
      assert a + b == a;
    } else {
      hide TextLen; hide MarkSum;
      var b', m := b[..|b| - 1], b[|b| - 1];
      MarkStreams(a, b');
      assert b == b' + [m];
      assert a + b == (a + b') + [m];
      MarkLast(a + b', m);
      MarkLast(b', m);
    }
  }

  lemma {:induction false} CanonKeepsMarks(ms: seq<Message>)
    ensures TextLen(Canon(ms)) == TextLen(ms) && MarkSum(Canon(ms)) == MarkSum(ms)
  {
    if ms != [] {
      var ms', m := ms[..|ms| - 1], ms[|ms| - 1];
      CanonKeepsMarks(ms');
      MarkLast(ms', m);
      assert ms == ms' + [m];
      var c := Canon(ms');
      if c != [] && Joins(c[|c| - 1], m) {
        var k := |c| - 1;
        assert c == c[..k] + [c[k]];
        MarkLast(c[..k], c[k]);
        MarkLast(c[..k], m.(text := c[k].text + m.text));
      } else {
        MarkLast(c, m);
      }
    }
  }

  predicate NoEmptyToken(cmds: seq<Command>) {
    forall i :: 0 <= i < |cmds| && cmds[i].Token? ==> cmds[i].text != ""
  }

  /** The queue is never ahead of the direct path, and behind it once something was overtaken. */
  predicate Behind(w: Output) {
    && (forall i :: 0 <= i < |w.c.order| ==> w.c.order[i].text != "")
    && TextLen(w.queue) + TextLen(ToMessages(w.c.order)) == TextLen(w.direct)
    && MarkSum(w.queue) <= MarkSum(w.direct)
    && (w.overtaken ==> MarkSum(w.queue) < MarkSum(w.direct))
  }

  lemma BatchHasText(segs: seq<Segment>)
    requires segs != [] && segs[|segs| - 1].text != ""
    ensures TextLen(ToMessages(segs)) > 0
  {
    var n := |segs| - 1;
    assert ToMessages(segs)[..n] + [ToMessages(segs)[n]] == ToMessages(segs);
    MarkLast(ToMessages(segs)[..n], ToMessages(segs)[n]);
  }

  lemma FlushKeepsMarks(w: Output, cmd: Command)
    requires OutputOk(w) && Drains(w.c, cmd)
    ensures var t := Flushed(w.c, cmd);
      && t.order == [] && w.c.handed <= t.handed
      && TextLen(Sunk(w.queue, w.c, t)) == TextLen(w.queue) + TextLen(ToMessages(w.c.order))
      && MarkSum(Sunk(w.queue, w.c, t)) == MarkSum(w.queue)
  {
    hide Inv; hide Flushed; hide Merge; hide Healthy; hide Canon;
    FlushedIsDrained(w.c, cmd);
    var batch := ToMessages(Merge(w.c.order));
    SunkIs(w.queue, w.c, Flushed(w.c, cmd), Merge(w.c.order));
    MergeIsCanon(w.c.order);
    CanonKeepsMarks(ToMessages(w.c.order));
    MarkStreams(w.queue, batch);
  }

  lemma StepKeepsBehind(w: Output, cmd: Command)
    requires OutputOk(w) && Behind(w) && NoEmptyToken([cmd])
    ensures Behind(Perform(w, cmd))
  {
    hide Inv; hide Flushed; hide Healthy; hide TextLen; hide MarkSum;
    match cmd
    case Token(kind, text, depth) =>
      assert [cmd][0].text != "";
      var x := Segment(w.c.nextNum, kind, text);
      assert ToMessages(w.c.order + [x]) == ToMessages(w.c.order) + [SinkMessage(x)];
      MarkLast(ToMessages(w.c.order), SinkMessage(x));
      MarkLast(w.direct, Stream(kind, text, depth > 0));
    case WriteDirectly(payload) => BypassKeepsBehind(w, payload);
    case Emit(payload) =>
      if w.c.lockTaken {
        BypassKeepsBehind(w, payload);
      } else {
        FlushKeepsMarks(w, cmd);
        NothingBuffered(Perform(w, cmd));
        MarkLast(Sunk(w.queue, w.c, Flushed(w.c, cmd)), Plain(payload));
        MarkLast(w.direct, Plain(payload));
      }
    case TakeLock =>
    case FlushBody(_) =>
      if w.c.lockTaken {
        FlushKeepsMarks(w, cmd);
        NothingBuffered(Perform(w, cmd));
      }
  }

  lemma BypassKeepsBehind(w: Output, payload: string)
    requires Behind(w)
    ensures Behind(Bypass(w, payload))
  {
    if w.c.order != [] { BatchHasText(w.c.order); }
    MarkLast(w.queue, Plain(payload));
    MarkLast(w.direct, Plain(payload));
    hide TextLen; hide MarkSum;
  }

  lemma NothingBuffered(w: Output)
    requires w.c.order == []
    ensures TextLen(ToMessages(w.c.order)) == 0
  {}

  lemma {:induction false} RunKeepsBehind(w: Output, cmds: seq<Command>)
    requires OutputOk(w) && Behind(w) && NoEmptyToken(cmds)
    ensures Behind(RunPrompt(w, cmds))
    decreases |cmds|
  {
    if cmds != [] {
      assert NoEmptyToken([cmds[0]]);
      StepKeepsOutputOk(w, cmds[0]);
      StepKeepsBehind(w, cmds[0]);
      RunKeepsBehind(Perform(w, cmds[0]), cmds[1..]);
    }
  }

  // The mark of delegated text.

  predicate Unmarked(ms: seq<Message>) {
    forall i :: 0 <= i < |ms| && ms[i].Stream? ==> !ms[i].intermediate
  }

  /** Merging neither loses a mark nor adds one. */
  lemma {:induction false} CanonKeepsUnmarked(ms: seq<Message>)
    ensures Unmarked(Canon(ms)) <==> Unmarked(ms)
  {
    if ms != [] {
      var ms', m := ms[..|ms| - 1], ms[|ms| - 1];
      CanonKeepsUnmarked(ms');
      assert ms == ms' + [m];
      UnmarkedLast(ms', m);
      AppendKeepsUnmarked(Canon(ms'), m);
      hide Unmarked;
    }
  }

  lemma UnmarkedLast(ms: seq<Message>, m: Message)
    ensures Unmarked(ms + [m]) <==> Unmarked(ms) && (m.Stream? ==> !m.intermediate)
  {
    assert forall i :: 0 <= i < |ms| ==> (ms + [m])[i] == ms[i];
    assert (ms + [m])[|ms|] == m;
  }

  lemma AppendKeepsUnmarked(merged: seq<Message>, m: Message)
    ensures Unmarked(Append(merged, m)) <==> Unmarked(merged) && (m.Stream? ==> !m.intermediate)
  {
    var n := |merged|;
    if n > 0 && Joins(merged[n - 1], m) {
      UnmarkedLast(merged[..n - 1], m.(text := merged[n - 1].text + m.text));
      UnmarkedLast(merged[..n - 1], merged[n - 1]);
      assert merged == merged[..n - 1] + [merged[n - 1]];
    } else {
      UnmarkedLast(merged, m);
    }
  }

  lemma UnmarkedConcat(a: seq<Message>, b: seq<Message>)
    ensures Unmarked(a + b) <==> Unmarked(a) && Unmarked(b)
  {
    assert forall i :: 0 <= i < |a| ==> (a + b)[i] == a[i];
    assert forall i :: 0 <= i < |b| ==> (a + b)[|a| + i] == b[i];
  }

  lemma SinkSetsNoMark(segs: seq<Segment>)
    ensures Unmarked(ToMessages(segs))
  {}

  lemma DrainMarks(w: Output, cmd: Command)
    requires OutputOk(w) && Unmarked(w.queue) && Drains(w.c, cmd)
    ensures |w.c.handed| <= |Flushed(w.c, cmd).handed| && Unmarked(Sunk(w.queue, w.c, Flushed(w.c, cmd)))
  {
    hide Inv; hide Flushed; hide Merge; hide Healthy; hide Unmarked;
    FlushedIsDrained(w.c, cmd);
    SunkIs(w.queue, w.c, Flushed(w.c, cmd), Merge(w.c.order));
    SinkSetsNoMark(Merge(w.c.order));
    UnmarkedConcat(w.queue, ToMessages(Merge(w.c.order)));
  }

  lemma BypassMarks(w: Output, payload: string)
    ensures Unmarked(Bypass(w, payload).queue) <==> Unmarked(w.queue)
    ensures Unmarked(Bypass(w, payload).direct) <==> Unmarked(w.direct)
  {
    hide Unmarked;
    UnmarkedLast(w.queue, Plain(payload));
    UnmarkedLast(w.direct, Plain(payload));
  }

  lemma OnlyOne(cmd: Command)
    ensures MainOnly([cmd]) <==> (cmd.Token? ==> cmd.depth == 0)
  {
    assert [cmd][0] == cmd;
  }

  lemma OnlySplit(cmds: seq<Command>)
    requires cmds != []
    ensures MainOnly(cmds) <==> MainOnly([cmds[0]]) && MainOnly(cmds[1..])
  {
    OnlyOne(cmds[0]);
    assert forall i :: 0 < i < |cmds| ==> cmds[1..][i - 1] == cmds[i];
  }

  lemma StepMarks(w: Output, cmd: Command)
    requires OutputOk(w) && Unmarked(w.queue)
    ensures Unmarked(Perform(w, cmd).queue)
    ensures Unmarked(Perform(w, cmd).direct) <==> Unmarked(w.direct) && MainOnly([cmd])
  {
    hide Healthy; hide StreamsOf; hide Flushed; hide Unmarked; hide MainOnly; hide Sunk;
    OnlyOne(cmd);
    match cmd
    case Token(kind, text, depth) => UnmarkedLast(w.direct, Stream(kind, text, depth > 0));
    case Emit(payload) =>
      if w.c.lockTaken {
        BypassMarks(w, payload);
      } else {
        DrainMarks(w, cmd);
        UnmarkedLast(Sunk(w.queue, w.c, Flushed(w.c, cmd)), Plain(payload));
        UnmarkedLast(w.direct, Plain(payload));
      }
    case WriteDirectly(payload) => BypassMarks(w, payload);
    case TakeLock =>
    case FlushBody(_) => if w.c.lockTaken { DrainMarks(w, cmd); }
  }

  /** The queue never carries a mark; the direct path carries one exactly when a delegated agent spoke. */
  lemma {:induction false} RunMarks(w: Output, cmds: seq<Command>)
    requires OutputOk(w) && Unmarked(w.queue)
    ensures Unmarked(RunPrompt(w, cmds).queue)
    ensures Unmarked(RunPrompt(w, cmds).direct) <==> Unmarked(w.direct) && MainOnly(cmds)
    decreases |cmds|
  {
    if cmds != [] {
      StepKeepsOutputOk(w, cmds[0]);
      StepMarks(w, cmds[0]);
      OnlySplit(cmds);
      hide OutputOk; hide Unmarked; hide Perform; hide MainOnly;
      RunMarks(Perform(w, cmds[0]), cmds[1..]);
    }
  }

  lemma {:induction false} StreamsOfUnmarked(ms: seq<Message>)
    ensures Unmarked(ms) <==> Unmarked(StreamsOf(ms))
  {
    if ms != [] {
      var ms', m := ms[..|ms| - 1], ms[|ms| - 1];
      StreamsOfUnmarked(ms');
      assert ms == ms' + [m];
      UnmarkedLast(ms', m);
      UnmarkedLast(StreamsOf(ms'), m);
      assert StreamsOf(ms') + [] == StreamsOf(ms');
      hide Unmarked;
    }
  }

  lemma QueueUnmarked(w: Output)
    requires OutputOk(w)
    ensures Unmarked(w.queue)
  {
    hide Healthy; hide StreamsOf;
    StreamsOfUnmarked(w.queue);
    SinkSetsNoMark(w.c.handed);
  }

  /** Whatever else happens, the text of a delegated agent is marked on the direct path only. */
  lemma DelegatedTokenLosesMark(w: Output, cmds: seq<Command>)
    requires OutputOk(w) && !MainOnly(cmds)
    ensures Unmarked(RunPrompt(w, cmds).queue) && !Unmarked(RunPrompt(w, cmds).direct)
    ensures !Refines(RunPrompt(w, cmds))
  {
    QueueUnmarked(w);
    RunMarks(w, cmds);
    var end := RunPrompt(w, cmds);
    hide OutputOk; hide Unmarked; hide Canon; hide RunPrompt; hide MainOnly;
    SinkSetsNoMark(end.c.order);
    UnmarkedConcat(end.queue, ToMessages(end.c.order));
    CanonKeepsUnmarked(Eventually(end));
    CanonKeepsUnmarked(end.direct);
  }

  /**
   For every prompt whose tokens are non-empty, the coalesced FIFO equals the
   direct path after merging exactly when no token came from a delegated agent and
   no plain message was queued while stream text was buffered, be it a write that
   skips the barrier or a notification whose barrier was skipped because a flush
   held the lock.
   */
  lemma RefinesExactlyWhenNothingOvertaken(cmds: seq<Command>)
    requires NoEmptyToken(cmds)
    ensures Refines(RunPrompt(FRESH, cmds)) <==> !RunPrompt(FRESH, cmds).overtaken && MainOnly(cmds)
  {
    var w := RunPrompt(FRESH, cmds);
    if !MainOnly(cmds) {
      FreshIsOk();
      DelegatedTokenLosesMark(FRESH, cmds);
    } else if !w.overtaken {
      FifoRefinesDirectPath(FRESH, cmds);
    } else {
      RunKeepsBehind(FRESH, cmds);
      MarkStreams(w.queue, ToMessages(w.c.order));
      CanonKeepsMarks(Eventually(w));
      CanonKeepsMarks(w.direct);
    }
  }

  /** No direct writes, and the flush lock free at each notification, as when a flush body follows its lock at once. */
  predicate LockFreeAtEmits(cmds: seq<Command>, taken: bool)
    decreases |cmds|
  {
    cmds != [] ==>
      && !cmds[0].WriteDirectly? && (cmds[0].Emit? ==> !taken)
      && LockFreeAtEmits(cmds[1..], cmds[0].TakeLock? || (taken && !cmds[0].FlushBody?))
  }

  lemma LockAfter(w: Output, cmd: Command)
    requires OutputOk(w)
    ensures Perform(w, cmd).c.lockTaken <==> cmd.TakeLock? || (w.c.lockTaken && !cmd.FlushBody?)
    ensures Perform(w, cmd).overtaken <==> w.overtaken || (Bypasses(w.c, cmd) && w.c.order != [])
  {
    if Drains(w.c, cmd) {
      FlushedIsDrained(w.c, cmd);
    }
    hide Healthy; hide Flushed;
  }

  lemma {:induction false} LockFreeOvertakesNothing(w: Output, cmds: seq<Command>)
    requires OutputOk(w) && !w.overtaken && LockFreeAtEmits(cmds, w.c.lockTaken)
    ensures !RunPrompt(w, cmds).overtaken
    decreases |cmds|
  {
    if cmds != [] {
      LockAfter(w, cmds[0]);
      StepKeepsOutputOk(w, cmds[0]);
      hide OutputOk; hide Perform;
      LockFreeOvertakesNothing(Perform(w, cmds[0]), cmds[1..]);
    }
  }

  /** Then nothing is overtaken: with any tokens the FIFO refines the direct path unless a delegated agent spoke. */
  lemma LockFreeRefines(w: Output, cmds: seq<Command>)
    requires OutputOk(w) && Refines(w) && !w.overtaken && LockFreeAtEmits(cmds, w.c.lockTaken)
    ensures !RunPrompt(w, cmds).overtaken
    ensures Refines(RunPrompt(w, cmds)) <==> MainOnly(cmds)
  {
    LockFreeOvertakesNothing(w, cmds);
    if MainOnly(cmds) {
      FifoRefinesDirectPath(w, cmds);
    } else {
      DelegatedTokenLosesMark(w, cmds);
    }
  }

  /** A plain message past the barrier while text is buffered breaks the order for good. */
  lemma BypassBreaksOrder(before: seq<Command>, cmd: Command, after: seq<Command>)
    requires RunPrompt(FRESH, before).c.order != [] && Bypasses(RunPrompt(FRESH, before).c, cmd)
    requires NoEmptyToken(before + [cmd] + after)
    ensures !Refines(RunPrompt(FRESH, before + [cmd] + after))
  {
    FreshIsOk();
    hide RunPrompt; hide OutputOk; hide Refines;
    RunAppend(FRESH, before, cmd);
    RunConcat(FRESH, before + [cmd], after);
    LockAfter(RunPrompt(FRESH, before), cmd);
    OvertakenIsFinal(RunPrompt(FRESH, before + [cmd]), after);
    RefinesExactlyWhenNothingOvertaken(before + [cmd] + after);
  }

  lemma TokenIsBuffered(kind: string, text: string)
    ensures RunPrompt(FRESH, [Token(kind, text, 0)]).c.order != []
    ensures RunPrompt(FRESH, [Token(kind, text, 0), TakeLock]).c.order != []
    ensures RunPrompt(FRESH, [Token(kind, text, 0), TakeLock]).c.lockTaken
  {
    FreshIsOk();
    hide OutputOk; hide Inv;
    RunAppend(FRESH, [], Token(kind, text, 0));
    assert [] + [Token(kind, text, 0)] == [Token(kind, text, 0)];
    RunAppend(FRESH, [Token(kind, text, 0)], TakeLock);
    assert [Token(kind, text, 0)] + [TakeLock] == [Token(kind, text, 0), TakeLock];
  }

  /** One buffered token and one heartbeat are enough. */
  lemma HeartbeatOvertakesToken(heartbeat: string)
    ensures var token, flush := Token("token", "a", 0), [TakeLock, FlushBody(true)];
      !Refines(RunPrompt(FRESH, [token] + [WriteDirectly(heartbeat)] + flush))
  {
    TokenIsBuffered("token", "a");
    hide RunPrompt; hide Refines; hide OutputOk;
    BypassBreaksOrder([Token("token", "a", 0)], WriteDirectly(heartbeat), [TakeLock, FlushBody(true)]);
  }

  /** So are one token, a flush that has its lock, and a notification before the flush goes on. */
  lemma EmitOvertakesTokenInFlush(payload: string)
    ensures !Refines(RunPrompt(FRESH, [Token("token", "a", 0), TakeLock] + [Emit(payload)] + [FlushBody(false)]))
  {
    TokenIsBuffered("token", "a");
    hide RunPrompt; hide Refines; hide OutputOk;
    BypassBreaksOrder([Token("token", "a", 0), TakeLock], Emit(payload), [FlushBody(false)]);
  }

  lemma OneTokenFlushed(kind: string, text: string, depth: nat)
    ensures var w := RunPrompt(FRESH, [Token(kind, text, depth), TakeLock, FlushBody(false)]);
      w.direct == [Stream(kind, text, depth > 0)] && w.queue == [Stream(kind, text, false)]
  {
    FreshIsOk();
    hide Inv; hide Flushed; hide Merge; hide StreamsOf;
    var x := Segment(FRESH.c.nextNum, kind, text);
    var w1 := Perform(FRESH, Token(kind, text, depth));
    StepKeepsOutputOk(FRESH, Token(kind, text, depth));
    var w2 := Perform(w1, TakeLock);
    StepKeepsOutputOk(w1, TakeLock);
    assert w2.c.order == [x];
    FlushedIsDrained(w2.c, FlushBody(false));
    assert Merge([x]) == [x] by { MergeOne(x); }
    SunkIs([], w2.c, Flushed(w2.c, FlushBody(false)), [x]);
    hide Perform; hide OutputOk;
    RunAppend(FRESH, [], Token(kind, text, depth));
    RunAppend(FRESH, [Token(kind, text, depth)], TakeLock);
    RunAppend(FRESH, [Token(kind, text, depth), TakeLock], FlushBody(false));
    assert [] + [Token(kind, text, depth)] == [Token(kind, text, depth)];
    assert [Token(kind, text, depth)] + [TakeLock] == [Token(kind, text, depth), TakeLock];
    var all := [Token(kind, text, depth), TakeLock, FlushBody(false)];
    assert [Token(kind, text, depth), TakeLock] + [FlushBody(false)] == all;
  }

  lemma MergeOne(x: Segment)
    ensures Merge([x]) == [x]
  {
    assert [x][..0] == [];
  }

  /** One token of a delegated agent and one flush: nothing is overtaken, and the queued message lost its mark. */
  lemma DelegatedTokenIsUnmarked()
    ensures var w := RunPrompt(FRESH, [Token("token", "a", 1), TakeLock, FlushBody(false)]);
      && !w.overtaken && !Refines(w)
      && w.direct == [Stream("token", "a", true)] && w.queue == [Stream("token", "a", false)]
  {
    var cmds := [Token("token", "a", 1), TakeLock, FlushBody(false)];
    assert cmds[0].depth != 0;
    assert LockFreeAtEmits(cmds, false);
    assert Refines(FRESH) && OutputOk(FRESH) by { FreshIsOk(); }
    hide Refines; hide RunPrompt; hide LockFreeAtEmits; hide OutputOk;
    OneTokenFlushed("token", "a", 1);
    LockFreeRefines(FRESH, cmds);
  }

  // ---------------------------------------------------------------- terminal response

  function StreamText(ms: seq<Message>): string {
    if ms == [] then "" else
      StreamText(ms[..|ms| - 1]) + if ms[|ms| - 1].Stream? then ms[|ms| - 1].text else ""
  }

  lemma {:induction false} StreamTextOfStreams(ms: seq<Message>)
    ensures StreamText(ms) == StreamText(StreamsOf(ms))
  {
    if ms != [] {
      var n := |ms| - 1;
      StreamTextOfStreams(ms[..n]);
      if ms[n].Stream? {
        assert (StreamsOf(ms[..n]) + [ms[n]])[..|StreamsOf(ms[..n])|] == StreamsOf(ms[..n]);
      } else {
        assert StreamsOf(ms[..n]) + [] == StreamsOf(ms[..n]);
      }
    }
  }

  lemma {:induction false} StreamTextOfSegments(segs: seq<Segment>)
    ensures StreamText(ToMessages(segs)) == Texts(segs)
  {
    if segs != [] {
      assert ToMessages(segs)[..|segs| - 1] == ToMessages(segs[..|segs| - 1]);
      StreamTextOfSegments(segs[..|segs| - 1]);
    }
  }

  /**
   After the wind-down flush every pushed character is in the queue, in push
   order; so a terminal response queued next comes after all stream text,
   whatever else was written before and whichever flush held the lock.
   */
  lemma ResponseComesLast(cmds: seq<Command>, response: string)
    ensures var done := RunPrompt(FRESH, cmds + [TakeLock] + [FlushBody(true)]);
      && done.c.order == []
      && StreamText(done.queue) == Texts(done.c.history)
      && Perform(done, WriteDirectly(response)).queue == done.queue + [Plain(response)]
      && Perform(done, WriteDirectly(response)).overtaken == done.overtaken
  {
    FreshIsOk();
    hide RunPrompt; hide Texts; hide StreamText; hide OutputOk;
    RunAppend(FRESH, cmds, TakeLock);
    RunAppend(FRESH, cmds + [TakeLock], FlushBody(true));
    var w := RunPrompt(FRESH, cmds + [TakeLock]);
    assert w.c.lockTaken;
    WindDown(w);
  }

  /** A flush that owns the lock leaves all pushed text in the queue. */
  lemma WindDown(w: Output)
    requires OutputOk(w) && w.c.lockTaken
    ensures var done := Perform(w, FlushBody(true));
      OutputOk(done) && done.c.order == [] && StreamText(done.queue) == Texts(done.c.history)
  {
    hide Inv; hide Flushed; hide Texts; hide StreamText; hide StreamsOf;
    var done := Perform(w, FlushBody(true));
    FlushedIsDrained(w.c, FlushBody(true));
    StepKeepsOutputOk(w, FlushBody(true));
    StreamTextOfStreams(done.queue);
    StreamTextOfSegments(done.c.handed);
    AllHandedOver(done.c);
  }

  lemma AllHandedOver(c: State)
    requires Healthy(c) && c.order == []
    ensures Texts(c.handed) == Texts(c.history)
  {
    hide Texts; hide Tiles; hide Unsures; hide Bytes;
    TilesTexts(c.handed + c.backlog + c.order, c.history);
    assert c.handed + c.backlog + c.order == c.handed;
  }

  lemma {:induction false} RunConcat(w: Output, a: seq<Command>, b: seq<Command>)
    requires OutputOk(w)
    ensures RunPrompt(w, a + b) == RunPrompt(RunPrompt(w, a), b)
    decreases |a|
  {
    if a == [] {
      assert a + b == b;
    } else {
      StepKeepsOutputOk(w, a[0]);
      assert (a + b)[1..] == a[1..] + b;
      RunConcat(Perform(w, a[0]), a[1..], b);
    }
  }

  lemma RunAppend(w: Output, cmds: seq<Command>, last: Command)
    requires OutputOk(w)
    ensures RunPrompt(w, cmds + [last]) == Perform(RunPrompt(w, cmds), last)
  {
    RunConcat(w, cmds, [last]);
    StepKeepsOutputOk(RunPrompt(w, cmds), last);
    assert [last][1..] == [];
  }

  // ---------------------------------------------------------------- the worker's objects

  /** The prompt's output path: the emit callback, the stream sink and the write queue. */
  class PromptOutput {
    const coalescer: StreamCoalescer
    var queue: seq<Message>
    ghost var direct: seq<Message>
    ghost var overtaken: bool

    ghost function View(): Output
      reads this, coalescer
    {
      Output(coalescer.View(), queue, direct, overtaken)
    }

    ghost predicate Valid()
      reads this, coalescer
    {
      OutputOk(View())
    }

    constructor ()
      ensures Valid() && View() == FRESH && fresh(coalescer)
    {
      coalescer := new StreamCoalescer(false);
      queue, direct, overtaken := [], [], false;
    }

    /** The sink: queue one notification per segment. */
    method Enqueue(sent: seq<Segment>)
      modifies `queue
      ensures queue == old(queue) + ToMessages(sent)
    {
      for i := 0 to |sent|
        invariant queue == old(queue) + ToMessages(sent[..i])
      {
        queue := queue + [Stream(sent[i].kind, sent[i].text, false)];
        assert ToMessages(sent[..i + 1]) == ToMessages(sent[..i]) + [SinkMessage(sent[i])];
      }
      assert sent[..|sent|] == sent;
    }

    method StreamToken(kind: string, text: string, depth: nat) returns (flushDue: bool)
      requires Valid()
      modifies this, coalescer
      ensures Valid() && View() == Perform(old(View()), Token(kind, text, depth))
    {
      hide Inv;
      StepKeepsOutputOk(View(), Token(kind, text, depth));
      flushDue := coalescer.PushSync(kind, text);
      direct := direct + [Stream(kind, text, depth > 0)];
    }

    /** The barrier before a plain notification, with the lock free: what is buffered goes into the queue. */
    method DrainStream(ghost cmd: Command)
      requires Valid() && cmd.Emit? && !coalescer.lockTaken
      modifies `queue, coalescer
      ensures coalescer.View() == Flushed(old(coalescer.View()), cmd)
      ensures |old(coalescer.View()).handed| <= |coalescer.View().handed|
      ensures queue == Sunk(old(queue), old(coalescer.View()), coalescer.View())
    {
      FlushedIsDrained(coalescer.View(), cmd);
      FlushedIsStep(coalescer.View(), cmd);
      hide Inv; hide Merge; hide Flushed; hide Step; hide StreamsOf;
      ghost var before := coalescer.View();
      var sent := coalescer.FlushSubmitSync(|coalescer.order|);
      SunkIs(queue, before, coalescer.View(), sent);
      Enqueue(sent);
    }

    /** A plain notification: flush the buffered stream first, unless a flush holds the lock, then queue it. */
    method EmitNotification(payload: string)
      requires Valid()
      modifies this, coalescer
      ensures Valid() && View() == Perform(old(View()), Emit(payload))
    {
      StepKeepsOutputOk(View(), Emit(payload));
      hide OutputOk; hide Sunk; hide Flushed;
      if coalescer.lockTaken {
        overtaken := overtaken || coalescer.order != [];
      } else {
        DrainStream(Emit(payload));
      }
      queue := queue + [Plain(payload)];
      direct := direct + [Plain(payload)];
    }

    /** The ticker, a threshold flush, or the final flush of the wind-down gets the lock. */
    method BeginFlushStream()
      requires Valid() && !coalescer.lockTaken
      modifies coalescer
      ensures Valid() && View() == Perform(old(View()), TakeLock)
    {
      StepKeepsOutputOk(View(), TakeLock);
      hide Inv;
      coalescer.AcquireLock();
    }

    /** And flushes. */
    method FlushStream(final: bool)
      requires Valid() && coalescer.lockTaken
      modifies this, coalescer
      ensures Valid() && View() == Perform(old(View()), FlushBody(final))
    {
      hide Inv; hide Merge; hide Flushed; hide Step; hide StreamsOf; hide ToMessages;
      StepKeepsOutputOk(View(), FlushBody(final));
      FlushedIsDrained(coalescer.View(), FlushBody(final));
      FlushedIsStep(coalescer.View(), FlushBody(final));
      ghost var before := coalescer.View();
      var sent := coalescer.Flush(final, |coalescer.order|, Raises);
      SunkIs(queue, before, coalescer.View(), sent);
      Enqueue(sent);
    }

    /** _schedule_write without the barrier. */
    method ScheduleWrite(payload: string)
      requires Valid()
      modifies this
      ensures Valid() && View() == Perform(old(View()), WriteDirectly(payload))
    {
      StepKeepsOutputOk(View(), WriteDirectly(payload));
      hide Inv;
      queue := queue + [Plain(payload)];
      direct, overtaken := direct + [Plain(payload)], overtaken || coalescer.order != [];
    }
  }
}
