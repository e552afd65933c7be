/**
 StreamCoalescer (appserver/jsonrpc.py:48-500) as a state machine.

 One step is the code that runs between two awaits.  The flush coroutine is
 suspended only inside a sink call; its local variables are the Job.  A sink
 call either returns at once (synchronous sink), raises at once, or suspends,
 in which case a later step resumes it.  A flush whose epoch is stale is the
 zombie left behind by a hard teardown time-out.
 */
module Coalescing {
  import opened Wrappers
  import opened Segments
  import Utf8

  datatype Reason = SinkRaised | SinkCancelled | FlushTimedOut
  datatype Undecided = Undecided(segment: Segment, reason: Reason)

  /** What became of a segment handed to the sink. */
  datatype Fate = Delivered | InSink | Unsure(reason: Reason)

  /** How the first sink call that does not return at once behaves. */
  datatype CallResult = Suspends | Raises

  /** How a suspended sink call comes back to the flush coroutine. */
  datatype Resumption = Returned | Failed(reason: Reason)

  /** Local variables of the flush coroutine that holds the flush lock and has taken the batch. */
  datatype Job = Job(merged: seq<Segment>, written: nat, epoch: nat, final: bool)

  datatype State = State(
    sinkIsAsync: bool,
    nextNum: nat,
    order: seq<Segment>,
    pendingBytes: int,
    degraded: bool,
    terminated: bool,
    inflight: Option<Segment>,
    backlog: seq<Segment>,
    epoch: nat,
    undecided: seq<Undecided>,
    job: Option<Job>,
    lockTaken: bool,   // a flush owns the lock and has not taken the batch yet
    // history of the run: everything pushed, everything passed to the sink, in order
    history: seq<Segment>,
    handed: seq<Segment>,
    fates: seq<Fate>)

  function Init(sinkIsAsync: bool): State {
    State(sinkIsAsync, 1, [], 0, false, false, None, [], 0, [], None, false, [], [], [])
  }

  const FLUSH_BYTE_THRESHOLD := 1024

  // ---------------------------------------------------------------- steps

  function Push(s: State, kind: string, text: string): State {
    var x := Segment(s.nextNum, kind, text);
    s.(nextNum := s.nextNum + 1,
       order := s.order + [x],
       pendingBytes := s.pendingBytes + Utf8Size(text),
       history := s.history + [x])
  }

  function HandOver(s: State, x: Segment, f: Fate): State {
    s.(handed := s.handed + [x], fates := s.fates + [f])
  }

  /** The fates once the segment handed over last has fate f. */
  function WithLastFate(fates: seq<Fate>, f: Fate): seq<Fate>
    requires fates != []
  {
    fates[..|fates| - 1] + [f]
  }

  /** The sink gave up on x, the segment handed over last: record it and put the unsent rest back. */
  function GiveUp(s: State, x: Segment, reason: Reason, unsent: seq<Segment>, final: bool): State
    requires s.fates != []
  {
    s.(order := unsent + s.order,
       pendingBytes := s.pendingBytes + Bytes(unsent),
       degraded := s.degraded || final,
       inflight := None, backlog := [], job := None,
       undecided := s.undecided + [Undecided(x, reason)],
       fates := WithLastFate(s.fates, Unsure(reason)))
  }

  function Release(s: State): State {
    s.(job := None, inflight := None, backlog := [])
  }

  /** The loop of _flush_locked: `calls` more sink calls return at once, the one after is `last`. */
  function Drive(s: State, j: Job, calls: nat, last: CallResult): State
    requires j.written <= |j.merged|
    decreases |j.merged| - j.written
  {
    if j.written == |j.merged| then Release(s)
    else
      var x, unsent := j.merged[j.written], j.merged[j.written + 1..];
      if calls > 0 then Drive(HandOver(s, x, Delivered), j.(written := j.written + 1), calls - 1, last)
      else if last == Suspends then
        HandOver(s, x, InSink).(job := Some(j), inflight := Some(x), backlog := unsent)
      else
        GiveUp(HandOver(s, x, InSink), x, SinkRaised, unsent, j.final)
  }

  /** The loop overwrites its scratch fields before anyone can read them. */
  lemma {:induction false} DriveIgnoresScratch(s: State, inflight: Option<Segment>, backlog: seq<Segment>,
                                               j: Job, calls: nat, last: CallResult)
    requires j.written <= |j.merged|
    ensures Drive(s.(inflight := inflight, backlog := backlog), j, calls, last) == Drive(s, j, calls, last)
    decreases |j.merged| - j.written
  {
    if j.written < |j.merged| && calls > 0 {
      DriveIgnoresScratch(HandOver(s, j.merged[j.written], Delivered), inflight, backlog,
                          j.(written := j.written + 1), calls - 1, last);
    }
  }

  /** _flush_locked from taking the batch to its first suspension. */
  function BeginFlush(s: State, final: bool, calls: nat, last: CallResult): State {
    var s1 := s.(order := [], pendingBytes := 0);
    Drive(s1, Job(Merge(SortByNum(s.order)), 0, s.epoch, final), calls, last)
  }

  /** The sink call the flush was suspended in comes back. */
  function Resume(s: State, r: Resumption, calls: nat, last: CallResult): State
    requires s.job.Some? && s.job.value.written < |s.job.value.merged|
    requires s.fates != []
  {
    var j := s.job.value;
    if j.epoch != s.epoch then Release(s)
    else if r == Returned then
      Drive(s.(fates := WithLastFate(s.fates, Delivered)), j.(written := j.written + 1), calls, last)
    else
      GiveUp(s, j.merged[j.written], r.reason, j.merged[j.written + 1..], j.final)
  }

  /** The hard teardown time-out of _guarded_final_flush. */
  function HardTimeout(s: State): State
    requires s.inflight.Some? ==> s.fates != []
  {
    var s1 := s.(order := s.backlog + s.order,
                 pendingBytes := s.pendingBytes + Bytes(s.backlog),
                 degraded := true, terminated := true, epoch := s.epoch + 1, backlog := []);
    if s.inflight.None? then s1
    else s1.(undecided := s.undecided + [Undecided(s.inflight.value, FlushTimedOut)],
             fates := WithLastFate(s.fates, Unsure(FlushTimedOut)))
  }

  /** _flush_lock.locked() */
  predicate Locked(s: State) { s.lockTaken || s.job.Some? }

  /** flush_submit_sync: the first `calls` sink calls return, the next one (if any) raises. */
  function SubmitSync(s: State, calls: nat): State {
    if s.sinkIsAsync || s.order == [] || s.terminated || Locked(s) then s
    else Submit(s.(order := [], pendingBytes := 0), Merge(SortByNum(s.order)), 0, calls)
  }

  function Submit(s: State, merged: seq<Segment>, written: nat, calls: nat): State
    requires written <= |merged|
    decreases |merged| - written
  {
    if written == |merged| then s
    else if calls > 0 then Submit(HandOver(s, merged[written], Delivered), merged, written + 1, calls - 1)
    else GiveUp(HandOver(s, merged[written], InSink), merged[written], SinkRaised, merged[written + 1..], false)
  }

  datatype Event =
    | Pushed(kind: string, text: string)
    | LockTaken
    | FlushStarts(final: bool, calls: nat, last: CallResult)
    | SinkResumes(r: Resumption, calls: nat, last: CallResult)
    | HardTimesOut
    | LockWaitTimesOut
    | Restarts
    | Submits(calls: nat)
    | TickerDies

  /**
   A flush takes the lock when it is free, and the batch in a later stretch: on
   Python 3.10 and 3.11 wait_for runs the acquire in a task of its own, so the event
   loop turns once in between; on later versions the two follow each other at once.
   A cancellation in between is swallowed by wait_for.  The lock wait gives up after 2.0 s and
   the final flush after 5.0 s, so the hard time-out can only hit a final flush
   that owns the lock and that no earlier time-out aborted.
   */
  predicate Enabled(s: State, e: Event) {
    match e
    case LockTaken => !Locked(s)
    case FlushStarts(_, _, _) => s.lockTaken && s.job.None?
    case SinkResumes(_, _, _) => s.job.Some?
    case HardTimesOut => s.job.Some? && s.job.value.final && s.job.value.epoch == s.epoch
    case LockWaitTimesOut => Locked(s)
    case _ => true
  }

  function Step(s: State, e: Event): State
    requires Inv(s) && Enabled(s, e)
  {
    match e
    case Pushed(kind, text) => Push(s, kind, text)
    case LockTaken => s.(lockTaken := true)
    case FlushStarts(final, calls, last) => BeginFlush(s.(lockTaken := false), final, calls, last)
    case SinkResumes(r, calls, last) => Resume(s, r, calls, last)
    case HardTimesOut => HardTimeout(s)
    case LockWaitTimesOut => s.(degraded := true)
    case Restarts => s.(terminated := false, degraded := false)
    case Submits(calls) => SubmitSync(s, calls)
    case TickerDies => s.(degraded := true)
  }

  // ---------------------------------------------------------------- invariant

  predicate Live(s: State) { s.job.Some? && s.job.value.epoch == s.epoch }

  /** The handed segments whose fate is unsure, in order. */
  function Unsures(handed: seq<Segment>, fates: seq<Fate>): seq<Undecided>
    requires |handed| == |fates|
  {
    if handed == [] then [] else
      var n := |handed| - 1;
      Unsures(handed[..n], fates[..n]) + if fates[n].Unsure? then [Undecided(handed[n], fates[n].reason)] else []
  }

  predicate JobOk(s: State) {
    match s.job
    case None => s.inflight == None && s.backlog == []
    case Some(j) =>
      && j.written < |j.merged|
      && j.epoch <= s.epoch
      && s.inflight == Some(j.merged[j.written])
      && s.handed != []
      && if j.epoch == s.epoch
         then && s.backlog == j.merged[j.written + 1..]
              && s.handed[|s.handed| - 1] == j.merged[j.written]
         else s.backlog == []
  }

  /** Only the last handed segment can still be in the sink, and only for a live flush. */
  predicate FatesOk(s: State) {
    && |s.fates| == |s.handed|
    && (if Live(s)
        then s.fates != [] && s.fates[|s.fates| - 1] == InSink && InSink !in s.fates[..|s.fates| - 1]
        else InSink !in s.fates)
    && s.undecided == Unsures(s.handed, s.fates)
  }

  predicate Accounts(s: State) {
    && Numbered(s.history)
    && s.nextNum == |s.history| + 1
    && s.pendingBytes == Bytes(s.order)
    && JobOk(s)
    && FatesOk(s)
  }

  /** Every push is in exactly one place: handed over, in the backlog of the flush, or pending. */
  predicate Inv(s: State) {
    Accounts(s) && Tiles(s.handed + s.backlog + s.order, s.history)
  }

  lemma UnsuresAppend(handed: seq<Segment>, fates: seq<Fate>, x: Segment, f: Fate)
    requires |handed| == |fates|
    ensures Unsures(handed + [x], fates + [f]) ==
            Unsures(handed, fates) + if f.Unsure? then [Undecided(x, f.reason)] else []
  {
    assert (handed + [x])[..|handed|] == handed;
    assert (fates + [f])[..|handed|] == fates;
  }

  /** A batch whose tiling is known is already sorted. */
  lemma OrderIsSorted(s: State)
    requires Inv(s)
    ensures Increasing(s.order) && SortByNum(s.order) == s.order
  {
    var all := s.handed + s.backlog + s.order;
    TilesIncreasing(all, s.history);
    forall i | 0 <= i < |s.order|
      ensures s.order[i] == all[|s.handed| + |s.backlog| + i]
    {}
    SortIsNoOp(s.order);
  }

  /** Between two sink calls of the flush job j. */
  predicate Mid(s: State, j: Job) {
    && Numbered(s.history)
    && s.nextNum == |s.history| + 1
    && s.pendingBytes == Bytes(s.order)
    && j.written <= |j.merged| && j.epoch == s.epoch
    && |s.fates| == |s.handed| && InSink !in s.fates
    && s.undecided == Unsures(s.handed, s.fates)
    && Tiles(s.handed + j.merged[j.written..] + s.order, s.history)
  }

  /** Where the next segment goes does not change what is covered. */
  lemma CoverNext(s: State, j: Job)
    requires Mid(s, j) && j.written < |j.merged|
    ensures var x, unsent := j.merged[j.written], j.merged[j.written + 1..];
      && Tiles((s.handed + [x]) + unsent + s.order, s.history)
      && Tiles((s.handed + [x]) + [] + (unsent + s.order), s.history)
      && Bytes(unsent + s.order) == Bytes(unsent) + Bytes(s.order)
  {
    var x, unsent := j.merged[j.written], j.merged[j.written + 1..];
    assert j.merged[j.written..] == [x] + unsent;
    assert s.handed + j.merged[j.written..] + s.order == (s.handed + [x]) + unsent + s.order;
    assert s.handed + j.merged[j.written..] + s.order == (s.handed + [x]) + [] + (unsent + s.order);
    BytesAppend(unsent, s.order);
  }

  lemma SuspendKeepsInv(s: State, j: Job)
    requires Mid(s, j) && j.written < |j.merged|
    ensures Inv(Drive(s, j, 0, Suspends))
  {
    hide Tiles; hide Unsures; hide Bytes;
    CoverNext(s, j);
    UnsuresAppend(s.handed, s.fates, j.merged[j.written], InSink);
  }

  lemma RaiseKeepsInv(s: State, j: Job)
    requires Mid(s, j) && j.written < |j.merged|
    ensures Inv(Drive(s, j, 0, Raises))
  {
    hide Tiles; hide Unsures; hide Bytes;
    CoverNext(s, j);
    UnsuresAppend(s.handed, s.fates, j.merged[j.written], Unsure(SinkRaised));
    assert WithLastFate(s.fates + [InSink], Unsure(SinkRaised)) == s.fates + [Unsure(SinkRaised)];
  }

  lemma {:induction false} DriveKeepsInv(s: State, j: Job, calls: nat, last: CallResult)
    requires Mid(s, j)
    ensures Inv(Drive(s, j, calls, last))
    decreases |j.merged| - j.written
  {
    hide Tiles; hide Unsures; hide Bytes;
    if j.written == |j.merged| {
      assert s.handed + j.merged[j.written..] + s.order == s.handed + [] + s.order;
    } else if calls > 0 {
      var x := j.merged[j.written];
      CoverNext(s, j);
      UnsuresAppend(s.handed, s.fates, x, Delivered);
      DriveKeepsInv(HandOver(s, x, Delivered), j.(written := j.written + 1), calls - 1, last);
    } else if last == Suspends {
      SuspendKeepsInv(s, j);
    } else {
      RaiseKeepsInv(s, j);
    }
  }

  lemma FlushKeepsInv(s: State, final: bool, calls: nat, last: CallResult)
    requires Inv(s) && s.job.None?
    ensures Inv(BeginFlush(s, final, calls, last))
  {
    hide Tiles; hide Unsures; hide Merge; hide SortByNum; hide Drive;
    OrderIsSorted(s);
    var m := Merge(s.order);
    assert s.handed + s.backlog + s.order == s.handed + s.order;
    TilesMerge(s.handed, s.order, s.history);
    assert s.handed + m[0..] + [] == s.handed + m;
    DriveKeepsInv(s.(order := [], pendingBytes := 0), Job(m, 0, s.epoch, final), calls, last);
  }

  /** Replacing the fate of the segment in the sink by a final one. */
  lemma SettleLast(s: State, f: Fate)
    requires Inv(s) && Live(s) && f != InSink
    ensures var fates := WithLastFate(s.fates, f);
      && InSink !in fates
      && Unsures(s.handed, fates) ==
         s.undecided + if f.Unsure? then [Undecided(s.inflight.value, f.reason)] else []
  {
    hide Tiles; hide Bytes; hide Numbered; hide Unsures;
    var n := |s.handed| - 1;
    UnsuresAppend(s.handed[..n], s.fates[..n], s.handed[n], f);
    UnsuresAppend(s.handed[..n], s.fates[..n], s.handed[n], InSink);
    assert s.handed == s.handed[..n] + [s.handed[n]];
    assert s.fates == s.fates[..n] + [InSink];
  }

  lemma FailureKeepsInv(s: State, r: Resumption, calls: nat, last: CallResult)
    requires Inv(s) && Live(s) && r.Failed?
    ensures Inv(Resume(s, r, calls, last))
  {
    hide Tiles; hide Unsures; hide Bytes;
    SettleLast(s, Unsure(r.reason));
    BytesAppend(s.backlog, s.order);
    assert s.handed + s.backlog + s.order == s.handed + [] + (s.backlog + s.order);
  }

  lemma ResumeKeepsInv(s: State, r: Resumption, calls: nat, last: CallResult)
    requires Inv(s) && s.job.Some?
    ensures Inv(Resume(s, r, calls, last))
  {
    var j := s.job.value;
    if j.epoch != s.epoch {
    } else if r == Returned {
      SettleLast(s, Delivered);
      DriveKeepsInv(s.(fates := WithLastFate(s.fates, Delivered)), j.(written := j.written + 1), calls, last);
    } else {
      FailureKeepsInv(s, r, calls, last);
    }
  }

  lemma HardTimeoutKeepsInv(s: State)
    requires Inv(s) && Enabled(s, HardTimesOut)
    ensures Inv(HardTimeout(s))
  {
    hide Tiles; hide Unsures; hide Bytes;
    SettleLast(s, Unsure(FlushTimedOut));
    BytesAppend(s.backlog, s.order);
    assert s.handed + s.backlog + s.order == s.handed + [] + (s.backlog + s.order);
  }

  lemma BytesPush(segs: seq<Segment>, x: Segment)
    ensures Bytes(segs + [x]) == Bytes(segs) + Utf8Size(x.text)
  {
    assert (segs + [x])[..|segs|] == segs;
  }

  lemma PushKeepsInv(s: State, kind: string, text: string)
    requires Inv(s)
    ensures Inv(Push(s, kind, text))
  {
    BytesPush(s.order, Segment(s.nextNum, kind, text));
    hide Tiles; hide Unsures; hide Bytes;
    var x := Segment(s.nextNum, kind, text);
    TilesAddPush(s.handed + s.backlog + s.order, s.history, x);
    assert (s.handed + s.backlog + s.order) + [x] == s.handed + s.backlog + (s.order + [x]);
  }

  /** The barrier is a flush that never suspends: same accounting, no lock taken. */
  lemma {:induction false} SubmitIsDrive(s: State, merged: seq<Segment>, written: nat, calls: nat)
    requires written <= |merged| && s.job == None && s.inflight == None && s.backlog == []
    ensures Submit(s, merged, written, calls) == Drive(s, Job(merged, written, s.epoch, false), calls, Raises)
    decreases |merged| - written
  {
    if written < |merged| && calls > 0 {
      SubmitIsDrive(HandOver(s, merged[written], Delivered), merged, written + 1, calls - 1);
    }
  }

  /** Every step of every interleaving keeps the invariant. */
  lemma StepKeepsInv(s: State, e: Event)
    requires Inv(s) && Enabled(s, e)
    ensures Inv(Step(s, e))
  {
    hide Tiles; hide Unsures; hide Bytes;
    match e
    case Pushed(kind, text) => PushKeepsInv(s, kind, text);
    case LockTaken =>
    case FlushStarts(final, calls, last) => FlushKeepsInv(s.(lockTaken := false), final, calls, last);
    case SinkResumes(r, calls, last) => ResumeKeepsInv(s, r, calls, last);
    case HardTimesOut => HardTimeoutKeepsInv(s);
    case LockWaitTimesOut =>
    case Restarts =>
    case Submits(calls) =>
      if !s.sinkIsAsync && s.order != [] && !s.terminated && !Locked(s) {
        SubmitIsDrive(s.(order := [], pendingBytes := 0), Merge(SortByNum(s.order)), 0, calls);
        FlushKeepsInv(s, false, calls, Raises);
      }
    case TickerDies =>
  }

  // ---------------------------------------------------------------- runs

  /** The state after a list of events, if each was enabled when it happened. */
  function Run(s: State, events: seq<Event>): (r: Option<State>)
    requires Inv(s)
    ensures r.Some? ==> Inv(r.value)
    decreases |events|
  {
    if events == [] then Some(s)
    else if !Enabled(s, events[0]) then None
    else
      StepKeepsInv(s, events[0]);
      Run(Step(s, events[0]), events[1..])
  }

  ghost predicate Reachable(s: State) {
    exists async: bool, events: seq<Event> :: Run(Init(async), events) == Some(s)
  }

  datatype Bucket = IsDelivered | IsUndecided | IsInFlight | IsBacklog | IsPending

  function Buckets(s: State): seq<Segment> { s.handed + s.backlog + s.order }

  function BucketOf(s: State, j: nat): Bucket
    requires Inv(s) && j < |Buckets(s)|
  {
    if j < |s.handed| then
      match s.fates[j]
      case Delivered => IsDelivered
      case Unsure(_) => IsUndecided
      case InSink => IsInFlight
    else if j < |s.handed| + |s.backlog| then IsBacklog
    else IsPending
  }

  /**
   In every reachable state each push is in exactly one segment of exactly one
   bucket, in a segment of its own kind; so no push is handed over twice and
   none is lost.
   */
  lemma ExactlyOneBucket(s: State, n: nat) returns (j: nat)
    requires Reachable(s) && 1 <= n <= |s.history|
    ensures Inv(s) && Holds(Buckets(s), j, n)
    ensures forall k: nat :: Holds(Buckets(s), k, n) ==> k == j
    ensures Buckets(s)[j].kind == s.history[n - 1].kind
    ensures BucketOf(s, j) == IsUndecided ==> Undecided(s.handed[j], s.fates[j].reason) in s.undecided
    ensures BucketOf(s, j) == IsInFlight ==> s.inflight == Some(Buckets(s)[j])
  {
    j := TilesHoldOnce(Buckets(s), s.history, n);
    if BucketOf(s, j) == IsUndecided {
      UnsuresContain(s.handed, s.fates, j);
    }
  }

  lemma {:induction false} UnsuresContain(handed: seq<Segment>, fates: seq<Fate>, j: nat)
    requires |handed| == |fates| && j < |handed| && fates[j].Unsure?
    ensures Undecided(handed[j], fates[j].reason) in Unsures(handed, fates)
  {
    var n := |handed| - 1;
    if j < n {
      UnsuresContain(handed[..n], fates[..n], j);
    }
  }

  /** Merging and retrying never lose, repeat or reorder a character. */
  lemma TextConserved(s: State)
    requires Reachable(s)
    ensures Texts(s.handed) + Texts(s.backlog) + Texts(s.order) == Texts(s.history)
  {
    TilesTexts(Buckets(s), s.history);
    TextsAppend(s.handed + s.backlog, s.order);
    TextsAppend(s.handed, s.backlog);
  }

  /**
   The sink sees strictly increasing leading numbers over all flushes, failures
   and retries; the pending batch is always sorted already and its byte count exact.
   */
  lemma SinkOrder(s: State)
    requires Reachable(s)
    ensures Increasing(s.handed)
    ensures Increasing(s.order) && SortByNum(s.order) == s.order
    ensures s.pendingBytes == |Utf8.Encode(Texts(s.order))|
  {
    BytesAreEncoded(s.order);
    hide Tiles; hide Unsures; hide Bytes; hide SortByNum; hide Merge; hide Utf8.Encode;
    OrderIsSorted(s);
    TilesIncreasing(Buckets(s), s.history);
    forall i | 0 <= i < |s.handed|
      ensures s.handed[i] == Buckets(s)[i]
    {}
  }

  /** What the sink saw is only extended, and a settled fate is final. */
  predicate Extends(s: State, t: State) {
    && s.history <= t.history
    && s.handed <= t.handed
    && |s.fates| <= |t.fates|
    && forall i :: 0 <= i < |s.fates| && s.fates[i] != InSink ==> t.fates[i] == s.fates[i]
  }

  lemma {:induction false} DriveExtends(s: State, j: Job, calls: nat, last: CallResult)
    requires j.written <= |j.merged|
    ensures Extends(s, Drive(s, j, calls, last))
    decreases |j.merged| - j.written
  {
    if j.written < |j.merged| && calls > 0 {
      DriveExtends(HandOver(s, j.merged[j.written], Delivered), j.(written := j.written + 1), calls - 1, last);
    }
  }

  lemma StepExtends(s: State, e: Event)
    requires Inv(s) && Enabled(s, e)
    ensures Extends(s, Step(s, e))
  {
    hide Tiles; hide Unsures; hide Bytes; hide Merge; hide SortByNum; hide Drive; hide Submit;
    match e
    case FlushStarts(final, calls, last) =>
      DriveExtends(s.(lockTaken := false, order := [], pendingBytes := 0),
                   Job(Merge(SortByNum(s.order)), 0, s.epoch, final), calls, last);
    case SinkResumes(r, calls, last) =>
      var j := s.job.value;
      if j.epoch == s.epoch && r == Returned {
        DriveExtends(s.(fates := WithLastFate(s.fates, Delivered)), j.(written := j.written + 1), calls, last);
      }
    case Submits(calls) =>
      if !s.sinkIsAsync && s.order != [] && !s.terminated && !Locked(s) {
        SubmitIsDrive(s.(order := [], pendingBytes := 0), Merge(SortByNum(s.order)), 0, calls);
        DriveExtends(s.(order := [], pendingBytes := 0), Job(Merge(SortByNum(s.order)), 0, s.epoch, false), calls,
                     Raises);
      }
    case _ =>
  }

  /** In any run, what was handed over stays handed over, once, with its fate. */
  lemma {:induction false} RunExtends(s: State, events: seq<Event>)
    requires Inv(s) && Run(s, events).Some?
    ensures Extends(s, Run(s, events).value)
    decreases |events|
  {
    if events != [] {
      StepExtends(s, events[0]);
      StepKeepsInv(s, events[0]);
      RunExtends(Step(s, events[0]), events[1..]);
    }
  }

  /** The zombie of an aborted flush hands over nothing, requeues nothing and records nothing. */
  lemma ZombieIsHarmless(s: State, r: Resumption, calls: nat, last: CallResult)
    requires Reachable(s) && s.job.Some? && s.job.value.epoch != s.epoch
    ensures Step(s, SinkResumes(r, calls, last)) == s.(job := None, inflight := None)
  {}

  /**
   From any state of a run with the lock free, one flush into a working sink
   hands over everything: each push ends delivered or undecided.
   */
  lemma FlushDrains(s: State, final: bool, calls: nat, last: CallResult)
    requires Inv(s) && s.job.None? && calls >= |s.order|
    ensures var t := BeginFlush(s, final, calls, last);
      && t.order == [] && t.job == None && t.inflight == None && t.backlog == []
      && t.undecided == s.undecided && t.history == s.history
      && t.handed == s.handed + Merge(s.order)
      && Tiles(t.handed, t.history) && InSink !in t.fates
  {
    OrderIsSorted(s);
    MergeIsNoLonger(s.order);
    DriveDrains(s.(order := [], pendingBytes := 0), Job(Merge(s.order), 0, s.epoch, final), calls, last);
    FlushKeepsInv(s, final, calls, last);
    DrainedCover(BeginFlush(s, final, calls, last));
  }

  lemma DrainedCover(t: State)
    requires Inv(t) && t.order == [] && t.backlog == [] && t.job == None
    ensures Tiles(t.handed, t.history) && InSink !in t.fates
  {
    assert t.handed + [] + [] == t.handed;
  }

  lemma {:induction false} DriveDrains(s: State, j: Job, calls: nat, last: CallResult)
    requires j.written <= |j.merged| <= j.written + calls && s.order == []
    ensures var t := Drive(s, j, calls, last);
      && t.order == [] && t.job == None && t.inflight == None && t.backlog == []
      && t.undecided == s.undecided && t.history == s.history
      && t.handed == s.handed + j.merged[j.written..]
    decreases |j.merged| - j.written
  {
    if j.written < |j.merged| {
      DriveDrains(HandOver(s, j.merged[j.written], Delivered), j.(written := j.written + 1), calls - 1, last);
    }
  }

  lemma {:induction false} DriveKeepsControls(s: State, j: Job, calls: nat, last: CallResult)
    requires j.written <= |j.merged|
    ensures var t := Drive(s, j, calls, last);
      && t.terminated == s.terminated && t.sinkIsAsync == s.sinkIsAsync
      && t.epoch == s.epoch && t.lockTaken == s.lockTaken
    decreases |j.merged| - j.written
  {
    if j.written < |j.merged| && calls > 0 {
      DriveKeepsControls(HandOver(s, j.merged[j.written], Delivered), j.(written := j.written + 1), calls - 1, last);
    }
  }

  lemma {:induction false} MergeIsNoLonger(segs: seq<Segment>)
    ensures |Merge(segs)| <= |segs|
  {
    if segs != [] {
      MergeIsNoLonger(segs[..|segs| - 1]);
    }
  }
}
