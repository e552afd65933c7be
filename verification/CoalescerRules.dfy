/**
 When the coalescer of module Coalescing shows that it is degraded or terminated, when
 the barrier does anything, and who may hold the flush lock.
 */
module CoalescerRules {
  import opened Wrappers
  import opened Segments
  import opened Coalescing

  /** A push goes behind everything pending, with the next number: one more than there were pushes before it. */
  lemma PushExactly(s: State, kind: string, text: string)
    requires Inv(s)
    ensures var t := Step(s, Pushed(kind, text)); var x := Segment(|s.history| + 1, kind, text);
      && t.order == s.order + [x] && t.history == s.history + [x]
      && t.handed == s.handed && t.backlog == s.backlog && t.fates == s.fates && t.job == s.job
  {
    hide Tiles; hide Unsures; hide Bytes; hide Utf8Size;
  }

  /** A loop over the batch that a call raises in before its end marks a final flush, and nothing else. */
  lemma {:induction false} DriveFlags(s: State, j: Job, calls: nat, last: CallResult)
    requires j.written <= |j.merged|
    ensures var t := Drive(s, j, calls, last);
      && t.terminated == s.terminated
      && (t.degraded <==> s.degraded || (j.final && last == Raises && j.written + calls < |j.merged|))
    decreases |j.merged| - j.written
  {
    if j.written < |j.merged| && calls > 0 {
      DriveFlags(HandOver(s, j.merged[j.written], Delivered), j.(written := j.written + 1), calls - 1, last);
    }
    hide Bytes; hide WithLastFate;
  }

  lemma {:induction false} SubmitFlags(s: State, merged: seq<Segment>, written: nat, calls: nat)
    requires written <= |merged|
    ensures var t := Submit(s, merged, written, calls); t.terminated == s.terminated && t.degraded == s.degraded
    decreases |merged| - written
  {
    if written < |merged| && calls > 0 {
      SubmitFlags(HandOver(s, merged[written], Delivered), merged, written + 1, calls - 1);
    }
    hide Bytes; hide WithLastFate;
  }

  /** The trailing flush gives up on a segment: its sink raises, or the call it waits for fails. */
  predicate FinalFlushFails(s: State, e: Event) {
    match e
    case FlushStarts(final, calls, last) => final && last == Raises && calls < |Merge(SortByNum(s.order))|
    case SinkResumes(r, calls, last) =>
      && s.job.Some? && s.job.value.final && s.job.value.epoch == s.epoch
      && (r.Failed? || (last == Raises && s.job.value.written + 1 + calls < |s.job.value.merged|))
    case _ => false
  }

  lemma ResumeFlags(s: State, r: Resumption, calls: nat, last: CallResult)
    requires Inv(s) && Enabled(s, SinkResumes(r, calls, last))
    ensures var t := Step(s, SinkResumes(r, calls, last));
      && t.terminated == s.terminated
      && (t.degraded <==> s.degraded || FinalFlushFails(s, SinkResumes(r, calls, last)))
  {
    hide Tiles; hide Unsures; hide Bytes; hide Drive; hide WithLastFate;
    var j := s.job.value;
    if r == Returned && j.epoch == s.epoch {
      DriveFlags(s.(fates := WithLastFate(s.fates, Delivered)), j.(written := j.written + 1), calls, last);
    }
  }

  lemma OtherFlags(s: State, e: Event)
    requires Inv(s) && Enabled(s, e) && !e.SinkResumes?
    ensures var t := Step(s, e);
      && (t.terminated <==> e == HardTimesOut || (s.terminated && e != Restarts))
      && (t.degraded <==>
            || e == HardTimesOut || e == LockWaitTimesOut || e == TickerDies || FinalFlushFails(s, e)
            || (s.degraded && e != Restarts))
  {
    hide Tiles; hide Unsures; hide Bytes; hide Drive; hide Submit; hide WithLastFate; hide Merge; hide SortByNum;
    match e
    case FlushStarts(final, calls, last) =>
      DriveFlags(s.(lockTaken := false, order := [], pendingBytes := 0),
                 Job(Merge(SortByNum(s.order)), 0, s.epoch, final), calls, last);
    case Submits(calls) =>
      SubmitFlags(s.(order := [], pendingBytes := 0), Merge(SortByNum(s.order)), 0, calls);
    case _ =>
  }

  /**
   Only a hard time-out terminates the coalescer, and only it, a lock wait that gives up, a
   dying ticker and a final flush that gives up on a segment degrade it; a restart clears both.
   */
  lemma FlagsExactly(s: State, e: Event)
    requires Inv(s) && Enabled(s, e)
    ensures var t := Step(s, e);
      && (t.terminated <==> e == HardTimesOut || (s.terminated && e != Restarts))
      && (t.degraded <==>
            || e == HardTimesOut || e == LockWaitTimesOut || e == TickerDies || FinalFlushFails(s, e)
            || (s.degraded && e != Restarts))
  {
    hide *;
    match e
    case SinkResumes(r, calls, last) => ResumeFlags(s, r, calls, last);
    case _ => OtherFlags(s, e);
  }

  /** The barrier passes everything by exactly when its sink is asynchronous, nothing is pending, or it may not. */
  lemma BarrierExactly(s: State, calls: nat)
    requires Inv(s)
    ensures Step(s, Submits(calls)) == s <==>
      s.sinkIsAsync || s.order == [] || s.terminated || s.lockTaken || s.job.Some?
  {
    hide Tiles; hide Unsures; hide Bytes; hide Merge; hide SortByNum;
    if !(s.sinkIsAsync || s.order == [] || s.terminated || s.lockTaken || s.job.Some?) {
      MergeOfSome(SortByNum(s.order));
      SortOfSome(s.order);
      SubmitHands(s.(order := [], pendingBytes := 0), Merge(SortByNum(s.order)), 0, calls);
    }
    hide Submit;
  }

  lemma MergeOfSome(segs: seq<Segment>)
    ensures segs != [] ==> Merge(segs) != []
  {}

  lemma SortOfSome(segs: seq<Segment>)
    ensures |SortByNum(segs)| == |segs|
  {
    SortExactly(segs, 0);
  }

  lemma {:induction false} SubmitHands(s: State, merged: seq<Segment>, written: nat, calls: nat)
    requires written <= |merged|
    ensures |Submit(s, merged, written, calls).handed| >= |s.handed| + (if written < |merged| then 1 else 0)
    decreases |merged| - written
  {
    if written < |merged| && calls > 0 {
      SubmitHands(HandOver(s, merged[written], Delivered), merged, written + 1, calls - 1);
    }
    hide Bytes; hide WithLastFate;
  }

  /**
   At most one flush owns the lock, from taking it until it returns: the lock is taken only
   when neither a flush that is to take the batch nor one in the sink owns it; a wait for it
   gives up only while one does; the hard time-out hits only a final flush no other one hit.
   */
  lemma LockExactly(s: State, calls: nat, last: CallResult)
    requires Inv(s)
    ensures Enabled(s, LockTaken) <==> !s.lockTaken && s.job.None?
    ensures Enabled(s, LockTaken) ==> Step(s, LockTaken) == s.(lockTaken := true)
    ensures Enabled(s, LockWaitTimesOut) <==> s.lockTaken || s.job.Some?
    ensures Enabled(s, FlushStarts(true, calls, last)) <==> s.lockTaken && s.job.None?
    ensures Enabled(s, HardTimesOut) <==> s.job.Some? && s.job.value.final && s.job.value.epoch == s.epoch
    ensures Enabled(s, SinkResumes(Returned, calls, last)) <==> s.job.Some?
  {
    hide Inv;
  }
}
