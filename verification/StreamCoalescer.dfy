/**
 The class of appserver/jsonrpc.py:48-500, one method per atomic stretch of
 code, proved against the steps of module Coalescing.  The answers of the sink
 (how many calls return at once, what the next one does) are inputs.
 */
module StreamCoalescers {
  import opened Wrappers
  import opened Segments
  import opened Coalescing
  import Utf8

  class StreamCoalescer {
    const sinkIsAsync: bool
    var nextNum: nat
    var order: seq<Segment>
    var pendingBytes: int
    var degraded: bool
    var terminated: bool
    var inflight: Option<Segment>
    var backlog: seq<Segment>
    var flushEpoch: nat
    var undecided: seq<Undecided>
    /** The suspended flush coroutine; it holds the flush lock. */
    var job: Option<Job>
    /** A flush that holds the lock and has not taken the batch yet. */
    var lockTaken: bool
    ghost var history: seq<Segment>
    ghost var handed: seq<Segment>
    ghost var fates: seq<Fate>

    ghost function View(): State
      reads this
    {
      State(sinkIsAsync, nextNum, order, pendingBytes, degraded, terminated, inflight, backlog,
            flushEpoch, undecided, job, lockTaken, history, handed, fates)
    }

    ghost predicate Valid()
      reads this
    {
      Inv(View())
    }

    constructor (sinkIsAsync: bool)
      ensures Valid() && View() == Init(sinkIsAsync)
    {
      this.sinkIsAsync := sinkIsAsync;
      nextNum, order, pendingBytes := 1, [], 0;
      degraded, terminated := false, false;
      inflight, backlog, flushEpoch, undecided, job, lockTaken := None, [], 0, [], None, false;
      history, handed, fates := [], [], [];
    }

    method PushSync(kind: string, text: string) returns (flushDue: bool)
      requires Valid()
      modifies this
      ensures Valid() && View() == Step(old(View()), Pushed(kind, text))
      ensures flushDue <==> |Utf8.Encode(Texts(order))| >= 1024
    {
      hide Tiles; hide Unsures; hide Bytes; hide Merge; hide SortByNum; hide Utf8Size; hide Texts; hide Utf8.Encode;
      StepKeepsInv(View(), Pushed(kind, text));
      pendingBytes := pendingBytes + Utf8Size(text);
      order := order + [Segment(nextNum, kind, text)];
      history := history + [Segment(nextNum, kind, text)];
      nextNum := nextNum + 1;
      flushDue := pendingBytes >= FLUSH_BYTE_THRESHOLD;
      BytesAreEncoded(order);
    }

    /** Put unsent segments back at the head of the batch with their original numbers. */
    method RequeueUnsent(unsent: seq<Segment>)
      modifies `order, `pendingBytes
      ensures order == unsent + old(order) && pendingBytes == old(pendingBytes) + Bytes(unsent)
      ensures Bytes(unsent) == |Utf8.Encode(Texts(unsent))|
    {
      BytesAreEncoded(unsent);
      for i := 0 to |unsent|
        invariant order == old(order) && pendingBytes == old(pendingBytes) + Bytes(unsent[..i])
      {
        pendingBytes := pendingBytes + Utf8Size(unsent[i].text);
        assert unsent[..i + 1][..i] == unsent[..i];
      }
      assert unsent[..|unsent|] == unsent;
      order := unsent + order;
    }

    /** What the except branches do: requeue the unsent segments, record the failing one. */
    method GiveUp(x: Segment, reason: Reason, unsent: seq<Segment>, final: bool)
      requires fates != []
      modifies `order, `pendingBytes, `inflight, `backlog, `job, `undecided, `fates, `degraded
      ensures View() == Coalescing.GiveUp(old(View()), x, reason, unsent, final) && handed == old(handed)
    {
      hide Bytes; hide Utf8Size; hide Texts; hide Utf8.Encode;
      hide WithLastFate;
      RequeueUnsent(unsent);
      Record(x, reason);
      inflight, backlog, job, degraded := None, [], None, degraded || final;
    }

    /** The segment handed over last is undecided. */
    method Record(x: Segment, reason: Reason)
      requires fates != []
      modifies `undecided, `fates
      ensures undecided == old(undecided) + [Undecided(x, reason)]
      ensures fates == WithLastFate(old(fates), Unsure(reason))
    {
      undecided := undecided + [Undecided(x, reason)];
      fates := fates[..|fates| - 1] + [Unsure(reason)];
    }

    method CallReturned(x: Segment, unsent: seq<Segment>)
      modifies this
      ensures View() == HandOver(old(View()), x, Delivered).(inflight := None, backlog := unsent)
      ensures handed == old(handed) + [x]
    {
      handed, fates := handed + [x], fates + [Delivered];
      inflight, backlog := None, unsent;
    }

    method CallStarted(x: Segment)
      modifies this
      ensures View() == HandOver(old(View()), x, InSink) && fates != []
      ensures handed == old(handed) + [x]
    {
      handed, fates := handed + [x], fates + [InSink];
    }

    method SuspendIn(j: Job)
      requires j.written < |j.merged|
      modifies this
      ensures handed == old(handed)
      ensures View() == old(View()).(job := Some(j), inflight := Some(j.merged[j.written]),
                                     backlog := j.merged[j.written + 1..])
    {
      inflight, backlog, job := Some(j.merged[j.written]), j.merged[j.written + 1..], Some(j);
    }

    method ReleaseLock()
      modifies this
      ensures View() == Release(old(View())) && handed == old(handed)
    {
      inflight, backlog, job := None, [], None;
    }

    /** The sink loop: the epoch cannot change before the next suspension. */
    method SinkLoop(j: Job, calls: nat, last: CallResult) returns (sent: seq<Segment>)
      requires j.written <= |j.merged|
      modifies this
      ensures View() == Drive(old(View()), j, calls, last) && handed == old(handed) + sent
    {
      hide View; hide HandOver; hide Release; hide Bytes; hide Coalescing.GiveUp;
      sent := [];
      var written, left := j.written, calls;
      while written < |j.merged| && left > 0
        invariant j.written <= written <= |j.merged|
        invariant Drive(View(), j.(written := written), left, last) == Drive(old(View()), j, calls, last)
        invariant handed == old(handed) + sent
        decreases |j.merged| - written
      {
        var x := j.merged[written];
        var unsent := if written + 1 < |j.merged| then j.merged[written + 2..] else [];
        DriveIgnoresScratch(HandOver(View(), x, Delivered), None, unsent, j.(written := written + 1), left - 1, last);
        CallReturned(x, unsent);
        sent := sent + [x];
        written, left := written + 1, left - 1;
      }
      if written == |j.merged| {
        ReleaseLock();
      } else {
        CallStarted(j.merged[written]);
        sent := sent + [j.merged[written]];
        if last == Suspends {
          SuspendIn(j.(written := written));
        } else {
          GiveUp(j.merged[written], SinkRaised, j.merged[written + 1..], j.final);
        }
      }
    }

    /** The acquire of flush() succeeds. */
    method AcquireLock()
      requires Valid() && !lockTaken && job.None?
      modifies `lockTaken
      ensures Valid() && View() == Step(old(View()), LockTaken)
    {
      hide Tiles; hide Unsures; hide Bytes; hide Merge; hide SortByNum; hide Utf8Size;
      StepKeepsInv(View(), LockTaken);
      lockTaken := true;
    }

    /** The head of _flush_locked: the sorted and merged batch. */
    method TakeBatch() returns (merged: seq<Segment>)
      modifies `order, `pendingBytes, `lockTaken
      ensures merged == Merge(SortByNum(old(order))) && order == [] && pendingBytes == 0 && !lockTaken
    {
      hide Merge; hide SortByNum;
      var pending := SortByNum(order);
      order, pendingBytes, lockTaken := [], 0, false;
      merged := MergeSegments(pending);
    }

    /** flush() from taking the batch to its first suspension or its end. */
    method Flush(final: bool, calls: nat, last: CallResult) returns (sent: seq<Segment>)
      requires Valid() && lockTaken && job.None?
      modifies this
      ensures Valid() && View() == Step(old(View()), FlushStarts(final, calls, last))
      ensures handed == old(handed) + sent
    {
      hide Tiles; hide Unsures; hide Bytes; hide Merge; hide SortByNum; hide Utf8Size;
      StepKeepsInv(View(), FlushStarts(final, calls, last));
      var merged := TakeBatch();
      ghost var entry := View();
      backlog := if merged == [] then [] else merged[1..];
      var j := Job(merged, 0, flushEpoch, final);
      DriveIgnoresScratch(entry, None, backlog, j, calls, last);
      sent := SinkLoop(j, calls, last);
    }

    /** The suspended sink call returns, raises or is cancelled. */
    method SinkReturns(r: Resumption, calls: nat, last: CallResult) returns (sent: seq<Segment>)
      requires Valid() && job.Some?
      modifies this
      ensures Valid() && View() == Step(old(View()), SinkResumes(r, calls, last))
      ensures handed == old(handed) + sent
    {
      hide Tiles; hide Unsures; hide Bytes; hide Merge; hide SortByNum; hide Utf8Size;
      StepKeepsInv(View(), SinkResumes(r, calls, last));
      sent := [];
      var j := job.value;
      if j.epoch != flushEpoch {
        ReleaseLock();
      } else if r == Returned {
        fates := fates[..|fates| - 1] + [Delivered];
        sent := SinkLoop(j.(written := j.written + 1), calls, last);
      } else {
        GiveUp(j.merged[j.written], r.reason, j.merged[j.written + 1..], j.final);
      }
    }

    method RestoreBacklog()
      modifies `order, `pendingBytes, `backlog
      ensures order == old(backlog) + old(order)
      ensures pendingBytes == old(pendingBytes) + Bytes(old(backlog)) && backlog == []
    {
      if backlog != [] {
        RequeueUnsent(backlog);
        backlog := [];
      } else {
        assert [] + order == order;
      }
    }

    method NoteTimeout()
      requires fates != [] && inflight.Some?
      modifies `degraded, `terminated, `flushEpoch, `undecided, `fates
      ensures degraded && terminated && flushEpoch == old(flushEpoch) + 1
      ensures undecided == old(undecided) + [Undecided(inflight.value, FlushTimedOut)]
      ensures fates == WithLastFate(old(fates), Unsure(FlushTimedOut))
    {
      degraded, terminated, flushEpoch := true, true, flushEpoch + 1;
      undecided := undecided + [Undecided(inflight.value, FlushTimedOut)];
      fates := fates[..|fates| - 1] + [Unsure(FlushTimedOut)];
    }

    /** The hard time-out of the final flush: abort its generation, restore its backlog. */
    method FinalFlushTimesOut()
      requires Valid() && Enabled(View(), HardTimesOut)
      modifies this
      ensures Valid() && View() == Step(old(View()), HardTimesOut)
    {
      hide Tiles; hide Unsures; hide Bytes; hide Merge; hide SortByNum; hide Utf8Size;
      StepKeepsInv(View(), HardTimesOut);
      NoteTimeout();
      RestoreBacklog();
    }

    /** start() after a teardown: flushing is allowed again. */
    method Start()
      requires Valid()
      modifies this
      ensures Valid() && View() == Step(old(View()), Restarts)
    {
      hide Tiles; hide Unsures; hide Bytes; hide Merge; hide SortByNum; hide Utf8Size;
      StepKeepsInv(View(), Restarts);
      terminated, degraded := false, false;
    }

    /** Submit merged segments until one call raises; sent lists the calls that returned. */
    method SubmitAll(merged: seq<Segment>, calls: nat) returns (sent: seq<Segment>)
      modifies this
      ensures View() == Submit(old(View()), merged, 0, calls)
      ensures old(handed) + sent <= handed
      ensures calls >= |merged| ==> sent == merged && order == old(order) && handed == old(handed) + sent
    {
      hide Bytes; hide Utf8Size;
      var written, left: nat := 0, calls;
      while written < |merged| && left > 0
        invariant written <= |merged| && left + written == calls
        invariant Submit(View(), merged, written, left) == Submit(old(View()), merged, 0, calls)
        invariant handed == old(handed) + merged[..written] && order == old(order)
      {
        handed, fates := handed + [merged[written]], fates + [Delivered];
        written, left := written + 1, left - 1;
      }
      sent := merged[..written];
      if written < |merged| {
        handed, fates := handed + [merged[written]], fates + [InSink];
        GiveUp(merged[written], SinkRaised, merged[written + 1..], false);
      }
    }

    /** What the barrier does once its guard has passed. */
    method SubmitPending(calls: nat) returns (sent: seq<Segment>)
      requires Increasing(order)
      modifies this
      ensures View() == Submit(old(View()).(order := [], pendingBytes := 0), Merge(SortByNum(old(order))), 0, calls)
      ensures old(handed) + sent <= handed
      ensures calls >= |old(order)| ==>
                sent == Merge(old(order)) && order == [] && handed == old(handed) + sent
    {
      SortIsNoOp(order);
      MergeIsNoLonger(order);
      hide Bytes; hide Merge; hide SortByNum; hide Submit;
      var merged := MergeSegments(SortByNum(order));
      order, pendingBytes := [], 0;
      sent := SubmitAll(merged, calls);
    }

    /** The synchronous ordering barrier; sent lists the sink calls that returned. */
    method FlushSubmitSync(calls: nat) returns (sent: seq<Segment>)
      requires Valid()
      modifies this
      ensures Valid() && View() == Step(old(View()), Submits(calls))
      ensures old(handed) + sent <= handed
      ensures !sinkIsAsync && old(!terminated && !lockTaken && job.None?) && calls >= |old(order)| ==>
                sent == Merge(old(order)) && order == [] && handed == old(handed) + sent
    {
      StepKeepsInv(View(), Submits(calls));
      OrderIsSorted(View());
      assert Merge([]) == [];
      hide Inv; hide Merge; hide SortByNum; hide Submit;
      sent := [];
      if !(sinkIsAsync || order == [] || terminated || lockTaken || job.Some?) {
        sent := SubmitPending(calls);
      }
    }
  }
}
