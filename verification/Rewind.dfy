/**
 Checkpoints of a workspace without git and rewinds of a session
 (appserver/review.py:567-614, 638-676; appserver/checkpoint_rewind.py:17-34, 96-155).
 */
module Rewinding {
  import opened Wrappers

  type Bytes = seq<bv8>

  /** Decoding with replacement and encoding; nothing is assumed of the two. */
  datatype Codec = Codec(decode: Bytes -> string, encode: string -> Bytes)

  type Files = map<string, Bytes>

  const SNIFFED := 8000
  const LARGEST := 400_000

  /** What create_checkpoint takes: no NUL among the first bytes, and not too long. */
  predicate Taken(b: Bytes) {
    (forall i :: 0 <= i < |b| && i < SNIFFED ==> b[i] != 0) && |b| <= LARGEST
  }

  /** Text that survives decoding and encoding, and is taken. */
  predicate Storable(c: Codec, b: Bytes) { Taken(b) && c.encode(c.decode(b)) == b }

  function Snapshot(c: Codec, files: Files): map<string, string> {
    map path | path in files && Taken(files[path]) :: c.decode(files[path])
  }

  /** What restore_checkpoint leaves: everything else is deleted, everything stored is written. */
  function Restored(c: Codec, stored: map<string, string>): Files {
    map path | path in stored :: c.encode(stored[path])
  }

  /** A checkpoint gives its workspace back exactly when every file of it could be stored. */
  lemma RestoreGivesBackStorable(c: Codec, files: Files)
    ensures Restored(c, Snapshot(c, files)) == files <==> forall path :: path in files ==> Storable(c, files[path])
  {
    var back := Restored(c, Snapshot(c, files));
    if forall path :: path in files ==> Storable(c, files[path]) {
      assert back.Keys == files.Keys;
    } else {
      var path :| path in files && !Storable(c, files[path]);
      assert path !in back || back[path] == c.encode(c.decode(files[path]));
    }
  }

  // ---------------------------------------------------------------- the session

  datatype Scope = Code | Conversation | Both

  datatype Checkpoint = Checkpoint(stored: map<string, string>, itemsSeq: nat)

  /** A rewind that took place: its target and the last item there was. */
  datatype Mark = Mark(target: nat, high: nat)

  /** originals and marks are history: the workspace each checkpoint was made of, and the rewinds. */
  datatype Session = Session(files: Files, checkpoints: seq<Checkpoint>, log: seq<nat>,
                             until: Option<nat>, hiddenUntil: Option<nat>,
                             originals: seq<Files>, marks: seq<Mark>)

  datatype Event =
    | Edit(files: Files)
    | Append(item: nat)
    | TakeSnapshot
    | Rewind(k: nat, scope: Scope, confirmed: bool, prefixRewound: bool)

  function New(files: Files): Session { Session(files, [], [], None, None, [], []) }

  function LastSeq(log: seq<nat>): nat { if log == [] then 0 else log[|log| - 1] }

  predicate Shown(item: nat, until: Option<nat>, hiddenUntil: Option<nat>) {
    until.None? || item <= until.value || (hiddenUntil.Some? && item > hiddenUntil.value)
  }

  function Visible(log: seq<nat>, until: Option<nat>, hiddenUntil: Option<nat>): seq<nat> {
    if log == [] then []
    else
      var k := |log| - 1;
      Visible(log[..k], until, hiddenUntil) + (if Shown(log[k], until, hiddenUntil) then [log[k]] else [])
  }

  predicate Enabled(s: Session, e: Event) { e.Append? ==> e.item > LastSeq(s.log) }

  function Checked(c: Codec, s: Session): Session {
    s.(checkpoints := s.checkpoints + [Checkpoint(Snapshot(c, s.files), LastSeq(s.log))],
       originals := s.originals + [s.files])
  }

  predicate Refused(s: Session, e: Event)
    requires e.Rewind?
  {
    !e.confirmed || e.k >= |s.checkpoints| || (e.scope != Code && !e.prefixRewound)
  }

  /** The pre-rewind checkpoint, the files for scopes with code, and the projection for every scope. */
  function Rewound(c: Codec, s: Session, k: nat, scope: Scope): Session
    requires k < |s.checkpoints|
  {
    var target := s.checkpoints[k];
    Checked(c, s).(
      files := if scope == Conversation then s.files else Restored(c, target.stored),
      until := Some(target.itemsSeq),
      hiddenUntil := if s.hiddenUntil.None? then Some(LastSeq(s.log)) else s.hiddenUntil,
      marks := s.marks + [Mark(target.itemsSeq, LastSeq(s.log))])
  }

  function Step(c: Codec, s: Session, e: Event): Session
    requires Enabled(s, e)
  {
    match e
    case Edit(files) => s.(files := files)
    case Append(item) => s.(log := s.log + [item])
    case TakeSnapshot => Checked(c, s)
    case Rewind(k, scope, _, _) => if Refused(s, e) then s else Rewound(c, s, k, scope)
  }

  function Run(c: Codec, s: Session, events: seq<Event>): Option<Session>
    decreases |events|
  {
    if events == [] then Some(s)
    else if Enabled(s, events[0]) then Run(c, Step(c, s, events[0]), events[1..])
    else None
  }

  // ---------------------------------------------------------------- invariant

  predicate Rising(log: seq<nat>) {
    && (forall i :: 0 <= i < |log| ==> log[i] > 0)
    && (forall i, j :: 0 <= i < j < |log| ==> log[i] < log[j])
  }

  ghost predicate CheckpointsOk(c: Codec, checkpoints: seq<Checkpoint>, originals: seq<Files>, last: nat) {
    && |checkpoints| == |originals|
    && (forall k :: 0 <= k < |checkpoints| ==>
          checkpoints[k].stored == Snapshot(c, originals[k]) && checkpoints[k].itemsSeq <= last)
  }

  predicate ProjectionOk(until: Option<nat>, hiddenUntil: Option<nat>, marks: seq<Mark>, last: nat) {
    && until == (if marks == [] then None else Some(marks[|marks| - 1].target))
    && hiddenUntil == (if marks == [] then None else Some(marks[0].high))
    && (marks != [] ==> marks[0].high <= last)
  }

  ghost predicate Inv(c: Codec, s: Session) {
    && Rising(s.log)
    && CheckpointsOk(c, s.checkpoints, s.originals, LastSeq(s.log))
    && ProjectionOk(s.until, s.hiddenUntil, s.marks, LastSeq(s.log))
  }

  lemma StepKeepsInv(c: Codec, s: Session, e: Event)
    requires Inv(c, s) && Enabled(s, e)
    ensures Inv(c, Step(c, s, e))
  {
    hide Snapshot; hide Restored;
  }

  lemma {:induction false} RunKeepsInv(c: Codec, s: Session, events: seq<Event>)
    requires Inv(c, s) && Run(c, s, events).Some?
    ensures Inv(c, Run(c, s, events).value)
    decreases |events|
  {
    hide Inv; hide Step;
    if events != [] {
      StepKeepsInv(c, s, events[0]);
      RunKeepsInv(c, Step(c, s, events[0]), events[1..]);
    }
  }

  ghost predicate Reachable(c: Codec, s: Session) {
    exists files: Files, events: seq<Event> :: Run(c, New(files), events) == Some(s)
  }

  lemma ReachableInv(c: Codec, s: Session)
    requires Reachable(c, s)
    ensures Inv(c, s)
  {
    var files: Files, events: seq<Event> :| Run(c, New(files), events) == Some(s);
    RunKeepsInv(c, New(files), events);
  }

  // ---------------------------------------------------------------- refusals

  /**
   A rewind does nothing exactly when it was not confirmed, names no checkpoint, or touches
   the conversation without its prefix rewound; any other one takes place whole.
   */
  lemma RefusedExactly(c: Codec, s: Session, k: nat, scope: Scope, confirmed: bool, prefixRewound: bool)
    ensures var after := Step(c, s, Rewind(k, scope, confirmed, prefixRewound));
      var refused := !confirmed || |s.checkpoints| <= k || (scope != Code && !prefixRewound);
      && (after == s <==> refused)
      && (!refused ==> after == Rewound(c, s, k, scope) && |after.checkpoints| == |s.checkpoints| + 1)
  {
    hide Snapshot; hide Restored;
  }

  /** Stored are exactly the files of at most 400000 bytes with no NUL among their first 8000, as they decode. */
  lemma StoredExactly(c: Codec, s: Session, path: string)
    ensures var after := Step(c, s, TakeSnapshot);
      && |after.checkpoints| == |s.checkpoints| + 1 && after.checkpoints[..|s.checkpoints|] == s.checkpoints
      && after.files == s.files
      && var taken := after.checkpoints[|s.checkpoints|];
         && taken.itemsSeq == (if s.log == [] then 0 else s.log[|s.log| - 1])
         && (path in taken.stored <==>
               && path in s.files && |s.files[path]| <= 400000
               && forall i :: 0 <= i < |s.files[path]| && i < 8000 ==> s.files[path][i] != 0)
         && (path in taken.stored ==> taken.stored[path] == c.decode(s.files[path]))
  {}

  /** Edits are the workspace's own business, and appended items the log's. */
  lemma EditedExactly(c: Codec, s: Session, files: Files, item: nat)
    ensures Step(c, s, Edit(files)) == s.(files := files)
    ensures item > LastSeq(s.log) ==> Step(c, s, Append(item)) == s.(log := s.log + [item])
  {}

  // ---------------------------------------------------------------- files

  /**
   Whatever happened since, rewinding the code to a checkpoint gives the workspace the
   checkpoint was made of, exactly when that was storable; the conversation alone leaves it.
   */
  lemma RewindRestoresFiles(c: Codec, s: Session, k: nat, scope: Scope)
    requires Reachable(c, s) && k < |s.checkpoints|
    ensures k < |s.originals|
    ensures scope != Conversation ==>
      (Rewound(c, s, k, scope).files == s.originals[k] <==>
       forall path :: path in s.originals[k] ==> Storable(c, s.originals[k][path]))
    ensures scope == Conversation ==> Rewound(c, s, k, scope).files == s.files
  {
    ReachableInv(c, s);
    RestoreGivesBackStorable(c, s.originals[k]);
  }

  lemma {:induction false} CheckpointsStay(c: Codec, s: Session, events: seq<Event>)
    requires Run(c, s, events).Some?
    ensures s.checkpoints <= Run(c, s, events).value.checkpoints && s.originals <= Run(c, s, events).value.originals
    decreases |events|
  {
    hide Snapshot; hide Restored;
    if events != [] {
      CheckpointsStay(c, Step(c, s, events[0]), events[1..]);
    }
  }

  /** The pre-rewind checkpoint undoes a rewind at any later time, exactly when the files it left were storable. */
  lemma PreRewindUndoes(c: Codec, s: Session, k: nat, scope: Scope, events: seq<Event>)
    requires Reachable(c, s) && k < |s.checkpoints| && Run(c, Rewound(c, s, k, scope), events).Some?
    ensures var later := Run(c, Rewound(c, s, k, scope), events).value;
      && |s.checkpoints| < |later.checkpoints|
      && (Rewound(c, later, |s.checkpoints|, Code).files == s.files <==>
          forall path :: path in s.files ==> Storable(c, s.files[path]))
  {
    ReachableInv(c, s);
    CheckpointsStay(c, Rewound(c, s, k, scope), events);
    RestoreGivesBackStorable(c, s.files);
    var undo := Rewound(c, s, k, scope).checkpoints[|s.checkpoints|];
    assert Run(c, Rewound(c, s, k, scope), events).value.checkpoints[|s.checkpoints|] == undo;
    hide Restored; hide Snapshot;
  }

  // ---------------------------------------------------------------- the visible log

  /** The items of a log that satisfy a bound, as Visible keeps them. */
  lemma {:induction false} VisibleIsFilter(log: seq<nat>, until: Option<nat>, hiddenUntil: Option<nat>, item: nat)
    ensures item in Visible(log, until, hiddenUntil) <==> item in log && Shown(item, until, hiddenUntil)
  {
    if log != [] {
      VisibleIsFilter(log[..|log| - 1], until, hiddenUntil, item);
      assert log == log[..|log| - 1] + [log[|log| - 1]];
    }
  }

  lemma {:induction false} VisibleRises(log: seq<nat>, until: Option<nat>, hiddenUntil: Option<nat>)
    requires Rising(log)
    ensures Rising(Visible(log, until, hiddenUntil))
    ensures forall i :: 0 <= i < |Visible(log, until, hiddenUntil)| ==>
      Visible(log, until, hiddenUntil)[i] <= LastSeq(log)
  {
    if log != [] {
      VisibleRises(log[..|log| - 1], until, hiddenUntil);
    }
  }

  /** After any appends and rewinds the log shows what the last target keeps and what came after the first rewind. */
  lemma VisibleAfterRewinds(c: Codec, s: Session, item: nat)
    requires Reachable(c, s)
    ensures Rising(Visible(s.log, s.until, s.hiddenUntil))
    ensures item in Visible(s.log, s.until, s.hiddenUntil) <==>
      item in s.log && (s.marks == [] || item <= s.marks[|s.marks| - 1].target || item > s.marks[0].high)
  {
    ReachableInv(c, s);
    VisibleIsFilter(s.log, s.until, s.hiddenUntil, item);
    VisibleRises(s.log, s.until, s.hiddenUntil);
    hide CheckpointsOk; hide Visible;
  }

  /** An item added after the first rewind is never hidden again. */
  lemma {:induction false} LaterItemsStay(c: Codec, s: Session, item: nat, events: seq<Event>)
    requires Inv(c, s) && s.hiddenUntil.Some? && item in s.log && item > s.hiddenUntil.value && Run(c, s, events).Some?
    ensures var later := Run(c, s, events).value; item in Visible(later.log, later.until, later.hiddenUntil)
    decreases |events|
  {
    if events == [] {
      VisibleIsFilter(s.log, s.until, s.hiddenUntil, item);
    } else {
      StepKeepsInv(c, s, events[0]);
      HighWaterStays(c, s, events[0], item);
      hide Inv; hide Step; hide Visible;
      LaterItemsStay(c, Step(c, s, events[0]), item, events[1..]);
    }
  }

  lemma HighWaterStays(c: Codec, s: Session, e: Event, item: nat)
    requires Enabled(s, e)
    ensures s.hiddenUntil.Some? ==> Step(c, s, e).hiddenUntil == s.hiddenUntil
    ensures item in s.log ==> item in Step(c, s, e).log
  {
    hide Snapshot; hide Restored;
  }

  /**
   A rewind truncates the log to its target, as if the later items were gone, exactly when none
   came after the first rewind and the target.
   */
  lemma RewindTruncatesExactly(c: Codec, s: Session, k: nat, scope: Scope)
    requires Reachable(c, s) && k < |s.checkpoints|
    ensures var after, target := Rewound(c, s, k, scope), s.checkpoints[k].itemsSeq;
      (forall item :: item in Visible(after.log, after.until, after.hiddenUntil) <==> item in s.log && item <= target)
      <==> s.hiddenUntil.None? || forall item :: item in s.log && item > s.hiddenUntil.value ==> item <= target
  {
    ReachableInv(c, s);
    var after, target := Rewound(c, s, k, scope), s.checkpoints[k].itemsSeq;
    forall item
      ensures item in Visible(after.log, after.until, after.hiddenUntil) <==>
        item in s.log && Shown(item, after.until, after.hiddenUntil)
    {
      VisibleIsFilter(after.log, after.until, after.hiddenUntil, item);
    }
    assert forall item :: item in s.log ==> item <= LastSeq(s.log);
    hide Visible; hide CheckpointsOk; hide Restored; hide Snapshot;
  }

  lemma ReachableStep(c: Codec, s: Session, e: Event)
    requires Reachable(c, s) && Enabled(s, e)
    ensures Reachable(c, Step(c, s, e))
  {
    var files: Files, events: seq<Event> :| Run(c, New(files), events) == Some(s);
    RunAppend(c, New(files), events, e);
    hide Step; hide Enabled; hide Run;
  }

  lemma {:induction false} RunAppend(c: Codec, s: Session, events: seq<Event>, e: Event)
    requires Run(c, s, events).Some? && Enabled(Run(c, s, events).value, e)
    ensures Run(c, s, events + [e]) == Some(Step(c, Run(c, s, events).value, e))
    decreases |events|
  {
    hide Step;
    if events == [] {
      assert [e][1..] == [] && [] + [e] == [e];
    } else {
      assert (events + [e])[1..] == events[1..] + [e];
      RunAppend(c, Step(c, s, events[0]), events[1..], e);
    }
  }

  /** One item, a snapshot and another item. */
  lemma ItemSnapshotItem(c: Codec, files: Files) returns (s: Session)
    ensures Reachable(c, s) && s.log == [1, 2] && s.until == None && s.hiddenUntil == None && s.marks == []
    ensures |s.checkpoints| == 1 && s.checkpoints[0].itemsSeq == 1
  {
    s := New(files);
    assert Run(c, New(files), []) == Some(s);
    hide Reachable; hide Run; hide Snapshot; hide Restored;
    ReachableStep(c, s, Append(1)); s := Step(c, s, Append(1));
    ReachableStep(c, s, TakeSnapshot); s := Step(c, s, TakeSnapshot);
    ReachableStep(c, s, Append(2)); s := Step(c, s, Append(2));
  }

  /** Then a rewind, an item and the same rewind again: the last item stays in view. */
  lemma SecondRewindKeepsLaterItem(c: Codec, files: Files) returns (s: Session)
    ensures Reachable(c, s) && s.log == [1, 2, 3] && s.marks == [Mark(1, 2), Mark(1, 3)]
    ensures 1 in Visible(s.log, s.until, s.hiddenUntil) && 2 !in Visible(s.log, s.until, s.hiddenUntil)
    ensures 3 in Visible(s.log, s.until, s.hiddenUntil)
  {
    s := ItemSnapshotItem(c, files);
    hide Reachable; hide Run; hide Snapshot; hide Restored;
    ReachableStep(c, s, Rewind(0, Both, true, true)); s := Step(c, s, Rewind(0, Both, true, true));
    ReachableStep(c, s, Append(3)); s := Step(c, s, Append(3));
    ReachableStep(c, s, Rewind(0, Both, true, true)); s := Step(c, s, Rewind(0, Both, true, true));
    hide Step; hide Visible;
    VisibleIsFilter(s.log, s.until, s.hiddenUntil, 1);
    VisibleIsFilter(s.log, s.until, s.hiddenUntil, 2);
    VisibleIsFilter(s.log, s.until, s.hiddenUntil, 3);
  }

  lemma OneOfTwo()
    ensures Visible([1, 2], Some(1), Some(2)) == [1]
  {
    assert [1, 2][..1] == [1] && [1][..0] == [];
    assert Visible([1], Some(1), Some(2)) == [1];
  }

  /** A rewind of the code alone takes a conversation item out of view. */
  lemma CodeRewindHidesItem(c: Codec, files: Files) returns (s: Session)
    ensures Reachable(c, s) && s.log == [1, 2] && s.marks == [Mark(1, 2)]
    ensures Visible(s.log, s.until, s.hiddenUntil) == [1]
  {
    s := ItemSnapshotItem(c, files);
    hide Reachable; hide Run; hide Snapshot; hide Restored;
    hide Visible;
    ReachableStep(c, s, Rewind(0, Code, true, false)); s := Step(c, s, Rewind(0, Code, true, false));
    OneOfTwo();
  }
}
