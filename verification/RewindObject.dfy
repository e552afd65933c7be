/**
 The checkpoint store and rewind service as objects (appserver/review.py:567-676,
 appserver/checkpoint_rewind.py:47-155), loops included, proved against module Rewinding.
 */
module RewindServices {
  import opened Wrappers
  import opened Rewinding

  class RewindService {
    const codec: Codec
    /** The workspace. */
    var files: Files
    var checkpoints: seq<Checkpoint>
    /** Sequence numbers of the session's items. */
    var log: seq<nat>
    var until: Option<nat>
    var hiddenUntil: Option<nat>
    ghost var originals: seq<Files>
    ghost var marks: seq<Mark>

    ghost function View(): Session
      reads this
    {
      Session(files, checkpoints, log, until, hiddenUntil, originals, marks)
    }

    ghost predicate Valid()
      reads this
    {
      Inv(codec, View())
    }

    constructor (codec: Codec, files: Files)
      ensures Valid() && View() == New(files) && this.codec == codec
    {
      this.codec, this.files := codec, files;
      checkpoints, log, until, hiddenUntil, originals, marks := [], [], None, None, [], [];
    }

    /** Reads every file; binary and long ones are left out. */
    method ReadFiles() returns (stored: map<string, string>)
      ensures stored == Snapshot(codec, files)
    {
      var names := files.Keys;
      stored := map[];
      while names != {}
        invariant names <= files.Keys
        invariant stored == Snapshot(codec, files - names)
        decreases |names|
      {
        var path :| path in names;
        names := names - {path};
        if Taken(files[path]) {
          stored := stored[path := codec.decode(files[path])];
        }
      }
      assert files - names == files;
    }

    method DeleteOthers(kept: set<string>)
      modifies `files
      ensures files.Keys <= kept
    {
      var names := files.Keys - kept;
      while names != {}
        invariant names == files.Keys - kept && files.Keys <= kept + names
        decreases |names|
      {
        var path :| path in names;
        names, files := names - {path}, files - {path};
      }
    }

    /** Deletes what is not stored, then writes what is. */
    method WriteFiles(stored: map<string, string>)
      modifies `files
      ensures files == Restored(codec, stored)
    {
      DeleteOthers(stored.Keys);
      var names := stored.Keys;
      while names != {}
        invariant names <= stored.Keys && files.Keys <= stored.Keys
        invariant forall path :: path in stored.Keys - names ==>
          path in files && files[path] == codec.encode(stored[path])
        decreases |names|
      {
        var path :| path in names;
        names, files := names - {path}, files[path := codec.encode(stored[path])];
      }
      assert files.Keys == stored.Keys;
    }

    method Edit(files': Files)
      requires Valid()
      modifies `files
      ensures Valid() && View() == Step(codec, old(View()), Event.Edit(files'))
    {
      files := files';
    }

    method Append(item: nat)
      requires Valid() && item > LastSeq(log)
      modifies `log
      ensures Valid() && View() == Step(codec, old(View()), Event.Append(item))
    {
      StepKeepsInv(codec, View(), Event.Append(item));
      log := log + [item];
      hide Inv;
    }

    method CreateCheckpoint()
      requires Valid()
      modifies `checkpoints, `originals
      ensures Valid() && View() == Checked(codec, old(View()))
    {
      StepKeepsInv(codec, View(), TakeSnapshot);
      var stored := ReadFiles();
      checkpoints := checkpoints + [Checkpoint(stored, LastSeq(log))];
      originals := originals + [files];
      hide Inv; hide Snapshot;
    }

    /** The read surface: what the projection leaves of the log, in order. */
    method VisibleItems() returns (shown: seq<nat>)
      ensures shown == Visible(log, until, hiddenUntil)
    {
      shown := [];
      for i := 0 to |log|
        invariant shown == Visible(log[..i], until, hiddenUntil)
      {
        assert log[..i + 1][..i] == log[..i];
        if until.None? || log[i] <= until.value || (hiddenUntil.Some? && log[i] > hiddenUntil.value) {
          shown := shown + [log[i]];
        }
      }
      assert log[..|log|] == log;
    }

    /** A refused rewind changes nothing; the count returned is how many items left the read surface. */
    method Rewind(k: nat, scope: Scope, confirmed: bool, prefixRewound: bool) returns (ok: bool, truncated: nat)
      requires Valid()
      modifies `files, `checkpoints, `until, `hiddenUntil, `originals, `marks
      ensures Valid() && View() == Step(codec, old(View()), Event.Rewind(k, scope, confirmed, prefixRewound))
      ensures ok <==> !Refused(old(View()), Event.Rewind(k, scope, confirmed, prefixRewound))
      ensures ok ==>
        truncated == Dropped(|Visible(log, old(until), old(hiddenUntil))|, |Visible(log, until, hiddenUntil)|)
    {
      StepKeepsInv(codec, View(), Event.Rewind(k, scope, confirmed, prefixRewound));
      hide Inv; hide Restored; hide Snapshot; hide Visible;
      ok, truncated := false, 0;
      if confirmed && k < |checkpoints| && (scope == Code || prefixRewound) {
        ok := true;
        var target := checkpoints[k];
        CreateCheckpoint();
        if scope != Conversation {
          WriteFiles(target.stored);
        }
        var before := VisibleItems();
        Project(target.itemsSeq);
        var after := VisibleItems();
        truncated := Dropped(|before|, |after|);
      }
    }

    method Project(target: nat)
      modifies `until, `hiddenUntil, `marks
      ensures until == Some(target) && marks == old(marks) + [Mark(target, LastSeq(log))]
      ensures hiddenUntil == if old(hiddenUntil).None? then Some(LastSeq(log)) else old(hiddenUntil)
    {
      until, marks := Some(target), marks + [Mark(target, LastSeq(log))];
      if hiddenUntil.None? {
        hiddenUntil := Some(LastSeq(log));
      }
    }
  }

  function Dropped(before: nat, after: nat): nat { if before > after then before - after else 0 }
}
