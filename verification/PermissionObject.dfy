/**
 The PermissionStore object (appserver/permission.py:87-578), its loops included,
 proved against module Permissions.
 */
module PermissionStores {
  import opened Wrappers
  import opened Permissions
  import Text

  class PermissionStore {
    const persistent: bool
    var profile: Profile
    var version: nat
    var scopes: seq<Grant>
    var writableRoots: seq<Path>
    var network: bool
    var audit: seq<Record>
    var file: Option<Data>
    var live: map<nat, Record>
    var rejectStreak: map<string, nat>
    var sessionPolicy: Option<Profile>
    var fullAccess: bool
    ghost var outcomes: seq<(string, bool)>
    ghost var honoured: seq<nat>
    ghost var used: set<nat>

    ghost function Kept(): Data
      reads `profile, `version, `scopes, `writableRoots, `network, `audit
    {
      Data(profile, version, scopes, writableRoots, network, audit)
    }

    ghost function View(): Store
      reads this
    {
      Store(Kept(), file, persistent, live, rejectStreak, sessionPolicy, fullAccess, outcomes, honoured, used)
    }

    ghost predicate Valid()
      reads this
    {
      Inv(View())
    }

    constructor (persistent: bool)
      ensures Valid() && View() == Permissions.Fresh(persistent)
    {
      this.persistent := persistent;
      profile, version, scopes, writableRoots, network, audit := AskEach, 1, [], [], false, [];
      file, live, rejectStreak, sessionPolicy, fullAccess := None, map[], map[], None, false;
      outcomes, honoured, used := [], [], {};
      new;
      FreshInv(persistent);
    }

    function Active(): Profile
      reads `sessionPolicy, `profile
    {
      ActivePolicy(sessionPolicy, profile)
    }

    /** Every row is written as spent. */
    method Save()
      modifies `file
      ensures file == Saved(persistent, old(file), Kept())
    {
      if persistent {
        var rows: seq<Record> := [];
        for i := 0 to |audit|
          invariant rows == AllConsumed(audit)[..i]
        {
          rows := rows + [audit[i].(consumed := true)];
        }
        assert rows == AllConsumed(audit);
        file := Some(Data(profile, version, scopes, writableRoots, network, rows));
      }
    }

    method ScopeGranted(action: string, scope: Option<Path>, project: Option<string>, now: int) returns (granted: bool)
      ensures granted <==> exists g :: g in scopes && Grants(g, action, scope, project, now)
    {
      for i := 0 to |scopes|
        invariant forall j :: 0 <= j < i ==> !Grants(scopes[j], action, scope, project, now)
      {
        if Grants(scopes[i], action, scope, project, now) {
          return true;
        }
      }
      return false;
    }

    /** Some root is outside every root that may already be written. */
    method AnyOutside(roots: seq<Path>) returns (outside: bool)
      ensures outside <==> exists r :: r in roots && forall w :: w in writableRoots ==> !Compatible(Some(w), Some(r))
    {
      for i := 0 to |roots|
        invariant forall k :: 0 <= k < i ==> exists w :: w in writableRoots && Compatible(Some(w), Some(roots[k]))
      {
        var inside := false;
        for j := 0 to |writableRoots|
          invariant inside <==> exists k :: 0 <= k < j && Compatible(Some(writableRoots[k]), Some(roots[i]))
        {
          if Compatible(Some(writableRoots[j]), Some(roots[i])) {
            inside := true;
          }
        }
        if !inside {
          return true;
        }
      }
      return false;
    }

    method AutoReviewExpands(actor: string, expand: bool, roots: seq<Path>, net: bool) returns (expands: bool)
      ensures expands == Expands(Kept(), actor, expand, roots, net)
    {
      if actor != AUTO_REVIEW {
        return false;
      }
      if expand || (net && !network) {
        return true;
      }
      expands := AnyOutside(roots);
    }

    method DecideNow(d: Decision, id: nat) returns (allow: bool)
      modifies this
      ensures View() == Decided(old(View()), d, id)
      ensures allow == Final(old(Kept()), old(sessionPolicy), d)
    {
      var policy := Active();
      allow := d.allow;
      if allow && !Writable(policy) && !Reads(d.action) {
        allow := false;
      }
      if d.actor == AUTO_REVIEW && allow {
        var expands := AutoReviewExpands(d.actor, d.expand, [], false);
        if !Reads(d.action) || expands {
          allow := false;
        }
      }
      hide Expands;
      File(d, id, allow);
      hide Final; hide Row; hide Saved;
    }

    /** The row, the open approval, the streak and the file of a decision. */
    method File(d: Decision, id: nat, allow: bool)
      requires allow == Final(Kept(), sessionPolicy, d)
      modifies `audit, `file, `live, `rejectStreak, `outcomes, `used
      ensures View() == Decided(old(View()), d, id)
    {
      var rejects := if allow then 0 else StreakOf(rejectStreak, d.session) + 1;
      var row := MakeRow(d, id, allow, rejects);
      hide Final; hide Row; hide Saved; hide StreakOf; hide Kept;
      Append(row);
      live := if allow && !d.consumed then live[id := row] else live;
      Count(d.session, allow, rejects, id);
    }

    method Count(session: string, allow: bool, rejects: nat, id: nat)
      modifies `rejectStreak, `outcomes, `used
      ensures rejectStreak == old(rejectStreak)[session := rejects]
      ensures outcomes == old(outcomes) + [(session, allow)] && used == old(used) + {id}
    {
      rejectStreak := rejectStreak[session := rejects];
      outcomes, used := outcomes + [(session, allow)], used + {id};
    }

    method MakeRow(d: Decision, id: nat, allow: bool, rejects: nat) returns (row: Record)
      requires allow == Final(Kept(), sessionPolicy, d)
      ensures row == Row(Kept(), sessionPolicy, d, id, rejects)
    {
      row := Record(id, d.session, d.action, d.actor, d.scope, d.project, TurnOf(d.turn, d.session), allow,
                    Active(), version, d.expires, false, d.consumed, rejects >= THRESHOLD);
      hide Final;
    }

    method Append(row: Record)
      modifies `audit, `file
      ensures Kept() == old(Kept()).(audit := old(audit) + [row])
      ensures file == Saved(persistent, old(file), Kept())
    {
      audit := audit + [row];
      Save();
      hide Saved;
    }

    method MarkConsumed(id: nat)
      modifies `audit, `file
      ensures Kept() == old(Kept()).(audit := Consume(old(audit), id))
      ensures file == Saved(persistent, old(file), Kept())
    {
      var rows: seq<Record> := [];
      for i := 0 to |audit|
        invariant rows == Consume(audit, id)[..i]
      {
        rows := rows + [if audit[i].id == id then audit[i].(consumed := true) else audit[i]];
      }
      assert rows == Consume(audit, id);
      audit := rows;
      Save();
      hide Saved; hide Consume;
    }

    /** The first row with the id, as an index. */
    method FindRow(id: nat) returns (at: Option<nat>)
      ensures at.None? <==> FirstRow(audit, id).None?
      ensures at.Some? ==> at.value < |audit| && FirstRow(audit, id) == Some(audit[at.value])
      ensures at.Some? ==>
        RevokeFirst(audit, id) == audit[at.value := audit[at.value].(revoked := true, consumed := true)]
    {
      for i := 0 to |audit|
        invariant forall j :: 0 <= j < i ==> audit[j].id != id
      {
        if audit[i].id == id {
          FirstAt(audit, id, i);
          return Some(i);
        }
      }
      NoFirst(audit, id);
      return None;
    }

    method RevokeNow(id: nat) returns (known: bool)
      modifies this
      ensures View() == Revoked(old(View()), id)
      ensures known <==> exists i :: 0 <= i < |old(audit)| && old(audit)[i].id == id
    {
      live := live - {id};
      FirstRowIsRow(audit, id);
      var at := FindRow(id);
      known := at.Some?;
      if known {
        audit := audit[at.value := audit[at.value].(revoked := true, consumed := true)];
        Save();
      }
      hide FirstRow; hide RevokeFirst; hide Saved;
    }

    method BumpVersion()
      modifies `version, `file
      ensures version == old(version) + 1
      ensures file == Saved(persistent, old(file), Kept())
    {
      version := version + 1;
      Save();
      hide Saved;
    }

    method SetProfileTo(p: Profile, grants: Option<seq<Grant>>) returns (ok: bool)
      modifies `profile, `scopes, `version, `file
      ensures View() == Step(old(View()), SetProfile(p, grants))
      ensures ok <==> p != FullAccess
    {
      ok := p != FullAccess;
      if ok {
        profile := p;
        if grants.Some? {
          scopes := grants.value;
        }
        BumpVersion();
      }
      hide Saved;
    }

    method EnableFullAccess(actor: string) returns (ok: bool)
      modifies `fullAccess
      ensures View() == Step(old(View()), EnableFull(actor))
      ensures ok <==> !Text.Blank(actor)
    {
      hide Text.Strip; hide Text.Blank;
      Text.StripOfBlank(actor);
      ok := Text.Strip(actor) != "";
      fullAccess := fullAccess || ok;
    }

    method ApplyUiPreset(preset: Preset) returns (ok: bool)
      modifies `sessionPolicy, `profile, `version, `file
      ensures View() == Step(old(View()), ApplyPreset(preset))
      ensures ok <==> preset != Full || fullAccess
    {
      hide Saved;
      ok := preset != Full || fullAccess;
      if ok {
        sessionPolicy := Some(PolicyOf(preset));
        if preset == Ask {
          profile := AskEach;
          BumpVersion();
        }
      }
    }

    method GrantScopeNow(grant: Grant)
      modifies `scopes, `version, `file
      ensures View() == Step(old(View()), GrantScope(grant))
    {
      scopes := scopes + [grant];
      BumpVersion();
      hide Saved;
    }

    /** An approval that covers the call is spent. */
    method Spend(id: nat, session: string)
      modifies this
      ensures View() == old(var s := View();
        var data := s.data.(audit := Consume(s.data.audit, id));
        s.(data := data, disk := Saved(s.persistent, s.disk, data), live := s.live - {id},
           streak := if session == "" then s.streak else s.streak[session := 0],
           outcomes := s.outcomes + [(session, true)], honoured := s.honoured + [id]))
    {
      hide Saved; hide Consume;
      live := live - {id};
      MarkConsumed(id);
      if session != "" {
        rejectStreak := rejectStreak[session := 0];
      }
      outcomes, honoured := outcomes + [(session, true)], honoured + [id];
    }

    /** The approval named by the call: an open one, or the first row with the id. */
    method Lookup(id: nat) returns (found: Option<Record>)
      ensures found == Found(live, audit, id)
    {
      if id in live {
        return Some(live[id]);
      }
      var at := FindRow(id);
      found := if at.Some? then Some(audit[at.value]) else None;
    }

    /** The verdict of a call without a usable approval. */
    method JudgeCall(call: Call, now: int) returns (allow: bool)
      requires !Honours(View(), call, now)
      ensures allow == Judge(View(), call, now).0
    {
      if Guard(call).Some? || call.approval.Some? {
        return false;
      }
      var expands := AutoReviewExpands(call.actor, call.expand, call.roots, call.network);
      if call.actor == AUTO_REVIEW && (!Reads(call.action) || expands) {
        return false;
      }
      if Reads(call.action) {
        return true;
      }
      var policy := Active();
      if Asks(policy) {
        return false;
      } else if policy == WorkspaceWrite {
        var root := if call.workspace.Some? then call.workspace else call.scope;
        return root.Some? && Compatible(root, if call.scope.Some? then call.scope else root);
      } else if policy == AllowScoped {
        allow := ScopeGranted(call.action, call.scope, call.project, now);
      } else {
        return true;
      }
      hide Grants; hide Compatible; hide Expands;
    }

    method EvaluateCall(call: Call, id: nat, now: int) returns (allow: bool)
      modifies this
      ensures View() == Evaluated(old(View()), call, id, now)
      ensures allow == Verdict(old(View()), call, now)
    {
      hide Refusal; hide Saved; hide Consume; hide Decided; hide Expands; hide Judge;
      if Guard(call).None? && call.approval.Some? {
        var found := Lookup(call.approval.value);
        var refused := CheckApproval(found, call, now);
        if !refused {
          Spend(call.approval.value, call.session.value);
          return true;
        }
      }
      allow := JudgeCall(call, now);
      var _ := DecideNow(Trace(call, allow), id);
    }

    method CheckApproval(found: Option<Record>, call: Call, now: int) returns (refused: bool)
      ensures refused == Refusal(Kept(), found, call, now).Some?
      ensures !refused ==> call.session.Some?
    {
      var expands := AutoReviewExpands(call.actor, call.expand, call.roots, call.network);
      if found.None? {
        return true;
      }
      var m := found.value;
      refused := m.revoked || m.consumed || !m.allow || m.action != call.action || m.version != version
        || Expired(m.expires, now)
        || call.session.None? || m.session != call.session.value
        || (call.turn.Some? && m.turn != call.turn.value)
        || !Compatible(m.scope, call.scope) || m.project != call.project || m.actor != call.actor
        || (call.workspace.Some? && m.scope.Some? && !Compatible(call.workspace, m.scope))
        || (call.workspace.Some? && call.scope.Some? && !Compatible(call.workspace, call.scope))
        || (call.actor == AUTO_REVIEW && (!Reads(call.action) || expands));
      hide Expands; hide Compatible; hide Expired; hide Reads;
    }

    /** What a new process starts from. */
    method Reload()
      modifies `profile, `version, `scopes, `writableRoots, `network, `audit, `live
      modifies `rejectStreak, `sessionPolicy, `fullAccess, `outcomes
      ensures View() == Restarted(old(View()))
    {
      hide AllConsumed; hide Kept;
      Load(if persistent && file.Some? then file.value.(audit := AllConsumed(file.value.audit)) else DEFAULTS);
      Forget();
    }

    method Forget()
      modifies `live, `rejectStreak, `sessionPolicy, `fullAccess, `outcomes
      ensures live == map[] && rejectStreak == map[] && sessionPolicy == None && !fullAccess && outcomes == []
    {
      live, rejectStreak, sessionPolicy, fullAccess, outcomes := map[], map[], None, false, [];
    }

    method Load(d: Data)
      modifies `profile, `version, `scopes, `writableRoots, `network, `audit
      ensures Kept() == d
    {
      profile, version, scopes := d.profile, d.version, d.grants;
      writableRoots, network, audit := d.roots, d.network, d.audit;
    }

    /** Any one operation of the store. */
    method Perform(e: Event)
      requires Valid() && Enabled(View(), e)
      modifies this
      ensures Valid() && View() == Step(old(View()), e)
    {
      StepKeepsInv(View(), e);
      hide Inv; hide Decided; hide Revoked; hide Evaluated; hide Restarted; hide NewPolicy; hide Applied; hide Final;
      hide Verdict;
      match e
      case Decide(d, id) => { var _ := DecideNow(d, id); }
      case Revoke(id) => { var _ := RevokeNow(id); }
      case SetProfile(p, grants) => { var _ := SetProfileTo(p, grants); }
      case ApplyPreset(preset) => { var _ := ApplyUiPreset(preset); }
      case EnableFull(actor) => { var _ := EnableFullAccess(actor); }
      case GrantScope(grant) => { GrantScopeNow(grant); }
      case Evaluate(call, id, now) => { var _ := EvaluateCall(call, id, now); }
      case Restart => { Reload(); }
    }
  }

  lemma {:induction false} NoFirst(rows: seq<Record>, id: nat)
    requires forall i :: 0 <= i < |rows| ==> rows[i].id != id
    ensures FirstRow(rows, id).None?
  {
    if rows != [] {
      NoFirst(rows[1..], id);
    }
  }

  lemma {:induction false} FirstAt(rows: seq<Record>, id: nat, i: nat)
    requires i < |rows| && rows[i].id == id && forall j :: 0 <= j < i ==> rows[j].id != id
    ensures FirstRow(rows, id) == Some(rows[i])
    ensures RevokeFirst(rows, id) == rows[i := rows[i].(revoked := true, consumed := true)]
  {
    if i > 0 {
      assert forall j :: 0 <= j < i - 1 ==> rows[1..][j] == rows[j + 1];
      FirstAt(rows[1..], id, i - 1);
    }
  }
}
