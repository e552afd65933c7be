/**
 What the permission store owes its callers, written down apart from the code
 (appserver/permission.py:181-578): who may do what, and when.  The store's verdicts,
 decisions and profile changes are proved to be these.
 */
module PermissionRules {
  import opened Wrappers
  import opened Permissions
  import Text

  // ---------------------------------------------------------------- the rules

  /** Looking at a file or a directory. */
  predicate OnlyLooks(action: string) { action == "read" || action == "list" }

  /** The path lies in the directory, or is it. */
  predicate Inside(path: Path, directory: Path) {
    |directory| <= |path| && forall i :: 0 <= i < |directory| ==> path[i] == directory[i]
  }

  /** What was given for a scope reaches what is asked for. */
  predicate Reaches(given: Option<Path>, asked: Option<Path>) {
    if given.None? then asked.None? else asked.Some? && Inside(asked.value, given.value)
  }

  /** A call bound to a workspace names a scope in it. */
  predicate StaysHome(call: Call) {
    call.workspace.Some? ==> call.scope.Some? && Inside(call.scope.value, call.workspace.value)
  }

  /** Every writable root the call asks for lies in one the store has. */
  predicate RootsCovered(data: Data, roots: seq<Path>) {
    forall i :: 0 <= i < |roots| ==> exists j :: 0 <= j < |data.roots| && Inside(roots[i], data.roots[j])
  }

  /** Automatic review may look, and ask for nothing beyond what the store has. */
  predicate AutoReviewMay(data: Data, call: Call) {
    call.actor == "auto_review" ==>
      OnlyLooks(call.action) && !call.expand && (call.network ==> data.network) && RootsCovered(data, call.roots)
  }

  /** The approval a call brings is open and was given for this. */
  predicate Approved(s: Store, call: Call, now: int) {
    && call.approval.Some? && call.approval.value in s.live
    && var m := s.live[call.approval.value];
    && m.action == call.action && m.actor == call.actor && m.project == call.project
    && call.session == Some(m.session) && (call.turn.Some? ==> call.turn.value == m.turn)
    && Reaches(m.scope, call.scope)
    && (call.workspace.Some? && m.scope.Some? ==> Inside(m.scope.value, call.workspace.value))
    && m.version == s.data.version && (m.expires.Some? ==> now <= m.expires.value)
  }

  /** A grant is for this action, project, time and path. */
  predicate Covered(g: Grant, call: Call, now: int) {
    && (g.action.Some? ==> g.action.value == "" || g.action.value == "*" || g.action.value == call.action)
    && g.project == call.project && (g.expires.Some? ==> now <= g.expires.value) && Reaches(g.scope, call.scope)
  }

  /** The profile a call is judged by: a preset of this process, or else the stored one. */
  function InForce(s: Store): Profile { if s.session == None then s.data.profile else s.session.value }

  /** What a profile lets a call do that does more than look and brings no approval. */
  predicate Permitted(p: Profile, data: Data, call: Call, now: int) {
    match p
    case ReadOnly => false
    case AskEach => false
    case WorkspaceWrite => call.workspace.Some? || call.scope.Some?
    case AllowScoped => exists i :: 0 <= i < |data.grants| && Covered(data.grants[i], call, now)
    case FullAccess => true
  }

  predicate Allowed(s: Store, call: Call, now: int) {
    && StaysHome(call) && AutoReviewMay(s.data, call)
    && if call.approval.Some? then Approved(s, call, now)
       else OnlyLooks(call.action) || Permitted(InForce(s), s.data, call, now)
  }

  // ---------------------------------------------------------------- the store keeps them

  lemma CompatibleIsReaches(given: Option<Path>, asked: Option<Path>)
    ensures Compatible(given, asked) <==> Reaches(given, asked)
  {}

  lemma GuardIsStaysHome(call: Call)
    ensures Guard(call).None? <==> StaysHome(call)
  {
    if call.workspace.Some? {
      CompatibleIsReaches(call.workspace, call.scope);
    }
    hide Compatible; hide Inside;
  }

  lemma OverstepsExactly(data: Data, call: Call)
    ensures AutoReviewOversteps(data, call) <==> !AutoReviewMay(data, call)
  {
    forall r: Path, w: Path ensures Compatible(Some(w), Some(r)) <==> Inside(r, w) {
      CompatibleIsReaches(Some(w), Some(r));
    }
    hide Compatible; hide Inside;
    if RootsCovered(data, call.roots) {
      forall r | r in call.roots ensures exists w :: w in data.roots && Compatible(Some(w), Some(r)) {
        var i :| 0 <= i < |call.roots| && call.roots[i] == r;
        var j :| 0 <= j < |data.roots| && Inside(r, data.roots[j]);
        assert data.roots[j] in data.roots;
      }
    } else {
      var i :| 0 <= i < |call.roots| && !exists j :: 0 <= j < |data.roots| && Inside(call.roots[i], data.roots[j]);
      assert call.roots[i] in call.roots;
      forall w | w in data.roots ensures !Compatible(Some(w), Some(call.roots[i])) {
        var j :| 0 <= j < |data.roots| && data.roots[j] == w;
      }
    }
  }

  lemma CoversIsApproved(s: Store, call: Call, now: int)
    requires call.approval.Some? && call.approval.value in s.live
    ensures Covers(s.data, s.live[call.approval.value], call, now) <==> Approved(s, call, now)
  {
    var m := s.live[call.approval.value];
    CompatibleIsReaches(m.scope, call.scope);
    CompatibleIsReaches(call.workspace, m.scope);
    hide Compatible; hide Inside;
  }

  /** An approval is honoured exactly when it is open, was given for the call, and the call may be made with it. */
  lemma HonouredExactlyWhenApproved(s: Store, call: Call, now: int)
    requires Inv(s)
    ensures Honours(s, call, now) <==> Approved(s, call, now) && StaysHome(call) && AutoReviewMay(s.data, call)
  {
    HonouredExactly(s, call, now);
    if call.approval.Some? && call.approval.value in s.live {
      CoversIsApproved(s, call, now);
    }
    GuardIsStaysHome(call);
    OverstepsExactly(s.data, call);
    hide Inv; hide Honours; hide Covers; hide Guard; hide AutoReviewOversteps; hide StaysHome; hide AutoReviewMay;
  }

  lemma GrantedIsCovered(data: Data, call: Call, now: int)
    ensures (exists g :: g in data.grants && Grants(g, call.action, call.scope, call.project, now)) <==>
      exists i :: 0 <= i < |data.grants| && Covered(data.grants[i], call, now)
  {
    forall g: Grant ensures Grants(g, call.action, call.scope, call.project, now) <==> Covered(g, call, now) {
      CompatibleIsReaches(g.scope, call.scope);
      hide Compatible; hide Inside;
    }
    hide Grants; hide Covered;
    if g :| g in data.grants && Grants(g, call.action, call.scope, call.project, now) {
      var i :| 0 <= i < |data.grants| && data.grants[i] == g;
      assert Covered(data.grants[i], call, now);
    }
    if i :| 0 <= i < |data.grants| && Covered(data.grants[i], call, now) {
      assert data.grants[i] in data.grants;
    }
  }

  lemma ProfilePermits(s: Store, call: Call, now: int)
    requires StaysHome(call)
    ensures ByProfile(s.data, s.session, call, now).0 <==> Permitted(InForce(s), s.data, call, now)
  {
    GrantedIsCovered(s.data, call, now);
    var root := if call.workspace.Some? then call.workspace else call.scope;
    CompatibleIsReaches(root, if call.scope.Some? then call.scope else root);
    hide Compatible; hide Grants; hide Covered;
  }

  /** A call of any run is allowed exactly when the rules allow it. */
  lemma VerdictExactly(s: Store, call: Call, now: int)
    requires Reachable(s)
    ensures Verdict(s, call, now) <==> Allowed(s, call, now)
  {
    ReachableInv(s);
    HonouredExactlyWhenApproved(s, call, now);
    GuardIsStaysHome(call);
    OverstepsExactly(s.data, call);
    if StaysHome(call) {
      ProfilePermits(s, call, now);
    }
    hide Inv; hide Honours; hide Guard; hide AutoReviewOversteps; hide ByProfile; hide Permitted; hide StaysHome;
    hide AutoReviewMay; hide Refusal; hide Found; hide Approved; hide Reachable;
  }

  /**
   So a call that does more than look, keeps to its workspace and is not automatic review's:
   while each risky action is asked for, only a given approval lets it through; without an
   approval the read-only profile and the asking one refuse it, the workspace profile wants
   a workspace or a scope, the scoped one a grant that covers it, and full access lets it pass.
   */
  lemma RiskyCallByProfile(s: Store, call: Call, now: int)
    requires Reachable(s) && !OnlyLooks(call.action) && StaysHome(call) && call.actor != "auto_review"
    ensures InForce(s) == AskEach ==> (Verdict(s, call, now) <==> Honours(s, call, now))
    ensures call.approval.None? ==>
      && (InForce(s) == ReadOnly || InForce(s) == AskEach ==> !Verdict(s, call, now))
      && (InForce(s) == WorkspaceWrite ==>
            (Verdict(s, call, now) <==> call.workspace.Some? || call.scope.Some?))
      && (InForce(s) == AllowScoped ==>
            (Verdict(s, call, now) <==>
             exists i :: 0 <= i < |s.data.grants| && Covered(s.data.grants[i], call, now)))
      && (InForce(s) == FullAccess ==> Verdict(s, call, now))
  {
    VerdictExactly(s, call, now);
    ReachableInv(s);
    HonouredExactlyWhenApproved(s, call, now);
    hide Inv; hide Honours; hide Verdict; hide Covered; hide Approved; hide StaysHome; hide Reachable;
  }

  /** Asked for or not, an asking profile lets nothing risky through but what was approved. */
  lemma AskingWaitsForApproval(s: Store, call: Call, now: int)
    requires Reachable(s) && InForce(s) == AskEach && !OnlyLooks(call.action)
    ensures Verdict(s, call, now) ==> Honours(s, call, now)
  {
    VerdictExactly(s, call, now);
    ReachableInv(s);
    HonouredExactlyWhenApproved(s, call, now);
    hide Inv; hide Honours; hide Verdict; hide Approved; hide StaysHome; hide Reachable; hide AutoReviewMay;
  }

  // ---------------------------------------------------------------- decisions

  /** What a decision becomes: its allow stands unless the profile only reads or automatic review oversteps. */
  predicate Stands(s: Store, d: Decision) {
    && d.allow && (InForce(s) != ReadOnly || OnlyLooks(d.action))
    && (d.actor == "auto_review" ==> OnlyLooks(d.action) && !d.expand)
  }

  /**
   A decision adds one row with what it was about and what became of it, opens an approval
   exactly when it stands and is no trace, and counts on the streak of its session.
   */
  lemma DecisionIsRecorded(s: Store, d: Decision, id: nat)
    ensures var t := Step(s, Decide(d, id));
      && t.data == s.data.(audit := t.data.audit) && |t.data.audit| == |s.data.audit| + 1
      && t.data.audit[..|s.data.audit|] == s.data.audit
      && var m := t.data.audit[|s.data.audit|];
      && m.id == id && m.session == d.session && m.action == d.action && m.actor == d.actor && m.scope == d.scope
      && m.project == d.project && m.expires == d.expires && m.profile == InForce(s) && m.version == s.data.version
      && m.turn == (if d.turn.Some? && d.turn.value != "" then d.turn.value else d.session)
      && (m.allow <==> Stands(s, d)) && !m.revoked && m.consumed == d.consumed
      && t.live == (if Stands(s, d) && !d.consumed then s.live[id := m] else s.live)
      && StreakOf(t.streak, d.session) == (if Stands(s, d) then 0 else StreakOf(s.streak, d.session) + 1)
      && (m.interrupts <==> StreakOf(t.streak, d.session) >= 3)
      && (forall other :: other != d.session ==> StreakOf(t.streak, other) == StreakOf(s.streak, other))
      && t.session == s.session && t.fullEnabled == s.fullEnabled
  {
    OverstepsExactly(s.data, Call(d.action, d.actor, None, None, None, None, None, None, d.expand, [], false));
    hide Saved;
  }

  /** The session a verdict is filed under: the call's, or one for all that name none. */
  function FiledUnder(session: Option<string>): string {
    if session.None? || session.value == "" then "unbound" else session.value
  }

  /** A call whose approval is not honoured is filed as a spent decision with its verdict, and does nothing else. */
  lemma TracedExactly(s: Store, call: Call, id: nat, now: int)
    requires !Honours(s, call, now)
    ensures
      var filed := Decision(FiledUnder(call.session), call.action, call.actor, call.scope, Verdict(s, call, now), None,
                            call.turn, call.project, false, true);
      Step(s, Evaluate(call, id, now)) == Step(s, Decide(filed, id))
  {
    hide Honours; hide Judge; hide Decided;
  }

  // ---------------------------------------------------------------- restarts

  /** The file holds what the store holds, with every row spent; without one the store is new or keeps none. */
  predicate FileFollows(s: Store) {
    || (s.persistent && s.disk == Some(s.data.(audit := AllConsumed(s.data.audit))))
    || (s.persistent && s.disk == None && s.data == DEFAULTS)
    || (!s.persistent && s.disk == None)
  }

  lemma ConsumedStays(rows: seq<Record>)
    ensures AllConsumed(AllConsumed(rows)) == AllConsumed(rows)
  {}

  lemma StepKeepsFile(s: Store, e: Event)
    requires FileFollows(s)
    ensures FileFollows(Step(s, e)) && Step(s, e).persistent == s.persistent
  {
    if s.disk.Some? {
      ConsumedStays(s.data.audit);
      ConsumedStays(s.disk.value.audit);
    }
    hide AllConsumed; hide Final; hide Row; hide Honours; hide Judge; hide Consume; hide RevokeFirst; hide FirstRow;
    hide Trace; hide StreakOf;
  }

  lemma {:induction false} RunKeepsFile(s: Store, events: seq<Event>)
    requires FileFollows(s) && Run(s, events).Some?
    ensures FileFollows(Run(s, events).value)
    decreases |events|
  {
    if events != [] {
      StepKeepsFile(s, events[0]);
      hide Step; hide FileFollows; hide Enabled;
      RunKeepsFile(Step(s, events[0]), events[1..]);
    }
  }

  /**
   A new process finds the policy, the grants and the audit as they were, every row of it
   spent; without a file it finds the defaults.  Open approvals, streaks, the preset and the
   unlocking of full access are gone.
   */
  lemma RestartKeepsPolicy(s: Store)
    requires Reachable(s)
    ensures var t := Step(s, Restart);
      && t.live == map[] && t.session == None && !t.fullEnabled && (forall who :: StreakOf(t.streak, who) == 0)
      && (s.persistent ==> t.data == s.data.(audit := t.data.audit) && |t.data.audit| == |s.data.audit|)
      && (s.persistent ==>
            forall i :: 0 <= i < |s.data.audit| ==> t.data.audit[i] == s.data.audit[i].(consumed := true))
      && (!s.persistent ==> s.disk == None && t.data == Data(AskEach, 1, [], [], false, []))
  {
    var events: seq<Event> :| Run(Fresh(s.persistent), events) == Some(s);
    RunKeepsFile(Fresh(s.persistent), events);
    ConsumedStays(s.data.audit);
    hide Run; hide Reachable;
  }

  // ---------------------------------------------------------------- revoking and changing the policy

  /** A revoked approval is closed and its row marked; every other approval and row stays. */
  lemma RevokedExactly(s: Store, id: nat)
    requires Inv(s)
    ensures var t := Step(s, Revoke(id));
      && t.live == s.live - {id} && |t.data.audit| == |s.data.audit|
      && (forall i :: 0 <= i < |s.data.audit| ==>
            t.data.audit[i] ==
              if s.data.audit[i].id == id then s.data.audit[i].(revoked := true, consumed := true)
              else s.data.audit[i])
      && t.data == s.data.(audit := t.data.audit)
      && t.streak == s.streak && t.session == s.session && t.fullEnabled == s.fullEnabled
  {
    MarksFirst(s.data.audit, id);
    MissingRow(s.data.audit, id);
    hide RevokeFirst; hide FirstRow; hide Saved;
  }

  lemma {:induction false} MarksFirst(rows: seq<Record>, id: nat)
    requires forall i, j :: 0 <= i < j < |rows| ==> rows[i].id != rows[j].id
    ensures var marked := RevokeFirst(rows, id);
      && |marked| == |rows|
      && forall i :: 0 <= i < |rows| ==>
           marked[i] == if rows[i].id == id then rows[i].(revoked := true, consumed := true) else rows[i]
  {
    if rows != [] && rows[0].id != id {
      MarksFirst(rows[1..], id);
    }
  }

  lemma {:induction false} MissingRow(rows: seq<Record>, id: nat)
    ensures FirstRow(rows, id).None? ==> forall i :: 0 <= i < |rows| ==> rows[i].id != id
  {
    if rows != [] && rows[0].id != id {
      MissingRow(rows[1..], id);
    }
  }

  lemma GoneStays(s: Store, e: Event, id: nat)
    requires Enabled(s, e) && id in s.used && id !in s.live
    ensures id in Step(s, e).used && id !in Step(s, e).live
  {
    hide Honours; hide Judge; hide Final; hide Row; hide Saved; hide Consume; hide RevokeFirst; hide FirstRow;
    hide AllConsumed; hide Trace;
  }

  lemma {:induction false} GoneForGood(s: Store, events: seq<Event>, id: nat)
    requires Inv(s) && id in s.used && id !in s.live && Run(s, events).Some?
    ensures Inv(Run(s, events).value) && id !in Run(s, events).value.live
    decreases |events|
  {
    if events != [] {
      StepKeepsInv(s, events[0]);
      GoneStays(s, events[0], id);
      hide Step; hide Inv; hide Enabled;
      GoneForGood(Step(s, events[0]), events[1..], id);
    }
  }

  /** An approval that was given and is revoked is never honoured again, whatever happens next. */
  lemma RevokedForGood(s: Store, id: nat, events: seq<Event>, call: Call, now: int)
    requires Reachable(s) && id in s.used && Run(Step(s, Revoke(id)), events).Some? && call.approval == Some(id)
    ensures !Honours(Run(Step(s, Revoke(id)), events).value, call, now)
  {
    ReachableInv(s);
    RevokedExactly(s, id);
    StepKeepsInv(s, Revoke(id));
    UsedStays(s, Revoke(id), id);
    GoneForGood(Step(s, Revoke(id)), events, id);
    var end := Run(Step(s, Revoke(id)), events).value;
    if Honours(end, call, now) {
      HonouredIsLive(end, call, now);
    }
    hide Step; hide Inv; hide Run; hide Honours; hide Reachable;
  }

  lemma UsedStays(s: Store, e: Event, id: nat)
    requires id in s.used
    ensures id in Step(s, e).used
  {
    hide Honours; hide Judge; hide Final; hide Row; hide Saved; hide Consume; hide RevokeFirst; hide FirstRow;
    hide AllConsumed; hide Trace;
  }

  /** A profile other than full access is stored, with new grants if any come along; that one is only a preset. */
  lemma ProfileIsStored(s: Store, profile: Profile, grants: Option<seq<Grant>>)
    ensures var t := Step(s, SetProfile(profile, grants));
      if profile == FullAccess then t == s
      else
        && t.data == s.data.(profile := profile, grants := if grants.Some? then grants.value else s.data.grants,
                             version := s.data.version + 1)
        && t.live == s.live && t.streak == s.streak && t.session == s.session && t.fullEnabled == s.fullEnabled
  {
    hide Saved;
  }

  /** Asking is stored as well as set; the scoped preset and full access are set for this process only. */
  lemma PresetIsSet(s: Store, preset: Preset)
    ensures var t := Step(s, ApplyPreset(preset));
      && t.live == s.live && t.streak == s.streak && t.fullEnabled == s.fullEnabled
      && (preset == Ask ==>
            t.session == Some(AskEach) && t.data == s.data.(profile := AskEach, version := s.data.version + 1))
      && (preset == Auto ==> t.session == Some(AllowScoped) && t.data == s.data)
      && (preset == Full ==> t.session == (if s.fullEnabled then Some(FullAccess) else s.session) && t.data == s.data)
  {
    hide Saved;
  }

  /** Full access is unlocked by somebody with a name, which white space alone is not. */
  lemma UnlockedByName(s: Store, actor: string)
    ensures Step(s, EnableFull(actor)) ==
      if forall i :: 0 <= i < |actor| ==> Text.IsSpace(actor[i]) then s else s.(fullEnabled := true)
  {
    Text.StripOfBlank(actor);
    hide Text.Strip; hide Text.IsSpace;
  }

  /** A grant is stored behind the others and from then on lets through what it covers. */
  lemma GrantTakesEffect(s: Store, grant: Grant, call: Call, now: int)
    requires Reachable(s)
    ensures var t := Step(s, GrantScope(grant));
      && t.data == s.data.(grants := s.data.grants + [grant], version := s.data.version + 1) && t.live == s.live
    ensures InForce(s) == AllowScoped && Covered(grant, call, now) && StaysHome(call) ==>
      call.approval.None? && call.actor != "auto_review" ==> Verdict(Step(s, GrantScope(grant)), call, now)
  {
    var t := Step(s, GrantScope(grant));
    assert t.data.grants[|s.data.grants|] == grant;
    Continue(s, GrantScope(grant));
    VerdictExactly(t, call, now);
    hide Verdict; hide Covered; hide StaysHome; hide Saved; hide Reachable; hide Run; hide Inv;
  }
}
