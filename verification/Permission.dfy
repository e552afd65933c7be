/**
 PermissionStore (appserver/permission.py): profiles, one-shot approvals, policy
 versions, automatic review, the audit and restarts, over any run of its operations.
 */
module Permissions {
  import opened Wrappers
  import Text

  datatype Profile = ReadOnly | WorkspaceWrite | AskEach | AllowScoped | FullAccess
  datatype Preset = Ask | Auto | Full

  /** A path as its components. */
  type Path = seq<string>

  datatype Grant = Grant(action: Option<string>, scope: Option<Path>, project: Option<string>, expires: Option<int>)

  /** An approval or an audit row. */
  datatype Record = Record(id: nat, session: string, action: string, actor: string, scope: Option<Path>,
                           project: Option<string>, turn: string, allow: bool, profile: Profile, version: nat,
                           expires: Option<int>, revoked: bool, consumed: bool, interrupts: bool)

  /** What is kept in the file. */
  datatype Data = Data(profile: Profile, version: nat, grants: seq<Grant>, roots: seq<Path>, network: bool,
                       audit: seq<Record>)

  /**
   outcomes, honoured and used are history: the decisions counted for the streaks since
   the store was loaded, the approvals ever honoured and the ids ever given out.
   */
  datatype Store = Store(data: Data, disk: Option<Data>, persistent: bool, live: map<nat, Record>,
                         streak: map<string, nat>,
                         session: Option<Profile>, fullEnabled: bool,
                         outcomes: seq<(string, bool)>, honoured: seq<nat>, used: set<nat>)

  /** The parameters of decide; expand stands for its three expansion flags. */
  datatype Decision = Decision(session: string, action: string, actor: string, scope: Option<Path>, allow: bool,
                               expires: Option<int>, turn: Option<string>, project: Option<string>, expand: bool,
                               consumed: bool)

  /** The parameters of evaluate. */
  datatype Call = Call(action: string, actor: string, approval: Option<nat>, scope: Option<Path>,
                       project: Option<string>,
                       workspace: Option<Path>, session: Option<string>, turn: Option<string>,
                       expand: bool, roots: seq<Path>, network: bool)

  datatype Event =
    | Decide(d: Decision, id: nat)
    | Revoke(id: nat)
    | SetProfile(profile: Profile, grants: Option<seq<Grant>>)
    | ApplyPreset(preset: Preset)
    | EnableFull(actor: string)
    | GrantScope(grant: Grant)
    | Evaluate(call: Call, id: nat, now: int)
    | Restart

  const AUTO_REVIEW := "auto_review"
  const THRESHOLD := 3
  const DEFAULTS := Data(AskEach, 1, [], [], false, [])

  function Fresh(persistent: bool): Store {
    Store(DEFAULTS, None, persistent, map[], map[], None, false, [], [], {})
  }

  // ---------------------------------------------------------------- what is only computed

  predicate Reads(action: string) { action == "read" || action == "list" }

  predicate Writable(p: Profile) { p != ReadOnly }

  predicate Asks(p: Profile) { p == ReadOnly || p == AskEach }

  function PolicyOf(preset: Preset): Profile {
    match preset case Ask => AskEach case Auto => AllowScoped case Full => FullAccess
  }

  function ActivePolicy(session: Option<Profile>, profile: Profile): Profile {
    if session.Some? then session.value else profile
  }

  /** The stored scope contains the requested one; an absent scope only goes with an absent scope. */
  predicate Compatible(stored: Option<Path>, requested: Option<Path>) {
    match (stored, requested)
    case (None, None) => true
    case (Some(root), Some(target)) => root <= target
    case (None, Some(_)) => false
    case (Some(_), None) => false
  }

  predicate Expired(expires: Option<int>, now: int) { expires.Some? && expires.value < now }

  predicate Grants(g: Grant, action: string, scope: Option<Path>, project: Option<string>, now: int) {
    && (g.action == None || g.action == Some("") || g.action == Some("*") || g.action == Some(action))
    && g.project == project && !Expired(g.expires, now) && Compatible(g.scope, scope)
  }

  predicate Expands(data: Data, actor: string, expand: bool, roots: seq<Path>, network: bool) {
    && actor == AUTO_REVIEW
    && (expand || (network && !data.network)
        || exists r :: r in roots && forall w :: w in data.roots ==> !Compatible(Some(w), Some(r)))
  }

  function StreakOf(streak: map<string, nat>, session: string): nat {
    if session in streak then streak[session] else 0
  }

  function TurnOf(turn: Option<string>, session: string): string {
    if turn == None || turn == Some("") then session else turn.value
  }

  // ---------------------------------------------------------------- decide

  /** decide turns an allow into a reject where the profile or automatic review may not allow. */
  predicate Final(data: Data, session: Option<Profile>, d: Decision) {
    && d.allow
    && (Writable(ActivePolicy(session, data.profile)) || Reads(d.action))
    && !(d.actor == AUTO_REVIEW && (!Reads(d.action) || Expands(data, d.actor, d.expand, [], false)))
  }

  function Row(data: Data, session: Option<Profile>, d: Decision, id: nat, rejects: nat): Record {
    Record(id, d.session, d.action, d.actor, d.scope, d.project, TurnOf(d.turn, d.session), Final(data, session, d),
           ActivePolicy(session, data.profile), data.version, d.expires, false, d.consumed, rejects >= THRESHOLD)
  }

  function Saved(persistent: bool, disk: Option<Data>, data: Data): Option<Data> {
    if persistent then Some(data.(audit := AllConsumed(data.audit))) else disk
  }

  function AllConsumed(rows: seq<Record>): seq<Record> {
    seq(|rows|, i requires 0 <= i < |rows| => rows[i].(consumed := true))
  }

  function Decided(s: Store, d: Decision, id: nat): Store {
    var allow := Final(s.data, s.session, d);
    var rejects := if allow then 0 else StreakOf(s.streak, d.session) + 1;
    var row := Row(s.data, s.session, d, id, rejects);
    var data := s.data.(audit := s.data.audit + [row]);
    s.(data := data, disk := Saved(s.persistent, s.disk, data),
       live := if allow && !d.consumed then s.live[id := row] else s.live,
       streak := s.streak[d.session := rejects],
       outcomes := s.outcomes + [(d.session, allow)], used := s.used + {id})
  }

  // ---------------------------------------------------------------- evaluate

  function FirstRow(rows: seq<Record>, id: nat): Option<Record> {
    if rows == [] then None else if rows[0].id == id then Some(rows[0]) else FirstRow(rows[1..], id)
  }

  function Found(live: map<nat, Record>, rows: seq<Record>, id: nat): Option<Record> {
    if id in live then Some(live[id]) else FirstRow(rows, id)
  }

  datatype Reason =
    | ScopeRequired | WorkspaceMismatch
    | Unavailable | NotAllow | ActionMismatch | VersionMismatch | IsExpired | SessionMismatch | TurnMismatch
    | ScopeMismatch | ProjectMismatch | ActorMismatch | AutoReviewReadOnly
    | ReadAction | AskRequired | OutsideWorkspace | WorkspaceAllowed | ScopedGrant | ScopeNotGranted | FullAllowed

  predicate AutoReviewOversteps(data: Data, call: Call) {
    && call.actor == AUTO_REVIEW
    && (!Reads(call.action) || Expands(data, call.actor, call.expand, call.roots, call.network))
  }

  /** The checks before any approval is looked at. */
  function Guard(call: Call): Option<Reason> {
    if call.workspace.Some? && call.scope.None? then Some(ScopeRequired)
    else if call.workspace.Some? && call.scope.Some? && !Compatible(call.workspace, call.scope) then
      Some(WorkspaceMismatch)
    else None
  }

  /** Why the approval found does not cover the call. */
  function Refusal(data: Data, found: Option<Record>, call: Call, now: int): Option<Reason> {
    if found.None? || found.value.revoked || found.value.consumed then Some(Unavailable)
    else
      var m := found.value;
      if !m.allow then Some(NotAllow)
      else if m.action != call.action then Some(ActionMismatch)
      else if m.version != data.version then Some(VersionMismatch)
      else if Expired(m.expires, now) then Some(IsExpired)
      else if call.session.None? || m.session != call.session.value then Some(SessionMismatch)
      else if call.turn.Some? && m.turn != call.turn.value then Some(TurnMismatch)
      else if !Compatible(m.scope, call.scope) then Some(ScopeMismatch)
      else if m.project != call.project then Some(ProjectMismatch)
      else if m.actor != call.actor then Some(ActorMismatch)
      else if call.workspace.Some? && m.scope.Some? && !Compatible(call.workspace, m.scope) then Some(WorkspaceMismatch)
      else if call.workspace.Some? && call.scope.Some? && !Compatible(call.workspace, call.scope) then
        Some(WorkspaceMismatch)
      else if AutoReviewOversteps(data, call) then Some(AutoReviewReadOnly)
      else None
  }

  predicate Honours(s: Store, call: Call, now: int) {
    && Guard(call).None? && call.approval.Some?
    && Refusal(s.data, Found(s.live, s.data.audit, call.approval.value), call, now).None?
  }

  /** The verdict of the profile on a call that is not a read. */
  function ByProfile(data: Data, session: Option<Profile>, call: Call, now: int): (bool, Reason) {
    var policy := ActivePolicy(session, data.profile);
    if Asks(policy) then (false, AskRequired)
    else if policy == WorkspaceWrite then
      var root := if call.workspace.Some? then call.workspace else call.scope;
      if root.Some? && Compatible(root, if call.scope.Some? then call.scope else root)
      then (true, WorkspaceAllowed) else (false, OutsideWorkspace)
    else if policy == AllowScoped then
      if exists g :: g in data.grants && Grants(g, call.action, call.scope, call.project, now)
      then (true, ScopedGrant) else (false, ScopeNotGranted)
    else (true, FullAllowed)
  }

  /** Verdict and reason of a call that no approval is honoured for. */
  function Judge(s: Store, call: Call, now: int): (bool, Reason) {
    if Guard(call).Some? then (false, Guard(call).value)
    else if call.approval.Some? then
      var refusal := Refusal(s.data, Found(s.live, s.data.audit, call.approval.value), call, now);
      (false, if refusal.Some? then refusal.value else Unavailable)
    else if AutoReviewOversteps(s.data, call) then (false, AutoReviewReadOnly)
    else if Reads(call.action) then (true, ReadAction)
    else ByProfile(s.data, s.session, call, now)
  }

  predicate Verdict(s: Store, call: Call, now: int) { Honours(s, call, now) || Judge(s, call, now).0 }

  /** The session a traced verdict is filed under. */
  function Filed(session: Option<string>): string {
    if session == None || session == Some("") then "unbound" else session.value
  }

  function Trace(call: Call, allow: bool): Decision {
    Decision(Filed(call.session), call.action, call.actor, call.scope, allow, None, call.turn, call.project, false,
             true)
  }

  function Consume(rows: seq<Record>, id: nat): seq<Record> {
    seq(|rows|, i requires 0 <= i < |rows| => if rows[i].id == id then rows[i].(consumed := true) else rows[i])
  }

  /** An honoured approval is spent; the streak of a named session starts over. */
  function Honoured(s: Store, call: Call): Store
    requires call.approval.Some? && call.session.Some?
  {
    var id := call.approval.value;
    var data := s.data.(audit := Consume(s.data.audit, id));
    s.(data := data, disk := Saved(s.persistent, s.disk, data), live := s.live - {id},
       streak := if call.session.value == "" then s.streak else s.streak[call.session.value := 0],
       outcomes := s.outcomes + [(call.session.value, true)], honoured := s.honoured + [id])
  }

  function Evaluated(s: Store, call: Call, id: nat, now: int): Store {
    if Honours(s, call, now) then Honoured(s, call) else Decided(s, Trace(call, Judge(s, call, now).0), id)
  }

  // ---------------------------------------------------------------- the other operations

  function RevokeFirst(rows: seq<Record>, id: nat): seq<Record> {
    if rows == [] then []
    else if rows[0].id == id then [rows[0].(revoked := true, consumed := true)] + rows[1..]
    else [rows[0]] + RevokeFirst(rows[1..], id)
  }

  function Revoked(s: Store, id: nat): Store {
    var live := s.live - {id};
    if FirstRow(s.data.audit, id).None? then s.(live := live)
    else
      var data := s.data.(audit := RevokeFirst(s.data.audit, id));
      s.(data := data, disk := Saved(s.persistent, s.disk, data), live := live)
  }

  function NewPolicy(s: Store, data: Data): Store {
    var data' := data.(version := s.data.version + 1);
    s.(data := data', disk := Saved(s.persistent, s.disk, data'))
  }

  function Applied(s: Store, preset: Preset): Store {
    if preset == Full && !s.fullEnabled then s
    else if preset == Ask then NewPolicy(s, s.data.(profile := AskEach)).(session := Some(AskEach))
    else s.(session := Some(PolicyOf(preset)))
  }

  /** A new process: the file comes back with every row consumed, the rest is forgotten. */
  function Restarted(s: Store): Store {
    var data :=
      if s.persistent && s.disk.Some? then s.disk.value.(audit := AllConsumed(s.disk.value.audit)) else DEFAULTS;
    s.(data := data, live := map[], streak := map[], session := None, fullEnabled := false, outcomes := [])
  }

  predicate Enabled(s: Store, e: Event) {
    match e
    case Decide(_, id) => id !in s.used
    case Evaluate(call, id, _) => id !in s.used && call.approval != Some(id)
    case _ => true
  }

  function Step(s: Store, e: Event): Store {
    match e
    case Decide(d, id) => Decided(s, d, id)
    case Revoke(id) => Revoked(s, id)
    case SetProfile(profile, grants) =>
      if profile == FullAccess then s
      else NewPolicy(s, s.data.(profile := profile, grants := if grants.Some? then grants.value else s.data.grants))
    case ApplyPreset(preset) => Applied(s, preset)
    case EnableFull(actor) => if Text.Strip(actor) == "" then s else s.(fullEnabled := true)
    case GrantScope(grant) => NewPolicy(s, s.data.(grants := s.data.grants + [grant]))
    case Evaluate(call, id, now) => Evaluated(s, call, id, now)
    case Restart => Restarted(s)
  }

  // ---------------------------------------------------------------- invariant

  /** Open approvals are allows nobody spent or revoked, decided under a policy that could allow them. */
  predicate LiveOk(live: map<nat, Record>, version: nat) {
    forall id :: id in live ==>
      && live[id].id == id && live[id].allow && !live[id].consumed && !live[id].revoked
      && live[id].version <= version
      && (live[id].profile == ReadOnly ==> Reads(live[id].action))
  }

  /** No row but those of open approvals can pass for an approval. */
  predicate AuditOk(rows: seq<Record>, live: map<nat, Record>, used: set<nat>) {
    && (forall i :: 0 <= i < |rows| ==> rows[i].id in used)
    && (forall i, j :: 0 <= i < j < |rows| ==> rows[i].id != rows[j].id)
    && (forall i :: 0 <= i < |rows| && rows[i].allow && !rows[i].consumed && !rows[i].revoked ==> rows[i].id in live)
    && (forall id :: id in live ==> id in used)
  }

  predicate DiskOk(disk: Option<Data>, used: set<nat>) {
    disk.Some? ==>
      && disk.value.profile != FullAccess
      && (forall i :: 0 <= i < |disk.value.audit| ==> disk.value.audit[i].id in used)
      && (forall i, j :: 0 <= i < j < |disk.value.audit| ==> disk.value.audit[i].id != disk.value.audit[j].id)
  }

  /** Until a preset is applied, every open approval of the current version was decided under the current profile. */
  predicate PolicyOk(session: Option<Profile>, live: map<nat, Record>, profile: Profile, version: nat) {
    session.None? ==> forall id :: id in live && live[id].version == version ==> live[id].profile == profile
  }

  predicate ProfileOk(session: Option<Profile>, profile: Profile, fullEnabled: bool) {
    && profile != FullAccess
    && session != Some(ReadOnly)
    && (session == Some(FullAccess) ==> fullEnabled)
  }

  predicate SpentOk(honoured: seq<nat>, live: map<nat, Record>, used: set<nat>) {
    && (forall i, j :: 0 <= i < j < |honoured| ==> honoured[i] != honoured[j])
    && (forall i :: 0 <= i < |honoured| ==> honoured[i] !in live && honoured[i] in used)
  }

  function Trailing(outcomes: seq<(string, bool)>, session: string): nat {
    if outcomes == [] then 0
    else
      var last := outcomes[|outcomes| - 1];
      var before := outcomes[..|outcomes| - 1];
      if last.0 != session then Trailing(before, session)
      else if last.1 then 0
      else Trailing(before, session) + 1
  }

  ghost predicate StreakOk(streak: map<string, nat>, outcomes: seq<(string, bool)>) {
    forall session :: session != "" ==> StreakOf(streak, session) == Trailing(outcomes, session)
  }

  ghost predicate Inv(s: Store) {
    && LiveOk(s.live, s.data.version)
    && AuditOk(s.data.audit, s.live, s.used)
    && DiskOk(s.disk, s.used)
    && PolicyOk(s.session, s.live, s.data.profile, s.data.version)
    && ProfileOk(s.session, s.data.profile, s.fullEnabled)
    && SpentOk(s.honoured, s.live, s.used)
    && StreakOk(s.streak, s.outcomes)
  }

  // ---------------------------------------------------------------- every operation keeps it

  lemma StreakGrows(streak: map<string, nat>, outcomes: seq<(string, bool)>, session: string, allow: bool)
    requires StreakOk(streak, outcomes)
    ensures StreakOk(streak[session := if allow then 0 else StreakOf(streak, session) + 1],
                     outcomes + [(session, allow)])
    ensures session == "" ==> StreakOk(streak, outcomes + [(session, allow)])
  {
    var after := outcomes + [(session, allow)];
    assert after[..|after| - 1] == outcomes;
    assert forall other :: other != session ==> Trailing(after, other) == Trailing(outcomes, other);
  }

  lemma AllConsumedRows(rows: seq<Record>)
    ensures |AllConsumed(rows)| == |rows|
    ensures forall i :: 0 <= i < |rows| ==> AllConsumed(rows)[i].id == rows[i].id && AllConsumed(rows)[i].consumed
  {}

  lemma SavedIsOk(persistent: bool, disk: Option<Data>, data: Data, live: map<nat, Record>, used: set<nat>)
    requires DiskOk(disk, used) && data.profile != FullAccess && AuditOk(data.audit, live, used)
    ensures DiskOk(Saved(persistent, disk, data), used)
  {
    AllConsumedRows(data.audit);
    hide AllConsumed;
  }

  lemma RowAdds(rows: seq<Record>, row: Record, live: map<nat, Record>, used: set<nat>)
    requires AuditOk(rows, live, used) && row.id !in used
    ensures AuditOk(rows + [row], live[row.id := row], used + {row.id})
    ensures row.consumed || !row.allow ==> AuditOk(rows + [row], live, used + {row.id})
  {}

  lemma DecidedKeepsInv(s: Store, d: Decision, id: nat)
    requires Inv(s) && id !in s.used
    ensures Inv(Decided(s, d, id))
  {
    var allow := Final(s.data, s.session, d);
    var row := Row(s.data, s.session, d, id, if allow then 0 else StreakOf(s.streak, d.session) + 1);
    StreakGrows(s.streak, s.outcomes, d.session, allow);
    RowAdds(s.data.audit, row, s.live, s.used);
    assert DiskOk(s.disk, s.used + {id});
    SavedIsOk(s.persistent, s.disk, s.data.(audit := s.data.audit + [row]), s.live[id := row], s.used + {id});
    hide StreakOk; hide AuditOk; hide DiskOk; hide Saved; hide Final; hide StreakOf;
  }

  lemma ConsumeRows(rows: seq<Record>, id: nat, live: map<nat, Record>, used: set<nat>)
    requires AuditOk(rows, live, used)
    ensures AuditOk(Consume(rows, id), live - {id}, used)
  {}

  lemma HonouredKeepsInv(s: Store, call: Call, now: int)
    requires Inv(s) && Honours(s, call, now)
    ensures Inv(Honoured(s, call))
  {
    var id := call.approval.value;
    HonouredIsLive(s, call, now);
    StreakGrows(s.streak, s.outcomes, call.session.value, true);
    ConsumeRows(s.data.audit, id, s.live, s.used);
    SavedIsOk(s.persistent, s.disk, s.data.(audit := Consume(s.data.audit, id)), s.live - {id}, s.used);
    hide StreakOk; hide DiskOk; hide Saved; hide Honours; hide Consume; hide StreakOf;
    assert id in s.used;
    hide AuditOk;
  }

  /** The row an id is looked up in is one of the rows. */
  lemma {:induction false} FirstRowIsRow(rows: seq<Record>, id: nat)
    ensures FirstRow(rows, id).Some? ==> FirstRow(rows, id).value in rows && FirstRow(rows, id).value.id == id
    ensures FirstRow(rows, id).None? ==> forall i :: 0 <= i < |rows| ==> rows[i].id != id
  {
    if rows != [] && rows[0].id != id {
      FirstRowIsRow(rows[1..], id);
      forall i | 0 <= i < |rows| && FirstRow(rows, id).None? ensures rows[i].id != id {
        if i > 0 { assert rows[i] == rows[1..][i - 1]; }
      }
    }
  }

  /** An approval that is honoured is an open one; the audit never stands in for it. */
  lemma HonouredIsLive(s: Store, call: Call, now: int)
    requires Inv(s) && Honours(s, call, now)
    ensures call.approval.value in s.live && call.session.Some?
  {
    FirstRowIsRow(s.data.audit, call.approval.value);
    hide StreakOk; hide SpentOk; hide DiskOk; hide Expands; hide Compatible;
  }

  lemma {:induction false} RevokeRows(rows: seq<Record>, id: nat)
    ensures var after := RevokeFirst(rows, id);
      && |after| == |rows|
      && (forall i :: 0 <= i < |rows| ==> after[i].id == rows[i].id)
      && (forall i :: 0 <= i < |rows| && rows[i].id != id ==> after[i] == rows[i])
      && (forall i :: 0 <= i < |rows| && rows[i].id == id ==>
            after[i].consumed || exists j :: 0 <= j < i && rows[j].id == id)
  {
    if rows != [] && rows[0].id != id {
      RevokeRows(rows[1..], id);
      var after, rest := RevokeFirst(rows, id), RevokeFirst(rows[1..], id);
      forall i | 0 < i < |rows|
        ensures after[i].id == rows[i].id
        ensures rows[i].id != id ==> after[i] == rows[i]
        ensures rows[i].id == id ==> after[i].consumed || exists j :: 0 <= j < i && rows[j].id == id
      {
        assert after[i] == rest[i - 1] && rows[i] == rows[1..][i - 1];
        if j :| 0 <= j < i - 1 && rows[1..][j].id == id {
          assert rows[j + 1].id == id;
        }
      }
    }
  }

  lemma RevokeKeepsAudit(rows: seq<Record>, id: nat, live: map<nat, Record>, used: set<nat>)
    requires AuditOk(rows, live, used)
    ensures AuditOk(RevokeFirst(rows, id), live - {id}, used)
  {
    RevokeRows(rows, id);
    hide RevokeFirst;
  }

  lemma RevokedKeepsInv(s: Store, id: nat)
    requires Inv(s)
    ensures Inv(Revoked(s, id))
  {
    FirstRowIsRow(s.data.audit, id);
    assert FirstRow(s.data.audit, id).None? ==> AuditOk(s.data.audit, s.live - {id}, s.used);
    RevokeKeepsAudit(s.data.audit, id, s.live, s.used);
    SavedIsOk(s.persistent, s.disk, s.data.(audit := RevokeFirst(s.data.audit, id)), s.live - {id}, s.used);
    hide StreakOk; hide DiskOk; hide Saved; hide FirstRow; hide AuditOk; hide RevokeFirst;
  }

  lemma NewPolicyKeepsInv(s: Store, data: Data, session: Option<Profile>)
    requires Inv(s) && data.profile != FullAccess && data.audit == s.data.audit
    requires session == s.session || session == Some(AskEach)
    ensures Inv(NewPolicy(s, data).(session := session))
  {
    SavedIsOk(s.persistent, s.disk, data.(version := s.data.version + 1), s.live, s.used);
    hide StreakOk; hide DiskOk; hide Saved; hide AuditOk;
  }

  lemma RestartKeepsInv(s: Store)
    requires Inv(s)
    ensures Inv(Restarted(s))
  {
    if s.disk.Some? { AllConsumedRows(s.disk.value.audit); }
    hide AllConsumed;
  }

  /** Every operation keeps the invariant, restarts included. */
  lemma StepKeepsInv(s: Store, e: Event)
    requires Inv(s) && Enabled(s, e)
    ensures Inv(Step(s, e))
  {
    match e
    case Decide(d, id) => { hide Inv; hide Decided; DecidedKeepsInv(s, d, id); }
    case Revoke(id) => { hide Inv; hide Revoked; RevokedKeepsInv(s, id); }
    case SetProfile(profile, grants) =>
      if profile != FullAccess {
        hide Inv;
        var kept := if grants.Some? then grants.value else s.data.grants;
        NewPolicyKeepsInv(s, s.data.(profile := profile, grants := kept), s.session);
      }
    case ApplyPreset(preset) => {
      NewPolicyKeepsInv(s, s.data.(profile := AskEach), Some(AskEach));
      hide LiveOk; hide AuditOk; hide StreakOk; hide SpentOk; hide DiskOk; hide NewPolicy;
    }
    case EnableFull(actor) => { hide Text.Strip; hide LiveOk; hide AuditOk; hide StreakOk; hide SpentOk; hide DiskOk; }
    case GrantScope(grant) => { hide Inv; NewPolicyKeepsInv(s, s.data.(grants := s.data.grants + [grant]), s.session); }
    case Evaluate(call, id, now) => {
      hide Inv; hide Decided; hide Honoured; hide Honours;
      if Honours(s, call, now) {
        HonouredKeepsInv(s, call, now);
      } else {
        DecidedKeepsInv(s, Trace(call, Judge(s, call, now).0), id);
      }
    }
    case Restart => { hide Inv; hide Restarted; RestartKeepsInv(s); }
  }

  /** The state after a run, if every event of it could happen. */
  function Run(s: Store, events: seq<Event>): Option<Store>
    decreases |events|
  {
    if events == [] then Some(s)
    else if Enabled(s, events[0]) then Run(Step(s, events[0]), events[1..])
    else None
  }

  lemma {:induction false} RunKeepsInv(s: Store, events: seq<Event>)
    requires Inv(s) && Run(s, events).Some?
    ensures Inv(Run(s, events).value)
    decreases |events|
  {
    hide Inv; hide Step; hide Enabled;
    if events != [] {
      StepKeepsInv(s, events[0]);
      RunKeepsInv(Step(s, events[0]), events[1..]);
    }
  }

  /** States a new store can come to, through any operations and restarts. */
  ghost predicate Reachable(s: Store) {
    exists events: seq<Event> :: Run(Fresh(s.persistent), events) == Some(s)
  }

  lemma ReachableInv(s: Store)
    requires Reachable(s)
    ensures Inv(s)
  {
    var events: seq<Event> :| Run(Fresh(s.persistent), events) == Some(s);
    FreshInv(s.persistent);
    RunKeepsInv(Fresh(s.persistent), events);
  }

  lemma FreshInv(persistent: bool)
    ensures Inv(Fresh(persistent))
  {}

  // ---------------------------------------------------------------- approvals

  /** With the read-only profile active, no call of any run may do more than read, whatever approval it brings. */
  lemma ReadOnlyAllowsNoWrite(s: Store, call: Call, now: int)
    requires Reachable(s) && ActivePolicy(s.session, s.data.profile) == ReadOnly && !Reads(call.action)
    ensures !Verdict(s, call, now)
  {
    ReachableInv(s);
    NoWriteWhileReadOnly(s, call, now);
  }

  lemma NoWriteWhileReadOnly(s: Store, call: Call, now: int)
    requires Inv(s) && ActivePolicy(s.session, s.data.profile) == ReadOnly && !Reads(call.action)
    ensures !Verdict(s, call, now)
  {
    if Honours(s, call, now) {
      HonouredUnderItsProfile(s, call, now);
    }
  }

  /** Before any preset, what is honoured was decided under the profile in force, and is a read if that only reads. */
  lemma HonouredUnderItsProfile(s: Store, call: Call, now: int)
    requires Inv(s) && Honours(s, call, now)
    ensures call.approval.value in s.live
    ensures s.session.None? ==> s.live[call.approval.value].profile == s.data.profile
    ensures s.session.None? && s.data.profile == ReadOnly ==> Reads(call.action)
  {
    HonouredIsLive(s, call, now);
  }

  /** An approval covers a call. */
  predicate Covers(data: Data, m: Record, call: Call, now: int) {
    && m.action == call.action && m.actor == call.actor && m.project == call.project
    && call.session == Some(m.session) && (call.turn.Some? ==> call.turn.value == m.turn)
    && Compatible(m.scope, call.scope)
    && (call.workspace.Some? && m.scope.Some? ==> Compatible(call.workspace, m.scope))
    && m.version == data.version && !Expired(m.expires, now)
  }

  /** An approval is honoured exactly when it is open and covers a call that passes the guard and auto-review. */
  lemma HonouredExactly(s: Store, call: Call, now: int)
    requires Inv(s)
    ensures Honours(s, call, now) <==>
      && call.approval.Some? && call.approval.value in s.live
      && Covers(s.data, s.live[call.approval.value], call, now)
      && Guard(call).None? && !AutoReviewOversteps(s.data, call)
  {
    if Honours(s, call, now) {
      HonouredIsLive(s, call, now);
    }
    hide AuditOk; hide StreakOk; hide SpentOk; hide DiskOk; hide Expands; hide Compatible;
  }

  /** The call repeats what was decided. */
  predicate Repeats(call: Call, d: Decision, now: int) {
    && call.action == d.action && call.actor == d.actor && call.project == d.project
    && call.session == Some(d.session) && (call.turn.Some? ==> call.turn.value == TurnOf(d.turn, d.session))
    && Compatible(d.scope, call.scope)
    && (call.workspace.Some? && d.scope.Some? ==> Compatible(call.workspace, d.scope))
    && !Expired(d.expires, now)
  }

  /** Round trip: right after a decision its approval is honoured exactly for calls that repeat it, if it allowed. */
  lemma DecideThenEvaluate(s: Store, d: Decision, id: nat, call: Call, now: int)
    requires Inv(s) && id !in s.used && call.approval == Some(id)
    ensures Honours(Decided(s, d, id), call, now) <==>
      && Final(s.data, s.session, d) && !d.consumed && Repeats(call, d, now)
      && Guard(call).None? && !AutoReviewOversteps(s.data, call)
  {
    assert id !in s.live;
    DecidedKeepsInv(s, d, id);
    HonouredExactly(Decided(s, d, id), call, now);
    hide Inv; hide Honours; hide Final; hide Compatible; hide Expired; hide Guard; hide TurnOf; hide Saved;
  }

  /** No approval is ever honoured twice, and a spent one can never be honoured again. */
  lemma HonouredOnce(s: Store, call: Call, now: int)
    requires Reachable(s)
    ensures forall i, j :: 0 <= i < j < |s.honoured| ==> s.honoured[i] != s.honoured[j]
    ensures Honours(s, call, now) ==> call.approval.value !in s.honoured
  {
    ReachableInv(s);
    if Honours(s, call, now) {
      HonouredIsLive(s, call, now);
    }
    hide Honours;
  }

  /** A refused call leaves every open approval exactly as usable as it was. */
  lemma FailedAttemptKeepsApprovals(s: Store, bad: Call, id: nat, now: int, call: Call, later: int)
    requires Inv(s) && Enabled(s, Evaluate(bad, id, now)) && !Honours(s, bad, now)
    requires call.approval != Some(id)
    ensures Honours(Evaluated(s, bad, id, now), call, later) <==> Honours(s, call, later)
  {
    DecidedKeepsInv(s, Trace(bad, Judge(s, bad, now).0), id);
    HonouredExactly(s, call, later);
    HonouredExactly(Evaluated(s, bad, id, now), call, later);
    assert Evaluated(s, bad, id, now).live == s.live;
    hide Inv; hide Honours; hide Judge; hide Final; hide Compatible; hide Guard;
  }

  /** A change of policy voids every approval given before it. */
  lemma PolicyChangeVoidsApprovals(s: Store, e: Event, call: Call, now: int)
    requires Inv(s)
    requires e.GrantScope? || (e.SetProfile? && e.profile != FullAccess) || e == ApplyPreset(Ask)
    ensures !Honours(Step(s, e), call, now)
  {
    StepKeepsInv(s, e);
    HonouredExactly(Step(s, e), call, now);
    hide AuditOk; hide StreakOk; hide SpentOk; hide DiskOk; hide Honours; hide Saved;
  }

  /** The other two presets change the active policy without a new version: approvals given before stay good. */
  lemma PresetKeepsApprovals(s: Store, preset: Preset, call: Call, now: int)
    requires Inv(s) && preset != Ask
    ensures Honours(Step(s, ApplyPreset(preset)), call, now) <==> Honours(s, call, now)
  {}

  // ---------------------------------------------------------------- audit and streaks

  /** Each traced call adds one row, with the verdict that was returned: decide never flips it. */
  lemma TracedExactlyOnce(s: Store, call: Call, id: nat, now: int)
    requires Inv(s) && Enabled(s, Evaluate(call, id, now)) && !Honours(s, call, now)
    ensures var rows := Evaluated(s, call, id, now).data.audit;
      && |rows| == |s.data.audit| + 1 && rows[..|s.data.audit|] == s.data.audit
      && rows[|s.data.audit|].id == id && rows[|s.data.audit|].consumed
      && rows[|s.data.audit|].session == Filed(call.session)
      && rows[|s.data.audit|].allow == Verdict(s, call, now)
  {
    hide LiveOk; hide AuditOk; hide StreakOk; hide SpentOk; hide DiskOk; hide Refusal; hide Guard; hide Saved;
    hide Grants;
  }

  /** An honoured call adds no row and spends the approval's own. */
  lemma HonouredAddsNoRow(s: Store, call: Call, id: nat, now: int)
    requires Inv(s) && Honours(s, call, now)
    ensures var rows := Evaluated(s, call, id, now).data.audit;
      && |rows| == |s.data.audit|
      && forall i :: 0 <= i < |rows| ==>
        var row := s.data.audit[i];
        rows[i] == row.(consumed := row.consumed || row.id == call.approval.value)
  {
    HonouredIsLive(s, call, now);
  }

  /** A named session's streak is its run of rejects since the store was loaded; an honoured approval ends it. */
  lemma StreakIsTrailingRejects(s: Store, session: string)
    requires Reachable(s) && session != ""
    ensures StreakOf(s.streak, session) == Trailing(s.outcomes, session)
  {
    ReachableInv(s);
  }

  /** An honoured approval ends the streak of its session, except that of the unnamed one. */
  lemma HonouredEndsStreak(s: Store, call: Call, id: nat, now: int)
    requires Inv(s) && Honours(s, call, now)
    ensures call.session.Some?
    ensures StreakOf(Evaluated(s, call, id, now).streak, call.session.value) == 0 <==>
            call.session.value != "" || StreakOf(s.streak, "") == 0
  {
    HonouredIsLive(s, call, now);
  }

  // ---------------------------------------------------------------- the active policy

  /** Full access is only ever active in a process that unlocked it, and not after a restart. */
  lemma FullAccessWasUnlocked(s: Store)
    requires Reachable(s)
    ensures ActivePolicy(s.session, s.data.profile) == FullAccess ==> s.fullEnabled
    ensures var again := Restarted(s); ActivePolicy(again.session, again.data.profile) != FullAccess
  {
    ReachableInv(s);
    RestartKeepsInv(s);
  }

  /** A chosen profile is the active one exactly when no preset was applied in this process, or the same one. */
  lemma SetProfileTakesEffect(s: Store, profile: Profile, grants: Option<seq<Grant>>)
    requires profile != FullAccess
    ensures var after := Step(s, SetProfile(profile, grants));
      ActivePolicy(after.session, after.data.profile) == profile <==> s.session.None? || s.session == Some(profile)
  {}

  // ---------------------------------------------------------------- where it surprises, as runs

  lemma Start(persistent: bool)
    ensures Reachable(Fresh(persistent))
  {
    assert Run(Fresh(persistent), []) == Some(Fresh(persistent));
  }

  lemma {:induction false} RunAppend(s: Store, events: seq<Event>, e: Event)
    requires Run(s, events).Some? && Enabled(Run(s, events).value, e)
    ensures Run(s, events + [e]) == Some(Step(Run(s, events).value, e))
    decreases |events|
  {
    hide Step; hide Enabled;
    if events == [] {
      assert [e][1..] == [] && [] + [e] == [e];
    } else {
      assert (events + [e])[1..] == events[1..] + [e];
      RunAppend(Step(s, events[0]), events[1..], e);
    }
  }

  lemma SamePersistence(s: Store, e: Event)
    ensures Step(s, e).persistent == s.persistent
  {
    hide Final; hide Row; hide Saved; hide Judge; hide Honours;
  }

  lemma Continue(s: Store, e: Event)
    requires Reachable(s) && Enabled(s, e)
    ensures Reachable(Step(s, e))
  {
    var events: seq<Event> :| Run(Fresh(s.persistent), events) == Some(s);
    RunAppend(Fresh(s.persistent), events, e);
    SamePersistence(s, e);
    hide Step; hide Enabled; hide Run;
  }

  /** After the auto preset, choosing the read-only profile leaves scoped actions allowed. */
  lemma ReadOnlyAfterPresetIsIgnored(persistent: bool) returns (s: Store)
    ensures Reachable(s) && s.data.profile == ReadOnly && ActivePolicy(s.session, s.data.profile) == AllowScoped
  {
    Start(persistent);
    s := Fresh(persistent);
    hide Reachable; hide Saved;
    Continue(s, ApplyPreset(Auto)); s := Step(s, ApplyPreset(Auto));
    Continue(s, SetProfile(ReadOnly, None)); s := Step(s, SetProfile(ReadOnly, None));
  }

  /** A decision of the unnamed session. */
  function Unnamed(allow: bool): Decision {
    Decision("", "write", "user", None, allow, None, None, None, false, false)
  }

  /** The unnamed session allows, rejects and uses its approval: the call is allowed, the streak stays at one. */
  lemma UnnamedStreakSurvives(persistent: bool) returns (s: Store)
    ensures Reachable(s) && s.honoured == [0] && StreakOf(s.streak, "") == 1
    ensures s.outcomes == [("", true), ("", false), ("", true)]
  {
    Start(persistent);
    s := Fresh(persistent);
    hide Reachable; hide Saved;
    Continue(s, Decide(Unnamed(true), 0)); s := Step(s, Decide(Unnamed(true), 0));
    assert 0 in s.live && s.data.audit == [s.live[0]];
    Continue(s, Decide(Unnamed(false), 1)); s := Step(s, Decide(Unnamed(false), 1));
    var call := Call("write", "user", Some(0), None, None, None, Some(""), None, false, [], false);
    assert Honours(s, call, 0);
    Continue(s, Evaluate(call, 2, 0)); s := Step(s, Evaluate(call, 2, 0));
  }
}
