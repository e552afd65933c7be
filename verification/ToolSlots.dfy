/**
 Agent registry and two-level tool slots of AgentRuntime
 (appserver/agent_runtime.py:171-310).  A use is one acquire_tool_slot block; it
 takes its agent's semaphore and then the session's, and a semaphore may grant a
 permit to any of its waiters.
 */
module ToolSlots {
  import opened Wrappers

  datatype Sem = Sem(cap: nat, free: nat)
  datatype Stage = WaitsAgent | WaitsGlobal | Holds

  /** sem is the agent semaphore the block looked up when it was entered; inside is the enclosing block. */
  datatype Use = Use(agent: string, sem: nat, stage: Stage, inside: Option<nat>)

  /** sems[0] is the session's semaphore; quotas names the current semaphore of each agent. */
  datatype Runtime =
    Runtime(limit: int, agents: set<string>, quotas: map<string, nat>, sems: seq<Sem>, uses: map<nat, Use>)

  datatype Event =
    | Spawn(agent: string, quota: int)
    | Stop(agent: string)
    | Enter(use: nat, agent: string, inside: Option<nat>)
    | Granted(use: nat)
    | Finished(use: nat)
    | Cancelled(use: nat)

  function AtLeastOne(n: int): nat { if n < 1 then 1 else n }

  function Fresh(limit: int, slots: int): Runtime {
    Runtime(limit, {}, map[], [Sem(AtLeastOne(slots), AtLeastOne(slots))], map[])
  }

  // ---------------------------------------------------------------- steps

  /** The semaphore a waiting use waits for. */
  function Awaited(u: Use): nat { if u.stage == WaitsAgent then u.sem else 0 }

  /** The use has a permit of semaphore s. */
  predicate Takes(u: Use, s: nat) {
    if s == 0 then u.stage == Holds else u.sem == s && u.stage != WaitsAgent
  }

  predicate IsInnermost(uses: map<nat, Use>, use: nat) {
    forall u :: u in uses ==> uses[u].inside != Some(use)
  }

  predicate Enabled(r: Runtime, e: Event) {
    match e
    case Spawn(_, _) => true
    case Stop(_) => true
    case Enter(use, agent, inside) =>
      && use !in r.uses && agent in r.quotas
      && (inside.Some? ==> inside.value in r.uses && r.uses[inside.value].stage == Holds)
    case Granted(use) =>
      && use in r.uses && r.uses[use].stage != Holds
      && Awaited(r.uses[use]) < |r.sems| && r.sems[Awaited(r.uses[use])].free > 0
    case Finished(use) => use in r.uses && r.uses[use].stage == Holds && IsInnermost(r.uses, use)
    case Cancelled(use) => use in r.uses && IsInnermost(r.uses, use)
  }

  function Acquire(sems: seq<Sem>, s: nat): seq<Sem>
    requires s < |sems| && sems[s].free > 0
  {
    sems[s := sems[s].(free := sems[s].free - 1)]
  }

  function Release(sems: seq<Sem>, s: nat): seq<Sem>
    requires s < |sems|
  {
    sems[s := sems[s].(free := sems[s].free + 1)]
  }

  /** Unwinding the block: the permits it has go back, the session's first. */
  function Unwind(r: Runtime, use: nat): Runtime
    requires use in r.uses && r.uses[use].sem < |r.sems|
  {
    var u := r.uses[use];
    var sems := if u.stage == Holds then Release(r.sems, 0) else r.sems;
    r.(uses := r.uses - {use}, sems := if u.stage == WaitsAgent then sems else Release(sems, u.sem))
  }

  function Advance(r: Runtime, use: nat): Runtime
    requires Enabled(r, Granted(use))
  {
    var u := r.uses[use];
    r.(sems := Acquire(r.sems, Awaited(u)),
       uses := r.uses[use := u.(stage := if u.stage == WaitsAgent then WaitsGlobal else Holds)])
  }

  /** spawn refuses an agent that is registered and one too many; a new agent gets a new semaphore. */
  function Register(r: Runtime, agent: string, quota: int): Runtime {
    if agent in r.agents || |r.agents| >= r.limit then r
    else r.(agents := r.agents + {agent}, quotas := r.quotas[agent := |r.sems|],
            sems := r.sems + [Sem(AtLeastOne(quota), AtLeastOne(quota))])
  }

  function Step(r: Runtime, e: Event): Runtime
    requires Enabled(r, e) && SemsNamed(r)
  {
    match e
    case Spawn(agent, quota) => Register(r, agent, quota)
    case Stop(agent) => r.(agents := r.agents - {agent})
    case Enter(use, agent, inside) => r.(uses := r.uses[use := Use(agent, r.quotas[agent], WaitsAgent, inside)])
    case Granted(use) => Advance(r, use)
    case Finished(use) => Unwind(r, use)
    case Cancelled(use) => Unwind(r, use)
  }

  // ---------------------------------------------------------------- invariant

  predicate SemsNamed(r: Runtime) {
    && |r.sems| >= 1
    && (forall a :: a in r.quotas ==> 0 < r.quotas[a] < |r.sems|)
    && (forall u :: u in r.uses ==> 0 < r.uses[u].sem < |r.sems|)
  }

  ghost function Holders(uses: map<nat, Use>, s: nat): set<nat> {
    set u | u in uses && Takes(uses[u], s)
  }

  ghost predicate Conserved(sems: seq<Sem>, uses: map<nat, Use>) {
    forall s :: 0 <= s < |sems| ==> sems[s].cap >= 1 && sems[s].free + |Holders(uses, s)| == sems[s].cap
  }

  predicate RegistryOk(agents: set<string>, limit: int) { |agents| <= (if limit < 0 then 0 else limit) }

  ghost predicate Inv(r: Runtime) {
    SemsNamed(r) && Conserved(r.sems, r.uses) && RegistryOk(r.agents, r.limit)
  }

  // ---------------------------------------------------------------- the invariant is kept

  function Permits(u: Use, s: nat): nat { if Takes(u, s) then 1 else 0 }

  lemma HoldersMove(uses: map<nat, Use>, use: nat, u: Use, s: nat)
    requires use in uses
    ensures |Holders(uses[use := u], s)| + Permits(uses[use], s) == |Holders(uses, s)| + Permits(u, s)
    ensures |Holders(uses - {use}, s)| + Permits(uses[use], s) == |Holders(uses, s)|
  {
    var before := Holders(uses, s);
    assert Holders(uses - {use}, s) == before - {use};
    assert Holders(uses[use := u], s) == before - {use} + (if Takes(u, s) then {use} else {});
  }

  lemma HoldersAdd(uses: map<nat, Use>, use: nat, u: Use, s: nat)
    requires use !in uses && u.stage == WaitsAgent
    ensures Holders(uses[use := u], s) == Holders(uses, s)
  {}

  lemma AdvanceKeeps(r: Runtime, use: nat)
    requires Inv(r) && Enabled(r, Granted(use))
    ensures Inv(Advance(r, use))
  {
    var r' := Advance(r, use);
    forall s | 0 <= s < |r.sems|
      ensures r'.sems[s].cap == r.sems[s].cap
      ensures r'.sems[s].free + |Holders(r'.uses, s)| == r.sems[s].free + |Holders(r.uses, s)|
    {
      HoldersMove(r.uses, use, r'.uses[use], s);
      hide Holders;
    }
    hide Holders;
  }

  lemma UnwindKeeps(r: Runtime, use: nat)
    requires Inv(r) && use in r.uses
    ensures Inv(Unwind(r, use))
  {
    var r' := Unwind(r, use);
    forall s | 0 <= s < |r.sems|
      ensures r'.sems[s].cap == r.sems[s].cap
      ensures r'.sems[s].free + |Holders(r'.uses, s)| == r.sems[s].free + |Holders(r.uses, s)|
    {
      HoldersMove(r.uses, use, r.uses[use], s);
      hide Holders;
    }
    hide Holders;
  }

  lemma RegisterKeeps(r: Runtime, agent: string, quota: int)
    requires Inv(r)
    ensures Inv(Register(r, agent, quota))
  {
    assert Holders(r.uses, |r.sems|) == {};
  }

  lemma EnterKeeps(r: Runtime, use: nat, agent: string, inside: Option<nat>)
    requires Inv(r) && Enabled(r, Enter(use, agent, inside))
    ensures Inv(Step(r, Enter(use, agent, inside)))
  {
    var r' := Step(r, Enter(use, agent, inside));
    forall s | 0 <= s < |r.sems|
      ensures Holders(r'.uses, s) == Holders(r.uses, s)
    {
      HoldersAdd(r.uses, use, r'.uses[use], s);
      hide Holders;
    }
    hide Holders;
  }

  /** Free permits plus holders is every semaphore's capacity, and the registry keeps its limit, after every step. */
  lemma StepKeepsInv(r: Runtime, e: Event)
    requires Inv(r) && Enabled(r, e)
    ensures Inv(Step(r, e))
  {
    match e
    case Spawn(agent, quota) => RegisterKeeps(r, agent, quota);
    case Stop(agent) =>
      if agent in r.agents {
        assert |r.agents - {agent}| == |r.agents| - 1;
      } else {
        assert r.agents - {agent} == r.agents;
      }
    case Enter(use, agent, inside) => EnterKeeps(r, use, agent, inside);
    case Granted(use) => AdvanceKeeps(r, use);
    case Finished(use) => UnwindKeeps(r, use);
    case Cancelled(use) => UnwindKeeps(r, use);
  }

  /** The state after a run, if every event of it could happen; each state on the way meets the invariant. */
  ghost function Run(r: Runtime, events: seq<Event>): (end: Option<Runtime>)
    requires Inv(r)
    ensures end.Some? ==> Inv(end.value)
    decreases |events|
  {
    if events == [] then Some(r)
    else if Enabled(r, events[0]) then StepKeepsInv(r, events[0]); Run(Step(r, events[0]), events[1..])
    else None
  }

  lemma {:induction false} RunTwice(r: Runtime, first: seq<Event>, second: seq<Event>)
    requires Inv(r) && Run(r, first).Some?
    ensures Run(r, first + second) == Run(Run(r, first).value, second)
    decreases |first|
  {
    if first == [] {
      assert first + second == second;
    } else {
      assert (first + second)[1..] == first[1..] + second;
      StepKeepsInv(r, first[0]);
      RunTwice(Step(r, first[0]), first[1..], second);
    }
  }

  lemma FreshInv(limit: int, slots: int)
    ensures Inv(Fresh(limit, slots))
  {
    var r := Fresh(limit, slots);
    assert Holders(r.uses, 0) == {};
  }

  /** No semaphore is ever over-subscribed or over-released, in any run of a new runtime. */
  lemma SlotsConserved(limit: int, slots: int, events: seq<Event>, s: nat)
    ensures Inv(Fresh(limit, slots))
    ensures var end := Run(Fresh(limit, slots), events);
            end.Some? ==>
            && |end.value.agents| <= (if limit < 0 then 0 else limit)
            && (s < |end.value.sems| ==> |Holders(end.value.uses, s)| == end.value.sems[s].cap - end.value.sems[s].free)
  {
    FreshInv(limit, slots);
    if Run(Fresh(limit, slots), events).Some? {
      KeepsLimit(Fresh(limit, slots), events);
    }
  }

  lemma {:induction false} KeepsLimit(r: Runtime, events: seq<Event>)
    requires Inv(r) && Run(r, events).Some?
    ensures Run(r, events).value.limit == r.limit
    decreases |events|
  {
    if events != [] {
      StepKeepsInv(r, events[0]);
      KeepsLimit(Step(r, events[0]), events[1..]);
    }
  }

  // ---------------------------------------------------------------- progress

  predicate Flat(uses: map<nat, Use>) { forall u :: u in uses ==> uses[u].inside == None }

  lemma HasElement(s: set<nat>)
    requires |s| > 0
    ensures exists x :: x in s
  {}

  /** A waiter whose semaphore is exhausted has a holder in front of it. */
  lemma WaiterImpliesHolder(r: Runtime, use: nat)
    requires Inv(r) && use in r.uses && r.uses[use].stage != Holds
    ensures Enabled(r, Granted(use)) || exists h :: h in r.uses && h != use && Takes(r.uses[h], Awaited(r.uses[use]))
  {
    var s := Awaited(r.uses[use]);
    if r.sems[s].free == 0 {
      HasElement(Holders(r.uses, s));
      var h :| h in Holders(r.uses, s);
      assert Takes(r.uses[h], s);
    }
  }

  /** With no nested blocks some block can always move on, without any cancellation. */
  lemma SomeUseMoves(r: Runtime) returns (use: nat)
    requires Inv(r) && Flat(r.uses) && r.uses != map[]
    ensures use in r.uses && (Enabled(r, Finished(use)) || Enabled(r, Granted(use)))
  {
    if use' :| use' in r.uses && r.uses[use'].stage == Holds {
      use := use';
    } else {
      if use' :| use' in r.uses && r.uses[use'].stage == WaitsGlobal {
        use := use';
      } else {
        use :| use in r.uses;
      }
      WaiterImpliesHolder(r, use);
    }
  }

  /** Work left in a block, in steps. */
  function Rank(stage: Stage): nat {
    match stage case WaitsAgent => 3 case WaitsGlobal => 2 case Holds => 1
  }

  ghost function Work(uses: map<nat, Use>): nat
    decreases |uses|
  {
    if uses == map[] then 0
    else
      var u :| u in uses;
      Rank(uses[u].stage) + Work(uses - {u})
  }

  lemma {:induction false} WorkAt(uses: map<nat, Use>, u: nat)
    requires u in uses
    ensures Work(uses) == Rank(uses[u].stage) + Work(uses - {u})
    decreases |uses|
  {
    var v :| v in uses && Work(uses) == Rank(uses[v].stage) + Work(uses - {v});
    if v != u {
      WorkAt(uses - {v}, u);
      WorkAt(uses - {u}, v);
      assert uses - {v} - {u} == uses - {u} - {v};
    }
  }

  lemma WorkShrinks(r: Runtime, use: nat, e: Event)
    requires Inv(r) && Enabled(r, e) && (e == Finished(use) || e == Granted(use))
    ensures Work(Step(r, e).uses) < Work(r.uses)
  {
    WorkAt(r.uses, use);
    if e == Granted(use) {
      var r' := Step(r, e);
      WorkAt(r'.uses, use);
      assert r'.uses - {use} == r.uses - {use};
    }
  }

  /** Deadlock freedom: without nesting, grants and finished blocks alone drain every waiter and return permits. */
  lemma {:induction false} Drains(r: Runtime) returns (events: seq<Event>)
    requires Inv(r) && Flat(r.uses)
    ensures forall e :: e in events ==> e.Granted? || e.Finished?
    ensures Run(r, events).Some? && Run(r, events).value.uses == map[]
    ensures forall s :: s in Run(r, events).value.sems ==> s.free == s.cap
    decreases Work(r.uses)
  {
    if r.uses == map[] {
      events := [];
      forall s | 0 <= s < |r.sems| ensures r.sems[s].free == r.sems[s].cap {
        assert Holders(r.uses, s) == {};
      }
    } else {
      var use := SomeUseMoves(r);
      var e := if Enabled(r, Finished(use)) then Finished(use) else Granted(use);
      WorkShrinks(r, use, e);
      StepKeepsInv(r, e);
      var rest := Drains(Step(r, e));
      events := [e] + rest;
      assert events[1..] == rest;
    }
  }

  // ---------------------------------------------------------------- where the quota and the progress stop

  ghost predicate Reachable(r: Runtime, limit: int, slots: int) {
    Inv(Fresh(limit, slots)) && exists events: seq<Event> :: Run(Fresh(limit, slots), events) == Some(r)
  }

  lemma Start(limit: int, slots: int)
    ensures Reachable(Fresh(limit, slots), limit, slots)
  {
    FreshInv(limit, slots);
    assert Run(Fresh(limit, slots), []) == Some(Fresh(limit, slots));
  }

  lemma Continue(r: Runtime, limit: int, slots: int, e: Event)
    requires Reachable(r, limit, slots) && Enabled(r, e)
    ensures Inv(r) && Reachable(Step(r, e), limit, slots)
  {
    var events: seq<Event> :| Run(Fresh(limit, slots), events) == Some(r);
    StepKeepsInv(r, e);
    RunTwice(Fresh(limit, slots), events, [e]);
    assert [e][1..] == [];
    assert Run(r, [e]) == Some(Step(r, e));
  }

  /** An agent with quota one holding its only permit. */
  lemma OneHolder(agent: string, slots: int) returns (r: Runtime)
    ensures Reachable(r, 1, slots) && Inv(r) && r.limit == 1
    ensures r.agents == {agent} && r.quotas == map[agent := 1]
    ensures r.sems == [Sem(AtLeastOne(slots), AtLeastOne(slots) - 1), Sem(1, 0)]
    ensures r.uses == map[0 := Use(agent, 1, Holds, None)]
  {
    Start(1, slots);
    r := Fresh(1, slots);
    hide Reachable; hide Inv;
    Continue(r, 1, slots, Spawn(agent, 1)); r := Step(r, Spawn(agent, 1));
    Continue(r, 1, slots, Enter(0, agent, None)); r := Step(r, Enter(0, agent, None));
    Continue(r, 1, slots, Granted(0)); r := Step(r, Granted(0));
    Continue(r, 1, slots, Granted(0)); r := Step(r, Granted(0));
    Continue(r, 1, slots, Stop(agent));
  }

  /** Nothing can happen to the blocks of r except cancellation. */
  predicate Stuck(r: Runtime) {
    && r.uses != map[]
    && forall u :: u in r.uses ==> !Enabled(r, Granted(u)) && !Enabled(r, Finished(u))
  }

  /** One block inside another, under a quota of one, waits for its own permit: the pair is stuck. */
  lemma NestedUseDeadlocks(agent: string, slots: int) returns (r: Runtime)
    ensures Reachable(r, 1, slots) && Stuck(r)
  {
    r := OneHolder(agent, slots);
    hide Reachable; hide Inv;
    var e := Enter(1, agent, Some(0));
    Continue(r, 1, slots, e); r := Step(r, e);
    assert r.uses[1].inside == Some(0);
  }

  /** Blocks of one agent that hold a slot. */
  ghost function Working(r: Runtime, agent: string): set<nat> {
    set u | u in r.uses && r.uses[u].agent == agent && r.uses[u].stage == Holds
  }

  /** All open blocks of one agent use one semaphore: no stop and respawn happened while a block was open. */
  predicate OneIncarnation(r: Runtime, agent: string) {
    agent in r.quotas && forall u :: u in r.uses && r.uses[u].agent == agent ==> r.uses[u].sem == r.quotas[agent]
  }

  lemma SubsetSize(a: set<nat>, b: set<nat>)
    requires a <= b
    ensures |a| <= |b|
  {
    assert b == a + (b - a);
  }

  /** The quota bounds an agent's slots while all its open blocks belong to its latest spawn. */
  lemma QuotaHolds(r: Runtime, agent: string)
    requires Inv(r) && OneIncarnation(r, agent)
    ensures |Working(r, agent)| <= r.sems[r.quotas[agent]].cap
  {
    SubsetSize(Working(r, agent), Holders(r.uses, r.quotas[agent]));
  }

  /** Only one step ends that: a spawn that registers the agent anew while a block of it is open. */
  lemma OneIncarnationEnds(r: Runtime, agent: string, e: Event)
    requires Inv(r) && Enabled(r, e) && OneIncarnation(r, agent)
    ensures !OneIncarnation(Step(r, e), agent) <==>
      && e.Spawn? && e.agent == agent && agent !in r.agents && |r.agents| < r.limit
      && exists u :: u in r.uses && r.uses[u].agent == agent
  {
    hide Conserved;
    var r' := Step(r, e);
    if e.Spawn? && e.agent == agent && agent !in r.agents && |r.agents| < r.limit {
      assert r'.quotas[agent] == |r.sems|;
      if u :| u in r.uses && r.uses[u].agent == agent {
        assert r'.uses[u].sem != r'.quotas[agent];
      }
    } else {
      forall u | u in r'.uses && r'.uses[u].agent == agent ensures r'.uses[u].sem == r'.quotas[agent] {
        if u in r.uses {
          assert r.uses[u].agent == agent;
        }
      }
    }
  }

  predicate NoSpawnOf(events: seq<Event>, agent: string) {
    forall i :: 0 <= i < |events| && events[i].Spawn? ==> events[i].agent != agent
  }

  /** Nothing that can happen before the agent's next spawn puts it over its quota. */
  ghost predicate StaysWithinQuota(r: Runtime, agent: string)
    requires Inv(r) && agent in r.quotas
  {
    forall events: seq<Event> :: NoSpawnOf(events, agent) && Run(r, events).Some? ==>
      |Working(Run(r, events).value, agent)| <= r.sems[r.quotas[agent]].cap
  }

  /** Semaphores and their capacities stay, as do the quotas other than those of new agents. */
  predicate Grown(r: Runtime, r': Runtime) {
    && |r.sems| <= |r'.sems|
    && forall s :: 0 <= s < |r.sems| ==> r'.sems[s].cap == r.sems[s].cap
  }

  lemma {:induction false} IncarnationStays(r: Runtime, agent: string, events: seq<Event>)
    requires Inv(r) && agent in r.quotas && NoSpawnOf(events, agent) && Run(r, events).Some?
    ensures var end := Run(r, events).value;
      && Grown(r, end) && agent in end.quotas && end.quotas[agent] == r.quotas[agent]
      && (OneIncarnation(r, agent) ==> OneIncarnation(end, agent))
    decreases |events|
  {
    if events != [] {
      StepKeepsInv(r, events[0]);
      if OneIncarnation(r, agent) {
        OneIncarnationEnds(r, agent, events[0]);
      }
      hide Inv; hide Enabled; hide OneIncarnation;
      IncarnationStays(Step(r, events[0]), agent, events[1..]);
    }
  }

  // From a block of an earlier spawn to more slots than the quota.

  lemma NoSpawnJoins(a: seq<Event>, b: seq<Event>, agent: string)
    requires NoSpawnOf(a, agent) && NoSpawnOf(b, agent)
    ensures NoSpawnOf(a + b, agent)
  {}

  /** The blocks are what counts: quotas and semaphores are the same, and the free permits follow from the blocks. */
  ghost predicate Leads(r: Runtime, events: seq<Event>, agent: string, r': Runtime)
    requires Inv(r)
  {
    NoSpawnOf(events, agent) && Run(r, events) == Some(r') && r'.quotas == r.quotas && Grown(r, r')
  }

  lemma LeadsOn(r: Runtime, a: seq<Event>, agent: string, mid: Runtime, b: seq<Event>, end: Runtime)
    requires Inv(r) && Inv(mid) && Leads(r, a, agent, mid) && Leads(mid, b, agent, end)
    ensures Leads(r, a + b, agent, end)
  {
    NoSpawnJoins(a, b, agent);
    RunTwice(r, a, b);
    hide Run; hide Inv;
  }

  lemma OneStep(r: Runtime, e: Event, agent: string)
    requires Inv(r) && Enabled(r, e) && !e.Spawn?
    ensures Inv(Step(r, e)) && Leads(r, [e], agent, Step(r, e))
  {
    StepKeepsInv(r, e);
    assert [e][1..] == [];
    assert Run(r, [e]) == Run(Step(r, e), []);
  }

  /** All blocks but one are cancelled. */
  lemma {:induction false} CancelOthers(r: Runtime, use: nat, agent: string)
    returns (events: seq<Event>, end: Runtime)
    requires Inv(r) && Flat(r.uses) && use in r.uses
    ensures Inv(end) && Leads(r, events, agent, end) && end.uses == map[use := r.uses[use]]
    decreases |r.uses|
  {
    if u :| u in r.uses && u != use {
      var e := Cancelled(u);
      OneStep(r, e, agent);
      var mid := Step(r, e);
      assert mid.uses == r.uses - {u};
      var rest;
      rest, end := CancelOthers(mid, use, agent);
      LeadsOn(r, [e], agent, mid, rest, end);
      events := [e] + rest;
    } else {
      events, end := [], r;
      assert r.uses == map[use := r.uses[use]];
    }
  }

  /** A waiting block gets its permit while fewer blocks hold than the semaphore has. */
  lemma Grant(r: Runtime, use: nat, agent: string)
    requires Inv(r) && use in r.uses && r.uses[use].stage != Holds
    requires |Holders(r.uses, Awaited(r.uses[use]))| < r.sems[Awaited(r.uses[use])].cap
    ensures Enabled(r, Granted(use)) && Inv(Step(r, Granted(use)))
    ensures Leads(r, [Granted(use)], agent, Step(r, Granted(use)))
  {
    assert r.sems[Awaited(r.uses[use])].free > 0;
    hide Conserved;
    OneStep(r, Granted(use), agent);
  }

  /** A lone block is granted both its permits. */
  lemma {:induction false} ServeAlone(r: Runtime, use: nat, agent: string) returns (events: seq<Event>, end: Runtime)
    requires Inv(r) && use in r.uses && r.uses == map[use := r.uses[use]]
    ensures Inv(end) && Leads(r, events, agent, end)
    ensures end.uses == map[use := r.uses[use].(stage := Holds)]
    decreases Rank(r.uses[use].stage)
  {
    if r.uses[use].stage == Holds {
      events, end := [], r;
    } else {
      assert Holders(r.uses, Awaited(r.uses[use])) == {};
      Grant(r, use, agent);
      var e, mid := Granted(use), Step(r, Granted(use));
      assert mid.uses == map[use := mid.uses[use]];
      hide Inv; hide Holders;
      var rest;
      rest, end := ServeAlone(mid, use, agent);
      LeadsOn(r, [e], agent, mid, rest, end);
      events := [e] + rest;
    }
  }

  /** A new block is entered and granted both its permits. */
  lemma Admit(r: Runtime, use: nat, agent: string) returns (events: seq<Event>, end: Runtime)
    requires Inv(r) && use !in r.uses && agent in r.quotas
    requires |Holders(r.uses, 0)| < r.sems[0].cap
    requires |Holders(r.uses, r.quotas[agent])| < r.sems[r.quotas[agent]].cap
    ensures Inv(end) && Leads(r, events, agent, end)
    ensures end.uses == r.uses[use := Use(agent, r.quotas[agent], Holds, None)]
  {
    var q := r.quotas[agent];
    var e := Enter(use, agent, None);
    OneStep(r, e, agent);
    var r1 := Step(r, e);
    HoldersAdd(r.uses, use, r1.uses[use], q);
    HoldersAdd(r.uses, use, r1.uses[use], 0);
    Grant(r1, use, agent);
    var r2 := Step(r1, Granted(use));
    HoldersMove(r1.uses, use, r2.uses[use], 0);
    Grant(r2, use, agent);
    end := Step(r2, Granted(use));
    LeadsOn(r1, [Granted(use)], agent, r2, [Granted(use)], end);
    LeadsOn(r, [e], agent, r1, [Granted(use)] + [Granted(use)], end);
    events := [e] + ([Granted(use)] + [Granted(use)]);
  }

  lemma {:induction false} FreshUse(s: set<nat>) returns (n: nat)
    ensures forall x :: x in s ==> x < n
  {
    if x :| x in s {
      var m := FreshUse(s - {x});
      n := if x < m then m else x + 1;
      forall y | y in s ensures y < n {
        assert y == x || y in s - {x};
      }
    } else {
      n := 0;
    }
  }

  predicate AllHold(uses: map<nat, Use>) { forall u :: u in uses ==> uses[u].stage == Holds }

  lemma AdmitCounts(r: Runtime, r': Runtime, use: nat, agent: string, q: nat)
    requires use !in r.uses && q != 0 && AllHold(r.uses) && r'.uses == r.uses[use := Use(agent, q, Holds, None)]
    ensures AllHold(r'.uses) && |r'.uses| == |r.uses| + 1
    ensures |Working(r', agent)| == |Working(r, agent)| + 1
    ensures |Holders(r'.uses, q)| == |Holders(r.uses, q)| + 1
  {
    assert Working(r', agent) == Working(r, agent) + {use};
    assert Holders(r'.uses, q) == Holders(r.uses, q) + {use};
  }

  /** n more blocks of the agent get their slots. */
  lemma {:induction false} Fill(r: Runtime, agent: string, n: nat) returns (events: seq<Event>, end: Runtime)
    requires Inv(r) && agent in r.quotas && AllHold(r.uses)
    requires |r.uses| + n <= r.sems[0].cap
    requires |Holders(r.uses, r.quotas[agent])| + n <= r.sems[r.quotas[agent]].cap
    ensures Inv(end) && Leads(r, events, agent, end)
    ensures |Working(end, agent)| == |Working(r, agent)| + n
    decreases n
  {
    if n == 0 {
      events, end := [], r;
    } else {
      var use := FreshUse(r.uses.Keys);
      assert Holders(r.uses, 0) == r.uses.Keys;
      var first, mid := Admit(r, use, agent);
      AdmitCounts(r, mid, use, agent, r.quotas[agent]);
      hide Inv; hide Holders; hide Working; hide AllHold;
      var rest;
      rest, end := Fill(mid, agent, n - 1);
      LeadsOn(r, first, agent, mid, rest, end);
      events := first + rest;
    }
  }

  /** One old block and a full quota of new ones. */
  lemma OldBlockExceedsQuota(r: Runtime, agent: string, old': nat) returns (events: seq<Event>, end: Runtime)
    requires Inv(r) && Flat(r.uses) && agent in r.quotas
    requires old' in r.uses && r.uses[old'].agent == agent && r.uses[old'].sem != r.quotas[agent]
    requires r.sems[0].cap > r.sems[r.quotas[agent]].cap
    ensures Inv(end) && Leads(r, events, agent, end)
    ensures |Working(end, agent)| == r.sems[r.quotas[agent]].cap + 1
  {
    var q := r.quotas[agent];
    var a, r1 := CancelOthers(r, old', agent);
    var b, r2 := ServeAlone(r1, old', agent);
    LeadsOn(r, a, agent, r1, b, r2);
    assert r2.uses.Keys == {old'} && Holders(r2.uses, q) == {} && Working(r2, agent) == {old'};
    var c;
    c, end := Fill(r2, agent, r.sems[q].cap);
    LeadsOn(r, a + b, agent, r2, c, end);
    events := a + b + c;
  }

  /**
   With no nested blocks, an agent keeps within its quota until its next spawn, whatever
   happens, exactly when all its open blocks belong to its latest spawn or the session
   has no more slots than the quota anyway.
   */
  lemma QuotaHoldsExactly(r: Runtime, agent: string)
    requires Inv(r) && Flat(r.uses) && agent in r.quotas
    ensures StaysWithinQuota(r, agent) <==>
      OneIncarnation(r, agent) || r.sems[0].cap <= r.sems[r.quotas[agent]].cap
  {
    var cap := r.sems[r.quotas[agent]].cap;
    if OneIncarnation(r, agent) || r.sems[0].cap <= cap {
      forall events: seq<Event> | NoSpawnOf(events, agent) && Run(r, events).Some?
        ensures |Working(Run(r, events).value, agent)| <= cap
      {
        WithinQuota(r, agent, events);
      }
    } else {
      var u :| u in r.uses && r.uses[u].agent == agent && r.uses[u].sem != r.quotas[agent];
      var events, end := OldBlockExceedsQuota(r, agent, u);
      assert Run(r, events).Some?;
    }
  }

  /** That direction needs no flatness. */
  lemma WithinQuota(r: Runtime, agent: string, events: seq<Event>)
    requires Inv(r) && agent in r.quotas && NoSpawnOf(events, agent) && Run(r, events).Some?
    requires OneIncarnation(r, agent) || r.sems[0].cap <= r.sems[r.quotas[agent]].cap
    ensures |Working(Run(r, events).value, agent)| <= r.sems[r.quotas[agent]].cap
  {
    var end := Run(r, events).value;
    IncarnationStays(r, agent, events);
    if OneIncarnation(r, agent) {
      QuotaHolds(end, agent);
    } else {
      SubsetSize(Working(end, agent), Holders(end.uses, 0));
    }
  }

  /** The agent is stopped and spawned again while its block is open; a second block is entered. */
  lemma Respawned(agent: string, slots: int) returns (r: Runtime)
    ensures Reachable(r, 1, slots) && Inv(r) && r.quotas == map[agent := 2]
    ensures r.sems == [Sem(AtLeastOne(slots), AtLeastOne(slots) - 1), Sem(1, 0), Sem(1, 1)]
    ensures r.uses == map[0 := Use(agent, 1, Holds, None), 1 := Use(agent, 2, WaitsAgent, None)]
  {
    r := OneHolder(agent, slots);
    hide Reachable; hide Inv;
    Continue(r, 1, slots, Stop(agent)); r := Step(r, Stop(agent));
    assert r.agents == {};
    Continue(r, 1, slots, Spawn(agent, 1)); r := Step(r, Spawn(agent, 1));
    Continue(r, 1, slots, Enter(1, agent, None)); r := Step(r, Enter(1, agent, None));
    Continue(r, 1, slots, Stop(agent));
  }

  /** Stopping and respawning an agent with a block still open gives it a second slot on a quota of one. */
  lemma RespawnExceedsQuota(agent: string, slots: int) returns (r: Runtime)
    requires slots >= 2
    ensures Reachable(r, 1, slots) && |Working(r, agent)| == 2
    ensures agent in r.quotas && r.quotas[agent] < |r.sems| && r.sems[r.quotas[agent]].cap == 1
  {
    r := Respawned(agent, slots);
    hide Reachable; hide Inv;
    Continue(r, 1, slots, Granted(1)); r := Step(r, Granted(1));
    Continue(r, 1, slots, Granted(1)); r := Step(r, Granted(1));
    assert Working(r, agent) == {0, 1};
  }
}
