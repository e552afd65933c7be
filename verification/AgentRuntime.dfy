/**
 The AgentRuntime object (appserver/agent_runtime.py:162-402): registry, tool slots
 and token ledgers, proved against modules ToolSlots and TokenLedger.
 */
module AgentRuntimes {
  import opened Wrappers
  import T = ToolSlots
  import L = TokenLedger

  datatype Check = UnknownAgent | Passed | Exceeded

  class AgentRuntime {
    const limit: int
    const budgetTotal: Option<int>
    var agents: set<string>
    var quotas: map<string, nat>
    var sems: seq<T.Sem>
    var uses: map<nat, T.Use>
    /** budget_tokens of every configuration ever registered, newest per agent. */
    var budgets: map<string, int>
    var usage: map<string, int>
    var sharedUsage: int
    var seen: set<string>
    /** Every call of RecordTokenUsage. */
    ghost var history: seq<L.Entry>

    ghost function Slots(): T.Runtime
      reads this
    {
      T.Runtime(limit, agents, quotas, sems, uses)
    }

    ghost predicate Valid()
      reads this
    {
      T.Inv(Slots()) && Books() == L.RecordAll(history)
    }

    constructor (limit: int, slots: int, budgetTotal: Option<int>)
      ensures Valid() && Slots() == T.Fresh(limit, slots) && history == []
      ensures this.budgetTotal == budgetTotal && budgets == map[]
      ensures var n := if slots < 1 then 1 else slots; sems == [T.Sem(n, n)]
    {
      this.limit, this.budgetTotal := limit, budgetTotal;
      agents, quotas, uses := {}, map[], map[];
      sems := [T.Sem(T.AtLeastOne(slots), T.AtLeastOne(slots))];
      budgets, usage, sharedUsage, seen, history := map[], map[], 0, {}, [];
      T.FreshInv(limit, slots);
    }

    /** No await between the checks and the registration; a refused spawn leaves everything alone. */
    method Spawn(agent: string, quota: int, budgetTokens: int) returns (ok: bool)
      requires Valid()
      modifies `agents, `quotas, `sems, `budgets
      ensures Valid() && Slots() == T.Step(old(Slots()), T.Spawn(agent, quota))
      ensures ok <==> agent !in old(agents) && |old(agents)| < limit
      ensures budgets == if ok then old(budgets)[agent := budgetTokens] else old(budgets)
      ensures ok ==> var n := if quota < 1 then 1 else quota;
        && agents == old(agents) + {agent}
        && quotas == old(quotas)[agent := |old(sems)|] && sems == old(sems) + [T.Sem(n, n)]
    {
      T.StepKeepsInv(Slots(), T.Spawn(agent, quota));
      ok := !(agent in agents || |agents| >= limit);
      if ok {
        quotas := quotas[agent := |sems|];
        sems := sems + [T.Sem(T.AtLeastOne(quota), T.AtLeastOne(quota))];
        agents, budgets := agents + {agent}, budgets[agent := budgetTokens];
      }
      hide T.Inv;
    }

    /** The registry entry goes; the quota and the ledgers stay. */
    method Stop(agent: string)
      requires Valid()
      modifies `agents
      ensures Valid() && Slots() == T.Step(old(Slots()), T.Stop(agent))
    {
      T.StepKeepsInv(Slots(), T.Stop(agent));
      agents := agents - {agent};
      hide T.Inv;
    }

    method EnterSlot(use: nat, agent: string, inside: Option<nat>)
      requires Valid() && T.Enabled(Slots(), T.Enter(use, agent, inside))
      modifies `uses
      ensures Valid() && Slots() == T.Step(old(Slots()), T.Enter(use, agent, inside))
    {
      T.StepKeepsInv(Slots(), T.Enter(use, agent, inside));
      uses := uses[use := T.Use(agent, quotas[agent], T.WaitsAgent, inside)];
      hide T.Inv;
    }

    /** A permit is handed to a waiting block: first the agent's, then the session's. */
    method GrantSlot(use: nat)
      requires Valid() && T.Enabled(Slots(), T.Granted(use))
      modifies `uses, `sems
      ensures Valid() && Slots() == T.Step(old(Slots()), T.Granted(use))
    {
      T.StepKeepsInv(Slots(), T.Granted(use));
      var u := uses[use];
      if u.stage == T.WaitsAgent {
        Take(u.sem);
        uses := uses[use := u.(stage := T.WaitsGlobal)];
      } else {
        Take(0);
        uses := uses[use := u.(stage := T.Holds)];
      }
      hide T.Inv;
    }

    method Take(s: nat)
      requires s < |sems| && sems[s].free > 0
      modifies `sems
      ensures sems == T.Acquire(old(sems), s)
    {
      sems := sems[s := sems[s].(free := sems[s].free - 1)];
    }

    method GiveBack(s: nat)
      requires s < |sems|
      modifies `sems
      ensures sems == T.Release(old(sems), s)
    {
      sems := sems[s := sems[s].(free := sems[s].free + 1)];
    }

    /** The end of the block, by return, exception or cancellation, whatever it was waiting for. */
    method LeaveSlot(use: nat)
      requires Valid() && T.Enabled(Slots(), T.Cancelled(use))
      modifies `uses, `sems
      ensures Valid() && Slots() == T.Step(old(Slots()), T.Cancelled(use))
    {
      T.StepKeepsInv(Slots(), T.Cancelled(use));
      var u := uses[use];
      uses := uses - {use};
      if u.stage == T.Holds {
        GiveBack(0);
      }
      if u.stage != T.WaitsAgent {
        GiveBack(u.sem);
      }
      hide T.Inv;
    }

    /** The agent's last accepted spawn gave it no budget of its own. */
    predicate Pooled(agent: string)
      reads `budgets
    {
      agent in budgets && budgets[agent] == 0
    }

    ghost function Books(): L.Books
      reads `usage, `sharedUsage, `seen
    {
      L.Books(usage, sharedUsage, seen)
    }

    /** The call was counted before, going by its key text. */
    predicate Counted(call: L.Call)
      reads `seen
    {
      call.key.Some? && L.KeyText(call.key.value) in seen
    }

    method Book(call: L.Call, pooled: bool)
      modifies `usage, `sharedUsage, `seen
      ensures Books() == L.Record(old(Books()), L.Entry(call, pooled))
      ensures sharedUsage == old(sharedUsage) + (if pooled && !old(Counted(call)) then call.tokens else 0)
      ensures usage ==
        if pooled || old(Counted(call)) then old(usage)
        else old(usage)[call.agent := (if call.agent in old(usage) then old(usage)[call.agent] else 0) + call.tokens]
    {
      hide L.KeyText;
      if call.key.Some? {
        if L.KeyText(call.key.value) in seen {
          return;
        }
        seen := seen + {L.KeyText(call.key.value)};
      }
      if pooled {
        sharedUsage := sharedUsage + call.tokens;
      } else {
        usage := usage[call.agent := (if call.agent in usage then usage[call.agent] else 0) + call.tokens];
      }
    }

    /**
     A call that repeats no earlier key text is booked once: on the shared counter if its
     agent's budget is zero, else on the agent's own entry and nowhere else.
     */
    method RecordTokenUsage(call: L.Call)
      requires Valid()
      modifies `usage, `sharedUsage, `seen, `history
      ensures Valid()
      ensures var zero := call.agent in budgets && budgets[call.agent] == 0;
        var again := exists i :: 0 <= i < |old(history)| && L.Same(L.ByText, old(history)[i].call, call);
        && history == old(history) + [L.Entry(call, zero)]
        && sharedUsage == old(sharedUsage) + (if zero && !again then call.tokens else 0)
        && var before := if call.agent in old(usage) then old(usage)[call.agent] else 0;
           usage == if zero || again then old(usage) else old(usage)[call.agent := before + call.tokens]
    {
      var pooled := Pooled(call.agent);
      L.RecordNext(history, L.Entry(call, pooled));
      L.SeenIsHistory(history, call);
      Book(call, pooled);
      history := history + [L.Entry(call, pooled)];
      hide T.Inv; hide L.RecordAll; hide L.Record; hide L.Same; hide L.KeyText;
    }

    /** An agent without a budget of its own reports the first occurrences of all pooled calls, another its own. */
    method TokenUsage(agent: string) returns (used: int)
      requires Valid()
      ensures used ==
        if agent in budgets && budgets[agent] == 0 then L.Tally(history, L.ByText, L.Of(L.Pool))
        else L.Tally(history, L.ByText, L.Of(L.Own(agent)))
    {
      if Pooled(agent) {
        L.EachLedgerIsItsTally(history, L.Pool);
        used := sharedUsage;
      } else {
        L.EachLedgerIsItsTally(history, L.Own(agent));
        used := if agent in usage then usage[agent] else 0;
      }
      hide T.Inv; hide L.Tally; hide L.RecordAll;
    }

    /** Held to its own budget, or to the session's together with every other agent that has none, if there is one. */
    method CheckBudget(agent: string, est: nat) returns (verdict: Check)
      requires Valid()
      ensures verdict == UnknownAgent <==> agent !in budgets
      ensures agent in budgets && budgets[agent] == 0 ==>
        (verdict == Passed <==>
          budgetTotal.None? || L.Tally(history, L.ByText, L.Of(L.Pool)) + est <= budgetTotal.value)
      ensures agent in budgets && budgets[agent] != 0 ==>
        (verdict == Passed <==> L.Tally(history, L.ByText, L.Of(L.Own(agent))) + est <= budgets[agent])
    {
      if agent !in budgets {
        return UnknownAgent;
      }
      var budget := if budgets[agent] != 0 then Some(budgets[agent]) else budgetTotal;
      if budget == None {
        return Passed;
      }
      var used := TokenUsage(agent);
      verdict := if used + est <= budget.value then Passed else Exceeded;
      hide T.Inv; hide L.Tally;
    }
  }
}
