/**
 The database behind the handlers, changed in place one SQL statement at a time, and
 the handlers as they run over it. Each handler does exactly what Issue says.
 */
module ControlPlane {
  import opened Prelude
  import opened Store
  import opened Handlers
  import opened Metering

  class Database {
    const plans: map<PlanId, Plan>
    const configs: map<ConfigId, string>
    const planConfigs: set<(PlanId, ConfigId)>
    const providers: set<ProviderName>
    const demoPlan: Option<PlanId>
    var users: map<UserId, Option<PlanId>>
    var statuses: map<UserId, UserStatus>
    var agents: map<AgentId, Agent>
    var vpses: map<VpsId, Vps>
    var periods: map<(VpsId, Month), Usage>
    var budgets: map<(UserId, Month), int>
    var nextAgent: nat
    var nextVps: nat

    constructor (t: Tables)
      ensures View() == t
    {
      plans, configs, planConfigs := t.plans, t.configs, t.planConfigs;
      providers, demoPlan := t.providers, t.demoPlan;
      users, statuses, agents, vpses := t.users, t.statuses, t.agents, t.vpses;
      periods, budgets := t.periods, t.budgets;
      nextAgent, nextVps := t.nextAgent, t.nextVps;
    }

    function View(): Tables
      reads this
    {
      Tables(plans, configs, planConfigs, providers, demoPlan, users, statuses, agents, vpses,
             periods, budgets, nextAgent, nextVps)
    }

    // -- Statements --------------------------------------------------------------

    method InsertAgentRow(user: UserId) returns (id: AgentId)
      modifies this
      ensures View() == Apply(old(View()), InsertAgent(user)) && id == old(nextAgent)
    {
      id := nextAgent;
      agents := agents[id := Agent(user, None)];
      nextAgent := nextAgent + 1;
    }

    method DeleteAgentRow(agent: AgentId)
      modifies this
      ensures View() == Apply(old(View()), Statement.DeleteAgent(agent))
    {
      agents := agents - {agent};
    }

    method Assign(agent: AgentId, target: Option<VpsId>)
      modifies this
      ensures View() == Apply(old(View()), AssignVps(agent, target)) && vpses == old(vpses)
    {
      if agent in agents {
        agents := agents[agent := agents[agent].(vpsId := target)];
      }
    }

    method InsertVpsRow(user: UserId, config: ConfigId, agent: AgentId) returns (id: VpsId)
      modifies this
      ensures View() == Apply(old(View()), InsertVps(user, config, agent)) && id == old(nextVps)
    {
      id := nextVps;
      vpses := vpses[id := Vps(user, config, agent, None, None, Provisioning, 0, None, None)];
      nextVps := nextVps + 1;
    }

    method UpdateProviderRefs(vps: VpsId, vmId: Option<string>, address: Option<string>)
      modifies this
      ensures View() == Apply(old(View()), SetRefs(vps, vmId, address))
    {
      if vps in vpses {
        vpses := vpses[vps := vpses[vps].(vmId := vmId, address := address)];
      }
    }

    method UpdateState(vps: VpsId, state: VpsState)
      modifies this
      ensures View() == Apply(old(View()), SetState(vps, state))
    {
      if vps in vpses {
        vpses := vpses[vps := vpses[vps].(state := state)];
      }
    }

    method UpdatePlan(user: UserId, plan: Option<PlanId>)
      modifies this
      ensures View() == Apply(old(View()), SetPlan(user, plan))
    {
      if user in users {
        users := users[user := plan];
      }
    }

    method UpdateStatus(user: UserId, status: UserStatus)
      modifies this
      ensures View() == Apply(old(View()), SetStatus(user, status))
    {
      if user in users {
        statuses := statuses[user := status];
      }
    }

    method UpdateUsage(vps: VpsId, storage: int, cpu: Option<int>, memory: Option<int>)
      modifies this
      ensures View() == Gauge(old(View()), vps, storage, cpu, memory)
    {
      if vps in vpses {
        vpses := vpses[vps := vpses[vps].(storage := storage, cpu := cpu, memory := memory)];
      }
    }

    /** Fails, changing nothing, when the VPS row the period row refers to is missing. */
    method AddUsage(vps: VpsId, month: Month, amount: Usage) returns (ok: bool)
      modifies this
      ensures ok <==> vps in old(vpses)
      ensures View() == if ok then old(View()).(periods := Upsert(old(periods), (vps, month), amount))
                        else old(View())
    {
      ok := vps in vpses;
      if ok {
        periods := Upsert(periods, (vps, month), amount);
      }
    }

    method AddBandwidth(vps: VpsId, month: Month, bytes: int) returns (ok: bool)
      modifies this
      ensures ok <==> vps in old(vpses)
      ensures View() == if ok then old(View()).(periods := Upsert(old(periods), (vps, month), Usage(bytes, 0, 0)))
                        else old(View())
    {
      ok := AddUsage(vps, month, Usage(bytes, 0, 0));
    }

    method AddCpuMemory(vps: VpsId, month: Month, cpu: int, memory: int) returns (ok: bool)
      modifies this
      ensures ok <==> vps in old(vpses)
      ensures View() == if ok then old(View()).(periods := Upsert(old(periods), (vps, month), Usage(0, cpu, memory)))
                        else old(View())
    {
      ok := AddUsage(vps, month, Usage(0, cpu, memory));
    }

    method SetBudget(user: UserId, month: Month, cents: int)
      modifies this
      ensures View() == old(View()).(budgets := old(budgets)[(user, month) := cents])
      ensures BudgetRow(View(), user, month) == cents
    {
      budgets := budgets[(user, month) := cents];
    }

    /** SELECT SUM ... JOIN: the rows of the user's live VPSes for the month, added up in any order. */
    method GetUserAggregate(user: UserId, month: Month) returns (sum: Usage)
      ensures sum == Aggregate(View(), user, month)
    {
      hide Total, CountedRows, Unvisited, Plus;
      var t := View();
      var keys := periods.Keys;
      ghost var counted := CountedRows(t, user, month);
      AllUnvisited(t, user, month);
      TotalEmpty();
      sum := ZERO;
      PlusAssociates(Total(counted), ZERO, ZERO);
      while keys != {}
        invariant keys <= t.periods.Keys
        invariant Plus(sum, Total(Unvisited(counted, keys))) == Total(counted)
        decreases keys
      {
        var k :| k in keys;
        VisitKey(counted, keys, k);
        CountedRow(t, user, month, k);
        if InMonth(t, user, month, k) && t.vpses[k.0].state != Destroyed {
          PlusAssociates(sum, t.periods[k], Total(Unvisited(counted, keys - {k})));
          sum := Plus(sum, t.periods[k]);
        }
        keys := keys - {k};
      }
      PlusAssociates(sum, ZERO, ZERO);
    }

    // -- User handlers -------------------------------------------------------------

    method CreateAgent(user: UserId) returns (reply: Reply)
      modifies this
      ensures View() == Handle(old(View()), Request.CreateAgent(user))
      ensures reply == Issue(old(View()), Request.CreateAgent(user)).reply
    {
      if user !in users {
        return Failed(NotFound);
      }
      if users[user].None? {
        return Failed(LimitExceeded);
      }
      if users[user].value !in plans {
        return Failed(NotFound);
      }
      var plan := plans[users[user].value];
      var count := |AgentsOf(View(), user)|;
      if count >= plan.maxAgents {
        return Failed(LimitExceeded);
      }
      ApplyOne(View(), InsertAgent(user));
      var _ := InsertAgentRow(user);
      return Done;
    }

    method ProvisionVps(user: UserId, agent: AgentId, config: ConfigId, created: Option<Vm>)
      returns (reply: Reply)
      modifies this
      ensures View() == Handle(old(View()), Request.ProvisionVps(user, agent, config, created))
      ensures reply == Issue(old(View()), Request.ProvisionVps(user, agent, config, created)).reply
    {
      ghost var t := View();
      if agent !in agents || agents[agent].userId != user {
        return Failed(NotFound);
      }
      if agents[agent].vpsId.Some? {
        return Failed(Conflict);
      }
      if user !in users {
        return Failed(NotFound);
      }
      if users[user].None? {
        return Failed(LimitExceeded);
      }
      var planId := users[user].value;
      if planId !in plans {
        return Failed(NotFound);
      }
      var count := |LiveVpses(View(), user)|;
      if count >= plans[planId].maxVpses {
        return Failed(LimitExceeded);
      }
      if (planId, config) !in planConfigs {
        return Failed(BadRequest);
      }
      if config !in configs {
        return Failed(NotFound);
      }
      var name := ParseProvider(configs[config]);
      if name.None? {
        return Failed(Internal);
      }
      if name.value !in providers {
        return Failed(BadRequest);
      }
      ghost var ss := Issue(t, Request.ProvisionVps(user, agent, config, created)).statements;
      ApplyAllConcat(t, ss[..2], ss[2..]);
      assert ss == ss[..2] + ss[2..];
      ApplyTwo(t, ss[0], ss[1]);
      assert ss[..2] == [ss[0], ss[1]];
      var vps := InsertVpsRow(user, config, agent);
      Assign(agent, Some(vps));
      match created {
        case None =>
          return Failed(Infra);
        case Some(vm) =>
          assert ss[2..] == [ss[2], ss[3]];
          ApplyTwo(View(), ss[2], ss[3]);
          UpdateProviderRefs(vps, Some(vm.id), vm.address);
          UpdateState(vps, Running);
          return Done;
      }
    }

    /** provider_for_vps: the reason why there is none, if there is none. */
    method FindProvider(config: ConfigId) returns (refusal: Option<ApiError>)
      ensures refusal.None? <==> ProviderFor(View(), config).Some?
      ensures refusal.Some? ==> refusal.value == if config in configs then Internal else NotFound
    {
      if config !in configs {
        return Some(NotFound);
      }
      var name := ParseProvider(configs[config]);
      if name.None? || name.value !in providers {
        return Some(Internal);
      }
      return None;
    }

    /** The common part of start and stop, once the VPS row has been found. */
    method Toggle(vps: VpsId, was: VpsState, next: VpsState, providerOk: bool, vmFirst: bool) returns (reply: Reply)
      requires vps in vpses
      modifies this
      ensures View() == ApplyAll(old(View()),
                                 IssueToggle(old(View()), Some(vps), was, next, providerOk, vmFirst).statements)
      ensures reply == IssueToggle(old(View()), Some(vps), was, next, providerOk, vmFirst).reply
    {
      var row := vpses[vps];
      if row.state != was {
        return Failed(Conflict);
      }
      if vmFirst && row.vmId.None? {
        return Failed(Internal);
      }
      var refusal := FindProvider(row.configId);
      if refusal.Some? {
        return Failed(refusal.value);
      }
      if row.vmId.None? {
        return Failed(Internal);
      }
      if !providerOk {
        return Failed(Infra);
      }
      ApplyOne(View(), SetState(vps, next));
      UpdateState(vps, next);
      return Done;
    }

    method StartVps(user: UserId, agent: AgentId, providerOk: bool) returns (reply: Reply)
      modifies this
      ensures View() == Handle(old(View()), Request.StartVps(user, agent, providerOk))
      ensures reply == Issue(old(View()), Request.StartVps(user, agent, providerOk)).reply
    {
      var vps := AgentVps(View(), user, agent);
      if vps.None? {
        return Failed(NotFound);
      }
      reply := Toggle(vps.value, Stopped, Running, providerOk, true);
    }

    method StopVps(user: UserId, agent: AgentId, providerOk: bool) returns (reply: Reply)
      modifies this
      ensures View() == Handle(old(View()), Request.StopVps(user, agent, providerOk))
      ensures reply == Issue(old(View()), Request.StopVps(user, agent, providerOk)).reply
    {
      var vps := AgentVps(View(), user, agent);
      if vps.None? {
        return Failed(NotFound);
      }
      reply := Toggle(vps.value, Running, Stopped, providerOk, true);
    }

    method DestroyVps(user: UserId, agent: AgentId) returns (reply: Reply)
      modifies this
      ensures View() == Handle(old(View()), Request.DestroyVps(user, agent))
      ensures reply == Issue(old(View()), Request.DestroyVps(user, agent)).reply
    {
      var vps := AgentVps(View(), user, agent);
      if vps.None? {
        return Failed(NotFound);
      }
      if vpses[vps.value].state == Destroyed {
        return Failed(Conflict);
      }
      ApplyTwo(View(), SetState(vps.value, Destroyed), AssignVps(agent, None));
      UpdateState(vps.value, Destroyed);
      Assign(agent, None);
      return Done;
    }

    /** Destroy the VPS attached to an existing agent, if it is live, and delete the agent. */
    method RemoveAgent(agent: AgentId)
      requires agent in agents
      modifies this
      ensures View() == ApplyAll(old(View()), RetireAttached(old(View()), old(agents[agent].vpsId))
                                              + [Statement.DeleteAgent(agent)])
    {
      ghost var t := View();
      var vps := agents[agent].vpsId;
      ghost var head := RetireAttached(t, vps);
      ApplyAllConcat(t, head, [Statement.DeleteAgent(agent)]);
      if vps.Some? && vps.value in vpses && vpses[vps.value].state != Destroyed {
        ApplyOne(t, SetState(vps.value, Destroyed));
        UpdateState(vps.value, Destroyed);
      }
      ApplyOne(View(), Statement.DeleteAgent(agent));
      DeleteAgentRow(agent);
    }

    method DeleteAgent(user: UserId, agent: AgentId) returns (reply: Reply)
      modifies this
      ensures View() == Handle(old(View()), Request.DeleteAgent(user, agent))
      ensures reply == Issue(old(View()), Request.DeleteAgent(user, agent)).reply
    {
      if agent !in agents || agents[agent].userId != user {
        return Failed(NotFound);
      }
      RemoveAgent(agent);
      return Done;
    }

    // -- Admin handlers ------------------------------------------------------------

    method AdminStopVps(vps: VpsId, providerOk: bool) returns (reply: Reply)
      modifies this
      ensures View() == Handle(old(View()), Request.AdminStopVps(vps, providerOk))
      ensures reply == Issue(old(View()), Request.AdminStopVps(vps, providerOk)).reply
    {
      if vps !in vpses {
        return Failed(NotFound);
      }
      reply := Toggle(vps, Running, Stopped, providerOk, false);
    }

    /** Detach the VPS from each listed agent whose row held it. */
    method DetachFrom(vps: VpsId, listed: seq<AgentId>)
      requires forall a :: a in listed ==> a in agents
      modifies this
      ensures View() == ApplyAll(old(View()), Detach(old(View()), vps, listed))
      ensures vpses == old(vpses)
    {
      ghost var t := View();
      var rows := agents;
      for i := 0 to |listed|
        invariant View() == ApplyAll(t, Detach(t, vps, listed[..i]))
        invariant vpses == t.vpses
      {
        var agent := listed[i];
        assert listed[..i + 1] == listed[..i] + [agent] && listed[..i + 1][..i] == listed[..i];
        if rows[agent].vpsId == Some(vps) {
          ApplyAllConcat(t, Detach(t, vps, listed[..i]), [AssignVps(agent, None)]);
          ApplyOne(View(), AssignVps(agent, None));
          Assign(agent, None);
          assert Detach(t, vps, listed[..i + 1]) == Detach(t, vps, listed[..i]) + [AssignVps(agent, None)];
        } else {
          assert Detach(t, vps, listed[..i + 1]) == Detach(t, vps, listed[..i]);
        }
      }
      assert listed[..|listed|] == listed;
    }

    /** Mark the VPS destroyed, then detach it from each of the owner's agents that holds it. */
    method RetireVps(vps: VpsId, owner: UserId)
      requires vps in vpses && vpses[vps].userId == owner
      modifies this
      ensures View() == ApplyAll(old(View()), Retire(old(View()), vps))
      ensures vpses == old(vpses)[vps := old(vpses)[vps].(state := Destroyed)]
    {
      ghost var t := View();
      UpdateState(vps, Destroyed);
      var listed := ListAgents(View(), owner, nextAgent);
      SameListing(t, View(), owner, nextAgent);
      SameDetach(t, View(), vps, listed);
      ApplyAllConcat(t, [SetState(vps, Destroyed)], Detach(t, vps, listed));
      ApplyOne(t, SetState(vps, Destroyed));
      DetachFrom(vps, listed);
    }

    method AdminDestroyVps(vps: VpsId) returns (reply: Reply)
      modifies this
      ensures View() == Handle(old(View()), Request.AdminDestroyVps(vps))
      ensures reply == Issue(old(View()), Request.AdminDestroyVps(vps)).reply
    {
      if vps !in vpses {
        return Failed(NotFound);
      }
      if vpses[vps].state == Destroyed {
        return Failed(Conflict);
      }
      RetireVps(vps, vpses[vps].userId);
      return Done;
    }

    method AdminDeleteAgent(agent: AgentId) returns (reply: Reply)
      modifies this
      ensures View() == Handle(old(View()), Request.AdminDeleteAgent(agent))
      ensures reply == Issue(old(View()), Request.AdminDeleteAgent(agent)).reply
    {
      if agent !in agents {
        return Failed(NotFound);
      }
      RemoveAgent(agent);
      return Done;
    }

    /** Retire every VPS that was provisioning when the sweep began. */
    method CleanupStuck() returns (reply: Reply, count: nat)
      modifies this
      ensures View() == Handle(old(View()), Request.CleanupStuck)
      ensures reply == Done && count == |ListByState(old(View()), Provisioning, old(nextVps))|
    {
      hide Apply, Retire, ApplyAll;
      ghost var t := View();
      var stuck := ListByState(View(), Provisioning, nextVps);
      var rows := vpses;
      for i := 0 to |stuck|
        invariant ApplyAll(View(), RetireEach(View(), stuck[i..])) == ApplyAll(t, RetireEach(t, stuck))
        invariant vpses.Keys == rows.Keys
        invariant forall v :: v in rows ==> vpses[v].userId == rows[v].userId
      {
        ghost var here := View();
        assert stuck[i..][0] == stuck[i] && stuck[i..][1..] == stuck[i + 1..];
        assert stuck[i] in stuck;
        ghost var first := Retire(here, stuck[i]);
        ApplyAllConcat(here, first, RetireEach(ApplyAll(here, first), stuck[i + 1..]));
        RetireVps(stuck[i], rows[stuck[i]].userId);
      }
      ApplyNone(View());
      return Done, |stuck|;
    }

    /** A user who is activated without a plan gets the demo plan, if there is one. */
    method SetUserStatus(user: UserId, status: UserStatus) returns (reply: Reply)
      modifies this
      ensures View() == Handle(old(View()), Request.SetUserStatus(user, status))
      ensures reply == Issue(old(View()), Request.SetUserStatus(user, status)).reply
    {
      ghost var t := View();
      if user !in users {
        return Failed(NotFound);
      }
      ghost var demo := AssignDemo(t, user, status);
      ApplyAllConcat(t, demo, [SetStatus(user, status)]);
      ApplyNone(t);
      if status == Active {
        if users[user].None? && demoPlan.Some? {
          ApplyOne(t, SetPlan(user, demoPlan));
          UpdatePlan(user, demoPlan);
        }
      }
      ApplyOne(View(), SetStatus(user, status));
      UpdateStatus(user, status);
      return Done;
    }
  }
}
