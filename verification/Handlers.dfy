/**
 What each request handler issues when it runs alone: the statements, in order, and
 the reply. Provider calls are outcomes carried by the request.
 */
module Handlers {
  import opened Prelude
  import opened Store

  datatype ApiError = NotFound | Conflict | LimitExceeded | BadRequest | Internal | Infra

  datatype Reply = Done | Failed(error: ApiError)

  /** What the provider reports about a VM it has created. */
  datatype Vm = Vm(id: string, address: Option<string>)

  datatype Request =
    | CreateAgent(user: UserId)
    | DeleteAgent(user: UserId, agent: AgentId)
    | ProvisionVps(user: UserId, agent: AgentId, config: ConfigId, created: Option<Vm>)
    | StartVps(user: UserId, agent: AgentId, providerOk: bool)
    | StopVps(user: UserId, agent: AgentId, providerOk: bool)
    | DestroyVps(user: UserId, agent: AgentId)
    | AdminStopVps(vps: VpsId, providerOk: bool)
    | AdminDestroyVps(vps: VpsId)
    | AdminDeleteAgent(agent: AgentId)
    | CleanupStuck
    | SetUserStatus(user: UserId, status: UserStatus)

  datatype Script = Script(statements: seq<Statement>, reply: Reply)

  function Refuse(e: ApiError): Script {
    Script([], Failed(e))
  }

  /** get_agent_vps: the agent's VPS, with ownership enforced. */
  function AgentVps(t: Tables, u: UserId, a: AgentId): Option<VpsId> {
    if a in t.agents && t.agents[a].userId == u && t.agents[a].vpsId.Some?
       && t.agents[a].vpsId.value in t.vpses
    then t.agents[a].vpsId else None
  }

  function Issue(t: Tables, r: Request): Script {
    match r
    case CreateAgent(u) => IssueCreateAgent(t, u)
    case DeleteAgent(u, a) =>
      if a !in t.agents || t.agents[a].userId != u then Refuse(NotFound)
      else Script(RetireAttached(t, t.agents[a].vpsId) + [Statement.DeleteAgent(a)], Done)
    case ProvisionVps(u, a, c, created) => IssueProvision(t, u, a, c, created)
    case StartVps(u, a, ok) => IssueToggle(t, AgentVps(t, u, a), Stopped, Running, ok, true)
    case StopVps(u, a, ok) => IssueToggle(t, AgentVps(t, u, a), Running, Stopped, ok, true)
    case DestroyVps(u, a) =>
      var v := AgentVps(t, u, a);
      if v.None? then Refuse(NotFound)
      else if t.vpses[v.value].state == Destroyed then Refuse(Conflict)
      else Script([SetState(v.value, Destroyed), AssignVps(a, None)], Done)
    case AdminStopVps(v, ok) =>
      IssueToggle(t, if v in t.vpses then Some(v) else None, Running, Stopped, ok, false)
    case AdminDestroyVps(v) =>
      if v !in t.vpses then Refuse(NotFound)
      else if t.vpses[v].state == Destroyed then Refuse(Conflict)
      else Script(Retire(t, v), Done)
    case AdminDeleteAgent(a) =>
      if a !in t.agents then Refuse(NotFound)
      else Script(RetireAttached(t, t.agents[a].vpsId) + [Statement.DeleteAgent(a)], Done)
    case CleanupStuck =>
      Script(RetireEach(t, ListByState(t, Provisioning, t.nextVps)), Done)
    case SetUserStatus(u, status) =>
      if u !in t.users then Refuse(NotFound)
      else Script(AssignDemo(t, u, status) + [SetStatus(u, status)], Done)
  }

  /** Activating a user without a plan assigns the demo plan, if there is one. */
  function AssignDemo(t: Tables, u: UserId, status: UserStatus): seq<Statement> {
    if status == Active && u in t.users && t.users[u].None? && t.demoPlan.Some? then [SetPlan(u, t.demoPlan)] else []
  }

  function IssueCreateAgent(t: Tables, u: UserId): Script {
    if u !in t.users then Refuse(NotFound)
    else if t.users[u].None? then Refuse(LimitExceeded)
    else if t.users[u].value !in t.plans then Refuse(NotFound)
    else if |AgentsOf(t, u)| >= t.plans[t.users[u].value].maxAgents then Refuse(LimitExceeded)
    else Script([InsertAgent(u)], Done)
  }

  function IssueProvision(t: Tables, u: UserId, a: AgentId, c: ConfigId, created: Option<Vm>): Script {
    if a !in t.agents || t.agents[a].userId != u then Refuse(NotFound)
    else if t.agents[a].vpsId.Some? then Refuse(Conflict)
    else if u !in t.users then Refuse(NotFound)
    else if t.users[u].None? then Refuse(LimitExceeded)
    else if t.users[u].value !in t.plans then Refuse(NotFound)
    else if |LiveVpses(t, u)| >= t.plans[t.users[u].value].maxVpses then Refuse(LimitExceeded)
    else if (t.users[u].value, c) !in t.planConfigs then Refuse(BadRequest)
    else if c !in t.configs then Refuse(NotFound)
    else if ParseProvider(t.configs[c]).None? then Refuse(Internal)
    else if ParseProvider(t.configs[c]).value !in t.providers then Refuse(BadRequest)
    else
      var v := t.nextVps;
      var head := [InsertVps(u, c, a), AssignVps(a, Some(v))];
      match created
      case None => Script(head, Failed(Infra))
      case Some(vm) =>
        Script(head + [SetRefs(v, Some(vm.id), vm.address), SetState(v, Running)], Done)
  }

  /**
   Why the provider cannot be asked: the row has no VM, its config is gone, or names no
   registered provider. The user's handlers look for the VM first, the admin's last.
   */
  function ToggleRefusal(t: Tables, row: Vps, vmFirst: bool): (r: Option<ApiError>)
    ensures r.None? <==> row.vmId.Some? && ProviderFor(t, row.configId).Some?
  {
    if vmFirst && row.vmId.None? then Some(Internal)
    else if row.configId !in t.configs then Some(NotFound)
    else if ProviderFor(t, row.configId).None? then Some(Internal)
    else if row.vmId.None? then Some(Internal)
    else None
  }

  /** Start and stop: the row must be in state was and have a VM, and the provider must comply. */
  function IssueToggle(t: Tables, v: Option<VpsId>, was: VpsState, next: VpsState, providerOk: bool, vmFirst: bool)
    : Script
    requires v.Some? ==> v.value in t.vpses
  {
    if v.None? then Refuse(NotFound)
    else
      var row := t.vpses[v.value];
      if row.state != was then Refuse(Conflict)
      else if ToggleRefusal(t, row, vmFirst).Some? then Refuse(ToggleRefusal(t, row, vmFirst).value)
      else if !providerOk then Refuse(Infra)
      else Script([SetState(v.value, next)], Done)
  }

  /** Deleting an agent first destroys the VPS attached to it, if that one is live. */
  function RetireAttached(t: Tables, v: Option<VpsId>): seq<Statement> {
    if v.Some? && v.value in t.vpses && t.vpses[v.value].state != Destroyed
    then [SetState(v.value, Destroyed)] else []
  }

  /** Detach v from each listed agent that holds it. */
  function Detach(t: Tables, v: VpsId, agents: seq<AgentId>): seq<Statement>
    requires forall a :: a in agents ==> a in t.agents
  {
    if agents == [] then []
    else Detach(t, v, agents[..|agents| - 1])
         + (var a := agents[|agents| - 1];
            if t.agents[a].vpsId == Some(v) then [AssignVps(a, None)] else [])
  }

  /** Destroy v, then detach it from its user's agents, listed after the state change. */
  function Retire(t: Tables, v: VpsId): seq<Statement> {
    if v !in t.vpses then []
    else [SetState(v, Destroyed)] + Detach(t, v, ListAgents(t, t.vpses[v].userId, t.nextAgent))
  }

  /** The clean-up sweep: each stuck VPS in turn, its agents listed after the earlier writes. */
  function RetireEach(t: Tables, stuck: seq<VpsId>): seq<Statement>
    decreases |stuck|
  {
    if stuck == [] then []
    else Retire(t, stuck[0]) + RetireEach(ApplyAll(t, Retire(t, stuck[0])), stuck[1..])
  }

  // Listing and detaching depend on the agents table alone.

  lemma {:induction false} SameListing(t: Tables, t1: Tables, u: UserId, n: nat)
    requires t.agents == t1.agents
    ensures ListAgents(t, u, n) == ListAgents(t1, u, n)
  {
    if n > 0 {
      SameListing(t, t1, u, n - 1);
    }
  }

  lemma {:induction false} SameDetach(t: Tables, t1: Tables, v: VpsId, agents: seq<AgentId>)
    requires t.agents == t1.agents && forall a :: a in agents ==> a in t.agents
    ensures Detach(t, v, agents) == Detach(t1, v, agents)
    decreases |agents|
  {
    if agents != [] {
      SameDetach(t, t1, v, agents[..|agents| - 1]);
    }
  }

  /** The tables after a handler has run alone. */
  function Handle(t: Tables, r: Request): Tables {
    ApplyAll(t, Issue(t, r).statements)
  }

  function Run(t: Tables, rs: seq<Request>): Tables
    decreases |rs|
  {
    if rs == [] then t else Run(Handle(t, rs[0]), rs[1..])
  }

  /** Every statement of a run, in order. */
  function Issued(t: Tables, rs: seq<Request>): seq<Statement>
    decreases |rs|
  {
    if rs == [] then [] else Issue(t, rs[0]).statements + Issued(Handle(t, rs[0]), rs[1..])
  }
}
