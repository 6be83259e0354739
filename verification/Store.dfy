/**
 The control plane's tables and the SQL statements that change them. A statement is
 one atomic step; every handler, whether it runs alone or interleaved with others,
 changes the tables only through Apply.
 */
module Store {
  import opened Prelude

  // Fresh ids are drawn from counters: like random UUIDs they are never used twice.
  type UserId = nat
  type AgentId = nat
  type VpsId = nat
  type PlanId = nat
  type ConfigId = nat
  type Month = int

  datatype ProviderName = Fly | Hetzner | Sprites

  function ParseProvider(s: string): Option<ProviderName> {
    if s == "fly" then Some(Fly)
    else if s == "hetzner" then Some(Hetzner)
    else if s == "sprites" then Some(Sprites)
    else None
  }

  /** The three usage axes: bytes, CPU milliseconds, MB-seconds of memory. */
  datatype Usage = Usage(bandwidth: int, cpu: int, memory: int)

  const ZERO := Usage(0, 0, 0)

  function Plus(a: Usage, b: Usage): Usage {
    Usage(a.bandwidth + b.bandwidth, a.cpu + b.cpu, a.memory + b.memory)
  }

  datatype Plan = Plan(maxAgents: int, maxVpses: int, limits: Usage, maxStorage: int, rates: Usage)

  datatype VpsState = Provisioning | Running | Stopped | Destroyed

  // The name column is "agent-<id>"; forAgent is that id.
  datatype Vps = Vps(userId: UserId, configId: ConfigId, forAgent: AgentId,
                     vmId: Option<string>, address: Option<string>, state: VpsState,
                     storage: int, cpu: Option<int>, memory: Option<int>)

  datatype UserStatus = Pending | Active | Frozen

  datatype Agent = Agent(userId: UserId, vpsId: Option<VpsId>)

  datatype Tables = Tables(
    plans: map<PlanId, Plan>,
    configs: map<ConfigId, string>,          // the provider column
    planConfigs: set<(PlanId, ConfigId)>,
    providers: set<ProviderName>,            // the registry built at start-up
    demoPlan: Option<PlanId>,                // the plan named "demo", if any
    users: map<UserId, Option<PlanId>>,      // the plan_id column
    statuses: map<UserId, UserStatus>,
    agents: map<AgentId, Agent>,
    vpses: map<VpsId, Vps>,
    periods: map<(VpsId, Month), Usage>,
    budgets: map<(UserId, Month), int>,
    nextAgent: nat,
    nextVps: nat)

  datatype Statement =
    | InsertAgent(user: UserId)
    | DeleteAgent(agent: AgentId)
    | AssignVps(agent: AgentId, target: Option<VpsId>)
    | InsertVps(user: UserId, config: ConfigId, agent: AgentId)
    | SetRefs(vps: VpsId, vmId: Option<string>, address: Option<string>)
    | SetState(vps: VpsId, state: VpsState)
    | SetPlan(user: UserId, plan: Option<PlanId>)
    | SetStatus(user: UserId, status: UserStatus)

  /** An UPDATE or DELETE whose row is missing changes nothing. */
  function Apply(t: Tables, s: Statement): Tables {
    match s
    case InsertAgent(u) =>
      t.(agents := t.agents[t.nextAgent := Agent(u, None)], nextAgent := t.nextAgent + 1)
    case DeleteAgent(a) =>
      t.(agents := t.agents - {a})
    case AssignVps(a, target) =>
      if a in t.agents then t.(agents := t.agents[a := t.agents[a].(vpsId := target)]) else t
    case InsertVps(u, c, a) =>
      t.(vpses := t.vpses[t.nextVps := Vps(u, c, a, None, None, Provisioning, 0, None, None)],
      nextVps := t.nextVps + 1)
    case SetRefs(v, vm, addr) =>
      if v in t.vpses then t.(vpses := t.vpses[v := t.vpses[v].(vmId := vm, address := addr)]) else t
    case SetState(v, st) =>
      if v in t.vpses then t.(vpses := t.vpses[v := t.vpses[v].(state := st)]) else t
    case SetPlan(u, p) =>
      if u in t.users then t.(users := t.users[u := p]) else t
    case SetStatus(u, status) =>
      if u in t.users then t.(statuses := t.statuses[u := status]) else t
  }

  /** UPDATE vpses: the usage gauges, as last read from the provider. */
  function Gauge(t: Tables, v: VpsId, storage: int, cpu: Option<int>, memory: Option<int>): Tables {
    if v in t.vpses then t.(vpses := t.vpses[v := t.vpses[v].(storage := storage, cpu := cpu, memory := memory)])
    else t
  }

  function ApplyAll(t: Tables, ss: seq<Statement>): Tables
    decreases |ss|
  {
    if ss == [] then t else ApplyAll(Apply(t, ss[0]), ss[1..])
  }

  lemma {:induction false} ApplyAllConcat(t: Tables, a: seq<Statement>, b: seq<Statement>)
    ensures ApplyAll(t, a + b) == ApplyAll(ApplyAll(t, a), b)
    decreases |a|
  {
    if a == [] {
      assert a + b == b;
    } else {
      assert (a + b)[1..] == a[1..] + b;
      ApplyAllConcat(Apply(t, a[0]), a[1..], b);
    }
  }

  lemma ApplyNone(t: Tables)
    ensures ApplyAll(t, []) == t
  {
  }

  lemma ApplyOne(t: Tables, s: Statement)
    ensures ApplyAll(t, [s]) == Apply(t, s)
  {
    assert ApplyAll(t, [s]) == ApplyAll(Apply(t, s), [s][1..]);
  }

  lemma ApplyTwo(t: Tables, s: Statement, s': Statement)
    ensures ApplyAll(t, [s, s']) == Apply(Apply(t, s), s')
  {
    assert [s, s'][1..] == [s'];
    ApplyOne(Apply(t, s), s');
  }

  // -- Reads -----------------------------------------------------------------

  function LiveVpses(t: Tables, u: UserId): set<VpsId> {
    set v | v in t.vpses && t.vpses[v].userId == u && t.vpses[v].state != Destroyed
  }

  function AgentsOf(t: Tables, u: UserId): set<AgentId> {
    set a | a in t.agents && t.agents[a].userId == u
  }

  /** The provider registered for a config row, if any. */
  function ProviderFor(t: Tables, c: ConfigId): Option<ProviderName> {
    if c in t.configs && ParseProvider(t.configs[c]).Some?
       && ParseProvider(t.configs[c]).value in t.providers
    then ParseProvider(t.configs[c])
    else None
  }

  /** ORDER BY created_at: the ids of the agents of u below n, oldest first. */
  function ListAgents(t: Tables, u: UserId, n: nat): (r: seq<AgentId>)
    ensures forall a :: a in r <==> a < n && a in AgentsOf(t, u)
    ensures forall i :: 0 <= i < |r| ==> r[i] < n
    ensures forall i, j :: 0 <= i < j < |r| ==> r[i] < r[j]
  {
    if n == 0 then []
    else ListAgents(t, u, n - 1) + (if n - 1 in AgentsOf(t, u) then [n - 1] else [])
  }

  /** ORDER BY created_at: the ids below n of the VPS rows in state st, oldest first. */
  function ListByState(t: Tables, st: VpsState, n: nat): (r: seq<VpsId>)
    ensures forall v :: v in r <==> v < n && v in t.vpses && t.vpses[v].state == st
    ensures forall i :: 0 <= i < |r| ==> r[i] < n
    ensures forall i, j :: 0 <= i < j < |r| ==> r[i] < r[j]
  {
    if n == 0 then []
    else ListByState(t, st, n - 1)
         + (if n - 1 in t.vpses && t.vpses[n - 1].state == st then [n - 1] else [])
  }

  /** The period row of a VPS in a month; a missing row reads as zeros. */
  function PeriodRow(periods: map<(VpsId, Month), Usage>, k: (VpsId, Month)): Usage {
    if k in periods then periods[k] else ZERO
  }

  /** INSERT ... ON CONFLICT DO UPDATE: add the amounts to the row, creating it if need be. */
  function Upsert(periods: map<(VpsId, Month), Usage>, k: (VpsId, Month), amount: Usage)
    : map<(VpsId, Month), Usage>
  {
    periods[k := Plus(PeriodRow(periods, k), amount)]
  }

  /** The user's budget for a month; a missing row is a budget of zero. */
  function BudgetRow(t: Tables, u: UserId, m: Month): int {
    if (u, m) in t.budgets then t.budgets[(u, m)] else 0
  }

  /** An existing user on an existing plan. */
  predicate HasPlan(t: Tables, u: UserId) {
    u in t.users && t.users[u].Some? && t.users[u].value in t.plans
  }

  /** A negative limit admits nothing, like zero. */
  function AtLeastZero(n: int): nat {
    if n < 0 then 0 else n
  }

  function VpsLimit(t: Tables, u: UserId): nat {
    if HasPlan(t, u) then AtLeastZero(t.plans[t.users[u].value].maxVpses) else 0
  }

  function AgentLimit(t: Tables, u: UserId): nat {
    if HasPlan(t, u) then AtLeastZero(t.plans[t.users[u].value].maxAgents) else 0
  }
}
