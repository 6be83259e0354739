/**
 The same handlers with their steps interleaved. A handler is a program counter with the
 locals it has captured; each step performs one read or one statement. Any handler may
 be overtaken by others between two steps, or stop for good after any of them.
 */
module Interleaving {
  import opened Prelude
  import opened Store

  datatype Goal = ToStart | ToStop | ToDestroy | ToDelete

  // The name says what the next step does.
  datatype Handler =
    | CreateLoadPlan(user: UserId)
    | CreateCount(user: UserId, limit: int)
    | CreateInsert(user: UserId)
    | ProvisionLoadAgent(user: UserId, agent: AgentId, config: ConfigId)
    | ProvisionLoadPlan(user: UserId, agent: AgentId, config: ConfigId)
    | ProvisionCount(user: UserId, agent: AgentId, config: ConfigId, limit: int)
    | ProvisionInsert(user: UserId, agent: AgentId, config: ConfigId)
    | ProvisionAssign(user: UserId, agent: AgentId, vps: VpsId)
    | ProvisionCreate(user: UserId, vps: VpsId)
    | ProvisionRefs(user: UserId, vps: VpsId, vmId: string, address: Option<string>)
    | ProvisionFinish(user: UserId, vps: VpsId)
    | FindAgent(owner: Option<UserId>, agent: AgentId, goal: Goal)
    | FindVps(agent: AgentId, found: VpsId, goal: Goal)
    | AdminStop(target: VpsId)
    | AdminDestroy(target: VpsId)
    | Cleanup
    | Sweep(todo: seq<VpsId>)
    | SweepList(retired: VpsId, holder: UserId, todo: seq<VpsId>)
    | SweepDetach(holders: seq<AgentId>, todo: seq<VpsId>)
    | MonitorList
    | MonitorStop(todo: seq<VpsId>)
    | SetsStatus(user: UserId, status: UserStatus)
    | Writing(pending: seq<Statement>)

  /** How the world answers a step: a call succeeds or not, with which VM, and which VPSes the monitor picks. */
  datatype Answer = Answer(ok: bool, vmId: string, address: Option<string>, picked: seq<VpsId>)

  datatype Sys = Sys(t: Tables, hs: map<nat, Handler>)

  datatype Label = Begin(id: nat, h: Handler) | Advance(id: nat, answer: Answer) | Abandon(id: nat)

  predicate IsFirst(h: Handler) {
    h.CreateLoadPlan? || h.ProvisionLoadAgent? || h.FindAgent? || h.AdminStop? || h.AdminDestroy?
    || h.Cleanup? || h.MonitorList? || h.SetsStatus?
  }

  predicate HasVm(t: Tables, v: VpsId, st: VpsState) {
    v in t.vpses && t.vpses[v].state == st && t.vpses[v].vmId.Some?
  }

  /** The user's plan offers the config, and its provider is registered. */
  predicate Offered(t: Tables, u: UserId, c: ConfigId) {
    HasPlan(t, u) && (t.users[u].value, c) in t.planConfigs && ProviderFor(t, c).Some?
  }

  /** The row is in the state, has a VM, and a provider that can be asked. */
  predicate CanAsk(t: Tables, v: VpsId, st: VpsState) {
    HasVm(t, v, st) && ProviderFor(t, t.vpses[v].configId).Some?
  }

  /** One step of a handler: the tables after it, and the handler that remains, if any. */
  function Step(t: Tables, h: Handler, x: Answer): (Tables, Option<Handler>) {
    match h
    case CreateLoadPlan(u) =>
      if HasPlan(t, u) then (t, Some(CreateCount(u, t.plans[t.users[u].value].maxAgents))) else (t, None)
    case CreateCount(u, limit) =>
      if |AgentsOf(t, u)| < limit then (t, Some(CreateInsert(u))) else (t, None)
    case CreateInsert(u) => (Apply(t, InsertAgent(u)), None)
    case ProvisionLoadAgent(u, a, c) =>
      if a in t.agents && t.agents[a].userId == u && t.agents[a].vpsId.None?
      then (t, Some(ProvisionLoadPlan(u, a, c))) else (t, None)
    case ProvisionLoadPlan(u, a, c) =>
      if HasPlan(t, u) then (t, Some(ProvisionCount(u, a, c, t.plans[t.users[u].value].maxVpses))) else (t, None)
    case ProvisionCount(u, a, c, limit) =>
      if |LiveVpses(t, u)| < limit && Offered(t, u, c) then (t, Some(ProvisionInsert(u, a, c))) else (t, None)
    case ProvisionInsert(u, a, c) =>
      (Apply(t, InsertVps(u, c, a)), Some(ProvisionAssign(u, a, t.nextVps)))
    case ProvisionAssign(u, a, v) => (Apply(t, AssignVps(a, Some(v))), Some(ProvisionCreate(u, v)))
    case ProvisionCreate(u, v) =>
      if x.ok then (t, Some(ProvisionRefs(u, v, x.vmId, x.address))) else (t, None)
    case ProvisionRefs(u, v, vm, addr) =>
      (Apply(t, SetRefs(v, Some(vm), addr)), Some(ProvisionFinish(u, v)))
    case ProvisionFinish(u, v) => (Apply(t, SetState(v, Running)), None)
    case FindAgent(owner, a, goal) =>
      if a !in t.agents || (owner.Some? && t.agents[a].userId != owner.value) then (t, None)
      else if t.agents[a].vpsId.Some? then (t, Some(FindVps(a, t.agents[a].vpsId.value, goal)))
      else if goal == ToDelete then (t, Some(Writing([DeleteAgent(a)])))
      else (t, None)
    case FindVps(a, v, goal) =>
      if x.ok || goal == ToDestroy || goal == ToDelete then (t, AfterFind(t, a, v, goal)) else (t, None)
    case AdminStop(v) =>
      if CanAsk(t, v, Running) && x.ok then (t, Some(Writing([SetState(v, Stopped)]))) else (t, None)
    case AdminDestroy(v) =>
      if v in t.vpses && t.vpses[v].state != Destroyed then (t, Some(Sweep([v]))) else (t, None)
    case Cleanup => (t, Some(Sweep(ListByState(t, Provisioning, t.nextVps))))
    case Sweep(todo) =>
      if todo == [] || todo[0] !in t.vpses then (t, None)
      else (Apply(t, SetState(todo[0], Destroyed)),
            Some(SweepList(todo[0], t.vpses[todo[0]].userId, todo[1..])))
    case SweepList(v, u, todo) => (t, Some(SweepDetach(HoldersOf(t, v, ListAgents(t, u, t.nextAgent)), todo)))
    case SweepDetach(holders, todo) =>
      if holders == [] then (t, Some(Sweep(todo)))
      else (Apply(t, AssignVps(holders[0], None)), Some(SweepDetach(holders[1..], todo)))
    case MonitorList =>
      if forall v :: v in x.picked ==> HasVm(t, v, Running) then (t, Some(MonitorStop(x.picked))) else (t, None)
    case MonitorStop(todo) =>
      if todo == [] then (t, None)
      else (if x.ok then Apply(t, SetState(todo[0], Stopped)) else t, Some(MonitorStop(todo[1..])))
    case SetsStatus(u, status) =>
      if u !in t.users then (t, None)
      else if status == Active && t.users[u].None? && t.demoPlan.Some?
      then (t, Some(Writing([SetPlan(u, t.demoPlan), SetStatus(u, status)])))
      else (t, Some(Writing([SetStatus(u, status)])))
    case Writing(pending) =>
      if pending == [] then (t, None) else (Apply(t, pending[0]), Some(Writing(pending[1..])))
  }

  /** The checks a user's handler makes on the VPS row it has loaded, and the writes it then plans. */
  function AfterFind(t: Tables, a: AgentId, v: VpsId, goal: Goal): Option<Handler> {
    match goal
    case ToStart => if CanAsk(t, v, Stopped) then Some(Writing([SetState(v, Running)])) else None
    case ToStop => if CanAsk(t, v, Running) then Some(Writing([SetState(v, Stopped)])) else None
    case ToDestroy =>
      if v in t.vpses && t.vpses[v].state != Destroyed
      then Some(Writing([SetState(v, Destroyed), AssignVps(a, None)])) else None
    case ToDelete =>
      if v in t.vpses && t.vpses[v].state != Destroyed
      then Some(Writing([SetState(v, Destroyed), DeleteAgent(a)])) else Some(Writing([DeleteAgent(a)]))
  }

  function HoldersOf(t: Tables, v: VpsId, listed: seq<AgentId>): seq<AgentId>
    requires forall a :: a in listed ==> a in t.agents
  {
    if listed == [] then []
    else (if t.agents[listed[0]].vpsId == Some(v) then [listed[0]] else [])
         + HoldersOf(t, v, listed[1..])
  }

  /** A label that does not apply changes nothing. */
  function Next(s: Sys, l: Label): Sys {
    match l
    case Begin(id, h) => if id !in s.hs && IsFirst(h) then s.(hs := s.hs[id := h]) else s
    case Abandon(id) => s.(hs := s.hs - {id})
    case Advance(id, x) =>
      if id !in s.hs then s
      else
        var (t', rest) := Step(s.t, s.hs[id], x);
        match rest
        case None => Sys(t', s.hs - {id})
        case Some(h') => Sys(t', s.hs[id := h'])
  }

  /** The states of a run, the first one included. */
  function Trace(s: Sys, ls: seq<Label>): (r: seq<Sys>)
    ensures |r| == |ls| + 1 && r[0] == s
    decreases |ls|
  {
    [s] + if ls == [] then [] else Trace(Next(s, ls[0]), ls[1..])
  }

  // -- Safety --------------------------------------------------------------------

  ghost predicate SafeTables(t: Tables) {
    && (forall a :: a in t.agents ==> a < t.nextAgent)
    && (forall v :: v in t.vpses ==> v < t.nextVps)
    && (forall a :: a in t.agents && t.agents[a].vpsId.Some? ==>
                      var v := t.agents[a].vpsId.value;
                      v in t.vpses && t.vpses[v].forAgent == a && t.vpses[v].userId == t.agents[a].userId)
    && (forall v :: v in t.vpses && t.vpses[v].state in {Running, Stopped} ==> t.vpses[v].vmId.Some?)
  }

  /** The agent, if it still exists, belongs to u; its id will not be issued again. */
  ghost predicate OwnAgent(t: Tables, u: UserId, a: AgentId) {
    a < t.nextAgent && (a in t.agents ==> t.agents[a].userId == u)
  }

  ghost predicate OwnVps(t: Tables, u: UserId, v: VpsId) {
    v in t.vpses && t.vpses[v].userId == u
  }

  ghost predicate Booted(t: Tables, v: VpsId) {
    v in t.vpses && t.vpses[v].vmId.Some?
  }

  ghost predicate SafeStatement(t: Tables, s: Statement) {
    match s
    case SetState(v, st) => st == Destroyed || (st != Provisioning && Booted(t, v))
    case AssignVps(_, target) => target.None?
    case DeleteAgent(_) => true
    case SetStatus(_, _) => true
    case SetPlan(u, p) => p == t.demoPlan && p.Some? && u in t.users && (t.users[u].None? || t.users[u] == p)
    case _ => false
  }

  /** Nothing in flight, in tables such as any run of handlers one at a time leaves behind. */
  ghost predicate Settled(s: Sys) {
    && s.hs == map[]
    && SafeTables(s.t)
    && forall u: UserId :: |LiveVpses(s.t, u)| <= VpsLimit(s.t, u) && |AgentsOf(s.t, u)| <= AgentLimit(s.t, u)
  }

  /** What a handler's captured locals still guarantee about the tables, whoever has run in between. */
  ghost predicate SafeHandler(t: Tables, h: Handler) {
    match h
    case CreateCount(u, limit) => HasPlan(t, u) && limit == t.plans[t.users[u].value].maxAgents
    case CreateInsert(u) => HasPlan(t, u)
    case ProvisionLoadPlan(u, a, _) => OwnAgent(t, u, a)
    case ProvisionCount(u, a, _, limit) =>
      OwnAgent(t, u, a) && HasPlan(t, u) && limit == t.plans[t.users[u].value].maxVpses
    case ProvisionInsert(u, a, _) => OwnAgent(t, u, a) && HasPlan(t, u)
    case ProvisionAssign(u, a, v) => OwnAgent(t, u, a) && OwnVps(t, u, v) && t.vpses[v].forAgent == a
    case ProvisionCreate(u, v) => OwnVps(t, u, v)
    case ProvisionRefs(u, v, _, _) => OwnVps(t, u, v)
    case ProvisionFinish(u, v) => OwnVps(t, u, v) && Booted(t, v)
    case MonitorStop(todo) => forall v :: v in todo ==> Booted(t, v)
    case Writing(pending) => forall st :: st in pending ==> SafeStatement(t, st)
    case _ => true
  }

  ghost predicate Safe(s: Sys) {
    SafeTables(s.t) && forall id :: id in s.hs ==> SafeHandler(s.t, s.hs[id])
  }

  ghost predicate SameOrigin(a: Vps, b: Vps) {
    b.userId == a.userId && b.forAgent == a.forAgent && (a.vmId.Some? ==> b.vmId.Some?)
  }

  ghost predicate SharesVps(t: Tables, a: AgentId, b: AgentId) {
    a in t.agents && b in t.agents && t.agents[a].vpsId.Some? && t.agents[a].vpsId == t.agents[b].vpsId
  }

  /** How the tables may move under a handler's feet: nothing captured is invalidated. */
  ghost predicate Grows(t: Tables, t': Tables) {
    t'.plans == t.plans && t'.demoPlan == t.demoPlan && UsersKept(t, t') && AgentsKept(t, t') && VpsesKept(t, t')
  }

  ghost predicate UsersKept(t: Tables, t': Tables) {
    && t'.users.Keys == t.users.Keys
    && forall u :: u in t.users ==> t'.users[u] == t.users[u] || (t.users[u].None? && t'.users[u] == t.demoPlan)
  }

  ghost predicate AgentsKept(t: Tables, t': Tables) {
    && t.nextAgent <= t'.nextAgent
    && forall a :: a in t'.agents && a < t.nextAgent ==> a in t.agents && t'.agents[a].userId == t.agents[a].userId
  }

  ghost predicate VpsesKept(t: Tables, t': Tables) {
    forall v :: v in t.vpses ==> v in t'.vpses && SameOrigin(t.vpses[v], t'.vpses[v])
  }

  lemma StillSafe(t: Tables, t': Tables, h: Handler)
    requires SafeHandler(t, h) && Grows(t, t')
    ensures SafeHandler(t', h)
  {
  }

  /** The statements a safe handler may issue. */
  ghost predicate MayIssue(t: Tables, s: Statement) {
    match s
    case InsertAgent(_) => true
    case InsertVps(_, _, _) => true
    case SetRefs(_, vm, _) => vm.Some?
    case AssignVps(a, target) =>
      target.Some? && a in t.agents ==>
        OwnVps(t, t.agents[a].userId, target.value) && t.vpses[target.value].forAgent == a
    case _ => SafeStatement(t, s)
  }

  lemma ApplyGrows(t: Tables, s: Statement)
    requires SafeTables(t) && MayIssue(t, s)
    ensures Grows(t, Apply(t, s))
  {
    VpsesGrow(t, s);
    AgentsGrow(t, s);
  }

  lemma VpsesGrow(t: Tables, s: Statement)
    requires SafeTables(t) && MayIssue(t, s)
    ensures VpsesKept(t, Apply(t, s))
  {
    hide SafeStatement, HasPlan;
    match s {
      case InsertVps(_, _, _) =>
      case SetRefs(v, _, _) => if v in t.vpses { assert SameOrigin(t.vpses[v], Apply(t, s).vpses[v]); }
      case SetState(v, _) => if v in t.vpses { assert SameOrigin(t.vpses[v], Apply(t, s).vpses[v]); }
      case _ => assert Apply(t, s).vpses == t.vpses;
    }
  }

  lemma AgentsGrow(t: Tables, s: Statement)
    requires SafeTables(t) && MayIssue(t, s)
    ensures AgentsKept(t, Apply(t, s))
  {
  }

  lemma ApplySafe(t: Tables, s: Statement)
    requires SafeTables(t) && MayIssue(t, s)
    ensures SafeTables(Apply(t, s))
  {
  }

  /** The statement a handler's next step issues, if that step issues one. */
  function StatementOf(t: Tables, h: Handler, x: Answer): Option<Statement> {
    match h
    case CreateInsert(u) => Some(InsertAgent(u))
    case ProvisionInsert(u, a, c) => Some(InsertVps(u, c, a))
    case ProvisionAssign(_, a, v) => Some(AssignVps(a, Some(v)))
    case ProvisionRefs(_, v, vm, addr) => Some(SetRefs(v, Some(vm), addr))
    case ProvisionFinish(_, v) => Some(SetState(v, Running))
    case Sweep(todo) => if todo == [] || todo[0] !in t.vpses then None else Some(SetState(todo[0], Destroyed))
    case SweepDetach(holders, _) => if holders == [] then None else Some(AssignVps(holders[0], None))
    case MonitorStop(todo) => if todo == [] || !x.ok then None else Some(SetState(todo[0], Stopped))
    case Writing(pending) => if pending == [] then None else Some(pending[0])
    case _ => None
  }

  lemma StepApplies(t: Tables, h: Handler, x: Answer)
    ensures var st := StatementOf(t, h, x);
            Step(t, h, x).0 == if st.None? then t else Apply(t, st.value)
  {
  }

  lemma StepIssuesSafely(t: Tables, h: Handler, x: Answer)
    requires SafeTables(t) && SafeHandler(t, h)
    ensures StatementOf(t, h, x).Some? ==> MayIssue(t, StatementOf(t, h, x).value)
  {
    match h {
      case MonitorStop(todo) => assert todo != [] ==> todo[0] in todo;
      case Writing(pending) => assert pending != [] ==> pending[0] in pending;
      case _ =>
    }
  }

  /** Whatever a read lets a handler plan is safe in the tables it read. */
  lemma RestSafe(t: Tables, h: Handler, x: Answer)
    requires SafeTables(t) && SafeHandler(t, h) && StatementOf(t, h, x).None?
    ensures Step(t, h, x).1.Some? ==> SafeHandler(t, Step(t, h, x).1.value)
  {
    hide Apply, ListByState, ListAgents, HoldersOf, LiveVpses, AgentsOf, Offered;
    if h.FindVps? {
      FoundSafe(t, h.agent, h.found, h.goal);
    }
  }

  lemma FoundSafe(t: Tables, a: AgentId, v: VpsId, goal: Goal)
    requires SafeTables(t)
    ensures var rest := AfterFind(t, a, v, goal); rest.Some? ==> SafeHandler(t, rest.value)
  {
    var rest := AfterFind(t, a, v, goal);
    if rest.Some? {
      forall st | st in rest.value.pending ensures SafeStatement(t, st) {}
    }
  }

  lemma RestSafeAfterWrite(t: Tables, h: Handler, x: Answer)
    requires SafeTables(t) && SafeHandler(t, h) && StatementOf(t, h, x).Some?
    ensures var t' := Step(t, h, x).0;
            Grows(t, t') && Step(t, h, x).1.Some? ==> SafeHandler(t', Step(t, h, x).1.value)
  {
    var (t', rest) := Step(t, h, x);
    if Grows(t, t') {
      match h {
        case MonitorStop(todo) => StillSafe(t, t', h);
        case Writing(pending) => StillSafe(t, t', h);
        case _ =>
      }
    }
  }

  lemma StepSafe(t: Tables, h: Handler, x: Answer)
    requires SafeTables(t) && SafeHandler(t, h)
    ensures var (t', rest) := Step(t, h, x);
            SafeTables(t') && Grows(t, t') && (rest.Some? ==> SafeHandler(t', rest.value))
  {
    var st := StatementOf(t, h, x);
    StepApplies(t, h, x);
    if st.Some? {
      StepIssuesSafely(t, h, x);
      ApplyGrows(t, st.value);
      ApplySafe(t, st.value);
      RestSafeAfterWrite(t, h, x);
    } else {
      RestSafe(t, h, x);
    }
  }

  lemma NextSafe(s: Sys, l: Label)
    requires Safe(s)
    ensures Safe(Next(s, l))
  {
    if l.Advance? && l.id in s.hs {
      var (t', rest) := Step(s.t, s.hs[l.id], l.answer);
      StepSafe(s.t, s.hs[l.id], l.answer);
      forall id | id in s.hs ensures SafeHandler(t', s.hs[id]) {
        StillSafe(s.t, t', s.hs[id]);
      }
    }
  }

  lemma {:induction false} TraceSafe(s: Sys, ls: seq<Label>)
    requires Safe(s)
    ensures forall i :: 0 <= i <= |ls| ==> Safe(Trace(s, ls)[i])
    decreases |ls|
  {
    if ls != [] {
      NextSafe(s, ls[0]);
      TraceSafe(Next(s, ls[0]), ls[1..]);
    }
  }

  /**
   In every state of every interleaving, handlers abandoned or not: what runs or is
   stopped has a VM, an agent's VPS exists and is its user's, and no two agents share one.
   */
  lemma InterleavedSafety(s: Sys, ls: seq<Label>, i: nat)
    requires Settled(s) && i <= |ls|
    ensures var t := Trace(s, ls)[i].t;
            && (forall v :: v in t.vpses && t.vpses[v].state in {Running, Stopped} ==> t.vpses[v].vmId.Some?)
            && (forall a :: a in t.agents && t.agents[a].vpsId.Some? ==>
                              OwnVps(t, t.agents[a].userId, t.agents[a].vpsId.value))
            && (forall a, b :: SharesVps(t, a, b) ==> a == b)
  {
    TraceSafe(s, ls);
    assert Safe(Trace(s, ls)[i]);
  }
}
