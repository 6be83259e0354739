/**
 Handlers that run one at a time. Over every run, attached agents and live VPSes match
 one to one, plan limits hold, and each VPS's states form a path of the life cycle.
 */
module Lifecycle {
  import opened Prelude
  import opened Store
  import opened Handlers

  // -- Invariants --------------------------------------------------------------

  ghost predicate Live(t: Tables, v: VpsId) {
    v in t.vpses && t.vpses[v].state != Destroyed
  }

  /** Attachment and liveness say the same thing, and a VPS has a VM once it has run. */
  ghost predicate Linked(t: Tables) {
    && (forall a :: a in t.agents ==> a < t.nextAgent)
    && (forall v :: v in t.vpses ==> v < t.nextVps)
    && (forall a :: a in t.agents && t.agents[a].vpsId.Some? ==>
                      var v := t.agents[a].vpsId.value;
                      Live(t, v) && t.vpses[v].forAgent == a && t.vpses[v].userId == t.agents[a].userId)
    && (forall v :: Live(t, v) ==>
                      var a := t.vpses[v].forAgent;
                      a in t.agents && t.agents[a].vpsId == Some(v))
    && (forall v :: v in t.vpses && t.vpses[v].state in {Running, Stopped} ==> t.vpses[v].vmId.Some?)
    && (forall v :: v in t.vpses && t.vpses[v].state == Provisioning ==> t.vpses[v].vmId.None?)
  }

  ghost predicate WithinLimits(t: Tables) {
    forall u: UserId :: |LiveVpses(t, u)| <= VpsLimit(t, u) && |AgentsOf(t, u)| <= AgentLimit(t, u)
  }

  ghost predicate Consistent(t: Tables) {
    Linked(t) && WithinLimits(t)
  }

  // -- Detaching loops -----------------------------------------------------------

  /** The agents table once the listed agents have let go of v. */
  ghost function LetGo(agents: map<AgentId, Agent>, v: VpsId, listed: seq<AgentId>): map<AgentId, Agent> {
    map a | a in agents ::
      if a in listed && agents[a].vpsId == Some(v) then agents[a].(vpsId := None) else agents[a]
  }

  lemma {:induction false} DetachEffect(t: Tables, v: VpsId, listed: seq<AgentId>)
    requires forall a :: a in listed ==> a in t.agents
    ensures ApplyAll(t, Detach(t, v, listed)) == t.(agents := LetGo(t.agents, v, listed))
    decreases |listed|
  {
    hide LetGo;
    if listed == [] {
      LetGoNone(t.agents, v);
    } else {
      var init, last := listed[..|listed| - 1], listed[|listed| - 1];
      DetachEffect(t, v, init);
      LetGoMore(t.agents, v, listed);
      var t1 := ApplyAll(t, Detach(t, v, init));
      if t.agents[last].vpsId == Some(v) {
        ApplyAllConcat(t, Detach(t, v, init), [AssignVps(last, None)]);
        ApplyOne(t1, AssignVps(last, None));
      } else {
        assert Detach(t, v, listed) == Detach(t, v, init);
      }
    }
  }

  lemma LetGoNone(agents: map<AgentId, Agent>, v: VpsId)
    ensures LetGo(agents, v, []) == agents
  {
  }

  lemma LetGoMore(agents: map<AgentId, Agent>, v: VpsId, listed: seq<AgentId>)
    requires listed != [] && listed[|listed| - 1] in agents
    ensures var last, before := listed[|listed| - 1], LetGo(agents, v, listed[..|listed| - 1]);
            && last in before
            && LetGo(agents, v, listed) == if agents[last].vpsId == Some(v)
                                           then before[last := before[last].(vpsId := None)] else before
  {
    assert listed == listed[..|listed| - 1] + [listed[|listed| - 1]];
  }

  /** Retiring a live VPS is destroying it and detaching the one agent that holds it. */
  lemma RetireEffect(t: Tables, v: VpsId)
    requires Linked(t) && Live(t, v)
    ensures ApplyAll(t, Retire(t, v))
         == Apply(Apply(t, SetState(v, Destroyed)), AssignVps(t.vpses[v].forAgent, None))
  {
    var a := t.vpses[v].forAgent;
    var listed := ListAgents(t, t.vpses[v].userId, t.nextAgent);
    var t1 := Apply(t, SetState(v, Destroyed));
    assert a in listed && forall b :: b in t.agents && t.agents[b].vpsId == Some(v) ==> b == a;
    hide Linked, Live, LetGo;
    SameDetach(t, t1, v, listed);
    ApplyAllConcat(t, [SetState(v, Destroyed)], Detach(t, v, listed));
    ApplyOne(t, SetState(v, Destroyed));
    DetachEffect(t1, v, listed);
    LetGoOne(t1.agents, v, listed, a);
  }

  lemma LetGoOne(agents: map<AgentId, Agent>, v: VpsId, listed: seq<AgentId>, a: AgentId)
    requires a in agents && a in listed && agents[a].vpsId == Some(v)
    requires forall b :: b in agents && agents[b].vpsId == Some(v) ==> b == a
    ensures LetGo(agents, v, listed) == agents[a := agents[a].(vpsId := None)]
  {
  }

  // -- Each kind of change keeps the invariant --------------------------------------

  /** Fewer live VPSes and agents under the same plans stay within the limits. */
  lemma LimitsKept(t: Tables, t': Tables)
    requires WithinLimits(t)
    requires t'.plans == t.plans && t'.users == t.users
    requires forall u :: LiveVpses(t', u) <= LiveVpses(t, u) && AgentsOf(t', u) <= AgentsOf(t, u)
    ensures WithinLimits(t')
  {
    forall u: UserId
      ensures |LiveVpses(t', u)| <= VpsLimit(t', u) && |AgentsOf(t', u)| <= AgentLimit(t', u)
    {
      assert LiveVpses(t', u) <= LiveVpses(t, u) && AgentsOf(t', u) <= AgentsOf(t, u);
      SubsetSize(LiveVpses(t', u), LiveVpses(t, u));
      SubsetSize(AgentsOf(t', u), AgentsOf(t, u));
    }
  }

  lemma DestroyKeeps(t: Tables, v: VpsId)
    requires Consistent(t) && Live(t, v)
    ensures Consistent(Apply(Apply(t, SetState(v, Destroyed)), AssignVps(t.vpses[v].forAgent, None)))
  {
    var t' := Apply(Apply(t, SetState(v, Destroyed)), AssignVps(t.vpses[v].forAgent, None));
    assert forall w :: Live(t', w) <==> w != v && Live(t, w);
    LimitsKept(t, t');
  }

  lemma ToggleKeeps(t: Tables, v: VpsId, next: VpsState)
    requires Consistent(t) && v in t.vpses
    requires t.vpses[v].state in {Running, Stopped} && next in {Running, Stopped}
    ensures Consistent(Apply(t, SetState(v, next)))
  {
    var t' := Apply(t, SetState(v, next));
    assert forall w :: Live(t', w) <==> Live(t, w);
    LimitsKept(t, t');
  }

  lemma DeleteKeeps(t: Tables, a: AgentId)
    requires Consistent(t) && a in t.agents && t.agents[a].vpsId.None?
    ensures Consistent(Apply(t, Statement.DeleteAgent(a)))
  {
    var t' := Apply(t, Statement.DeleteAgent(a));
    assert forall w :: Live(t', w) <==> Live(t, w);
    LimitsKept(t, t');
  }

  lemma DestroyAndDeleteKeeps(t: Tables, a: AgentId)
    requires Consistent(t) && a in t.agents && t.agents[a].vpsId.Some?
    ensures Consistent(Apply(Apply(t, SetState(t.agents[a].vpsId.value, Destroyed)), Statement.DeleteAgent(a)))
  {
    var v := t.agents[a].vpsId.value;
    assert Live(t, v);
    var t1 := Apply(Apply(t, SetState(v, Destroyed)), AssignVps(a, None));
    DestroyKeeps(t, v);
    DeleteKeeps(t1, a);
    assert t1.agents - {a} == t.agents - {a};
  }

  lemma DeleteAgentKeeps(t: Tables, a: AgentId)
    requires Consistent(t) && a in t.agents
    ensures Consistent(ApplyAll(t, RetireAttached(t, t.agents[a].vpsId) + [Statement.DeleteAgent(a)]))
  {
    var v := t.agents[a].vpsId;
    if v.Some? {
      assert Live(t, v.value);
      DestroyAndDeleteKeeps(t, a);
      ApplyTwo(t, SetState(v.value, Destroyed), Statement.DeleteAgent(a));
      assert [SetState(v.value, Destroyed)] + [Statement.DeleteAgent(a)]
          == [SetState(v.value, Destroyed), Statement.DeleteAgent(a)];
    } else {
      DeleteKeeps(t, a);
      ApplyOne(t, Statement.DeleteAgent(a));
      assert [] + [Statement.DeleteAgent(a)] == [Statement.DeleteAgent(a)];
    }
  }

  lemma AgentInserted(t: Tables, u: UserId, w: UserId)
    requires Linked(t)
    ensures var t' := Apply(t, InsertAgent(u));
            && LiveVpses(t', w) == LiveVpses(t, w)
            && AgentsOf(t', w) == AgentsOf(t, w) + if w == u then {t.nextAgent} else {}
  {
    var t' := Apply(t, InsertAgent(u));
    assert t'.vpses == t.vpses;
    assert AgentsOf(t', w) == AgentsOf(t, w) + if w == u then {t.nextAgent} else {};
  }

  lemma VpsInserted(t: Tables, u: UserId, c: ConfigId, a: AgentId, w: UserId)
    requires Linked(t)
    ensures var t2 := Apply(Apply(t, InsertVps(u, c, a)), AssignVps(a, Some(t.nextVps)));
            && LiveVpses(t2, w) == LiveVpses(t, w) + (if w == u then {t.nextVps} else {})
            && AgentsOf(t2, w) == AgentsOf(t, w)
  {
    var t1 := Apply(t, InsertVps(u, c, a));
    var t2 := Apply(t1, AssignVps(a, Some(t.nextVps)));
    AssignKeepsSets(t1, a, Some(t.nextVps), w);
    assert LiveVpses(t1, w) == LiveVpses(t, w) + (if w == u then {t.nextVps} else {});
    assert t1.agents == t.agents;
  }

  lemma AssignKeepsSets(t: Tables, a: AgentId, target: Option<VpsId>, w: UserId)
    ensures var t' := Apply(t, AssignVps(a, target));
            LiveVpses(t', w) == LiveVpses(t, w) && AgentsOf(t', w) == AgentsOf(t, w)
  {
  }

  lemma InsertAgentLinked(t: Tables, u: UserId)
    requires Linked(t)
    ensures Linked(Apply(t, InsertAgent(u)))
  {
    assert forall v :: Live(Apply(t, InsertAgent(u)), v) <==> Live(t, v);
  }

  lemma CreateAgentKeeps(t: Tables, u: UserId)
    requires Consistent(t) && |AgentsOf(t, u)| < AgentLimit(t, u)
    ensures Consistent(Apply(t, InsertAgent(u)))
  {
    var t' := Apply(t, InsertAgent(u));
    InsertAgentLinked(t, u);
    forall w: UserId
      ensures |LiveVpses(t', w)| <= VpsLimit(t', w) && |AgentsOf(t', w)| <= AgentLimit(t', w)
    {
      AgentInserted(t, u, w);
    }
  }

  lemma InsertedLinked(t: Tables, u: UserId, a: AgentId, c: ConfigId)
    requires Linked(t)
    requires a in t.agents && t.agents[a].userId == u && t.agents[a].vpsId.None?
    ensures Linked(Apply(Apply(t, InsertVps(u, c, a)), AssignVps(a, Some(t.nextVps))))
  {
    var t1 := Apply(t, InsertVps(u, c, a));
    var t2 := Apply(t1, AssignVps(a, Some(t.nextVps)));
    assert forall w :: Live(t2, w) <==> w == t.nextVps || Live(t, w);
    forall w | Live(t2, w)
      ensures t2.vpses[w].forAgent in t2.agents && t2.agents[t2.vpses[w].forAgent].vpsId == Some(w)
    {
      if w != t.nextVps {
        assert Live(t, w);
      }
    }
  }

  lemma SameLimits(t: Tables, u: UserId, c: ConfigId, a: AgentId, w: UserId)
    ensures var t2 := Apply(Apply(t, InsertVps(u, c, a)), AssignVps(a, Some(t.nextVps)));
            VpsLimit(t2, w) == VpsLimit(t, w) && AgentLimit(t2, w) == AgentLimit(t, w)
  {
  }

  lemma InsertedWithinLimits(t: Tables, u: UserId, a: AgentId, c: ConfigId)
    requires Consistent(t) && |LiveVpses(t, u)| < VpsLimit(t, u)
    ensures WithinLimits(Apply(Apply(t, InsertVps(u, c, a)), AssignVps(a, Some(t.nextVps))))
  {
    hide Linked, LiveVpses, AgentsOf, VpsLimit, AgentLimit, Apply;
    var t2 := Apply(Apply(t, InsertVps(u, c, a)), AssignVps(a, Some(t.nextVps)));
    forall w: UserId
      ensures |LiveVpses(t2, w)| <= VpsLimit(t2, w) && |AgentsOf(t2, w)| <= AgentLimit(t2, w)
    {
      VpsInserted(t, u, c, a, w);
      SameLimits(t, u, c, a, w);
    }
  }

  /** Inserting and assigning a VPS; then, if the VM came up, its references and state. */
  lemma ProvisionKeeps(t: Tables, u: UserId, a: AgentId, c: ConfigId, created: Option<Vm>)
    requires Consistent(t) && |LiveVpses(t, u)| < VpsLimit(t, u)
    requires a in t.agents && t.agents[a].userId == u && t.agents[a].vpsId.None?
    ensures var v := t.nextVps;
            var t2 := Apply(Apply(t, InsertVps(u, c, a)), AssignVps(a, Some(v)));
            && Consistent(t2)
            && (created.Some? ==>
                  Consistent(Apply(Apply(t2, SetRefs(v, Some(created.value.id), created.value.address)),
                                   SetState(v, Running))))
  {
    var v := t.nextVps;
    var t2 := Apply(Apply(t, InsertVps(u, c, a)), AssignVps(a, Some(v)));
    InsertedLinked(t, u, a, c);
    InsertedWithinLimits(t, u, a, c);
    if created.Some? {
      CameUpKeeps(t2, v, created.value);
    }
  }

  lemma CameUpKeeps(t: Tables, v: VpsId, vm: Vm)
    requires Consistent(t) && Live(t, v)
    ensures Consistent(Apply(Apply(t, SetRefs(v, Some(vm.id), vm.address)), SetState(v, Running)))
  {
    var t' := Apply(Apply(t, SetRefs(v, Some(vm.id), vm.address)), SetState(v, Running));
    assert forall w :: Live(t', w) <==> Live(t, w);
    LimitsKept(t, t');
  }

  lemma SetDemoPlanKeeps(t: Tables, u: UserId)
    requires Consistent(t) && u in t.users && t.users[u].None?
    ensures Consistent(Apply(t, SetPlan(u, t.demoPlan)))
  {
    var t' := Apply(t, SetPlan(u, t.demoPlan));
    assert forall v :: Live(t', v) <==> Live(t, v);
    forall w: UserId
      ensures |LiveVpses(t', w)| <= VpsLimit(t', w) && |AgentsOf(t', w)| <= AgentLimit(t', w)
    {
      assert LiveVpses(t', w) == LiveVpses(t, w) && AgentsOf(t', w) == AgentsOf(t, w);
    }
  }

  lemma SetStatusKeeps(t: Tables, u: UserId, status: UserStatus)
    requires Consistent(t)
    ensures Consistent(ApplyAll(t, AssignDemo(t, u, status) + [SetStatus(u, status)]))
  {
    hide Consistent, Apply;
    var demo := AssignDemo(t, u, status);
    ApplyAllConcat(t, demo, [SetStatus(u, status)]);
    if demo == [] {
      ApplyNone(t);
    } else {
      ApplyOne(t, SetPlan(u, t.demoPlan));
      SetDemoPlanKeeps(t, u);
    }
    var t1 := ApplyAll(t, demo);
    ApplyOne(t1, SetStatus(u, status));
    StatusKeeps(t1, u, status);
  }

  lemma StatusKeeps(t: Tables, u: UserId, status: UserStatus)
    requires Consistent(t)
    ensures Consistent(Apply(t, SetStatus(u, status)))
  {
    var t' := Apply(t, SetStatus(u, status));
    assert forall v :: Live(t', v) <==> Live(t, v);
    LimitsKept(t, t');
  }

  lemma RetireKeeps(t: Tables, v: VpsId)
    requires Consistent(t) && Live(t, v)
    ensures Consistent(ApplyAll(t, Retire(t, v)))
  {
    RetireEffect(t, v);
    DestroyKeeps(t, v);
  }

  lemma {:induction false} SweepKeeps(t: Tables, stuck: seq<VpsId>)
    requires Consistent(t) && forall v :: v in stuck ==> Live(t, v)
    requires forall i, j :: 0 <= i < j < |stuck| ==> stuck[i] < stuck[j]
    ensures Consistent(ApplyAll(t, RetireEach(t, stuck)))
    decreases |stuck|
  {
    if stuck != [] {
      var v := stuck[0];
      var t1 := ApplyAll(t, Retire(t, v));
      RetireKeeps(t, v);
      RetireEffect(t, v);
      assert forall w :: Live(t1, w) <==> w != v && Live(t, w);
      forall w | w in stuck[1..] ensures Live(t1, w) {
        assert w in stuck && w != v;
      }
      ApplyAllConcat(t, Retire(t, v), RetireEach(t1, stuck[1..]));
      SweepKeeps(t1, stuck[1..]);
    }
  }

  lemma ProvisionHandled(t: Tables, u: UserId, a: AgentId, c: ConfigId, created: Option<Vm>)
    requires Consistent(t) && IssueProvision(t, u, a, c, created).statements != []
    ensures Consistent(ApplyAll(t, IssueProvision(t, u, a, c, created).statements))
  {
    var ss := IssueProvision(t, u, a, c, created).statements;
    ProvisionKeeps(t, u, a, c, created);
    ApplyAllConcat(t, ss[..2], ss[2..]);
    assert ss == ss[..2] + ss[2..];
    ApplyTwo(t, ss[0], ss[1]);
    assert ss[..2] == [ss[0], ss[1]];
    if created.Some? {
      assert ss[2..] == [ss[2], ss[3]];
      ApplyTwo(ApplyAll(t, ss[..2]), ss[2], ss[3]);
    }
  }

  lemma HeldForItsAgent(t: Tables, a: AgentId)
    requires Consistent(t) && a in t.agents && t.agents[a].vpsId.Some?
    ensures Live(t, t.agents[a].vpsId.value) && t.vpses[t.agents[a].vpsId.value].forAgent == a
  {
  }

  lemma HandleKeeps(t: Tables, r: Request)
    requires Consistent(t)
    ensures Consistent(Handle(t, r))
  {
    hide Consistent, Linked, WithinLimits, Apply;
    var ss := Issue(t, r).statements;
    if ss == [] {
    } else {
      match r {
        case CreateAgent(u) =>
          ApplyOne(t, InsertAgent(u));
          CreateAgentKeeps(t, u);
        case DeleteAgent(_, a) => DeleteAgentKeeps(t, a);
        case ProvisionVps(u, a, c, created) => ProvisionHandled(t, u, a, c, created);
        case StartVps(u, a, _) =>
          ApplyOne(t, ss[0]);
          ToggleKeeps(t, AgentVps(t, u, a).value, Running);
        case StopVps(u, a, _) =>
          ApplyOne(t, ss[0]);
          ToggleKeeps(t, AgentVps(t, u, a).value, Stopped);
        case DestroyVps(u, a) =>
          ApplyTwo(t, ss[0], ss[1]);
          HeldForItsAgent(t, a);
          DestroyKeeps(t, AgentVps(t, u, a).value);
        case AdminStopVps(v, _) =>
          ApplyOne(t, ss[0]);
          ToggleKeeps(t, v, Stopped);
        case AdminDestroyVps(v) => RetireKeeps(t, v);
        case AdminDeleteAgent(a) => DeleteAgentKeeps(t, a);
        case CleanupStuck => SweepKeeps(t, ListByState(t, Provisioning, t.nextVps));
        case SetUserStatus(u, status) => SetStatusKeeps(t, u, status);
      }
    }
  }

  lemma {:induction false} RunKeeps(t: Tables, rs: seq<Request>)
    requires Consistent(t)
    ensures Consistent(Run(t, rs))
    decreases |rs|
  {
    if rs != [] {
      HandleKeeps(t, rs[0]);
      RunKeeps(Handle(t, rs[0]), rs[1..]);
    }
  }

  // -- Runs ----------------------------------------------------------------------

  /** A fresh deployment: plans, configs and users may exist, but no agent and no VPS. */
  ghost predicate Fresh(t: Tables) {
    t.agents == map[] && t.vpses == map[]
  }

  lemma FreshConsistent(t: Tables)
    requires Fresh(t)
    ensures Consistent(t)
  {
    forall u: UserId
      ensures |LiveVpses(t, u)| <= VpsLimit(t, u) && |AgentsOf(t, u)| <= AgentLimit(t, u)
    {
      assert LiveVpses(t, u) == {} && AgentsOf(t, u) == {};
    }
  }

  function Attached(t: Tables, u: UserId): set<AgentId> {
    set a | a in AgentsOf(t, u) && t.agents[a].vpsId.Some?
  }

  ghost predicate Holds(t: Tables, a: AgentId, v: VpsId) {
    a in t.agents && t.agents[a].vpsId == Some(v)
  }

  lemma EquallyMany(t: Tables, u: UserId)
    requires Linked(t)
    ensures |Attached(t, u)| == |LiveVpses(t, u)|
  {
    var agents, vpses := Attached(t, u), LiveVpses(t, u);
    forall v | v in vpses ensures exists a :: a in agents && HeldBy(t, a) == v {
      assert Live(t, v);
      assert t.vpses[v].forAgent in agents && HeldBy(t, t.vpses[v].forAgent) == v;
    }
    ImageSize(agents, vpses, a => HeldBy(t, a));
    forall a | a in agents ensures exists v :: v in vpses && AgentFor(t, v) == a {
      assert Live(t, HeldBy(t, a));
      assert HeldBy(t, a) in vpses && AgentFor(t, HeldBy(t, a)) == a;
    }
    ImageSize(vpses, agents, v => AgentFor(t, v));
  }

  ghost function HeldBy(t: Tables, a: AgentId): VpsId {
    if a in t.agents && t.agents[a].vpsId.Some? then t.agents[a].vpsId.value else 0
  }

  ghost function AgentFor(t: Tables, v: VpsId): AgentId {
    if v in t.vpses then t.vpses[v].forAgent else 0
  }

  /**
   After every run: whatever an agent holds is live and its user's own; every live VPS is
   held by exactly one agent; a user has as many live VPSes as attached agents, and
   neither plan limit is exceeded.
   */
  lemma AttachmentIsOneToOne(t: Tables, rs: seq<Request>)
    requires Fresh(t)
    ensures var t' := Run(t, rs);
            && (forall a, v :: Holds(t', a, v) ==> Live(t', v) && t'.vpses[v].userId == t'.agents[a].userId)
            && (forall v :: Live(t', v) ==> exists a :: Holds(t', a, v))
            && (forall a, b, v :: Holds(t', a, v) && Holds(t', b, v) ==> a == b)
            && (forall u :: |LiveVpses(t', u)| == |Attached(t', u)|)
            && (forall u :: |LiveVpses(t', u)| <= VpsLimit(t', u) && |LiveVpses(t', u)| <= AgentLimit(t', u))
  {
    var t' := Run(t, rs);
    FreshConsistent(t);
    RunKeeps(t, rs);
    forall v | Live(t', v) ensures exists a :: Holds(t', a, v) {
      assert Holds(t', t'.vpses[v].forAgent, v);
    }
    forall u ensures |LiveVpses(t', u)| == |Attached(t', u)|
                     && |LiveVpses(t', u)| <= VpsLimit(t', u) && |LiveVpses(t', u)| <= AgentLimit(t', u)
    {
      EquallyMany(t', u);
      SubsetSize(Attached(t', u), AgentsOf(t', u));
    }
  }

  // -- Histories -------------------------------------------------------------------

  function RowOf(t: Tables, v: VpsId): Option<Vps> {
    if v in t.vpses then Some(t.vpses[v]) else None
  }

  /** The rows of v before, between and after the statements. */
  function History(t: Tables, ss: seq<Statement>, v: VpsId): (h: seq<Option<Vps>>)
    ensures |h| == |ss| + 1 && h[0] == RowOf(t, v)
    decreases |ss|
  {
    [RowOf(t, v)] + if ss == [] then [] else History(Apply(t, ss[0]), ss[1..], v)
  }

  predicate StateEdge(a: VpsState, b: VpsState) {
    || (a == Provisioning && b == Running)
    || (a == Running && b == Stopped)
    || (a == Stopped && b == Running)
    || (a != Destroyed && b == Destroyed)
  }

  /** One statement may insert a provisioning row, take one edge of the life cycle, or fill in the VM once. */
  predicate RowStep(a: Option<Vps>, b: Option<Vps>) {
    || a == b
    || (a.None? && b.Some? && b.value.state == Provisioning && b.value.vmId.None?)
    || (a.Some? && b.Some? && StateEdge(a.value.state, b.value.state)
        && b.value == a.value.(state := b.value.state))
    || (a.Some? && b.Some? && a.value.vmId.None? && b.value.vmId.Some?
        && b.value == a.value.(vmId := b.value.vmId, address := b.value.address))
  }

  /** b may come after a: nothing but the life cycle has moved, destroyed is final, a VM id stays. */
  predicate Later(a: Vps, b: Vps) {
    && b.userId == a.userId && b.configId == a.configId && b.forAgent == a.forAgent
    && (a.state == Destroyed ==> b.state == Destroyed)
    && (a.state != Provisioning ==> b.state != Provisioning)
    && (a.vmId.Some? ==> b.vmId == a.vmId)
  }

  ghost predicate IsPath(h: seq<Option<Vps>>) {
    forall i :: 0 < i < |h| ==> RowStep(h[i - 1], h[i])
  }

  /** What a statement must meet for the row it touches to take a life-cycle step. */
  ghost predicate LegalStatement(t: Tables, s: Statement) {
    match s
    case InsertVps(_, _, _) => t.nextVps !in t.vpses
    case SetRefs(v, vm, _) => v in t.vpses ==> t.vpses[v].vmId.None? && vm.Some?
    case SetState(v, st) => v in t.vpses ==> StateEdge(t.vpses[v].state, st)
    case _ => true
  }

  ghost predicate Legal(t: Tables, ss: seq<Statement>)
    decreases |ss|
  {
    ss == [] || (LegalStatement(t, ss[0]) && Legal(Apply(t, ss[0]), ss[1..]))
  }

  lemma {:induction false} LegalConcat(t: Tables, a: seq<Statement>, b: seq<Statement>)
    requires Legal(t, a) && Legal(ApplyAll(t, a), b)
    ensures Legal(t, a + b)
    decreases |a|
  {
    if a == [] {
      assert a + b == b;
    } else {
      assert (a + b)[1..] == a[1..] + b;
      LegalConcat(Apply(t, a[0]), a[1..], b);
    }
  }

  lemma LegalRowStep(t: Tables, s: Statement, v: VpsId)
    requires LegalStatement(t, s)
    ensures RowStep(RowOf(t, v), RowOf(Apply(t, s), v))
  {
    match s {
      case SetState(w, st) => if w == v && v in t.vpses { assert Apply(t, s).vpses[v] == t.vpses[v].(state := st); }
      case _ =>
    }
  }

  lemma {:induction false} LegalHistory(t: Tables, ss: seq<Statement>, v: VpsId)
    requires Legal(t, ss)
    ensures IsPath(History(t, ss, v))
    decreases |ss|
  {
    if ss != [] {
      var h, rest := History(t, ss, v), History(Apply(t, ss[0]), ss[1..], v);
      LegalHistory(Apply(t, ss[0]), ss[1..], v);
      LegalRowStep(t, ss[0], v);
      assert h == [RowOf(t, v)] + rest;
      forall i | 0 < i < |h| ensures RowStep(h[i - 1], h[i]) {
        if i == 1 {
          assert h[1] == rest[0];
        } else {
          assert h[i - 1] == rest[i - 2] && h[i] == rest[i - 1];
        }
      }
    }
  }

  lemma {:induction false} DetachLegal(t: Tables, v: VpsId, listed: seq<AgentId>)
    requires forall a :: a in listed ==> a in t.agents
    ensures forall t1 :: Legal(t1, Detach(t, v, listed))
    decreases |listed|
  {
    if listed != [] {
      var init, last := listed[..|listed| - 1], listed[|listed| - 1];
      DetachLegal(t, v, init);
      var tail := if t.agents[last].vpsId == Some(v) then [AssignVps(last, None)] else [];
      forall t1: Tables ensures Legal(t1, Detach(t, v, listed)) {
        assert Legal(ApplyAll(t1, Detach(t, v, init)), tail);
        LegalConcat(t1, Detach(t, v, init), tail);
      }
    }
  }

  lemma RetireLegal(t: Tables, v: VpsId)
    requires Live(t, v)
    ensures Legal(t, Retire(t, v))
  {
    var listed := ListAgents(t, t.vpses[v].userId, t.nextAgent);
    DetachLegal(t, v, listed);
    assert Legal(t, [SetState(v, Destroyed)]);
    LegalConcat(t, [SetState(v, Destroyed)], Detach(t, v, listed));
  }

  lemma {:induction false} SweepLegal(t: Tables, stuck: seq<VpsId>)
    requires Consistent(t) && forall v :: v in stuck ==> Live(t, v)
    requires forall i, j :: 0 <= i < j < |stuck| ==> stuck[i] < stuck[j]
    ensures Legal(t, RetireEach(t, stuck))
    decreases |stuck|
  {
    if stuck != [] {
      var v := stuck[0];
      var t1 := ApplyAll(t, Retire(t, v));
      RetireLegal(t, v);
      RetireKeeps(t, v);
      RetireEffect(t, v);
      assert forall w :: Live(t1, w) <==> w != v && Live(t, w);
      forall w | w in stuck[1..] ensures Live(t1, w) {
        assert w in stuck && w != v;
      }
      SweepLegal(t1, stuck[1..]);
      LegalConcat(t, Retire(t, v), RetireEach(t1, stuck[1..]));
    }
  }

  lemma DeleteAgentLegal(t: Tables, a: AgentId)
    requires a in t.agents
    ensures Legal(t, RetireAttached(t, t.agents[a].vpsId) + [Statement.DeleteAgent(a)])
  {
    var head := RetireAttached(t, t.agents[a].vpsId);
    assert Legal(t, head);
    assert Legal(ApplyAll(t, head), [Statement.DeleteAgent(a)]);
    LegalConcat(t, head, [Statement.DeleteAgent(a)]);
  }

  lemma ProvisionLegal(t: Tables, u: UserId, a: AgentId, c: ConfigId, created: Option<Vm>)
    requires Consistent(t) && IssueProvision(t, u, a, c, created).statements != []
    ensures Legal(t, IssueProvision(t, u, a, c, created).statements)
  {
    var ss := IssueProvision(t, u, a, c, created).statements;
    var v := t.nextVps;
    var head, tail := ss[..2], ss[2..];
    assert ss == head + tail && head == [InsertVps(u, c, a), AssignVps(a, Some(v))];
    assert head[1..] == [AssignVps(a, Some(v))];
    assert Legal(t, head);
    ApplyTwo(t, ss[0], ss[1]);
    if created.Some? {
      assert tail == [SetRefs(v, Some(created.value.id), created.value.address), SetState(v, Running)];
      assert tail[1..] == [SetState(v, Running)];
    }
    assert Legal(ApplyAll(t, head), tail);
    LegalConcat(t, head, tail);
  }

  lemma IssueLegal(t: Tables, r: Request)
    requires Consistent(t)
    ensures Legal(t, Issue(t, r).statements)
  {
    var ss := Issue(t, r).statements;
    match r {
      case DeleteAgent(_, a) => if ss != [] { DeleteAgentLegal(t, a); }
      case AdminDeleteAgent(a) => if ss != [] { DeleteAgentLegal(t, a); }
      case DestroyVps(_, _) => if ss != [] { assert ss[1..] == [ss[1]]; }
      case AdminDestroyVps(v) => if ss != [] { RetireLegal(t, v); }
      case CleanupStuck => SweepLegal(t, ListByState(t, Provisioning, t.nextVps));
      case ProvisionVps(u, a, c, created) => if ss != [] { ProvisionLegal(t, u, a, c, created); }
      case SetUserStatus(u, status) =>
        assert Legal(t, AssignDemo(t, u, status));
        assert Legal(ApplyAll(t, AssignDemo(t, u, status)), [SetStatus(u, status)]);
        LegalConcat(t, AssignDemo(t, u, status), [SetStatus(u, status)]);
      case _ =>
    }
  }

  lemma {:induction false} IssuedLegal(t: Tables, rs: seq<Request>)
    requires Consistent(t)
    ensures Legal(t, Issued(t, rs)) && ApplyAll(t, Issued(t, rs)) == Run(t, rs)
    decreases |rs|
  {
    if rs != [] {
      var t1 := Handle(t, rs[0]);
      IssueLegal(t, rs[0]);
      HandleKeeps(t, rs[0]);
      IssuedLegal(t1, rs[1..]);
      LegalConcat(t, Issue(t, rs[0]).statements, Issued(t1, rs[1..]));
      ApplyAllConcat(t, Issue(t, rs[0]).statements, Issued(t1, rs[1..]));
    }
  }

  /**
   Statement by statement over every run, each VPS row follows the life cycle:
   provisioning, running and stopped in turn, destroyed for good; the VM id is written
   once, and user, config and agent never change.
   */
  lemma HistoriesFollowLifeCycle(t: Tables, rs: seq<Request>, v: VpsId)
    requires Fresh(t)
    ensures var h := History(t, Issued(t, rs), v);
            && IsPath(h)
            && (forall i, j :: 0 <= i <= j < |h| && h[i].Some? ==>
                                 h[j].Some? && Later(h[i].value, h[j].value))
  {
    FreshConsistent(t);
    IssuedLegal(t, rs);
    LegalHistory(t, Issued(t, rs), v);
    var h := History(t, Issued(t, rs), v);
    forall i, j | 0 <= i <= j < |h| && h[i].Some? ensures h[j].Some? && Later(h[i].value, h[j].value) {
      PathIsMonotone(h, i, j);
    }
  }

  lemma {:induction false} PathIsMonotone(h: seq<Option<Vps>>, i: nat, j: nat)
    requires IsPath(h) && i <= j < |h| && h[i].Some?
    ensures h[j].Some? && Later(h[i].value, h[j].value)
    decreases j - i
  {
    if i < j {
      PathIsMonotone(h, i, j - 1);
      assert RowStep(h[j - 1], h[j]);
    }
  }
}
