/**
 What each handler does, read off the rows: exactly when it is done, which error it gives
 otherwise, and which rows change how. Everything here is said on the tables themselves.
 */
module Effects {
  import opened Prelude
  import opened Store
  import opened Handlers

  /** Ids below the counters, as the counters hand them out. */
  ghost predicate IdsIssued(t: Tables) {
    (forall a :: a in t.agents ==> a < t.nextAgent) && (forall v :: v in t.vpses ==> v < t.nextVps)
  }

  predicate NamesProvider(text: string) {
    text == "fly" || text == "hetzner" || text == "sprites"
  }

  /** The config row exists and its provider is registered. */
  predicate Served(t: Tables, c: ConfigId) {
    c in t.configs
    && ((t.configs[c] == "fly" && Fly in t.providers)
        || (t.configs[c] == "hetzner" && Hetzner in t.providers)
        || (t.configs[c] == "sprites" && Sprites in t.providers))
  }

  predicate Planned(t: Tables, u: UserId) {
    u in t.users && t.users[u].Some? && t.users[u].value in t.plans
  }

  predicate PlanMissing(t: Tables, u: UserId) {
    u !in t.users || (t.users[u].Some? && t.users[u].value !in t.plans)
  }

  predicate Owned(t: Tables, u: UserId, a: AgentId) {
    a in t.agents && t.agents[a].userId == u
  }

  /** User u's agent a is attached to the existing VPS v. */
  predicate Attached(t: Tables, u: UserId, a: AgentId, v: VpsId) {
    a in t.agents && t.agents[a] == Agent(u, Some(v)) && v in t.vpses
  }

  predicate HasVps(t: Tables, u: UserId, a: AgentId) {
    Owned(t, u, a) && t.agents[a].vpsId.Some? && t.agents[a].vpsId.value in t.vpses
  }

  lemma ProviderNames(s: string)
    ensures ParseProvider(s) == Some(Fly) <==> s == "fly"
    ensures ParseProvider(s) == Some(Hetzner) <==> s == "hetzner"
    ensures ParseProvider(s) == Some(Sprites) <==> s == "sprites"
    ensures ParseProvider(s).Some? <==> NamesProvider(s)
  {
    assert "fly" != "hetzner" && "fly" != "sprites" && "hetzner"[0] != "sprites"[0];
  }

  lemma ServedIff(t: Tables, c: ConfigId)
    ensures Served(t, c) <==> ProviderFor(t, c).Some?
  {
    if c in t.configs {
      ProviderNames(t.configs[c]);
    }
  }

  // -- Agents ------------------------------------------------------------------------------

  lemma CreateAgentEffect(t: Tables, u: UserId)
    ensures var r, count := Request.CreateAgent(u), |set a | a in t.agents && t.agents[a].userId == u|;
            var reply := Issue(t, r).reply;
            && (reply == Done <==> Planned(t, u) && count < t.plans[t.users[u].value].maxAgents)
            && (reply == Failed(NotFound) <==> PlanMissing(t, u))
            && (reply == Failed(LimitExceeded) <==>
                  || (u in t.users && t.users[u].None?)
                  || (Planned(t, u) && count >= t.plans[t.users[u].value].maxAgents))
            && Handle(t, r) == if reply == Done
                               then t.(agents := t.agents[t.nextAgent := Agent(u, None)], nextAgent := t.nextAgent + 1)
                               else t
  {
    assert AgentsOf(t, u) == set a | a in t.agents && t.agents[a].userId == u;
    ApplyOne(t, InsertAgent(u));
  }

  /** The rows of the VPSes once the one that is attached, if live, is destroyed. */
  function WithoutAttached(t: Tables, v: Option<VpsId>): map<VpsId, Vps> {
    if v.Some? && v.value in t.vpses then t.vpses[v.value := t.vpses[v.value].(state := Destroyed)] else t.vpses
  }

  lemma RemovalEffect(t: Tables, a: AgentId)
    requires a in t.agents
    ensures ApplyAll(t, RetireAttached(t, t.agents[a].vpsId) + [Statement.DeleteAgent(a)])
         == t.(agents := t.agents - {a}, vpses := WithoutAttached(t, t.agents[a].vpsId))
  {
    var head := RetireAttached(t, t.agents[a].vpsId);
    ApplyAllConcat(t, head, [Statement.DeleteAgent(a)]);
    if head != [] {
      ApplyOne(t, head[0]);
    } else if t.agents[a].vpsId.Some? && t.agents[a].vpsId.value in t.vpses {
      var v := t.agents[a].vpsId.value;
      assert t.vpses[v := t.vpses[v].(state := Destroyed)] == t.vpses;
    }
    ApplyOne(ApplyAll(t, head), Statement.DeleteAgent(a));
  }

  lemma DeleteAgentEffect(t: Tables, u: UserId, a: AgentId)
    ensures var r := Request.DeleteAgent(u, a);
            && Issue(t, r).reply == (if Owned(t, u, a) then Done else Failed(NotFound))
            && Handle(t, r) == if Owned(t, u, a)
                               then t.(agents := t.agents - {a}, vpses := WithoutAttached(t, t.agents[a].vpsId))
                               else t
  {
    if Owned(t, u, a) {
      RemovalEffect(t, a);
    }
  }

  lemma AdminDeleteAgentEffect(t: Tables, a: AgentId)
    ensures var r := Request.AdminDeleteAgent(a);
            && Issue(t, r).reply == (if a in t.agents then Done else Failed(NotFound))
            && Handle(t, r) == if a in t.agents
                               then t.(agents := t.agents - {a}, vpses := WithoutAttached(t, t.agents[a].vpsId))
                               else t
  {
    if a in t.agents {
      RemovalEffect(t, a);
    }
  }

  // -- Provisioning ---------------------------------------------------------------------------

  /** The agent is the user's and holds no VPS. */
  predicate Idle(t: Tables, u: UserId, a: AgentId) {
    a in t.agents && t.agents[a] == Agent(u, None)
  }

  /** Counted on the rows, the user has fewer live VPSes than the plan allows. */
  ghost predicate HasRoom(t: Tables, u: UserId) {
    Planned(t, u)
    && |set v | v in t.vpses && t.vpses[v].userId == u && t.vpses[v].state != Destroyed|
       < t.plans[t.users[u].value].maxVpses
  }

  /** All that provisioning asks for before it inserts. */
  ghost predicate MayProvision(t: Tables, u: UserId, a: AgentId, c: ConfigId) {
    Idle(t, u, a) && HasRoom(t, u) && (t.users[u].value, c) in t.planConfigs && Served(t, c)
  }

  /** The tables with the new row, attached to its agent. */
  function WithVps(t: Tables, u: UserId, a: AgentId, c: ConfigId, created: Option<Vm>): Tables {
    var row := match created
      case None => Vps(u, c, a, None, None, Provisioning, 0, None, None)
      case Some(vm) => Vps(u, c, a, Some(vm.id), vm.address, Running, 0, None, None);
    t.(vpses := t.vpses[t.nextVps := row], nextVps := t.nextVps + 1, agents := t.agents[a := Agent(u, Some(t.nextVps))])
  }

  function Insertion(v: VpsId, u: UserId, a: AgentId, c: ConfigId, created: Option<Vm>): seq<Statement> {
    [InsertVps(u, c, a), AssignVps(a, Some(v))]
    + match created
      case None => []
      case Some(vm) => [SetRefs(v, Some(vm.id), vm.address), SetState(v, Running)]
  }

  lemma InsertedEffect(t: Tables, u: UserId, a: AgentId, c: ConfigId, created: Option<Vm>)
    requires Idle(t, u, a)
    ensures ApplyAll(t, Insertion(t.nextVps, u, a, c, created)) == WithVps(t, u, a, c, created) != t
  {
    var v := t.nextVps;
    var head := [InsertVps(u, c, a), AssignVps(a, Some(v))];
    HeadEffect(t, u, a, c);
    match created {
      case None => assert head + [] == head;
      case Some(vm) =>
        hide Apply;
        var tail := [SetRefs(v, Some(vm.id), vm.address), SetState(v, Running)];
        ApplyAllConcat(t, head, tail);
        TailEffect(t, u, a, c, vm);
        ApplyTwo(ApplyAll(t, head), tail[0], tail[1]);
    }
  }

  lemma HeadEffect(t: Tables, u: UserId, a: AgentId, c: ConfigId)
    requires Idle(t, u, a)
    ensures ApplyAll(t, [InsertVps(u, c, a), AssignVps(a, Some(t.nextVps))]) == WithVps(t, u, a, c, None)
  {
    ApplyTwo(t, InsertVps(u, c, a), AssignVps(a, Some(t.nextVps)));
  }

  lemma TailEffect(t: Tables, u: UserId, a: AgentId, c: ConfigId, vm: Vm)
    ensures var t1, v := WithVps(t, u, a, c, None), t.nextVps;
            Apply(Apply(t1, SetRefs(v, Some(vm.id), vm.address)), SetState(v, Running))
            == WithVps(t, u, a, c, Some(vm))
  {
    var t1, v := WithVps(t, u, a, c, None), t.nextVps;
    var t2 := Apply(t1, SetRefs(v, Some(vm.id), vm.address));
    assert t2.vpses == t.vpses[v := Vps(u, c, a, Some(vm.id), vm.address, Provisioning, 0, None, None)];
    assert Apply(t2, SetState(v, Running)).vpses
        == t.vpses[v := Vps(u, c, a, Some(vm.id), vm.address, Running, 0, None, None)];
  }

  lemma IssuedIff(t: Tables, u: UserId, a: AgentId, c: ConfigId, created: Option<Vm>)
    ensures var s := IssueProvision(t, u, a, c, created);
            if MayProvision(t, u, a, c)
            then s == Script(Insertion(t.nextVps, u, a, c, created), if created.Some? then Done else Failed(Infra))
            else s.statements == [] && s.reply != Done && s.reply != Failed(Infra)
  {
    assert LiveVpses(t, u) == set v | v in t.vpses && t.vpses[v].userId == u && t.vpses[v].state != Destroyed;
    if c in t.configs {
      ProviderNames(t.configs[c]);
    }
  }

  /**
   A row is inserted exactly when the agent is the user's own and idle, the plan exists and
   has room, and the config is on the plan and served. Then the outcome is the provider's.
   */
  lemma ProvisionEffect(t: Tables, u: UserId, a: AgentId, c: ConfigId, created: Option<Vm>)
    ensures var r := Request.ProvisionVps(u, a, c, created);
            && (Handle(t, r) != t <==> MayProvision(t, u, a, c))
            && (MayProvision(t, u, a, c) ==> Handle(t, r) == WithVps(t, u, a, c, created))
            && (Issue(t, r).reply == Done <==> MayProvision(t, u, a, c) && created.Some?)
            && (Issue(t, r).reply == Failed(Infra) <==> MayProvision(t, u, a, c) && created.None?)
  {
    hide Apply, ApplyAll, IssueProvision, MayProvision, WithVps, Insertion;
    ApplyNone(t);
    IssuedIff(t, u, a, c, created);
    if MayProvision(t, u, a, c) {
      MayProvisionIdle(t, u, a, c);
      InsertedEffect(t, u, a, c, created);
    }
  }

  lemma MayProvisionIdle(t: Tables, u: UserId, a: AgentId, c: ConfigId)
    requires MayProvision(t, u, a, c)
    ensures Idle(t, u, a)
  {
  }

  /** Which error a refusal carries. */
  lemma ProvisionErrors(t: Tables, u: UserId, a: AgentId, c: ConfigId, created: Option<Vm>)
    ensures var reply := Issue(t, Request.ProvisionVps(u, a, c, created)).reply;
            var offered := Idle(t, u, a) && HasRoom(t, u) && (t.users[u].value, c) in t.planConfigs;
            && (reply == Failed(Conflict) <==> Owned(t, u, a) && t.agents[a].vpsId.Some?)
            && (reply == Failed(LimitExceeded) <==>
                  Idle(t, u, a) && u in t.users && (t.users[u].None? || (Planned(t, u) && !HasRoom(t, u))))
            && (reply == Failed(Internal) <==> offered && c in t.configs && !NamesProvider(t.configs[c]))
            && (reply == Failed(BadRequest) <==>
                  || (Idle(t, u, a) && HasRoom(t, u) && (t.users[u].value, c) !in t.planConfigs)
                  || (offered && c in t.configs && NamesProvider(t.configs[c]) && !Served(t, c)))
            && (reply == Failed(NotFound) <==>
                  || !Owned(t, u, a) || (Idle(t, u, a) && PlanMissing(t, u)) || (offered && c !in t.configs))
  {
    assert LiveVpses(t, u) == set v | v in t.vpses && t.vpses[v].userId == u && t.vpses[v].state != Destroyed;
    if c in t.configs {
      ProviderNames(t.configs[c]);
    }
  }

  // -- Start, stop and destroy ---------------------------------------------------------------

  /** The row is in the wanted state, has a VM and a provider to ask. */
  predicate Ready(t: Tables, v: VpsId, was: VpsState)
    requires v in t.vpses
  {
    t.vpses[v].state == was && t.vpses[v].vmId.Some? && Served(t, t.vpses[v].configId)
  }

  function WithState(t: Tables, v: VpsId, st: VpsState): Tables
    requires v in t.vpses
  {
    t.(vpses := t.vpses[v := t.vpses[v].(state := st)])
  }

  /** What start (from stopped to running) and stop (the other way) do for user u's agent a. */
  ghost predicate Toggles(t: Tables, u: UserId, a: AgentId, was: VpsState, next: VpsState, ok: bool,
                          reply: Reply, t': Tables)
  {
    if !HasVps(t, u, a) then reply == Failed(NotFound) && t' == t
    else
      var v := t.agents[a].vpsId.value;
      var row := t.vpses[v];
      && (reply == Done <==> Ready(t, v, was) && ok)
      && (reply == Failed(Infra) <==> Ready(t, v, was) && !ok)
      && (reply == Failed(Conflict) <==> row.state != was)
      && (reply == Failed(Internal) <==>
            row.state == was && (row.vmId.None? || (row.configId in t.configs && !Served(t, row.configId))))
      && (reply == Failed(NotFound) <==> row.state == was && row.vmId.Some? && row.configId !in t.configs)
      && t' == if reply == Done then WithState(t, v, next) else t
  }

  lemma ToggleEffect(t: Tables, v: VpsId, was: VpsState, next: VpsState, ok: bool, vmFirst: bool)
    requires v in t.vpses
    ensures var s := IssueToggle(t, Some(v), was, next, ok, vmFirst);
            ApplyAll(t, s.statements) == if s.reply == Done then WithState(t, v, next) else t
  {
    ApplyNone(t);
    ApplyOne(t, SetState(v, next));
  }

  lemma StartEffect(t: Tables, u: UserId, a: AgentId, ok: bool)
    ensures var r := Request.StartVps(u, a, ok);
            Toggles(t, u, a, Stopped, Running, ok, Issue(t, r).reply, Handle(t, r))
  {
    if HasVps(t, u, a) {
      var v := t.agents[a].vpsId.value;
      ServedIff(t, t.vpses[v].configId);
      ToggleEffect(t, v, Stopped, Running, ok, true);
    }
  }

  lemma StopEffect(t: Tables, u: UserId, a: AgentId, ok: bool)
    ensures var r := Request.StopVps(u, a, ok);
            Toggles(t, u, a, Running, Stopped, ok, Issue(t, r).reply, Handle(t, r))
  {
    if HasVps(t, u, a) {
      var v := t.agents[a].vpsId.value;
      ServedIff(t, t.vpses[v].configId);
      ToggleEffect(t, v, Running, Stopped, ok, true);
    }
  }

  lemma AdminStopEffect(t: Tables, v: VpsId, ok: bool)
    ensures var r := Request.AdminStopVps(v, ok);
            var reply := Issue(t, r).reply;
            && (v !in t.vpses ==> reply == Failed(NotFound) && Handle(t, r) == t)
            && (v in t.vpses ==>
                  var row := t.vpses[v];
                  && (reply == Done <==> Ready(t, v, Running) && ok)
                  && (reply == Failed(Infra) <==> Ready(t, v, Running) && !ok)
                  && (reply == Failed(Conflict) <==> row.state != Running)
                  && (reply == Failed(NotFound) <==> row.state == Running && row.configId !in t.configs)
                  && (reply == Failed(Internal) <==>
                        && row.state == Running && row.configId in t.configs
                        && (row.vmId.None? || !Served(t, row.configId)))
                  && Handle(t, r) == if reply == Done then WithState(t, v, Stopped) else t)
  {
    if v in t.vpses {
      ServedIff(t, t.vpses[v].configId);
      ToggleEffect(t, v, Running, Stopped, ok, false);
    }
  }

  lemma DestroyEffect(t: Tables, u: UserId, a: AgentId)
    ensures var r := Request.DestroyVps(u, a);
            if !HasVps(t, u, a) then Issue(t, r).reply == Failed(NotFound) && Handle(t, r) == t
            else
              var v := t.agents[a].vpsId.value;
              if t.vpses[v].state == Destroyed then Issue(t, r).reply == Failed(Conflict) && Handle(t, r) == t
              else
                && Issue(t, r).reply == Done
                && Handle(t, r) == WithState(t, v, Destroyed).(agents := t.agents[a := Agent(u, None)])
  {
    ApplyNone(t);
    if HasVps(t, u, a) {
      ApplyTwo(t, SetState(t.agents[a].vpsId.value, Destroyed), AssignVps(a, None));
    }
  }

  // -- Sweeps ------------------------------------------------------------------------------------

  /** The tables once every VPS in vs is destroyed and detached from its owner's agents. */
  function Swept(t: Tables, vs: set<VpsId>): Tables {
    t.(vpses := SweptRows(t.vpses, vs), agents := SweptAgents(t, vs))
  }

  function SweptRows(vpses: map<VpsId, Vps>, vs: set<VpsId>): map<VpsId, Vps> {
    map v | v in vpses :: if v in vs then vpses[v].(state := Destroyed) else vpses[v]
  }

  /** a is attached to a VPS in vs of its own user. */
  predicate LetsGo(t: Tables, a: AgentId, vs: set<VpsId>)
    requires a in t.agents
  {
    var held := t.agents[a].vpsId;
    held.Some? && held.value in vs && held.value in t.vpses && t.vpses[held.value].userId == t.agents[a].userId
  }

  function SweptAgents(t: Tables, vs: set<VpsId>): map<AgentId, Agent> {
    map a | a in t.agents :: if LetsGo(t, a, vs) then t.agents[a].(vpsId := None) else t.agents[a]
  }

  /** The agents once those listed have let go of v. */
  function DetachedFrom(agents: map<AgentId, Agent>, v: VpsId, listed: seq<AgentId>): map<AgentId, Agent> {
    map a | a in agents ::
      if a in listed && agents[a].vpsId == Some(v) then agents[a].(vpsId := None) else agents[a]
  }

  lemma {:induction false} DetachEffect(t: Tables, v: VpsId, listed: seq<AgentId>)
    requires forall a :: a in listed ==> a in t.agents
    ensures ApplyAll(t, Detach(t, v, listed)) == t.(agents := DetachedFrom(t.agents, v, listed))
    decreases |listed|
  {
    hide DetachedFrom;
    if listed == [] {
      DetachedNone(t.agents, v);
    } else {
      var init, last := listed[..|listed| - 1], listed[|listed| - 1];
      DetachEffect(t, v, init);
      DetachedMore(t.agents, v, listed);
      if t.agents[last].vpsId == Some(v) {
        ApplyAllConcat(t, Detach(t, v, init), [AssignVps(last, None)]);
        ApplyOne(ApplyAll(t, Detach(t, v, init)), AssignVps(last, None));
      } else {
        assert Detach(t, v, listed) == Detach(t, v, init);
      }
    }
  }

  lemma DetachedNone(agents: map<AgentId, Agent>, v: VpsId)
    ensures DetachedFrom(agents, v, []) == agents
  {
  }

  lemma DetachedMore(agents: map<AgentId, Agent>, v: VpsId, listed: seq<AgentId>)
    requires listed != [] && listed[|listed| - 1] in agents
    ensures var last, before := listed[|listed| - 1], DetachedFrom(agents, v, listed[..|listed| - 1]);
            && last in before
            && DetachedFrom(agents, v, listed) == if agents[last].vpsId == Some(v)
                                                  then before[last := before[last].(vpsId := None)] else before
  {
    assert listed == listed[..|listed| - 1] + [listed[|listed| - 1]];
  }

  lemma RetireSweeps(t: Tables, v: VpsId)
    requires IdsIssued(t) && v in t.vpses
    ensures ApplyAll(t, Retire(t, v)) == Swept(t, {v})
  {
    hide Detach, DetachedFrom, SweptAgents, SweptRows;
    var listed := ListAgents(t, t.vpses[v].userId, t.nextAgent);
    var t1 := Apply(t, SetState(v, Destroyed));
    SameDetach(t, t1, v, listed);
    ApplyAllConcat(t, [SetState(v, Destroyed)], Detach(t, v, listed));
    ApplyOne(t, SetState(v, Destroyed));
    DetachEffect(t1, v, listed);
    OneSwept(t, v, listed);
  }

  lemma OneSwept(t: Tables, v: VpsId, listed: seq<AgentId>)
    requires IdsIssued(t) && v in t.vpses && listed == ListAgents(t, t.vpses[v].userId, t.nextAgent)
    ensures DetachedFrom(t.agents, v, listed) == SweptAgents(t, {v})
    ensures t.vpses[v := t.vpses[v].(state := Destroyed)] == SweptRows(t.vpses, {v})
  {
    forall a | a in t.agents ensures a in listed <==> t.agents[a].userId == t.vpses[v].userId {
      assert a < t.nextAgent;
    }
  }

  lemma SweptTogether(t: Tables, v: VpsId, vs: set<VpsId>)
    ensures Swept(Swept(t, {v}), vs) == Swept(t, {v} + vs)
  {
    RowsSweptTogether(t.vpses, v, vs);
    AgentsSweptTogether(t, v, vs);
  }

  lemma RowsSweptTogether(vpses: map<VpsId, Vps>, v: VpsId, vs: set<VpsId>)
    ensures SweptRows(SweptRows(vpses, {v}), vs) == SweptRows(vpses, {v} + vs)
  {
  }

  lemma AgentsSweptTogether(t: Tables, v: VpsId, vs: set<VpsId>)
    ensures SweptAgents(Swept(t, {v}), vs) == SweptAgents(t, {v} + vs)
  {
    var t1 := Swept(t, {v});
    forall a | a in t.agents ensures SweptAgents(t1, vs)[a] == SweptAgents(t, {v} + vs)[a] {
      assert t1.agents[a] == if LetsGo(t, a, {v}) then t.agents[a].(vpsId := None) else t.agents[a];
    }
  }

  function Members(vs: seq<VpsId>): set<VpsId> {
    set v | v in vs
  }

  lemma {:induction false} SweepEffect(t: Tables, stuck: seq<VpsId>)
    requires IdsIssued(t) && forall v :: v in stuck ==> v in t.vpses
    ensures ApplyAll(t, RetireEach(t, stuck)) == Swept(t, Members(stuck))
    decreases |stuck|
  {
    hide Retire, Swept;
    if stuck == [] {
      NoneSwept(t);
    } else {
      var v, rest := stuck[0], stuck[1..];
      var t1 := ApplyAll(t, Retire(t, v));
      RetireSweeps(t, v);
      SweptIds(t, v);
      SweepEffect(t1, rest);
      ApplyAllConcat(t, Retire(t, v), RetireEach(t1, rest));
      SweptTogether(t, v, Members(rest));
      assert stuck == [v] + rest;
      assert Members(stuck) == {v} + Members(rest);
    }
  }

  lemma SweptIds(t: Tables, v: VpsId)
    requires IdsIssued(t)
    ensures IdsIssued(Swept(t, {v})) && Swept(t, {v}).vpses.Keys == t.vpses.Keys
  {
  }

  lemma NoneSwept(t: Tables)
    ensures Swept(t, Members([])) == t
  {
    assert Members([]) == {};
  }

  lemma AdminDestroyEffect(t: Tables, v: VpsId)
    requires IdsIssued(t)
    ensures var r := Request.AdminDestroyVps(v);
            && Issue(t, r).reply == (if v !in t.vpses then Failed(NotFound)
                                     else if t.vpses[v].state == Destroyed then Failed(Conflict) else Done)
            && Handle(t, r) == if Issue(t, r).reply == Done then Swept(t, {v}) else t
  {
    hide Retire, Swept;
    ApplyNone(t);
    if v in t.vpses {
      RetireSweeps(t, v);
    }
  }

  function Stuck(t: Tables): set<VpsId> {
    set v | v in t.vpses && t.vpses[v].state == Provisioning
  }

  lemma CleanupEffect(t: Tables)
    requires IdsIssued(t)
    ensures Issue(t, CleanupStuck).reply == Done
    ensures Handle(t, CleanupStuck) == Swept(t, Stuck(t))
  {
    hide RetireEach, Swept;
    var stuck := ListByState(t, Provisioning, t.nextVps);
    SweepEffect(t, stuck);
    assert Members(stuck) == Stuck(t);
  }

  // -- Users ---------------------------------------------------------------------------------------

  lemma SetUserStatusEffect(t: Tables, u: UserId, status: UserStatus)
    ensures var r := Request.SetUserStatus(u, status);
            && Issue(t, r).reply == (if u in t.users then Done else Failed(NotFound))
            && Handle(t, r) == if u !in t.users then t
                               else t.(statuses := t.statuses[u := status],
                                       users := if status == Active && t.users[u].None? && t.demoPlan.Some?
                                                then t.users[u := t.demoPlan] else t.users)
  {
    ApplyNone(t);
    if u in t.users {
      var demo := AssignDemo(t, u, status);
      ApplyAllConcat(t, demo, [SetStatus(u, status)]);
      ApplyOne(t, SetPlan(u, t.demoPlan));
      ApplyOne(ApplyAll(t, demo), SetStatus(u, status));
    }
  }

  // -- Whose ------------------------------------------------------------------------------------------

  /** The user and the agent a user's request is about. */
  function About(r: Request): Option<(UserId, AgentId)> {
    match r
    case DeleteAgent(u, a) => Some((u, a))
    case ProvisionVps(u, a, _, _) => Some((u, a))
    case StartVps(u, a, _) => Some((u, a))
    case StopVps(u, a, _) => Some((u, a))
    case DestroyVps(u, a) => Some((u, a))
    case _ => None
  }

  /** A request about an agent that is not the user's is answered not found and changes nothing. */
  lemma OwnersOnly(t: Tables, r: Request)
    requires About(r).Some? && !Owned(t, About(r).value.0, About(r).value.1)
    ensures Issue(t, r).reply == Failed(NotFound) && Handle(t, r) == t
  {
    match r {
      case DeleteAgent(u, a) => DeleteAgentEffect(t, u, a);
      case ProvisionVps(u, a, c, created) =>
        ProvisionErrors(t, u, a, c, created);
        ProvisionEffect(t, u, a, c, created);
      case StartVps(u, a, ok) => StartEffect(t, u, a, ok);
      case StopVps(u, a, ok) => StopEffect(t, u, a, ok);
      case DestroyVps(u, a) => DestroyEffect(t, u, a);
    }
  }
}
