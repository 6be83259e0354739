/**
 The other half of the fit between the two models: a handler that is left alone and runs
 to its end has done what Handle says, for some outcome of the provider call.
 */
module Alone {
  import opened Prelude
  import opened Store
  import opened Handlers
  import opened Interleaving
  import opened Embedding

  /** Handler 0 takes its steps, with whatever answers. */
  ghost predicate OwnSteps(ls: seq<Label>) {
    forall l :: l in ls ==> l.Advance? && l.id == 0
  }

  /** The handler runs from its place in h to its end, leaving these tables. */
  ghost predicate RunsTo(t: Tables, h: Handler, ls: seq<Label>, e: Tables) {
    OwnSteps(ls) && Final(Solo(t, h), ls) == Idle(e)
  }

  lemma {:induction false} IdleStays(t: Tables, ls: seq<Label>)
    requires OwnSteps(ls)
    ensures Final(Idle(t), ls) == Idle(t)
    decreases |ls|
  {
    if ls != [] {
      assert ls[0] in ls && forall l :: l in ls[1..] ==> l in ls;
      IdleStays(t, ls[1..]);
    }
  }

  lemma Unfold(t: Tables, h: Handler, ls: seq<Label>, e: Tables)
    requires RunsTo(t, h, ls, e)
    ensures ls != [] && ls[0].Advance?
    ensures var (t', rest) := Step(t, h, ls[0].answer);
            (rest.None? ==> e == t') && (rest.Some? ==> RunsTo(t', rest.value, ls[1..], e))
  {
    hide Step;
    assert Final(Solo(t, h), []) == Solo(t, h) != Idle(e) by {
      assert 0 in Solo(t, h).hs;
    }
    var (t', rest) := Step(t, h, ls[0].answer);
    assert ls[0] in ls && forall l :: l in ls[1..] ==> l in ls;
    assert Solo(t, h).hs - {0} == map[];
    if rest.None? {
      IdleStays(t', ls[1..]);
    } else {
      assert Solo(t, h).hs[0 := rest.value] == map[0 := rest.value];
    }
  }

  lemma {:induction false} WritesEnd(t: Tables, pending: seq<Statement>, ls: seq<Label>, e: Tables)
    requires RunsTo(t, Writing(pending), ls, e)
    ensures e == ApplyAll(t, pending)
    decreases |ls|
  {
    hide RunsTo, Apply;
    Unfold(t, Writing(pending), ls, e);
    if pending != [] {
      WritesEnd(Apply(t, pending[0]), pending[1..], ls[1..], e);
    }
  }

  lemma {:induction false} DetachesEnd(t: Tables, holders: seq<AgentId>, todo: seq<VpsId>, ls: seq<Label>, e: Tables)
    returns (rest: seq<Label>)
    requires RunsTo(t, SweepDetach(holders, todo), ls, e)
    ensures RunsTo(ApplyAll(t, Unassign(holders)), Sweep(todo), rest, e) && |rest| < |ls|
    decreases |ls|
  {
    hide RunsTo, Apply;
    Unfold(t, SweepDetach(holders, todo), ls, e);
    if holders == [] {
      rest := ls[1..];
    } else {
      assert Unassign(holders)[1..] == Unassign(holders[1..]);
      rest := DetachesEnd(Apply(t, AssignVps(holders[0], None)), holders[1..], todo, ls[1..], e);
    }
  }

  lemma FirstEnds(t: Tables, todo: seq<VpsId>, ls: seq<Label>, e: Tables) returns (rest: seq<Label>)
    requires todo != [] && todo[0] in t.vpses && RunsTo(t, Sweep(todo), ls, e)
    ensures RunsTo(ApplyAll(t, Retire(t, todo[0])), Sweep(todo[1..]), rest, e) && |rest| < |ls|
  {
    hide RunsTo, Apply, HoldersOf, ListAgents, Retire, Unassign;
    var v := todo[0];
    var u := t.vpses[v].userId;
    var t1 := Apply(t, SetState(v, Destroyed));
    Unfold(t, Sweep(todo), ls, e);
    Unfold(t1, SweepList(v, u, todo[1..]), ls[1..], e);
    rest := DetachesEnd(t1, HoldersOf(t1, v, ListAgents(t1, u, t1.nextAgent)), todo[1..], ls[1..][1..], e);
    RetireIsUnassign(t, v);
  }

  lemma {:induction false} SweepsEnd(t: Tables, todo: seq<VpsId>, ls: seq<Label>, e: Tables)
    requires (forall v :: v in todo ==> v in t.vpses) && RunsTo(t, Sweep(todo), ls, e)
    ensures e == ApplyAll(t, RetireEach(t, todo))
    decreases |ls|
  {
    hide RunsTo, Retire;
    if todo == [] {
      Unfold(t, Sweep(todo), ls, e);
    } else {
      var t1 := ApplyAll(t, Retire(t, todo[0]));
      RetireKeepsRows(t, todo[0]);
      var rest := FirstEnds(t, todo, ls, e);
      SweepsEnd(t1, todo[1..], rest, e);
      ApplyAllConcat(t, Retire(t, todo[0]), RetireEach(t1, todo[1..]));
    }
  }

  // -- Each request ------------------------------------------------------------------------

  /** The same call, but for what the provider answers. */
  predicate SameCall(r: Request, r': Request) {
    match r
    case ProvisionVps(u, a, c, _) => r'.ProvisionVps? && r'.user == u && r'.agent == a && r'.config == c
    case StartVps(u, a, _) => r'.StartVps? && r'.user == u && r'.agent == a
    case StopVps(u, a, _) => r'.StopVps? && r'.user == u && r'.agent == a
    case AdminStopVps(v, _) => r'.AdminStopVps? && r'.vps == v
    case _ => r' == r
  }

  lemma CreateAgentEnds(t: Tables, u: UserId, ls: seq<Label>, e: Tables)
    requires RunsTo(t, CreateLoadPlan(u), ls, e)
    ensures e == Handle(t, Request.CreateAgent(u))
  {
    hide RunsTo, Apply;
    ApplyOne(t, InsertAgent(u));
    Unfold(t, CreateLoadPlan(u), ls, e);
    if HasPlan(t, u) {
      var limit := t.plans[t.users[u].value].maxAgents;
      Unfold(t, CreateCount(u, limit), ls[1..], e);
      if |AgentsOf(t, u)| < limit {
        Unfold(t, CreateInsert(u), ls[1..][1..], e);
      }
    }
  }

  /** The provider answers, and the row follows. */
  lemma CreatedEnds(t: Tables, u: UserId, v: VpsId, ls: seq<Label>, e: Tables) returns (created: Option<Vm>)
    requires RunsTo(t, ProvisionCreate(u, v), ls, e)
    ensures e == match created
                 case None => t
                 case Some(vm) => Apply(Apply(t, SetRefs(v, Some(vm.id), vm.address)), SetState(v, Running))
  {
    hide RunsTo, Apply;
    Unfold(t, ProvisionCreate(u, v), ls, e);
    var x := ls[0].answer;
    if x.ok {
      created := Some(Vm(x.vmId, x.address));
      Unfold(t, ProvisionRefs(u, v, x.vmId, x.address), ls[1..], e);
      Unfold(Apply(t, SetRefs(v, Some(x.vmId), x.address)), ProvisionFinish(u, v), ls[1..][1..], e);
    } else {
      created := None;
    }
  }

  lemma InsertedEnds(t: Tables, u: UserId, a: AgentId, c: ConfigId, ls: seq<Label>, e: Tables)
    returns (created: Option<Vm>)
    requires RunsTo(t, ProvisionInsert(u, a, c), ls, e)
    requires forall vm :: IssueProvision(t, u, a, c, vm).statements != []
    ensures e == ApplyAll(t, IssueProvision(t, u, a, c, created).statements)
  {
    hide RunsTo, Apply, IssueProvision;
    var v := t.nextVps;
    var t1 := Apply(t, InsertVps(u, c, a));
    var t2 := Apply(t1, AssignVps(a, Some(v)));
    Unfold(t, ProvisionInsert(u, a, c), ls, e);
    Unfold(t1, ProvisionAssign(u, a, v), ls[1..], e);
    created := CreatedEnds(t2, u, v, ls[1..][1..], e);
    ProvisionScript(t, u, a, c, created);
    var head := [InsertVps(u, c, a), AssignVps(a, Some(v))];
    ApplyTwo(t, head[0], head[1]);
    match created {
      case None => assert head + [] == head;
      case Some(vm) =>
        var tail := [SetRefs(v, Some(vm.id), vm.address), SetState(v, Running)];
        ApplyAllConcat(t, head, tail);
        ApplyTwo(t2, tail[0], tail[1]);
    }
  }

  lemma ProvisionEnds(t: Tables, u: UserId, a: AgentId, c: ConfigId, ls: seq<Label>, e: Tables)
    returns (created: Option<Vm>)
    requires RunsTo(t, ProvisionLoadAgent(u, a, c), ls, e)
    ensures e == Handle(t, Request.ProvisionVps(u, a, c, created))
  {
    hide RunsTo, Apply, LiveVpses;
    created := None;
    Unfold(t, ProvisionLoadAgent(u, a, c), ls, e);
    if a in t.agents && t.agents[a].userId == u && t.agents[a].vpsId.None? {
      Unfold(t, ProvisionLoadPlan(u, a, c), ls[1..], e);
      if HasPlan(t, u) {
        var limit := t.plans[t.users[u].value].maxVpses;
        Unfold(t, ProvisionCount(u, a, c, limit), ls[1..][1..], e);
        if |LiveVpses(t, u)| < limit && Offered(t, u, c) {
          created := InsertedEnds(t, u, a, c, ls[1..][1..][1..], e);
        }
      }
    }
  }

  /** From the loaded agent to the end; ok is the provider's answer. */
  lemma FoundEnds(t: Tables, owner: Option<UserId>, a: AgentId, goal: Goal, ls: seq<Label>, e: Tables)
    returns (ok: bool)
    requires RunsTo(t, FindAgent(owner, a, goal), ls, e)
    ensures e == if a !in t.agents || (owner.Some? && t.agents[a].userId != owner.value) then t
                 else if t.agents[a].vpsId.None?
                 then (if goal == ToDelete then Apply(t, Statement.DeleteAgent(a)) else t)
                 else if !ok && (goal == ToStart || goal == ToStop) then t
                 else match AfterFind(t, a, t.agents[a].vpsId.value, goal)
                   case None => t
                   case Some(h) => ApplyAll(t, h.pending)
  {
    hide RunsTo, Apply, CanAsk;
    ok := false;
    Unfold(t, FindAgent(owner, a, goal), ls, e);
    ApplyOne(t, Statement.DeleteAgent(a));
    if a in t.agents && (owner.None? || t.agents[a].userId == owner.value) {
      if t.agents[a].vpsId.Some? {
        var v := t.agents[a].vpsId.value;
        Unfold(t, FindVps(a, v, goal), ls[1..], e);
        ok := ls[1..][0].answer.ok;
        var rest := AfterFind(t, a, v, goal);
        if rest.Some? && (ok || goal == ToDestroy || goal == ToDelete) {
          WritesEnd(t, rest.value.pending, ls[1..][1..], e);
        }
      } else if goal == ToDelete {
        WritesEnd(t, [Statement.DeleteAgent(a)], ls[1..], e);
      }
    }
  }

  lemma DeleteEnds(t: Tables, owner: Option<UserId>, a: AgentId, ls: seq<Label>, e: Tables)
    requires RunsTo(t, FindAgent(owner, a, ToDelete), ls, e)
    ensures e == if a in t.agents && (owner.Some? ==> t.agents[a].userId == owner.value)
                 then ApplyAll(t, RetireAttached(t, t.agents[a].vpsId) + [Statement.DeleteAgent(a)]) else t
  {
    hide RunsTo, Apply;
    var _ := FoundEnds(t, owner, a, ToDelete, ls, e);
    var del := Statement.DeleteAgent(a);
    ApplyOne(t, del);
    assert [] + [del] == [del];
    if a in t.agents && t.agents[a].vpsId.Some? {
      var v := t.agents[a].vpsId.value;
      assert [SetState(v, Destroyed)] + [del] == [SetState(v, Destroyed), del];
    }
  }

  lemma AdminStopEnds(t: Tables, v: VpsId, ls: seq<Label>, e: Tables) returns (ok: bool)
    requires RunsTo(t, AdminStop(v), ls, e)
    ensures e == Handle(t, Request.AdminStopVps(v, ok))
  {
    hide RunsTo, Apply;
    Unfold(t, AdminStop(v), ls, e);
    ok := ls[0].answer.ok;
    if CanAsk(t, v, Running) && ok {
      WritesEnd(t, [SetState(v, Stopped)], ls[1..], e);
    }
  }

  lemma AdminDestroyEnds(t: Tables, v: VpsId, ls: seq<Label>, e: Tables)
    requires RunsTo(t, AdminDestroy(v), ls, e)
    ensures e == Handle(t, Request.AdminDestroyVps(v))
  {
    hide RunsTo, Retire, Apply;
    Unfold(t, AdminDestroy(v), ls, e);
    if v in t.vpses && t.vpses[v].state != Destroyed {
      SweepsEnd(t, [v], ls[1..], e);
      assert [v][1..] == [];
      assert RetireEach(t, [v]) == Retire(t, v) + [] == Retire(t, v);
    }
  }

  lemma SetStatusEnds(t: Tables, u: UserId, status: UserStatus, ls: seq<Label>, e: Tables)
    requires RunsTo(t, SetsStatus(u, status), ls, e)
    ensures e == Handle(t, Request.SetUserStatus(u, status))
  {
    hide RunsTo, Apply;
    Unfold(t, SetsStatus(u, status), ls, e);
    if u in t.users {
      var demo := AssignDemo(t, u, status);
      assert demo + [SetStatus(u, status)] == if demo == [] then [SetStatus(u, status)]
                                              else [SetPlan(u, t.demoPlan), SetStatus(u, status)];
      WritesEnd(t, demo + [SetStatus(u, status)], ls[1..], e);
    }
  }

  /** Left alone and run to its end, a request's handler does what Handle says of the same call. */
  lemma AloneIsHandled(t: Tables, r: Request, ls: seq<Label>, e: Tables) returns (r': Request)
    requires RunsTo(t, Starter(r), ls, e)
    ensures SameCall(r, r') && e == Handle(t, r')
  {
    hide RunsTo, Apply, RetireEach;
    r' := r;
    match r {
      case CreateAgent(u) => CreateAgentEnds(t, u, ls, e);
      case DeleteAgent(u, a) => DeleteEnds(t, Some(u), a, ls, e);
      case ProvisionVps(u, a, c, _) =>
        var created := ProvisionEnds(t, u, a, c, ls, e);
        r' := Request.ProvisionVps(u, a, c, created);
      case StartVps(u, a, _) => r' := ToggleEnds(t, r, u, a, ToStart, ls, e);
      case StopVps(u, a, _) => r' := ToggleEnds(t, r, u, a, ToStop, ls, e);
      case DestroyVps(u, a) => r' := ToggleEnds(t, r, u, a, ToDestroy, ls, e);
      case AdminStopVps(v, _) =>
        var ok := AdminStopEnds(t, v, ls, e);
        r' := Request.AdminStopVps(v, ok);
      case AdminDestroyVps(v) => AdminDestroyEnds(t, v, ls, e);
      case AdminDeleteAgent(a) => DeleteEnds(t, None, a, ls, e);
      case CleanupStuck =>
        Unfold(t, Cleanup, ls, e);
        SweepsEnd(t, ListByState(t, Provisioning, t.nextVps), ls[1..], e);
      case SetUserStatus(u, status) => SetStatusEnds(t, u, status, ls, e);
    }
  }

  lemma ToggleEnds(t: Tables, r: Request, u: UserId, a: AgentId, goal: Goal, ls: seq<Label>, e: Tables)
    returns (r': Request)
    requires match r
      case StartVps(w, b, _) => w == u && b == a && goal == ToStart
      case StopVps(w, b, _) => w == u && b == a && goal == ToStop
      case DestroyVps(w, b) => w == u && b == a && goal == ToDestroy
      case _ => false
    requires RunsTo(t, FindAgent(Some(u), a, goal), ls, e)
    ensures SameCall(r, r') && e == Handle(t, r')
  {
    hide RunsTo, Apply;
    var ok := FoundEnds(t, Some(u), a, goal, ls, e);
    r' := match r
      case StartVps(_, _, _) => Request.StartVps(u, a, ok)
      case StopVps(_, _, _) => Request.StopVps(u, a, ok)
      case _ => r;
  }

  /** Beside whatever is in flight any request may begin, and any handler may stop for good, changing no table. */
  lemma ComesAndGoes(s: Sys, id: nat, r: Request)
    ensures id !in s.hs ==> Next(s, Begin(id, Starter(r))) == Sys(s.t, s.hs[id := Starter(r)])
    ensures Next(s, Abandon(id)) == Sys(s.t, s.hs - {id})
  {
  }
}
