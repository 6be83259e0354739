/**
 The two models of the handlers fit together: what a handler does alone is one of the
 interleavings, so every run of handlers one at a time is a run of the interleaved system.
 */
module Embedding {
  import opened Prelude
  import opened Store
  import opened Handlers
  import opened Interleaving

  function Final(s: Sys, ls: seq<Label>): Sys
    decreases |ls|
  {
    if ls == [] then s else Final(Next(s, ls[0]), ls[1..])
  }

  lemma {:induction false} FinalConcat(s: Sys, a: seq<Label>, b: seq<Label>)
    ensures Final(s, a + b) == Final(Final(s, a), b)
    decreases |a|
  {
    if a == [] {
      assert a + b == b;
    } else {
      assert (a + b)[1..] == a[1..] + b;
      FinalConcat(Next(s, a[0]), a[1..], b);
    }
  }

  lemma {:induction false} TraceEnds(s: Sys, ls: seq<Label>)
    ensures Trace(s, ls)[|ls|] == Final(s, ls)
    decreases |ls|
  {
    if ls != [] {
      TraceEnds(Next(s, ls[0]), ls[1..]);
    }
  }

  /** No handler is begun. */
  ghost predicate NoneBegun(ls: seq<Label>) {
    forall l :: l in ls ==> !l.Begin?
  }

  /** The handlers in flight lead from s to e, without another being begun. */
  ghost predicate Yields(s: Sys, e: Sys) {
    exists ls :: NoneBegun(ls) && Final(s, ls) == e
  }

  lemma YieldsSelf(s: Sys)
    ensures Yields(s, s)
  {
    assert NoneBegun([]) && Final(s, []) == s;
  }

  lemma YieldsNext(s: Sys, l: Label)
    requires !l.Begin?
    ensures Yields(s, Next(s, l))
  {
    assert [l][1..] == [];
    assert NoneBegun([l]) && Final(s, [l]) == Next(s, l);
  }

  lemma YieldsThen(s: Sys, m: Sys, e: Sys)
    requires Yields(s, m) && Yields(m, e)
    ensures Yields(s, e)
  {
    var a :| NoneBegun(a) && Final(s, a) == m;
    var b :| NoneBegun(b) && Final(m, b) == e;
    FinalConcat(s, a, b);
    assert NoneBegun(a + b) && Final(s, a + b) == e;
  }

  // -- One handler on its own ----------------------------------------------------------

  function Idle(t: Tables): Sys {
    Sys(t, map[])
  }

  function Solo(t: Tables, h: Handler): Sys {
    Sys(t, map[0 := h])
  }

  function After(t: Tables, rest: Option<Handler>): Sys {
    match rest
    case None => Idle(t)
    case Some(h) => Solo(t, h)
  }

  lemma Moves(t: Tables, h: Handler, x: Answer)
    ensures Yields(Solo(t, h), After(Step(t, h, x).0, Step(t, h, x).1))
  {
    hide Step;
    var s := Solo(t, h);
    YieldsNext(s, Advance(0, x));
    var (t', rest) := Step(t, h, x);
    assert s.hs - {0} == map[];
    if rest.Some? {
      assert s.hs[0 := rest.value] == map[0 := rest.value];
    }
  }

  lemma Drops(t: Tables, h: Handler)
    ensures Yields(Solo(t, h), Idle(t))
  {
    YieldsNext(Solo(t, h), Abandon(0));
    assert map[0 := h] - {0} == map[];
  }

  /** Step h, then do as before. */
  lemma MovesThen(t: Tables, h: Handler, x: Answer, e: Sys)
    requires Yields(After(Step(t, h, x).0, Step(t, h, x).1), e)
    ensures Yields(Solo(t, h), e)
  {
    hide Step, Yields;
    Moves(t, h, x);
    YieldsThen(Solo(t, h), After(Step(t, h, x).0, Step(t, h, x).1), e);
  }

  const YES := Answer(true, "", None, [])

  lemma {:induction false} WritesOut(t: Tables, pending: seq<Statement>)
    ensures Yields(Solo(t, Writing(pending)), Idle(ApplyAll(t, pending)))
    decreases |pending|
  {
    hide Yields;
    if pending == [] {
      Moves(t, Writing(pending), YES);
    } else {
      WritesOut(Apply(t, pending[0]), pending[1..]);
      MovesThen(t, Writing(pending), YES, Idle(ApplyAll(t, pending)));
    }
  }

  // -- The sweeps --------------------------------------------------------------------------

  function Unassign(holders: seq<AgentId>): seq<Statement> {
    seq(|holders|, i requires 0 <= i < |holders| => AssignVps(holders[i], None))
  }

  lemma {:induction false} HoldersConcat(t: Tables, v: VpsId, a: seq<AgentId>, b: seq<AgentId>)
    requires forall x :: x in a + b ==> x in t.agents
    requires (forall x :: x in a ==> x in t.agents) && (forall x :: x in b ==> x in t.agents)
    ensures HoldersOf(t, v, a + b) == HoldersOf(t, v, a) + HoldersOf(t, v, b)
    decreases |a|
  {
    if a == [] {
      assert a + b == b;
    } else {
      assert (a + b)[1..] == a[1..] + b;
      HoldersConcat(t, v, a[1..], b);
    }
  }

  /** Detaching the listed agents is unassigning those that hold the VPS. */
  lemma {:induction false} DetachIsUnassign(t: Tables, v: VpsId, listed: seq<AgentId>)
    requires forall a :: a in listed ==> a in t.agents
    ensures Detach(t, v, listed) == Unassign(HoldersOf(t, v, listed))
    decreases |listed|
  {
    if listed != [] {
      var init, last := listed[..|listed| - 1], listed[|listed| - 1];
      assert listed == init + [last];
      DetachIsUnassign(t, v, init);
      HoldersConcat(t, v, init, [last]);
      assert [last][1..] == [];
    }
  }

  lemma {:induction false} DetachesAll(t: Tables, holders: seq<AgentId>, todo: seq<VpsId>)
    ensures Yields(Solo(t, SweepDetach(holders, todo)), Solo(ApplyAll(t, Unassign(holders)), Sweep(todo)))
    decreases |holders|
  {
    hide Yields, Apply;
    var e := Solo(ApplyAll(t, Unassign(holders)), Sweep(todo));
    if holders == [] {
      Moves(t, SweepDetach(holders, todo), YES);
    } else {
      var t1 := Apply(t, AssignVps(holders[0], None));
      assert Unassign(holders)[1..] == Unassign(holders[1..]);
      DetachesAll(t1, holders[1..], todo);
      MovesThen(t, SweepDetach(holders, todo), YES, e);
    }
  }

  /** Retiring is destroying, then unassigning the holders found among the owner's agents. */
  lemma RetireIsUnassign(t: Tables, v: VpsId)
    requires v in t.vpses
    ensures var t1 := Apply(t, SetState(v, Destroyed));
            ApplyAll(t, Retire(t, v))
            == ApplyAll(t1, Unassign(HoldersOf(t1, v, ListAgents(t1, t.vpses[v].userId, t1.nextAgent))))
  {
    hide Apply, Detach, HoldersOf;
    var u := t.vpses[v].userId;
    var t1 := Apply(t, SetState(v, Destroyed));
    var listed := ListAgents(t, u, t.nextAgent);
    SameAgents(t, v);
    SameListing(t, t1, u, t.nextAgent);
    SameDetach(t, t1, v, listed);
    DetachIsUnassign(t1, v, listed);
    ApplyAllConcat(t, [SetState(v, Destroyed)], Detach(t, v, listed));
    ApplyOne(t, SetState(v, Destroyed));
  }

  lemma SweepsFirst(t: Tables, todo: seq<VpsId>)
    requires todo != [] && todo[0] in t.vpses
    ensures Yields(Solo(t, Sweep(todo)), Solo(ApplyAll(t, Retire(t, todo[0])), Sweep(todo[1..])))
  {
    hide Yields, Apply, Detach, HoldersOf, ListAgents, Retire, Unassign;
    var v := todo[0];
    var u := t.vpses[v].userId;
    var t1 := Apply(t, SetState(v, Destroyed));
    RetireIsUnassign(t, v);
    var holders := HoldersOf(t1, v, ListAgents(t1, u, t1.nextAgent));
    var e := Solo(ApplyAll(t1, Unassign(holders)), Sweep(todo[1..]));
    DetachesAll(t1, holders, todo[1..]);
    MovesThen(t1, SweepList(v, u, todo[1..]), YES, e);
    MovesThen(t, Sweep(todo), YES, e);
  }

  lemma SameAgents(t: Tables, v: VpsId)
    ensures Apply(t, SetState(v, Destroyed)).agents == t.agents
    ensures Apply(t, SetState(v, Destroyed)).nextAgent == t.nextAgent
  {
  }

  lemma {:induction false} DetachKeepsRows(t: Tables, v: VpsId, listed: seq<AgentId>)
    requires forall a :: a in listed ==> a in t.agents
    ensures forall t1 :: ApplyAll(t1, Detach(t, v, listed)).vpses == t1.vpses
    decreases |listed|
  {
    if listed != [] {
      var init, last := listed[..|listed| - 1], listed[|listed| - 1];
      DetachKeepsRows(t, v, init);
      var tail := if t.agents[last].vpsId == Some(v) then [AssignVps(last, None)] else [];
      forall t1: Tables ensures ApplyAll(t1, Detach(t, v, listed)).vpses == t1.vpses {
        ApplyAllConcat(t1, Detach(t, v, init), tail);
        ApplyOne(ApplyAll(t1, Detach(t, v, init)), AssignVps(last, None));
      }
    }
  }

  lemma RetireKeepsRows(t: Tables, v: VpsId)
    ensures ApplyAll(t, Retire(t, v)).vpses.Keys == t.vpses.Keys
  {
    if v in t.vpses {
      var listed := ListAgents(t, t.vpses[v].userId, t.nextAgent);
      DetachKeepsRows(t, v, listed);
      ApplyAllConcat(t, [SetState(v, Destroyed)], Detach(t, v, listed));
      ApplyOne(t, SetState(v, Destroyed));
    }
  }

  lemma {:induction false} SweepsOut(t: Tables, todo: seq<VpsId>)
    requires forall v :: v in todo ==> v in t.vpses
    ensures Yields(Solo(t, Sweep(todo)), Idle(ApplyAll(t, RetireEach(t, todo))))
    decreases |todo|
  {
    hide Yields, Retire;
    var e := Idle(ApplyAll(t, RetireEach(t, todo)));
    if todo == [] {
      Moves(t, Sweep(todo), YES);
    } else {
      var t1 := ApplyAll(t, Retire(t, todo[0]));
      RetireKeepsRows(t, todo[0]);
      SweepsOut(t1, todo[1..]);
      ApplyAllConcat(t, Retire(t, todo[0]), RetireEach(t1, todo[1..]));
      SweepsFirst(t, todo);
      YieldsThen(Solo(t, Sweep(todo)), Solo(t1, Sweep(todo[1..])), e);
    }
  }

  // -- Each request --------------------------------------------------------------------------

  /** The first handler of a request. */
  function Starter(r: Request): (h: Handler)
    ensures IsFirst(h)
  {
    match r
    case CreateAgent(u) => CreateLoadPlan(u)
    case DeleteAgent(u, a) => FindAgent(Some(u), a, ToDelete)
    case ProvisionVps(u, a, c, _) => ProvisionLoadAgent(u, a, c)
    case StartVps(u, a, _) => FindAgent(Some(u), a, ToStart)
    case StopVps(u, a, _) => FindAgent(Some(u), a, ToStop)
    case DestroyVps(u, a) => FindAgent(Some(u), a, ToDestroy)
    case AdminStopVps(v, _) => AdminStop(v)
    case AdminDestroyVps(v) => AdminDestroy(v)
    case AdminDeleteAgent(a) => FindAgent(None, a, ToDelete)
    case CleanupStuck => Cleanup
    case SetUserStatus(u, status) => SetsStatus(u, status)
  }

  lemma CreateAgentAlone(t: Tables, u: UserId)
    ensures Yields(Solo(t, CreateLoadPlan(u)), Idle(Handle(t, Request.CreateAgent(u))))
  {
    hide Yields, Apply;
    var e := Idle(Handle(t, Request.CreateAgent(u)));
    ApplyOne(t, InsertAgent(u));
    if u in t.users && t.users[u].Some? && t.users[u].value in t.plans {
      var limit := t.plans[t.users[u].value].maxAgents;
      if |AgentsOf(t, u)| < limit {
        Moves(t, CreateInsert(u), YES);
        MovesThen(t, CreateCount(u, limit), YES, e);
      } else {
        Moves(t, CreateCount(u, limit), YES);
      }
      MovesThen(t, CreateLoadPlan(u), YES, e);
    } else {
      Moves(t, CreateLoadPlan(u), YES);
    }
  }

  lemma ProvisionScript(t: Tables, u: UserId, a: AgentId, c: ConfigId, created: Option<Vm>)
    requires IssueProvision(t, u, a, c, created).statements != []
    ensures var v := t.nextVps;
            IssueProvision(t, u, a, c, created).statements
            == [InsertVps(u, c, a), AssignVps(a, Some(v))]
               + match created
                 case None => []
                 case Some(vm) => [SetRefs(v, Some(vm.id), vm.address), SetState(v, Running)]
  {
  }

  lemma InsertedAlone(t: Tables, u: UserId, a: AgentId, c: ConfigId, created: Option<Vm>)
    requires IssueProvision(t, u, a, c, created).statements != []
    ensures Yields(Solo(t, ProvisionInsert(u, a, c)), Idle(ApplyAll(t, IssueProvision(t, u, a, c, created).statements)))
  {
    hide Yields, Apply, IssueProvision;
    var ss := IssueProvision(t, u, a, c, created).statements;
    ProvisionScript(t, u, a, c, created);
    var v := t.nextVps;
    var t1 := Apply(t, InsertVps(u, c, a));
    var t2 := Apply(t1, AssignVps(a, Some(v)));
    var e := Idle(ApplyAll(t, ss));
    assert ss == ss[..2] + ss[2..] && ss[..2] == [ss[0], ss[1]];
    ApplyAllConcat(t, ss[..2], ss[2..]);
    ApplyTwo(t, ss[0], ss[1]);
    if created.None? {
      assert ss[2..] == [];
      Moves(t2, ProvisionCreate(u, v), YES.(ok := false));
    } else {
      var vm := created.value;
      var t3 := Apply(t2, SetRefs(v, Some(vm.id), vm.address));
      assert ss[2..] == [ss[2], ss[3]];
      ApplyTwo(t2, ss[2], ss[3]);
      Moves(t3, ProvisionFinish(u, v), YES);
      MovesThen(t2, ProvisionRefs(u, v, vm.id, vm.address), YES, e);
      MovesThen(t2, ProvisionCreate(u, v), Answer(true, vm.id, vm.address, []), e);
    }
    MovesThen(t1, ProvisionAssign(u, a, v), YES, e);
    MovesThen(t, ProvisionInsert(u, a, c), YES, e);
  }

  /** A handler that gives up at some check is one that stops there. */
  lemma ProvisionAlone(t: Tables, u: UserId, a: AgentId, c: ConfigId, created: Option<Vm>)
    ensures Yields(Solo(t, ProvisionLoadAgent(u, a, c)), Idle(Handle(t, Request.ProvisionVps(u, a, c, created))))
  {
    hide Yields;
    var ss := IssueProvision(t, u, a, c, created).statements;
    var e := Idle(ApplyAll(t, ss));
    var h := ProvisionLoadAgent(u, a, c);
    if ss == [] {
      Drops(t, h);
    } else {
      var limit := t.plans[t.users[u].value].maxVpses;
      InsertedAlone(t, u, a, c, created);
      MovesThen(t, ProvisionCount(u, a, c, limit), YES, e);
      MovesThen(t, ProvisionLoadPlan(u, a, c), YES, e);
      MovesThen(t, h, YES, e);
    }
  }

  /** The handlers that load the agent, then its VPS, and then write. */
  lemma FoundAlone(t: Tables, owner: Option<UserId>, a: AgentId, goal: Goal, pending: seq<Statement>)
    requires a in t.agents && (owner.Some? ==> t.agents[a].userId == owner.value)
    requires t.agents[a].vpsId.Some? && AfterFind(t, a, t.agents[a].vpsId.value, goal) == Some(Writing(pending))
    ensures Yields(Solo(t, FindAgent(owner, a, goal)), Idle(ApplyAll(t, pending)))
  {
    hide Yields, AfterFind;
    var e := Idle(ApplyAll(t, pending));
    WritesOut(t, pending);
    MovesThen(t, FindVps(a, t.agents[a].vpsId.value, goal), YES, e);
    MovesThen(t, FindAgent(owner, a, goal), YES, e);
  }

  lemma StopsAtOnce(t: Tables, h: Handler)
    ensures Yields(Solo(t, h), Idle(ApplyAll(t, [])))
  {
    Drops(t, h);
  }

  lemma ToggleAlone(t: Tables, u: UserId, a: AgentId, ok: bool, goal: Goal)
    requires goal == ToStart || goal == ToStop
    ensures var r := if goal == ToStart then Request.StartVps(u, a, ok) else Request.StopVps(u, a, ok);
            Yields(Solo(t, FindAgent(Some(u), a, goal)), Idle(Handle(t, r)))
  {
    hide Yields, Apply;
    var r := if goal == ToStart then Request.StartVps(u, a, ok) else Request.StopVps(u, a, ok);
    if Issue(t, r).statements == [] {
      StopsAtOnce(t, FindAgent(Some(u), a, goal));
    } else {
      FoundAlone(t, Some(u), a, goal, Issue(t, r).statements);
    }
  }

  lemma DestroyAlone(t: Tables, u: UserId, a: AgentId)
    ensures Yields(Solo(t, FindAgent(Some(u), a, ToDestroy)), Idle(Handle(t, Request.DestroyVps(u, a))))
  {
    hide Yields, Apply;
    if Issue(t, Request.DestroyVps(u, a)).statements == [] {
      StopsAtOnce(t, FindAgent(Some(u), a, ToDestroy));
    } else {
      FoundAlone(t, Some(u), a, ToDestroy, Issue(t, Request.DestroyVps(u, a)).statements);
    }
  }

  lemma DeleteAlone(t: Tables, owner: Option<UserId>, a: AgentId)
    requires a in t.agents && (owner.Some? ==> t.agents[a].userId == owner.value)
    ensures Yields(Solo(t, FindAgent(owner, a, ToDelete)),
                   Idle(ApplyAll(t, RetireAttached(t, t.agents[a].vpsId) + [Statement.DeleteAgent(a)])))
  {
    hide Yields, Apply;
    var del := Statement.DeleteAgent(a);
    var ss := RetireAttached(t, t.agents[a].vpsId) + [del];
    assert RetireAttached(t, t.agents[a].vpsId) == [] ==> ss == [del];
    if t.agents[a].vpsId.Some? {
      var v := t.agents[a].vpsId.value;
      assert [SetState(v, Destroyed)] + [del] == [SetState(v, Destroyed), del];
      FoundAlone(t, owner, a, ToDelete, ss);
    } else {
      WritesOut(t, ss);
      MovesThen(t, FindAgent(owner, a, ToDelete), YES, Idle(ApplyAll(t, ss)));
    }
  }

  lemma AdminStopAlone(t: Tables, v: VpsId, ok: bool)
    ensures Yields(Solo(t, AdminStop(v)), Idle(Handle(t, Request.AdminStopVps(v, ok))))
  {
    hide Yields, Apply;
    var ss := Issue(t, Request.AdminStopVps(v, ok)).statements;
    if ss == [] {
      StopsAtOnce(t, AdminStop(v));
    } else {
      WritesOut(t, ss);
      MovesThen(t, AdminStop(v), YES, Idle(ApplyAll(t, ss)));
    }
  }

  lemma AdminDestroyAlone(t: Tables, v: VpsId)
    ensures Yields(Solo(t, AdminDestroy(v)), Idle(Handle(t, Request.AdminDestroyVps(v))))
  {
    hide Yields, Apply, Retire;
    var ss := Issue(t, Request.AdminDestroyVps(v)).statements;
    if v in t.vpses && t.vpses[v].state != Destroyed {
      SweepsOut(t, [v]);
      assert [v][1..] == [];
      assert RetireEach(t, [v]) == Retire(t, v) + [] == Retire(t, v);
      MovesThen(t, AdminDestroy(v), YES, Idle(ApplyAll(t, ss)));
    } else {
      StopsAtOnce(t, AdminDestroy(v));
    }
  }

  lemma CleanupAlone(t: Tables)
    ensures Yields(Solo(t, Cleanup), Idle(Handle(t, Request.CleanupStuck)))
  {
    hide Yields, RetireEach;
    var todo := ListByState(t, Provisioning, t.nextVps);
    var e := Idle(Handle(t, Request.CleanupStuck));
    SweepsOut(t, todo);
    MovesThen(t, Cleanup, YES, e);
  }

  lemma SetStatusAlone(t: Tables, u: UserId, status: UserStatus)
    ensures Yields(Solo(t, SetsStatus(u, status)), Idle(Handle(t, Request.SetUserStatus(u, status))))
  {
    hide Yields, Apply;
    var ss := Issue(t, Request.SetUserStatus(u, status)).statements;
    if u !in t.users {
      StopsAtOnce(t, SetsStatus(u, status));
    } else {
      var h := SetsStatus(u, status);
      assert ss == if AssignDemo(t, u, status) == [] then [SetStatus(u, status)]
                   else [SetPlan(u, t.demoPlan), SetStatus(u, status)];
      WritesOut(t, ss);
      MovesThen(t, h, YES, Idle(ApplyAll(t, ss)));
    }
  }

  /** The request's own handler, left alone, can do exactly what Handle says. */
  lemma HandledAlone(t: Tables, r: Request)
    ensures Yields(Solo(t, Starter(r)), Idle(Handle(t, r)))
  {
    hide Yields;
    match r {
      case CreateAgent(u) => CreateAgentAlone(t, u);
      case DeleteAgent(u, a) =>
        if a in t.agents && t.agents[a].userId == u {
          DeleteAlone(t, Some(u), a);
        } else {
          StopsAtOnce(t, Starter(r));
        }
      case ProvisionVps(u, a, c, created) => ProvisionAlone(t, u, a, c, created);
      case StartVps(u, a, ok) => ToggleAlone(t, u, a, ok, ToStart);
      case StopVps(u, a, ok) => ToggleAlone(t, u, a, ok, ToStop);
      case DestroyVps(u, a) => DestroyAlone(t, u, a);
      case AdminStopVps(v, ok) => AdminStopAlone(t, v, ok);
      case AdminDestroyVps(v) => AdminDestroyAlone(t, v);
      case AdminDeleteAgent(a) => if a in t.agents { DeleteAlone(t, None, a); } else { StopsAtOnce(t, Starter(r)); }
      case CleanupStuck => CleanupAlone(t);
      case SetUserStatus(u, status) => SetStatusAlone(t, u, status);
    }
  }

  /** Every run of handlers one at a time is a run of the interleaved system. */
  lemma {:induction false} RunIsInterleaving(t: Tables, rs: seq<Request>) returns (ls: seq<Label>)
    ensures Trace(Idle(t), ls)[|ls|] == Idle(Run(t, rs))
    decreases |rs|
  {
    hide Yields, Handle;
    ls := RunLabels(t, rs);
    TraceEnds(Idle(t), ls);
  }

  lemma {:induction false} RunLabels(t: Tables, rs: seq<Request>) returns (ls: seq<Label>)
    ensures Final(Idle(t), ls) == Idle(Run(t, rs))
    decreases |rs|
  {
    hide Handle, Next;
    if rs == [] {
      ls := [];
    } else {
      HandledAlone(t, rs[0]);
      var alone :| NoneBegun(alone) && Final(Solo(t, Starter(rs[0])), alone) == Idle(Handle(t, rs[0]));
      var rest := RunLabels(Handle(t, rs[0]), rs[1..]);
      var begin := Begin(0, Starter(rs[0]));
      BeginsSolo(t, Starter(rs[0]));
      assert ([begin] + alone)[1..] == alone;
      assert Final(Idle(t), [begin] + alone) == Idle(Handle(t, rs[0]));
      FinalConcat(Idle(t), [begin] + alone, rest);
      ls := [begin] + alone + rest;
    }
  }

  lemma BeginsSolo(t: Tables, h: Handler)
    requires IsFirst(h)
    ensures Next(Idle(t), Begin(0, h)) == Solo(t, h)
  {
    assert map[][0 := h] == map[0 := h];
  }
}
