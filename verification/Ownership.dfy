/**
 Whose rows a user's handler may touch when handlers interleave: over every trace, all it
 ever writes concerns the agent it was called for, owned by the caller, and the caller's
 VPSes.
 */
module Ownership {
  import opened Prelude
  import opened Store
  import opened Interleaving
  import Effects

  // -- The first steps ------------------------------------------------------------------

  /** Only the owner's request gets past its first step, and that step writes nothing. */
  lemma FindAgentStep(t: Tables, u: UserId, a: AgentId, goal: Goal, x: Answer)
    ensures var (t', rest) := Step(t, FindAgent(Some(u), a, goal), x);
            && t' == t
            && (rest.Some? <==>
                  a in t.agents && t.agents[a].userId == u && (t.agents[a].vpsId.Some? || goal == ToDelete))
            && (rest.Some? ==>
                  rest.value == if t.agents[a].vpsId.Some? then FindVps(a, t.agents[a].vpsId.value, goal)
                                else Writing([DeleteAgent(a)]))
  {
  }

  lemma ProvisionLoadAgentStep(t: Tables, u: UserId, a: AgentId, c: ConfigId, x: Answer)
    ensures var (t', rest) := Step(t, ProvisionLoadAgent(u, a, c), x);
            && t' == t
            && (rest.Some? <==> a in t.agents && t.agents[a] == Agent(u, None))
            && (rest.Some? ==> rest.value == ProvisionLoadPlan(u, a, c))
  {
  }

  /** What is then planned, by the VPS row as it was read; start and stop need the provider's consent. */
  lemma FindVpsStep(t: Tables, a: AgentId, v: VpsId, goal: Goal, x: Answer)
    ensures var (t', rest) := Step(t, FindVps(a, v, goal), x);
            var live := v in t.vpses && t.vpses[v].state != Destroyed;
            var consent := live && t.vpses[v].vmId.Some? && Effects.Served(t, t.vpses[v].configId) && x.ok;
            && t' == t
            && (goal == ToStart ==>
                  rest ==
                  if consent && t.vpses[v].state == Stopped then Some(Writing([SetState(v, Running)])) else None)
            && (goal == ToStop ==>
                  rest ==
                  if consent && t.vpses[v].state == Running then Some(Writing([SetState(v, Stopped)])) else None)
            && (goal == ToDestroy ==>
                  rest == if live then Some(Writing([SetState(v, Destroyed), AssignVps(a, None)])) else None)
            && (goal == ToDelete ==>
                  rest == Some(Writing(if live then [SetState(v, Destroyed), DeleteAgent(a)] else [DeleteAgent(a)])))
  {
  }

  // -- Whole traces -----------------------------------------------------------------------

  /** The statement concerns nothing but agent a and VPSes of user u, to whom a belongs. */
  ghost predicate Concerns(t: Tables, st: Statement, u: UserId, a: AgentId) {
    match st
    case SetState(v, _) => OwnVps(t, u, v)
    case SetRefs(v, _, _) => OwnVps(t, u, v)
    case AssignVps(b, target) => b == a && OwnAgent(t, u, a) && (target.Some? ==> OwnVps(t, u, target.value))
    case DeleteAgent(b) => b == a && OwnAgent(t, u, a)
    case InsertVps(w, _, b) => w == u && b == a && OwnAgent(t, u, a)
    case _ => false
  }

  /** The handler acts for user u on agent a. */
  ghost predicate ActsFor(t: Tables, h: Handler, u: UserId, a: AgentId) {
    match h
    case FindAgent(owner, b, _) => owner == Some(u) && b == a
    case FindVps(b, v, _) => b == a && OwnAgent(t, u, a) && OwnVps(t, u, v)
    case Writing(pending) => forall st :: st in pending ==> Concerns(t, st, u, a)
    case ProvisionLoadAgent(w, b, _) => w == u && b == a
    case ProvisionLoadPlan(w, b, _) => w == u && b == a && OwnAgent(t, u, a)
    case ProvisionCount(w, b, _, _) => w == u && b == a && OwnAgent(t, u, a)
    case ProvisionInsert(w, b, _) => w == u && b == a && OwnAgent(t, u, a)
    case ProvisionAssign(w, b, v) => w == u && b == a && OwnAgent(t, u, a) && OwnVps(t, u, v)
    case ProvisionCreate(w, v) => w == u && OwnVps(t, u, v)
    case ProvisionRefs(w, v, _, _) => w == u && OwnVps(t, u, v)
    case ProvisionFinish(w, v) => w == u && OwnVps(t, u, v)
    case _ => false
  }

  lemma ConcernsKept(t: Tables, t': Tables, st: Statement, u: UserId, a: AgentId)
    requires Concerns(t, st, u, a) && Grows(t, t')
    ensures Concerns(t', st, u, a)
  {
  }

  /** Whatever others do, a handler keeps acting for the same user and agent. */
  lemma ActsForKept(t: Tables, t': Tables, h: Handler, u: UserId, a: AgentId)
    requires ActsFor(t, h, u, a) && Grows(t, t')
    ensures ActsFor(t', h, u, a)
  {
    match h {
      case Writing(pending) =>
        forall st | st in pending ensures Concerns(t', st, u, a) {
          ConcernsKept(t, t', st, u, a);
        }
      case _ =>
    }
  }

  lemma FoundPlans(t: Tables, b: AgentId, v: VpsId, goal: Goal, u: UserId)
    requires OwnAgent(t, u, b) && OwnVps(t, u, v)
    ensures var rest := AfterFind(t, b, v, goal); rest.Some? ==> ActsFor(t, rest.value, u, b)
  {
  }

  lemma StatementConcerns(t: Tables, h: Handler, x: Answer, u: UserId, a: AgentId)
    requires ActsFor(t, h, u, a)
    ensures var st := StatementOf(t, h, x); st.Some? ==> Concerns(t, st.value, u, a)
  {
    if h.Writing? && h.pending != [] {
      assert h.pending[0] in h.pending;
    }
  }

  lemma ReadActs(t: Tables, h: Handler, x: Answer, u: UserId, a: AgentId)
    requires SafeTables(t) && ActsFor(t, h, u, a) && StatementOf(t, h, x).None?
    ensures var rest := Step(t, h, x).1; rest.Some? ==> ActsFor(t, rest.value, u, a)
  {
    match h {
      case FindVps(b, v, goal) => FoundPlans(t, b, v, goal, u);
      case _ =>
    }
  }

  lemma WriteActs(t: Tables, h: Handler, x: Answer, u: UserId, a: AgentId)
    requires SafeTables(t) && ActsFor(t, h, u, a) && StatementOf(t, h, x).Some?
    requires Grows(t, Step(t, h, x).0)
    ensures var (t', rest) := Step(t, h, x); rest.Some? ==> ActsFor(t', rest.value, u, a)
  {
    var (t', rest) := Step(t, h, x);
    ActsForKept(t, t', h, u, a);
    if h.ProvisionInsert? {
      assert OwnVps(t', u, t.nextVps);
    }
  }

  lemma StepActs(t: Tables, h: Handler, x: Answer, u: UserId, a: AgentId)
    requires SafeTables(t) && SafeHandler(t, h) && ActsFor(t, h, u, a)
    ensures var (t', rest) := Step(t, h, x); rest.Some? ==> ActsFor(t', rest.value, u, a)
  {
    hide Step, ActsFor, StatementOf, SafeHandler, Grows;
    StepSafe(t, h, x);
    StepApplies(t, h, x);
    if StatementOf(t, h, x).None? {
      ReadActs(t, h, x, u, a);
    } else {
      WriteActs(t, h, x, u, a);
    }
  }

  lemma NextActs(s: Sys, l: Label, id: nat, u: UserId, a: AgentId)
    requires Safe(s) && id in s.hs && ActsFor(s.t, s.hs[id], u, a)
    ensures var s' := Next(s, l); id in s'.hs ==> ActsFor(s'.t, s'.hs[id], u, a)
  {
    hide Step, ActsFor, Grows, SafeTables, SafeHandler;
    if l.Advance? && l.id in s.hs {
      StepSafe(s.t, s.hs[l.id], l.answer);
      if l.id == id {
        StepActs(s.t, s.hs[id], l.answer, u, a);
        var (t', rest) := Step(s.t, s.hs[id], l.answer);
        assert Next(s, l) == match rest { case None => Sys(t', s.hs - {id}) case Some(h') => Sys(t', s.hs[id := h']) };
      } else {
        ActsForKept(s.t, Step(s.t, s.hs[l.id], l.answer).0, s.hs[id], u, a);
      }
    }
  }

  /** The handler id begins in the first state of the trace and is still there in all the others. */
  ghost predicate Lasts(trace: seq<Sys>, id: nat) {
    forall r :: r in trace ==> id in r.hs
  }

  /**
   A handler that acts for user u on agent a does so as long as it lasts, whoever runs in
   between: each statement it issues concerns only that agent and that user's VPSes.
   */
  lemma {:induction false} TouchesOwnRowsOnly(s: Sys, ls: seq<Label>, id: nat, u: UserId, a: AgentId, x: Answer)
    requires Safe(s) && Lasts(Trace(s, ls), id) && id in s.hs && ActsFor(s.t, s.hs[id], u, a)
    ensures var r := Trace(s, ls)[|ls|];
            id in r.hs && ActsFor(r.t, r.hs[id], u, a)
            && (StatementOf(r.t, r.hs[id], x).Some? ==> Concerns(r.t, StatementOf(r.t, r.hs[id], x).value, u, a))
    decreases |ls|
  {
    hide Next, ActsFor, StatementOf, Concerns, SafeTables, SafeHandler;
    if ls == [] {
      StatementConcerns(s.t, s.hs[id], x, u, a);
    } else {
      var s' := Next(s, ls[0]);
      var rest := Trace(s', ls[1..]);
      assert Trace(s, ls)[1..] == rest;
      assert rest[0] in Trace(s, ls);
      NextActs(s, ls[0], id, u, a);
      NextSafe(s, ls[0]);
      assert forall r :: r in rest ==> r in Trace(s, ls);
      TouchesOwnRowsOnly(s', ls[1..], id, u, a, x);
    }
  }
}
