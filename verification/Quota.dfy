/**
 How far the plan limits can be overshot when handlers interleave. The count check and
 the insert are separate steps, and a state write does not look at the row again, so a
 VPS destroyed in between comes back to life.
 */
module Quota {
  import opened Prelude
  import opened Store
  import opened Interleaving

  // -- Who is in flight ----------------------------------------------------------

  predicate IsProvision(h: Handler) {
    h.ProvisionLoadAgent? || h.ProvisionLoadPlan? || h.ProvisionCount? || h.ProvisionInsert? || HasInserted(h)
  }

  predicate HasInserted(h: Handler) {
    h.ProvisionAssign? || h.ProvisionCreate? || h.ProvisionRefs? || h.ProvisionFinish?
  }

  predicate IsCreate(h: Handler) {
    h.CreateLoadPlan? || h.CreateCount? || h.CreateInsert?
  }

  function InFlight(s: Sys, u: UserId): set<nat> {
    set id | id in s.hs && IsProvision(s.hs[id]) && s.hs[id].user == u
  }

  /** Past the count check, not yet inserted. */
  function PastCheck(s: Sys, u: UserId): set<nat> {
    set id | id in s.hs && s.hs[id].ProvisionInsert? && s.hs[id].user == u
  }

  function Inserted(s: Sys, u: UserId): set<nat> {
    set id | id in s.hs && HasInserted(s.hs[id]) && s.hs[id].user == u
  }

  function Creating(s: Sys, u: UserId): set<nat> {
    set id | id in s.hs && IsCreate(s.hs[id]) && s.hs[id].user == u
  }

  function PastAgentCheck(s: Sys, u: UserId): set<nat> {
    set id | id in s.hs && s.hs[id].CreateInsert? && s.hs[id].user == u
  }

  /** The VPSes that start, stop and the monitor are about to mark running or stopped. */
  function Marks(h: Handler): set<VpsId> {
    match h
    case MonitorStop(todo) => set v | v in todo
    case Writing(pending) => set st | st in pending && st.SetState? && st.state != Destroyed :: st.vps
    case _ => {}
  }

  /** The VPSes of u with such a write pending. */
  function Marked(s: Sys, u: UserId): set<VpsId> {
    set id, v | id in s.hs && v in Marks(s.hs[id]) && v in s.t.vpses && s.t.vpses[v].userId == u :: v
  }

  /** Those of them that are destroyed: each such write brings a VPS back to life. */
  function Stale(s: Sys, u: UserId): set<VpsId> {
    Marked(s, u) - LiveVpses(s.t, u)
  }

  function OwnVpses(s: Sys, u: UserId): set<VpsId> {
    set id | id in Inserted(s, u) :: s.hs[id].vps
  }

  /** Live, or about to be: what a user's VPS count can still become without another insert. */
  function Committed(s: Sys, u: UserId): set<VpsId> {
    LiveVpses(s.t, u) + Marked(s, u) + OwnVpses(s, u)
  }

  // -- VPS quota -------------------------------------------------------------------

  ghost predicate WithinSlack(s: Sys, u: UserId, slack: int) {
    |Committed(s, u)| + |PastCheck(s, u)| <= VpsLimit(s.t, u) + slack
  }

  /** The step that passes the count check: what is committed beforehand, counted part by part. */
  lemma CommittedParts(s: Sys, u: UserId)
    ensures |Committed(s, u)| <= |LiveVpses(s.t, u)| + |Stale(s, u)| + |Inserted(s, u)|
  {
    assert Committed(s, u) == LiveVpses(s.t, u) + Stale(s, u) + OwnVpses(s, u);
    UnionSize(LiveVpses(s.t, u) + Stale(s, u), OwnVpses(s, u));
    UnionSize(LiveVpses(s.t, u), Stale(s, u));
    ImageSize(Inserted(s, u), OwnVpses(s, u), id => VpsOfHandler(s, id));
  }

  ghost function VpsOfHandler(s: Sys, id: nat): VpsId {
    if id in s.hs && HasInserted(s.hs[id]) then s.hs[id].vps else 0
  }

  lemma LiveAfter(t: Tables, st: Statement, u: UserId, v: VpsId)
    requires v in LiveVpses(Apply(t, st), u) && v !in LiveVpses(t, u)
    ensures || (st.InsertVps? && st.user == u && v == t.nextVps)
            || (st.SetState? && st.vps == v && st.state != Destroyed && OwnVps(t, u, v))
  {
  }

  /** What one step of handler h, from tables t to t', leaves behind. */
  lemma NewlyLive(t: Tables, h: Handler, x: Answer, u: UserId, v: VpsId)
    requires SafeTables(t) && SafeHandler(t, h)
    requires v in LiveVpses(Step(t, h, x).0, u) && v !in LiveVpses(t, u)
    ensures || (h.ProvisionInsert? && h.user == u && v == t.nextVps)
            || (v in Marks(h) && OwnVps(t, u, v))
            || (HasInserted(h) && h.user == u && h.vps == v)
  {
    StepApplies(t, h, x);
    var st := StatementOf(t, h, x);
    assert st.Some?;
    LiveAfter(t, st.value, u, v);
    match h {
      case Writing(pending) => assert pending[0] in pending;
      case MonitorStop(todo) => assert todo[0] in todo;
      case _ =>
    }
  }

  lemma NewlyMarked(t: Tables, h: Handler, x: Answer, u: UserId, v: VpsId)
    requires SafeTables(t) && SafeHandler(t, h)
    requires Step(t, h, x).1.Some? && v in Marks(Step(t, h, x).1.value)
    ensures v in Marks(h) || (v in t.vpses && t.vpses[v].state != Destroyed)
  {
    hide SafeTables, SafeHandler, Apply, ListByState, ListAgents, HoldersOf;
    match h {
      case FindVps(a, w, goal) => assert AfterFind(t, a, w, goal).Some?;
      case _ =>
    }
  }

  lemma NewlyInserted(t: Tables, h: Handler, x: Answer)
    requires Step(t, h, x).1.Some? && HasInserted(Step(t, h, x).1.value)
    ensures var h' := Step(t, h, x).1.value;
            || (HasInserted(h) && h.user == h'.user && h.vps == h'.vps)
            || (h.ProvisionInsert? && h.user == h'.user && h'.vps == t.nextVps)
  {
  }

  /** Only an insert adds to what is committed. */
  lemma CommittedStep(s: Sys, id: nat, x: Answer, u: UserId)
    requires Safe(s) && id in s.hs
    ensures var s' := Next(s, Advance(id, x));
            var added := if s.hs[id].ProvisionInsert? && s.hs[id].user == u then {s.t.nextVps} else {};
            Committed(s', u) <= Committed(s, u) + added
  {
    var s' := Next(s, Advance(id, x));
    var h := s.hs[id];
    var (t', rest) := Step(s.t, h, x);
    hide Step;
    StepSafe(s.t, h, x);
    var added := if h.ProvisionInsert? && h.user == u then {s.t.nextVps} else {};
    forall v | v in Committed(s', u) ensures v in Committed(s, u) + added {
      if v in LiveVpses(t', u) {
        if v !in LiveVpses(s.t, u) {
          NewlyLive(s.t, h, x, u, v);
          if HasInserted(h) && h.user == u && h.vps == v {
            assert id in Inserted(s, u);
          }
        }
      } else if v in Marked(s', u) {
        var k :| k in s'.hs && v in Marks(s'.hs[k]) && v in t'.vpses && t'.vpses[v].userId == u;
        MarkedBefore(s, id, x, u, k, v);
      } else {
        var k :| k in Inserted(s', u) && s'.hs[k].vps == v;
        if k == id {
          NewlyInserted(s.t, h, x);
          if HasInserted(h) {
            assert id in Inserted(s, u);
          }
        } else {
          assert k in Inserted(s, u);
        }
      }
    }
  }

  lemma MarkedBefore(s: Sys, id: nat, x: Answer, u: UserId, k: nat, v: VpsId)
    requires Safe(s) && id in s.hs
    requires var s' := Next(s, Advance(id, x));
             k in s'.hs && v in Marks(s'.hs[k]) && OwnVps(s'.t, u, v)
    ensures v in Committed(s, u)
  {
    var h := s.hs[k];
    StepSafe(s.t, s.hs[id], x);
    if k == id {
      NewlyMarked(s.t, h, x, u, v);
    }
    if v in Marks(h) {
      MarksExist(s.t, h, v);
      assert v in Marked(s, u);
    } else {
      assert v in LiveVpses(s.t, u);
    }
  }

  lemma MarksExist(t: Tables, h: Handler, v: VpsId)
    requires SafeHandler(t, h) && v in Marks(h)
    ensures v in t.vpses
  {
    match h {
      case Writing(pending) =>
        var st :| st in pending && st.SetState? && st.state != Destroyed && st.vps == v;
        assert SafeStatement(t, st);
      case _ =>
    }
  }

  lemma PastCheckStep(s: Sys, id: nat, x: Answer, u: UserId)
    requires Safe(s) && id in s.hs
    ensures var s' := Next(s, Advance(id, x));
            && (s.hs[id].ProvisionInsert? && s.hs[id].user == u ==>
                  id in PastCheck(s, u) && PastCheck(s', u) == PastCheck(s, u) - {id})
            && (!s.hs[id].ProvisionInsert? ==>
                  PastCheck(s', u) <= PastCheck(s, u)
                  || (PastCheck(s', u) == PastCheck(s, u) + {id} && s.hs[id].ProvisionCount?
                      && s.hs[id].user == u && |LiveVpses(s.t, u)| < VpsLimit(s.t, u)))
            && (s.hs[id].ProvisionInsert? && s.hs[id].user != u ==> PastCheck(s', u) == PastCheck(s, u))
  {
    var s' := Next(s, Advance(id, x));
    if s.hs[id].ProvisionInsert? {
      if s.hs[id].user == u {
        assert PastCheck(s', u) == PastCheck(s, u) - {id};
      } else {
        assert PastCheck(s', u) == PastCheck(s, u);
      }
    } else if id in PastCheck(s', u) {
      assert s.hs[id].ProvisionCount?;
      assert PastCheck(s', u) == PastCheck(s, u) + {id};
    } else {
      assert PastCheck(s', u) <= PastCheck(s, u);
    }
  }

  lemma LimitNeverFalls(s: Sys, l: Label, u: UserId)
    requires Safe(s)
    ensures VpsLimit(s.t, u) <= VpsLimit(Next(s, l).t, u)
    ensures AgentLimit(s.t, u) <= AgentLimit(Next(s, l).t, u)
  {
    if l.Advance? && l.id in s.hs {
      StepSafe(s.t, s.hs[l.id], l.answer);
    }
  }

  lemma FlightParts(s: Sys, id: nat, u: UserId)
    requires id in s.hs && s.hs[id].ProvisionCount? && s.hs[id].user == u
    ensures |Inserted(s, u)| + |PastCheck(s, u)| + 1 <= |InFlight(s, u)|
  {
    var all := Inserted(s, u) + PastCheck(s, u) + {id};
    assert Inserted(s, u) !! PastCheck(s, u) && id !in Inserted(s, u) + PastCheck(s, u);
    assert all <= InFlight(s, u);
    SubsetSize(all, InFlight(s, u));
  }

  /** The handler that passes the check leaves room for everyone else in flight. */
  lemma CountPasses(s: Sys, id: nat, u: UserId, provisions: nat, stale: nat)
    requires id in s.hs && s.hs[id].ProvisionCount? && s.hs[id].user == u
    requires |LiveVpses(s.t, u)| < VpsLimit(s.t, u)
    requires |InFlight(s, u)| <= provisions && |Stale(s, u)| <= stale
    ensures |Committed(s, u)| + |PastCheck(s, u)| + 1 <= VpsLimit(s.t, u) + provisions - 1 + stale
  {
    hide Inserted, PastCheck, InFlight, Committed, LiveVpses, Stale, VpsLimit;
    CommittedParts(s, u);
    FlightParts(s, id, u);
  }

  lemma AdvanceWithinSlack(s: Sys, id: nat, x: Answer, u: UserId, provisions: nat, stale: nat)
    requires Safe(s) && WithinSlack(s, u, provisions - 1 + stale) && id in s.hs
    requires |InFlight(s, u)| <= provisions && |Stale(s, u)| <= stale
    ensures var s' := Next(s, Advance(id, x));
            |Committed(s', u)| + |PastCheck(s', u)| <= VpsLimit(s.t, u) + provisions - 1 + stale
  {
    hide Next, Committed, PastCheck, InFlight, Stale, LiveVpses, Safe, VpsLimit;
    var s' := Next(s, Advance(id, x));
    CommittedStep(s, id, x, u);
    PastCheckStep(s, id, x, u);
    if s.hs[id].ProvisionCount? && s.hs[id].user == u && |LiveVpses(s.t, u)| < VpsLimit(s.t, u) {
      CountPasses(s, id, u, provisions, stale);
    }
    if s.hs[id].ProvisionInsert? && s.hs[id].user == u {
      SubsetSize(Committed(s', u), Committed(s, u) + {s.t.nextVps});
      UnionSize(Committed(s, u), {s.t.nextVps});
    } else {
      assert Committed(s, u) + {} == Committed(s, u);
      SubsetSize(Committed(s', u), Committed(s, u));
      if PastCheck(s', u) <= PastCheck(s, u) {
        SubsetSize(PastCheck(s', u), PastCheck(s, u));
      }
    }
  }

  lemma NextWithinSlack(s: Sys, l: Label, u: UserId, provisions: nat, stale: nat)
    requires Safe(s) && WithinSlack(s, u, provisions - 1 + stale)
    requires |InFlight(s, u)| <= provisions && |Stale(s, u)| <= stale
    ensures WithinSlack(Next(s, l), u, provisions - 1 + stale)
  {
    var s' := Next(s, l);
    LimitNeverFalls(s, l, u);
    assert |Committed(s', u)| + |PastCheck(s', u)| <= VpsLimit(s.t, u) + provisions - 1 + stale by {
      if l.Advance? && l.id in s.hs {
        AdvanceWithinSlack(s, l.id, l.answer, u, provisions, stale);
      } else {
        NotAdvanced(s, l);
        NoneCommitted(s, s', u);
      }
    }
  }

  lemma NotAdvanced(s: Sys, l: Label)
    requires !l.Advance? || l.id !in s.hs
    ensures Undisturbed(s, Next(s, l))
  {
  }

  /** No tables changed, and every handler is as before or has yet to take its first step. */
  ghost predicate Undisturbed(s: Sys, s': Sys) {
    s'.t == s.t && forall id :: id in s'.hs ==> (id in s.hs && s'.hs[id] == s.hs[id]) || IsFirst(s'.hs[id])
  }

  /** Starting or dropping a handler commits nothing. */
  lemma NoneCommitted(s: Sys, s': Sys, u: UserId)
    requires Undisturbed(s, s')
    ensures |Committed(s', u)| <= |Committed(s, u)| && |PastCheck(s', u)| <= |PastCheck(s, u)|
  {
    NoneMarked(s, s', u);
    NoneInserted(s, s', u);
    hide Marked, OwnVpses, PastCheck, Undisturbed;
    SubsetSize(Committed(s', u), Committed(s, u));
    SubsetSize(PastCheck(s', u), PastCheck(s, u));
  }

  lemma NoneMarked(s: Sys, s': Sys, u: UserId)
    requires Undisturbed(s, s')
    ensures Marked(s', u) <= Marked(s, u) && LiveVpses(s'.t, u) == LiveVpses(s.t, u)
  {
    forall v | v in Marked(s', u) ensures v in Marked(s, u) {
      var k :| k in s'.hs && v in Marks(s'.hs[k]) && v in s'.t.vpses && s'.t.vpses[v].userId == u;
    }
  }

  lemma NoneInserted(s: Sys, s': Sys, u: UserId)
    requires Undisturbed(s, s')
    ensures OwnVpses(s', u) <= OwnVpses(s, u) && PastCheck(s', u) <= PastCheck(s, u)
  {
    forall v | v in OwnVpses(s', u) ensures v in OwnVpses(s, u) {
      var k :| k in Inserted(s', u) && s'.hs[k].vps == v;
      assert k in Inserted(s, u);
    }
  }

  lemma {:induction false} TraceWithinSlack(s: Sys, ls: seq<Label>, u: UserId, provisions: nat, stale: nat)
    requires Safe(s) && WithinSlack(s, u, provisions - 1 + stale)
    requires forall r :: r in Trace(s, ls) ==> |InFlight(r, u)| <= provisions && |Stale(r, u)| <= stale
    ensures forall r :: r in Trace(s, ls) ==> WithinSlack(r, u, provisions - 1 + stale)
    decreases |ls|
  {
    hide InFlight, Stale, WithinSlack, Next, Safe;
    assert s == Trace(s, ls)[0];
    if ls != [] {
      NextSafe(s, ls[0]);
      NextWithinSlack(s, ls[0], u, provisions, stale);
      assert Trace(s, ls)[1..] == Trace(Next(s, ls[0]), ls[1..]);
      TraceWithinSlack(Next(s, ls[0]), ls[1..], u, provisions, stale);
    }
  }

  /**
   While at most `provisions` provision handlers of a user are in flight and at most
   `stale` destroyed VPSes of the user have a running or stopped write pending, the live
   VPSes and the inserts already allowed exceed the plan limit by at most
   provisions - 1 + stale.
   */
  lemma InterleavedVpsQuota(s: Sys, ls: seq<Label>, u: UserId, provisions: nat, stale: nat, i: nat)
    requires Settled(s) && provisions >= 1 && i <= |ls|
    requires forall r :: r in Trace(s, ls) ==> |InFlight(r, u)| <= provisions && |Stale(r, u)| <= stale
    ensures var r := Trace(s, ls)[i];
            |LiveVpses(r.t, u)| + |PastCheck(r, u)| <= VpsLimit(r.t, u) + provisions - 1 + stale
  {
    hide InFlight, Stale, Settled, Trace, Committed, PastCheck, VpsLimit;
    var r := Trace(s, ls)[i];
    assert r in Trace(s, ls);
    SettledWithinSlack(s, u);
    TraceWithinSlack(s, ls, u, provisions, stale);
    assert WithinSlack(r, u, provisions - 1 + stale);
    LiveCommitted(r, u);
  }

  lemma SettledWithinSlack(s: Sys, u: UserId)
    requires Settled(s)
    ensures Safe(s) && WithinSlack(s, u, 0)
  {
    assert Inserted(s, u) == {} && PastCheck(s, u) == {};
    assert Committed(s, u) == LiveVpses(s.t, u);
  }

  lemma LiveCommitted(s: Sys, u: UserId)
    ensures |LiveVpses(s.t, u)| <= |Committed(s, u)|
  {
    SubsetSize(LiveVpses(s.t, u), Committed(s, u));
  }

  // -- Agent quota -------------------------------------------------------------------

  ghost predicate AgentsWithinSlack(s: Sys, u: UserId, slack: int) {
    |AgentsOf(s.t, u)| + |PastAgentCheck(s, u)| <= AgentLimit(s.t, u) + slack
  }

  /** Only create_agent adds an agent. */
  lemma AgentsStep(s: Sys, id: nat, x: Answer, u: UserId)
    requires Safe(s) && id in s.hs
    ensures var s' := Next(s, Advance(id, x));
            var added := if s.hs[id].CreateInsert? && s.hs[id].user == u then {s.t.nextAgent} else {};
            AgentsOf(s'.t, u) <= AgentsOf(s.t, u) + added
  {
    StepApplies(s.t, s.hs[id], x);
    var st := StatementOf(s.t, s.hs[id], x);
    if st.Some? {
      AgentsAfter(s.t, st.value, u);
      if s.hs[id].Writing? {
        assert SafeStatement(s.t, st.value) by { assert st.value in s.hs[id].pending; }
      }
    }
  }

  lemma AgentsAfter(t: Tables, st: Statement, u: UserId)
    ensures AgentsOf(Apply(t, st), u)
         <= AgentsOf(t, u) + if st.InsertAgent? && st.user == u then {t.nextAgent} else {}
  {
  }

  lemma PastAgentCheckStep(s: Sys, id: nat, x: Answer, u: UserId)
    requires Safe(s) && id in s.hs
    ensures var s' := Next(s, Advance(id, x));
            var h := s.hs[id];
            if h.CreateInsert? && h.user == u then
              id in PastAgentCheck(s, u) && PastAgentCheck(s', u) == PastAgentCheck(s, u) - {id}
            else
              || PastAgentCheck(s', u) <= PastAgentCheck(s, u)
              || (PastAgentCheck(s', u) == PastAgentCheck(s, u) + {id} && h.CreateCount? && h.user == u
                  && |AgentsOf(s.t, u)| < AgentLimit(s.t, u))
  {
    var s' := Next(s, Advance(id, x));
    var h := s.hs[id];
    if h.CreateInsert? && h.user == u {
      assert PastAgentCheck(s', u) == PastAgentCheck(s, u) - {id};
    } else if id in PastAgentCheck(s', u) && h.CreateCount? {
      assert PastAgentCheck(s', u) == PastAgentCheck(s, u) + {id};
    } else {
      assert PastAgentCheck(s', u) <= PastAgentCheck(s, u);
    }
  }

  lemma CreatingParts(s: Sys, id: nat, u: UserId)
    requires id in s.hs && s.hs[id].CreateCount? && s.hs[id].user == u
    ensures |PastAgentCheck(s, u) + {id}| <= |Creating(s, u)|
  {
    SubsetSize(PastAgentCheck(s, u) + {id}, Creating(s, u));
  }

  lemma AdvanceAgents(s: Sys, id: nat, x: Answer, u: UserId, creates: nat)
    requires Safe(s) && AgentsWithinSlack(s, u, creates - 1) && id in s.hs
    requires |Creating(s, u)| <= creates
    ensures var s' := Next(s, Advance(id, x));
            |AgentsOf(s'.t, u)| + |PastAgentCheck(s', u)| <= AgentLimit(s.t, u) + creates - 1
  {
    hide Next, AgentsOf, AgentLimit, Safe, Creating, PastAgentCheck;
    var s' := Next(s, Advance(id, x));
    AgentsStep(s, id, x, u);
    PastAgentCheckStep(s, id, x, u);
    if s.hs[id].CreateInsert? && s.hs[id].user == u {
      SubsetSize(AgentsOf(s'.t, u), AgentsOf(s.t, u) + {s.t.nextAgent});
      UnionSize(AgentsOf(s.t, u), {s.t.nextAgent});
    } else {
      assert AgentsOf(s.t, u) + {} == AgentsOf(s.t, u);
      SubsetSize(AgentsOf(s'.t, u), AgentsOf(s.t, u));
      if PastAgentCheck(s', u) <= PastAgentCheck(s, u) {
        SubsetSize(PastAgentCheck(s', u), PastAgentCheck(s, u));
      } else {
        CreatingParts(s, id, u);
      }
    }
  }

  lemma NextAgents(s: Sys, l: Label, u: UserId, creates: nat)
    requires Safe(s) && AgentsWithinSlack(s, u, creates - 1) && |Creating(s, u)| <= creates
    ensures AgentsWithinSlack(Next(s, l), u, creates - 1)
  {
    var s' := Next(s, l);
    LimitNeverFalls(s, l, u);
    if l.Advance? && l.id in s.hs {
      AdvanceAgents(s, l.id, l.answer, u, creates);
    } else {
      NotAdvanced(s, l);
      assert PastAgentCheck(s', u) <= PastAgentCheck(s, u);
      SubsetSize(PastAgentCheck(s', u), PastAgentCheck(s, u));
    }
  }

  lemma {:induction false} TraceAgents(s: Sys, ls: seq<Label>, u: UserId, creates: nat)
    requires Safe(s) && AgentsWithinSlack(s, u, creates - 1)
    requires forall r :: r in Trace(s, ls) ==> |Creating(r, u)| <= creates
    ensures forall r :: r in Trace(s, ls) ==> AgentsWithinSlack(r, u, creates - 1)
    decreases |ls|
  {
    assert s == Trace(s, ls)[0];
    if ls != [] {
      NextSafe(s, ls[0]);
      NextAgents(s, ls[0], u, creates);
      assert Trace(s, ls)[1..] == Trace(Next(s, ls[0]), ls[1..]);
      TraceAgents(Next(s, ls[0]), ls[1..], u, creates);
    }
  }

  /** With at most `creates` create_agent handlers in flight, agents overshoot by at most creates - 1. */
  lemma InterleavedAgentQuota(s: Sys, ls: seq<Label>, u: UserId, creates: nat, i: nat)
    requires Settled(s) && creates >= 1 && i <= |ls|
    requires forall r :: r in Trace(s, ls) ==> |Creating(r, u)| <= creates
    ensures var r := Trace(s, ls)[i];
            |AgentsOf(r.t, u)| + |PastAgentCheck(r, u)| <= AgentLimit(r.t, u) + creates - 1
  {
    var r := Trace(s, ls)[i];
    assert r in Trace(s, ls);
    assert PastAgentCheck(s, u) == {};
    TraceAgents(s, ls, u, creates);
    assert AgentsWithinSlack(r, u, creates - 1);
  }
}
