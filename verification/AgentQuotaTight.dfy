/**
 The bound on agents is the least one too: for every limit and every number of create
 handlers there is a run that reaches it.
 */
module AgentQuotaTight {
  import opened Prelude
  import opened Store
  import opened Interleaving
  import opened Quota
  import opened QuotaTight

  /** The labels lead from s to e with at most this many create handlers in flight on the way. */
  ghost predicate Brings(s: Sys, ls: seq<Label>, e: Sys, u: UserId, creates: nat) {
    Trace(s, ls)[|ls|] == e && forall r :: r in Trace(s, ls) ==> |Creating(r, u)| <= creates
  }

  ghost predicate CanBring(s: Sys, e: Sys, u: UserId, creates: nat) {
    exists ls :: Brings(s, ls, e, u, creates)
  }

  /** Only ids below k are in use. */
  predicate FewIds(s: Sys, k: nat) {
    forall id :: id in s.hs ==> id < k
  }

  lemma FewCreate(s: Sys, u: UserId, k: nat)
    requires FewIds(s, k)
    ensures |Creating(s, u)| <= k
  {
    hide Between;
    assert Creating(s, u) <= Between(0, k);
    SubsetSize(Creating(s, u), Between(0, k));
  }

  lemma BringsStart(s: Sys, u: UserId, k: nat)
    requires FewIds(s, k)
    ensures CanBring(s, s, u, k)
  {
    FewCreate(s, u, k);
    assert Brings(s, [], s, u, k);
  }

  lemma BringsNext(s: Sys, m: Sys, l: Label, e: Sys, u: UserId, k: nat)
    requires CanBring(s, m, u, k) && e == Next(m, l) && FewIds(e, k)
    ensures CanBring(s, e, u, k)
  {
    hide Next, FewIds;
    var ls :| Brings(s, ls, m, u, k);
    TraceExtends(s, ls, l);
    FewCreate(e, u, k);
    assert Brings(s, ls + [l], e, u, k);
  }

  // -- The run ---------------------------------------------------------------------------

  /** User u has n agents without a VPS, on a plan for limit. */
  function Owning(u: UserId, limit: nat, n: nat): Tables {
    Tables(map[0 := Plan(limit, 0, ZERO, 0, ZERO)], map[], {}, {}, None, map[u := Some(0)], map[u := Active],
           map a | a in Between(0, n) :: Agent(u, None), map[], map[], map[], n, 0)
  }

  /** Handlers lo to hi - 1 have counted and are about to insert. */
  function Ready(u: UserId, lo: nat, hi: nat): map<nat, Handler>
    requires lo <= hi
  {
    map id | id in Between(lo, hi) :: CreateInsert(u)
  }

  lemma OwningCount(u: UserId, limit: nat, n: nat)
    ensures |AgentsOf(Owning(u, limit, n), u)| == n && AgentLimit(Owning(u, limit, n), u) == limit
  {
    hide Between;
    assert AgentsOf(Owning(u, limit, n), u) == Between(0, n);
  }

  lemma OwningSettled(u: UserId, limit: nat, n: nat)
    requires n <= limit
    ensures Settled(Sys(Owning(u, limit, n), map[]))
  {
    var t := Owning(u, limit, n);
    OwningCount(u, limit, n);
    forall w: UserId ensures |LiveVpses(t, w)| <= VpsLimit(t, w) && |AgentsOf(t, w)| <= AgentLimit(t, w) {
      assert LiveVpses(t, w) == {};
      if w != u {
        assert AgentsOf(t, w) == {};
      }
    }
  }

  /** With room for one more, any number of handlers can all have counted before any inserts. */
  lemma {:induction false} AllCount(u: UserId, limit: nat, k: nat, i: nat)
    requires limit >= 1 && i <= k
    ensures var t := Owning(u, limit, limit - 1);
            CanBring(Sys(t, map[]), Sys(t, Ready(u, 0, i)), u, k)
    decreases i
  {
    var t := Owning(u, limit, limit - 1);
    var s := Sys(t, map[]);
    if i == 0 {
      assert Ready(u, 0, 0) == map[];
      BringsStart(s, u, k);
    } else {
      hide Owning, CanBring;
      AllCount(u, limit, k, i - 1);
      var id: nat := i - 1;
      var hs: map<nat, Handler> := Ready(u, 0, id);
      CountsOne(u, limit, k, id);
      BringsNext(s, Sys(t, hs), Begin(id, CreateLoadPlan(u)), Sys(t, hs[id := CreateLoadPlan(u)]), u, k);
      BringsNext(s, Sys(t, hs[id := CreateLoadPlan(u)]), Advance(id, ANY), Sys(t, hs[id := CreateCount(u, limit)]),
                 u, k);
      BringsNext(s, Sys(t, hs[id := CreateCount(u, limit)]), Advance(id, ANY), Sys(t, Ready(u, 0, i)), u, k);
    }
  }

  lemma CountsOne(u: UserId, limit: nat, k: nat, id: nat)
    requires limit >= 1 && id < k
    ensures var t, hs := Owning(u, limit, limit - 1), Ready(u, 0, id);
            var s1, s2 := Sys(t, hs[id := CreateLoadPlan(u)]), Sys(t, hs[id := CreateCount(u, limit)]);
            && Next(Sys(t, hs), Begin(id, CreateLoadPlan(u))) == s1
            && Next(s1, Advance(id, ANY)) == s2
            && Next(s2, Advance(id, ANY)) == Sys(t, Ready(u, 0, id + 1))
            && FewIds(s1, k) && FewIds(s2, k) && FewIds(Sys(t, Ready(u, 0, id + 1)), k)
  {
    hide Between, AgentsOf;
    OwningCount(u, limit, limit - 1);
    var hs: map<nat, Handler> := Ready(u, 0, id);
    assert hs[id := CreateLoadPlan(u)][id := CreateCount(u, limit)] == hs[id := CreateCount(u, limit)];
    assert hs[id := CreateCount(u, limit)][id := CreateInsert(u)] == Ready(u, 0, id + 1);
  }

  lemma {:induction false} AllInsert(u: UserId, limit: nat, k: nat, i: nat)
    requires limit >= 1 && i <= k
    ensures CanBring(Sys(Owning(u, limit, limit - 1), map[]),
                     Sys(Owning(u, limit, limit - 1 + i), Ready(u, i, k)), u, k)
    decreases i
  {
    hide CanBring, Owning, Next, Ready, FewIds;
    if i == 0 {
      AllCount(u, limit, k, k);
    } else {
      var s, before := Sys(Owning(u, limit, limit - 1), map[]), limit - 1 + (i - 1);
      AllInsert(u, limit, k, i - 1);
      InsertsOne(u, limit, before, i - 1, k);
      BringsNext(s, Sys(Owning(u, limit, before), Ready(u, i - 1, k)), Advance(i - 1, ANY),
                 Sys(Owning(u, limit, before + 1), Ready(u, i, k)), u, k);
    }
  }

  lemma InsertsOne(u: UserId, limit: nat, n: nat, id: nat, k: nat)
    requires id < k
    ensures Next(Sys(Owning(u, limit, n), Ready(u, id, k)), Advance(id, ANY))
         == Sys(Owning(u, limit, n + 1), Ready(u, id + 1, k))
    ensures FewIds(Sys(Owning(u, limit, n + 1), Ready(u, id + 1, k)), k)
  {
    hide Between;
    assert Owning(u, limit, n).agents[n := Agent(u, None)] == Owning(u, limit, n + 1).agents;
    assert Ready(u, id, k) - {id} == Ready(u, id + 1, k);
  }

  // -- The results -------------------------------------------------------------------------

  /** No run with at most this many create handlers exceeds the plan limit by more than extra. */
  ghost predicate AgentSlackSuffices(u: UserId, creates: nat, extra: int) {
    forall s, e :: Settled(s) && CanBring(s, e, u, creates) ==> |AgentsOf(e.t, u)| <= AgentLimit(e.t, u) + extra
  }

  /** For every limit of at least one, k create handlers can leave limit + k - 1 agents. */
  lemma AgentBoundIsReached(u: UserId, limit: nat, k: nat) returns (s: Sys, e: Sys)
    requires limit >= 1 && k >= 1
    ensures Settled(s) && CanBring(s, e, u, k)
    ensures AgentLimit(e.t, u) == limit && |AgentsOf(e.t, u)| == limit + k - 1
  {
    hide Owning, Ready, CanBring, Settled, AgentsOf, AgentLimit;
    s, e := Sys(Owning(u, limit, limit - 1), map[]), Sys(Owning(u, limit, limit - 1 + k), Ready(u, k, k));
    OwningSettled(u, limit, limit - 1);
    AllInsert(u, limit, k, k);
    OwningCount(u, limit, limit - 1 + k);
  }

  lemma WithinAgentBound(s: Sys, e: Sys, u: UserId, creates: nat)
    requires Settled(s) && CanBring(s, e, u, creates) && creates >= 1
    ensures |AgentsOf(e.t, u)| <= AgentLimit(e.t, u) + creates - 1
  {
    hide Settled, Creating, AgentsOf, AgentLimit;
    var ls :| Brings(s, ls, e, u, creates);
    InterleavedAgentQuota(s, ls, u, creates, |ls|);
  }

  /** The least slack over all runs is exactly creates - 1. */
  lemma LeastAgentSlack(u: UserId, creates: nat, extra: int)
    requires creates >= 1
    ensures AgentSlackSuffices(u, creates, extra) <==> extra >= creates - 1
  {
    hide Settled, CanBring, AgentLimit, AgentsOf;
    if extra >= creates - 1 {
      forall s, e | Settled(s) && CanBring(s, e, u, creates)
        ensures |AgentsOf(e.t, u)| <= AgentLimit(e.t, u) + extra
      {
        WithinAgentBound(s, e, u, creates);
      }
    } else {
      var s, e := AgentBoundIsReached(u, 1, creates);
    }
  }
}
