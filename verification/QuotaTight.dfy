/**
 The quota bound is the least one: for every limit, every number of provision handlers
 and every number of stale writes there is a run that reaches it.
 */
module QuotaTight {
  import opened Prelude
  import opened Store
  import opened Interleaving
  import opened Quota

  ghost predicate Bounded(s: Sys, u: UserId, provisions: nat, stale: nat) {
    |InFlight(s, u)| <= provisions && |Stale(s, u)| <= stale
  }

  /** The labels lead from s to e, and every state on the way is bounded. */
  ghost predicate Leads(s: Sys, ls: seq<Label>, e: Sys, u: UserId, provisions: nat, stale: nat) {
    Trace(s, ls)[|ls|] == e && forall r :: r in Trace(s, ls) ==> Bounded(r, u, provisions, stale)
  }

  ghost predicate Reaches(s: Sys, e: Sys, u: UserId, provisions: nat, stale: nat) {
    exists ls :: Leads(s, ls, e, u, provisions, stale)
  }

  lemma {:induction false} TraceExtends(s: Sys, ls: seq<Label>, l: Label)
    ensures Trace(s, ls + [l]) == Trace(s, ls) + [Next(Trace(s, ls)[|ls|], l)]
    decreases |ls|
  {
    hide Next;
    if ls == [] {
      assert ls + [l] == [l];
      assert Trace(s, [l]) == [s] + Trace(Next(s, l), [l][1..]);
    } else {
      assert (ls + [l])[1..] == ls[1..] + [l];
      TraceExtends(Next(s, ls[0]), ls[1..], l);
    }
  }

  lemma ReachesStart(s: Sys, u: UserId, provisions: nat, stale: nat)
    requires Bounded(s, u, provisions, stale)
    ensures Reaches(s, s, u, provisions, stale)
  {
    hide Bounded;
    assert Leads(s, [], s, u, provisions, stale);
  }

  lemma ReachesNext(s: Sys, e: Sys, l: Label, u: UserId, provisions: nat, stale: nat)
    requires Reaches(s, e, u, provisions, stale) && Bounded(Next(e, l), u, provisions, stale)
    ensures Reaches(s, Next(e, l), u, provisions, stale)
  {
    hide Bounded, Next;
    var ls :| Leads(s, ls, e, u, provisions, stale);
    TraceExtends(s, ls, l);
    assert Leads(s, ls + [l], Next(e, l), u, provisions, stale);
  }

  // -- The cast of the run --------------------------------------------------------------

  /**
   User u, on a plan for base + 1 VPSes, with base of them running. Handler 0 destroys,
   handlers 1 to k provision, and the m handlers after them stop a VPS each, the j-th
   one VPS base + j.
   */
  datatype Scene = Scene(u: UserId, base: nat, k: nat, m: nat)

  const ANY := Answer(true, "vm", None, [])

  /** The numbers from lo up to hi. */
  function Between(lo: nat, hi: nat): (r: set<nat>)
    requires lo <= hi
    ensures forall x: nat :: x in r <==> lo <= x < hi
    ensures |r| == hi - lo
    decreases hi
  {
    if lo == hi then {} else Between(lo, hi - 1) + {hi - 1}
  }

  function Stopper(v: VpsId): Handler {
    Writing([SetState(v, Stopped)])
  }

  /** What handler id may mark. */
  function Targets(c: Scene, id: nat): set<VpsId> {
    if id > c.k then {c.base + (id - c.k - 1)} else {}
  }

  ghost predicate Allowed(c: Scene, id: nat, h: Handler) {
    id <= c.k + c.m && (IsProvision(h) ==> 1 <= id <= c.k) && Marks(h) <= Targets(c, id)
  }

  ghost predicate Shape(c: Scene, hs: map<nat, Handler>) {
    forall id :: id in hs ==> Allowed(c, id, hs[id])
  }

  lemma ShapeBounded(c: Scene, s: Sys)
    requires Shape(c, s.hs)
    ensures Bounded(s, c.u, c.k, c.m)
  {
    FewProvision(c, s);
    FewMarked(c, s);
    SubsetSize(Stale(s, c.u), Marked(s, c.u));
  }

  lemma FewProvision(c: Scene, s: Sys)
    requires Shape(c, s.hs)
    ensures |InFlight(s, c.u)| <= c.k
  {
    assert forall id :: id in InFlight(s, c.u) ==> Allowed(c, id, s.hs[id]);
    assert InFlight(s, c.u) <= Between(1, c.k + 1);
    SubsetSize(InFlight(s, c.u), Between(1, c.k + 1));
  }

  lemma FewMarked(c: Scene, s: Sys)
    requires Shape(c, s.hs)
    ensures |Marked(s, c.u)| <= c.m
  {
    hide Marks;
    var all := Between(c.base, c.base + c.m);
    forall v | v in Marked(s, c.u) ensures v in all {
      var id :| id in s.hs && v in Marks(s.hs[id]) && v in s.t.vpses && s.t.vpses[v].userId == c.u;
      assert Allowed(c, id, s.hs[id]);
    }
    SubsetSize(Marked(s, c.u), all);
  }

  // -- Moves ------------------------------------------------------------------------------

  /** From s the run may come to these tables with these handlers in flight. */
  ghost predicate Comes(c: Scene, s: Sys, t: Tables, hs: map<nat, Handler>) {
    Shape(c, hs) && Reaches(s, Sys(t, hs), c.u, c.k, c.m)
  }

  lemma Opens(c: Scene, s: Sys)
    requires s.hs == map[]
    ensures Comes(c, s, s.t, map[])
  {
    ShapeBounded(c, s);
    ReachesStart(s, c.u, c.k, c.m);
  }

  lemma NextComes(c: Scene, s: Sys, t: Tables, hs: map<nat, Handler>, l: Label, e: Sys)
    requires Comes(c, s, t, hs) && e == Next(Sys(t, hs), l) && Shape(c, e.hs)
    ensures Comes(c, s, e.t, e.hs)
  {
    hide Shape, Bounded, Next, Reaches;
    ShapeBounded(c, e);
    ReachesNext(s, Sys(t, hs), l, c.u, c.k, c.m);
  }

  lemma Enters(c: Scene, s: Sys, t: Tables, hs: map<nat, Handler>, id: nat, h: Handler)
    requires Comes(c, s, t, hs) && id !in hs && IsFirst(h) && Allowed(c, id, h)
    ensures Comes(c, s, t, hs[id := h])
  {
    hide Allowed, IsFirst, Reaches;
    assert Shape(c, hs[id := h]);
    NextComes(c, s, t, hs, Begin(id, h), Sys(t, hs[id := h]));
  }

  ghost predicate StepsTo(t: Tables, h: Handler, t': Tables, h': Handler) {
    Step(t, h, ANY) == (t', Some(h'))
  }

  lemma Moves(c: Scene, s: Sys, t: Tables, hs: map<nat, Handler>, id: nat, h: Handler, t': Tables, h': Handler)
    requires id !in hs && Comes(c, s, t, hs[id := h]) && StepsTo(t, h, t', h') && Allowed(c, id, h')
    ensures Comes(c, s, t', hs[id := h'])
  {
    hide Allowed, Step, Reaches;
    assert hs[id := h][id := h'] == hs[id := h'];
    assert Shape(c, hs[id := h']) by {
      assert forall k :: k in hs ==> hs[id := h][k] == hs[k];
    }
    NextComes(c, s, t, hs[id := h], Advance(id, ANY), Sys(t', hs[id := h']));
  }

  lemma Leaves(c: Scene, s: Sys, t: Tables, hs: map<nat, Handler>, id: nat, h: Handler, t': Tables)
    requires id !in hs && Comes(c, s, t, hs[id := h]) && Step(t, h, ANY) == (t', None)
    ensures Comes(c, s, t', hs)
  {
    hide Allowed, Step, Reaches;
    assert hs[id := h] - {id} == hs;
    assert Shape(c, hs) by {
      assert forall k :: k in hs ==> hs[id := h][k] == hs[k];
    }
    NextComes(c, s, t, hs[id := h], Advance(id, ANY), Sys(t', hs));
  }

  lemma Plain(c: Scene, id: nat, h: Handler)
    requires id <= c.k + c.m && (IsProvision(h) ==> 1 <= id <= c.k) && Marks(h) == {}
    ensures Allowed(c, id, h)
  {
  }

  lemma NoMarks(pending: seq<Statement>)
    requires forall st :: st in pending ==> st.SetState? ==> st.state == Destroyed
    ensures Marks(Writing(pending)) == {}
  {
  }

  // -- A VPS is provisioned -----------------------------------------------------------------

  function Row(u: UserId, a: AgentId, st: VpsState): Vps {
    Vps(u, 0, a, Some("vm"), None, st, 0, None, None)
  }

  ghost predicate OnLimit(c: Scene, t: Tables) {
    Offered(t, c.u, 0) && t.plans[t.users[c.u].value].maxVpses == c.base + 1
  }

  ghost predicate IdleAgent(c: Scene, agents: map<AgentId, Agent>, a: AgentId) {
    a in agents && agents[a] == Agent(c.u, None)
  }

  /** The tables with one VPS more, for agent a, which holds it or not. */
  function With(c: Scene, t: Tables, a: AgentId, st: VpsState, held: bool): Tables {
    t.(vpses := t.vpses[t.nextVps := Row(c.u, a, st)], nextVps := t.nextVps + 1,
       agents := t.agents[a := Agent(c.u, if held then Some(t.nextVps) else None)])
  }

  /** An idle agent's provision handler gets past the count check. */
  lemma ChecksIn(c: Scene, s: Sys, t: Tables, hs: map<nat, Handler>, id: nat, a: AgentId)
    requires Comes(c, s, t, hs) && id !in hs && 1 <= id <= c.k
    requires OnLimit(c, t) && IdleAgent(c, t.agents, a) && |LiveVpses(t, c.u)| <= c.base
    ensures Comes(c, s, t, hs[id := ProvisionInsert(c.u, a, 0)])
  {
    var h1, h2 := ProvisionLoadAgent(c.u, a, 0), ProvisionLoadPlan(c.u, a, 0);
    var h3, h4 := ProvisionCount(c.u, a, 0, c.base + 1), ProvisionInsert(c.u, a, 0);
    assert StepsTo(t, h1, t, h2) && StepsTo(t, h2, t, h3) && StepsTo(t, h3, t, h4) && IsFirst(h1);
    Plain(c, id, h1);
    Plain(c, id, h2);
    Plain(c, id, h3);
    Plain(c, id, h4);
    hide Comes, StepsTo, Allowed, IsFirst, LiveVpses, Marks;
    Enters(c, s, t, hs, id, h1);
    Moves(c, s, t, hs, id, h1, t, h2);
    Moves(c, s, t, hs, id, h2, t, h3);
    Moves(c, s, t, hs, id, h3, t, h4);
  }

  lemma ProvisionSteps(c: Scene, t: Tables, a: AgentId)
    requires IdleAgent(c, t.agents, a)
    ensures var v := t.nextVps;
            var t1 := Apply(t, InsertVps(c.u, 0, a));
            var t2 := Apply(t1, AssignVps(a, Some(v)));
            var t3 := Apply(t2, SetRefs(v, Some("vm"), None));
            && StepsTo(t, ProvisionInsert(c.u, a, 0), t1, ProvisionAssign(c.u, a, v))
            && StepsTo(t1, ProvisionAssign(c.u, a, v), t2, ProvisionCreate(c.u, v))
            && StepsTo(t2, ProvisionCreate(c.u, v), t2, ProvisionRefs(c.u, v, "vm", None))
            && StepsTo(t2, ProvisionRefs(c.u, v, "vm", None), t3, ProvisionFinish(c.u, v))
            && Step(t3, ProvisionFinish(c.u, v), ANY) == (Apply(t3, SetState(v, Running)), None)
            && Apply(t3, SetState(v, Running)) == With(c, t, a, Running, true)
  {
    hide Apply, With;
    ProvisionedTables(c, t, a);
  }

  lemma ProvisionedTables(c: Scene, t: Tables, a: AgentId)
    requires IdleAgent(c, t.agents, a)
    ensures var v := t.nextVps;
            var t3 := Apply(Apply(Apply(t, InsertVps(c.u, 0, a)), AssignVps(a, Some(v))), SetRefs(v, Some("vm"), None));
            Apply(t3, SetState(v, Running)) == With(c, t, a, Running, true)
  {
    var v := t.nextVps;
    var t1 := Apply(t, InsertVps(c.u, 0, a));
    var t2 := Apply(t1, AssignVps(a, Some(v)));
    assert t2.agents == t.agents[a := Agent(c.u, Some(v))];
    var t3 := Apply(t2, SetRefs(v, Some("vm"), None));
    assert t3.vpses == t.vpses[v := Row(c.u, a, Provisioning)];
    var t4 := Apply(t3, SetState(v, Running));
    assert t4.vpses == t.vpses[v := Row(c.u, a, Running)];
  }

  lemma Provisions(c: Scene, s: Sys, t: Tables, hs: map<nat, Handler>, a: AgentId)
    requires Comes(c, s, t, hs) && 1 !in hs && 1 <= c.k
    requires OnLimit(c, t) && IdleAgent(c, t.agents, a) && |LiveVpses(t, c.u)| <= c.base
    ensures Comes(c, s, With(c, t, a, Running, true), hs)
  {
    var v := t.nextVps;
    var t1 := Apply(t, InsertVps(c.u, 0, a));
    var t2 := Apply(t1, AssignVps(a, Some(v)));
    var t3 := Apply(t2, SetRefs(v, Some("vm"), None));
    var h0, h1 := ProvisionInsert(c.u, a, 0), ProvisionAssign(c.u, a, v);
    var h2, h3, h4 := ProvisionCreate(c.u, v), ProvisionRefs(c.u, v, "vm", None), ProvisionFinish(c.u, v);
    Plain(c, 1, h1);
    Plain(c, 1, h2);
    Plain(c, 1, h3);
    Plain(c, 1, h4);
    hide Comes, StepsTo, Allowed, Apply, Step, LiveVpses, OnLimit, With, Marks;
    ChecksIn(c, s, t, hs, 1, a);
    ProvisionSteps(c, t, a);
    Moves(c, s, t, hs, 1, h0, t1, h1);
    Moves(c, s, t1, hs, 1, h1, t2, h2);
    Moves(c, s, t2, hs, 1, h2, t2, h3);
    Moves(c, s, t2, hs, 1, h3, t3, h4);
    Leaves(c, s, t3, hs, 1, h4, With(c, t, a, Running, true));
  }

  // -- A stop request is overtaken by a destroy request ------------------------------------------

  /** Agent a of the user holds VPS v, which runs. */
  ghost predicate Busy(c: Scene, t: Tables, a: AgentId, v: VpsId) {
    a in t.agents && t.agents[a] == Agent(c.u, Some(v)) && CanAsk(t, v, Running)
  }

  lemma StopSteps(c: Scene, t: Tables, j: nat, a: AgentId)
    requires j < c.m && Busy(c, t, a, c.base + j)
    ensures var id, v := c.k + 1 + j, c.base + j;
            var h1, h2, h3 := FindAgent(Some(c.u), a, ToStop), FindVps(a, v, ToStop), Stopper(v);
            && StepsTo(t, h1, t, h2) && StepsTo(t, h2, t, h3) && IsFirst(h1)
            && Allowed(c, id, h1) && Allowed(c, id, h2) && Allowed(c, id, h3)
  {
  }

  /** A handler comes in and takes two reads. */
  lemma EntersAndReads(c: Scene, s: Sys, t: Tables, hs: map<nat, Handler>, id: nat, h1: Handler, h2: Handler,
                       h3: Handler)
    requires Comes(c, s, t, hs) && id !in hs && IsFirst(h1) && StepsTo(t, h1, t, h2) && StepsTo(t, h2, t, h3)
    requires Allowed(c, id, h1) && Allowed(c, id, h2) && Allowed(c, id, h3)
    ensures Comes(c, s, t, hs[id := h3])
  {
    hide Comes, StepsTo, Allowed, IsFirst;
    Enters(c, s, t, hs, id, h1);
    Moves(c, s, t, hs, id, h1, t, h2);
    Moves(c, s, t, hs, id, h2, t, h3);
  }

  /** A stop request reads its row and is left about to write. */
  lemma StopWaits(c: Scene, s: Sys, t: Tables, hs: map<nat, Handler>, j: nat, a: AgentId)
    requires Comes(c, s, t, hs) && c.k + 1 + j !in hs && j < c.m && Busy(c, t, a, c.base + j)
    ensures Comes(c, s, t, hs[c.k + 1 + j := Stopper(c.base + j)])
  {
    hide Comes, StepsTo, Allowed, IsFirst, Busy, Stopper;
    var v := c.base + j;
    StopSteps(c, t, j, a);
    EntersAndReads(c, s, t, hs, c.k + 1 + j, FindAgent(Some(c.u), a, ToStop), FindVps(a, v, ToStop), Stopper(v));
  }

  lemma DestroySteps(c: Scene, t: Tables, a: AgentId, v: VpsId)
    requires Busy(c, t, a, v)
    ensures var todo := [SetState(v, Destroyed), AssignVps(a, None)];
            var t1 := Apply(t, todo[0]);
            && StepsTo(t, FindAgent(Some(c.u), a, ToDestroy), t, FindVps(a, v, ToDestroy))
            && StepsTo(t, FindVps(a, v, ToDestroy), t, Writing(todo))
            && StepsTo(t, Writing(todo), t1, Writing(todo[1..]))
            && StepsTo(t1, Writing(todo[1..]), Apply(t1, todo[1]), Writing([]))
            && Step(Apply(t1, todo[1]), Writing([]), ANY) == (Apply(t1, todo[1]), None)
            && IsFirst(FindAgent(Some(c.u), a, ToDestroy))
  {
    var todo := [SetState(v, Destroyed), AssignVps(a, None)];
    assert todo[1..][1..] == [];
  }

  lemma DestroyAllowed(c: Scene, a: AgentId, v: VpsId)
    ensures var todo := [SetState(v, Destroyed), AssignVps(a, None)];
            && Allowed(c, 0, FindAgent(Some(c.u), a, ToDestroy)) && Allowed(c, 0, FindVps(a, v, ToDestroy))
            && Allowed(c, 0, Writing(todo)) && Allowed(c, 0, Writing(todo[1..])) && Allowed(c, 0, Writing([]))
  {
    var todo := [SetState(v, Destroyed), AssignVps(a, None)];
    NoMarks(todo);
    NoMarks(todo[1..]);
    NoMarks([]);
  }

  /** A destroy request runs from its first step to its last. */
  lemma Destroys(c: Scene, s: Sys, t: Tables, hs: map<nat, Handler>, a: AgentId, v: VpsId)
    requires Comes(c, s, t, hs) && 0 !in hs && Busy(c, t, a, v)
    ensures Comes(c, s, Apply(Apply(t, SetState(v, Destroyed)), AssignVps(a, None)), hs)
  {
    var todo := [SetState(v, Destroyed), AssignVps(a, None)];
    var t1, t2 := Apply(t, todo[0]), Apply(Apply(t, todo[0]), todo[1]);
    var h1, h2 := FindAgent(Some(c.u), a, ToDestroy), FindVps(a, v, ToDestroy);
    hide Comes, StepsTo, Allowed, IsFirst, Apply, Step, Busy, Marks;
    DestroyAllowed(c, a, v);
    DestroySteps(c, t, a, v);
    Enters(c, s, t, hs, 0, h1);
    Moves(c, s, t, hs, 0, h1, t, h2);
    Moves(c, s, t, hs, 0, h2, t, Writing(todo));
    Moves(c, s, t, hs, 0, Writing(todo), t1, Writing(todo[1..]));
    Moves(c, s, t1, hs, 0, Writing(todo[1..]), t2, Writing([]));
    Leaves(c, s, t2, hs, 0, Writing([]), t2);
  }

  // -- The rows --------------------------------------------------------------------------------

  /** n rows of the user; those from lo up to hi are destroyed, the others live. */
  ghost predicate Rows(c: Scene, vpses: map<VpsId, Vps>, lo: nat, hi: nat, n: nat) {
    && (forall v: nat :: v in vpses <==> v < n)
    && (forall v :: v in vpses ==> vpses[v].userId == c.u && (vpses[v].state == Destroyed <==> lo <= v < hi))
  }

  ghost predicate Idle(c: Scene, agents: map<AgentId, Agent>) {
    forall a: nat :: c.base <= a < c.base + c.k ==> IdleAgent(c, agents, a)
  }

  ghost predicate Stocked(c: Scene, t: Tables, lo: nat, hi: nat, n: nat) {
    OnLimit(c, t) && t.nextVps == n && Rows(c, t.vpses, lo, hi, n) && Idle(c, t.agents)
  }

  lemma StockedCount(c: Scene, t: Tables, lo: nat, hi: nat, n: nat)
    requires Rows(c, t.vpses, lo, hi, n) && lo <= hi <= n
    ensures |LiveVpses(t, c.u)| == n - (hi - lo)
  {
    assert LiveVpses(t, c.u) == Between(0, lo) + Between(hi, n);
    assert Between(0, lo) !! Between(hi, n);
  }

  /** Provisioned and destroyed again, a VPS leaves one destroyed row behind. */
  lemma OneMoreDestroyed(c: Scene, t: Tables, lo: nat, n: nat, a: AgentId)
    requires Stocked(c, t, lo, n, n) && lo <= n && IdleAgent(c, t.agents, a)
    ensures Busy(c, With(c, t, a, Running, true), a, n)
    ensures var t' := Apply(Apply(With(c, t, a, Running, true), SetState(n, Destroyed)), AssignVps(a, None));
            Stocked(c, t', lo, n + 1, n + 1)
  {
    hide Idle, Rows;
    var t1 := With(c, t, a, Running, true);
    var t' := Apply(Apply(t1, SetState(n, Destroyed)), AssignVps(a, None));
    assert t'.vpses == t.vpses[n := Row(c.u, a, Destroyed)];
    assert t'.agents == t.agents;
    RowAdded(c, t.vpses, lo, n, a);
  }

  lemma RowAdded(c: Scene, vpses: map<VpsId, Vps>, lo: nat, n: nat, a: AgentId)
    requires Rows(c, vpses, lo, n, n) && lo <= n
    ensures Rows(c, vpses[n := Row(c.u, a, Destroyed)], lo, n + 1, n + 1)
  {
  }

  lemma InsertStocks(c: Scene, t: Tables, lo: nat, hi: nat, n: nat, a: AgentId)
    requires Stocked(c, t, lo, hi, n) && hi <= n
    ensures Stocked(c, Apply(t, InsertVps(c.u, 0, a)), lo, hi, n + 1)
  {
    hide Idle;
  }

  lemma StopStocks(c: Scene, t: Tables, lo: nat, hi: nat, n: nat)
    requires Stocked(c, t, lo, hi, n) && lo < hi <= n
    ensures Stocked(c, Apply(t, SetState(lo, Stopped)), lo + 1, hi, n)
  {
    hide Idle;
    var t' := Apply(t, SetState(lo, Stopped));
    assert t'.vpses == t.vpses[lo := t.vpses[lo].(state := Stopped)];
  }

  // -- The run ---------------------------------------------------------------------------------

  /** Stop requests from the j-th on wait to write, and no other handler after the k-th is there. */
  ghost predicate Waiting(c: Scene, hs: map<nat, Handler>, from: nat, upto: nat) {
    forall id: nat :: id > c.k ==>
                        (id in hs <==> c.k + 1 + from <= id < c.k + 1 + upto)
                        && (id in hs ==> hs[id] == Stopper(c.base + (id - c.k - 1)))
  }

  lemma OneMoreWaits(c: Scene, hs: map<nat, Handler>, j: nat)
    requires Waiting(c, hs, 0, j)
    ensures c.k + 1 + j !in hs && Waiting(c, hs[c.k + 1 + j := Stopper(c.base + j)], 0, j + 1)
  {
  }

  /** j times a VPS is provisioned, its stop request waits, and it is destroyed. */
  lemma {:induction false} StopsWait(c: Scene, s: Sys, j: nat) returns (t: Tables, hs: map<nat, Handler>)
    requires s.hs == map[] && Stocked(c, s.t, c.base, c.base, c.base) && c.k >= 1 && j <= c.m
    ensures Comes(c, s, t, hs) && Stocked(c, t, c.base, c.base + j, c.base + j)
    ensures Waiting(c, hs, 0, j) && forall id :: id in hs ==> id > c.k
  {
    hide Comes, Rows, Apply, With, Busy, Waiting, Stopper, LiveVpses, OnLimit;
    if j == 0 {
      t, hs := s.t, map[];
      Opens(c, s);
      NoneWaits(c);
    } else {
      var t0, hs0 := StopsWait(c, s, j - 1);
      var a, v := c.base, c.base + j - 1;
      assert IdleAgent(c, t0.agents, a);
      StockedCount(c, t0, c.base, v, v);
      Provisions(c, s, t0, hs0, a);
      OneMoreDestroyed(c, t0, c.base, v, a);
      var t1 := With(c, t0, a, Running, true);
      OneMoreWaits(c, hs0, j - 1);
      StopWaits(c, s, t1, hs0, j - 1, a);
      hs := hs0[c.k + j := Stopper(v)];
      Destroys(c, s, t1, hs, a, v);
      t := Apply(Apply(t1, SetState(v, Destroyed)), AssignVps(a, None));
    }
  }

  lemma NoneWaits(c: Scene)
    ensures Waiting(c, map[], 0, 0)
  {
  }

  /** Handlers 1 to j have passed the count check; those after the i-th still have to insert. */
  ghost predicate Queued(c: Scene, hs: map<nat, Handler>, i: nat, j: nat) {
    && Waiting(c, hs, 0, c.m)
    && (forall id: nat :: id <= c.k ==> (id in hs <==> 1 <= id <= j))
    && (forall id: nat :: i < id <= j && id <= c.k ==> hs[id] == ProvisionInsert(c.u, c.base + id - 1, 0))
  }

  lemma QueueGrows(c: Scene, hs: map<nat, Handler>, j: nat)
    requires Queued(c, hs, 0, j) && j < c.k
    ensures j + 1 !in hs && Queued(c, hs[j + 1 := ProvisionInsert(c.u, c.base + j, 0)], 0, j + 1)
  {
  }

  lemma QueueShrinks(c: Scene, hs: map<nat, Handler>, i: nat, h: Handler)
    requires Queued(c, hs, i, c.k) && i < c.k
    ensures i + 1 in hs && hs[i + 1] == ProvisionInsert(c.u, c.base + i, 0)
    ensures Queued(c, hs[i + 1 := h], i + 1, c.k)
  {
  }

  lemma QueueStarts(c: Scene, hs: map<nat, Handler>)
    requires Waiting(c, hs, 0, c.m) && forall id :: id in hs ==> id > c.k
    ensures Queued(c, hs, 0, 0)
  {
  }

  /** One after the other, k handlers pass the check before any of them inserts. */
  lemma {:induction false} AllChecked(c: Scene, s: Sys, t: Tables, hs0: map<nat, Handler>, j: nat)
    returns (hs: map<nat, Handler>)
    requires Comes(c, s, t, hs0) && Queued(c, hs0, 0, 0) && j <= c.k
    requires Stocked(c, t, c.base, c.base + c.m, c.base + c.m)
    ensures Comes(c, s, t, hs) && Queued(c, hs, 0, j)
  {
    hide Comes, Queued, Rows, OnLimit, LiveVpses;
    if j == 0 {
      hs := hs0;
    } else {
      var before := AllChecked(c, s, t, hs0, j - 1);
      StockedCount(c, t, c.base, c.base + c.m, c.base + c.m);
      QueueGrows(c, before, j - 1);
      assert IdleAgent(c, t.agents, c.base + (j - 1));
      ChecksIn(c, s, t, before, j, c.base + (j - 1));
      hs := before[j := ProvisionInsert(c.u, c.base + (j - 1), 0)];
    }
  }

  lemma Inserts(c: Scene, s: Sys, t: Tables, hs: map<nat, Handler>, id: nat, a: AgentId)
    requires Comes(c, s, t, hs) && id in hs && hs[id] == ProvisionInsert(c.u, a, 0) && 1 <= id <= c.k
    ensures Comes(c, s, Apply(t, InsertVps(c.u, 0, a)), hs[id := ProvisionAssign(c.u, a, t.nextVps)])
  {
    var h, h' := ProvisionInsert(c.u, a, 0), ProvisionAssign(c.u, a, t.nextVps);
    var t' := Apply(t, InsertVps(c.u, 0, a));
    assert StepsTo(t, h, t', h');
    Plain(c, id, h');
    hide Comes, StepsTo, Allowed, Apply, Marks;
    var others := hs - {id};
    assert others[id := h] == hs && others[id := h'] == hs[id := h'];
    Moves(c, s, t, others, id, h, t', h');
  }

  /** Then all of them insert. */
  lemma {:induction false} AllInserted(c: Scene, s: Sys, t: Tables, hs: map<nat, Handler>, i: nat)
    returns (t': Tables, hs': map<nat, Handler>)
    requires Comes(c, s, t, hs) && Queued(c, hs, 0, c.k) && i <= c.k
    requires Stocked(c, t, c.base, c.base + c.m, c.base + c.m)
    ensures Comes(c, s, t', hs') && Queued(c, hs', i, c.k)
    ensures Stocked(c, t', c.base, c.base + c.m, c.base + c.m + i)
  {
    hide Comes, Stocked, Queued, Apply;
    if i == 0 {
      t', hs' := t, hs;
    } else {
      var t1, hs1 := AllInserted(c, s, t, hs, i - 1);
      var a := c.base + (i - 1);
      QueueShrinks(c, hs1, i - 1, ProvisionAssign(c.u, a, t1.nextVps));
      InsertStocks(c, t1, c.base, c.base + c.m, c.base + c.m + (i - 1), a);
      Inserts(c, s, t1, hs1, i, a);
      t', hs' := Apply(t1, InsertVps(c.u, 0, a)), hs1[i := ProvisionAssign(c.u, a, t1.nextVps)];
    }
  }

  lemma StopWrites(c: Scene, s: Sys, t: Tables, hs: map<nat, Handler>, j: nat)
    requires Comes(c, s, t, hs) && j < c.m && c.k + 1 + j in hs && hs[c.k + 1 + j] == Stopper(c.base + j)
    ensures Comes(c, s, Apply(t, SetState(c.base + j, Stopped)), hs - {c.k + 1 + j})
  {
    var id, v := c.k + 1 + j, c.base + j;
    var t' := Apply(t, SetState(v, Stopped));
    assert [SetState(v, Stopped)][1..] == [];
    assert StepsTo(t, Stopper(v), t', Writing([])) && Step(t', Writing([]), ANY) == (t', None);
    NoMarks([]);
    Plain(c, id, Writing([]));
    hide Comes, StepsTo, Allowed, Apply, Step, Marks, Stopper;
    var others := hs - {id};
    assert others[id := Stopper(v)] == hs;
    Moves(c, s, t, others, id, Stopper(v), t', Writing([]));
    Leaves(c, s, t', others, id, Writing([]), t');
  }

  lemma OneFewerWaits(c: Scene, hs: map<nat, Handler>, j: nat)
    requires Waiting(c, hs, j, c.m) && j < c.m
    ensures c.k + 1 + j in hs && hs[c.k + 1 + j] == Stopper(c.base + j)
    ensures Waiting(c, hs - {c.k + 1 + j}, j + 1, c.m)
  {
  }

  /** At last the overtaken stop requests write, and each brings its VPS back. */
  lemma {:induction false} AllWritten(c: Scene, s: Sys, t: Tables, hs: map<nat, Handler>, n: nat, j: nat)
    returns (t': Tables, hs': map<nat, Handler>)
    requires Comes(c, s, t, hs) && Waiting(c, hs, 0, c.m) && j <= c.m
    requires Stocked(c, t, c.base, c.base + c.m, n) && c.base + c.m <= n
    ensures Comes(c, s, t', hs') && Waiting(c, hs', j, c.m) && Stocked(c, t', c.base + j, c.base + c.m, n)
  {
    hide Comes, Waiting, Stocked, Apply, Stopper;
    if j == 0 {
      t', hs' := t, hs;
    } else {
      var t1, hs1 := AllWritten(c, s, t, hs, n, j - 1);
      OneFewerWaits(c, hs1, j - 1);
      StopWrites(c, s, t1, hs1, j - 1);
      StopStocks(c, t1, c.base + (j - 1), c.base + c.m, n);
      t', hs' := Apply(t1, SetState(c.base + (j - 1), Stopped)), hs1 - {c.k + j};
    }
  }

  // -- The start ---------------------------------------------------------------------------------

  /** base running VPSes, each held by the agent of its own number, and k idle agents. */
  function Crowded(c: Scene): Tables {
    Tables(map[0 := Plan(c.base + c.k, c.base + 1, ZERO, 0, ZERO)], map[0 := "fly"], {(0, 0)}, {Fly}, None,
           map[c.u := Some(0)], map[c.u := Active],
           Crew(c), Fleet(c), map[], map[], c.base + c.k, c.base)
  }

  function Crew(c: Scene): (r: map<AgentId, Agent>)
    ensures r.Keys == Between(0, c.base + c.k)
    ensures forall a :: a in r ==> r[a] == Agent(c.u, if a < c.base then Some(a) else None)
  {
    map a: nat | a in Between(0, c.base + c.k) :: Agent(c.u, if a < c.base then Some(a) else None)
  }

  function Fleet(c: Scene): (r: map<VpsId, Vps>)
    ensures r.Keys == Between(0, c.base)
    ensures forall v :: v in r ==> r[v] == Row(c.u, v, Running)
  {
    map v: nat | v in Between(0, c.base) :: Row(c.u, v, Running)
  }

  lemma CrowdedCounts(c: Scene, u: UserId)
    ensures var t := Crowded(c);
            |LiveVpses(t, u)| <= VpsLimit(t, u) && |AgentsOf(t, u)| <= AgentLimit(t, u)
  {
    hide Crew, Fleet, Between;
    CrewOf(c, u);
    FleetOf(c, u);
  }

  lemma CrewOf(c: Scene, u: UserId)
    ensures AgentsOf(Crowded(c), u) == if u == c.u then Between(0, c.base + c.k) else {}
  {
    hide Crew, Fleet, Between;
    var t := Crowded(c);
    assert forall a :: a in t.agents <==> a in Crew(c).Keys;
  }

  lemma FleetOf(c: Scene, u: UserId)
    ensures LiveVpses(Crowded(c), u) == if u == c.u then Between(0, c.base) else {}
  {
    hide Crew, Fleet, Between;
    var t := Crowded(c);
    assert forall v :: v in t.vpses <==> v in Fleet(c).Keys;
  }

  lemma CrowdedSettled(c: Scene)
    ensures Settled(Sys(Crowded(c), map[]))
  {
    hide LiveVpses, AgentsOf, VpsLimit, AgentLimit, Crew, Fleet, Between;
    forall u: UserId
      ensures var t := Crowded(c);
              |LiveVpses(t, u)| <= VpsLimit(t, u) && |AgentsOf(t, u)| <= AgentLimit(t, u)
    {
      CrowdedCounts(c, u);
    }
  }

  lemma CrowdedStocked(c: Scene)
    ensures Stocked(c, Crowded(c), c.base, c.base, c.base)
  {
    hide Rows, Idle, Crew, Fleet;
    CrewIdle(c);
    FleetRows(c);
  }

  lemma CrewIdle(c: Scene)
    ensures Idle(c, Crew(c))
  {
    forall a: nat | c.base <= a < c.base + c.k ensures IdleAgent(c, Crew(c), a) {
      assert a in Between(0, c.base + c.k);
    }
  }

  lemma FleetRows(c: Scene)
    ensures Rows(c, Fleet(c), c.base, c.base, c.base)
  {
    hide Fleet, Between;
    var vpses := Fleet(c);
    forall v: nat ensures v in vpses <==> v < c.base {
      assert v in vpses.Keys <==> v in Between(0, c.base);
    }
  }

  // -- The results ---------------------------------------------------------------------------------

  /**
   For every limit of at least one, k provision handlers and m destroyed VPSes with a
   stop pending are enough to leave limit + k - 1 + m live VPSes.
   */
  lemma QuotaBoundIsReached(u: UserId, limit: nat, k: nat, m: nat) returns (s: Sys, e: Sys)
    requires limit >= 1 && k >= 1
    ensures Settled(s) && Reaches(s, e, u, k, m)
    ensures VpsLimit(e.t, u) == limit && |LiveVpses(e.t, u)| == limit + k - 1 + m
  {
    hide Crowded, Rows, Waiting, Queued, Settled, Reaches, Shape, LiveVpses, Idle;
    var c := Scene(u, limit - 1, k, m);
    s := Sys(Crowded(c), map[]);
    CrowdedSettled(c);
    CrowdedStocked(c);
    var t1, hs1 := StopsWait(c, s, m);
    QueueStarts(c, hs1);
    var hs2 := AllChecked(c, s, t1, hs1, k);
    var t3, hs3 := AllInserted(c, s, t1, hs2, k);
    QueueWaits(c, hs3, k);
    var n := c.base + m + k;
    var t4, hs4 := AllWritten(c, s, t3, hs3, n, m);
    StockedCount(c, t4, c.base + m, c.base + m, n);
    e := Sys(t4, hs4);
  }

  lemma QueueWaits(c: Scene, hs: map<nat, Handler>, i: nat)
    requires Queued(c, hs, i, c.k)
    ensures Waiting(c, hs, 0, c.m)
  {
  }

  /** No run within the given bounds exceeds the plan limit by more than extra. */
  ghost predicate SlackSuffices(u: UserId, provisions: nat, stale: nat, extra: int) {
    forall s, e :: Settled(s) && Reaches(s, e, u, provisions, stale) ==>
                     |LiveVpses(e.t, u)| <= VpsLimit(e.t, u) + extra
  }

  lemma WithinBound(s: Sys, e: Sys, u: UserId, provisions: nat, stale: nat)
    requires Settled(s) && Reaches(s, e, u, provisions, stale) && provisions >= 1
    ensures |LiveVpses(e.t, u)| <= VpsLimit(e.t, u) + provisions - 1 + stale
  {
    hide Settled, InFlight, Stale;
    var ls :| Leads(s, ls, e, u, provisions, stale);
    assert forall r :: r in Trace(s, ls) ==> Bounded(r, u, provisions, stale);
    InterleavedVpsQuota(s, ls, u, provisions, stale, |ls|);
  }

  /** The least slack over all runs is exactly provisions - 1 + stale. */
  lemma LeastSlack(u: UserId, provisions: nat, stale: nat, extra: int)
    requires provisions >= 1
    ensures SlackSuffices(u, provisions, stale, extra) <==> extra >= provisions - 1 + stale
  {
    hide Settled, Reaches, VpsLimit, LiveVpses;
    if extra >= provisions - 1 + stale {
      forall s, e | Settled(s) && Reaches(s, e, u, provisions, stale)
        ensures |LiveVpses(e.t, u)| <= VpsLimit(e.t, u) + extra
      {
        WithinBound(s, e, u, provisions, stale);
      }
    } else {
      var s, e := QuotaBoundIsReached(u, 1, provisions, stale);
    }
  }

  /** The bound one would expect, provisions - 1 over the limit, holds over all runs exactly when no write is stale. */
  lemma PlainQuotaIffNoneStale(u: UserId, provisions: nat, stale: nat)
    requires provisions >= 1
    ensures SlackSuffices(u, provisions, stale, provisions - 1) <==> stale == 0
  {
    LeastSlack(u, provisions, stale, provisions - 1);
  }
}
