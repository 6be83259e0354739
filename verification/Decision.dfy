/**
 Three places decide whether a user may go on spending: the proxy gate, the monitor and
 the usage endpoint. Where they agree, and on which inputs they part.
 */
module Decision {
  import opened Prelude
  import opened Store
  import opened OverageCost
  import opened Metering

  predicate WithinPlan(p: Plan, u: Usage) {
    u.bandwidth <= p.limits.bandwidth && u.cpu <= p.limits.cpu && u.memory <= p.limits.memory
  }

  /** check_usage: inside the plan, or inside the overage budget. */
  predicate GateAdmits(p: Plan, u: Usage, budget: int)
  {
    if WithinPlan(p, u) then true else !(OverageCostCents(p, u) > budget)
  }

  /** enforce_limits goes on to stop the user's VPSes. */
  predicate MonitorStops(p: Plan, u: Usage, budget: int)
  {
    if WithinPlan(p, u) then false else if OverageCostCents(p, u) <= budget then false else true
  }

  datatype Metered = Metered(cpu: bool, memory: bool)

  /** Every known provider meters bandwidth only; an unknown name is metered on all axes. */
  function MeteredFor(provider: string): Metered {
    if ParseProvider(provider).Some? then Metered(false, false) else Metered(true, true)
  }

  /** The per-VPS metrics get_usage reports: some reported axis is over the plan's limit. */
  predicate SomeExceeded(p: Plan, row: Usage, storage: int, m: Metered) {
    || row.bandwidth > p.limits.bandwidth
    || storage > p.maxStorage
    || (m.cpu && row.cpu > p.limits.cpu)
    || (m.memory && row.memory > p.limits.memory)
  }

  /** get_usage: no reported axis exceeded, or the user's overage inside the budget. */
  predicate ReportedAllowed(p: Plan, row: Usage, storage: int, m: Metered, aggregate: Usage, budget: int)
  {
    !SomeExceeded(p, row, storage, m) || OverageCostCents(p, aggregate) <= budget
  }

  // -- On equal inputs ---------------------------------------------------------------

  /** The gate's two stages are one comparison, except under a negative budget inside the plan. */
  lemma GateIsCostTest(p: Plan, u: Usage, budget: int)
    ensures (GateAdmits(p, u, budget) <==> OverageCostCents(p, u) <= budget)
       <==> budget >= 0 || !WithinPlan(p, u)
  {
    hide OverageCostCents;
    if WithinPlan(p, u) {
      WithinCostsNothing(p, u);
    }
  }

  /** The monitor's early exits and the gate's come to opposite decisions. */
  lemma GateAndMonitorAgree(p: Plan, u: Usage, budget: int)
    ensures MonitorStops(p, u, budget) <==> !GateAdmits(p, u, budget)
  {
  }

  // -- On one state of the tables -----------------------------------------------------

  /** The gate's decision for a VPS of user u in month m, read from the tables. */
  ghost predicate GateAdmitsUser(t: Tables, u: UserId, m: Month)
    requires HasPlan(t, u)
  {
    GateAdmits(t.plans[t.users[u].value], Aggregate(t, u, m), BudgetRow(t, u, m))
  }

  /**
   The rule in full: the user's plan exists, and either no axis is over its limit or the
   charge is within the budget set for this user and month, nothing if none was set.
   */
  ghost predicate MaySpend(t: Tables, u: UserId, m: Month) {
    && u in t.users && t.users[u].Some? && t.users[u].value in t.plans
    && var plan, used := t.plans[t.users[u].value], Aggregate(t, u, m);
       || (used.bandwidth <= plan.limits.bandwidth && used.cpu <= plan.limits.cpu && used.memory <= plan.limits.memory)
       || OverageCostCents(plan, used) <= (if (u, m) in t.budgets then t.budgets[(u, m)] else 0)
  }

  lemma GateAdmitsIff(t: Tables, u: UserId, m: Month)
    ensures HasPlan(t, u) <==> u in t.users && t.users[u].Some? && t.users[u].value in t.plans
    ensures HasPlan(t, u) && GateAdmitsUser(t, u, m) <==> MaySpend(t, u, m)
  {
    hide OverageCostCents, Aggregate;
  }

  /** Budgets of other users and months decide nothing, and neither does a budget of nothing. */
  lemma OwnBudgetDecides(t: Tables, t': Tables, u: UserId, m: Month)
    requires t' == t.(budgets := t'.budgets)
    requires (u, m) in t.budgets && (u, m) in t'.budgets ==> t.budgets[(u, m)] == t'.budgets[(u, m)]
    requires (u, m) in t.budgets && (u, m) !in t'.budgets ==> t.budgets[(u, m)] == 0
    requires (u, m) !in t.budgets && (u, m) in t'.budgets ==> t'.budgets[(u, m)] == 0
    ensures MaySpend(t', u, m) <==> MaySpend(t, u, m)
    ensures forall v :: Reportable(t, u, v) ==> (ReportsAllowed(t', u, v, m) <==> ReportsAllowed(t, u, v, m))
  {
    hide OverageCostCents, Total;
    assert CountedRows(t', u, m) == CountedRows(t, u, m);
  }

  /** The user's overage charge for the month. */
  ghost function CostOf(t: Tables, u: UserId, m: Month): int
    requires HasPlan(t, u)
  {
    OverageCostCents(t.plans[t.users[u].value], Aggregate(t, u, m))
  }

  ghost predicate UserWithin(t: Tables, u: UserId, m: Month)
    requires HasPlan(t, u)
  {
    WithinPlan(t.plans[t.users[u].value], Aggregate(t, u, m))
  }

  ghost predicate Reportable(t: Tables, u: UserId, v: VpsId) {
    HasPlan(t, u) && v in t.vpses && t.vpses[v].configId in t.configs
  }

  ghost function MeteredVps(t: Tables, v: VpsId): Metered
    requires v in t.vpses && t.vpses[v].configId in t.configs
  {
    MeteredFor(t.configs[t.vpses[v].configId])
  }

  /** Some axis reported for v is over its limit. */
  ghost predicate VpsExceeded(t: Tables, u: UserId, v: VpsId, m: Month)
    requires Reportable(t, u, v)
  {
    SomeExceeded(t.plans[t.users[u].value], PeriodRow(t.periods, (v, m)), t.vpses[v].storage, MeteredVps(t, v))
  }

  /** What get_usage answers for VPS v of user u in month m, read from the tables. */
  ghost predicate ReportsAllowed(t: Tables, u: UserId, v: VpsId, m: Month)
    requires Reportable(t, u, v)
  {
    ReportedAllowed(t.plans[t.users[u].value], PeriodRow(t.periods, (v, m)), t.vpses[v].storage,
                    MeteredVps(t, v), Aggregate(t, u, m), BudgetRow(t, u, m))
  }

  predicate NonNegative(u: Usage) {
    u.bandwidth >= 0 && u.cpu >= 0 && u.memory >= 0
  }

  ghost predicate NonNegativeRows(t: Tables) {
    forall k :: k in t.periods ==> NonNegative(t.periods[k])
  }

  lemma {:induction false} TotalNonNegative(rows: map<Key, Usage>)
    requires forall k :: k in rows ==> NonNegative(rows[k])
    ensures NonNegative(Total(rows))
    decreases rows.Keys
  {
    if rows == map[] {
      TotalEmpty();
    } else {
      var k :| k in rows;
      TotalRemove(rows, k);
      TotalNonNegative(rows - {k});
      assert NonNegative(rows[k]);
    }
  }

  /** No live VPS of the user has used more than the user. */
  lemma RowWithinAggregate(t: Tables, u: UserId, v: VpsId, m: Month)
    requires NonNegativeRows(t) && v in LiveVpses(t, u)
    ensures AtMost(PeriodRow(t.periods, (v, m)), Aggregate(t, u, m))
  {
    hide Total;
    var rows := CountedRows(t, u, m);
    if (v, m) in t.periods {
      TotalRemove(rows, (v, m));
      TotalNonNegative(rows - {(v, m)});
    } else {
      TotalNonNegative(rows);
    }
  }

  /**
   When the gate admits and the endpoint reports not allowed: inside the plan, under a
   negative budget, with a reported axis over its limit. For a live VPS of the user that
   axis can only be the disk.
   */
  lemma GateWithoutReportIff(t: Tables, u: UserId, v: VpsId, m: Month)
    requires Reportable(t, u, v)
    ensures GateAdmitsUser(t, u, m) && !ReportsAllowed(t, u, v, m)
       <==> UserWithin(t, u, m) && BudgetRow(t, u, m) < 0 && VpsExceeded(t, u, v, m)
    ensures NonNegativeRows(t) && v in LiveVpses(t, u) && UserWithin(t, u, m) ==>
              (VpsExceeded(t, u, v, m) <==> t.vpses[v].storage > t.plans[t.users[u].value].maxStorage)
  {
    hide OverageCostCents, Aggregate, CountedRows, LiveVpses, NonNegativeRows;
    if UserWithin(t, u, m) {
      WithinCostsNothing(t.plans[t.users[u].value], Aggregate(t, u, m));
    }
    if NonNegativeRows(t) && v in LiveVpses(t, u) {
      RowWithinAggregate(t, u, v, m);
    }
  }

  /**
   When the endpoint reports allowed and the gate refuses: outside plan and budget, with
   no reported axis of this VPS over its limit.
   */
  lemma ReportWithoutGateIff(t: Tables, u: UserId, v: VpsId, m: Month)
    requires Reportable(t, u, v)
    ensures ReportsAllowed(t, u, v, m) && !GateAdmitsUser(t, u, m)
       <==> !UserWithin(t, u, m) && CostOf(t, u, m) > BudgetRow(t, u, m) && !VpsExceeded(t, u, v, m)
    ensures ReportsAllowed(t, u, v, m) && !GateAdmitsUser(t, u, m) ==>
              !OnlyLive(t, u, v)
              || !UnmeteredWithin(t.plans[t.users[u].value], MeteredVps(t, v), PeriodRow(t.periods, (v, m)))
  {
    hide OverageCostCents, Aggregate, CountedRows;
    if OnlyLive(t, u, v) {
      AggregateOfOnlyLive(t, u, v, m);
    }
  }

  /** Gate and endpoint say the same exactly when neither parting occurs. */
  lemma EndpointAgreesWithGateIff(t: Tables, u: UserId, v: VpsId, m: Month)
    requires Reportable(t, u, v)
    ensures (GateAdmitsUser(t, u, m) <==> ReportsAllowed(t, u, v, m))
       <==> if UserWithin(t, u, m) then BudgetRow(t, u, m) >= 0 || !VpsExceeded(t, u, v, m)
            else CostOf(t, u, m) <= BudgetRow(t, u, m) || VpsExceeded(t, u, v, m)
  {
    hide GateAdmitsUser, ReportsAllowed, UserWithin, VpsExceeded, CostOf, OnlyLive, UnmeteredWithin;
    GateWithoutReportIff(t, u, v, m);
    ReportWithoutGateIff(t, u, v, m);
    GateInside(t, u, m);
  }

  lemma GateInside(t: Tables, u: UserId, m: Month)
    requires HasPlan(t, u)
    ensures GateAdmitsUser(t, u, m) <==> UserWithin(t, u, m) || CostOf(t, u, m) <= BudgetRow(t, u, m)
  {
  }

  ghost predicate OnlyLive(t: Tables, u: UserId, v: VpsId) {
    LiveVpses(t, u) == {v}
  }

  /** A user's only live VPS carries the whole aggregate. */
  lemma AggregateOfOnlyLive(t: Tables, u: UserId, v: VpsId, m: Month)
    requires OnlyLive(t, u, v)
    ensures Aggregate(t, u, m) == PeriodRow(t.periods, (v, m))
  {
    assert v in LiveVpses(t, u);
    var rows := CountedRows(t, u, m);
    forall k | k in rows ensures k == (v, m) {
      assert k.0 in LiveVpses(t, u);
    }
    if (v, m) in t.periods {
      TotalRemove(rows, (v, m));
      assert rows - {(v, m)} == map[];
      TotalEmpty();
    } else {
      assert rows == map[];
      TotalEmpty();
    }
  }

  /** The counters that are not reported are inside the plan; zero is, for any sensible limit. */
  predicate UnmeteredWithin(p: Plan, m: Metered, row: Usage) {
    (m.cpu || row.cpu <= p.limits.cpu) && (m.memory || row.memory <= p.limits.memory)
  }

  // -- Inputs on which they part ----------------------------------------------------------

  /** Two live VPSes on the "fly" config, each with these bytes in month 0, and a limit of 100 bytes at rate 1. */
  function TwoVpses(bytes: int, storage: int, budget: int): Tables {
    var vps := Vps(0, 0, 0, Some("vm"), None, Running, storage, None, None);
    Tables(map[0 := Plan(2, 2, Usage(100, 0, 0), 0, Usage(1, 0, 0))], map[0 := "fly"], {(0, 0)}, {Fly}, None,
           map[0 := Some(0)], map[0 := Active], map[0 := Agent(0, Some(0)), 1 := Agent(0, Some(1))],
           map[0 := vps, 1 := vps.(forAgent := 1)],
           map[(0, 0) := Usage(bytes, 0, 0), (1, 0) := Usage(bytes, 0, 0)], map[(0, 0) := budget], 2, 2)
  }

  lemma TwoVpsesTotal(bytes: int, storage: int, budget: int)
    ensures Aggregate(TwoVpses(bytes, storage, budget), 0, 0) == Usage(2 * bytes, 0, 0)
  {
    var t := TwoVpses(bytes, storage, budget);
    var rows := CountedRows(t, 0, 0);
    var k0: Key, k1: Key := (0, 0), (1, 0);
    assert rows == t.periods;
    TotalRemove(rows, k0);
    TotalRemove(rows - {k0}, k1);
    assert rows - {k0} - {k1} == map[];
    TotalEmpty();
  }

  /** 60 bytes on each VPS under a budget of zero: each is inside the limit, both together are not. */
  lemma ReportMayAllowWhatGateRefuses()
    ensures var t := TwoVpses(60, 0, 0);
            Reportable(t, 0, 0) && ReportsAllowed(t, 0, 0, 0) && !GateAdmitsUser(t, 0, 0)
  {
    hide OverageCostCents, Aggregate;
    var t := TwoVpses(60, 0, 0);
    TwoVpsesTotal(60, 0, 0);
    CostZeroIff(t.plans[0], Usage(120, 0, 0));
    ReportWithoutGateIff(t, 0, 0, 0);
  }

  /** A negative budget with the disk over its limit: the gate looks at neither. */
  lemma GateMayAdmitWhatReportDenies()
    ensures var t := TwoVpses(10, 1, -1);
            Reportable(t, 0, 0) && GateAdmitsUser(t, 0, 0) && !ReportsAllowed(t, 0, 0, 0)
  {
    hide OverageCostCents, Aggregate;
    var t := TwoVpses(10, 1, -1);
    TwoVpsesTotal(10, 1, -1);
    GateWithoutReportIff(t, 0, 0, 0);
  }
}
