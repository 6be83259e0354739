/**
 The proxy gate and the usage endpoint as they run over the database, read by read, with
 their error replies.
 */
module Gate {
  import opened Prelude
  import opened Store
  import opened Handlers
  import opened Metering
  import opened OverageCost
  import opened Decision
  import opened ControlPlane

  datatype Verdict = Admitted | NoVps | NoPlan | Exhausted | ServerError

  /** check_usage for the owner of a VPS. */
  method CheckUsage(db: Database, user: UserId, month: Month) returns (verdict: Verdict)
    ensures verdict.Admitted? <==> MaySpend(db.View(), user, month)
    ensures verdict.Exhausted? <==>
              && user in db.users && db.users[user].Some? && db.users[user].value in db.plans
              && !MaySpend(db.View(), user, month)
    ensures verdict.NoPlan? <==> user in db.users && db.users[user].None?
    ensures !verdict.NoVps?
  {
    hide Aggregate, OverageCostCents;
    if user !in db.users {
      return ServerError;
    }
    if db.users[user].None? {
      return NoPlan;
    }
    if db.users[user].value !in db.plans {
      return ServerError;
    }
    var plan := db.plans[db.users[user].value];
    var usage := db.GetUserAggregate(user, month);
    if WithinPlan(plan, usage) {
      return Admitted;
    }
    var cost := OverageCostCents(plan, usage);
    if cost > BudgetRow(db.View(), user, month) {
      return Exhausted;
    }
    return Admitted;
  }

  /** The VPS an authenticated agent goes through, and the text that names its provider. */
  ghost predicate GoesThrough(t: Tables, agent: AgentId, vps: VpsId, provider: string) {
    && agent in t.agents && t.agents[agent].vpsId == Some(vps)
    && vps in t.vpses && t.vpses[vps].configId in t.configs && t.configs[t.vpses[vps].configId] == provider
  }

  /** handle_request up to forwarding: Hetzner traffic is left to the monitor, all other traffic passes the gate. */
  method Admit(db: Database, agent: AgentId, month: Month) returns (verdict: Verdict)
    requires agent in db.agents
    ensures verdict.NoVps? <==> db.agents[agent].vpsId.None?
    ensures verdict.Admitted? ==> exists vps, provider :: GoesThrough(db.View(), agent, vps, provider)
    ensures forall vps, provider :: GoesThrough(db.View(), agent, vps, provider) ==>
              var owner := db.vpses[vps].userId;
              && (verdict.Admitted? <==> provider == "hetzner" || MaySpend(db.View(), owner, month))
              && (verdict.Exhausted? <==>
                    && provider != "hetzner" && owner in db.users && db.users[owner].Some?
                    && db.users[owner].value in db.plans && !MaySpend(db.View(), owner, month))
              && (verdict.NoPlan? <==> provider != "hetzner" && owner in db.users && db.users[owner].None?)
  {
    hide MaySpend;
    if db.agents[agent].vpsId.None? {
      return NoVps;
    }
    var vps := db.agents[agent].vpsId.value;
    if vps !in db.vpses || db.vpses[vps].configId !in db.configs {
      return ServerError;
    }
    var provider := db.configs[db.vpses[vps].configId];
    assert GoesThrough(db.View(), agent, vps, provider);
    if ParseProvider(provider) == Some(Hetzner) {
      return Admitted;
    }
    verdict := CheckUsage(db, db.vpses[vps].userId, month);
  }

  datatype Metric = Metric(used: int, limit: int, exceeded: bool)

  datatype UsageReply =
    | Report(allowed: bool, bandwidth: Metric, storage: Metric, cpu: Option<Metric>, memory: Option<Metric>,
             cost: int, budget: int)
    | Rejected(error: ApiError)

  predicate Shows(metric: Metric, used: int, limit: int) {
    metric.used == used && metric.limit == limit && (metric.exceeded <==> used > limit)
  }

  /** An axis is shown exactly when it is metered. */
  predicate ShowsIf(metered: bool, metric: Option<Metric>, used: int, limit: int) {
    (metric.Some? <==> metered) && (metric.Some? ==> Shows(metric.value, used, limit))
  }

  /** The four axes as reported for VPS v of user u. */
  ghost predicate ShowsUsage(r: UsageReply, t: Tables, u: UserId, v: VpsId, m: Month)
    requires r.Report? && Reportable(t, u, v)
  {
    var p, row, metered := t.plans[t.users[u].value], PeriodRow(t.periods, (v, m)), MeteredVps(t, v);
    && Shows(r.bandwidth, row.bandwidth, p.limits.bandwidth) && Shows(r.storage, t.vpses[v].storage, p.maxStorage)
    && ShowsIf(metered.cpu, r.cpu, row.cpu, p.limits.cpu)
    && ShowsIf(metered.memory, r.memory, row.memory, p.limits.memory)
  }

  /** One of the metrics in the reply is marked as exceeded. */
  predicate AnyExceeded(r: UsageReply)
    requires r.Report?
  {
    || r.bandwidth.exceeded || r.storage.exceeded
    || (r.cpu.Some? && r.cpu.value.exceeded) || (r.memory.Some? && r.memory.value.exceeded)
  }

  /** get_usage for one agent of the user. */
  method GetUsage(db: Database, user: UserId, agent: AgentId, month: Month) returns (reply: UsageReply)
    ensures reply.Report? <==>
              && AgentVps(db.View(), user, agent).Some?
              && Reportable(db.View(), user, AgentVps(db.View(), user, agent).value)
    ensures reply.Report? ==>
              var vps := AgentVps(db.View(), user, agent).value;
              && ShowsUsage(reply, db.View(), user, vps, month)
              && (reply.allowed <==> ReportsAllowed(db.View(), user, vps, month))
              && (reply.allowed <==> !AnyExceeded(reply) || reply.cost <= reply.budget)
              && reply.cost == CostOf(db.View(), user, month)
              && reply.budget == (if (user, month) in db.budgets then db.budgets[(user, month)] else 0)
              && (reply.budget >= 0 && MaySpend(db.View(), user, month) ==> reply.allowed)
    ensures reply == Rejected(BadRequest) <==>
              AgentVps(db.View(), user, agent).Some? && user in db.users && db.users[user].None?
  {
    hide Aggregate, OverageCostCents, GateAdmits, MaySpend;
    if agent !in db.agents || db.agents[agent].userId != user {
      return Rejected(NotFound);
    }
    if db.agents[agent].vpsId.None? || db.agents[agent].vpsId.value !in db.vpses {
      return Rejected(NotFound);
    }
    var vps := db.agents[agent].vpsId.value;
    if user !in db.users {
      return Rejected(NotFound);
    }
    if db.users[user].None? {
      return Rejected(BadRequest);
    }
    if db.users[user].value !in db.plans || db.vpses[vps].configId !in db.configs {
      return Rejected(NotFound);
    }
    var plan := db.plans[db.users[user].value];
    var row := PeriodRow(db.periods, (vps, month));
    var metered := MeteredFor(db.configs[db.vpses[vps].configId]);
    var bandwidth := Measure(row.bandwidth, plan.limits.bandwidth);
    var storage := Measure(db.vpses[vps].storage, plan.maxStorage);
    var cpu := if metered.cpu then Some(Measure(row.cpu, plan.limits.cpu)) else None;
    var memory := if metered.memory then Some(Measure(row.memory, plan.limits.memory)) else None;
    var aggregate := db.GetUserAggregate(user, month);
    var cost := OverageCostCents(plan, aggregate);
    var budget := BudgetRow(db.View(), user, month);
    GateAdmitsIff(db.View(), user, month);
    GateWithoutReportIff(db.View(), user, vps, month);
    var exceeded := bandwidth.exceeded || storage.exceeded
                    || (cpu.Some? && cpu.value.exceeded) || (memory.Some? && memory.value.exceeded);
    return Report(!exceeded || cost <= budget, bandwidth, storage, cpu, memory, cost, budget);
  }

  function Measure(used: int, limit: int): Metric {
    Metric(used, limit, used > limit)
  }
}
