/**
 Whole runs of a deployment: requests, polls, enforcement passes, bandwidth charges and
 budgets, one at a time from fresh tables. Provisioning refuses unknown providers and
 every known one meters bandwidth only, so polls have nothing to do.
 */
module Deployment {
  import opened Prelude
  import opened Store
  import opened Handlers
  import opened Metering
  import opened Decision
  import opened Polling
  import opened Lifecycle
  import opened Monitor

  datatype Occurrence =
    | Requested(request: Request)
    | Polled(month: Month, outcomes: map<VpsId, Outcome>)
    | Enforcing(luck: Luck, month: Month)
    | Transferred(vps: VpsId, month: Month, bytes: nat)
    | Budgeted(user: UserId, month: Month, cents: int)

  ghost function Occur(t: Tables, o: Occurrence): Tables {
    match o
    case Requested(r) => Handle(t, r)
    case Polled(month, outcomes) => Poll(t, month, outcomes)
    case Enforcing(luck, month) => Enforced(t, luck, month)
    case Transferred(v, month, bytes) =>
      if v in t.vpses then t.(periods := Upsert(t.periods, (v, month), Usage(bytes, 0, 0))) else t
    case Budgeted(u, month, cents) => t.(budgets := t.budgets[(u, month) := cents])
  }

  ghost function OccurAll(t: Tables, os: seq<Occurrence>): Tables
    decreases |os|
  {
    if os == [] then t else OccurAll(Occur(t, os[0]), os[1..])
  }

  // -- What every run keeps ------------------------------------------------------------

  predicate KnownConfig(configs: map<ConfigId, string>, c: ConfigId) {
    c in configs && ParseProvider(configs[c]).Some?
  }

  /** No gauge has been written since the row was inserted. */
  predicate Unread(row: Vps) {
    row.storage == 0 && row.cpu.None? && row.memory.None?
  }

  ghost predicate KnownRows(t: Tables) {
    forall v :: v in t.vpses ==> KnownConfig(t.configs, t.vpses[v].configId) && Unread(t.vpses[v])
  }

  ghost predicate BandwidthOnly(t: Tables) {
    forall k :: k in t.periods ==>
                  t.periods[k].bandwidth >= 0 && t.periods[k].cpu == 0 && t.periods[k].memory == 0
  }

  ghost predicate Deployed(t: Tables) {
    Consistent(t) && KnownRows(t) && BandwidthOnly(t)
  }

  /** A row is only ever inserted for a config that names a known provider. */
  predicate InsertsKnown(configs: map<ConfigId, string>, s: Statement) {
    s.InsertVps? ==> KnownConfig(configs, s.config)
  }

  lemma StatementKeepsKnown(t: Tables, s: Statement)
    requires KnownRows(t) && InsertsKnown(t.configs, s)
    ensures KnownRows(Apply(t, s))
  {
    hide KnownConfig, Unread, Apply;
    StatementKeepsPeriods(t, s);
    forall v | v in Apply(t, s).vpses
      ensures KnownConfig(t.configs, Apply(t, s).vpses[v].configId) && Unread(Apply(t, s).vpses[v])
    {
      RowComesFrom(t, s, v);
    }
  }

  /** A row has just been inserted, or has the config and gauges it had. */
  lemma RowComesFrom(t: Tables, s: Statement, v: VpsId)
    requires v in Apply(t, s).vpses
    ensures var row := Apply(t, s).vpses[v];
            || (s.InsertVps? && row.configId == s.config && Unread(row))
            || (v in t.vpses && row.configId == t.vpses[v].configId && (Unread(t.vpses[v]) ==> Unread(row)))
  {
  }

  lemma {:induction false} StatementsKeepKnown(t: Tables, ss: seq<Statement>)
    requires KnownRows(t) && forall s :: s in ss ==> InsertsKnown(t.configs, s)
    ensures var t' := ApplyAll(t, ss);
            KnownRows(t') && t'.periods == t.periods && t'.configs == t.configs
    decreases |ss|
  {
    hide KnownRows, Apply, InsertsKnown;
    if ss != [] {
      StatementKeepsKnown(t, ss[0]);
      StatementKeepsPeriods(t, ss[0]);
      StatementsKeepKnown(Apply(t, ss[0]), ss[1..]);
    }
  }

  lemma {:induction false} DetachInserts(t: Tables, v: VpsId, agents: seq<AgentId>)
    requires forall a :: a in agents ==> a in t.agents
    ensures forall s :: s in Detach(t, v, agents) ==> !s.InsertVps?
    decreases |agents|
  {
    if agents != [] {
      DetachInserts(t, v, agents[..|agents| - 1]);
    }
  }

  lemma {:induction false} SweepInserts(t: Tables, stuck: seq<VpsId>)
    ensures forall s :: s in RetireEach(t, stuck) ==> !s.InsertVps?
    decreases |stuck|
  {
    if stuck != [] {
      RetireInserts(t, stuck[0]);
      SweepInserts(ApplyAll(t, Retire(t, stuck[0])), stuck[1..]);
    }
  }

  lemma RetireInserts(t: Tables, v: VpsId)
    ensures forall s :: s in Retire(t, v) ==> !s.InsertVps?
  {
    if v in t.vpses {
      DetachInserts(t, v, ListAgents(t, t.vpses[v].userId, t.nextAgent));
    }
  }

  lemma IssueInsertsKnown(t: Tables, r: Request)
    ensures forall s :: s in Issue(t, r).statements ==> InsertsKnown(t.configs, s)
  {
    match r {
      case AdminDestroyVps(v) => RetireInserts(t, v);
      case CleanupStuck => SweepInserts(t, ListByState(t, Provisioning, t.nextVps));
      case _ =>
    }
  }

  lemma RequestKeeps(t: Tables, r: Request)
    requires Deployed(t)
    ensures Deployed(Handle(t, r))
  {
    hide Consistent, KnownRows, Issue, ApplyAll;
    HandleKeeps(t, r);
    IssueInsertsKnown(t, r);
    StatementsKeepKnown(t, Issue(t, r).statements);
  }

  lemma {:induction false} RequestsKeep(t: Tables, rs: seq<Request>)
    requires Deployed(t)
    ensures Deployed(Run(t, rs))
    decreases |rs|
  {
    if rs != [] {
      RequestKeeps(t, rs[0]);
      RequestsKeep(Handle(t, rs[0]), rs[1..]);
    }
  }

  lemma {:induction false} KnownPollEach(t: Tables, month: Month, listed: seq<VpsId>, outcomes: map<VpsId, Outcome>)
    requires KnownRows(t) && forall v :: v in listed ==> v in t.vpses
    ensures PollEach(t, month, t.vpses, listed, outcomes) == t
    decreases |listed|
  {
    if listed != [] {
      KnownPollEach(t, month, listed[..|listed| - 1], outcomes);
      assert listed[|listed| - 1] in listed;
    }
  }

  lemma MeteringKeeps(t: Tables, t': Tables)
    requires Deployed(t) && t' == t.(periods := t'.periods, budgets := t'.budgets) && BandwidthOnly(t')
    ensures Deployed(t')
  {
    assert forall v :: Live(t', v) <==> Live(t, v);
    LimitsKept(t, t');
  }

  lemma OccurKeeps(t: Tables, o: Occurrence)
    requires Deployed(t)
    ensures Deployed(Occur(t, o))
  {
    hide Consistent, KnownRows, Enforced, Handle;
    match o {
      case Requested(r) => RequestKeeps(t, r);
      case Polled(month, outcomes) => KnownPollEach(t, month, ListByState(t, Running, t.nextVps), outcomes);
      case Enforcing(luck, month) =>
        var rs := EnforcementIsARun(t, luck, month);
        RequestsKeep(t, rs);
      case Transferred(v, month, bytes) => MeteringKeeps(t, Occur(t, o));
      case Budgeted(u, month, cents) => MeteringKeeps(t, Occur(t, o));
    }
  }

  lemma {:induction false} OccurAllKeeps(t: Tables, os: seq<Occurrence>)
    requires Deployed(t)
    ensures Deployed(OccurAll(t, os))
    decreases |os|
  {
    hide Deployed, Occur;
    if os != [] {
      OccurKeeps(t, os[0]);
      OccurAllKeeps(Occur(t, os[0]), os[1..]);
    }
  }

  /** A fresh deployment without usage. */
  ghost predicate Blank(t: Tables) {
    Fresh(t) && t.periods == map[]
  }

  lemma BlankDeployed(t: Tables)
    requires Blank(t)
    ensures Deployed(t)
  {
    FreshConsistent(t);
  }

  // -- What the deployment's users see -----------------------------------------------------

  /**
   In every state of every run, whatever the collector answers, a poll changes nothing;
   only bandwidth has ever been counted, and no VPS has a reading.
   */
  lemma OnlyBandwidthIsMetered(t: Tables, os: seq<Occurrence>, month: Month, outcomes: map<VpsId, Outcome>)
    requires Blank(t)
    ensures var t' := OccurAll(t, os);
            && Poll(t', month, outcomes) == t'
            && (forall k :: k in t'.periods ==> t'.periods[k].cpu == 0 && t'.periods[k].memory == 0)
            && (forall v :: v in t'.vpses ==> Unread(t'.vpses[v]))
  {
    hide Consistent;
    var t' := OccurAll(t, os);
    BlankDeployed(t);
    OccurAllKeeps(t, os);
    KnownPollEach(t', month, ListByState(t', Running, t'.nextVps), outcomes);
  }

  /** And with all of this going on, attachment and liveness still match and the limits hold. */
  lemma DeploymentStaysConsistent(t: Tables, os: seq<Occurrence>)
    requires Blank(t)
    ensures Consistent(OccurAll(t, os))
  {
    hide Consistent;
    BlankDeployed(t);
    OccurAllKeeps(t, os);
  }

  lemma {:induction false} TotalBandwidthOnly(rows: map<Key, Usage>)
    requires forall k :: k in rows ==> rows[k].cpu == 0 && rows[k].memory == 0
    ensures Total(rows).cpu == 0 && Total(rows).memory == 0
    decreases rows.Keys
  {
    if rows == map[] {
      TotalEmpty();
    } else {
      var k :| k in rows;
      TotalRemove(rows, k);
      TotalBandwidthOnly(rows - {k});
      assert rows[k].cpu == 0 && rows[k].memory == 0;
    }
  }

  lemma AttachedRow(t: Tables, u: UserId, a: AgentId, m: Month)
    requires Deployed(t) && HasPlan(t, u) && AgentVps(t, u, a).Some?
    ensures var v := AgentVps(t, u, a).value;
            && Reportable(t, u, v) && v in LiveVpses(t, u) && MeteredVps(t, v) == Metered(false, false)
            && t.vpses[v].storage == 0
    ensures NonNegativeRows(t)
    ensures Aggregate(t, u, m).cpu == 0 && Aggregate(t, u, m).memory == 0
  {
    hide WithinLimits, Total;
    assert Live(t, AgentVps(t, u, a).value);
    TotalBandwidthOnly(CountedRows(t, u, m));
  }

  /**
   Where gate and endpoint part in the states a deployment can reach, for the VPS of any
   agent. The gate admits what the endpoint denies only under a negative budget on a plan
   with a negative disk limit. The endpoint allows what the gate refuses exactly when this
   VPS is inside the bandwidth limit and the user is outside plan and budget.
   */
  lemma AgreementInDeployment(t: Tables, os: seq<Occurrence>, u: UserId, a: AgentId, m: Month)
    requires Blank(t) && HasPlan(OccurAll(t, os), u) && AgentVps(OccurAll(t, os), u, a).Some?
    ensures var t' := OccurAll(t, os);
            var p, v := t'.plans[t'.users[u].value], AgentVps(t', u, a).value;
            && Reportable(t', u, v)
            && (GateAdmitsUser(t', u, m) && !ReportsAllowed(t', u, v, m) <==>
                  UserWithin(t', u, m) && BudgetRow(t', u, m) < 0 && p.maxStorage < 0)
            && (ReportsAllowed(t', u, v, m) && !GateAdmitsUser(t', u, m) <==>
                  && !UserWithin(t', u, m) && CostOf(t', u, m) > BudgetRow(t', u, m)
                  && PeriodRow(t'.periods, (v, m)).bandwidth <= p.limits.bandwidth && p.maxStorage >= 0)
            && (p.limits.cpu >= 0 && p.limits.memory >= 0 ==>
                  (UserWithin(t', u, m) <==> Aggregate(t', u, m).bandwidth <= p.limits.bandwidth))
  {
    hide Consistent, KnownRows, BandwidthOnly, GateAdmitsUser, ReportsAllowed, CostOf, Aggregate, OnlyLive;
    var t' := OccurAll(t, os);
    BlankDeployed(t);
    OccurAllKeeps(t, os);
    AttachedRow(t', u, a, m);
    var v := AgentVps(t', u, a).value;
    GateWithoutReportIff(t', u, v, m);
    ReportWithoutGateIff(t', u, v, m);
  }
}
