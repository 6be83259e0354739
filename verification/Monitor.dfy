/**
 The background monitor over the database: the poll, and the enforcement pass that stops
 the Hetzner VPSes of users who are over both plan and budget.
 */
module Monitor {
  import opened Prelude
  import opened Store
  import opened Handlers
  import opened Metering
  import opened Decision
  import opened OverageCost
  import opened Polling
  import opened Lifecycle
  import opened ControlPlane

  /** poll_metrics: the VPSes running at the start, one after the other. */
  method PollMetrics(db: Database, month: Month, outcomes: map<VpsId, Outcome>)
    modifies db
    ensures db.View() == Poll(old(db.View()), month, outcomes)
  {
    hide Upsert, Gauge, Rise;
    ghost var t := db.View();
    var running := ListByState(db.View(), Running, db.nextVps);
    var rows := db.vpses;
    for i := 0 to |running|
      invariant db.View() == PollEach(t, month, rows, running[..i], outcomes)
    {
      var v := running[i];
      assert running[..i + 1][..i] == running[..i] && running[..i + 1][i] == v;
      PollOneMetrics(db, month, v, rows[v], OutcomeFor(outcomes, v));
    }
    assert running[..|running|] == running;
  }

  method PollOneMetrics(db: Database, month: Month, v: VpsId, row: Vps, o: Outcome)
    modifies db
    ensures db.View() == PollOne(old(db.View()), month, v, row, o)
  {
    hide Upsert, Gauge;
    if row.configId !in db.configs {
      return;
    }
    var metered := MeteredFor(db.configs[row.configId]);
    if !metered.cpu && !metered.memory {
      return;
    }
    match o {
      case NotCollected =>
      case Collected(storage, cpu, memory, periodWritten, gaugeWritten) =>
        var cpuDelta := if metered.cpu then Rise(cpu, row.cpu) else 0;
        var memoryDelta := if metered.memory then Rise(memory, row.memory) else 0;
        if (cpuDelta > 0 || memoryDelta > 0) && periodWritten {
          var _ := db.AddCpuMemory(v, month, cpuDelta, memoryDelta);
        }
        if gaugeWritten {
          db.UpdateUsage(v, storage, cpu, memory);
        }
    }
  }

  // -- Enforcement -------------------------------------------------------------------

  /**
   What goes well in a pass: for which VPSes the attempt to load the config, the stop and
   the state write succeed, and for which users the reads succeed.
   */
  datatype Luck = Luck(configLoads: set<VpsId>, userReads: set<UserId>, stops: set<VpsId>, writes: set<VpsId>)

  predicate IsRunning(t: Tables, v: VpsId) {
    v in t.vpses && v < t.nextVps && t.vpses[v].state == Running
  }

  /** Some running VPS with this config got it loaded; the others share it. */
  ghost predicate ConfigLoaded(t: Tables, luck: Luck, c: ConfigId) {
    c in t.configs && exists v :: v in luck.configLoads && IsRunning(t, v) && t.vpses[v].configId == c
  }

  ghost predicate SeenOnHetzner(t: Tables, luck: Luck, v: VpsId)
    requires v in t.vpses
  {
    var c := t.vpses[v].configId;
    ConfigLoaded(t, luck, c) && ParseProvider(t.configs[c]) == Some(Hetzner)
  }

  /** The user is over the plan and over the budget. */
  ghost predicate OverBudget(t: Tables, u: UserId, month: Month)
  {
    HasPlan(t, u) && MonitorStops(t.plans[t.users[u].value], Aggregate(t, u, month), BudgetRow(t, u, month))
  }

  /** The pass stops v. */
  ghost predicate Stops(t: Tables, luck: Luck, month: Month, v: VpsId)
  {
    && IsRunning(t, v) && SeenOnHetzner(t, luck, v)
    && t.vpses[v].userId in luck.userReads && OverBudget(t, t.vpses[v].userId, month)
    && Hetzner in t.providers && t.vpses[v].vmId.Some?
    && v in luck.stops && v in luck.writes
  }

  function StopAll(t: Tables, vs: set<VpsId>): Tables {
    t.(vpses := StopRows(t.vpses, vs))
  }

  function StopRows(vpses: map<VpsId, Vps>, vs: set<VpsId>): map<VpsId, Vps> {
    map v | v in vpses :: if v in vs then vpses[v].(state := Stopped) else vpses[v]
  }

  ghost function StopSet(t: Tables, luck: Luck, month: Month): set<VpsId>
  {
    set v | v in t.vpses && Stops(t, luck, month, v)
  }

  ghost function Enforced(t: Tables, luck: Luck, month: Month): Tables
  {
    StopAll(t, StopSet(t, luck, month))
  }

  ghost predicate AllRunning(t: Tables, vs: set<VpsId>) {
    forall v :: v in vs ==> IsRunning(t, v)
  }

  /** Stopping running VPSes leaves every aggregate as it is. */
  lemma StopAllKeepsAggregate(t: Tables, vs: set<VpsId>, u: UserId, month: Month)
    requires AllRunning(t, vs)
    ensures Aggregate(StopAll(t, vs), u, month) == Aggregate(t, u, month)
  {
    assert CountedRows(StopAll(t, vs), u, month) == CountedRows(t, u, month);
  }

  lemma StopOneMore(t: Tables, vs: set<VpsId>, v: VpsId)
    ensures StopAll(t, vs + {v}) == Apply(StopAll(t, vs), SetState(v, Stopped))
  {
    hide StopRows;
    StopOneRow(t.vpses, vs, v);
  }

  lemma StopOneRow(vpses: map<VpsId, Vps>, vs: set<VpsId>, v: VpsId)
    ensures var before := StopRows(vpses, vs);
            && before.Keys == vpses.Keys
            && StopRows(vpses, vs + {v}) == if v in vpses then before[v := before[v].(state := Stopped)] else before
  {
  }

  /** The map holds the configs that could be loaded. */
  ghost predicate Loaded(t: Tables, luck: Luck, loaded: map<ConfigId, string>) {
    && (forall c :: c in loaded <==> ConfigLoaded(t, luck, c))
    && (forall c :: c in loaded ==> c in t.configs && loaded[c] == t.configs[c])
  }

  ghost predicate Stored(t: Tables, loaded: map<ConfigId, string>, v: VpsId) {
    v in t.vpses && t.vpses[v].configId in t.configs ==> t.vpses[v].configId in loaded
  }

  /** The configs of the running VPSes, as far as they could be loaded. */
  method LoadConfigs(db: Database, running: seq<VpsId>, luck: Luck) returns (loaded: map<ConfigId, string>)
    requires forall v :: v in running <==> IsRunning(db.View(), v)
    ensures Loaded(db.View(), luck, loaded)
  {
    loaded := map[];
    for i := 0 to |running|
      invariant forall c :: c in loaded ==> ConfigLoaded(db.View(), luck, c) && loaded[c] == db.configs[c]
      invariant forall j :: 0 <= j < i && running[j] in luck.configLoads ==> Stored(db.View(), loaded, running[j])
    {
      var v := running[i];
      assert v in running;
      assert IsRunning(db.View(), v);
      var c := db.vpses[v].configId;
      if c !in loaded && v in luck.configLoads && c in db.configs {
        loaded := loaded[c := db.configs[c]];
      }
    }
    forall c | ConfigLoaded(db.View(), luck, c) ensures c in loaded {
      var v :| v in luck.configLoads && IsRunning(db.View(), v) && db.vpses[v].configId == c;
      var j :| 0 <= j < |running| && running[j] == v;
    }
  }

  predicate OnHetzner(loaded: map<ConfigId, string>, row: Vps) {
    row.configId in loaded && ParseProvider(loaded[row.configId]) == Some(Hetzner)
  }

  /** Of the listed VPSes, those the pass stops for user u. */
  ghost function StopSetFor(t: Tables, luck: Luck, month: Month, us: set<UserId>, listed: seq<VpsId>): set<VpsId>
  {
    set v | v in listed && Stops(t, luck, month, v) && t.vpses[v].userId in us
  }

  /** The stop loop for a user found to be over budget. */
  method StopVpsesOf(db: Database, ghost t: Tables, ghost done: set<VpsId>, luck: Luck, ghost month: Month,
                     user: UserId, running: seq<VpsId>, rows: map<VpsId, Vps>, loaded: map<ConfigId, string>)
    requires rows == t.vpses && db.View() == StopAll(t, done)
    requires forall v :: v in running <==> IsRunning(t, v)
    requires Loaded(t, luck, loaded)
    requires user in luck.userReads && OverBudget(t, user, month) && Hetzner in t.providers
    modifies db
    ensures db.View() == StopAll(t, done + StopSetFor(t, luck, month, {user}, running))
  {
    hide OverBudget, ConfigLoaded, Apply, StopAll;
    assert done + StopSetFor(t, luck, month, {user}, []) == done;
    for i := 0 to |running|
      invariant db.View() == StopAll(t, done + StopSetFor(t, luck, month, {user}, running[..i]))
    {
      var v := running[i];
      assert v in running && running[..i + 1] == running[..i] + [v];
      ghost var before := StopSetFor(t, luck, month, {user}, running[..i]);
      ghost var after := StopSetFor(t, luck, month, {user}, running[..i + 1]);
      var row := rows[v];
      if row.userId == user && row.state == Running && OnHetzner(loaded, row)
         && row.vmId.Some? && v in luck.stops && v in luck.writes
      {
        assert after == before + {v};
        assert done + after == done + before + {v};
        StopOneMore(t, done + before, v);
        db.UpdateState(v, Stopped);
      } else {
        assert after == before;
      }
    }
    assert running[..|running|] == running;
  }

  /** One user's turn. */
  method EnforceUser(db: Database, ghost t: Tables, ghost done: set<VpsId>, luck: Luck, month: Month, user: UserId,
                     running: seq<VpsId>, rows: map<VpsId, Vps>, loaded: map<ConfigId, string>)
    requires rows == t.vpses && db.View() == StopAll(t, done) && AllRunning(t, done)
    requires forall v :: v in running <==> IsRunning(t, v)
    requires Loaded(t, luck, loaded)
    modifies db
    ensures db.View() == StopAll(t, done + StopSetFor(t, luck, month, {user}, running))
  {
    hide ConfigLoaded, Aggregate, CountedRows, OverageCostCents;
    ghost var stopped := StopSetFor(t, luck, month, {user}, running);
    assert stopped == {} ==> done + stopped == done;
    if user !in luck.userReads || user !in db.users || db.users[user].None? || db.users[user].value !in db.plans {
      assert stopped == {};
      return;
    }
    var plan := db.plans[db.users[user].value];
    var usage := db.GetUserAggregate(user, month);
    StopAllKeepsAggregate(t, done, user, month);
    if WithinPlan(plan, usage) {
      assert stopped == {};
      return;
    }
    var cost := OverageCostCents(plan, usage);
    var budget := BudgetRow(db.View(), user, month);
    if cost <= budget {
      assert stopped == {};
      return;
    }
    if Hetzner !in db.providers {
      assert stopped == {};
      return;
    }
    StopVpsesOf(db, t, done, luck, month, user, running, rows, loaded);
  }

  /**
   enforce_limits: the users with a running Hetzner VPS are visited in whatever order the
   hash set yields them; the outcome is the same for every order.
   */
  method EnforceLimits(db: Database, luck: Luck, month: Month)
    modifies db
    ensures db.View() == Enforced(old(db.View()), luck, month)
  {
    hide ConfigLoaded, StopAll, OverBudget;
    ghost var t := db.View();
    var running := ListByState(db.View(), Running, db.nextVps);
    var rows := db.vpses;
    var loaded := LoadConfigs(db, running, luck);
    var hetznerUsers := set v | v in running && OnHetzner(loaded, rows[v]) :: rows[v].userId;
    var users := hetznerUsers;
    NoneStopped(t);
    assert StopSetFor(t, luck, month, {}, running) == {};
    assert hetznerUsers - users == {};
    while users != {}
      invariant users <= hetznerUsers
      invariant db.View() == StopAll(t, StopSetFor(t, luck, month, hetznerUsers - users, running))
      decreases users
    {
      var user :| user in users;
      ghost var done := StopSetFor(t, luck, month, hetznerUsers - users, running);
      EnforceUser(db, t, done, luck, month, user, running, rows, loaded);
      users := users - {user};
      assert StopSetFor(t, luck, month, hetznerUsers - users, running)
          == done + StopSetFor(t, luck, month, {user}, running);
    }
    assert hetznerUsers - users == hetznerUsers;
    assert StopSetFor(t, luck, month, hetznerUsers, running) == StopSet(t, luck, month);
  }

  lemma NoneStopped(t: Tables)
    ensures StopAll(t, {}) == t
  {
  }

  // -- What enforcement achieves -----------------------------------------------------

  /** The VPS runs on a config whose provider is Hetzner. */
  predicate HetznerVps(t: Tables, v: VpsId) {
    v in t.vpses && t.vpses[v].configId in t.configs
    && ParseProvider(t.configs[t.vpses[v].configId]) == Some(Hetzner)
  }

  /** Every load, stop and write of the pass succeeds, and the provider is registered. */
  ghost predicate AllWell(t: Tables, luck: Luck) {
    && Hetzner in t.providers && t.users.Keys <= luck.userReads
    && t.vpses.Keys <= luck.configLoads && t.vpses.Keys <= luck.stops && t.vpses.Keys <= luck.writes
  }

  /** The gate would refuse the user's next request. */
  ghost predicate GateShut(t: Tables, u: UserId, month: Month)
  {
    HasPlan(t, u) && !GateAdmitsUser(t, u, month)
  }

  lemma OverBudgetIsGateShut(t: Tables, u: UserId, month: Month)
    ensures OverBudget(t, u, month) <==> GateShut(t, u, month)
    ensures OverBudget(t, u, month) ==> u in t.users
  {
    if HasPlan(t, u) {
      GateAndMonitorAgree(t.plans[t.users[u].value], Aggregate(t, u, month), BudgetRow(t, u, month));
    }
  }

  /** The pass looks for exactly the users who are on a plan and may not spend. */
  lemma OverBudgetIff(t: Tables, u: UserId, month: Month)
    ensures OverBudget(t, u, month) <==>
              u in t.users && t.users[u].Some? && t.users[u].value in t.plans && !MaySpend(t, u, month)
  {
    hide Aggregate, OverageCostCents;
  }

  /**
   Row by row, whatever goes well: exactly the running VPSes with a VM whose config says
   "hetzner" and got loaded for one of them, whose user was read and may not spend, and
   whose stop and write succeed, become stopped; no other row changes.
   */
  lemma EnforcementEffect(t: Tables, luck: Luck, month: Month, v: VpsId)
    requires v in t.vpses
    ensures var t', row := Enforced(t, luck, month), t.vpses[v];
            && t' == t.(vpses := t'.vpses) && t'.vpses.Keys == t.vpses.Keys
            && (t'.vpses[v] == row || t'.vpses[v] == row.(state := Stopped))
            && (row.state == Running ==> (t'.vpses[v] != row <==>
                  && v < t.nextVps && row.configId in t.configs && t.configs[row.configId] == "hetzner"
                  && LoadedForSome(t, luck, row.configId)
                  && row.userId in luck.userReads && row.userId in t.users && t.users[row.userId].Some?
                  && t.users[row.userId].value in t.plans && !MaySpend(t, row.userId, month)
                  && Hetzner in t.providers && row.vmId.Some? && v in luck.stops && v in luck.writes))
            && (row.state != Running ==> t'.vpses[v] == row)
  {
    hide MaySpend, OverBudget;
    OverBudgetIff(t, t.vpses[v].userId, month);
  }

  /** The attempt to load the config for some running VPS succeeds. */
  ghost predicate LoadedForSome(t: Tables, luck: Luck, c: ConfigId) {
    exists w :: w in luck.configLoads && IsRunning(t, w) && t.vpses[w].configId == c
  }

  /**
   When all goes well, the VPSes running afterwards are exactly those that ran before,
   less the Hetzner VPSes of users the gate refuses: the life-cycle invariant rules out a
   running VPS without a VM.
   */
  lemma EnforcementStopsOverBudget(t: Tables, luck: Luck, month: Month, v: VpsId)
    requires Linked(t) && AllWell(t, luck) && v in t.vpses
    ensures Enforced(t, luck, month).vpses[v].state == Running
       <==> t.vpses[v].state == Running && !(HetznerVps(t, v) && GateShut(t, t.vpses[v].userId, month))
  {
    hide OverBudget, GateShut;
    OverBudgetIsGateShut(t, t.vpses[v].userId, month);
    if t.vpses[v].state == Running {
      assert IsRunning(t, v) && t.vpses[v].vmId.Some?;
      assert HetznerVps(t, v) <==> SeenOnHetzner(t, luck, v);
    }
  }

  /** Whatever goes well in the second pass about an existing row also went well in the first. */
  predicate Covers(t: Tables, first: Luck, second: Luck) {
    && t.vpses.Keys * second.configLoads <= first.configLoads && t.users.Keys * second.userReads <= first.userReads
    && t.vpses.Keys * second.stops <= first.stops && t.vpses.Keys * second.writes <= first.writes
  }

  /** A pass no luckier than the one before it changes nothing; after one that went all well, no pass does. */
  lemma SecondPassChangesNothing(t: Tables, first: Luck, second: Luck, month: Month)
    requires (Covers(t, first, second) || AllWell(t, first))
    ensures var t' := Enforced(t, first, month);
            Enforced(t', second, month) == t'
  {
    var t' := Enforced(t, first, month);
    forall v | v in t'.vpses ensures !Stops(t', second, month, v) {
      if Stops(t', second, month, v) {
        StoppedAlready(t, first, second, month, v);
      }
    }
    assert StopSet(t', second, month) == {};
    NoneStopped(t');
  }

  lemma StoppedAlready(t: Tables, first: Luck, second: Luck, month: Month, v: VpsId)
    requires (Covers(t, first, second) || AllWell(t, first))
    requires var t' := Enforced(t, first, month); Stops(t', second, month, v)
    ensures Stops(t, first, month, v)
  {
    hide Aggregate, CountedRows, MonitorStops, BudgetRow;
    var t' := Enforced(t, first, month);
    var c := t.vpses[v].configId;
    var w :| w in second.configLoads && IsRunning(t', w) && t'.vpses[w].configId == c;
    assert w in first.configLoads && IsRunning(t, w) && t.vpses[w].configId == c;
    OverBudgetKept(t, StopSet(t, first, month), t.vpses[v].userId, month);
  }

  lemma OverBudgetKept(t: Tables, vs: set<VpsId>, u: UserId, month: Month)
    requires AllRunning(t, vs)
    ensures OverBudget(StopAll(t, vs), u, month) <==> OverBudget(t, u, month)
    ensures OverBudget(t, u, month) ==> u in t.users
  {
    StopAllKeepsAggregate(t, vs, u, month);
  }

  /** The VPS could be stopped through the API. */
  ghost predicate Stoppable(t: Tables, v: VpsId) {
    IsRunning(t, v) && t.vpses[v].vmId.Some? && ProviderFor(t, t.vpses[v].configId).Some?
  }

  lemma {:induction false} StopsAsRequests(t: Tables, vs: set<VpsId>) returns (rs: seq<Request>)
    requires forall v :: v in vs ==> Stoppable(t, v)
    ensures forall r :: r in rs ==> r.AdminStopVps?
    ensures Run(t, rs) == StopAll(t, vs)
    decreases vs
  {
    if vs == {} {
      NoneStopped(t);
      rs := [];
    } else {
      var v :| v in vs;
      assert Stoppable(t, v);
      var r := Request.AdminStopVps(v, true);
      ApplyOne(t, SetState(v, Stopped));
      var t1 := Handle(t, r);
      NoneStopped(t);
      StopOneMore(t, {}, v);
      assert {} + {v} == {v};
      StopOthersToo(t, vs, v);
      var rest := StopsAsRequests(t1, vs - {v});
      rs := [r] + rest;
      assert rs[0] == r && rs[1..] == rest;
    }
  }

  lemma StopOthersToo(t: Tables, vs: set<VpsId>, v: VpsId)
    requires v in vs && forall w :: w in vs ==> Stoppable(t, w)
    ensures StopAll(StopAll(t, {v}), vs - {v}) == StopAll(t, vs)
    ensures forall w :: w in vs - {v} ==> Stoppable(StopAll(t, {v}), w)
  {
    var t1, t2 := StopAll(StopAll(t, {v}), vs - {v}), StopAll(t, vs);
    assert t1.vpses.Keys == t2.vpses.Keys;
    assert forall w :: w in t1.vpses ==> t1.vpses[w] == t2.vpses[w];
    assert t1.vpses == t2.vpses;
  }

  /**
   A pass has the effect of a run of stop requests, so everything proved of runs, from the
   one-to-one attachment to the life-cycle histories, holds with the monitor at work.
   */
  lemma EnforcementIsARun(t: Tables, luck: Luck, month: Month) returns (rs: seq<Request>)
    ensures forall r :: r in rs ==> r.AdminStopVps?
    ensures Run(t, rs) == Enforced(t, luck, month)
    ensures Consistent(t) ==> Consistent(Enforced(t, luck, month))
  {
    rs := StopsAsRequests(t, StopSet(t, luck, month));
    if Consistent(t) {
      RunKeeps(t, rs);
    }
  }
}
