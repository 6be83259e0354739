# Slopbox control plane: a verified model

Slopbox rents virtual private servers (VPSes) to users and runs an agent on each. Its
control plane is a web service over a database: handlers create agents and provision,
start, stop and destroy their VPSes; a monitor polls usage and stops VPSes whose owners
have used up plan and budget; a proxy counts and gates the agents' traffic; a WebSocket
relay connects a browser with an agent's gateway. This project models that control plane
in Dafny and proves what its parts promise, alone and under interleaving.

`dafny verify dfyconfig.toml` checks all of it.

## How the model is laid out

| files | what they hold |
|---|---|
| `Store`, `Handlers`, `ControlPlane` | the tables and SQL statements; what each handler issues when it runs alone; the handlers as methods that change a `Database` in place, each proved to do what `Issue` says |
| `Effects` | each handler's reply and effect, said on the rows alone |
| `Lifecycle` | invariants and histories over every run of handlers one at a time |
| `Interleaving`, `Ownership`, `Quota`, `QuotaTight`, `AgentQuotaTight`, `Embedding`, `Alone`, `MonitorSteps`, `Finality` | the same handlers as small-step programs that interleave freely and may stop anywhere; safety, whose rows a handler may touch, quota bounds and the runs that reach them; every sequential run and every enforcement pass is one of the interleavings, and a handler left alone does what it does in sequence; when destroyed is final |
| `Metering`, `Polling` | monthly counters, aggregates, the delta accumulator |
| `Rounding`, `OverageCost` | binary64 rounding to nearest even over the reals; the overage charge, computed and exact |
| `Decision`, `Gate`, `Monitor`, `Deployment` | the three consumers of the overage decision, as predicates and as they run over the database; whole runs with requests, polls, enforcement and charges |
| `Json`, `Hex`, `Handshake`, `Transducer`, `Relay`, `RelayRuns` | JSON trees by path; the handshake rewrite; the relay's images; its three tasks as a state machine and as a class; what ends them and what can always be relayed |
| `Tunnel` | the CONNECT tunnel's copy loops, counters, select and abort |
| `TextLines`, `ShellQuote`, `SpritesProvisioning`, `VpsSpecs` | reading lines and separators back; shell quoting against the shell's word rules; provisioning a sprite, all or compensate; what provisioning hands to the provider |

Functions of the tables are the specification; the methods of `Database`, `Connection`,
`CopyTask` and `SpritesClient` change fields, queues, buffers and logs in place and are
proved against it. Provider answers, collector readings, hash-map order, months and
interleavings are parameters, so every statement is for all of them. HMAC and JSON text
are function parameters.

## What the proofs found

- **The quota can be overshot by more than concurrent provisioning explains.** One would
  expect that with K provision handlers of a user in flight the live VPSes stay within
  the plan limit plus K - 1. They do not: start, stop and the monitor check a VPS, call the
  provider, and then write `running` or `stopped` unconditionally. If the VPS is destroyed
  in between, the write brings it back to life after its quota slot was given away. Such
  a write is stale while its VPS is destroyed; pending writes to live VPSes do no harm.
  `LeastSlack` shows that with at most m stale writes at a time the live VPSes exceed the
  limit by at most K - 1 + m, and by no less: `QuotaBoundIsReached` builds the run for
  every limit, K and m. So the expected bound holds exactly when no write is ever stale
  (`PlainQuotaIffNoneStale`). For agents, whose rows are never brought back, it holds and is
  the least one (`LeastAgentSlack`).
- **Destroyed is final except for such writes.** `DestroyedForGoodIff`: a destroyed VPS
  stays destroyed in every continuation exactly when no handler has a live write to it
  pending and none is provisioning it.
- **Gate and usage endpoint agree one way only.** The gate sees the user's total, the
  endpoint one VPS. Two VPSes of 60 bytes each under a limit of 100 and a budget of zero:
  the gate refuses, the endpoint says allowed (`ReportMayAllowWhatGateRefuses`).
  `EndpointAgreesWithGateIff` and the two lemmas before it give the exact conditions on any
  tables, `AgreementInDeployment` on the tables a deployment can reach: there the endpoint
  denies what the gate admits only under a negative budget on a plan with a negative disk
  limit, and, the disk limit not being negative, allows what the gate refuses exactly when
  the user is outside plan and budget and this VPS inside the bandwidth limit. Gate and
  monitor always decide alike.
- **CPU and memory are never charged.** A provider comment
  (`backend/crates/cb-infra/src/lib.rs:88-92`) says Sprites meters both, but the code meters
  bandwidth only for every known provider, and provisioning refuses unknown ones.
  `OnlyBandwidthIsMetered`: over every run, whatever the collector answers, a poll changes
  nothing. What the accumulator would charge, on any tables, is `ChargesAreRises`.
- **The charge is within one cent of the exact ceiling up to 2^50 cents**, and exact for
  whole units and for bandwidth alone while the products stay within 53 bits
  (`WholeUnitsCost`, `BandwidthCostExact`).
- An environment key with a single quote is not quoted correctly; every other key and every
  value is (`CommandReadsBackIff`), and the keys that provisioning sets have none
  (`EnvSurvivesShell`).

## Model

| member | source | states |
|---|---|---|
| ControlPlane.Database.InsertAgentRow | backend/crates/cb-db/src/models.rs:528-538 | one new agent row under a fresh id, with no VPS |
| ControlPlane.Database.DeleteAgentRow | backend/crates/cb-db/src/models.rs:575-581 | the agent's row goes, nothing else changes |
| ControlPlane.Database.Assign | backend/crates/cb-db/src/models.rs:562-573 | only the agent's vps_id changes, and only if the row exists |
| ControlPlane.Database.InsertVpsRow | backend/crates/cb-db/src/models.rs:405-421 | one new row, provisioning, with no VM, under a fresh id |
| ControlPlane.Database.UpdateProviderRefs | backend/crates/cb-db/src/models.rs:460-473 | only VM id and address of the row change |
| ControlPlane.Database.UpdateState | backend/crates/cb-db/src/models.rs:475-482 | only the row's state changes, whatever it was |
| ControlPlane.Database.UpdatePlan | backend/crates/cb-db/src/models.rs:291-298 | only the user's plan changes |
| ControlPlane.Database.UpdateUsage | backend/crates/cb-db/src/models.rs:484-505 | only the row's gauges change |
| ControlPlane.Database.AddBandwidth | backend/crates/cb-db/src/models.rs:623-635 | the bytes are added to the month's row, created if missing; fails for an unknown VPS |
| ControlPlane.Database.AddCpuMemory | backend/crates/cb-db/src/models.rs:638-657 | both deltas are added to the month's row, created if missing; fails for an unknown VPS |
| ControlPlane.Database.SetBudget | backend/crates/cb-db/src/models.rs:757-769 | the month's budget reads back as set, negative or not, and no other budget changes |
| ControlPlane.Database.GetUserAggregate | backend/crates/cb-db/src/models.rs:685-705 | the rows of the join, added in any order, sum to the total over the month's rows of the user's VPSes that are not destroyed |
| ControlPlane.Database.CreateAgent | backend/crates/cb-api/src/routes/agents.rs:13-37 | all checks and their errors in order; an agent is inserted only below the plan's limit |
| ControlPlane.Database.DeleteAgent | backend/crates/cb-api/src/routes/agents.rs:96-129 | only the owner's agent; its live VPS is destroyed first |
| ControlPlane.Database.RemoveAgent | backend/crates/cb-api/src/routes/agents.rs:109-128 | the attached live VPS is marked destroyed, then the row is deleted |
| ControlPlane.Database.ProvisionVps | backend/crates/cb-api/src/routes/vps.rs:18-142 | all checks and their errors in order; insert and assign come before the provider call, refs and running after it, and a failed call leaves the row provisioning and attached; what the provider is given is `BuildSpec` |
| VpsSpecs.BuildSpec | backend/crates/cb-api/src/routes/vps.rs:80-117 | the five variables, the four proxy names with one URL that carries the agent's credentials, and the config and workspace files in order |
| VpsSpecs.WorkspacePaths | backend/crates/cb-api/src/routes/vps.rs:94-117 | three files in the workspace, of which the identity names the agent |
| VpsSpecs.ProxyReadsCredentialsIff | backend/crates/cb-api/src/proxy.rs:132-134 | between scheme and address the URL carries what the proxy splits at its first colon into the agent's id and token, exactly when the id has no colon |
| VpsSpecs.EnvSurvivesShell | backend/crates/cb-api/src/routes/vps.rs:81-92 | every variable set here is read back by the shell as it was meant, whatever its value |
| VpsSpecs.SpriteHasAll | backend/crates/cb-api/src/routes/vps.rs:94-117 | a sprite provisioned from it has all four files and the env file with every variable, and starts the gateway with it |
| ControlPlane.Database.FindProvider | backend/crates/cb-api/src/routes/vps.rs:227-243 | refused exactly when no provider is registered for the config: not found for a missing config, internal otherwise |
| ControlPlane.Database.Toggle | backend/crates/cb-api/src/routes/vps.rs:151-169 | the state is written only from the expected state, with a VM, a provider and its consent |
| ControlPlane.Database.StartVps | backend/crates/cb-api/src/routes/vps.rs:144-171 | stopped to running, for the owner's attached VPS only |
| ControlPlane.Database.StopVps | backend/crates/cb-api/src/routes/vps.rs:173-200 | running to stopped, for the owner's attached VPS only |
| ControlPlane.Database.DestroyVps | backend/crates/cb-api/src/routes/vps.rs:202-224 | destroyed, then detached from the agent; a conflict when already destroyed |
| ControlPlane.Database.AdminStopVps | backend/crates/cb-api/src/routes/admin.rs:213-237 | running to stopped for any VPS, the provider looked up before the VM |
| ControlPlane.Database.DetachFrom | backend/crates/cb-api/src/routes/admin.rs:258-265 | exactly the listed agents that held the VPS let go of it |
| ControlPlane.Database.RetireVps | backend/crates/cb-api/src/routes/admin.rs:255-265 | the state change first, then the owner's agents that hold the VPS, listed afterwards |
| ControlPlane.Database.AdminDestroyVps | backend/crates/cb-api/src/routes/admin.rs:239-268 | any VPS that is not destroyed is retired |
| ControlPlane.Database.AdminDeleteAgent | backend/crates/cb-api/src/routes/admin.rs:281-306 | any agent, its live VPS destroyed first |
| ControlPlane.Database.CleanupStuck | backend/crates/cb-api/src/routes/admin.rs:383-412 | every VPS provisioning when the sweep began is retired, and their number returned |
| ControlPlane.Database.UpdateStatus | backend/crates/cb-db/src/models.rs:306-313 | only the user's status changes |
| ControlPlane.Database.SetUserStatus | backend/crates/cb-api/src/routes/admin.rs:165-186 | the status is set; a user activated without a plan first gets the demo plan if there is one; a plan once set stays |
| Effects.ProviderNames | backend/crates/cb-infra/src/lib.rs:74-85 | the names "fly", "hetzner" and "sprites" mean their providers, and no other text means any |
| Effects.CreateAgentEffect | backend/crates/cb-api/src/routes/agents.rs:13-37 | an agent row is inserted, and the reply is done, exactly when the user's plan exists and the user's agent rows are fewer than its limit; which error otherwise |
| Effects.DeleteAgentEffect | backend/crates/cb-api/src/routes/agents.rs:96-128 | done exactly for the owner's agent; its row goes, and its VPS, if live, is destroyed |
| Effects.AdminDeleteAgentEffect | backend/crates/cb-api/src/routes/admin.rs:281-306 | done exactly for an existing agent; its row goes, and its VPS, if live, is destroyed |
| Effects.ProvisionEffect | backend/crates/cb-api/src/routes/vps.rs:18-142 | a VPS row is inserted exactly when the agent is the user's and has none, the plan exists, the user's live VPSes are fewer than its limit, the config is on the plan and its provider registered; done exactly when the provider also answers, and then the row runs with that VM id and address, held by that agent |
| Effects.ProvisionErrors | backend/crates/cb-api/src/routes/vps.rs:26-72 | which error answers a refused provisioning, check by check |
| Effects.StartEffect | backend/crates/cb-api/src/routes/vps.rs:144-171 | done exactly when the owner's attached VPS is stopped, has a VM, its provider is registered and consents; only its state changes |
| Effects.StopEffect | backend/crates/cb-api/src/routes/vps.rs:173-200 | done exactly when the owner's attached VPS is running, has a VM, its provider is registered and consents; only its state changes |
| Effects.AdminStopEffect | backend/crates/cb-api/src/routes/admin.rs:213-237 | the same for any VPS, and the errors in their other order |
| Effects.DestroyEffect | backend/crates/cb-api/src/routes/vps.rs:202-224 | done exactly when the agent is the user's and its VPS not yet destroyed; that row is destroyed, that agent detached, nothing else changes |
| Effects.AdminDestroyEffect | backend/crates/cb-api/src/routes/admin.rs:239-268 | done exactly for an existing VPS that is not destroyed; it is destroyed and its owner's agents that hold it are detached |
| Effects.CleanupEffect | backend/crates/cb-api/src/routes/admin.rs:383-411 | exactly the provisioning VPSes are destroyed, and exactly their owners' agents that hold one are detached; their number is returned |
| Effects.SetUserStatusEffect | backend/crates/cb-api/src/routes/admin.rs:165-186 | done exactly for an existing user; status and plan afterwards |
| Effects.OwnersOnly | backend/crates/cb-api/src/routes/vps.rs:246-266 | done by a user's handler on an agent means the agent is the user's; for anyone else's agent nothing changes and the answer is not found |
| Lifecycle.RetireEffect | backend/crates/cb-api/src/routes/admin.rs:255-265 | in consistent tables the detaching loop frees exactly the one agent that holds the VPS |
| Lifecycle.HandleKeeps | backend/crates/cb-api/src/routes/vps.rs:74-135 | each handler, failed provider calls included, keeps the link between agents and VPSes and both plan limits |
| Lifecycle.EquallyMany | backend/crates/cb-db/src/models.rs:437-445 | a user has as many live VPSes as attached agents |
| Lifecycle.AttachmentIsOneToOne | backend/crates/cb-api/src/routes/admin.rs:257-265 | after every run from a fresh deployment, attached agents and live VPSes correspond one to one, equally many per user and within both plan limits |
| Lifecycle.HistoriesFollowLifeCycle | backend/crates/cb-api/src/routes/vps.rs:144-224 | over every run, statement by statement, each row's states are a path of the life cycle with destroyed absorbing; the VM id is written once; owner, config and agent never change |
| Interleaving.InterleavedSafety | backend/crates/cb-api/src/routes/vps.rs:74-135 | in every state of every interleaving, with handlers abandoned anywhere: running or stopped means a VM, an agent's VPS exists and is its user's, and no two agents share one |
| Interleaving.NextSafe | backend/crates/cb-api/src/routes/vps.rs:74-135 | each step of any handler keeps the tables safe and what every other handler has captured valid |
| Ownership.FindAgentStep | backend/crates/cb-api/src/routes/vps.rs:246-266 | only the owner's request goes on past the loaded agent, and loading writes nothing |
| Ownership.FindVpsStep | backend/crates/cb-api/src/routes/vps.rs:151-217 | what each request plans to write, by the VPS row as read and the provider's consent |
| Ownership.TouchesOwnRowsOnly | backend/crates/cb-api/src/routes/vps.rs:18-224 | over every trace, whoever runs in between, each statement a user's handler issues concerns its own agent, owned by that user, and that user's VPSes |
| Quota.InterleavedVpsQuota | backend/crates/cb-api/src/routes/vps.rs:43-75 | live VPSes plus inserts already allowed exceed the plan limit by at most the provision handlers in flight less one, plus the destroyed VPSes with a running or stopped write pending; without such a VPS, one provision handler never exceeds the limit |
| Quota.InterleavedAgentQuota | backend/crates/cb-api/src/routes/agents.rs:18-31 | agents plus inserts already allowed exceed the plan limit by at most the create handlers in flight less one |
| QuotaTight.QuotaBoundIsReached | backend/crates/cb-api/src/routes/vps.rs:194-197 | for every user, every limit of at least one, K of at least one and every m, a run with K provision handlers and m stale writes leaves limit + K - 1 + m live VPSes |
| QuotaTight.LeastSlack | backend/crates/cb-api/src/monitor.rs:221-249 | no run exceeds the limit by more than a given amount exactly when that amount is at least K - 1 + m |
| QuotaTight.PlainQuotaIffNoneStale | backend/crates/cb-api/src/routes/vps.rs:50-75 | the bound K - 1 holds over all runs of any user exactly when no write is ever stale |
| AgentQuotaTight.AgentBoundIsReached | backend/crates/cb-api/src/routes/agents.rs:18-34 | for every user, every limit and every K of at least one, K create handlers that all count before any inserts leave limit + K - 1 agents |
| AgentQuotaTight.LeastAgentSlack | backend/crates/cb-api/src/routes/agents.rs:18-34 | no run with K create handlers exceeds the limit by more than a given amount exactly when that amount is at least K - 1 |
| Finality.TraceRevivalIff | backend/crates/cb-db/src/models.rs:475-482 | in every trace a destroyed VPS becomes live at exactly the steps that write running or stopped to it |
| Finality.DestroyedForGoodIff | backend/crates/cb-api/src/routes/vps.rs:190-224 | a destroyed VPS stays destroyed in every continuation exactly when no handler has a live write to it pending and none is provisioning it |
| Embedding.HandledAlone | backend/crates/cb-api/src/routes/vps.rs:18-224 | what a handler does alone, the small steps of its own first handler do when nothing else is begun |
| Embedding.RunIsInterleaving | backend/crates/cb-api/src/routes/admin.rs:213-412 | every sequential run of handlers is a run of the interleaved system |
| Alone.AloneIsHandled | backend/crates/cb-api/src/routes/vps.rs:18-224 | the converse: a handler whose small steps run to their end with nothing in between has done what the same call does in sequence, for some answer of the provider |
| Alone.ComesAndGoes | backend/crates/cb-api/src/routes/vps.rs:18-224 | beside whatever is in flight any request may begin and any handler may stop for good, changing no table |
| MonitorSteps.EnforcementInSteps | backend/crates/cb-api/src/monitor.rs:214-249 | every enforcement pass is a run of the monitor's small steps |
| MonitorSteps.MonitorOnlyStops | backend/crates/cb-api/src/monitor.rs:214-249 | left alone and run to its end, the monitor has stopped some running VPSes that have a VM, and changed nothing else |
| Metering.ChargesConfluent | backend/crates/cb-db/src/models.rs:623-657 | increments may arrive in any order: the table is the same |
| Metering.ChargesConserved | backend/crates/cb-db/src/models.rs:623-657 | the table's sums grow by exactly the amounts added |
| Metering.RowConserved | backend/crates/cb-db/src/models.rs:623-657 | and each row by the amounts added to it |
| Metering.UpsertAdds | backend/crates/cb-db/src/models.rs:623-657 | axis by axis: one row grows by the amount, a missing row counting as zeros, and every other row stays |
| Metering.AggregateLeavesOutDestroyed | backend/crates/cb-db/src/models.rs:685-698 | the month's total is the aggregate plus exactly the rows of destroyed VPSes |
| Metering.AggregateIgnoresToggle | backend/crates/cb-db/src/models.rs:475-482 | starting and stopping changes no aggregate |
| Metering.AggregateDropsDestroyed | backend/crates/cb-db/src/models.rs:685-698 | destroying a VPS takes its row, and no other, out of its user's aggregate |
| Metering.AggregateTakesCharge | backend/crates/cb-db/src/models.rs:623-698 | a charge to a live VPS shows in its user's aggregate of that month and in no other user's |
| Metering.AggregateCountsCharge | backend/crates/cb-db/src/models.rs:685-698 | a charge counts in an aggregate, axis by axis, exactly for the VPS's user, in the month charged, while the VPS is not destroyed; otherwise the aggregate stays |
| Metering.AggregateOfNothing | backend/crates/cb-db/src/models.rs:685-698 | without period rows every aggregate is zero |
| Rounding.RelativeError | backend/crates/cb-db/src/models.rs:107-119 | a rounding moves a value by at most 2^-53 of it |
| Rounding.Monotone | backend/crates/cb-db/src/models.rs:107-119 | rounding never reverses an order, for either sign |
| Rounding.IntegersExact | backend/crates/cb-db/src/models.rs:108-118 | integers of at most 53 bits are converted exactly |
| Rounding.CorrectlyRounded | backend/crates/cb-db/src/models.rs:108-118 | the rounded value has at most 53 bits and no value of 53 bits is nearer |
| Rounding.TiesToEven | backend/crates/cb-db/src/models.rs:108-118 | half way between two neighbours of 53 bits the even one is taken, for either sign |
| Rounding.Scales | backend/crates/cb-db/src/models.rs:108-118 | doubling and halving commute with rounding |
| OverageCost.CostMonotone | backend/crates/cb-db/src/models.rs:106-120 | the charge never falls when usage or a rate grows, and never rises when a limit grows |
| OverageCost.CostZeroIff | backend/crates/cb-db/src/models.rs:106-120 | the charge is zero exactly when every axis is within its limit or free |
| OverageCost.WithinCostsNothing | backend/crates/cb-db/src/models.rs:103-120 | inside the plan the charge is zero, whatever the rates, negative ones included |
| OverageCost.SixRoundings | backend/crates/cb-db/src/models.rs:107-119 | the computed cost is the exact one within six relative roundings |
| OverageCost.CostWithinOneCent | backend/crates/cb-db/src/models.rs:107-119 | below 2^50 cents the charge is the exact ceiling or one cent off |
| OverageCost.WholeUnitsCost | backend/crates/cb-db/src/models.rs:106-120 | units of 1073741824 bytes, 3600000 ms and 3686400 MB-seconds over the limits cost exactly the sum of their numbers times their rates, of either sign, while the numbers stay within 53 bits |
| OverageCost.BandwidthCostExact | backend/crates/cb-db/src/models.rs:106-120 | bandwidth alone costs exactly the least number of cents that pays for every byte over the limit |
| OverageCost.CentsAtLeast | backend/crates/cb-db/src/models.rs:119-119 | the charge is the float cost rounded up, clamped to 64 bits |
| Decision.GateAdmitsIff | backend/crates/cb-api/src/proxy.rs:159-196 | the gate admits exactly a user on an existing plan who is over no limit, or whose charge is within the budget row of this user and month, zero if there is none |
| Decision.OwnBudgetDecides | backend/crates/cb-db/src/models.rs:734-754 | budgets of other users and months change neither gate nor report, and a missing row is a budget of zero |
| Decision.GateIsCostTest | backend/crates/cb-api/src/proxy.rs:176-193 | the gate's two stages are the test of cost against budget, except exactly inside the plan under a negative budget |
| Decision.RowWithinAggregate | backend/crates/cb-db/src/models.rs:685-698 | no live VPS of a user has used more than the user, on any axis |
| Decision.GateWithoutReportIff | backend/crates/cb-api/src/routes/usage.rs:38-74 | the gate admits and the endpoint denies exactly inside the plan, under a negative budget, with a reported axis of the VPS over its limit; for a live VPS of the user that axis is the disk |
| Decision.ReportWithoutGateIff | backend/crates/cb-api/src/routes/usage.rs:65-74 | the endpoint allows and the gate refuses exactly outside plan and budget with no reported axis of the VPS over its limit; then the VPS is not the user's only live one or an unreported counter is over |
| Decision.ReportMayAllowWhatGateRefuses | backend/crates/cb-api/src/proxy.rs:170-193 | two live VPSes of 60 bytes, a limit of 100 and no budget: reported allowed, refused by the gate |
| Decision.GateMayAdmitWhatReportDenies | backend/crates/cb-api/src/routes/usage.rs:47-74 | a disk over its limit and a negative budget: admitted by the gate, reported not allowed |
| Decision.AggregateOfOnlyLive | backend/crates/cb-db/src/models.rs:685-698 | a user's only live VPS carries the whole aggregate |
| Decision.EndpointAgreesWithGateIff | backend/crates/cb-api/src/routes/usage.rs:38-74 | gate and endpoint say the same exactly when: inside the plan, the budget is not negative or no reported axis is over; outside it, the cost is within the budget or a reported axis is over |
| Deployment.AgreementInDeployment | backend/crates/cb-api/src/routes/usage.rs:12-85 | in every state a deployment reaches, for every agent's VPS, when gate and endpoint part in either direction |
| Gate.CheckUsage | backend/crates/cb-api/src/proxy.rs:159-196 | admitted exactly when the user may spend: on a plan, and within its limits or the month's own budget row, zero if missing; each refusal under its own condition |
| Gate.Admit | backend/crates/cb-api/src/proxy.rs:86-107 | an agent whose VPS's config says "hetzner" is admitted without the gate, any other exactly when the VPS's owner may spend; each refusal under its own condition |
| Gate.GetUsage | backend/crates/cb-api/src/routes/usage.rs:12-85 | who gets a report, the four axes as it shows them, the decision as a matter of the axes shown and of cost against budget, the budget row or zero, and that it says allowed whenever a user with a budget of at least zero passes the gate |
| Polling.PollEachFor | backend/crates/cb-api/src/monitor.rs:62-121 | a poll does to each listed VPS what polling it alone would do |
| Polling.PollEffect | backend/crates/cb-api/src/monitor.rs:60-124 | on the rows: exactly for a running VPS on a config that names no known provider, with readings collected, the month's row takes both rises if there is one and it can be written, and the gauges become the readings if they can; every other VPS keeps its rows |
| Polling.RiseCases | backend/crates/cb-api/src/monitor.rs:80-97 | only a rise between two present readings counts |
| Polling.ChargesAreRises | backend/crates/cb-api/src/monitor.rs:60-124 | over any run with successful writes, every VPS is charged, on each axis and over all months, the sum of the positive increments between its consecutive readings |
| Polling.RisesBound | backend/crates/cb-api/src/monitor.rs:80-97 | never less than last minus first when no reading is missing, and equal to it when none falls |
| Polling.StubPollChangesNothing | backend/crates/cb-api/src/monitor.rs:28-37 | with the stub collector a poll changes nothing |
| Deployment.OnlyBandwidthIsMetered | backend/crates/cb-api/src/monitor.rs:71-75 | in every state of every run of requests, polls, enforcement, bandwidth charges and budgets from a fresh deployment, for any collector: a poll changes nothing, every period row has zero CPU and memory, and no gauge was ever written |
| Deployment.DeploymentStaysConsistent | backend/crates/cb-api/src/monitor.rs:48-56 | the one-to-one attachment and both plan limits hold over all these runs |
| Monitor.PollMetrics | backend/crates/cb-api/src/monitor.rs:60-124 | the loop over the running VPSes, against the rows read at its start |
| Monitor.PollOneMetrics | backend/crates/cb-api/src/monitor.rs:63-120 | one VPS: skipped unless metered; the positive deltas are charged to the month, then the gauges written |
| Monitor.LoadConfigs | backend/crates/cb-api/src/monitor.rs:133-141 | a config is known exactly when the load succeeded for some running VPS that uses it |
| Monitor.StopVpsesOf | backend/crates/cb-api/src/monitor.rs:214-249 | the user's running Hetzner VPSes are stopped, save where the stop or the write fails, and no others |
| Monitor.EnforceUser | backend/crates/cb-api/src/monitor.rs:156-249 | one user's turn, whatever users came before |
| Monitor.EnforceLimits | backend/crates/cb-api/src/monitor.rs:130-251 | for every order of the user set the same VPSes are stopped, and nothing else changes |
| Monitor.OverBudgetIff | backend/crates/cb-api/src/monitor.rs:156-197 | the pass looks for exactly the users on a plan who may not spend |
| Monitor.EnforcementEffect | backend/crates/cb-api/src/monitor.rs:130-251 | row by row, whatever goes well: exactly the running VPSes with a VM whose config says "hetzner" and was loaded for one of them, whose user was read and may not spend, and whose stop and write succeed, become stopped |
| Monitor.StopAllKeepsAggregate | backend/crates/cb-api/src/monitor.rs:170-176 | stopping VPSes on the way changes no later user's usage |
| Monitor.EnforcementStopsOverBudget | backend/crates/cb-api/src/monitor.rs:126-251 | when all goes well, a VPS runs afterwards exactly if it ran before and is not a Hetzner VPS of a user the gate refuses; no running VPS is skipped for want of a VM |
| Monitor.SecondPassChangesNothing | backend/crates/cb-api/src/monitor.rs:130-251 | a second pass, no luckier than the first or after one that went all well, changes nothing |
| Monitor.EnforcementIsARun | backend/crates/cb-api/src/monitor.rs:130-251 | a pass has the effect of a run of stop requests, so it keeps all that runs keep |
| Hex.DecodeEncode | backend/crates/cb-api/src/gateway_proxy.rs:42-42 | the hex text of a signature decodes to its bytes |
| Hex.EncodeDecode | backend/crates/cb-api/src/gateway_proxy.rs:42-42 | whatever decodes is the lower-case text of its bytes |
| Hex.DigitsOf | backend/crates/cb-api/src/gateway_proxy.rs:42-42 | two lower-case digits for each byte, the high half first |
| Handshake.RewriteIff | backend/crates/cb-api/src/gateway_proxy.rs:330-354 | the rewritten message is the one tree equal to the original at every path but params.auth.token (the token, if auth is an object) and params.signedNonce (the signature, if nonce is a string) |
| Handshake.RewriteIdempotent | backend/crates/cb-api/src/gateway_proxy.rs:330-354 | rewriting twice is rewriting once |
| Handshake.GatewayFinds | backend/crates/cb-api/src/gateway_proxy.rs:330-354 | under params.signedNonce the gateway finds text that decodes to the MAC of its nonce under the token as key, and the token where there was an auth object; method and id are as sent |
| Transducer.JudgeRefuses | backend/crates/cb-api/src/gateway_proxy.rs:327-380 | a text frame is refused exactly when it calls a blocked method, and rewritten exactly when it is the handshake |
| Transducer.CallsBlockedIff | backend/crates/cb-api/src/gateway_proxy.rs:28-33 | blocked are exactly the text frames whose method is exec.approval.resolve or update.run or begins with config. or exec.approvals. |
| Transducer.RefusalAnswers | backend/crates/cb-api/src/gateway_proxy.rs:366-378 | a blocked call is answered under its own id, null if it has none, with code -32601 and a message that names the method, and nothing else |
| Transducer.VolumeCounts | backend/crates/cb-api/src/gateway_proxy.rs:268-303 | only the bytes of text and binary frames are counted |
| Transducer.DownstreamIsJoin | backend/crates/cb-api/src/gateway_proxy.rs:268-303 | frame by frame towards the client: closes lose their reason, raw frames vanish, all else stays |
| Transducer.UpstreamIsJoin | backend/crates/cb-api/src/gateway_proxy.rs:315-417 | frame by frame: the first connect call is rewritten, blocked calls vanish, closes lose their reason, all else passes unchanged and in order |
| Transducer.NothingBlockedPasses | backend/crates/cb-api/src/gateway_proxy.rs:28-33 | no text frame sent upstream parses to a blocked method |
| Transducer.OrderKept | backend/crates/cb-api/src/gateway_proxy.rs:389-417 | control and binary frames keep order and number |
| Transducer.UpstreamGrows | backend/crates/cb-api/src/gateway_proxy.rs:315-417 | reading on only extends what was sent |
| Relay.RelayIsTransducer | backend/crates/cb-api/src/gateway_proxy.rs:314-419 | at every reachable state of the three tasks, what was sent upstream is the image of what was read, nothing blocked among it, and only control frames may fail without ending the reader |
| Relay.RelayMergesForClient | backend/crates/cb-api/src/gateway_proxy.rs:249-309 | at every reachable state, written, in flight and queued frames (at most 64) merge the relayed frames and one reply per blocked call, each in order; the counter is the text and binary data read, and the flush charges what was read up to one moment |
| RelayRuns.WhatEndsReaders | backend/crates/cb-api/src/gateway_proxy.rs:265-419 | in every run each side is read no further than its first close; the client reader has ended exactly if its connection ended or its last send was a close or failed text or binary, and the upstream reader only for the like reasons |
| RelayRuns.ReaderAfterAct | backend/crates/cb-api/src/gateway_proxy.rs:277-417 | after each send or enqueueing, exactly when the reader ends and when it reads on |
| RelayRuns.EverythingIsRelayed | backend/crates/cb-api/src/gateway_proxy.rs:245-434 | whatever both peers send before the client closes, some run sends the whole image upstream, writes every relayed frame and every refusal to the client, and charges every byte |
| RelayRuns.FlushFollows | backend/crates/cb-api/src/gateway_proxy.rs:421-434 | as soon as either reader has ended, the counter can be charged as it stands |
| RelayRuns.AcceptsBelow64 | backend/crates/cb-api/src/gateway_proxy.rs:250-250 | while the writer lives, a frame is accepted exactly when fewer than 64 are queued |
| RelayRuns.QueueFills | backend/crates/cb-api/src/gateway_proxy.rs:250-250 | each queue length up to 64 is reached |
| Relay.Connection.ClientRead | backend/crates/cb-api/src/gateway_proxy.rs:315-417 | one message from the client up to its send: counted, parsed, rewritten, refused or passed on |
| Relay.Connection.Intercept | backend/crates/cb-api/src/gateway_proxy.rs:332-353 | the updates of the parsed message, one after the other, amount to the rewrite |
| Relay.Connection.ClientSend | backend/crates/cb-api/src/gateway_proxy.rs:359-417 | a failed text or binary send and any close end the reader, a failed ping or pong does not |
| Relay.Connection.ClientReply | backend/crates/cb-api/src/gateway_proxy.rs:377-378 | the refusal is queued, or lost when the writer is gone; the reader goes on |
| Relay.Connection.Send | backend/crates/cb-api/src/gateway_proxy.rs:250-262 | the bounded channel: appended in order, or an error when the receiver is gone |
| Relay.Connection.UpstreamRead | backend/crates/cb-api/src/gateway_proxy.rs:268-303 | one message from upstream up to its enqueueing; raw frames are dropped |
| Relay.Connection.UpstreamEnqueue | backend/crates/cb-api/src/gateway_proxy.rs:277-307 | a close ends the reader, and so does a text or binary frame that finds the writer gone |
| Relay.Connection.WriterTake | backend/crates/cb-api/src/gateway_proxy.rs:257-257 | the writer takes the oldest queued frame |
| Relay.Connection.WriterWrite | backend/crates/cb-api/src/gateway_proxy.rs:258-260 | a failed write ends the writer and loses the queue |
| Relay.Connection.FlushBandwidth | backend/crates/cb-api/src/gateway_proxy.rs:430-434 | the amount charged is the counter at that moment |
| Tunnel.TunnelIsFaithful | backend/crates/cb-api/src/proxy.rs:249-298 | at every interleaving each direction delivers a prefix of what it reads; its counter is the bytes read at every await and at most 8192 ahead of delivery; the total charged covers the delivered bytes and at most two buffers more |
| Tunnel.RunGrows | backend/crates/cb-api/src/proxy.rs:249-298 | counters and delivered bytes never fall, and loaded values stay |
| Tunnel.DeliveredIsCharged | backend/crates/cb-api/src/proxy.rs:288-293 | everything delivered at any time before the first counter is loaded is in the total |
| Tunnel.EverythingIsDelivered | backend/crates/cb-api/src/proxy.rs:249-298 | whatever both ends send before one closes, some run delivers all of it and charges exactly that |
| Tunnel.ChargeFollows | backend/crates/cb-api/src/proxy.rs:280-298 | as soon as either loop has ended, both counters can be charged as they stand |
| Tunnel.BoundsAreReached | backend/crates/cb-api/src/proxy.rs:265-277 | both bounds are reached |
| Tunnel.CopyTask.Read | backend/crates/cb-api/src/proxy.rs:262-265 | a read fills the start of the buffer; an empty or failed read ends the loop |
| Tunnel.CopyTask.Count | backend/crates/cb-api/src/proxy.rs:266-266 | the chunk is counted before any of it is written |
| Tunnel.CopyTask.Write | backend/crates/cb-api/src/proxy.rs:267-269 | bytes leave the buffer in order; a failed write ends the loop |
| ShellQuote.RoundTripIff | backend/crates/cb-infra/src/hetzner.rs:93-98 | for every value, the shell reads the quoted argument as the one intended word exactly when the key has no single quote |
| ShellQuote.CommandReadsBackIff | backend/crates/cb-infra/src/hetzner.rs:96-98 | and the command as echo with that one argument |
| ShellQuote.EnvLineEchoes | backend/crates/cb-infra/src/hetzner.rs:96-98 | each line runs one command and appends its output to the env file; the command is echo of the one word that exports the value, exactly when the key has no quote |
| ShellQuote.OneLineEach | backend/crates/cb-infra/src/hetzner.rs:92-99 | without newlines of their own the variables take one line each, in order |
| ShellQuote.EscapeInjective | backend/crates/cb-infra/src/hetzner.rs:95-95 | different values are escaped differently |
| ShellQuote.ReplaceQuotes | backend/crates/cb-infra/src/hetzner.rs:95-95 | the replacement, character by character |
| ShellQuote.AppendEnvLines | backend/crates/cb-infra/src/hetzner.rs:92-99 | one line for each variable, once, in the map's order |
| SpritesProvisioning.AllOrCompensate | backend/crates/cb-infra/src/sprites.rs:93-114 | once the sprite exists, a failed run ends with its deletion right after the one failed call, and a successful run makes every call and deletes nothing |
| SpritesProvisioning.FilesInPlace | backend/crates/cb-infra/src/sprites.rs:184-210 | after success the files are the requested ones, with the env file over them exactly when there are variables, and no others |
| SpritesProvisioning.LastRequestWins | backend/crates/cb-infra/src/sprites.rs:184-196 | of several requests for one path the last one counts |
| SpritesProvisioning.OnlyRequested | backend/crates/cb-infra/src/sprites.rs:184-196 | a file is requested exactly when some mount names its path |
| SpritesProvisioning.StepsInOrder | backend/crates/cb-infra/src/sprites.rs:189-232 | in every run a service is started only right after it was created, and a file written only right after its directory was made |
| SpritesProvisioning.WrittenIntoMadeDirectory | backend/crates/cb-infra/src/sprites.rs:189-195 | a write to a file in a directory comes right after mkdir -p of that directory |
| SpritesProvisioning.OkMeans | backend/crates/cb-infra/src/sprites.rs:27-59 | a call counts as successful exactly when it was answered and a command's exit code was zero |
| SpritesProvisioning.SuccessSpelledOut | backend/crates/cb-infra/src/sprites.rs:62-243 | a successful run call by call: the sprite, the two Docker commands, the npm command, only directories and files, the service with its shell command on port 18789, its start; it returns name and address of the last answer |
| SpritesProvisioning.EnvFileGrows | backend/crates/cb-infra/src/sprites.rs:202-206 | the env file grows by one export line for each variable |
| SpritesProvisioning.EnvFileLines | backend/crates/cb-infra/src/sprites.rs:202-206 | without newlines of their own the variables can be read back line by line |
| SpritesProvisioning.SpritesClient.ExecChecked | backend/crates/cb-infra/src/sprites.rs:27-41 | fails on a transport error and on every exit code but zero |
| SpritesProvisioning.SpritesClient.WriteFile | backend/crates/cb-infra/src/sprites.rs:44-59 | one tee with the content on its input |
| SpritesProvisioning.SpritesClient.InstallDocker | backend/crates/cb-infra/src/sprites.rs:62-81 | two commands, the second only after the first |
| SpritesProvisioning.SpritesClient.InstallOpenclaw | backend/crates/cb-infra/src/sprites.rs:84-88 | one npm command |
| SpritesProvisioning.SpritesClient.Install | backend/crates/cb-infra/src/sprites.rs:170-176 | Docker, then OpenClaw |
| SpritesProvisioning.SpritesClient.WriteAll | backend/crates/cb-infra/src/sprites.rs:178-210 | the mounted files, then the env file |
| SpritesProvisioning.SpritesClient.WriteFiles | backend/crates/cb-infra/src/sprites.rs:184-196 | the files in order, up to the first failure |
| SpritesProvisioning.SpritesClient.WriteMounted | backend/crates/cb-infra/src/sprites.rs:189-195 | the parent directory first, unless there is none or it is the root |
| SpritesProvisioning.SpritesClient.WriteEnv | backend/crates/cb-infra/src/sprites.rs:199-210 | nothing without variables, otherwise one file with a line for each |
| SpritesProvisioning.SpritesClient.StartOpenclaw | backend/crates/cb-infra/src/sprites.rs:212-242 | create with program, arguments and port, start, then ask for the address |
| SpritesProvisioning.SpritesClient.ProvisionSprite | backend/crates/cb-infra/src/sprites.rs:169-243 | all steps in order, up to the first failure |
| SpritesProvisioning.SpritesClient.CreateVps | backend/crates/cb-infra/src/sprites.rs:93-114 | the whole sequence of calls and the result, for every sequence of answers |

## Left out

- HTTP clients, TLS, routing, authentication and its credential split, rate limits, CORS, tracing, configuration from the environment: no property of their own here.
- The frontend, channels, gateway tokens, sessions, user roles, what a status permits, list and get endpoints, plan and config administration: only easy members. Plans, configs and plan membership of configs are fixed tables.
- Plain HTTP forwarding through either proxy: a request and a reply counted by length.
- Whether a destroyed VPS's machine is gone at the provider: destroy calls are best effort and their results ignored, so a machine may outlive its row.
- Database errors between two statements of a handler that runs alone: the interleaved model covers them, since a handler may be abandoned after any step.
- Row and user deletion outside the API, and the unique and foreign key constraints, except that a period row needs its VPS row. Sharing is excluded by the handlers alone.
- 64-bit overflow of SQL counters and the numeric type of SQL sums: counters and sums are exact integers. The charge itself saturates as the code does.
- Random ids and creation times: ids come from counters, and lists ordered by creation are ordered by id.
- In the interleaved model the monitor may pick any running VPSes, which allows more runs than the code. Life-cycle histories are proved for handlers one at a time; `Finality` says what is left of them under interleaving.
- Infinities, NaN and subnormal numbers: `Rounding` has 53 bits and an unbounded exponent, which the charge's inputs never leave.
- A monitor pass that runs across a month's end: a pass or a report reads one month.
- OverageCost.CostMonotone: assumes, like `CostZeroIff` and `CostWithinOneCent`, that no overage rate is negative, since a negative rate makes the charge fall with usage. The gate, the monitor and the endpoint are modelled for rates of any sign.
- HMAC and JSON text: function parameters. `Transducer.NothingBlockedPasses` requires that reading back a rendered message gives its method again.
- What the relay's surviving reader does after the flush is in the state machine, but the bytes it then counts are never charged.
- The YAML layout, the here-documents for files, and echo's own treatment of backslashes in the cloud-init text; the shell's expansions and operators count as special characters beyond the two quoting sections.
- Sprite start, stop, destroy and status calls, Fly machines and Hetzner servers as such: one call each.
- The text of error messages and log output, apart from the relay's refusals.
