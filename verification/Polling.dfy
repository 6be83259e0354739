/**
 The monitor's poll: gauges read from the provider are cumulative, and the positive
 differences between readings are charged to the month.
 */
module Polling {
  import opened Prelude
  import opened Store
  import opened Metering
  import opened Decision

  /** How polling one VPS goes: the collector's answer, and whether the two writes succeed. */
  datatype Outcome =
    | NotCollected
    | Collected(storage: int, cpu: Option<int>, memory: Option<int>, periodWritten: bool, gaugeWritten: bool)

  /** A rise between two readings; a fall or a missing reading counts as none. */
  function Rise(next: Option<int>, last: Option<int>): int {
    if next.Some? && last.Some? && next.value > last.value then next.value - last.value else 0
  }

  /** The two axes with a gauge: CPU milliseconds and MB-seconds of memory. */
  datatype Axis = Cpu | Memory

  function On(x: Axis, u: Usage): int {
    if x.Cpu? then u.cpu else u.memory
  }

  function GaugeOn(x: Axis, row: Vps): Option<int> {
    if x.Cpu? then row.cpu else row.memory
  }

  predicate MeteredOn(x: Axis, m: Metered) {
    if x.Cpu? then m.cpu else m.memory
  }

  function MeteredRow(t: Tables, row: Vps): Metered {
    if row.configId in t.configs then MeteredFor(t.configs[row.configId]) else Metered(false, false)
  }

  /** What polling charges for a VPS whose row read row when the poll began. */
  function Charged(m: Metered, row: Vps, o: Outcome): Usage
    requires o.Collected?
  {
    Usage(0, if m.cpu then Rise(o.cpu, row.cpu) else 0, if m.memory then Rise(o.memory, row.memory) else 0)
  }

  function PollOne(t: Tables, month: Month, v: VpsId, row: Vps, o: Outcome): Tables {
    var m := MeteredRow(t, row);
    if (!m.cpu && !m.memory) || o.NotCollected? then t
    else
      var c := Charged(m, row, o);
      var t1 := if (c.cpu > 0 || c.memory > 0) && o.periodWritten && v in t.vpses
                then t.(periods := Upsert(t.periods, (v, month), c)) else t;
      if o.gaugeWritten then Gauge(t1, v, o.storage, o.cpu, o.memory) else t1
  }

  function OutcomeFor(outcomes: map<VpsId, Outcome>, v: VpsId): Outcome {
    if v in outcomes then outcomes[v] else NotCollected
  }

  /** The listed VPSes in turn, against the rows as they were when listed. */
  function PollEach(t: Tables, month: Month, rows: map<VpsId, Vps>, listed: seq<VpsId>, outcomes: map<VpsId, Outcome>)
    : Tables
    requires forall v :: v in listed ==> v in rows
    decreases |listed|
  {
    if listed == [] then t
    else
      var v := listed[|listed| - 1];
      PollOne(PollEach(t, month, rows, listed[..|listed| - 1], outcomes), month, v, rows[v], OutcomeFor(outcomes, v))
  }

  function Poll(t: Tables, month: Month, outcomes: map<VpsId, Outcome>): Tables {
    PollEach(t, month, t.vpses, ListByState(t, Running, t.nextVps), outcomes)
  }

  // -- One poll, VPS by VPS -----------------------------------------------------------

  ghost function RowsOf(periods: map<Key, Usage>, v: VpsId): map<Key, Usage> {
    map k | k in periods && k.0 == v :: periods[k]
  }

  /** The two states hold the same VPS row and the same period rows for v. */
  ghost predicate SameFor(t: Tables, t': Tables, v: VpsId) {
    && (v in t.vpses <==> v in t'.vpses)
    && (v in t.vpses ==> t'.vpses[v] == t.vpses[v])
    && RowsOf(t'.periods, v) == RowsOf(t.periods, v)
  }

  lemma SameForTrans(t: Tables, t1: Tables, t2: Tables, v: VpsId)
    requires SameFor(t, t1, v) && SameFor(t1, t2, v)
    ensures SameFor(t, t2, v)
  {
  }

  lemma UpsertElsewhere(t: Tables, k: Key, amount: Usage, v: VpsId)
    requires k.0 != v
    ensures SameFor(t, t.(periods := Upsert(t.periods, k, amount)), v)
  {
    var t' := t.(periods := Upsert(t.periods, k, amount));
    assert RowsOf(t'.periods, v) == RowsOf(t.periods, v);
  }

  lemma GaugeElsewhere(t: Tables, w: VpsId, storage: int, cpu: Option<int>, memory: Option<int>, v: VpsId)
    requires v != w
    ensures SameFor(t, Gauge(t, w, storage, cpu, memory), v)
  {
  }

  lemma PollOneElsewhere(t: Tables, month: Month, w: VpsId, row: Vps, o: Outcome, v: VpsId)
    requires v != w
    ensures SameFor(t, PollOne(t, month, w, row, o), v)
  {
    hide SameFor, Gauge, Upsert, RowsOf, MeteredRow;
    SameForSelf(t, v);
    if o.Collected? {
      var c := Charged(MeteredRow(t, row), row, o);
      var t1 := t.(periods := Upsert(t.periods, (w, month), c));
      UpsertElsewhere(t, (w, month), c, v);
      GaugeElsewhere(t, w, o.storage, o.cpu, o.memory, v);
      GaugeElsewhere(t1, w, o.storage, o.cpu, o.memory, v);
      SameForTrans(t, t1, Gauge(t1, w, o.storage, o.cpu, o.memory), v);
    }
  }

  lemma SameForSelf(t: Tables, v: VpsId)
    ensures SameFor(t, t, v)
  {
  }

  lemma PollOneConfigs(t: Tables, month: Month, w: VpsId, row: Vps, o: Outcome)
    ensures var t' := PollOne(t, month, w, row, o); t'.configs == t.configs && t'.nextVps == t.nextVps
  {
    hide Upsert, MeteredRow, Charged, Gauge;
    if o.Collected? {
      GaugeConfigs(t, w, o);
      GaugeConfigs(t.(periods := Upsert(t.periods, (w, month), Charged(MeteredRow(t, row), row, o))), w, o);
    }
  }

  lemma GaugeConfigs(t: Tables, w: VpsId, o: Outcome)
    requires o.Collected?
    ensures var t' := Gauge(t, w, o.storage, o.cpu, o.memory); t'.configs == t.configs && t'.nextVps == t.nextVps
  {
  }

  lemma {:induction false} PollEachElsewhere(t: Tables, month: Month, rows: map<VpsId, Vps>, listed: seq<VpsId>,
                                             outcomes: map<VpsId, Outcome>, v: VpsId)
    requires (forall w :: w in listed ==> w in rows) && v !in listed
    ensures SameFor(t, PollEach(t, month, rows, listed, outcomes), v)
    decreases |listed|
  {
    hide SameFor, PollOne;
    SameForSelf(t, v);
    if listed != [] {
      var w := listed[|listed| - 1];
      var t1 := PollEach(t, month, rows, listed[..|listed| - 1], outcomes);
      PollEachElsewhere(t, month, rows, listed[..|listed| - 1], outcomes, v);
      PollOneElsewhere(t1, month, w, rows[w], OutcomeFor(outcomes, w), v);
      SameForTrans(t, t1, PollEach(t, month, rows, listed, outcomes), v);
    }
  }

  lemma UpsertLocal(t: Tables, t': Tables, k: Key, amount: Usage)
    requires SameFor(t, t', k.0)
    ensures SameFor(t.(periods := Upsert(t.periods, k, amount)), t'.(periods := Upsert(t'.periods, k, amount)), k.0)
  {
    RowsDecide(t, t', k.0, k.1);
    RowsUpsert(t.periods, k, amount);
    RowsUpsert(t'.periods, k, amount);
  }

  lemma GaugeLocal(t: Tables, t': Tables, v: VpsId, storage: int, cpu: Option<int>, memory: Option<int>)
    requires SameFor(t, t', v)
    ensures SameFor(Gauge(t, v, storage, cpu, memory), Gauge(t', v, storage, cpu, memory), v)
  {
  }

  /** Polling a VPS looks at nothing but its own rows. */
  lemma PollOneLocal(t: Tables, t': Tables, month: Month, v: VpsId, row: Vps, o: Outcome)
    requires SameFor(t, t', v) && t.configs == t'.configs
    ensures SameFor(PollOne(t, month, v, row, o), PollOne(t', month, v, row, o), v)
  {
    hide Gauge, Upsert, RowsOf;
    if o.Collected? {
      var c := Charged(MeteredRow(t, row), row, o);
      var t1, t1' := t.(periods := Upsert(t.periods, (v, month), c)), t'.(periods := Upsert(t'.periods, (v, month), c));
      UpsertLocal(t, t', (v, month), c);
      GaugeLocal(t, t', v, o.storage, o.cpu, o.memory);
      GaugeLocal(t1, t1', v, o.storage, o.cpu, o.memory);
    }
  }

  lemma RowsDecide(t: Tables, t': Tables, v: VpsId, month: Month)
    requires RowsOf(t'.periods, v) == RowsOf(t.periods, v)
    ensures PeriodRow(t'.periods, (v, month)) == PeriodRow(t.periods, (v, month))
  {
    assert (v, month) in t.periods <==> (v, month) in RowsOf(t.periods, v);
    assert (v, month) in t'.periods <==> (v, month) in RowsOf(t'.periods, v);
    if (v, month) in t.periods {
      assert RowsOf(t.periods, v)[(v, month)] == t.periods[(v, month)];
      assert RowsOf(t'.periods, v)[(v, month)] == t'.periods[(v, month)];
    }
  }

  lemma RowsUpsert(periods: map<Key, Usage>, k: Key, amount: Usage)
    ensures RowsOf(Upsert(periods, k, amount), k.0)
         == RowsOf(periods, k.0)[k := Plus(PeriodRow(periods, k), amount)]
    ensures RowsOf(Upsert(periods, k, amount), k.0) == Upsert(RowsOf(periods, k.0), k, amount)
  {
  }

  /** What a whole poll does to a listed VPS is what polling it alone would do. */
  lemma {:induction false} PollEachFor(t: Tables, month: Month, rows: map<VpsId, Vps>, listed: seq<VpsId>,
                                       outcomes: map<VpsId, Outcome>, v: VpsId)
    requires forall w :: w in listed ==> w in rows
    requires (forall i, j :: 0 <= i < j < |listed| ==> listed[i] < listed[j]) && v in listed
    ensures SameFor(PollOne(t, month, v, rows[v], OutcomeFor(outcomes, v)),
                    PollEach(t, month, rows, listed, outcomes), v)
    decreases |listed|
  {
    hide SameFor, PollOne;
    var init, last := listed[..|listed| - 1], listed[|listed| - 1];
    var t1 := PollEach(t, month, rows, init, outcomes);
    var whole := PollEach(t, month, rows, listed, outcomes);
    PollEachConfigs(t, month, rows, init, outcomes);
    if v == last {
      assert v !in init;
      PollEachElsewhere(t, month, rows, init, outcomes, v);
      PollOneLocal(t, t1, month, v, rows[v], OutcomeFor(outcomes, v));
    } else {
      assert v in init;
      PollEachFor(t, month, rows, init, outcomes, v);
      PollOneElsewhere(t1, month, last, rows[last], OutcomeFor(outcomes, last), v);
      SameForTrans(PollOne(t, month, v, rows[v], OutcomeFor(outcomes, v)), t1, whole, v);
    }
  }

  lemma {:induction false} PollEachConfigs(t: Tables, month: Month, rows: map<VpsId, Vps>, listed: seq<VpsId>,
                                           outcomes: map<VpsId, Outcome>)
    requires forall w :: w in listed ==> w in rows
    ensures var t' := PollEach(t, month, rows, listed, outcomes);
            t'.configs == t.configs && t'.nextVps == t.nextVps
    decreases |listed|
  {
    hide PollOne;
    if listed != [] {
      var w := listed[|listed| - 1];
      var t1 := PollEach(t, month, rows, listed[..|listed| - 1], outcomes);
      PollEachConfigs(t, month, rows, listed[..|listed| - 1], outcomes);
      PollOneConfigs(t1, month, w, rows[w], OutcomeFor(outcomes, w));
    }
  }

  /** Only a rise between two readings that are both there counts. */
  lemma RiseCases(next: int, last: int, missing: Option<int>)
    ensures Rise(Some(next), Some(last)) == if next > last then next - last else 0
    ensures Rise(None, missing) == Rise(missing, None) == 0
  {
  }

  /** The poll gets readings for v: it runs, on a config that names no known provider. */
  predicate Polled(t: Tables, outcomes: map<VpsId, Outcome>, v: VpsId) {
    && v in t.vpses && v < t.nextVps && t.vpses[v].state == Running
    && t.vpses[v].configId in t.configs && t.configs[t.vpses[v].configId] !in {"fly", "hetzner", "sprites"}
    && v in outcomes && outcomes[v].Collected?
  }

  /** The month's row takes both rises, if there is one and it can be written; the gauges become the readings. */
  ghost predicate TakesReadings(t: Tables, t': Tables, month: Month, v: VpsId, o: Outcome)
    requires v in t.vpses && o.Collected?
  {
    var row, k := t.vpses[v], (v, month);
    var cpu, memory := Rise(o.cpu, row.cpu), Rise(o.memory, row.memory);
    && v in t'.vpses
    && t'.vpses[v] == (if o.gaugeWritten then row.(storage := o.storage, cpu := o.cpu, memory := o.memory) else row)
    && RowsOf(t'.periods, v) ==
       if o.periodWritten && (cpu > 0 || memory > 0) then Upsert(RowsOf(t.periods, v), k, Usage(0, cpu, memory))
       else RowsOf(t.periods, v)
  }

  lemma PollOneTakes(t: Tables, month: Month, v: VpsId, o: Outcome)
    requires v in t.vpses && o.Collected? && MeteredRow(t, t.vpses[v]) == Metered(true, true)
    ensures TakesReadings(t, PollOne(t, month, v, t.vpses[v], o), month, v, o)
  {
    hide Upsert, RowsOf, Rise, Gauge;
    var row := t.vpses[v];
    var c := Charged(MeteredRow(t, row), row, o);
    var t1 := t.(periods := Upsert(t.periods, (v, month), c));
    RowsUpsert(t.periods, (v, month), c);
    GaugeTakes(t, v, o);
    GaugeTakes(t1, v, o);
  }

  lemma GaugeTakes(t: Tables, v: VpsId, o: Outcome)
    requires v in t.vpses && o.Collected?
    ensures var t' := Gauge(t, v, o.storage, o.cpu, o.memory);
            && v in t'.vpses && t'.periods == t.periods
            && t'.vpses[v] == t.vpses[v].(storage := o.storage, cpu := o.cpu, memory := o.memory)
  {
  }

  /** What a poll does to the rows of each VPS. */
  lemma PollEffect(t: Tables, month: Month, outcomes: map<VpsId, Outcome>, v: VpsId)
    ensures var t' := Poll(t, month, outcomes);
            if Polled(t, outcomes, v) then TakesReadings(t, t', month, v, outcomes[v]) else SameFor(t, t', v)
  {
    hide Upsert, RowsOf, Rise;
    var listed := ListByState(t, Running, t.nextVps);
    SameForSelf(t, v);
    if v in listed {
      hide PollOne;
      PollEachFor(t, month, t.vpses, listed, outcomes, v);
      if Polled(t, outcomes, v) {
        PollOneTakes(t, month, v, outcomes[v]);
      } else {
        NotPolled(t, month, v, OutcomeFor(outcomes, v));
      }
    } else {
      PollEachElsewhere(t, month, t.vpses, listed, outcomes, v);
    }
  }

  lemma NotPolled(t: Tables, month: Month, v: VpsId, o: Outcome)
    requires v in t.vpses
    requires o.NotCollected? || MeteredRow(t, t.vpses[v]) == Metered(false, false)
    ensures PollOne(t, month, v, t.vpses[v], o) == t
  {
  }

  // -- Runs -----------------------------------------------------------------------------

  /** Polls, with everything else that may happen to the tables in between. */
  datatype Event =
    | PollNow(month: Month, outcomes: map<VpsId, Outcome>)
    | Writes(statement: Statement)
    | Bandwidth(vps: VpsId, month: Month, bytes: int)

  function Happen(t: Tables, e: Event): Tables {
    match e
    case PollNow(month, outcomes) => Poll(t, month, outcomes)
    case Writes(s) => Apply(t, s)
    case Bandwidth(v, month, bytes) =>
      if v in t.vpses then t.(periods := Upsert(t.periods, (v, month), Usage(bytes, 0, 0))) else t
  }

  function HappenAll(t: Tables, es: seq<Event>): Tables
    decreases |es|
  {
    if es == [] then t else HappenAll(Happen(t, es[0]), es[1..])
  }

  /** The gauge of v on an axis, before the run and after each of its events. */
  function Readings(x: Axis, t: Tables, es: seq<Event>, v: VpsId): (r: seq<Option<int>>)
    ensures |r| == |es| + 1
    decreases |es|
  {
    [if v in t.vpses then GaugeOn(x, t.vpses[v]) else None]
    + if es == [] then [] else Readings(x, Happen(t, es[0]), es[1..], v)
  }

  /** The positive increments between consecutive readings that are both present. */
  function Rises(readings: seq<Option<int>>): int {
    if |readings| < 2 then 0 else Rise(readings[1], readings[0]) + Rises(readings[1..])
  }

  /** What v has been charged on an axis, over all months. */
  ghost function ChargedTo(x: Axis, t: Tables, v: VpsId): int {
    On(x, Total(RowsOf(t.periods, v)))
  }

  predicate AllWritten(e: Event) {
    e.PollNow? ==> forall v :: v in e.outcomes && e.outcomes[v].Collected? ==>
                                 e.outcomes[v].periodWritten && e.outcomes[v].gaugeWritten
  }

  lemma ChargedToUpsert(x: Axis, t: Tables, v: VpsId, w: VpsId, month: Month, amount: Usage)
    ensures ChargedTo(x, t.(periods := Upsert(t.periods, (w, month), amount)), v)
         == ChargedTo(x, t, v) + if v == w then On(x, amount) else 0
  {
    hide Total;
    var t' := t.(periods := Upsert(t.periods, (w, month), amount));
    if v == w {
      RowsUpsert(t.periods, (w, month), amount);
      TotalUpsert(RowsOf(t.periods, v), Charge((w, month), amount));
    } else {
      UpsertElsewhere(t, (w, month), amount, v);
    }
  }

  /** A row with an id drawn from the counter. */
  ghost predicate Recorded(t: Tables, v: VpsId) {
    v in t.vpses && v < t.nextVps
  }

  /** The step charged v exactly the rise of the gauge it left behind. */
  ghost predicate ChargesRise(x: Axis, t: Tables, t': Tables, v: VpsId)
    requires v in t.vpses
  {
    && Recorded(t', v)
    && ChargedTo(x, t', v) == ChargedTo(x, t, v) + Rise(GaugeOn(x, t'.vpses[v]), GaugeOn(x, t.vpses[v]))
  }

  lemma NoRise(x: Axis, t: Tables, v: VpsId)
    requires v in t.vpses
    ensures Rise(GaugeOn(x, t.vpses[v]), GaugeOn(x, t.vpses[v])) == 0
  {
  }

  /** No statement touches a config, a period row or a gauge. */
  lemma StatementKeepsPeriods(t: Tables, s: Statement)
    ensures var t' := Apply(t, s);
            t'.periods == t.periods && t'.configs == t.configs && t'.nextVps >= t.nextVps
  {
  }

  lemma StatementKeepsGauges(t: Tables, s: Statement, v: VpsId)
    requires Recorded(t, v)
    ensures var t' := Apply(t, s);
            && v in t'.vpses && t'.vpses[v].configId == t.vpses[v].configId
            && t'.vpses[v].cpu == t.vpses[v].cpu && t'.vpses[v].memory == t.vpses[v].memory
            && t'.vpses[v].storage == t.vpses[v].storage
  {
    match s {
      case InsertVps(_, _, _) =>
      case SetRefs(w, _, _) => if w in t.vpses && w != v { assert Apply(t, s).vpses[v] == t.vpses[v]; }
      case SetState(w, _) => if w in t.vpses && w != v { assert Apply(t, s).vpses[v] == t.vpses[v]; }
      case _ => assert Apply(t, s).vpses == t.vpses;
    }
  }

  /** One event charges exactly the rise of the gauge it leaves behind. */
  lemma EventCharges(x: Axis, t: Tables, e: Event, v: VpsId)
    requires Recorded(t, v) && AllWritten(e)
    ensures ChargesRise(x, t, Happen(t, e), v)
  {
    hide Total, Upsert, RowsOf, Poll, Apply, Rise;
    NoRise(x, t, v);
    match e {
      case PollNow(month, outcomes) => PollCharges(x, t, month, outcomes, v);
      case Writes(s) =>
        StatementKeepsPeriods(t, s);
        StatementKeepsGauges(t, s, v);
      case Bandwidth(w, month, bytes) => ChargedToUpsert(x, t, v, w, month, Usage(bytes, 0, 0));
    }
  }

  lemma RiseSeenBy(x: Axis, t: Tables, t1: Tables, t2: Tables, v: VpsId)
    requires v in t.vpses && ChargesRise(x, t, t1, v)
    requires SameFor(t1, t2, v) && t1.configs == t2.configs && t1.nextVps == t2.nextVps
    ensures ChargesRise(x, t, t2, v)
  {
    hide Total, RowsOf, Rise;
  }

  lemma PollCharges(x: Axis, t: Tables, month: Month, outcomes: map<VpsId, Outcome>, v: VpsId)
    requires Recorded(t, v) && AllWritten(PollNow(month, outcomes))
    ensures ChargesRise(x, t, Poll(t, month, outcomes), v)
  {
    hide ChargesRise, SameFor, PollOne, PollEach;
    var listed := ListByState(t, Running, t.nextVps);
    var t' := PollEach(t, month, t.vpses, listed, outcomes);
    PollEachConfigs(t, month, t.vpses, listed, outcomes);
    if v in listed {
      var o := OutcomeFor(outcomes, v);
      PollEachFor(t, month, t.vpses, listed, outcomes, v);
      PollOneCharges(x, t, month, v, o);
      PollOneConfigs(t, month, v, t.vpses[v], o);
      RiseSeenBy(x, t, PollOne(t, month, v, t.vpses[v], o), t', v);
    } else {
      PollEachElsewhere(t, month, t.vpses, listed, outcomes, v);
      NothingCharged(x, t, v);
      RiseSeenBy(x, t, t, t', v);
    }
  }

  lemma NothingCharged(x: Axis, t: Tables, v: VpsId)
    requires Recorded(t, v)
    ensures ChargesRise(x, t, t, v)
  {
  }

  lemma PollOneCharges(x: Axis, t: Tables, month: Month, v: VpsId, o: Outcome)
    requires Recorded(t, v) && (o.Collected? ==> o.periodWritten && o.gaugeWritten)
    ensures ChargesRise(x, t, PollOne(t, month, v, t.vpses[v], o), v)
  {
    hide Total, Upsert, RowsOf;
    if o.Collected? {
      ChargedToUpsert(x, t, v, v, month, Charged(MeteredRow(t, t.vpses[v]), t.vpses[v], o));
    }
  }

  /**
   Over any run with successful writes, what a VPS is charged on an axis, all months
   together, is the sum of the positive increments between its consecutive readings. A
   VPS that is not metered has no new readings and no charge.
   */
  lemma {:induction false} ChargesAreRises(x: Axis, t: Tables, es: seq<Event>, v: VpsId)
    requires Recorded(t, v) && forall e :: e in es ==> AllWritten(e)
    ensures ChargedTo(x, HappenAll(t, es), v) == ChargedTo(x, t, v) + Rises(Readings(x, t, es, v))
    decreases |es|
  {
    hide ChargedTo, Happen, Rise;
    if es != [] {
      var t1 := Happen(t, es[0]);
      assert es[0] in es;
      EventCharges(x, t, es[0], v);
      ChargesAreRises(x, t1, es[1..], v);
      var rest := Readings(x, t1, es[1..], v);
      assert Readings(x, t, es, v) == [GaugeOn(x, t.vpses[v])] + rest;
      assert Readings(x, t, es, v)[1..] == rest;
    }
  }

  /** Never less than the overall rise when no reading is missing, and equal to it when none falls. */
  lemma {:induction false} RisesBound(readings: seq<Option<int>>)
    requires readings != [] && forall r :: r in readings ==> r.Some?
    ensures var first, last := readings[0], readings[|readings| - 1];
            && Rises(readings) >= last.value - first.value
            && ((forall i :: 0 < i < |readings| ==> readings[i - 1].value <= readings[i].value) ==>
                  Rises(readings) == last.value - first.value)
  {
    if |readings| > 1 {
      var rest := readings[1..];
      assert forall i :: 0 < i < |rest| ==> rest[i - 1] == readings[i] && rest[i] == readings[i + 1];
      RisesBound(rest);
      assert readings[0].Some? && readings[1].Some?;
    }
  }

  // -- The stub collector -----------------------------------------------------------------

  /** StubCollector answers with what the row already says. */
  function StubOutcomes(vpses: map<VpsId, Vps>): map<VpsId, Outcome> {
    map v | v in vpses :: Collected(vpses[v].storage, vpses[v].cpu, vpses[v].memory, true, true)
  }

  lemma {:induction false} StubPollEach(t: Tables, month: Month, listed: seq<VpsId>)
    requires forall v :: v in listed ==> v in t.vpses
    ensures PollEach(t, month, t.vpses, listed, StubOutcomes(t.vpses)) == t
    decreases |listed|
  {
    if listed != [] {
      StubPollEach(t, month, listed[..|listed| - 1]);
      var v := listed[|listed| - 1];
      assert t.vpses[v := t.vpses[v]] == t.vpses;
    }
  }

  /** With the stub collector a poll changes nothing at all. */
  lemma StubPollChangesNothing(t: Tables, month: Month)
    ensures Poll(t, month, StubOutcomes(t.vpses)) == t
  {
    StubPollEach(t, month, ListByState(t, Running, t.nextVps));
  }
}
