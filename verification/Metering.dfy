/**
 Monthly usage counters: concurrent increments commute and lose nothing, and a user's
 aggregate is the month's total without the rows of destroyed VPSes.
 */
module Metering {
  import opened Store

  type Key = (VpsId, Month)

  datatype Charge = Charge(key: Key, amount: Usage)

  function ChargeAll(periods: map<Key, Usage>, cs: seq<Charge>): map<Key, Usage>
    decreases |cs|
  {
    if cs == [] then periods else ChargeAll(Upsert(periods, cs[0].key, cs[0].amount), cs[1..])
  }

  lemma PlusAssociates(a: Usage, b: Usage, c: Usage)
    ensures Plus(Plus(a, b), c) == Plus(a, Plus(b, c)) && Plus(a, ZERO) == a && Plus(ZERO, a) == a
  {
  }

  // -- Confluence ------------------------------------------------------------------

  lemma UpsertsCommute(periods: map<Key, Usage>, c: Charge, d: Charge)
    ensures Upsert(Upsert(periods, c.key, c.amount), d.key, d.amount)
         == Upsert(Upsert(periods, d.key, d.amount), c.key, c.amount)
  {
  }

  /** Any charge may be moved to the front. */
  lemma {:induction false} MoveToFront(periods: map<Key, Usage>, cs: seq<Charge>, i: nat)
    requires i < |cs|
    ensures ChargeAll(periods, cs) == ChargeAll(periods, [cs[i]] + cs[..i] + cs[i + 1..])
    decreases i
  {
    hide Upsert;
    var moved := [cs[i]] + cs[..i] + cs[i + 1..];
    if i == 0 {
      assert moved == cs;
    } else {
      var first, tail := cs[0], cs[1..];
      MoveToFront(Upsert(periods, first.key, first.amount), tail, i - 1);
      var after := [tail[i - 1]] + tail[..i - 1] + tail[i..];
      assert after[1..] == tail[..i - 1] + tail[i..];
      UpsertsCommute(periods, first, cs[i]);
      assert moved[1..] == [first] + after[1..];
      assert moved[1..][1..] == after[1..];
    }
  }

  lemma WithoutOne(a: seq<Charge>, b: seq<Charge>, i: nat)
    requires a != [] && i < |b| && b[i] == a[0] && multiset(a) == multiset(b)
    ensures multiset(a[1..]) == multiset(b[..i] + b[i + 1..])
  {
    assert a == [a[0]] + a[1..];
    assert b == b[..i] + [b[i]] + b[i + 1..];
    assert multiset(a[1..]) == multiset(a) - multiset{a[0]};
    assert multiset(b[..i] + b[i + 1..]) == multiset(b) - multiset{b[i]};
  }

  /** The order in which increments arrive does not matter. */
  lemma {:induction false} ChargesConfluent(periods: map<Key, Usage>, a: seq<Charge>, b: seq<Charge>)
    requires multiset(a) == multiset(b)
    ensures ChargeAll(periods, a) == ChargeAll(periods, b)
    decreases |a|
  {
    if a == [] {
      assert |multiset(b)| == 0;
      assert b == [];
    } else {
      assert a[0] in multiset(a);
      assert a[0] in multiset(b);
      var i :| 0 <= i < |b| && b[i] == a[0];
      MoveToFront(periods, b, i);
      var rest := b[..i] + b[i + 1..];
      assert ([b[i]] + b[..i] + b[i + 1..])[1..] == rest;
      WithoutOne(a, b, i);
      ChargesConfluent(Upsert(periods, a[0].key, a[0].amount), a[1..], rest);
    }
  }

  // -- Conservation ------------------------------------------------------------------

  /** The sum of all rows. */
  ghost function Total(rows: map<Key, Usage>): Usage
    decreases rows.Keys
  {
    if rows == map[] then ZERO
    else
      var k :| k in rows;
      Plus(rows[k], Total(rows - {k}))
  }

  lemma TotalEmpty()
    ensures Total(map[]) == ZERO
  {
  }

  /** Any row may be taken out first. */
  lemma {:induction false} TotalRemove(rows: map<Key, Usage>, k: Key)
    requires k in rows
    ensures Total(rows) == Plus(rows[k], Total(rows - {k}))
    decreases rows.Keys
  {
    var j :| j in rows && Total(rows) == Plus(rows[j], Total(rows - {j}));
    if j != k {
      TotalRemove(rows - {j}, k);
      TotalRemove(rows - {k}, j);
      var rest := (rows - {j}) - {k};
      assert rest == (rows - {k}) - {j};
      assert Total(rows) == Plus(rows[j], Plus(rows[k], Total(rest)));
      assert Total(rows - {k}) == Plus(rows[j], Total(rest));
    }
  }

  lemma TotalUpsert(periods: map<Key, Usage>, c: Charge)
    ensures Total(Upsert(periods, c.key, c.amount)) == Plus(Total(periods), c.amount)
  {
    var after := Upsert(periods, c.key, c.amount);
    TotalRemove(after, c.key);
    if c.key in periods {
      TotalRemove(periods, c.key);
      assert after - {c.key} == periods - {c.key};
    } else {
      assert after - {c.key} == periods;
    }
  }

  function Amounts(cs: seq<Charge>): Usage {
    if cs == [] then ZERO else Plus(cs[0].amount, Amounts(cs[1..]))
  }

  function AmountsFor(cs: seq<Charge>, k: Key): Usage {
    if cs == [] then ZERO
    else Plus(if cs[0].key == k then cs[0].amount else ZERO, AmountsFor(cs[1..], k))
  }

  /** Nothing is lost or counted twice: the whole table grows by what was charged. */
  lemma {:induction false} ChargesConserved(periods: map<Key, Usage>, cs: seq<Charge>)
    ensures Total(ChargeAll(periods, cs)) == Plus(Total(periods), Amounts(cs))
    decreases |cs|
  {
    hide Total;
    if cs != [] {
      TotalUpsert(periods, cs[0]);
      ChargesConserved(Upsert(periods, cs[0].key, cs[0].amount), cs[1..]);
    }
  }

  /** And so does each row. */
  lemma {:induction false} RowConserved(periods: map<Key, Usage>, cs: seq<Charge>, k: Key)
    ensures PeriodRow(ChargeAll(periods, cs), k) == Plus(PeriodRow(periods, k), AmountsFor(cs, k))
    decreases |cs|
  {
    hide Plus, Upsert, PeriodRow;
    PlusAssociates(PeriodRow(periods, k), ZERO, ZERO);
    if cs != [] {
      var p1 := Upsert(periods, cs[0].key, cs[0].amount);
      RowConserved(p1, cs[1..], k);
      RowUpsert(periods, cs[0], k);
      assert ChargeAll(periods, cs) == ChargeAll(p1, cs[1..]);
      var rest := AmountsFor(cs[1..], k);
      if cs[0].key == k {
        PlusAssociates(PeriodRow(periods, k), cs[0].amount, rest);
      } else {
        PlusAssociates(PeriodRow(periods, k), ZERO, rest);
      }
    }
  }

  lemma RowUpsert(periods: map<Key, Usage>, c: Charge, k: Key)
    ensures PeriodRow(Upsert(periods, c.key, c.amount), k)
         == if c.key == k then Plus(PeriodRow(periods, k), c.amount) else PeriodRow(periods, k)
  {
  }

  // -- Aggregates --------------------------------------------------------------------

  predicate InMonth(t: Tables, u: UserId, m: Month, k: Key) {
    k.1 == m && k.0 in t.vpses && t.vpses[k.0].userId == u
  }

  /** The rows the join selects: the month's, of the user's VPSes that are not destroyed. */
  ghost function CountedRows(t: Tables, u: UserId, m: Month): map<Key, Usage> {
    map k | k in t.periods && InMonth(t, u, m, k) && t.vpses[k.0].state != Destroyed :: t.periods[k]
  }

  ghost function DestroyedRows(t: Tables, u: UserId, m: Month): map<Key, Usage> {
    map k | k in t.periods && InMonth(t, u, m, k) && t.vpses[k.0].state == Destroyed :: t.periods[k]
  }

  ghost function MonthRows(t: Tables, u: UserId, m: Month): map<Key, Usage> {
    map k | k in t.periods && InMonth(t, u, m, k) :: t.periods[k]
  }

  ghost function Aggregate(t: Tables, u: UserId, m: Month): Usage {
    Total(CountedRows(t, u, m))
  }

  /** a and b share out the rows between them. */
  ghost predicate Parts(rows: map<Key, Usage>, a: map<Key, Usage>, b: map<Key, Usage>) {
    && rows.Keys == a.Keys + b.Keys && a.Keys !! b.Keys
    && forall k :: k in rows ==> rows[k] == if k in a then a[k] else b[k]
  }

  lemma PartsWithout(rows: map<Key, Usage>, a: map<Key, Usage>, b: map<Key, Usage>, k: Key)
    requires Parts(rows, a, b) && k in a
    ensures k in rows && rows[k] == a[k] && Parts(rows - {k}, a - {k}, b)
  {
  }

  lemma PartsOfEmpty(rows: map<Key, Usage>, b: map<Key, Usage>)
    requires Parts(rows, map[], b)
    ensures rows == b
  {
  }

  /** The total over disjoint parts is the sum of their totals. */
  lemma {:induction false} TotalSplit(rows: map<Key, Usage>, a: map<Key, Usage>, b: map<Key, Usage>)
    requires Parts(rows, a, b)
    ensures Total(rows) == Plus(Total(a), Total(b))
    decreases a.Keys
  {
    hide Total, Parts;
    if a == map[] {
      PartsOfEmpty(rows, b);
      TotalEmpty();
    } else {
      var k :| k in a;
      PartsWithout(rows, a, b, k);
      TotalRemove(rows, k);
      TotalRemove(a, k);
      TotalSplit(rows - {k}, a - {k}, b);
    }
  }

  /** Exactly the rows of destroyed VPSes are missing from a user's aggregate. */
  lemma AggregateLeavesOutDestroyed(t: Tables, u: UserId, m: Month)
    ensures Total(MonthRows(t, u, m)) == Plus(Aggregate(t, u, m), Total(DestroyedRows(t, u, m)))
  {
    hide Total, Parts, MonthRows, CountedRows, DestroyedRows;
    MonthParts(t, u, m);
    TotalSplit(MonthRows(t, u, m), CountedRows(t, u, m), DestroyedRows(t, u, m));
  }

  lemma MonthParts(t: Tables, u: UserId, m: Month)
    ensures Parts(MonthRows(t, u, m), CountedRows(t, u, m), DestroyedRows(t, u, m))
  {
    assert MonthRows(t, u, m).Keys == CountedRows(t, u, m).Keys + DestroyedRows(t, u, m).Keys;
  }

  /** Starting and stopping leaves every aggregate as it is. */
  lemma AggregateIgnoresToggle(t: Tables, v: VpsId, st: VpsState, u: UserId, m: Month)
    requires v in t.vpses && t.vpses[v].state != Destroyed && st != Destroyed
    ensures Aggregate(Apply(t, SetState(v, st)), u, m) == Aggregate(t, u, m)
  {
    assert CountedRows(Apply(t, SetState(v, st)), u, m) == CountedRows(t, u, m);
  }

  /** Destroying a VPS takes its row, and no other, out of its user's aggregate. */
  lemma AggregateDropsDestroyed(t: Tables, v: VpsId, u: UserId, m: Month)
    requires v in t.vpses && t.vpses[v].state != Destroyed
    ensures var t' := Apply(t, SetState(v, Destroyed));
            Aggregate(t, u, m) == if t.vpses[v].userId == u
                                  then Plus(Aggregate(t', u, m), PeriodRow(t.periods, (v, m)))
                                  else Aggregate(t', u, m)
  {
    var t' := Apply(t, SetState(v, Destroyed));
    hide Total, CountedRows;
    RowsDropDestroyed(t, v, u, m);
    assert (v, m) !in CountedRows(t, u, m) ==>
        CountedRows(t, u, m) - {(v, m)} == CountedRows(t, u, m);
    if t.vpses[v].userId == u && (v, m) in t.periods {
      TotalRemove(CountedRows(t, u, m), (v, m));
    }
  }

  lemma RowsDropDestroyed(t: Tables, v: VpsId, u: UserId, m: Month)
    requires v in t.vpses && t.vpses[v].state != Destroyed
    ensures CountedRows(Apply(t, SetState(v, Destroyed)), u, m) == CountedRows(t, u, m) - {(v, m)}
    ensures (v, m) in CountedRows(t, u, m) <==> t.vpses[v].userId == u && (v, m) in t.periods
    ensures (v, m) in CountedRows(t, u, m) ==> CountedRows(t, u, m)[(v, m)] == t.periods[(v, m)]
  {
  }

  /** A charge to a live VPS this month shows up in its user's aggregate and in no other. */
  lemma AggregateTakesCharge(t: Tables, v: VpsId, m: Month, amount: Usage, u: UserId)
    requires v in t.vpses && t.vpses[v].state != Destroyed
    ensures Aggregate(t.(periods := Upsert(t.periods, (v, m), amount)), u, m)
         == if t.vpses[v].userId == u then Plus(Aggregate(t, u, m), amount) else Aggregate(t, u, m)
  {
    hide Total, CountedRows, Upsert;
    RowsTakeCharge(t, v, m, amount, u);
    if t.vpses[v].userId == u {
      TotalUpsert(CountedRows(t, u, m), Charge((v, m), amount));
    }
  }

  lemma RowsTakeCharge(t: Tables, v: VpsId, m: Month, amount: Usage, u: UserId)
    requires v in t.vpses && t.vpses[v].state != Destroyed
    ensures CountedRows(t.(periods := Upsert(t.periods, (v, m), amount)), u, m)
         == if t.vpses[v].userId == u then Upsert(CountedRows(t, u, m), (v, m), amount) else CountedRows(t, u, m)
  {
  }

  /** The counted rows whose key is still to be visited. */
  ghost function Unvisited(counted: map<Key, Usage>, keys: set<Key>): map<Key, Usage> {
    map k | k in counted && k in keys :: counted[k]
  }

  /** Visiting a key moves its row, if counted, from the unvisited rows into the sum. */
  lemma VisitKey(counted: map<Key, Usage>, keys: set<Key>, k: Key)
    requires k in keys
    ensures Total(Unvisited(counted, keys))
         == if k in counted then Plus(counted[k], Total(Unvisited(counted, keys - {k})))
            else Total(Unvisited(counted, keys - {k}))
  {
    hide Total;
    assert Unvisited(counted, keys - {k}) == Unvisited(counted, keys) - {k};
    if k in counted {
      TotalRemove(Unvisited(counted, keys), k);
    } else {
      assert Unvisited(counted, keys) - {k} == Unvisited(counted, keys);
    }
  }

  lemma AllUnvisited(t: Tables, u: UserId, m: Month)
    ensures Unvisited(CountedRows(t, u, m), t.periods.Keys) == CountedRows(t, u, m)
    ensures Unvisited(CountedRows(t, u, m), {}) == map[]
  {
  }

  lemma CountedRow(t: Tables, u: UserId, m: Month, k: Key)
    requires k in t.periods
    ensures k in CountedRows(t, u, m) <==> InMonth(t, u, m, k) && t.vpses[k.0].state != Destroyed
    ensures k in CountedRows(t, u, m) ==> CountedRows(t, u, m)[k] == t.periods[k]
  {
  }

  // -- Axis by axis ----------------------------------------------------------------------

  /** A missing row counts as zeros; an upsert adds to each axis of one row and leaves all others. */
  lemma UpsertAdds(periods: map<Key, Usage>, k: Key, amount: Usage)
    ensures var after := Upsert(periods, k, amount);
            && after.Keys == periods.Keys + {k} && after - {k} == periods - {k}
            && after[k].bandwidth == amount.bandwidth + (if k in periods then periods[k].bandwidth else 0)
            && after[k].cpu == amount.cpu + (if k in periods then periods[k].cpu else 0)
            && after[k].memory == amount.memory + (if k in periods then periods[k].memory else 0)
    ensures PeriodRow(periods, k) == if k in periods then periods[k] else Usage(0, 0, 0)
  {
  }

  lemma AggregateOfNothing(t: Tables, u: UserId, month: Month)
    requires t.periods == map[]
    ensures Aggregate(t, u, month) == Usage(0, 0, 0)
  {
    assert CountedRows(t, u, month) == map[];
    TotalEmpty();
  }

  /**
   With the empty table this fixes every aggregate: a charge counts, axis by axis, exactly
   for the user of the VPS, in the month charged, while the VPS is not destroyed.
   */
  lemma AggregateCountsCharge(t: Tables, v: VpsId, charged: Month, amount: Usage, u: UserId, month: Month)
    ensures var before := Aggregate(t, u, month);
            Aggregate(t.(periods := Upsert(t.periods, (v, charged), amount)), u, month) ==
            if month == charged && v in t.vpses && t.vpses[v].userId == u && t.vpses[v].state != Destroyed
            then Usage(before.bandwidth + amount.bandwidth, before.cpu + amount.cpu, before.memory + amount.memory)
            else before
  {
    hide Total;
    var t' := t.(periods := Upsert(t.periods, (v, charged), amount));
    if month == charged && v in t.vpses && t.vpses[v].state != Destroyed {
      AggregateTakesCharge(t, v, month, amount, u);
    } else {
      assert CountedRows(t', u, month) == CountedRows(t, u, month);
    }
  }
}
