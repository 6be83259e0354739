/**
 The monitor among the interleaved handlers: left alone, it can do what any enforcement
 pass does, and whatever it does is to stop running VPSes that have a VM.
 */
module MonitorSteps {
  import opened Prelude
  import opened Store
  import opened Interleaving
  import opened Embedding
  import opened Alone
  import Monitor

  /** The picked VPSes stop one by one. */
  lemma {:induction false} StopsOut(t: Tables, todo: seq<VpsId>)
    ensures Yields(Solo(t, MonitorStop(todo)), Idle(Monitor.StopAll(t, Members(todo))))
    decreases |todo|
  {
    hide Yields, Apply;
    if todo == [] {
      Monitor.NoneStopped(t);
      assert Members(todo) == {};
      Moves(t, MonitorStop(todo), YES);
    } else {
      var t1 := Apply(t, SetState(todo[0], Stopped));
      StopsOut(t1, todo[1..]);
      FirstStopped(t, todo);
      MovesThen(t, MonitorStop(todo), YES, Idle(Monitor.StopAll(t, Members(todo))));
    }
  }

  function Members(todo: seq<VpsId>): set<VpsId> {
    set v | v in todo
  }

  lemma FirstStopped(t: Tables, todo: seq<VpsId>)
    requires todo != []
    ensures Monitor.StopAll(Apply(t, SetState(todo[0], Stopped)), Members(todo[1..]))
         == Monitor.StopAll(t, Members(todo))
  {
    hide Apply, Monitor.StopAll;
    var v, vs := todo[0], Members(todo[1..]);
    assert Members(todo) == vs + {v};
    Monitor.NoneStopped(t);
    Monitor.StopOneMore(t, {}, v);
    assert {} + {v} == {v};
    StoppedTogether(t, v, vs);
  }

  lemma StoppedTogether(t: Tables, v: VpsId, vs: set<VpsId>)
    ensures Monitor.StopAll(Monitor.StopAll(t, {v}), vs) == Monitor.StopAll(t, vs + {v})
  {
    var a, b := Monitor.StopAll(Monitor.StopAll(t, {v}), vs), Monitor.StopAll(t, vs + {v});
    assert a.vpses.Keys == b.vpses.Keys;
    assert forall w :: w in a.vpses ==> a.vpses[w] == b.vpses[w];
    assert a.vpses == b.vpses;
  }

  /** The elements of a finite set, in some order. */
  lemma {:induction false} Listing(vs: set<VpsId>) returns (listed: seq<VpsId>)
    ensures Members(listed) == vs
    decreases vs
  {
    if vs == {} {
      listed := [];
    } else {
      var v :| v in vs;
      var rest := Listing(vs - {v});
      listed := [v] + rest;
      assert Members([v] + rest) == {v} + Members(rest);
    }
  }

  /** Every enforcement pass is a run of the monitor's small steps. */
  lemma EnforcementInSteps(t: Tables, luck: Monitor.Luck, month: Month)
    ensures Yields(Solo(t, MonitorList), Idle(Monitor.Enforced(t, luck, month)))
  {
    hide Yields, Monitor.StopAll, Monitor.OverBudget, Monitor.SeenOnHetzner;
    var vs := Monitor.StopSet(t, luck, month);
    var picked := Listing(vs);
    forall v | v in picked ensures HasVm(t, v, Running) {
      assert v in Members(picked);
    }
    StopsOut(t, picked);
    MovesThen(t, MonitorList, Answer(true, "", None, picked), Idle(Monitor.Enforced(t, luck, month)));
  }

  lemma {:induction false} StopsEnd(t: Tables, todo: seq<VpsId>, ls: seq<Label>, e: Tables) returns (vs: set<VpsId>)
    requires RunsTo(t, MonitorStop(todo), ls, e)
    ensures vs <= Members(todo) && e == Monitor.StopAll(t, vs)
    decreases |ls|
  {
    hide RunsTo, Apply;
    Unfold(t, MonitorStop(todo), ls, e);
    Monitor.NoneStopped(t);
    if todo == [] {
      vs := {};
    } else {
      var v, rest := todo[0], todo[1..];
      assert Members(todo) == Members(rest) + {v};
      if ls[0].answer.ok {
        var later := StopsEnd(Apply(t, SetState(v, Stopped)), rest, ls[1..], e);
        vs := later + {v};
        Monitor.StopOneMore(t, {}, v);
        assert {} + {v} == {v};
        StoppedTogether(t, v, later);
      } else {
        vs := StopsEnd(t, rest, ls[1..], e);
      }
    }
  }

  /** And a run to its end stops some of the running VPSes that have a VM, and changes nothing else. */
  lemma MonitorOnlyStops(t: Tables, ls: seq<Label>, e: Tables) returns (vs: set<VpsId>)
    requires RunsTo(t, MonitorList, ls, e)
    ensures forall v :: v in vs ==> v in t.vpses && t.vpses[v].state == Running && t.vpses[v].vmId.Some?
    ensures e == Monitor.StopAll(t, vs)
  {
    hide RunsTo;
    Unfold(t, MonitorList, ls, e);
    Monitor.NoneStopped(t);
    vs := {};
    var picked := ls[0].answer.picked;
    if forall v :: v in picked ==> HasVm(t, v, Running) {
      vs := StopsEnd(t, picked, ls[1..], e);
    }
  }
}
