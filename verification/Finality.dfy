/**
 When a destroyed VPS stays destroyed. One at a time the handlers never bring one back;
 interleaved, they can exactly while one of them still holds it for a live write.
 */
module Finality {
  import opened Prelude
  import opened Store
  import opened Interleaving
  import opened Quota
  import opened Embedding

  ghost predicate DestroyedIn(t: Tables, v: VpsId) {
    v in t.vpses && t.vpses[v].state == Destroyed
  }

  /** The statement marks v running or stopped. */
  predicate Revives(st: Option<Statement>, v: VpsId) {
    st.Some? && st.value.SetState? && st.value.vps == v && st.value.state != Destroyed
  }

  /** The handler will mark v, if it gets that far: a mark is pending, or it provisions v. */
  predicate Holds(h: Handler, v: VpsId) {
    v in Marks(h) || (HasInserted(h) && h.vps == v)
  }

  ghost predicate Held(s: Sys, v: VpsId) {
    exists id :: id in s.hs && Holds(s.hs[id], v)
  }

  // -- The step at which a VPS comes back ----------------------------------------------------

  lemma RevivedBy(t: Tables, st: Statement, v: VpsId)
    requires DestroyedIn(t, v) && v < t.nextVps
    ensures v in Apply(t, st).vpses && (!DestroyedIn(Apply(t, st), v) <==> Revives(Some(st), v))
  {
    match st {
      case InsertVps(_, _, _) =>
      case SetRefs(w, _, _) => if w in t.vpses && w != v { assert Apply(t, st).vpses[v] == t.vpses[v]; }
      case SetState(w, _) => if w in t.vpses && w != v { assert Apply(t, st).vpses[v] == t.vpses[v]; }
      case _ => assert Apply(t, st).vpses == t.vpses;
    }
  }

  /** A destroyed VPS becomes live at exactly the steps that write running or stopped to it. */
  lemma RevivalIff(s: Sys, l: Label, v: VpsId)
    requires SafeTables(s.t) && DestroyedIn(s.t, v)
    ensures v in Next(s, l).t.vpses
    ensures !DestroyedIn(Next(s, l).t, v) <==>
              l.Advance? && l.id in s.hs && Revives(StatementOf(s.t, s.hs[l.id], l.answer), v)
  {
    hide Step, StatementOf, Apply;
    if l.Advance? && l.id in s.hs {
      StepApplies(s.t, s.hs[l.id], l.answer);
      var st := StatementOf(s.t, s.hs[l.id], l.answer);
      if st.Some? {
        RevivedBy(s.t, st.value, v);
      }
    }
  }

  lemma {:induction false} TraceNext(s: Sys, ls: seq<Label>, i: nat)
    requires i < |ls|
    ensures Trace(s, ls)[i + 1] == Next(Trace(s, ls)[i], ls[i])
    decreases |ls|
  {
    hide Next;
    if i > 0 {
      TraceNext(Next(s, ls[0]), ls[1..], i - 1);
    } else {
      assert Trace(s, ls)[1] == Trace(Next(s, ls[0]), ls[1..])[0];
    }
  }

  /** And so along every trace. */
  lemma TraceRevivalIff(s: Sys, ls: seq<Label>, i: nat, v: VpsId)
    requires Safe(s) && i < |ls| && DestroyedIn(Trace(s, ls)[i].t, v)
    ensures var r := Trace(s, ls)[i];
            v in Trace(s, ls)[i + 1].t.vpses
            && (!DestroyedIn(Trace(s, ls)[i + 1].t, v) <==>
                  ls[i].Advance? && ls[i].id in r.hs && Revives(StatementOf(r.t, r.hs[ls[i].id], ls[i].answer), v))
  {
    hide Next, SafeHandler, SafeTables, DestroyedIn, StatementOf, Revives;
    TraceSafe(s, ls);
    assert Safe(Trace(s, ls)[i]);
    TraceNext(s, ls, i);
    RevivalIff(Trace(s, ls)[i], ls[i], v);
  }

  // -- Not held, destroyed for good --------------------------------------------------------------

  lemma RevivesHeld(t: Tables, h: Handler, x: Answer, v: VpsId)
    requires Revives(StatementOf(t, h, x), v)
    ensures Holds(h, v)
  {
    match h {
      case Writing(pending) => assert pending[0] in pending;
      case MonitorStop(todo) => assert todo[0] in todo;
      case _ =>
    }
  }

  /** Nobody takes hold of a destroyed VPS. */
  lemma NeverTaken(t: Tables, h: Handler, x: Answer, v: VpsId)
    requires SafeTables(t) && SafeHandler(t, h) && DestroyedIn(t, v) && !Holds(h, v)
    ensures var rest := Step(t, h, x).1; rest.Some? ==> !Holds(rest.value, v)
  {
    hide Step, SafeHandler, Marks;
    var rest := Step(t, h, x).1;
    if rest.Some? {
      if v in Marks(rest.value) {
        NewlyMarked(t, h, x, 0, v);
      } else if HasInserted(rest.value) && rest.value.vps == v {
        NewlyInserted(t, h, x);
      }
    }
  }

  lemma FirstHoldsNone(h: Handler, v: VpsId)
    requires IsFirst(h)
    ensures !Holds(h, v)
  {
  }

  lemma StaysDestroyed(s: Sys, l: Label, v: VpsId)
    requires Safe(s) && DestroyedIn(s.t, v) && !Held(s, v)
    ensures Safe(Next(s, l)) && DestroyedIn(Next(s, l).t, v) && !Held(Next(s, l), v)
  {
    hide SafeTables, SafeHandler, Step, StatementOf, Holds, IsFirst, DestroyedIn, Revives;
    NextSafe(s, l);
    RevivalIff(s, l, v);
    if l.Advance? && l.id in s.hs {
      var h := s.hs[l.id];
      if Revives(StatementOf(s.t, h, l.answer), v) {
        RevivesHeld(s.t, h, l.answer, v);
      }
      NeverTaken(s.t, h, l.answer, v);
    } else if l.Begin? && IsFirst(l.h) {
      FirstHoldsNone(l.h, v);
    }
  }

  lemma {:induction false} StaysDestroyedOver(s: Sys, ls: seq<Label>, v: VpsId)
    requires Safe(s) && DestroyedIn(s.t, v) && !Held(s, v)
    ensures DestroyedIn(Final(s, ls).t, v)
    decreases |ls|
  {
    hide Safe, Next, Held, DestroyedIn;
    if ls != [] {
      StaysDestroyed(s, ls[0], v);
      StaysDestroyedOver(Next(s, ls[0]), ls[1..], v);
    }
  }

  // -- Held, it can come back -----------------------------------------------------------------------

  /** How many steps a handler is from its last write. */
  function Left(h: Handler): nat {
    match h
    case Writing(pending) => |pending|
    case MonitorStop(todo) => |todo|
    case ProvisionAssign(_, _, _) => 4
    case ProvisionCreate(_, _) => 3
    case ProvisionRefs(_, _, _, _) => 2
    case ProvisionFinish(_, _) => 1
    case _ => 0
  }

  lemma Written(t: Tables, st: Statement, v: VpsId)
    requires v in t.vpses
    ensures v in Apply(t, st).vpses
    ensures Revives(Some(st), v) ==> !DestroyedIn(Apply(t, st), v)
  {
  }

  /** The step marked v, or what remains of the handler holds v and is nearer to the mark. */
  ghost predicate Closer(t: Tables, h: Handler, t': Tables, rest: Option<Handler>, v: VpsId) {
    && v in t'.vpses
    && (!DestroyedIn(t', v) || (rest.Some? && Holds(rest.value, v) && Left(rest.value) < Left(h)))
  }

  lemma WritingCloser(t: Tables, pending: seq<Statement>, v: VpsId)
    requires v in t.vpses && v in Marks(Writing(pending))
    ensures Closer(t, Writing(pending), Step(t, Writing(pending), YES).0, Step(t, Writing(pending), YES).1, v)
  {
    var st :| st in pending && st.SetState? && st.state != Destroyed && st.vps == v;
    Written(t, pending[0], v);
    hide Apply, DestroyedIn;
    if pending[0] != st {
      assert st in pending[1..];
      assert v in Marks(Writing(pending[1..]));
    }
  }

  lemma MonitorCloser(t: Tables, todo: seq<VpsId>, v: VpsId)
    requires v in t.vpses && v in todo
    ensures Closer(t, MonitorStop(todo), Step(t, MonitorStop(todo), YES).0, Step(t, MonitorStop(todo), YES).1, v)
  {
    Written(t, SetState(todo[0], Stopped), v);
    hide Apply, DestroyedIn;
    if todo[0] != v {
      assert v in todo[1..];
    }
  }

  lemma ProvisionCloser(t: Tables, h: Handler, v: VpsId)
    requires v in t.vpses && HasInserted(h) && h.vps == v
    ensures Closer(t, h, Step(t, h, YES).0, Step(t, h, YES).1, v)
  {
    StepApplies(t, h, YES);
    var st := StatementOf(t, h, YES);
    if st.Some? {
      Written(t, st.value, v);
    }
    hide Apply, DestroyedIn;
  }

  /** One step of the holder marks v or brings the mark nearer. */
  lemma OneCloser(t: Tables, h: Handler, v: VpsId)
    requires v in t.vpses && Holds(h, v)
    ensures Closer(t, h, Step(t, h, YES).0, Step(t, h, YES).1, v)
  {
    hide Closer, Step;
    if HasInserted(h) && h.vps == v {
      ProvisionCloser(t, h, v);
    } else if h.Writing? {
      WritingCloser(t, h.pending, v);
    } else {
      MonitorCloser(t, h.todo, v);
    }
  }

  lemma {:induction false} ComesBack(s: Sys, id: nat, v: VpsId) returns (ls: seq<Label>)
    requires id in s.hs && v in s.t.vpses && Holds(s.hs[id], v)
    ensures !DestroyedIn(Final(s, ls).t, v)
    decreases Left(s.hs[id])
  {
    hide Step, Holds, DestroyedIn, Left;
    OneCloser(s.t, s.hs[id], v);
    var l := Advance(id, YES);
    var s' := Next(s, l);
    if !DestroyedIn(s'.t, v) {
      ls := [l];
      assert ls[1..] == [];
    } else {
      var rest := ComesBack(s', id, v);
      ls := [l] + rest;
      assert ls[1..] == rest;
    }
  }

  /** Whatever happens from here, v stays destroyed. */
  ghost predicate DestroyedForGood(s: Sys, v: VpsId) {
    forall ls :: DestroyedIn(Final(s, ls).t, v)
  }

  /** A destroyed VPS stays destroyed in every continuation exactly when no handler holds it. */
  lemma DestroyedForGoodIff(s: Sys, v: VpsId)
    requires Safe(s) && DestroyedIn(s.t, v)
    ensures DestroyedForGood(s, v) <==> !Held(s, v)
  {
    hide Safe, DestroyedIn, Holds;
    if Held(s, v) {
      var id :| id in s.hs && Holds(s.hs[id], v);
      InTable(s.t, v);
      var ls := ComesBack(s, id, v);
      assert !DestroyedIn(Final(s, ls).t, v);
    } else {
      forall ls ensures DestroyedIn(Final(s, ls).t, v) {
        StaysDestroyedOver(s, ls, v);
      }
    }
  }

  lemma InTable(t: Tables, v: VpsId)
    requires DestroyedIn(t, v)
    ensures v in t.vpses
  {
  }
}
