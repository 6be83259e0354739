/**
 The CONNECT tunnel: two copy loops, each counting what it reads before it writes it on,
 until one ends, the other is aborted and the counters are loaded.
 */
module Tunnel {
  import opened Prelude
  import Hex

  type Byte = Hex.Byte

  const BUFFER := 8192

  /** Where a copy loop stands. Counting is between the end of a read and the counter update. */
  datatype Place =
    | AwaitingRead
    | Counting(chunk: seq<Byte>)
    | AwaitingWrite(chunk: seq<Byte>, done: nat)
    | Finished(clean: bool)
    | Cancelled

  datatype Copy = Copy(place: Place, counter: nat, read: seq<Byte>, delivered: seq<Byte>)

  const IDLE := Copy(AwaitingRead, 0, [], [])

  datatype Move =
    | Reads(chunk: seq<Byte>)   // read returned Ok(n) with these n bytes
    | ReadEnds                  // Ok(0) or an error
    | Counts                    // fetch_add
    | Writes(bytes: nat)        // part of write_all: the stream took this many bytes
    | WriteFails
    | Cancels                   // an abort noticed at an await

  predicate CanMove(c: Copy, m: Move) {
    match m
    case Reads(chunk) => c.place.AwaitingRead? && 0 < |chunk| <= BUFFER
    case ReadEnds => c.place.AwaitingRead?
    case Counts => c.place.Counting?
    case Writes(n) => c.place.AwaitingWrite? && 0 < n && c.place.done + n <= |c.place.chunk|
    case WriteFails => c.place.AwaitingWrite?
    case Cancels => c.place.AwaitingRead? || c.place.AwaitingWrite?
  }

  function Moved(c: Copy, m: Move): Copy
    requires CanMove(c, m)
  {
    match m
    case Reads(chunk) => c.(place := Counting(chunk), read := c.read + chunk)
    case ReadEnds => c.(place := Finished(true))
    case Counts => c.(place := AwaitingWrite(c.place.chunk, 0), counter := c.counter + |c.place.chunk|)
    case Writes(n) =>
      var chunk, done := c.place.chunk, c.place.done + n;
      c.(place := if done == |chunk| then AwaitingRead else AwaitingWrite(chunk, done),
         delivered := c.delivered + chunk[c.place.done..done])
    case WriteFails => c.(place := Finished(false))
    case Cancels => c.(place := Cancelled)
  }

  // -- One direction ---------------------------------------------------------------------

  /** The bytes read and not yet delivered, as long as the loop still has them. */
  function Held(p: Place): seq<Byte> {
    match p
    case Counting(chunk) => chunk
    case AwaitingWrite(chunk, done) => if done <= |chunk| then chunk[done..] else []
    case _ => []
  }

  ghost predicate Sound(c: Copy) {
    && c.delivered <= c.read
    && (c.place.Counting? ==> 0 < |c.place.chunk| <= BUFFER && c.counter == |c.delivered|)
    && (c.place.AwaitingWrite? ==> c.place.done < |c.place.chunk| <= BUFFER)
    && (!Dropped(c.place) ==> c.delivered + Held(c.place) == c.read)
    && (!c.place.Counting? ==> c.counter == |c.read|)
    && |c.delivered| <= c.counter <= |c.delivered| + BUFFER
  }

  /** A loop that was cut short drops what it held. */
  predicate Dropped(p: Place) {
    p.Cancelled? || (p.Finished? && !p.clean)
  }

  lemma MovedSound(c: Copy, m: Move)
    requires Sound(c) && CanMove(c, m)
    ensures Sound(Moved(c, m))
    ensures c.counter <= Moved(c, m).counter && c.delivered <= Moved(c, m).delivered && c.read <= Moved(c, m).read
  {
    if m.Writes? {
      WrittenSound(c, m.bytes);
    }
  }

  lemma WrittenSound(c: Copy, n: nat)
    requires Sound(c) && CanMove(c, Writes(n))
    ensures Sound(Moved(c, Writes(n))) && c.delivered <= Moved(c, Writes(n)).delivered
  {
    var chunk, done := c.place.chunk, c.place.done;
    assert chunk[done..] == chunk[done..done + n] + chunk[done + n..];
    assert Moved(c, Writes(n)).delivered + chunk[done + n..] == c.read;
  }

  // -- Both directions ---------------------------------------------------------------------

  /** The counters as loaded after the select, with what had been delivered and read at each load. */
  datatype Load = Load(counted: nat, delivered: nat, read: nat)

  datatype Tunnel = Tunnel(outward: Copy, inward: Copy, selected: bool, loadedIn: Option<Load>, loadedOut: Option<Load>)

  const START := Tunnel(IDLE, IDLE, false, None, None)

  datatype Label = Outward(m: Move) | Inward(m: Move) | Selects | LoadsIn | LoadsOut

  function LoadOf(c: Copy): Load {
    Load(c.counter, |c.delivered|, |c.read|)
  }

  /** Only an abort requested by the select can cancel a loop. */
  predicate Enabled(t: Tunnel, l: Label) {
    match l
    case Outward(m) => CanMove(t.outward, m) && (m.Cancels? ==> t.selected)
    case Inward(m) => CanMove(t.inward, m) && (m.Cancels? ==> t.selected)
    case Selects => !t.selected && (t.outward.place.Finished? || t.inward.place.Finished?)
    case LoadsIn => t.selected && t.loadedIn.None?
    case LoadsOut => t.loadedIn.Some? && t.loadedOut.None?
  }

  function Next(t: Tunnel, l: Label): Tunnel {
    if !Enabled(t, l) then t
    else match l
      case Outward(m) => t.(outward := Moved(t.outward, m))
      case Inward(m) => t.(inward := Moved(t.inward, m))
      case Selects => t.(selected := true)
      case LoadsIn => t.(loadedIn := Some(LoadOf(t.inward)))
      case LoadsOut => t.(loadedOut := Some(LoadOf(t.outward)))
  }

  function Run(ls: seq<Label>): Tunnel
    decreases |ls|
  {
    if ls == [] then START else Next(Run(ls[..|ls| - 1]), ls[|ls| - 1])
  }

  /** What add_bandwidth is given. */
  function Total(t: Tunnel): nat
    requires t.loadedIn.Some? && t.loadedOut.Some?
  {
    t.loadedIn.value.counted + t.loadedOut.value.counted
  }

  ghost predicate FairLoad(l: Option<Load>, c: Copy) {
    l.Some? ==>
      && l.value.delivered <= l.value.counted <= l.value.delivered + 8192
      && l.value.counted <= l.value.read <= |c.read| && l.value.delivered <= |c.delivered|
  }

  ghost predicate Invariant(t: Tunnel) {
    && Sound(t.outward) && Sound(t.inward)
    && FairLoad(t.loadedIn, t.inward) && FairLoad(t.loadedOut, t.outward)
    && (t.loadedIn.Some? ==> t.selected)
    && (t.loadedOut.Some? ==> t.loadedIn.Some?)
    && (t.selected ==> t.outward.place.Finished? || t.inward.place.Finished?)
  }

  lemma NextInvariant(t: Tunnel, l: Label)
    requires Invariant(t)
    ensures Invariant(Next(t, l))
  {
    if Enabled(t, l) {
      match l {
        case Outward(m) => MovedSound(t.outward, m);
        case Inward(m) => MovedSound(t.inward, m);
        case _ =>
      }
    }
  }

  lemma {:induction false} RunInvariant(ls: seq<Label>)
    ensures Invariant(Run(ls))
    decreases |ls|
  {
    if ls != [] {
      RunInvariant(ls[..|ls| - 1]);
      NextInvariant(Run(ls[..|ls| - 1]), ls[|ls| - 1]);
    }
  }

  /** What is true of a direction whenever anyone looks. */
  ghost predicate Faithful(c: Copy) {
    && c.delivered <= c.read
    && |c.delivered| <= c.counter <= |c.delivered| + 8192
    && (!c.place.Counting? ==> c.counter == |c.read|)
    && (c.place == Finished(true) ==> c.delivered == c.read)
  }

  /**
   At every interleaving: each direction delivers a prefix of what it reads, and all of it
   when the source ends cleanly; its counter is the bytes read at every await and runs at
   most one buffer ahead of delivery. The total charged covers all that was delivered
   before the loads, and at most one buffer more for each direction.
   */
  lemma TunnelIsFaithful(ls: seq<Label>)
    ensures var t := Run(ls);
            && Faithful(t.outward) && Faithful(t.inward)
            && (t.loadedIn.Some? && t.loadedOut.Some? ==>
                  var delivered := t.loadedIn.value.delivered + t.loadedOut.value.delivered;
                  && delivered <= Total(t) <= delivered + 16384
                  && Total(t) <= |t.inward.read| + |t.outward.read|)
  {
    RunInvariant(ls);
  }

  lemma {:induction false} RunGrows(ls: seq<Label>, i: nat)
    requires i <= |ls|
    ensures var a, b := Run(ls[..i]), Run(ls);
            && a.outward.counter <= b.outward.counter && a.inward.counter <= b.inward.counter
            && a.outward.delivered <= b.outward.delivered && a.inward.delivered <= b.inward.delivered
            && (a.loadedIn.Some? ==> b.loadedIn == a.loadedIn) && (a.loadedOut.Some? ==> b.loadedOut == a.loadedOut)
    decreases |ls|
  {
    if i == |ls| {
      assert ls[..i] == ls;
    } else {
      var init, l := ls[..|ls| - 1], ls[|ls| - 1];
      assert init[..i] == ls[..i];
      RunGrows(init, i);
      RunInvariant(init);
      var t := Run(init);
      if Enabled(t, l) {
        match l {
          case Outward(m) => MovedSound(t.outward, m);
          case Inward(m) => MovedSound(t.inward, m);
          case _ =>
        }
      }
    }
  }

  /** Nothing delivered before the first counter is loaded escapes the charge, whenever the flush comes. */
  lemma {:induction false} DeliveredIsCharged(ls: seq<Label>, i: nat)
    requires i <= |ls| && Run(ls[..i]).loadedIn.None?
    requires Run(ls).loadedIn.Some? && Run(ls).loadedOut.Some?
    ensures |Run(ls[..i]).outward.delivered| + |Run(ls[..i]).inward.delivered| <= Total(Run(ls))
    decreases |ls|
  {
    assert ls[..|ls|] == ls;
    if i == |ls| {
      assert false;
    }
    var init, l := ls[..|ls| - 1], ls[|ls| - 1];
    assert init[..i] == ls[..i];
    if Run(init).loadedOut.Some? {
      RunInvariant(init);
      DeliveredIsCharged(init, i);
    } else {
      DeliveredByLoad(init, i);
      RunGrows(init, i);
      RunInvariant(init);
    }
  }

  lemma {:induction false} DeliveredByLoad(ls: seq<Label>, i: nat)
    requires i <= |ls| && Run(ls[..i]).loadedIn.None? && Run(ls).loadedIn.Some?
    ensures |Run(ls[..i]).inward.delivered| <= Run(ls).loadedIn.value.counted
    decreases |ls|
  {
    assert ls[..|ls|] == ls;
    if i == |ls| {
      assert false;
    }
    var init := ls[..|ls| - 1];
    assert init[..i] == ls[..i];
    if Run(init).loadedIn.Some? {
      DeliveredByLoad(init, i);
    } else {
      RunGrows(init, i);
      RunInvariant(init);
    }
  }

  lemma RunExtends(ls: seq<Label>, l: Label)
    ensures Run(ls + [l]) == Next(Run(ls), l)
  {
    assert (ls + [l])[..|ls|] == ls;
  }

  function Joined(chunks: seq<seq<Byte>>): seq<Byte>
    decreases |chunks|
  {
    if chunks == [] then [] else Joined(chunks[..|chunks| - 1]) + chunks[|chunks| - 1]
  }

  /** Chunks as they may be read, none empty and none longer than the buffer. */
  predicate Readable(chunks: seq<seq<Byte>>) {
    forall i :: 0 <= i < |chunks| ==> 0 < |chunks[i]| <= 8192
  }

  /** The loop has passed on these bytes and waits for more. */
  predicate Passed(c: Copy, bytes: seq<Byte>) {
    c == Copy(AwaitingRead, |bytes|, bytes, bytes)
  }

  function Turn(outward: bool, chunk: seq<Byte>): seq<Label> {
    if outward then [Outward(Reads(chunk)), Outward(Counts), Outward(Writes(|chunk|))]
    else [Inward(Reads(chunk)), Inward(Counts), Inward(Writes(|chunk|))]
  }

  lemma RunThree(ls: seq<Label>, a: Label, b: Label, c: Label)
    ensures Run(ls + [a, b, c]) == Next(Next(Next(Run(ls), a), b), c)
  {
    hide Next;
    assert ls + [a, b, c] == ls + [a] + [b] + [c];
    RunExtends(ls, a);
    RunExtends(ls + [a], b);
    RunExtends(ls + [a] + [b], c);
  }

  lemma TurnPasses(ls: seq<Label>, outward: bool, chunk: seq<Byte>, bytes: seq<Byte>)
    requires 0 < |chunk| <= 8192 && Passed(if outward then Run(ls).outward else Run(ls).inward, bytes)
    ensures var t, t' := Run(ls), Run(ls + Turn(outward, chunk));
            if outward then Passed(t'.outward, bytes + chunk) && t' == t.(outward := t'.outward)
            else Passed(t'.inward, bytes + chunk) && t' == t.(inward := t'.inward)
  {
    var turn := Turn(outward, chunk);
    RunThree(ls, turn[0], turn[1], turn[2]);
    assert turn == [turn[0], turn[1], turn[2]] && chunk[0..|chunk|] == chunk;
  }

  lemma {:induction false} BothPass(out: seq<seq<Byte>>, back: seq<seq<Byte>>) returns (ls: seq<Label>)
    requires Readable(out) && Readable(back)
    ensures var t := Run(ls);
            && Passed(t.outward, Joined(out)) && Passed(t.inward, Joined(back))
            && t == START.(outward := t.outward, inward := t.inward)
    decreases |out|, |back|
  {
    hide Next, Passed, Turn;
    if out != [] {
      var rest := BothPass(out[..|out| - 1], back);
      ls := rest + Turn(true, out[|out| - 1]);
      TurnPasses(rest, true, out[|out| - 1], Joined(out[..|out| - 1]));
    } else if back != [] {
      var rest := BothPass(out, back[..|back| - 1]);
      ls := rest + Turn(false, back[|back| - 1]);
      TurnPasses(rest, false, back[|back| - 1], Joined(back[..|back| - 1]));
    } else {
      ls := [];
      NothingPassed();
    }
  }

  lemma NothingPassed()
    ensures Passed(IDLE, [])
  {
  }

  /** Whatever both ends send before one closes, some run delivers all of it and charges exactly that. */
  lemma EverythingIsDelivered(out: seq<seq<Byte>>, back: seq<seq<Byte>>) returns (ls: seq<Label>)
    requires Readable(out) && Readable(back)
    ensures var t := Run(ls);
            && t.outward.read == t.outward.delivered == Joined(out)
            && t.inward.read == t.inward.delivered == Joined(back)
            && t.outward.place == Finished(true) && t.inward.place.AwaitingRead?
            && t.loadedIn.Some? && t.loadedOut.Some?
            && Total(t) == |Joined(out)| + |Joined(back)|
  {
    var most := BothPass(out, back);
    ls := most + [Outward(ReadEnds)] + [Selects, LoadsIn, LoadsOut];
    RunExtends(most, Outward(ReadEnds));
    RunThree(most + [Outward(ReadEnds)], Selects, LoadsIn, LoadsOut);
  }

  /** As soon as one of the loops has ended, however and whichever it is, both counters can be charged. */
  lemma ChargeFollows(ls: seq<Label>)
    requires var t := Run(ls);
             (t.outward.place.Finished? || t.inward.place.Finished?) && t.loadedIn.None? && t.loadedOut.None?
    ensures var t, t' := Run(ls), Run(ls + [Selects, LoadsIn, LoadsOut]);
            && t'.loadedIn.Some? && t'.loadedOut.Some?
            && Total(t') == t.outward.counter + t.inward.counter
  {
    RunThree(ls, Selects, LoadsIn, LoadsOut);
  }

  /** Both bounds are tight: each direction can be charged a full buffer it never delivers. */
  lemma BoundsAreReached(chunk: seq<Byte>) returns (ls: seq<Label>)
    requires |chunk| == 8192
    ensures var t := Run(ls);
            && t.outward.counter == |t.outward.delivered| + 8192
            && t.inward.counter == |t.inward.delivered| + 8192
            && t.loadedIn.Some? && t.loadedOut.Some?
            && Total(t) == t.loadedIn.value.delivered + t.loadedOut.value.delivered + 16384
  {
    var steps := [Outward(Reads(chunk)), Outward(Counts), Inward(Reads(chunk)), Inward(Counts),
                  Outward(WriteFails), Selects, LoadsIn, LoadsOut];
    ls := [];
    var t := START;
    for i := 0 to |steps|
      invariant Run(ls) == t && ls == steps[..i]
      invariant t == AfterStalled(chunk, i)
    {
      RunExtends(ls, steps[i]);
      ls, t := ls + [steps[i]], Next(t, steps[i]);
    }
  }

  /** Both directions read and count a chunk, the outward write fails, and the counters are loaded. */
  function AfterStalled(chunk: seq<Byte>, i: nat): Tunnel {
    var n := |chunk|;
    var waiting := Copy(AwaitingWrite(chunk, 0), n, chunk, []);
    var reading := Copy(Counting(chunk), 0, chunk, []);
    var failed := Copy(Finished(false), n, chunk, []);
    var load := Some(Load(n, 0, n));
    if i == 0 then START
    else if i == 1 then START.(outward := reading)
    else if i == 2 then START.(outward := waiting)
    else if i == 3 then START.(outward := waiting, inward := reading)
    else if i == 4 then START.(outward := waiting, inward := waiting)
    else Tunnel(failed, waiting, i >= 6, if i >= 7 then load else None, if i >= 8 then load else None)
  }

  // -- The copy loop as it runs ----------------------------------------------------------------

  /** One spawned copy task with its buffer. Each method runs up to the next await. */
  class CopyTask {
    const buf: array<Byte>
    var n: nat       // bytes of the current chunk
    var done: nat    // of which this many are written
    var place: Place
    var counter: nat
    ghost var read: seq<Byte>
    ghost var delivered: seq<Byte>

    constructor ()
      ensures Valid() && fresh(buf) && View() == IDLE
    {
      buf := new Byte[BUFFER](_ => 0);
      n, done, place, counter, read, delivered := 0, 0, AwaitingRead, 0, [], [];
    }

    /** While a chunk is being counted or written it lies at the start of the buffer. */
    ghost predicate Valid()
      reads this, buf
    {
      && buf.Length == BUFFER && n <= BUFFER
      && (place.Counting? ==> place.chunk == buf[..n])
      && (place.AwaitingWrite? ==> place == AwaitingWrite(buf[..n], done) && done <= n)
    }

    ghost function View(): Copy
      reads this
    {
      Copy(place, counter, read, delivered)
    }

    /** An empty read, or a failed one, ends the loop. */
    method Read(data: seq<Byte>)
      requires Valid() && place.AwaitingRead? && |data| <= BUFFER
      modifies this, buf
      ensures Valid() && View() == Moved(old(View()), if data == [] then ReadEnds else Reads(data))
    {
      if data == [] {
        place := Finished(true);
        return;
      }
      for i := 0 to |data|
        modifies buf
        invariant buf[..i] == data[..i]
      {
        buf[i] := data[i];
      }
      assert buf[..|data|] == data;
      n := |data|;
      place := Counting(data);
      read := read + data;
    }

    method Count()
      requires Valid() && CanMove(View(), Counts)
      modifies this
      ensures Valid() && View() == Moved(old(View()), Counts)
    {
      counter := counter + n;
      done := 0;
      place := AwaitingWrite(buf[..n], 0);
    }

    /** The stream takes some bytes, or fails. */
    method Write(taken: Option<nat>)
      requires Valid() && place.AwaitingWrite? && (taken.Some? ==> CanMove(View(), Writes(taken.value)))
      modifies this
      ensures Valid() && View() == Moved(old(View()), if taken.None? then WriteFails else Writes(taken.value))
    {
      if taken.None? {
        place := Finished(false);
        return;
      }
      var end := done + taken.value;
      delivered := delivered + buf[done..end];
      assert buf[..n][done..end] == buf[done..end];
      done := end;
      place := if done == n then AwaitingRead else AwaitingWrite(buf[..n], done);
    }
  }
}
