/**
 What ends the relay's readers, how full its queue gets, and that everything the two
 peers send can be relayed and is then charged.
 */
module RelayRuns {
  import opened Prelude
  import opened Transducer
  import opened Relay

  // -- Ends ------------------------------------------------------------------------------

  /** Nothing was read after a close, which the reader passes on without its reason before it ends. */
  predicate CloseIsLast(frames: seq<Frame>, r: Reader) {
    forall i :: 0 <= i < |frames| && frames[i].Close? ==> i == |frames| - 1 && (r.Ended? || r == Passing(Close(None)))
  }

  /** A close, or a text or binary frame that could not be sent. */
  predicate Fatal(attempts: seq<Attempt>) {
    attempts != []
    && var last := attempts[|attempts| - 1];
       last.frame.Close? || (!last.ok && (last.frame.Text? || last.frame.Binary?))
  }

  /** A close, or text or binary data that found the writer gone. */
  predicate Hopeless(frames: seq<Frame>, writer: Writer) {
    frames != []
    && var last := frames[|frames| - 1];
       last.Close? || (writer.Gone? && (last.Text? || last.Binary?))
  }

  ghost predicate ClientEnd(s: Session, ls: seq<Label>) {
    && CloseIsLast(s.fromClient, s.client)
    && (Fatal(s.attempts) ==> s.client.Ended?)
    && (s.client.Ended? ==> ClientEnds in ls || Fatal(s.attempts))
  }

  ghost predicate UpstreamEnd(s: Session, ls: seq<Label>) {
    && CloseIsLast(s.fromUpstream, s.upstream)
    && !s.upstream.Replying?
    && (s.upstream.Passing? ==>
          && s.fromUpstream != []
          && RelayedFor(s.fromUpstream[|s.fromUpstream| - 1]) == [s.upstream.frame])
    && (s.upstream.Ended? ==> UpstreamEnds in ls || Hopeless(s.fromUpstream, s.writer))
  }

  lemma ClientEndKept(c: Codec, s: Session, ls: seq<Label>, l: Label)
    requires ClientEnd(s, ls)
    ensures ClientEnd(Next(c, s, l), ls + [l])
  {
    hide AfterClientRead, AfterUpstreamRead, Enqueue;
    assert ClientEnds in ls + [l] <==> ClientEnds in ls || l == ClientEnds;
    if Enabled(s, l) {
      match l {
        case ClientReads(f) =>
          ClientReadEffect(c, s, f);
          ClosePassedOn(c, s, f);
        case UpstreamReads(f) => UpstreamReadEffect(s, f);
        case ClientReplies => EnqueueEffect(s, Reply(s.client.reply));
        case UpstreamEnqueues => EnqueueEffect(s, FromUpstream(s.upstream.frame));
        case _ =>
      }
    }
  }

  lemma ClosePassedOn(c: Codec, s: Session, f: Frame)
    ensures !AfterClientRead(c, s, f).client.Ended? || s.client.Ended?
    ensures f.Close? ==> AfterClientRead(c, s, f).client == Passing(Close(None))
  {
  }

  lemma UpstreamPassedOn(s: Session, f: Frame)
    requires s.upstream.Reading?
    ensures AfterUpstreamRead(s, f).upstream == if f.Raw? then Reading else Passing(RelayedFor(f)[0])
    ensures !f.Raw? ==> |RelayedFor(f)| == 1 && (f.Close? ==> RelayedFor(f)[0] == Close(None))
  {
  }

  lemma UpstreamEndKept(c: Codec, s: Session, ls: seq<Label>, l: Label)
    requires UpstreamEnd(s, ls)
    ensures UpstreamEnd(Next(c, s, l), ls + [l])
  {
    hide AfterClientRead, AfterUpstreamRead, Enqueue;
    assert UpstreamEnds in ls + [l] <==> UpstreamEnds in ls || l == UpstreamEnds;
    if Enabled(s, l) {
      match l {
        case ClientReads(f) => ClientReadEffect(c, s, f);
        case UpstreamReads(f) =>
          UpstreamReadEffect(s, f);
          UpstreamPassedOn(s, f);
        case ClientReplies => EnqueueEffect(s, Reply(s.client.reply));
        case UpstreamEnqueues => EnqueueEffect(s, FromUpstream(s.upstream.frame));
        case _ =>
      }
    }
  }

  /** One act of each reader: exactly when it ends, and that otherwise it reads on. */
  lemma ReaderAfterAct(c: Codec, s: Session, ok: bool)
    ensures s.client.Passing? ==>
              var f := s.client.frame;
              Next(c, s, ClientSends(ok)).client ==
              if f.Close? || (!ok && (f.Text? || f.Binary?)) then Ended else Reading
    ensures s.client.Replying? && Enabled(s, ClientReplies) ==> Next(c, s, ClientReplies).client == Reading
    ensures s.upstream.Passing? && Enabled(s, UpstreamEnqueues) ==>
              var f := s.upstream.frame;
              Next(c, s, UpstreamEnqueues).upstream ==
              if f.Close? || (s.writer.Gone? && (f.Text? || f.Binary?)) then Ended else Reading
  {
  }

  /**
   In every run: each side is read no further than its first close. The client reader has
   ended exactly if its connection ended or its last send was a close or failed text or
   binary; the upstream reader has ended only if its connection ended or it last read a
   close or data the writer was gone for.
   */
  lemma {:induction false} WhatEndsReaders(c: Codec, ls: seq<Label>)
    ensures var s := Run(c, START, ls);
            && ClientEnd(s, ls) && UpstreamEnd(s, ls)
            && (ClientEnds !in ls ==> (s.client.Ended? <==> Fatal(s.attempts)))
    decreases |ls|
  {
    hide Next;
    if ls != [] {
      hide ClientEnd, UpstreamEnd;
      var init, l := ls[..|ls| - 1], ls[|ls| - 1];
      WhatEndsReaders(c, init);
      assert init + [l] == ls;
      ClientEndKept(c, Run(c, START, init), init, l);
      UpstreamEndKept(c, Run(c, START, init), init, l);
      EndsOnlySo(Run(c, START, ls), ls);
    }
  }

  lemma EndsOnlySo(s: Session, ls: seq<Label>)
    requires ClientEnd(s, ls)
    ensures ClientEnds !in ls ==> (s.client.Ended? <==> Fatal(s.attempts))
  {
  }

  // -- Everything can be relayed ----------------------------------------------------------

  lemma {:induction false} RunConcat(c: Codec, s: Session, a: seq<Label>, b: seq<Label>)
    ensures Run(c, s, a + b) == Run(c, Run(c, s, a), b)
    decreases |b|
  {
    hide Next;
    if b == [] {
      assert a + b == a;
    } else {
      assert (a + b)[..|a + b| - 1] == a + b[..|b| - 1];
      RunConcat(c, s, a, b[..|b| - 1]);
    }
  }

  lemma RunOne(c: Codec, s: Session, l: Label)
    ensures Run(c, s, [l]) == Next(c, s, l)
  {
    hide Next;
    assert [l][..0] == [];
  }

  lemma RunTwo(c: Codec, s: Session, l: Label, l': Label)
    ensures Run(c, s, [l, l']) == Next(c, Next(c, s, l), l')
  {
    hide Next;
    assert [l, l'] == [l] + [l'];
    RunConcat(c, s, [l], [l']);
    RunOne(c, s, l);
    RunOne(c, Next(c, s, l), l');
  }

  /** What was read is passed on, queued and written, and both readers may read on. */
  predicate Settled(s: Session) {
    s.client.Reading? && s.upstream.Reading? && s.writer.Receiving? && s.queue == [] && !s.selected && s.flush.None?
  }

  /** The queue's oldest frame is written. */
  lemma WriteOut(c: Codec, s: Session)
    requires s.writer.Receiving? && s.queue != []
    ensures Run(c, s, [WriterTakes, WriterWrites(true)])
         == s.(queue := s.queue[1..], written := s.written + [s.queue[0]])
  {
    RunTwo(c, s, WriterTakes, WriterWrites(true));
  }

  /** Passed on upstream, or refused and the refusal written to the client. */
  function ClientTurn(c: Codec, s: Session, f: Frame): seq<Label> {
    if AfterClientRead(c, s, f).client.Passing? then [ClientReads(f), ClientSends(true)]
    else [ClientReads(f), ClientReplies] + [WriterTakes, WriterWrites(true)]
  }

  lemma ClientTurnSettles(c: Codec, s: Session, f: Frame)
    requires Settled(s) && !f.Raw?
    ensures var s' := Run(c, s, ClientTurn(c, s, f));
            && s'.fromClient == s.fromClient + [f] && s'.fromUpstream == s.fromUpstream
            && (if f.Close? then s'.client.Ended? && Settled(s'.(client := Reading)) else Settled(s'))
  {
    var s1 := Next(c, s, ClientReads(f));
    if s1.client.Passing? {
      RunTwo(c, s, ClientReads(f), ClientSends(true));
      CloseOnly(c, s, f);
    } else {
      var s2 := Next(c, s1, ClientReplies);
      RunTwo(c, s, ClientReads(f), ClientReplies);
      RunConcat(c, s, [ClientReads(f), ClientReplies], [WriterTakes, WriterWrites(true)]);
      WriteOut(c, s2);
    }
  }

  lemma CloseOnly(c: Codec, s: Session, f: Frame)
    requires AfterClientRead(c, s, f).client.Passing?
    ensures AfterClientRead(c, s, f).client.frame.Close? <==> f.Close?
  {
  }

  function UpstreamTurn(f: Frame): seq<Label> {
    if f.Raw? then [UpstreamReads(f)] else [UpstreamReads(f), UpstreamEnqueues] + [WriterTakes, WriterWrites(true)]
  }

  lemma UpstreamTurnSettles(c: Codec, s: Session, f: Frame)
    requires Settled(s)
    ensures var s' := Run(c, s, UpstreamTurn(f));
            && s'.fromUpstream == s.fromUpstream + [f] && s'.fromClient == s.fromClient
            && (if f.Close? then s'.upstream.Ended? && Settled(s'.(upstream := Reading)) else Settled(s'))
  {
    if f.Raw? {
      RunOne(c, s, UpstreamReads(f));
    } else {
      RunTwo(c, s, UpstreamReads(f), UpstreamEnqueues);
      RunConcat(c, s, [UpstreamReads(f), UpstreamEnqueues], [WriterTakes, WriterWrites(true)]);
      WriteOut(c, Next(c, Next(c, s, UpstreamReads(f)), UpstreamEnqueues));
    }
  }

  lemma {:induction false} UpstreamRead(c: Codec, down: seq<Frame>) returns (ls: seq<Label>)
    requires forall f :: f in down ==> !f.Close?
    ensures var s := Run(c, START, ls);
            Settled(s) && s.fromUpstream == down && s.fromClient == []
    decreases |down|
  {
    hide Next, UpstreamTurn;
    if down == [] {
      ls := [];
    } else {
      var init, f := down[..|down| - 1], down[|down| - 1];
      var rest := UpstreamRead(c, init);
      ls := rest + UpstreamTurn(f);
      RunConcat(c, START, rest, UpstreamTurn(f));
      UpstreamTurnSettles(c, Run(c, START, rest), f);
      assert init + [f] == down;
    }
  }

  lemma {:induction false} BothRead(c: Codec, up: seq<Frame>, down: seq<Frame>) returns (ls: seq<Label>)
    requires (forall f :: f in up ==> !f.Close? && !f.Raw?) && forall f :: f in down ==> !f.Close?
    ensures var s := Run(c, START, ls);
            Settled(s) && s.fromUpstream == down && s.fromClient == up
    decreases |up|
  {
    hide Next, ClientTurn;
    if up == [] {
      ls := UpstreamRead(c, down);
    } else {
      var init, f := up[..|up| - 1], up[|up| - 1];
      var rest := BothRead(c, init, down);
      ls := rest + ClientTurn(c, Run(c, START, rest), f);
      RunConcat(c, START, rest, ClientTurn(c, Run(c, START, rest), f));
      ClientTurnSettles(c, Run(c, START, rest), f);
      assert init + [f] == up;
    }
  }

  /**
   Whatever the two peers send before they close, some run relays all of it: the image
   upstream, every relayed frame and every refusal to the client, and no byte uncharged.
   The client's close goes upstream, and the flush follows.
   */
  lemma EverythingIsRelayed(c: Codec, up: seq<Frame>, down: seq<Frame>, reason: Option<Bytes>)
    returns (ls: seq<Label>)
    requires (forall f :: f in up ==> !f.Close? && !f.Raw?) && forall f :: f in down ==> !f.Close?
    ensures var s := Run(c, START, ls);
            && FramesOf(s.attempts) == Upstream(c, up) + [Close(None)]
            && s.written == QueuedFrames(s.enqueued)
            && Relayed(s.enqueued) == Downstream(down) && Replies(s.enqueued) == RepliesTo(c, Blocked(c, up))
            && s.client.Ended? && s.upstream.Reading?
            && s.flush == Some(Flush(Volume(up) + Volume(down), |up| + 1, |down|))
  {
    hide Upstream, Downstream, Relayed, Replies, RepliesTo, Blocked, Volume, Next, Invariant, ClientTurn;
    var most := BothRead(c, up, down);
    var s1 := Run(c, START, most);
    ls := most + ClosingTurn(c, s1, reason);
    RunConcat(c, START, most, ClosingTurn(c, s1, reason));
    Closing(c, s1, reason);
    RunInvariant(c, ls);
    Drained(c, Run(c, START, ls), up, down, reason);
  }

  function ClosingTurn(c: Codec, s: Session, reason: Option<Bytes>): seq<Label> {
    ClientTurn(c, s, Close(reason)) + [Selects, Flushes]
  }

  lemma Closing(c: Codec, s: Session, reason: Option<Bytes>)
    requires Settled(s)
    ensures var s' := Run(c, s, ClosingTurn(c, s, reason));
            && s'.fromClient == s.fromClient + [Close(reason)] && s'.fromUpstream == s.fromUpstream
            && s'.client.Ended? && s'.upstream.Reading? && s'.writer.Receiving? && s'.queue == []
            && s'.flush == Some(Flush(s'.counter, |s'.fromClient|, |s'.fromUpstream|))
  {
    hide ClientTurn;
    var turn := ClientTurn(c, s, Close(reason));
    ClientTurnSettles(c, s, Close(reason));
    RunConcat(c, s, turn, [Selects, Flushes]);
    RunTwo(c, Run(c, s, turn), Selects, Flushes);
  }

  /** With nothing on its way, the invariant says what was sent, written and counted. */
  lemma Drained(c: Codec, s: Session, up: seq<Frame>, down: seq<Frame>, reason: Option<Bytes>)
    requires Invariant(c, s) && s.fromClient == up + [Close(reason)] && s.fromUpstream == down
    requires s.client.Ended? && !s.upstream.Passing? && s.writer.Receiving? && s.queue == []
    ensures FramesOf(s.attempts) == Upstream(c, up) + [Close(None)]
    ensures s.written == QueuedFrames(s.enqueued)
    ensures Relayed(s.enqueued) == Downstream(down) && Replies(s.enqueued) == RepliesTo(c, Blocked(c, up))
    ensures s.counter == Volume(up) + Volume(down)
  {
    hide Upstream, Downstream, Relayed, Replies, RepliesTo, Blocked, Volume, Connected, FramesOf, QueuedFrames;
    OneMore(c, up, Close(reason));
    assert FramesOf(s.attempts) + [] == FramesOf(s.attempts);
    assert s.written + [] + [] == s.written;
    assert Relayed(s.enqueued) + [] == Relayed(s.enqueued) && Replies(s.enqueued) + [] == Replies(s.enqueued);
    assert Blocked(c, up) + [] == Blocked(c, up);
  }

  /** As soon as one of the readers has ended, whichever it is, the counter can be charged as it stands. */
  lemma FlushFollows(c: Codec, s: Session)
    requires (s.client.Ended? || s.upstream.Ended?) && s.flush.None?
    ensures Run(c, s, [Selects, Flushes]).flush == Some(Flush(s.counter, |s.fromClient|, |s.fromUpstream|))
  {
    RunTwo(c, s, Selects, Flushes);
  }

  // -- The queue ---------------------------------------------------------------------------

  /** While the writer lives, a frame is accepted exactly when fewer than 64 are queued. */
  lemma AcceptsBelow64(s: Session)
    requires !s.writer.Gone?
    ensures s.upstream.Passing? ==> (Enabled(s, UpstreamEnqueues) <==> |s.queue| < 64)
    ensures s.client.Replying? ==> (Enabled(s, ClientReplies) <==> |s.queue| < 64)
  {
  }

  /** Each count up to 64 is reached. */
  lemma {:induction false} QueueFills(c: Codec, n: nat) returns (ls: seq<Label>)
    requires n <= 64
    ensures var s := Run(c, START, ls); |s.queue| == n && s.upstream.Reading? && s.writer.Receiving?
    decreases n
  {
    if n == 0 {
      ls := [];
    } else {
      var rest := QueueFills(c, n - 1);
      var s := Run(c, START, rest);
      ls := rest + [UpstreamReads(Ping([])), UpstreamEnqueues];
      RunConcat(c, START, rest, [UpstreamReads(Ping([])), UpstreamEnqueues]);
      RunTwo(c, s, UpstreamReads(Ping([])), UpstreamEnqueues);
    }
  }
}
