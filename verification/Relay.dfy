/**
 The three tasks of the WebSocket relay over their shared queue, handshake flag and byte
 counter. One step runs a task from one await to the next; the tasks take their steps in
 any order.
 */
module Relay {
  import opened Prelude
  import opened Json
  import opened Handshake
  import opened Transducer

  const CAPACITY := 64

  datatype Reader = Reading | Passing(frame: Frame) | Replying(reply: Frame) | Ended

  datatype Writer = Receiving | Writing(frame: Frame) | Gone

  datatype Attempt = Attempt(frame: Frame, ok: bool)

  datatype Enqueued = FromUpstream(frame: Frame) | Reply(frame: Frame)

  /** The flushed amount, and how far each side had been read when the counter was loaded. */
  datatype Flush = Flush(total: nat, client: nat, upstream: nat)

  datatype Session = Session(
    client: Reader,              // client reader: passes frames upstream, replies to blocked calls
    upstream: Reader,            // upstream reader: passes frames to the queue
    writer: Writer,
    queue: seq<Frame>,
    handshakeDone: bool,
    counter: nat,
    selected: bool,
    flush: Option<Flush>,
    // what has happened so far
    fromClient: seq<Frame>, attempts: seq<Attempt>,
    fromUpstream: seq<Frame>, enqueued: seq<Enqueued>, written: seq<Frame>)

  const START := Session(Reading, Reading, Receiving, [], false, 0, false, None, [], [], [], [], [])

  datatype Label =
    | ClientReads(frame: Frame)
    | ClientEnds
    | ClientSends(ok: bool)
    | ClientReplies
    | UpstreamReads(frame: Frame)
    | UpstreamEnds
    | UpstreamEnqueues
    | WriterTakes
    | WriterWrites(ok: bool)
    | WriterStops
    | Selects
    | Flushes

  predicate Enabled(s: Session, l: Label) {
    match l
    case ClientReads(f) => s.client.Reading? && !f.Raw?
    case ClientEnds => s.client.Reading?
    case ClientSends(_) => s.client.Passing?
    case ClientReplies => s.client.Replying? && (s.writer.Gone? || |s.queue| < CAPACITY)
    case UpstreamReads(_) => s.upstream.Reading?
    case UpstreamEnds => s.upstream.Reading?
    case UpstreamEnqueues => s.upstream.Passing? && (s.writer.Gone? || |s.queue| < CAPACITY)
    case WriterTakes => s.writer.Receiving? && s.queue != []
    case WriterWrites(_) => s.writer.Writing?
    case WriterStops => !s.writer.Gone? && (s.selected || ChannelClosed(s))
    case Selects => !s.selected && (s.client.Ended? || s.upstream.Ended?)
    case Flushes => s.selected && s.flush.None?
  }

  /** Both senders are gone and nothing is left to receive. */
  predicate ChannelClosed(s: Session) {
    s.writer.Receiving? && s.queue == [] && s.client.Ended? && s.upstream.Ended?
  }

  function AfterClientRead(c: Codec, s: Session, f: Frame): Session {
    var s1 := s.(fromClient := s.fromClient + [f], counter := s.counter + Data(f));
    match f
    case Text(text) =>
      (match Judge(c, s.handshakeDone, text)
       case Forward => s1.(client := Passing(f))
       case Rewritten(modified) => s1.(client := Passing(Text(modified)), handshakeDone := true)
       case Refused(reply) => s1.(client := Replying(Text(reply))))
    case Close(_) => s1.(client := Passing(Close(None)))
    case _ => s1.(client := Passing(f))
  }

  /** A failed ping or pong is forgotten; a failed text or binary frame ends the reader, and so does a close. */
  function AfterPassing(f: Frame, ok: bool): Reader {
    if f.Close? || (!ok && (f.Text? || f.Binary?)) then Ended else Reading
  }

  function AfterUpstreamRead(s: Session, f: Frame): Session {
    var s1 := s.(fromUpstream := s.fromUpstream + [f], counter := s.counter + Data(f));
    match f
    case Close(_) => s1.(upstream := Passing(Close(None)))
    case Raw(_) => s1
    case _ => s1.(upstream := Passing(f))
  }

  /** Sending into the queue fails, losing the frame, once the writer is gone. */
  function Enqueue(s: Session, e: Enqueued): Session {
    if s.writer.Gone? then s else s.(queue := s.queue + [e.frame], enqueued := s.enqueued + [e])
  }

  function Next(c: Codec, s: Session, l: Label): Session {
    if !Enabled(s, l) then s
    else match l
      case ClientReads(f) => AfterClientRead(c, s, f)
      case ClientEnds => s.(client := Ended)
      case ClientSends(ok) =>
        var f := s.client.frame;
        s.(attempts := s.attempts + [Attempt(f, ok)], client := AfterPassing(f, ok))
      case ClientReplies => Enqueue(s, Reply(s.client.reply)).(client := Reading)
      case UpstreamReads(f) => AfterUpstreamRead(s, f)
      case UpstreamEnds => s.(upstream := Ended)
      case UpstreamEnqueues =>
        var f := s.upstream.frame;
        Enqueue(s, FromUpstream(f)).(upstream := AfterPassing(f, !s.writer.Gone?))
      case WriterTakes => s.(writer := Writing(s.queue[0]), queue := s.queue[1..])
      case WriterWrites(ok) =>
        if ok then s.(written := s.written + [s.writer.frame], writer := Receiving)
        else s.(writer := Gone, queue := [])
      case WriterStops => s.(writer := Gone, queue := [])
      case Selects => s.(selected := true)
      case Flushes => s.(flush := Some(Flush(s.counter, |s.fromClient|, |s.fromUpstream|)))
  }

  function Run(c: Codec, s: Session, ls: seq<Label>): Session
    decreases |ls|
  {
    if ls == [] then s else Next(c, Run(c, s, ls[..|ls| - 1]), ls[|ls| - 1])
  }

  // -- Invariants ------------------------------------------------------------------------

  function FramesOf(attempts: seq<Attempt>): seq<Frame> {
    seq(|attempts|, i requires 0 <= i < |attempts| => attempts[i].frame)
  }

  function QueuedFrames(es: seq<Enqueued>): seq<Frame> {
    seq(|es|, i requires 0 <= i < |es| => es[i].frame)
  }

  function Relayed(es: seq<Enqueued>): seq<Frame>
    decreases |es|
  {
    if es == [] then []
    else
      var last := es[|es| - 1];
      Relayed(es[..|es| - 1]) + if last.FromUpstream? then [last.frame] else []
  }

  function Replies(es: seq<Enqueued>): seq<Frame>
    decreases |es|
  {
    if es == [] then []
    else
      var last := es[|es| - 1];
      Replies(es[..|es| - 1]) + if last.Reply? then [last.frame] else []
  }

  lemma OneMoreEnqueued(es: seq<Enqueued>, e: Enqueued)
    ensures QueuedFrames(es + [e]) == QueuedFrames(es) + [e.frame]
    ensures Relayed(es + [e]) == Relayed(es) + if e.FromUpstream? then [e.frame] else []
    ensures Replies(es + [e]) == Replies(es) + if e.Reply? then [e.frame] else []
  {
    assert (es + [e])[..|es|] == es;
  }

  function InPassing(r: Reader): seq<Frame> {
    if r.Passing? then [r.frame] else []
  }

  function InReply(r: Reader): seq<Frame> {
    if r.Replying? then [r.reply] else []
  }

  function InWriting(w: Writer): seq<Frame> {
    if w.Writing? then [w.frame] else []
  }

  /** Upstream: the frames attempted, and the one being sent, are the image of what was read. */
  ghost predicate UpstreamSide(c: Codec, s: Session) {
    && FramesOf(s.attempts) + InPassing(s.client) == Upstream(c, s.fromClient)
    && (s.handshakeDone <==> Connected(c, s.fromClient))
    && forall i :: 0 <= i < |s.attempts| ==>
                     s.attempts[i].ok || !MustPass(s.attempts[i].frame) || (i == |s.attempts| - 1 && s.client.Ended?)
  }

  /** The relay goes on after a failed ping or pong; failing to send any other frame is its last attempt. */
  predicate MustPass(f: Frame) {
    f.Text? || f.Binary? || f.Close?
  }

  /** The queue: what was written, is being written and is queued is what was enqueued. */
  ghost predicate QueueSide(s: Session) {
    && |s.queue| <= CAPACITY
    && s.written <= QueuedFrames(s.enqueued)
    && (!s.writer.Gone? ==> s.written + InWriting(s.writer) + s.queue == QueuedFrames(s.enqueued))
  }

  /** The client side: relayed frames and replies are merged, each in order and none lost while the writer lives. */
  ghost predicate ClientSide(c: Codec, s: Session) {
    && !s.upstream.Replying?
    && Relayed(s.enqueued) <= Downstream(s.fromUpstream)
    && Replies(s.enqueued) <= RepliesTo(c, Blocked(c, s.fromClient))
    && (!s.writer.Gone? ==> Relayed(s.enqueued) + InPassing(s.upstream) == Downstream(s.fromUpstream))
    && (!s.writer.Gone? ==> Replies(s.enqueued) + InReply(s.client) == RepliesTo(c, Blocked(c, s.fromClient)))
  }

  /** The flush charged the data read from each side up to one moment. */
  ghost predicate FlushedAt(s: Session, fl: Flush) {
    && fl.client <= |s.fromClient| && fl.upstream <= |s.fromUpstream|
    && fl.total == Volume(s.fromClient[..fl.client]) + Volume(s.fromUpstream[..fl.upstream])
  }

  /** The counter is the data read from both sides, and the flush took it at one moment. */
  ghost predicate Counted(s: Session) {
    && s.counter == Volume(s.fromClient) + Volume(s.fromUpstream)
    && (s.flush.Some? ==>
          FlushedAt(s, s.flush.value) && s.selected)
    && (s.selected ==> s.client.Ended? || s.upstream.Ended?)
  }

  ghost predicate Invariant(c: Codec, s: Session) {
    UpstreamSide(c, s) && QueueSide(s) && ClientSide(c, s) && Counted(s)
  }

  // -- What each step does ------------------------------------------------------------------

  lemma ClientReadEffect(c: Codec, s: Session, f: Frame)
    requires !f.Raw?
    ensures var s' := AfterClientRead(c, s, f);
            && s' == s.(fromClient := s.fromClient + [f], counter := s.counter + Data(f),
                        client := s'.client, handshakeDone := s'.handshakeDone)
            && InPassing(s'.client) == SentFor(c, s.handshakeDone, f)
            && InReply(s'.client) == (if CallsBlocked(c, f) then [ReplyTo(c, f)] else [])
            && (s'.handshakeDone <==> s.handshakeDone || IsConnect(c, f))
  {
    hide Judge, ReplyTo;
    if f.Text? {
      JudgeRefuses(c, s.handshakeDone, f);
    }
  }

  lemma UpstreamReadEffect(s: Session, f: Frame)
    requires s.upstream.Reading?
    ensures var s' := AfterUpstreamRead(s, f);
            && s' == s.(fromUpstream := s.fromUpstream + [f], counter := s.counter + Data(f), upstream := s'.upstream)
            && InPassing(s'.upstream) == RelayedFor(f) && !s'.upstream.Replying?
  {
  }

  lemma EnqueueEffect(s: Session, e: Enqueued)
    ensures var s' := Enqueue(s, e);
            && s' == s.(queue := s'.queue, enqueued := s'.enqueued)
            && s'.queue == (if s.writer.Gone? then s.queue else s.queue + [e.frame])
            && s'.enqueued == if s.writer.Gone? then s.enqueued else s.enqueued + [e]
  {
  }

  lemma UpstreamSideKept(c: Codec, s: Session, l: Label)
    requires UpstreamSide(c, s)
    ensures UpstreamSide(c, Next(c, s, l))
  {
    hide Connected, Upstream, SentFor, AfterClientRead, AfterUpstreamRead, Enqueue;
    var s' := Next(c, s, l);
    if Enabled(s, l) {
      match l {
        case ClientReads(f) =>
          OneMore(c, s.fromClient, f);
          ClientReadEffect(c, s, f);
          assert s.handshakeDone == Connected(c, s.fromClient);
          assert FramesOf(s.attempts) + [] == FramesOf(s.attempts);
        case ClientSends(ok) =>
          assert FramesOf(s'.attempts) == FramesOf(s.attempts) + [s.client.frame];
          assert FramesOf(s'.attempts) + [] == FramesOf(s'.attempts);
        case UpstreamReads(f) => UpstreamReadEffect(s, f);
        case ClientReplies => EnqueueEffect(s, Reply(s.client.reply));
        case UpstreamEnqueues => EnqueueEffect(s, FromUpstream(s.upstream.frame));
        case _ =>
      }
    }
  }

  lemma QueueSideAfterEnqueue(s: Session, e: Enqueued)
    requires QueueSide(s) && (s.writer.Gone? || |s.queue| < CAPACITY)
    ensures QueueSide(Enqueue(s, e))
  {
    hide QueuedFrames;
    OneMoreEnqueued(s.enqueued, e);
  }

  lemma QueueSideKept(c: Codec, s: Session, l: Label)
    requires QueueSide(s)
    ensures QueueSide(Next(c, s, l))
  {
    hide AfterClientRead, AfterUpstreamRead, Enqueue, QueuedFrames;
    if Enabled(s, l) {
      match l {
        case ClientReads(f) => ClientReadEffect(c, s, f);
        case UpstreamReads(f) => UpstreamReadEffect(s, f);
        case ClientReplies => QueueSideAfterEnqueue(s, Reply(s.client.reply));
        case UpstreamEnqueues => QueueSideAfterEnqueue(s, FromUpstream(s.upstream.frame));
        case WriterTakes => assert s.queue == [s.queue[0]] + s.queue[1..];
        case _ =>
      }
    }
  }

  lemma ClientSideAfterRead(c: Codec, s: Session, l: Label)
    requires ClientSide(c, s) && Enabled(s, l) && (l.ClientReads? || l.UpstreamReads?)
    ensures ClientSide(c, Next(c, s, l))
  {
    hide AfterClientRead, AfterUpstreamRead, Enqueue, Relayed, Replies, Downstream, RepliesTo, Blocked, CallsBlocked;
    match l {
      case ClientReads(f) =>
        ClientReadEffect(c, s, f);
        OneMoreReply(c, s.fromClient, f);
      case UpstreamReads(f) =>
        UpstreamReadEffect(s, f);
        OneMore(c, s.fromUpstream, f);
    }
  }

  lemma ClientSideAfterEnqueue(c: Codec, s: Session, l: Label)
    requires ClientSide(c, s) && Enabled(s, l) && (l.ClientReplies? || l.UpstreamEnqueues?)
    ensures ClientSide(c, Next(c, s, l))
  {
    hide AfterClientRead, AfterUpstreamRead, Enqueue, Relayed, Replies, Downstream, RepliesTo, Blocked, CallsBlocked;
    match l {
      case ClientReplies =>
        EnqueueEffect(s, Reply(s.client.reply));
        OneMoreEnqueued(s.enqueued, Reply(s.client.reply));
      case UpstreamEnqueues =>
        EnqueueEffect(s, FromUpstream(s.upstream.frame));
        OneMoreEnqueued(s.enqueued, FromUpstream(s.upstream.frame));
    }
  }

  lemma ClientSideKept(c: Codec, s: Session, l: Label)
    requires ClientSide(c, s)
    ensures ClientSide(c, Next(c, s, l))
  {
    hide AfterClientRead, AfterUpstreamRead, Enqueue, Relayed, Replies, Downstream, RepliesTo, Blocked, CallsBlocked;
    if Enabled(s, l) {
      if l.ClientReads? || l.UpstreamReads? {
        ClientSideAfterRead(c, s, l);
      } else if l.ClientReplies? || l.UpstreamEnqueues? {
        ClientSideAfterEnqueue(c, s, l);
      }
    }
  }

  lemma FlushedStays(s: Session, s': Session, fl: Flush)
    requires FlushedAt(s, fl) && s.fromClient <= s'.fromClient && s.fromUpstream <= s'.fromUpstream
    ensures FlushedAt(s', fl)
  {
    assert s'.fromClient[..fl.client] == s.fromClient[..fl.client];
    assert s'.fromUpstream[..fl.upstream] == s.fromUpstream[..fl.upstream];
  }

  lemma CountedAfterRead(c: Codec, s: Session, l: Label)
    requires Counted(s) && Enabled(s, l) && (l.ClientReads? || l.UpstreamReads?)
    ensures Counted(Next(c, s, l))
  {
    hide AfterClientRead, AfterUpstreamRead, Enqueue, Volume, Data, FlushedAt;
    match l {
      case ClientReads(f) =>
        ClientReadEffect(c, s, f);
        OneMore(c, s.fromClient, f);
      case UpstreamReads(f) =>
        UpstreamReadEffect(s, f);
        OneMore(c, s.fromUpstream, f);
    }
    if s.flush.Some? {
      FlushedStays(s, Next(c, s, l), s.flush.value);
    }
  }

  lemma CountedKept(c: Codec, s: Session, l: Label)
    requires Counted(s)
    ensures Counted(Next(c, s, l))
  {
    hide AfterClientRead, AfterUpstreamRead, Enqueue, Volume, Data;
    if Enabled(s, l) {
      match l {
        case ClientReads(_) => CountedAfterRead(c, s, l);
        case UpstreamReads(_) => CountedAfterRead(c, s, l);
        case ClientReplies => EnqueueEffect(s, Reply(s.client.reply));
        case UpstreamEnqueues => EnqueueEffect(s, FromUpstream(s.upstream.frame));
        case Flushes =>
          assert s.fromClient[..|s.fromClient|] == s.fromClient;
          assert s.fromUpstream[..|s.fromUpstream|] == s.fromUpstream;
        case _ =>
      }
    }
  }

  lemma {:induction false} RunInvariant(c: Codec, ls: seq<Label>)
    ensures Invariant(c, Run(c, START, ls))
    decreases |ls|
  {
    hide Next, UpstreamSide, QueueSide, ClientSide, Counted;
    if ls == [] {
      StartInvariant(c);
    } else {
      var s, l := Run(c, START, ls[..|ls| - 1]), ls[|ls| - 1];
      RunInvariant(c, ls[..|ls| - 1]);
      UpstreamSideKept(c, s, l);
      QueueSideKept(c, s, l);
      ClientSideKept(c, s, l);
      CountedKept(c, s, l);
    }
  }

  lemma StartInvariant(c: Codec)
    ensures Invariant(c, START)
  {
  }

  // -- What holds at every reachable state ---------------------------------------------------

  /** Some order of the tasks' steps, against some frames and outcomes, leads here. */
  ghost predicate Reachable(c: Codec, s: Session) {
    exists ls :: Run(c, START, ls) == s
  }

  /**
   The frames sent upstream, in order, are the image of the frames read so far: the first
   connect call is rewritten and no other frame is, blocked calls are left out, control
   and binary frames keep their order, and no text frame sent calls a blocked method.
   */
  lemma RelayIsTransducer(c: Codec, s: Session)
    requires Reachable(c, s)
    ensures var sent := FramesOf(s.attempts) + InPassing(s.client);
            && sent == Upstream(c, s.fromClient) == Join(Parts(c, s.fromClient))
            && NonText(sent) == NonText(s.fromClient)
            && (KeepsMethod(c) ==> forall f :: f in sent ==> !CallsBlocked(c, f))
            && forall i :: 0 <= i < |s.attempts| - 1 ==> s.attempts[i].ok || !MustPass(s.attempts[i].frame)
  {
    hide QueueSide, ClientSide, Counted, Upstream, CallsBlocked, NonText, Run;
    var ls :| Run(c, START, ls) == s;
    RunInvariant(c, ls);
    UpstreamIsJoin(c, s.fromClient);
    OrderKept(c, s.fromClient);
    if KeepsMethod(c) {
      NothingBlockedPasses(c, s.fromClient);
    }
  }

  /**
   The frames written to the client, followed by those on their way, merge the relayed
   frames and the replies, each in its own order: one reply for each blocked call. The
   queue is bounded, and the counter is the text and binary data read from both sides.
   */
  lemma RelayMergesForClient(c: Codec, s: Session)
    requires Reachable(c, s)
    ensures |s.queue| <= 64
    ensures s.counter == Volume(s.fromClient) + Volume(s.fromUpstream)
    ensures s.written <= QueuedFrames(s.enqueued)
    ensures Relayed(s.enqueued) <= Downstream(s.fromUpstream)
    ensures Replies(s.enqueued) <= RepliesTo(c, Blocked(c, s.fromClient))
    ensures !s.writer.Gone? ==>
              && s.written + InWriting(s.writer) + s.queue == QueuedFrames(s.enqueued)
              && Relayed(s.enqueued) + InPassing(s.upstream) == Downstream(s.fromUpstream)
              && Replies(s.enqueued) + InReply(s.client) == RepliesTo(c, Blocked(c, s.fromClient))
    ensures s.flush.Some? ==> FlushedAt(s, s.flush.value)
  {
    hide UpstreamSide, Run;
    var ls :| Run(c, START, ls) == s;
    RunInvariant(c, ls);
  }

  // -- The tasks as they run -------------------------------------------------------------------

  /** One proxied connection. Each method runs one task from one await to the next. */
  class Connection {
    const codec: Codec
    var client: Reader
    var upstream: Reader
    var writer: Writer
    var queue: seq<Frame>
    var handshakeDone: bool
    var counter: nat
    var selected: bool
    ghost var flush: Option<Flush>
    ghost var fromClient: seq<Frame>
    ghost var attempts: seq<Attempt>
    ghost var fromUpstream: seq<Frame>
    ghost var enqueued: seq<Enqueued>
    ghost var written: seq<Frame>

    constructor (codec: Codec)
      ensures View() == START && this.codec == codec
    {
      this.codec := codec;
      client, upstream, writer, queue := Reading, Reading, Receiving, [];
      handshakeDone, counter, selected, flush := false, 0, false, None;
      fromClient, attempts, fromUpstream, enqueued, written := [], [], [], [], [];
    }

    ghost function View(): Session
      reads this
    {
      Session(client, upstream, writer, queue, handshakeDone, counter, selected, flush,
              fromClient, attempts, fromUpstream, enqueued, written)
    }

    /** The client reader takes the next message and decides what becomes of it. */
    method ClientRead(msg: Frame)
      requires Enabled(View(), ClientReads(msg))
      modifies this
      ensures View() == Next(codec, old(View()), ClientReads(msg))
    {
      hide IsBlocked, MethodOf, Rewrite, Refusal;
      fromClient := fromClient + [msg];
      match msg {
        case Text(text) =>
          counter := counter + |text|;
          var parsed := codec.parse(text);
          if parsed.Some? {
            var json := parsed.value;
            var name := MethodOf(json);
            if !handshakeDone && name == "connect" {
              json := Intercept(json);
              handshakeDone := true;
              client := Passing(Text(codec.render(json)));
              return;
            }
            if IsBlocked(name) {
              client := Replying(Text(codec.render(Refusal(json))));
              return;
            }
          }
          client := Passing(msg);
        case Binary(data) =>
          counter := counter + |data|;
          client := Passing(msg);
        case Close(_) => client := Passing(Close(None));
        case Ping(_) => client := Passing(msg);
        case Pong(_) => client := Passing(msg);
      }
    }

    /** Token and signature are put into the parsed connect message, one after the other. */
    method Intercept(json: Json) returns (modified: Json)
      ensures modified == Rewrite(json, codec.token, codec.mac)
    {
      modified := json;
      var found := Field(modified, "params");
      if found.Some? {
        var params := found.value;
        var auth := Field(params, "auth");
        if auth.Some? && auth.value.Obj? {
          params := Put(params, "auth", Put(auth.value, "token", Str(codec.token)));
        }
        var nonce := Field(params, "nonce");
        if nonce.Some? && nonce.value.Str? {
          params := Put(params, "signedNonce", Str(SignNonce(codec.mac, nonce.value.text, codec.token)));
        }
        modified := Put(modified, "params", params);
      }
    }

    method ClientEnd()
      requires Enabled(View(), ClientEnds)
      modifies this
      ensures View() == Next(codec, old(View()), ClientEnds)
    {
      client := Ended;
    }

    method ClientSend(ok: bool)
      requires Enabled(View(), ClientSends(ok))
      modifies this
      ensures View() == Next(codec, old(View()), ClientSends(ok))
    {
      attempts := attempts + [Attempt(client.frame, ok)];
      match client.frame {
        case Close(_) => client := Ended;
        case Ping(_) => client := Reading;
        case Pong(_) => client := Reading;
        case _ => client := if ok || client.frame.Raw? then Reading else Ended;
      }
    }

    method ClientReply()
      requires Enabled(View(), ClientReplies)
      modifies this
      ensures View() == Next(codec, old(View()), ClientReplies)
    {
      var _ := Send(Reply(client.reply));
      client := Reading;
    }

    /** A send on the bounded channel; it fails when the receiver is gone. */
    method Send(e: Enqueued) returns (ok: bool)
      requires writer.Gone? || |queue| < CAPACITY
      modifies this
      ensures View() == Enqueue(old(View()), e) && ok == !old(writer).Gone?
    {
      ok := !writer.Gone?;
      if ok {
        queue := queue + [e.frame];
        enqueued := enqueued + [e];
      }
    }

    method UpstreamRead(msg: Frame)
      requires Enabled(View(), UpstreamReads(msg))
      modifies this
      ensures View() == Next(codec, old(View()), UpstreamReads(msg))
    {
      fromUpstream := fromUpstream + [msg];
      match msg {
        case Text(text) =>
          counter := counter + |text|;
          upstream := Passing(msg);
        case Binary(data) =>
          counter := counter + |data|;
          upstream := Passing(msg);
        case Close(_) => upstream := Passing(Close(None));
        case Ping(_) => upstream := Passing(msg);
        case Pong(_) => upstream := Passing(msg);
        case Raw(_) =>
      }
    }

    method UpstreamEnd()
      requires Enabled(View(), UpstreamEnds)
      modifies this
      ensures View() == Next(codec, old(View()), UpstreamEnds)
    {
      upstream := Ended;
    }

    method UpstreamEnqueue()
      requires Enabled(View(), UpstreamEnqueues)
      modifies this
      ensures View() == Next(codec, old(View()), UpstreamEnqueues)
    {
      var frame := upstream.frame;
      var ok := Send(FromUpstream(frame));
      if frame.Close? {
        upstream := Ended;
      } else if !ok && (frame.Text? || frame.Binary?) {
        upstream := Ended;
      } else {
        upstream := Reading;
      }
    }

    method WriterTake()
      requires Enabled(View(), WriterTakes)
      modifies this
      ensures View() == Next(codec, old(View()), WriterTakes)
    {
      writer := Writing(queue[0]);
      queue := queue[1..];
    }

    method WriterWrite(ok: bool)
      requires Enabled(View(), WriterWrites(ok))
      modifies this
      ensures View() == Next(codec, old(View()), WriterWrites(ok))
    {
      if ok {
        written := written + [writer.frame];
        writer := Receiving;
      } else {
        writer, queue := Gone, [];
      }
    }

    method WriterStop()
      requires Enabled(View(), WriterStops)
      modifies this
      ensures View() == Next(codec, old(View()), WriterStops)
    {
      writer, queue := Gone, [];
    }

    method Select()
      requires Enabled(View(), Selects)
      modifies this
      ensures View() == Next(codec, old(View()), Selects)
    {
      selected := true;
    }

    /** The bytes to charge, loaded once one of the readers has ended. */
    method FlushBandwidth() returns (total: nat)
      requires Enabled(View(), Flushes)
      modifies this
      ensures View() == Next(codec, old(View()), Flushes) && flush.Some? && flush.value.total == total
    {
      total := counter;
      flush := Some(Flush(total, |fromClient|, |fromUpstream|));
    }
  }
}
