/**
 What the WebSocket relay makes of the frames it reads: the image sent upstream, the
 image sent to the client, and the refusals of blocked calls.
 */
module Transducer {
  import opened Prelude
  import opened Json
  import opened Handshake
  import Hex

  type Bytes = seq<Hex.Byte>

  datatype Frame =
    | Text(payload: Bytes)
    | Binary(payload: Bytes)
    | Ping(payload: Bytes)
    | Pong(payload: Bytes)
    | Close(reason: Option<Bytes>)
    | Raw(payload: Bytes)

  /** The JSON library, the MAC and the agent's gateway token. */
  datatype Codec = Codec(parse: Bytes -> Option<Json>, render: Json -> Bytes, mac: Mac, token: string)

  /** Rendering keeps the method: what is read back calls what was written. */
  ghost predicate KeepsMethod(c: Codec) {
    forall j: Json :: c.parse(c.render(j)).Some? ==> MethodOf(c.parse(c.render(j)).value) == MethodOf(j)
  }

  function MethodOf(j: Json): string {
    var m := Field(j, "method");
    if m.Some? && m.value.Str? then m.value.text else ""
  }

  predicate IsBlocked(name: string) {
    || "config." <= name
    || "exec.approvals." <= name
    || name == "exec.approval.resolve"
    || name == "update.run"
  }

  datatype Verdict = Forward | Rewritten(payload: Bytes) | Refused(reply: Bytes)

  /** The error sent back for a blocked call, under the call's own id or null. */
  function Refusal(j: Json): Json {
    var id := match Field(j, "id") { case Some(i) => i case None => Null };
    Obj(map["id" := id,
            "error" := Obj(map["code" := Number("-32601"),
                               "message" := Str("method '" + MethodOf(j) + "' is blocked")])])
  }

  function Judge(c: Codec, handshakeDone: bool, text: Bytes): Verdict {
    match c.parse(text)
    case None => Forward
    case Some(j) =>
      if !handshakeDone && MethodOf(j) == "connect" then Rewritten(c.render(Rewrite(j, c.token, c.mac)))
      else if IsBlocked(MethodOf(j)) then Refused(c.render(Refusal(j)))
      else Forward
  }

  predicate IsConnect(c: Codec, f: Frame) {
    f.Text? && c.parse(f.payload).Some? && MethodOf(c.parse(f.payload).value) == "connect"
  }

  predicate CallsBlocked(c: Codec, f: Frame) {
    f.Text? && c.parse(f.payload).Some? && IsBlocked(MethodOf(c.parse(f.payload).value))
  }

  /** Some frame has called connect. */
  predicate Connected(c: Codec, frames: seq<Frame>) {
    exists f :: f in frames && IsConnect(c, f)
  }

  function SentFor(c: Codec, handshakeDone: bool, f: Frame): seq<Frame> {
    match f
    case Text(text) =>
      (match Judge(c, handshakeDone, text)
       case Forward => [f]
       case Rewritten(modified) => [Text(modified)]
       case Refused(_) => [])
    case Close(_) => [Close(None)]
    case Raw(_) => []
    case _ => [f]
  }

  /** The frames that go upstream for the frames read from the client. */
  function Upstream(c: Codec, frames: seq<Frame>): seq<Frame>
    decreases |frames|
  {
    if frames == [] then []
    else
      var init := frames[..|frames| - 1];
      Upstream(c, init) + SentFor(c, Connected(c, init), frames[|frames| - 1])
  }

  function RelayedFor(f: Frame): seq<Frame> {
    match f
    case Close(_) => [Close(None)]
    case Raw(_) => []
    case _ => [f]
  }

  /** The frames that go to the client for the frames read from upstream. */
  function Downstream(frames: seq<Frame>): seq<Frame>
    decreases |frames|
  {
    if frames == [] then [] else Downstream(frames[..|frames| - 1]) + RelayedFor(frames[|frames| - 1])
  }

  function Blocked(c: Codec, frames: seq<Frame>): (r: seq<Frame>)
    ensures forall f :: f in r ==> CallsBlocked(c, f)
    decreases |frames|
  {
    if frames == [] then []
    else
      var last := frames[|frames| - 1];
      Blocked(c, frames[..|frames| - 1]) + if CallsBlocked(c, last) then [last] else []
  }

  function ReplyTo(c: Codec, f: Frame): Frame
    requires CallsBlocked(c, f)
  {
    Text(c.render(Refusal(c.parse(f.payload).value)))
  }

  function RepliesTo(c: Codec, blocked: seq<Frame>): seq<Frame>
    requires forall f :: f in blocked ==> CallsBlocked(c, f)
  {
    seq(|blocked|, i requires 0 <= i < |blocked| => ReplyTo(c, blocked[i]))
  }

  function Data(f: Frame): nat {
    if f.Text? || f.Binary? then |f.payload| else 0
  }

  function Volume(frames: seq<Frame>): nat
    decreases |frames|
  {
    if frames == [] then 0 else Volume(frames[..|frames| - 1]) + Data(frames[|frames| - 1])
  }

  // -- One frame more ------------------------------------------------------------------

  lemma OneMore(c: Codec, frames: seq<Frame>, f: Frame)
    ensures Upstream(c, frames + [f]) == Upstream(c, frames) + SentFor(c, Connected(c, frames), f)
    ensures Downstream(frames + [f]) == Downstream(frames) + RelayedFor(f)
    ensures Blocked(c, frames + [f]) == Blocked(c, frames) + if CallsBlocked(c, f) then [f] else []
    ensures Volume(frames + [f]) == Volume(frames) + Data(f)
    ensures Connected(c, frames + [f]) <==> Connected(c, frames) || IsConnect(c, f)
  {
    assert (frames + [f])[..|frames|] == frames;
    if Connected(c, frames) {
      var g :| g in frames && IsConnect(c, g);
      assert g in frames + [f];
    }
    if IsConnect(c, f) {
      assert f in frames + [f];
    }
  }

  lemma OneMoreReply(c: Codec, frames: seq<Frame>, f: Frame)
    ensures RepliesTo(c, Blocked(c, frames + [f]))
         == RepliesTo(c, Blocked(c, frames)) + if CallsBlocked(c, f) then [ReplyTo(c, f)] else []
  {
    hide Judge, ReplyTo, CallsBlocked, Blocked, Upstream, Downstream, Volume, Connected, SentFor, RelayedFor;
    OneMore(c, frames, f);
  }

  lemma ConnectIsAllowed()
    ensures !IsBlocked("connect")
  {
    assert "config."[3] != "connect"[3] && "exec.approvals."[0] != "connect"[0];
  }

  /** The verdict on a text frame, spelled out. */
  lemma JudgeRefuses(c: Codec, handshakeDone: bool, f: Frame)
    requires f.Text?
    ensures Judge(c, handshakeDone, f.payload).Refused? <==> CallsBlocked(c, f)
    ensures CallsBlocked(c, f) ==> Text(Judge(c, handshakeDone, f.payload).reply) == ReplyTo(c, f)
    ensures Judge(c, handshakeDone, f.payload).Rewritten? <==> !handshakeDone && IsConnect(c, f)
  {
    ConnectIsAllowed();
  }

  // -- What the upstream image is ---------------------------------------------------------

  /** The images of the frames one by one, joined together. */
  function Join(parts: seq<seq<Frame>>): seq<Frame>
    decreases |parts|
  {
    if parts == [] then [] else Join(parts[..|parts| - 1]) + parts[|parts| - 1]
  }

  /** The first connect call is rewritten, blocked calls vanish, closes lose their reason, all else stays. */
  function PartFor(c: Codec, frames: seq<Frame>, i: nat): seq<Frame>
    requires i < |frames|
  {
    var f := frames[i];
    if IsConnect(c, f) && forall k :: 0 <= k < i ==> !IsConnect(c, frames[k])
    then [Text(c.render(Rewrite(c.parse(f.payload).value, c.token, c.mac)))]
    else if CallsBlocked(c, f) || f.Raw? then []
    else if f.Close? then [Close(None)]
    else [f]
  }

  function Parts(c: Codec, frames: seq<Frame>): seq<seq<Frame>> {
    seq(|frames|, i requires 0 <= i < |frames| => PartFor(c, frames, i))
  }

  lemma {:induction false} UpstreamIsJoin(c: Codec, frames: seq<Frame>)
    ensures Upstream(c, frames) == Join(Parts(c, frames))
    decreases |frames|
  {
    hide SentFor, PartFor, Connected;
    if frames != [] {
      var n := |frames| - 1;
      var init := frames[..n];
      UpstreamIsJoin(c, init);
      forall i | 0 <= i < n ensures PartFor(c, frames, i) == PartFor(c, init, i) {
        PartOfPrefix(c, frames, n, i);
      }
      assert Parts(c, frames)[..n] == Parts(c, init);
      SentIsPart(c, frames, n);
    }
  }

  lemma PartOfPrefix(c: Codec, frames: seq<Frame>, n: nat, i: nat)
    requires i < n <= |frames|
    ensures PartFor(c, frames, i) == PartFor(c, frames[..n], i)
  {
  }

  lemma SentIsPart(c: Codec, frames: seq<Frame>, i: nat)
    requires i < |frames|
    ensures SentFor(c, Connected(c, frames[..i]), frames[i]) == PartFor(c, frames, i)
  {
    ConnectIsAllowed();
    if Connected(c, frames[..i]) {
      var f :| f in frames[..i] && IsConnect(c, f);
      var k :| 0 <= k < i && frames[k] == f;
      assert IsConnect(c, frames[k]);
    } else {
      forall k | 0 <= k < i ensures !IsConnect(c, frames[k]) {
        assert frames[k] in frames[..i];
      }
    }
  }

  /** No text frame that goes upstream calls a blocked method. */
  lemma {:induction false} NothingBlockedPasses(c: Codec, frames: seq<Frame>)
    requires KeepsMethod(c)
    ensures forall f :: f in Upstream(c, frames) ==> !CallsBlocked(c, f)
    decreases |frames|
  {
    if frames != [] {
      var init, last := frames[..|frames| - 1], frames[|frames| - 1];
      NothingBlockedPasses(c, init);
      NotSentBlocked(c, Connected(c, init), last);
    }
  }

  lemma NotSentBlocked(c: Codec, handshakeDone: bool, f: Frame)
    requires KeepsMethod(c)
    ensures forall g :: g in SentFor(c, handshakeDone, f) ==> !CallsBlocked(c, g)
  {
    hide IsBlocked;
    ConnectIsAllowed();
    if f.Text? {
      JudgeRefuses(c, handshakeDone, f);
      if Judge(c, handshakeDone, f.payload).Rewritten? {
        var j := c.parse(f.payload).value;
        RewriteKeepsOtherFields(j, c.token, c.mac, "method");
        assert MethodOf(Rewrite(j, c.token, c.mac)) == "connect";
      }
    }
  }

  /** Control and binary frames keep their order and their number: only text frames may vanish. */
  function NonText(frames: seq<Frame>): seq<Frame>
    decreases |frames|
  {
    if frames == [] then []
    else
      var last := frames[|frames| - 1];
      NonText(frames[..|frames| - 1]) + if last.Text? then [] else RelayedFor(last)
  }

  lemma NonTextOneMore(frames: seq<Frame>, f: Frame)
    ensures NonText(frames + [f]) == NonText(frames) + if f.Text? then [] else RelayedFor(f)
  {
    assert (frames + [f])[..|frames|] == frames;
  }

  lemma SentNonText(c: Codec, handshakeDone: bool, f: Frame)
    ensures var sent := SentFor(c, handshakeDone, f);
            if sent == [] then f.Text? || RelayedFor(f) == []
            else |sent| == 1 && (sent[0].Text? <==> f.Text?) && (!f.Text? ==> RelayedFor(sent[0]) == RelayedFor(f))
  {
  }

  lemma {:induction false} OrderKept(c: Codec, frames: seq<Frame>)
    ensures NonText(Upstream(c, frames)) == NonText(frames)
    decreases |frames|
  {
    hide SentFor, RelayedFor, Connected;
    if frames != [] {
      var init, last := frames[..|frames| - 1], frames[|frames| - 1];
      OrderKept(c, init);
      SentNonText(c, Connected(c, init), last);
      var sent := SentFor(c, Connected(c, init), last);
      if sent == [] {
        assert Upstream(c, frames) == Upstream(c, init);
      } else {
        assert sent == [sent[0]];
        NonTextOneMore(Upstream(c, init), sent[0]);
      }
    }
  }

  /** More frames read only ever extend the image. */
  lemma {:induction false} UpstreamGrows(c: Codec, frames: seq<Frame>, i: nat)
    requires i <= |frames|
    ensures Upstream(c, frames[..i]) <= Upstream(c, frames)
    decreases |frames| - i
  {
    if i == |frames| {
      assert frames[..i] == frames;
    } else {
      UpstreamGrows(c, frames, i + 1);
      assert frames[..i + 1] == frames[..i] + [frames[i]];
      OneMore(c, frames[..i], frames[i]);
    }
  }

  // -- In the message's own terms -----------------------------------------------------------

  /** The names and prefixes that are blocked, letter by letter. */
  predicate NameBlocked(name: string) {
    || (|name| >= 7 && name[..7] == "config.")
    || (|name| >= 15 && name[..15] == "exec.approvals.")
    || name in {"exec.approval.resolve", "update.run"}
  }

  /** The frame is JSON text whose method field is this string. */
  predicate Calls(c: Codec, f: Frame, name: string) {
    f.Text? && c.parse(f.payload).Some? && At(c.parse(f.payload).value, [Key("method")]) == Some(Str(name))
  }

  lemma CallsBlockedIff(c: Codec, f: Frame)
    ensures CallsBlocked(c, f) <==> exists name :: Calls(c, f, name) && NameBlocked(name)
    ensures IsConnect(c, f) <==> Calls(c, f, "connect")
  {
    if f.Text? && c.parse(f.payload).Some? {
      var j := c.parse(f.payload).value;
      AtOne(j, Key("method"));
      assert !IsBlocked("");
      if CallsBlocked(c, f) {
        assert Calls(c, f, MethodOf(j));
      }
    }
  }

  /**
   A blocked call is answered under its own id, or null if it has none, with code -32601
   and a message that names the method; nothing else is in the answer.
   */
  lemma RefusalAnswers(c: Codec, f: Frame, name: string) returns (reply: Json)
    requires Calls(c, f, name) && NameBlocked(name)
    ensures CallsBlocked(c, f) && ReplyTo(c, f) == Text(c.render(reply))
    ensures var j := c.parse(f.payload).value;
            At(reply, [Key("id")]) == if At(j, [Key("id")]).Some? then At(j, [Key("id")]) else Some(Null)
    ensures At(reply, [Key("error"), Key("code")]) == Some(Number("-32601"))
    ensures At(reply, [Key("error"), Key("message")]) == Some(Str("method '" + name + "' is blocked"))
    ensures reply.Obj? && reply.fields.Keys == {"id", "error"}
    ensures reply.fields["error"].Obj? && reply.fields["error"].fields.Keys == {"code", "message"}
  {
    CallsBlockedIff(c, f);
    var j := c.parse(f.payload).value;
    AtOne(j, Key("method"));
    AtOne(j, Key("id"));
    reply := Refusal(j);
    AtOne(reply, Key("id"));
    AtTwo(reply, "error", "code");
    AtTwo(reply, "error", "message");
  }

  /** Only text and binary payloads are counted, byte by byte. */
  lemma VolumeCounts(frames: seq<Frame>, p: Bytes, reason: Option<Bytes>)
    ensures Volume([]) == 0
    ensures Volume(frames + [Text(p)]) == Volume(frames) + |p| && Volume(frames + [Binary(p)]) == Volume(frames) + |p|
    ensures Volume(frames + [Ping(p)]) == Volume(frames + [Pong(p)]) == Volume(frames)
    ensures Volume(frames + [Close(reason)]) == Volume(frames + [Raw(p)]) == Volume(frames)
  {
    var ends := [Text(p), Binary(p), Ping(p), Pong(p), Close(reason), Raw(p)];
    assert forall i :: 0 <= i < |ends| ==> (frames + [ends[i]])[..|frames|] == frames;
    assert ends[0] == Text(p) && ends[1] == Binary(p) && ends[2] == Ping(p) && ends[3] == Pong(p);
    assert ends[4] == Close(reason) && ends[5] == Raw(p);
  }

  /** Frame by frame, what reaches the client: closes lose their reason, raw frames vanish, all else stays. */
  lemma {:induction false} DownstreamIsJoin(frames: seq<Frame>)
    ensures Downstream(frames) == Join(DownstreamParts(frames))
    decreases |frames|
  {
    if frames != [] {
      var n := |frames| - 1;
      DownstreamIsJoin(frames[..n]);
      assert DownstreamParts(frames)[..n] == DownstreamParts(frames[..n]);
    }
  }

  function DownstreamParts(frames: seq<Frame>): seq<seq<Frame>> {
    seq(|frames|, i requires 0 <= i < |frames| =>
      if frames[i].Close? then [Close(None)] else if frames[i].Raw? then [] else [frames[i]])
  }
}
