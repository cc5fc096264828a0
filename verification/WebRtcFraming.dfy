/** Framing over the WebRTC control channel. A read polls the queue, sleeps until the
    next message is fed, and polls again; messages may also arrive in bursts before it
    starts. That is a read of a byte pipe, so the conversation is recovered here as well. */
module WebRtcFraming {
  import opened Framing
  import W = WebRtcBytes
  import BP = BytePipes

  type Bytes = seq<W.byte>

  /** The largest read that framing asks for. */
  const MAX_READ := MAX_JSON

  function Payloads(ms: seq<Bytes>): (items: seq<BP.Item>)
    ensures |items| == |ms|
  {
    if ms == [] then [] else [BP.Payload(ms[0])] + Payloads(ms[1..])
  }

  /** The byte pipe that a queue and the messages still to come stand for. */
  function PipeOf(q: W.Queue, ms: seq<Bytes>): BP.Pipe { BP.Pipe(q.bytes, Payloads(ms)) }

  /** An exact read: the queue and the messages left after it, and its answer. */
  function WaitingRead(q: W.Queue, ms: seq<Bytes>, n: nat): (W.Queue, seq<Bytes>, W.Answer)
    decreases |ms|
  {
    var (q1, a) := W.PollExact(q, n);
    if !a.Wait? || ms == [] then (q1, ms, a)
    else WaitingRead(W.Feed(q, ms[0]).0, ms[1..], n)
  }

  /** An open control channel; its messages are at most the sender's message size. */
  ghost predicate Open(q: W.Queue, ms: seq<Bytes>) {
    && !q.closed && !q.error && !q.emptyCloses && |q.bytes| <= W.RECEIVE_QUEUE_LIMIT
    && forall i :: 0 <= i < |ms| ==> |ms[i]| <= W.MAX_MESSAGE_BYTES
  }

  /** The waiting read is the pipe's read, and it cannot overflow the queue. */
  lemma {:induction false} WaitingReadIsFill(q: W.Queue, ms: seq<Bytes>, n: nat)
    requires Open(q, ms) && n <= MAX_READ
    ensures var (q1, ms1, a) := WaitingRead(q, ms, n); var (p1, o) := BP.Fill(PipeOf(q, ms), n, |ms|);
            && Open(q1, ms1) && p1 == PipeOf(q1, ms1) && |ms1| <= |ms|
            && (a.Got? <==> o.Ready?) && (a.Got? ==> a.bytes == o.bytes)
            && (a.Wait? <==> o.Pending?)
    decreases |ms|
  {
    if |q.bytes| < n && ms != [] {
      var q1 := W.Feed(q, ms[0]).0;
      assert q1 == q.(bytes := q.bytes + ms[0]);
      assert Payloads(ms)[1..] == Payloads(ms[1..]);
      WaitingReadIsFill(q1, ms[1..], n);
    }
  }

  /** More time than there are messages makes no difference. */
  lemma {:induction false} TimeEnough(p: BP.Pipe, n: nat, pulls: nat)
    requires pulls >= |p.inbox|
    ensures BP.Fill(p, n, pulls) == BP.Fill(p, n, |p.inbox|)
    decreases pulls
  {
    if |p.buffer| < n && p.inbox != [] && !BP.Ends(p.inbox[0]) {
      var rest := p.inbox[1..];
      var p1 := if p.inbox[0].Payload? then BP.Pipe(p.buffer + p.inbox[0].data, rest) else p.(inbox := rest);
      TimeEnough(p1, n, pulls - 1);
    }
  }

  // ----- framing calls over the queue -----

  function ReadState(q: W.Queue, ms: seq<Bytes>): (W.Queue, seq<Bytes>, Reading) {
    var (q1, ms1, a) := WaitingRead(q, ms, 1);
    if !a.Got? || |a.bytes| != 1 then (q1, ms1, Unread) else (q1, ms1, Recovered(State(SignExtend(a.bytes[0]))))
  }

  function ReadJson(q: W.Queue, ms: seq<Bytes>): (W.Queue, seq<Bytes>, Reading) {
    var (q1, ms1, head) := WaitingRead(q, ms, 4);
    if !head.Got? || |head.bytes| != 4 then (q1, ms1, Unread)
    else
      var size := FromBigEndian(head.bytes);
      if size == 0 || size > MAX_JSON then (q1, ms1, Refused)
      else
        var (q2, ms2, body) := WaitingRead(q1, ms1, size);
        if !body.Got? then (q2, ms2, Unread) else (q2, ms2, Recovered(Json(body.bytes)))
  }

  function ReadOne(q: W.Queue, ms: seq<Bytes>, kind: Kind): (W.Queue, seq<Bytes>, Reading) {
    match kind
    case StateKind => ReadState(q, ms)
    case JsonKind => ReadJson(q, ms)
  }

  lemma ReadJsonIsPipes(q: W.Queue, ms: seq<Bytes>)
    requires Open(q, ms)
    ensures var (q1, ms1, r) := ReadJson(q, ms);
            && (PipeOf(q1, ms1), r) == Framing.ReadJson(PipeOf(q, ms), MAX_JSON, |ms|, |ms|)
            && Open(q1, ms1)
  {
    WaitingReadIsFill(q, ms, 4);
    var (q1, ms1, head) := WaitingRead(q, ms, 4);
    if head.Got? && |head.bytes| == 4 {
      var size := FromBigEndian(head.bytes);
      if 0 < size <= MAX_JSON {
        WaitingReadIsFill(q1, ms1, size);
        TimeEnough(PipeOf(q1, ms1), size, |ms|);
      }
    }
  }

  /** Each framing call over the queue is the same call over its pipe. */
  lemma ReadOneIsPipes(q: W.Queue, ms: seq<Bytes>, kind: Kind)
    requires Open(q, ms)
    ensures var (q1, ms1, r) := ReadOne(q, ms, kind);
            (PipeOf(q1, ms1), r) == ReadMessage(PipeOf(q, ms), kind) && Open(q1, ms1)
  {
    match kind
    case StateKind => WaitingReadIsFill(q, ms, 1);
    case JsonKind => ReadJsonIsPipes(q, ms);
  }

  // ----- whole conversations -----

  /** Some messages arrive while nobody reads. */
  function Burst(q: W.Queue, ms: seq<Bytes>, k: nat): (W.Queue, seq<Bytes>)
    decreases k
  {
    if k == 0 || ms == [] then (q, ms) else Burst(W.Feed(q, ms[0]).0, ms[1..], k - 1)
  }

  /** A burst only moves bytes from the channel into the queue, unless it overflows it. */
  lemma {:induction false} BurstMovesBytes(q: W.Queue, ms: seq<Bytes>, k: nat)
    requires Open(q, ms) && !Burst(q, ms, k).0.error
    ensures var (q1, ms1) := Burst(q, ms, k);
            Open(q1, ms1) && BP.Reachable(PipeOf(q1, ms1)) == BP.Reachable(PipeOf(q, ms))
    decreases k
  {
    if k != 0 && ms != [] {
      var q1 := W.Feed(q, ms[0]).0;
      if q1.error {
        ErrorStays(q1, ms[1..], k - 1);
      } else {
        BurstMovesBytes(q1, ms[1..], k - 1);
        assert Payloads(ms)[1..] == Payloads(ms[1..]);
        assert BP.Reachable(PipeOf(q1, ms[1..])) == BP.Reachable(PipeOf(q, ms));
      }
    }
  }

  lemma {:induction false} ErrorStays(q: W.Queue, ms: seq<Bytes>, k: nat)
    requires q.error
    ensures Burst(q, ms, k).0.error
    decreases k
  {
    if k != 0 && ms != [] {
      ErrorStays(W.Feed(q, ms[0]).0, ms[1..], k - 1);
    }
  }

  /** Reads a conversation; before its i-th message a burst of bursts[i] messages arrives. */
  function ReadConversation(q: W.Queue, ms: seq<Bytes>, kinds: seq<Kind>, bursts: seq<nat>): seq<Reading>
    requires |bursts| == |kinds|
    decreases |kinds|
  {
    if kinds == [] then []
    else
      var (q1, ms1) := Burst(q, ms, bursts[0]);
      var (q2, ms2, r) := ReadOne(q1, ms1, kinds[0]);
      [r] + ReadConversation(q2, ms2, kinds[1..], bursts[1..])
  }

  /** No burst outgrows the queue. */
  ghost predicate BurstsFit(q: W.Queue, ms: seq<Bytes>, kinds: seq<Kind>, bursts: seq<nat>)
    requires |bursts| == |kinds|
    decreases |kinds|
  {
    kinds != [] ==>
      var (q1, ms1) := Burst(q, ms, bursts[0]);
      var (q2, ms2, r) := ReadOne(q1, ms1, kinds[0]);
      !q1.error && BurstsFit(q2, ms2, kinds[1..], bursts[1..])
  }

  /** Over the WebRTC control channel matching reads recover every message of any
      conversation, for any cut into messages, waiting for some and finding others. */
  lemma {:induction false} ConversationRecovered(
    q: W.Queue, ms: seq<Bytes>, conversation: seq<Message>, bursts: seq<nat>, rest: seq<W.byte>)
    requires forall i :: 0 <= i < |conversation| ==> Fits(conversation[i])
    requires Open(q, ms) && BP.Reachable(PipeOf(q, ms)) == Frames(conversation) + rest
    requires |bursts| == |Kinds(conversation)| && BurstsFit(q, ms, Kinds(conversation), bursts)
    ensures ReadConversation(q, ms, Kinds(conversation), bursts) == AllRecovered(conversation)
    decreases |conversation|
  {
    if conversation != [] {
      var m := conversation[0];
      assert Fits(m);
      var kinds := Kinds(conversation);
      assert kinds[0] == KindOf(m) && kinds[1..] == Kinds(conversation[1..]);
      var tail := Frames(conversation[1..]) + rest;
      assert Frames(conversation) + rest == Frame(m).value + tail;
      var (q1, ms1) := Burst(q, ms, bursts[0]);
      BurstMovesBytes(q, ms, bursts[0]);
      MessageRecovered(PipeOf(q1, ms1), m, tail);
      ReadOneIsPipes(q1, ms1, KindOf(m));
      var (q2, ms2, r) := ReadOne(q1, ms1, KindOf(m));
      ConversationRecovered(q2, ms2, conversation[1..], bursts[1..], rest);
    }
  }
}
