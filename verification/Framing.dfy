/** Control-channel framing over any of the byte pipes: one signed byte for a state,
    a four-byte big-endian length and a body for JSON. Bodies are taken as bytes. */
module Framing {
  import opened Wire
  import opened BytePipes

  const MAX_JSON := 65536
  const U32 := 0x1_0000_0000

  /** A signed byte on the wire, and back with its sign. */
  function StateByte(state: int): byte
    requires -128 <= state <= 127
  {
    if state < 0 then state + 256 else state
  }

  function SignExtend(b: byte): int { if b >= 128 then b - 256 else b }

  function BigEndian(n: nat): (b: seq<byte>)
    requires n < U32
    ensures |b| == 4
  {
    [n / 0x100_0000, n / 0x1_0000 % 0x100, n / 0x100 % 0x100, n % 0x100]
  }

  function FromBigEndian(b: seq<byte>): nat
    requires |b| == 4
  {
    var (b0: int, b1: int, b2: int, b3: int) := (b[0], b[1], b[2], b[3]);
    b0 * 0x100_0000 + b1 * 0x1_0000 + b2 * 0x100 + b3
  }

  lemma BigEndianRoundTrip(n: nat)
    requires n < U32
    ensures FromBigEndian(BigEndian(n)) == n
  {
    assert n == n / 0x100 * 0x100 + n % 0x100;
    assert n / 0x100 == n / 0x1_0000 * 0x100 + n / 0x100 % 0x100;
    assert n / 0x1_0000 == n / 0x100_0000 * 0x100 + n / 0x1_0000 % 0x100;
  }

  datatype Message = State(state: int) | Json(body: seq<byte>)
  datatype Kind = StateKind | JsonKind

  function KindOf(m: Message): Kind { if m.State? then StateKind else JsonKind }

  /** What the writer puts on the wire; None when it refuses the message. */
  function Frame(m: Message): Option<seq<byte>> {
    match m
    case State(state) => if -128 <= state <= 127 then Some([StateByte(state)]) else None
    case Json(body) => if |body| < U32 then Some(BigEndian(|body|) + body) else None
  }

  /** Recovered: a message. Refused: a length outside 1..max. Unread: the pipe gave no bytes. */
  datatype Reading = Recovered(m: Message) | Refused | Unread

  function ReadState(p: Pipe, pulls: nat): (Pipe, Reading) {
    var (p1, o) := Fill(p, 1, pulls);
    if !o.Ready? || |o.bytes| != 1 then (p1, Unread) else (p1, Recovered(State(SignExtend(o.bytes[0]))))
  }

  /** headPulls and bodyPulls say how long each half waits before it is dropped. */
  function ReadJson(p: Pipe, max: nat, headPulls: nat, bodyPulls: nat): (Pipe, Reading) {
    var (p1, head) := Fill(p, 4, headPulls);
    if !head.Ready? || |head.bytes| != 4 then (p1, Unread)
    else
      var size := FromBigEndian(head.bytes);
      if size == 0 || size > max then (p1, Refused)
      else
        var (p2, body) := Fill(p1, size, bodyPulls);
        if !body.Ready? then (p2, Unread) else (p2, Recovered(Json(body.bytes)))
  }

  /** A read with time enough. */
  function ReadMessage(p: Pipe, kind: Kind): (Pipe, Reading) {
    match kind
    case StateKind => ReadState(p, |p.inbox|)
    case JsonKind => ReadJson(p, MAX_JSON, |p.inbox|, |p.inbox|)
  }

  /** Messages that both sides accept. */
  predicate Fits(m: Message) {
    match m
    case State(state) => -128 <= state <= 127
    case Json(body) => 1 <= |body| <= MAX_JSON
  }

  lemma InboxShrinks(p: Pipe, n: nat, pulls: nat)
    ensures |Fill(p, n, pulls).0.inbox| <= |p.inbox|
    decreases pulls
  {
  }

  lemma ReadStateRecovers(p: Pipe, state: int, rest: seq<byte>)
    requires -128 <= state <= 127 && Reachable(p) == [StateByte(state)] + rest
    ensures var (p1, r) := ReadMessage(p, StateKind); r == Recovered(State(state)) && Reachable(p1) == rest
  {
    ReadsExactlyWhen(p, 1, |p.inbox|);
    assert Reachable(p)[..1] == [StateByte(state)];
    assert Reachable(p)[1..] == rest;
  }

  /** Reading back a written body succeeds exactly when its size is in 1..max; otherwise
      the reader refuses and the body is left in the pipe, unframed. */
  lemma JsonRecoveredExactlyWhen(p: Pipe, max: nat, body: seq<byte>, rest: seq<byte>)
    requires |body| < U32 && Reachable(p) == BigEndian(|body|) + body + rest
    ensures var (p1, r) := ReadJson(p, max, |p.inbox|, |p.inbox|);
            && (r == Recovered(Json(body)) <==> 1 <= |body| <= max)
            && (1 <= |body| <= max ==> Reachable(p1) == rest)
            && (!(1 <= |body| <= max) ==> r == Refused && Reachable(p1) == body + rest)
  {
    var head := BigEndian(|body|);
    BigEndianRoundTrip(|body|);
    ReadsExactlyWhen(p, 4, |p.inbox|);
    assert Reachable(p)[..4] == head;
    assert Reachable(p)[4..] == body + rest;
    var p1 := Fill(p, 4, |p.inbox|).0;
    InboxShrinks(p, 4, |p.inbox|);
    ReadsExactlyWhen(p1, |body|, |p.inbox|);
    assert Reachable(p1)[..|body|] == body;
    assert Reachable(p1)[|body|..] == rest;
  }

  lemma MessageRecovered(p: Pipe, m: Message, rest: seq<byte>)
    requires Fits(m) && Reachable(p) == Frame(m).value + rest
    ensures var (p1, r) := ReadMessage(p, KindOf(m)); r == Recovered(m) && Reachable(p1) == rest
  {
    match m
    case State(state) => ReadStateRecovers(p, state, rest);
    case Json(body) => JsonRecoveredExactlyWhen(p, MAX_JSON, body, rest);
  }

  function Frames(ms: seq<Message>): seq<byte>
    requires forall i :: 0 <= i < |ms| ==> Fits(ms[i])
  {
    if ms == [] then [] else assert Fits(ms[0]); Frame(ms[0]).value + Frames(ms[1..])
  }

  function Kinds(ms: seq<Message>): seq<Kind> {
    if ms == [] then [] else [KindOf(ms[0])] + Kinds(ms[1..])
  }

  function ReadAll(p: Pipe, kinds: seq<Kind>): seq<Reading>
    decreases |kinds|
  {
    if kinds == [] then []
    else
      var (p1, r) := ReadMessage(p, kinds[0]);
      [r] + ReadAll(p1, kinds[1..])
  }

  function AllRecovered(ms: seq<Message>): seq<Reading> {
    if ms == [] then [] else [Recovered(ms[0])] + AllRecovered(ms[1..])
  }

  /** Matching reads recover every message of any conversation, for any cut of its bytes into messages. */
  lemma {:induction false} ConversationRecovered(p: Pipe, ms: seq<Message>, rest: seq<byte>)
    requires forall i :: 0 <= i < |ms| ==> Fits(ms[i])
    requires Reachable(p) == Frames(ms) + rest
    ensures ReadAll(p, Kinds(ms)) == AllRecovered(ms)
    decreases |ms|
  {
    if ms != [] {
      assert Fits(ms[0]);
      var tail := Frames(ms[1..]) + rest;
      assert Frames(ms) + rest == Frame(ms[0]).value + tail;
      MessageRecovered(p, ms[0], tail);
      var p1 := ReadMessage(p, KindOf(ms[0])).0;
      assert Kinds(ms)[0] == KindOf(ms[0]) && Kinds(ms)[1..] == Kinds(ms[1..]);
      ConversationRecovered(p1, ms[1..], rest);
    }
  }

  /** A dropped JSON read is not always harmless: it leaves the byte sequence as it was
      exactly when it was dropped before its four length bytes were there. */
  lemma DroppedJsonHarmlessExactlyWhen(p: Pipe, max: nat, headPulls: nat, bodyPulls: nat)
    requires ReadJson(p, max, headPulls, bodyPulls).1.Unread?
    ensures Plain(ReadJson(p, max, headPulls, bodyPulls).0) == Plain(p) <==> !Fill(p, 4, headPulls).1.Ready?
  {
    var (p1, head) := Fill(p, 4, headPulls);
    FillTakesPlain(p, 4, headPulls);
    if head.Ready? {
      var size := FromBigEndian(head.bytes);
      FillTakesPlain(p1, size, bodyPulls);
      var p2 := Fill(p1, size, bodyPulls).0;
      assert |Plain(p)| == 4 + |Plain(p1)|;
      assert Taken(Fill(p1, size, bodyPulls).1) == [];
      assert [] + Plain(p2) == Plain(p2);
    } else {
      assert [] + Plain(p1) == Plain(p1);
    }
  }

  lemma HeadArrives(p: Pipe, q: Pipe)
    requires p == Pipe([], [Payload([0, 0, 0, 1]), Payload([123])]) && q == Pipe([], [Payload([123])])
    ensures Fill(p, 4, 1) == (q, Ready([0, 0, 0, 1]))
  {
    var held := Pipe([0, 0, 0, 1], q.inbox);
    assert p.inbox[1..] == q.inbox && [] + p.inbox[0].data == held.buffer;
    assert held.buffer[4..] == [] && held.buffer[..4] == held.buffer;
    assert Fill(held, 4, 0) == (q, Ready(held.buffer));
  }

  lemma BodyAlone(q: Pipe)
    requires q == Pipe([], [Payload([123])])
    ensures Reachable(q) == [123] && Fill(q, 4, 2).1 == Pending
  {
    var last := Pipe([123], []);
    assert q.inbox[1..] == [] && [] + q.inbox[0].data == last.buffer;
    assert Fill(last, 4, 1).1 == Pending;
  }

  /** The harmful case happens: the length is consumed, the body arrives later. */
  lemma DroppedJsonLosesFrame()
    ensures var p := Pipe([], [Payload([0, 0, 0, 1]), Payload([123])]);
            var (p1, r) := ReadJson(p, MAX_JSON, 1, 0);
            r.Unread? && Reachable(p1) == [123] && ReadJson(p1, MAX_JSON, 2, 2).1.Unread?
  {
    var p := Pipe([], [Payload([0, 0, 0, 1]), Payload([123])]);
    var q := Pipe([], [Payload([123])]);
    HeadArrives(p, q);
    BodyAlone(q);
  }

  // ----- the framing calls themselves, on a TCP pipe -----

  /** Builds a frame in one buffer: the length, then the body. */
  method WriteJson(body: seq<byte>) returns (frame: Option<seq<byte>>)
    ensures frame == Frame(Json(body))
    ensures frame.Some? <==> |body| < U32
  {
    if |body| >= U32 {
      return None;
    }
    var buffer := BigEndian(|body|);
    buffer := buffer + body;
    return Some(buffer);
  }

  method ReadStateFrom(p: TcpPipe, pulls: nat) returns (r: Reading)
    modifies p
    ensures (p.State(), r) == ReadState(old(p.State()), pulls)
  {
    FillTakesPlain(p.State(), 1, pulls);
    var o := p.ReadExact(1, pulls);
    if o.Ready? {
      return Recovered(State(SignExtend(o.bytes[0])));
    }
    return Unread;
  }

  method ReadJsonFrom(p: TcpPipe, max: nat, headPulls: nat, bodyPulls: nat) returns (r: Reading)
    modifies p
    ensures (p.State(), r) == ReadJson(old(p.State()), max, headPulls, bodyPulls)
  {
    FillTakesPlain(p.State(), 4, headPulls);
    var head := p.ReadExact(4, headPulls);
    if !head.Ready? {
      return Unread;
    }
    var size := FromBigEndian(head.bytes);
    if size == 0 || size > max {
      return Refused;
    }
    var body := p.ReadExact(size, bodyPulls);
    if !body.Ready? {
      return Unread;
    }
    return Recovered(Json(body.bytes));
  }
}
