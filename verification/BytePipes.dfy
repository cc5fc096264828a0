/** The TCP and WebSocket byte pipes. Both keep bytes that arrived ahead of a read
    in a buffer and pull more from the transport only while a read needs them; a
    read that times out or is dropped keeps what it pulled. */
module BytePipes {
  import opened Wire

  type byte = x: int | 0 <= x < 256

  /** What one pull of the transport yields. Payload: a chunk of bytes or a binary
      frame (which may be empty). Skip: a frame that is not payload. Stop: end of
      stream or a close frame. Fault: a receive error. */
  datatype Item = Payload(data: seq<byte>) | Skip | Stop | Fault

  predicate Ends(item: Item) { item.Stop? || item.Fault? }

  /** buffer: bytes pulled and not yet read. inbox: what later pulls will yield. */
  datatype Pipe = Pipe(buffer: seq<byte>, inbox: seq<Item>)

  /** Pending: the read was dropped, by its deadline or its caller, while waiting. */
  datatype Outcome = Ready(bytes: seq<byte>) | Pending | Closed

  /** A read of n bytes that is dropped once it would need more than `pulls` pulls. */
  function Fill(p: Pipe, n: nat, pulls: nat): (Pipe, Outcome)
    decreases pulls
  {
    if |p.buffer| >= n then (p.(buffer := p.buffer[n..]), Ready(p.buffer[..n]))
    else if pulls == 0 || p.inbox == [] then (p, Pending)
    else
      var rest := p.inbox[1..];
      match p.inbox[0]
      case Payload(data) => Fill(Pipe(p.buffer + data, rest), n, pulls - 1)
      case Skip => Fill(p.(inbox := rest), n, pulls - 1)
      case _ => (p.(inbox := rest), Closed)
  }

  function Bytes(items: seq<Item>): seq<byte> {
    if items == [] then [] else (if items[0].Payload? then items[0].data else []) + Bytes(items[1..])
  }

  /** The byte sequence that the pipe stands for: buffered bytes, then everything to come. */
  function Plain(p: Pipe): seq<byte> { p.buffer + Bytes(p.inbox) }

  /** Bytes that arrive before the stream stops. */
  function BytesBeforeStop(items: seq<Item>): seq<byte> {
    if items == [] || Ends(items[0]) then []
    else (if items[0].Payload? then items[0].data else []) + BytesBeforeStop(items[1..])
  }

  /** The bytes a read can still reach. */
  function Reachable(p: Pipe): seq<byte> { p.buffer + BytesBeforeStop(p.inbox) }

  function Taken(o: Outcome): seq<byte> { if o.Ready? then o.bytes else [] }

  /** A read takes the next n bytes of the plain sequence or takes nothing, however
      the bytes were cut and however early it was dropped. */
  lemma {:induction false} FillTakesPlain(p: Pipe, n: nat, pulls: nat)
    ensures var (p1, o) := Fill(p, n, pulls);
            && Taken(o) + Plain(p1) == Plain(p)
            && (o.Ready? ==> |o.bytes| == n)
    decreases pulls
  {
    if |p.buffer| >= n {
      assert p.buffer == p.buffer[..n] + p.buffer[n..];
    } else if pulls != 0 && p.inbox != [] && !Ends(p.inbox[0]) {
      var rest := p.inbox[1..];
      if p.inbox[0].Payload? {
        var p1 := Pipe(p.buffer + p.inbox[0].data, rest);
        FillTakesPlain(p1, n, pulls - 1);
        assert Plain(p1) == Plain(p);
      } else {
        FillTakesPlain(p.(inbox := rest), n, pulls - 1);
        assert Plain(p.(inbox := rest)) == Plain(p);
      }
    }
  }

  /** With time enough, a read completes exactly when n bytes arrive before the stream
      stops, and then yields those bytes; the fragmentation does not matter. */
  lemma {:induction false} ReadsExactlyWhen(p: Pipe, n: nat, pulls: nat)
    requires pulls >= |p.inbox|
    ensures var (p1, o) := Fill(p, n, pulls);
            && (o.Ready? <==> |Reachable(p)| >= n)
            && (o.Ready? ==> o.bytes == Reachable(p)[..n] && Reachable(p1) == Reachable(p)[n..])
    decreases pulls
  {
    if |p.buffer| >= n {
      assert Reachable(p)[..n] == p.buffer[..n];
      assert Reachable(p)[n..] == p.buffer[n..] + BytesBeforeStop(p.inbox);
    } else if p.inbox != [] && !Ends(p.inbox[0]) {
      var rest := p.inbox[1..];
      if p.inbox[0].Payload? {
        var p1 := Pipe(p.buffer + p.inbox[0].data, rest);
        ReadsExactlyWhen(p1, n, pulls - 1);
        assert Reachable(p1) == Reachable(p);
      } else {
        ReadsExactlyWhen(p.(inbox := rest), n, pulls - 1);
        assert Reachable(p.(inbox := rest)) == Reachable(p);
      }
    }
  }

  /** One call: how many bytes it asks for and how many pulls it lives. */
  datatype Read = Read(n: nat, pulls: nat)

  /** Any mix of completed, timed-out and dropped reads: the pipe afterwards, and the bytes
      that completed reads returned. */
  function Reads(p: Pipe, calls: seq<Read>): (Pipe, seq<byte>)
    decreases |calls|
  {
    if calls == [] then (p, [])
    else
      var (p1, o) := Fill(p, calls[0].n, calls[0].pulls);
      var (p2, later) := Reads(p1, calls[1..]);
      (p2, Taken(o) + later)
  }

  /** Over any such mix, the bytes read, then the bytes buffered, then the bytes still
      to come are exactly the bytes that were sent, in order. */
  lemma {:induction false} NothingLostOrReordered(p: Pipe, calls: seq<Read>)
    ensures var (p1, got) := Reads(p, calls); got + p1.buffer + Bytes(p1.inbox) == Plain(p)
    decreases |calls|
  {
    if calls == [] {
      assert [] + p.buffer + Bytes(p.inbox) == Plain(p);
    } else {
      var (p1, o) := Fill(p, calls[0].n, calls[0].pulls);
      FillTakesPlain(p, calls[0].n, calls[0].pulls);
      NothingLostOrReordered(p1, calls[1..]);
      var (p2, later) := Reads(p1, calls[1..]);
      assert (Taken(o) + later) + p2.buffer + Bytes(p2.inbox) == Taken(o) + (later + p2.buffer + Bytes(p2.inbox));
    }
  }

  /** Two cuts of the same bytes are read alike. */
  lemma FragmentationInvisible(p: Pipe, q: Pipe, n: nat)
    requires Reachable(p) == Reachable(q)
    ensures Fill(p, n, |p.inbox|).1.Ready? == Fill(q, n, |q.inbox|).1.Ready?
    ensures Fill(p, n, |p.inbox|).1.Ready? ==> Fill(p, n, |p.inbox|).1 == Fill(q, n, |q.inbox|).1
  {
    ReadsExactlyWhen(p, n, |p.inbox|);
    ReadsExactlyWhen(q, n, |q.inbox|);
  }

  // ----- handing a connection over -----

  /** Conversion to a data channel refuses to drop buffered bytes. */
  predicate Converts(p: Pipe) { p.buffer == [] }

  /** A connection that has read its cookie converts exactly when the pulls that took
      brought the cookie and nothing beyond it; then no byte is dropped. With nothing
      but the cookie sent that is always so. */
  lemma ConvertsExactlyWhen(sent: seq<Item>, pulls: nat)
    requires Fill(Pipe([], sent), COOKIE_SIZE, pulls).1.Ready?
    ensures var p1 := Fill(Pipe([], sent), COOKIE_SIZE, pulls).0;
            && |Bytes(sent)| == COOKIE_SIZE + |p1.buffer| + |Bytes(p1.inbox)|
            && (Converts(p1) <==> |Bytes(sent)| == COOKIE_SIZE + |Bytes(p1.inbox)|)
            && (Converts(p1) ==> Bytes(p1.inbox) == Bytes(sent)[COOKIE_SIZE..])
            && (|Bytes(sent)| == COOKIE_SIZE ==> Converts(p1) && Bytes(p1.inbox) == [])
  {
    var p0 := Pipe([], sent);
    var (p1, o) := Fill(p0, COOKIE_SIZE, pulls);
    FillTakesPlain(p0, COOKIE_SIZE, pulls);
    assert Plain(p0) == Bytes(sent);
    assert o.bytes + Plain(p1) == Bytes(sent);
    assert Bytes(sent)[COOKIE_SIZE..] == Plain(p1);
    if Converts(p1) {
      assert Plain(p1) == Bytes(p1.inbox);
    }
  }

  // ----- the pipe objects -----

  /** A socket read of no bytes is the end of the stream. */
  function Chunk(data: seq<byte>): Item { if data == [] then Stop else Payload(data) }

  function Chunks(chunks: seq<seq<byte>>): (items: seq<Item>)
    ensures |items| == |chunks|
  {
    if chunks == [] then [] else [Chunk(chunks[0])] + Chunks(chunks[1..])
  }

  /** TCP: every pull is one socket read. */
  class TcpPipe {
    var buf: seq<byte>
    var socket: seq<seq<byte>>

    function State(): Pipe
      reads this
    {
      Pipe(buf, Chunks(socket))
    }

    constructor (socket: seq<seq<byte>>)
      ensures State() == Pipe([], Chunks(socket))
    {
      buf, this.socket := [], socket;
    }

    /** Reads exactly n bytes; `pulls` is how many socket reads happen before the deadline. */
    method ReadExact(n: nat, pulls: nat) returns (o: Outcome)
      modifies this
      ensures (State(), o) == Fill(old(State()), n, pulls)
    {
      var left := pulls;
      while |buf| < n
        invariant Fill(State(), n, left) == Fill(old(State()), n, pulls)
        decreases left
      {
        if left == 0 || socket == [] {
          return Pending;
        }
        var chunk := socket[0];
        assert Chunks(socket)[0] == Chunk(chunk) && Chunks(socket)[1..] == Chunks(socket[1..]);
        socket := socket[1..];
        left := left - 1;
        if |chunk| == 0 {
          return Closed;
        }
        buf := buf + chunk;
      }
      o := Ready(buf[..n]);
      buf := buf[n..];
    }

    /** Hands the socket over, or refuses because buffered bytes would be lost. */
    method IntoDataChannel() returns (channel: Option<seq<seq<byte>>>)
      ensures channel == if Converts(State()) then Some(socket) else None
    {
      if |buf| != 0 {
        return None;
      }
      return Some(socket);
    }
  }

  /** WebSocket control pipe: every pull is one frame. */
  class WsPipe {
    var leftover: seq<byte>
    var frames: seq<Item>

    function State(): Pipe
      reads this
    {
      Pipe(leftover, frames)
    }

    constructor (frames: seq<Item>)
      ensures State() == Pipe([], frames)
    {
      leftover, this.frames := [], frames;
    }

    method FillAndDrain(n: nat, pulls: nat) returns (o: Outcome)
      modifies this
      ensures (State(), o) == Fill(old(State()), n, pulls)
    {
      var left := pulls;
      while |leftover| < n
        invariant Fill(State(), n, left) == Fill(old(State()), n, pulls)
        decreases left
      {
        if left == 0 || frames == [] {
          return Pending;
        }
        var frame := frames[0];
        frames := frames[1..];
        left := left - 1;
        match frame
        case Payload(data) => leftover := leftover + data;
        case Skip =>
        case _ => return Closed;
      }
      o := Ready(leftover[..n]);
      leftover := leftover[n..];
    }

    /** Hands the connection over, or refuses because buffered bytes would be lost. */
    method IntoDataChannel() returns (channel: Option<seq<Item>>)
      ensures channel == if Converts(State()) then Some(frames) else None
    {
      if |leftover| != 0 {
        return None;
      }
      return Some(frames);
    }
  }

  /** Got(b): bytes b were read, none at end of stream. Failed: the latched error. */
  datatype ChunkRead = Got(bytes: seq<byte>) | Waiting | Failed

  /** A read of up to `room` bytes from a channel that has not failed. */
  function TakeChunk(p: Pipe, room: nat, pulls: nat): (Pipe, ChunkRead)
    decreases pulls
  {
    if p.buffer != [] then
      var n := if |p.buffer| < room then |p.buffer| else room;
      (p.(buffer := p.buffer[n..]), Got(p.buffer[..n]))
    else if pulls == 0 || p.inbox == [] then (p, Waiting)
    else
      var rest := p.inbox[1..];
      match p.inbox[0]
      case Payload(data) => TakeChunk(Pipe(data, rest), room, pulls - 1)
      case Skip => TakeChunk(p.(inbox := rest), room, pulls - 1)
      case Stop => (p.(inbox := rest), Got([]))
      case Fault => (p.(inbox := rest), Failed)
  }

  /** A chunk is a prefix of the plain sequence; with time enough it is empty only
      when no byte arrives before the stream ends, so no frame boundary, empty
      frame or control frame is ever taken for the end of the stream. */
  lemma {:induction false} ChunkTakesPlain(p: Pipe, room: nat, pulls: nat)
    requires room > 0
    ensures var (p1, r) := TakeChunk(p, room, pulls); var got := if r.Got? then r.bytes else [];
            && got + Plain(p1) == Plain(p)
            && |got| <= room
            && (r.Got? && got == [] ==> |Reachable(p)| == 0)
            && (pulls >= |p.inbox| ==> (got != [] <==> |Reachable(p)| > 0))
    decreases pulls
  {
    if p.buffer != [] {
      var n := if |p.buffer| < room then |p.buffer| else room;
      assert p.buffer == p.buffer[..n] + p.buffer[n..];
    } else if pulls != 0 && p.inbox != [] && !Ends(p.inbox[0]) {
      var rest := p.inbox[1..];
      var p1 := if p.inbox[0].Payload? then Pipe(p.inbox[0].data, rest) else p.(inbox := rest);
      ChunkTakesPlain(p1, room, pulls - 1);
      assert Plain(p1) == Plain(p) && Reachable(p1) == Reachable(p);
    }
  }

  /** WebSocket payload channel: reads up to a buffer's worth, reassembling frames. */
  class WsDataChannel {
    var leftover: seq<byte>
    var frames: seq<Item>
    var failed: bool

    function State(): Pipe
      reads this
    {
      Pipe(leftover, frames)
    }

    constructor (frames: seq<Item>)
      ensures State() == Pipe([], frames) && !failed
    {
      leftover, this.frames, failed := [], frames, false;
    }

    /** The first receive error is latched and every later read reports it. */
    method ReadChunk(room: nat, pulls: nat) returns (r: ChunkRead)
      modifies this
      ensures !old(failed) ==> (State(), r) == TakeChunk(old(State()), room, pulls) && failed == r.Failed?
      ensures old(failed) ==> failed && r == Failed && State() == old(State())
    {
      if failed {
        return Failed;
      }
      var left := pulls;
      while |leftover| == 0
        invariant !failed && TakeChunk(State(), room, left) == TakeChunk(old(State()), room, pulls)
        decreases left
      {
        if left == 0 || frames == [] {
          return Waiting;
        }
        var frame := frames[0];
        frames := frames[1..];
        left := left - 1;
        match frame
        case Payload(data) => leftover := data;
        case Skip =>
        case Stop => return Got([]);
        case Fault =>
          failed := true;
          return Failed;
      }
      var n := if |leftover| < room then |leftover| else room;
      r := Got(leftover[..n]);
      leftover := leftover[n..];
    }
  }
}
