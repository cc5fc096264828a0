/** The WebRTC byte stream: messages of a reliable ordered channel fed into a bounded
    queue, and reads that take bytes out of it. On payload channels an empty binary
    message is the end of the stream. */
module WebRtcBytes {
  import opened Sequences
  import BP = BytePipes

  type byte = BP.byte

  const RECEIVE_QUEUE_LIMIT := 0x10_0000
  const MAX_MESSAGE_BYTES := 0x4000

  /** error: the latched failure, if any. */
  datatype Queue = Queue(bytes: seq<byte>, closed: bool, error: bool, emptyCloses: bool)

  /** Exact: a read of exactly n bytes. UpTo: a read of at most n. A read that stays
      Pending may be polled again or dropped; both are just more events. */
  datatype Event = FeedBinary(data: seq<byte>) | FeedText | Fail | Close | Exact(n: nat) | UpTo(n: nat)

  /** Accepted and Rejected answer a feed; Got, Broken, Eof and Wait answer a read. */
  datatype Answer = Accepted | Rejected | Got(bytes: seq<byte>) | Broken | Eof | Wait

  function Feed(q: Queue, data: seq<byte>): (Queue, Answer) {
    if q.closed then (q, Rejected)
    else if data == [] && q.emptyCloses then (q.(closed := true), Accepted)
    else if |q.bytes| + |data| > RECEIVE_QUEUE_LIMIT then (q.(error := true, closed := true), Rejected)
    else (q.(bytes := q.bytes + data), Accepted)
  }

  function PollExact(q: Queue, n: nat): (Queue, Answer) {
    if |q.bytes| >= n then (q.(bytes := q.bytes[n..]), Got(q.bytes[..n]))
    else if q.error then (q, Broken)
    else if q.closed then (q, Eof)
    else (q, Wait)
  }

  function PollUpTo(q: Queue, n: nat): (Queue, Answer) {
    if n == 0 then (q, Got([]))
    else if q.bytes != [] then
      var k := if n < |q.bytes| then n else |q.bytes|;
      (q.(bytes := q.bytes[k..]), Got(q.bytes[..k]))
    else if q.error then (q, Broken)
    else if q.closed then (q, Eof)
    else (q, Wait)
  }

  function Next(q: Queue, e: Event): (Queue, Answer) {
    match e
    case FeedBinary(data) => Feed(q, data)
    case FeedText => (q.(error := true, closed := true), Rejected)
    case Fail => (q.(error := true, closed := true), Accepted)
    case Close => (q.(closed := true), Accepted)
    case Exact(n) => PollExact(q, n)
    case UpTo(n) => PollUpTo(q, n)
  }

  /** Bytes an event adds to the accepted input, and bytes it hands to a reader. */
  function Entered(q: Queue, e: Event): seq<byte> {
    if e.FeedBinary? && Next(q, e).1.Accepted? then e.data else []
  }

  function Left(q: Queue, e: Event): seq<byte> {
    if Next(q, e).1.Got? then Next(q, e).1.bytes else []
  }

  function Run(q: Queue, es: seq<Event>): Queue
    decreases |es|
  {
    if es == [] then q else Run(Next(q, es[0]).0, es[1..])
  }

  function Input(q: Queue, es: seq<Event>): seq<byte>
    decreases |es|
  {
    if es == [] then [] else Entered(q, es[0]) + Input(Next(q, es[0]).0, es[1..])
  }

  function Output(q: Queue, es: seq<Event>): seq<byte>
    decreases |es|
  {
    if es == [] then [] else Left(q, es[0]) + Output(Next(q, es[0]).0, es[1..])
  }

  lemma StepConserves(q: Queue, e: Event)
    ensures var q1 := Next(q, e).0;
            && Left(q, e) + q1.bytes == q.bytes + Entered(q, e)
            && (|q.bytes| <= RECEIVE_QUEUE_LIMIT ==> |q1.bytes| <= RECEIVE_QUEUE_LIMIT)
            && (q.closed ==> q1.closed && Entered(q, e) == [])
            && (q.error ==> q1.error)
            && (Left(q, e) != [] ==> Entered(q, e) == [])
  {
    match e
    case FeedBinary(data) =>
      assert q.bytes + [] == q.bytes;
    case Exact(n) =>
      if |q.bytes| >= n {
        assert q.bytes[..n] + q.bytes[n..] == q.bytes + [];
      }
    case UpTo(n) =>
      if n != 0 && q.bytes != [] {
        var k := if n < |q.bytes| then n else |q.bytes|;
        assert q.bytes[..k] + q.bytes[k..] == q.bytes + [];
      }
    case _ =>
  }

  /** For any cut of the input into messages and any mix of completed, pending and
      dropped reads: the bytes read, then the bytes queued, are the bytes queued at
      the start and the input accepted since; and the queue never outgrows its limit. */
  lemma {:induction false} QueueConserves(q: Queue, es: seq<Event>)
    requires |q.bytes| <= RECEIVE_QUEUE_LIMIT
    ensures Output(q, es) + Run(q, es).bytes == q.bytes + Input(q, es)
    ensures |Run(q, es).bytes| <= RECEIVE_QUEUE_LIMIT
    ensures q.closed ==> Run(q, es).closed && Input(q, es) == []
    decreases |es|
  {
    if es == [] {
      assert [] + q.bytes == q.bytes + [];
    } else {
      var q1 := Next(q, es[0]).0;
      StepConserves(q, es[0]);
      QueueConserves(q1, es[1..]);
      Shuffle(Left(q, es[0]), Output(q1, es[1..]), Run(q1, es[1..]).bytes, q1.bytes,
              Input(q1, es[1..]), q.bytes, Entered(q, es[0]));
    }
  }

  /** End of stream is reported exactly once everything accepted has been read and the
      queue is closed without an error; a failure never hides bytes that arrived before it. */
  lemma EndReportedExactlyWhen(q: Queue, n: nat)
    requires n > 0
    ensures PollUpTo(q, n).1.Eof? <==> q.bytes == [] && q.closed && !q.error
    ensures PollUpTo(q, n).1.Broken? <==> q.bytes == [] && q.error
    ensures PollUpTo(q, n).1.Got? <==> q.bytes != []
    ensures PollUpTo(q, n).1.Got? ==> 0 < |PollUpTo(q, n).1.bytes| <= n
  {
  }

  // ----- the reference byte pipe -----

  /** The plain in-memory pipe the adapters must behave like. */
  datatype Reference = Reference(data: seq<byte>, closed: bool)

  function ReferenceOf(q: Queue): Reference { Reference(q.bytes, q.closed) }

  function ReferenceRead(b: Reference, n: nat): (Reference, Answer) {
    if |b.data| >= n then (b.(data := b.data[n..]), Got(b.data[..n]))
    else if b.closed then (b, Eof)
    else (b, Wait)
  }

  function ReferenceFeed(b: Reference, data: seq<byte>): Reference { b.(data := b.data + data) }

  /** Until an error is latched the queue is the reference pipe: exact reads answer
      alike, accepted messages feed it, and the marker and close end it. */
  lemma QueueRefinesReference(q: Queue, e: Event)
    requires !Next(q, e).0.error
    ensures e.Exact? ==> (ReferenceOf(Next(q, e).0), Next(q, e).1) == ReferenceRead(ReferenceOf(q), e.n)
    ensures e.FeedBinary? && !q.closed && !(e.data == [] && q.emptyCloses) ==>
              ReferenceOf(Next(q, e).0) == ReferenceFeed(ReferenceOf(q), e.data) && Next(q, e).1.Accepted?
    ensures e.FeedBinary? && !q.closed && e.data == [] && q.emptyCloses ==>
              ReferenceOf(Next(q, e).0) == ReferenceOf(q).(closed := true)
    ensures e.Close? ==> ReferenceOf(Next(q, e).0) == ReferenceOf(q).(closed := true)
  {
  }

  // ----- the sending half -----

  /** The messages that one write of `data` becomes. */
  function Messages(data: seq<byte>): seq<seq<byte>>
    decreases |data|
  {
    if data == [] then []
    else
      var k := if |data| < MAX_MESSAGE_BYTES then |data| else MAX_MESSAGE_BYTES;
      [data[..k]] + Messages(data[k..])
  }

  function Joined(messages: seq<seq<byte>>): seq<byte> {
    if messages == [] then [] else messages[0] + Joined(messages[1..])
  }

  /** A write loses nothing, exceeds no message limit, and can never emit the empty end marker. */
  lemma {:induction false} WriteEmitsNoMarker(data: seq<byte>)
    ensures Joined(Messages(data)) == data
    ensures forall i :: 0 <= i < |Messages(data)| ==> 0 < |Messages(data)[i]| <= MAX_MESSAGE_BYTES
    decreases |data|
  {
    if data != [] {
      var k := if |data| < MAX_MESSAGE_BYTES then |data| else MAX_MESSAGE_BYTES;
      WriteEmitsNoMarker(data[k..]);
      assert data == data[..k] + data[k..];
    }
  }

  /** The messages of a whole payload stream: those of every write, then the end marker. */
  function WriteMessages(writes: seq<seq<byte>>): seq<seq<byte>> {
    if writes == [] then [] else Messages(writes[0]) + WriteMessages(writes[1..])
  }

  function StreamMessages(writes: seq<seq<byte>>): seq<seq<byte>> { WriteMessages(writes) + [[]] }

  ghost predicate AllNonEmpty(messages: seq<seq<byte>>) {
    forall i :: 0 <= i < |messages| ==> messages[i] != []
  }

  lemma {:induction false} JoinedConcat(a: seq<seq<byte>>, b: seq<seq<byte>>)
    ensures Joined(a + b) == Joined(a) + Joined(b)
  {
    if a == [] {
      assert a + b == b;
      assert [] + Joined(b) == Joined(b);
    } else {
      assert (a + b)[1..] == a[1..] + b;
      JoinedConcat(a[1..], b);
      assert a[0] + (Joined(a[1..]) + Joined(b)) == a[0] + Joined(a[1..]) + Joined(b);
    }
  }

  lemma {:induction false} WritesJoin(writes: seq<seq<byte>>)
    ensures Joined(WriteMessages(writes)) == Joined(writes) && AllNonEmpty(WriteMessages(writes))
  {
    if writes != [] {
      WriteEmitsNoMarker(writes[0]);
      WritesJoin(writes[1..]);
      JoinedConcat(Messages(writes[0]), WriteMessages(writes[1..]));
    }
  }

  /** The messages fed by a history, whatever reads come between them. */
  function Fed(es: seq<Event>): seq<seq<byte>> {
    if es == [] then [] else (if es[0].FeedBinary? then [es[0].data] else []) + Fed(es[1..])
  }

  /** The reader's own side does not close the queue. */
  ghost predicate LeftOpen(es: seq<Event>) { forall i :: 0 <= i < |es| ==> !es[i].Close? }

  lemma {:induction false} ErrorStays(q: Queue, es: seq<Event>)
    requires q.error
    ensures Run(q, es).error
    decreases |es|
  {
    if es != [] {
      StepConserves(q, es[0]);
      ErrorStays(Next(q, es[0]).0, es[1..]);
    }
  }

  /** A payload queue that is still open: no failure so far and no end marker seen. */
  ghost predicate OpenPayload(q: Queue) {
    !q.closed && !q.error && q.emptyCloses && |q.bytes| <= RECEIVE_QUEUE_LIMIT
  }

  /** Where a history that has fed a prefix of ms, then the marker, leaves the queue. */
  ghost predicate FedUpTo(q: Queue, ms: seq<seq<byte>>, es: seq<Event>) {
    var k := |Fed(es)|;
    if k <= |ms| then !Run(q, es).closed && Input(q, es) == Joined(ms[..k])
    else Run(q, es).closed && Input(q, es) == Joined(ms)
  }

  lemma {:induction false} FedSoFar(q: Queue, ms: seq<seq<byte>>, es: seq<Event>)
    requires OpenPayload(q) && AllNonEmpty(ms) && Fed(es) <= ms + [[]] && LeftOpen(es)
    requires !Run(q, es).error
    ensures FedUpTo(q, ms, es)
    decreases |es|
  {
    if es != [] {
      var e, rest := es[0], es[1..];
      var q1 := Next(q, e).0;
      StepConserves(q, e);
      if q1.error {
        ErrorStays(q1, rest);
      } else if e.FeedBinary? {
        assert Fed(es) == [e.data] + Fed(rest);
        assert e.data == (ms + [[]])[0];
        if ms == [] {
          MarkerFed(q, ms, es);
        } else {
          MessageFed(q, ms, es);
        }
      } else {
        assert Fed(es) == Fed(rest);
        FedSoFar(q1, ms, rest);
        assert [] + Input(q1, rest) == Input(q1, rest);
      }
    }
  }

  /** The marker closes the queue, and nothing can follow it. */
  lemma {:induction false} MarkerFed(q: Queue, ms: seq<seq<byte>>, es: seq<Event>)
    requires OpenPayload(q) && es != [] && es[0] == FeedBinary([]) && ms == [] && Fed(es) <= [[]]
    ensures FedUpTo(q, ms, es)
  {
    var rest := es[1..];
    assert Fed(es) == [[]] + Fed(rest);
    assert |Fed(es)| <= 1;
    var q1 := Next(q, es[0]).0;
    assert q1 == q.(closed := true);
    QueueConserves(q1, rest);
    assert Input(q, es) == [] + Input(q1, rest);
  }

  lemma {:induction false} MessageFed(q: Queue, ms: seq<seq<byte>>, es: seq<Event>)
    requires OpenPayload(q) && AllNonEmpty(ms) && ms != [] && es != [] && es[0].FeedBinary?
    requires Fed(es) <= ms + [[]] && LeftOpen(es) && !Run(q, es).error && !Next(q, es[0]).0.error
    ensures FedUpTo(q, ms, es)
    decreases |es|, 0
  {
    var m, rest := es[0].data, es[1..];
    assert Fed(es) == [m] + Fed(rest);
    assert m == (ms + [[]])[0] == ms[0];
    var q1 := Next(q, es[0]).0;
    assert q1 == q.(bytes := q.bytes + m);
    assert Fed(rest) == Fed(es)[1..] && (ms + [[]])[1..] == ms[1..] + [[]];
    assert Fed(rest) <= ms[1..] + [[]];
    FedSoFar(q1, ms[1..], rest);
    var k := |Fed(es)|;
    if k <= |ms| {
      assert ms[..k][1..] == ms[1..][..k - 1] && ms[..k][0] == m;
      assert Joined(ms[..k]) == m + Joined(ms[1..][..k - 1]);
    }
  }

  lemma JoinedPrefix(ms: seq<seq<byte>>, k: nat)
    requires k <= |ms|
    ensures Joined(ms[..k]) <= Joined(ms)
  {
    JoinedConcat(ms[..k], ms[k..]);
    assert ms == ms[..k] + ms[k..];
  }

  /** Bytes read and bytes queued are those of the messages fed so far. */
  lemma StreamSoFar(writes: seq<seq<byte>>, es: seq<Event>)
    requires Fed(es) <= StreamMessages(writes) && LeftOpen(es)
    requires !Run(Queue([], false, false, true), es).error
    ensures var q0 := Queue([], false, false, true); var q := Run(q0, es);
            && (q.closed <==> Fed(es) == StreamMessages(writes))
            && Output(q0, es) + q.bytes <= Joined(writes)
            && (q.closed ==> Output(q0, es) + q.bytes == Joined(writes))
  {
    var q0 := Queue([], false, false, true);
    var ms, k := WriteMessages(writes), |Fed(es)|;
    WritesJoin(writes);
    FedSoFar(q0, ms, es);
    QueueConserves(q0, es);
    assert [] + Input(q0, es) == Input(q0, es);
    if k <= |ms| {
      JoinedPrefix(ms, k);
    }
  }

  /** The whole payload stream, for any writes and any interleaving of feeds and reads that
      ends without an error: the reader has a prefix of the written bytes, the queue is
      closed exactly once the marker has been fed, and the end is reported exactly when
      the marker has been fed and every written byte has been read. */
  lemma StreamEndsExactlyAtItsEnd(writes: seq<seq<byte>>, es: seq<Event>, n: nat)
    requires Fed(es) <= StreamMessages(writes) && LeftOpen(es) && n > 0
    requires !Run(Queue([], false, false, true), es).error
    ensures var q0 := Queue([], false, false, true); var q := Run(q0, es);
            && Output(q0, es) <= Joined(writes)
            && (q.closed <==> Fed(es) == StreamMessages(writes))
            && (PollUpTo(q, n).1.Eof? <==> Fed(es) == StreamMessages(writes) && Output(q0, es) == Joined(writes))
  {
    var q0 := Queue([], false, false, true);
    StreamSoFar(writes, es);
    EndReportedExactlyWhen(Run(q0, es), n);
    var out, queued := Output(q0, es), Run(q0, es).bytes;
    assert out <= out + queued;
    assert |out + queued| == |out| + |queued|;
    assert queued == [] ==> out + queued == out;
  }

  /** An error on such a stream means that the reader fell more than the limit behind, or the transport failed. */
  lemma ErrorExactlyWhen(q: Queue, e: Event)
    requires !q.error && !q.closed
    ensures Next(q, e).0.error <==>
              e.FeedText? || e.Fail?
              || (e.FeedBinary? && !(e.data == [] && q.emptyCloses) && |q.bytes| + |e.data| > RECEIVE_QUEUE_LIMIT)
  {
  }

  // ----- the objects -----

  /** accepted: the input taken in so far. delivered: the bytes handed to readers. */
  class InboundQueue {
    var bytes: seq<byte>
    var closed: bool
    var error: bool
    const emptyBinaryCloses: bool
    ghost var accepted: seq<byte>
    ghost var delivered: seq<byte>

    /** Within the limit, and nothing lost, doubled or reordered since the start. */
    ghost predicate Valid()
      reads this
    {
      |bytes| <= RECEIVE_QUEUE_LIMIT && delivered + bytes == accepted
    }

    function State(): Queue
      reads this
    {
      Queue(bytes, closed, error, emptyBinaryCloses)
    }

    constructor (emptyBinaryCloses: bool)
      ensures State() == Queue([], false, false, emptyBinaryCloses) && Valid() && accepted == delivered == []
    {
      accepted, delivered := [], [];
      bytes, closed, error, this.emptyBinaryCloses := [], false, false, emptyBinaryCloses;
    }

    method OnBinary(data: seq<byte>) returns (a: Answer)
      requires Valid()
      modifies this
      ensures (State(), a) == Next(old(State()), FeedBinary(data))
      ensures Valid() && delivered == old(delivered)
      ensures accepted == old(accepted) + (if a.Accepted? then data else [])
    {
      if closed {
        return Rejected;
      }
      if |data| == 0 && emptyBinaryCloses {
        closed := true;
        return Accepted;
      }
      var newLength := |bytes| + |data|;
      if newLength > RECEIVE_QUEUE_LIMIT {
        error := true;
        closed := true;
        return Rejected;
      }
      assert delivered + (bytes + data) == delivered + bytes + data;
      bytes := bytes + data;
      accepted := accepted + data;
      return Accepted;
    }

    method OnText() returns (a: Answer)
      requires Valid()
      modifies this`error, this`closed
      ensures (State(), a) == Next(old(State()), FeedText)
      ensures Valid()
    {
      error := true;
      closed := true;
      return Rejected;
    }

    method OnFailure()
      requires Valid()
      modifies this`error, this`closed
      ensures State() == Next(old(State()), Fail).0
      ensures Valid()
    {
      error := true;
      closed := true;
    }

    method OnClose()
      requires Valid()
      modifies this`closed
      ensures State() == Next(old(State()), Close).0
      ensures Valid()
    {
      closed := true;
    }

    /** One turn of the read loop; Wait means the caller sleeps until the queue changes. */
    method TryReadExact(count: nat) returns (a: Answer)
      requires Valid()
      modifies this`bytes, this`delivered
      ensures (State(), a) == Next(old(State()), Exact(count))
      ensures Valid() && delivered == old(delivered) + (if a.Got? then a.bytes else [])
    {
      if |bytes| >= count {
        a := Got(bytes[..count]);
        Taken(count);
        return;
      }
      if error {
        return Broken;
      }
      if closed {
        return Eof;
      }
      return Wait;
    }

    /** Removes bytes from the front. */
    method Taken(count: nat)
      requires Valid() && count <= |bytes|
      modifies this`bytes, this`delivered
      ensures Valid() && bytes == old(bytes)[count..] && delivered == old(delivered) + old(bytes)[..count]
    {
      assert bytes == bytes[..count] + bytes[count..];
      assert delivered + bytes[..count] + bytes[count..] == delivered + bytes;
      delivered := delivered + bytes[..count];
      bytes := bytes[count..];
    }

    /** Fills the front of `target`; the answer carries the bytes that went in. */
    method TryReadUpTo(target: array<byte>) returns (a: Answer)
      requires Valid()
      modifies this`bytes, this`delivered, target
      ensures (State(), a) == Next(old(State()), UpTo(target.Length))
      ensures Valid() && delivered == old(delivered) + (if a.Got? then a.bytes else [])
      ensures a.Got? ==> |a.bytes| <= target.Length && target[..|a.bytes|] == a.bytes
      ensures var k := if a.Got? then |a.bytes| else 0;
              forall i :: k <= i < target.Length ==> target[i] == old(target[i])
    {
      if target.Length == 0 {
        return Got([]);
      }
      if |bytes| != 0 {
        var count := if target.Length < |bytes| then target.Length else |bytes|;
        a := Got(bytes[..count]);
        var i := 0;
        while i < count
          invariant 0 <= i <= count <= target.Length
          invariant bytes == old(bytes)[i..] && delivered == old(delivered) + old(bytes)[..i]
          invariant Valid()
          invariant target[..i] == old(bytes)[..i]
          invariant forall j :: i <= j < target.Length ==> target[j] == old(target[j])
        {
          target[i] := bytes[0];
          Taken(1);
          assert old(bytes)[..i] + [old(bytes)[i]] == old(bytes)[..i + 1];
          i := i + 1;
        }
        return;
      }
      if error {
        return Broken;
      }
      if closed {
        return Eof;
      }
      return Wait;
    }
  }

  /** The sink's messages, in the order they were handed to the channel. */
  class WebRtcAdapter {
    var closed: bool
    var sent: seq<seq<byte>>

    constructor ()
      ensures !closed && sent == []
    {
      closed, sent := false, [];
    }

    /** Splits a write into messages; false when the adapter is closed. */
    method Write(data: seq<byte>) returns (ok: bool)
      modifies this
      ensures closed == old(closed)
      ensures ok == !closed
      ensures sent == if ok then old(sent) + Messages(data) else old(sent)
    {
      if closed {
        return false;
      }
      var rest := data;
      while |rest| != 0
        invariant !closed && closed == old(closed)
        invariant sent + Messages(rest) == old(sent) + Messages(data)
        decreases |rest|
      {
        var k := if |rest| < MAX_MESSAGE_BYTES then |rest| else MAX_MESSAGE_BYTES;
        ghost var before := sent;
        sent := sent + [rest[..k]];
        assert before + Messages(rest) == sent + Messages(rest[k..]);
        rest := rest[k..];
      }
      return true;
    }

    method FinishSend() returns (ok: bool)
      modifies this
      ensures closed == old(closed) && ok == !closed
      ensures sent == if ok then old(sent) + [[]] else old(sent)
    {
      if closed {
        return false;
      }
      sent := sent + [[]];
      return true;
    }
  }
}
