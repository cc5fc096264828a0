/** A WebRTC payload stream at the level of its messages: blocks cut into messages,
    messages on the ordered channel, and the receiver's queue. The byte counts of
    `DataPlane` are proved to be what this level does, with the end flag `fin` standing
    for the empty message and for nothing else. */
module WebRtcLink {
  import opened Wire
  import opened DataPlane
  import W = WebRtcBytes

  type Bytes = seq<W.byte>

  /** todo: messages of the block being written that are not yet sent. wire: messages
      sent and not yet delivered. */
  datatype Channel = Channel(todo: seq<Bytes>, wire: seq<Bytes>, queue: W.Queue)

  /** The counts and the messages side by side; `stop` is the senders' stop flag. */
  datatype Both = Both(link: Link, ch: Channel, stop: bool)

  /** Book: a move of a task that touches no message. Start: a block's write begins.
      Send: its next message goes out. End: the empty message goes out. Deliver: the
      oldest message reaches the queue. Poll: the receiver reads. */
  datatype Step = StopSenders | Book(m: Move) | Start(block: Bytes) | Send | End | Deliver | Poll

  function Fresh(): W.Queue { W.Queue([], false, false, true) }

  /** Moves that neither write nor read. */
  predicate Bookkeeping(l: Link, m: Move) { (m.TxGo? && !l.tx.TxWaiting?) || m.RxGo? }

  /** What the messages allow at each step. */
  predicate Ready(cfg: Config, b: Both, e: Step) {
    match e
    case StopSenders => true
    case Book(m) => Bookkeeping(b.link, m) && LinkNext(cfg, b.stop, false, b.link, m).Some?
    case Start(block) => b.link.tx.TxWaiting? && !b.link.closed && |block| == cfg.len
    case Send =>
      b.ch.todo != [] && |W.Joined(b.ch.wire)| + |b.ch.queue.bytes| + |b.ch.todo[0]| <= cfg.capacity
    case End => b.link.tx.TxEnded? && b.stop && !b.link.fin
    case Deliver => b.ch.wire != [] && !W.Feed(b.ch.queue, b.ch.wire[0]).0.error
    case Poll =>
      var a := W.PollUpTo(b.ch.queue, RECEIVE_BUFFER).1;
      b.link.rx.RxReading? && (a.Got? || a.Eof?)
  }

  function ChannelNext(ch: Channel, e: Step): Channel {
    match e
    case Start(block) => ch.(todo := W.Messages(block))
    case Send => if ch.todo == [] then ch else ch.(todo := ch.todo[1..], wire := ch.wire + [ch.todo[0]])
    case End => ch.(wire := ch.wire + [[]])
    case Deliver => if ch.wire == [] then ch else ch.(wire := ch.wire[1..], queue := W.Feed(ch.queue, ch.wire[0]).0)
    case Poll => ch.(queue := W.PollUpTo(ch.queue, RECEIVE_BUFFER).0)
    case _ => ch
  }

  /** The move of the byte counts that a step of the messages is. */
  function LinkAfter(cfg: Config, b: Both, e: Step): Option<Link> {
    match e
    case StopSenders => Some(b.link)
    case Book(m) => LinkNext(cfg, b.stop, false, b.link, m)
    case Start(_) => LinkNext(cfg, b.stop, false, b.link, TxGo)
    case Send => LinkNext(cfg, b.stop, false, b.link, TxPush(if b.ch.todo == [] then 0 else |b.ch.todo[0]|))
    case End => Some(SendMarker(b.link))
    case Deliver => Some(b.link)
    case Poll =>
      var a := W.PollUpTo(b.ch.queue, RECEIVE_BUFFER).1;
      LinkNext(cfg, b.stop, false, b.link, if a.Got? then RxTake(|a.bytes|) else RxEof)
  }

  function Next(cfg: Config, b: Both, e: Step): Option<Both> {
    if !Ready(cfg, b, e) then None
    else
      var l := LinkAfter(cfg, b, e);
      if l.None? then None else Some(Both(l.value, ChannelNext(b.ch, e), b.stop || e.StopSenders?))
  }

  function Run(cfg: Config, b: Both, es: seq<Step>): Option<Both>
    decreases |es|
  {
    if es == [] then Some(b)
    else
      var b1 := Next(cfg, b, es[0]);
      if b1.Some? then Run(cfg, b1.value, es[1..]) else None
  }

  // ----- the two levels agree -----

  /** Where the end of the stream is: nowhere yet, last on the wire, or seen by the queue. */
  ghost predicate EndInPlace(fin: bool, wire: seq<Bytes>, closed: bool) {
    if !fin then !closed && W.AllNonEmpty(wire)
    else if closed then wire == []
    else wire != [] && wire[|wire| - 1] == [] && W.AllNonEmpty(wire[..|wire| - 1])
  }

  ghost predicate Tracks(b: Both) {
    && b.ch.queue.emptyCloses && !b.ch.queue.error
    && b.link.sent == b.link.taken + |W.Joined(b.ch.wire)| + |b.ch.queue.bytes|
    && W.AllNonEmpty(b.ch.todo)
    && (if b.link.tx.TxWriting? then b.ch.todo != [] && b.link.tx.left == |W.Joined(b.ch.todo)| else b.ch.todo == [])
    && EndInPlace(b.link.fin, b.ch.wire, b.ch.queue.closed)
  }

  lemma JoinedAppend(ms: seq<Bytes>, m: Bytes)
    ensures |W.Joined(ms + [m])| == |W.Joined(ms)| + |m|
  {
    W.JoinedConcat(ms, [m]);
    assert [m][1..] == [];
    assert W.Joined([m]) == m + [];
  }

  lemma JoinedHead(ms: seq<Bytes>)
    requires ms != []
    ensures |W.Joined(ms)| == |ms[0]| + |W.Joined(ms[1..])|
  {
  }

  lemma StartTracks(cfg: Config, b: Both, block: Bytes)
    requires ValidConfig(cfg) && Tracks(b) && Ready(cfg, b, Start(block))
    ensures LinkAfter(cfg, b, Start(block)).Some? && Tracks(Next(cfg, b, Start(block)).value)
  {
    W.WriteEmitsNoMarker(block);
    assert W.Joined([]) == [];
  }

  lemma SendTracks(cfg: Config, b: Both)
    requires Tracks(b) && Ready(cfg, b, Send) && LinkOk(cfg, b.stop, false, b.link)
    ensures LinkAfter(cfg, b, Send).Some? && Tracks(Next(cfg, b, Send).value)
  {
    var todo := b.ch.todo;
    JoinedHead(todo);
    JoinedAppend(b.ch.wire, todo[0]);
    if |todo| == 1 {
      assert W.Joined(todo[1..]) == [];
    } else {
      JoinedHead(todo[1..]);
      assert todo[1..][0] == todo[1];
    }
  }

  lemma EndTracks(cfg: Config, b: Both)
    requires Tracks(b) && Ready(cfg, b, End)
    ensures Tracks(Next(cfg, b, End).value)
  {
    JoinedAppend(b.ch.wire, []);
    assert (b.ch.wire + [[]])[..|b.ch.wire|] == b.ch.wire;
  }

  lemma DeliverTracks(cfg: Config, b: Both)
    requires Tracks(b) && Ready(cfg, b, Deliver)
    ensures Tracks(Next(cfg, b, Deliver).value)
  {
    var wire := b.ch.wire;
    JoinedHead(wire);
    var n := |wire| - 1;
    assert n > 0 ==> wire[..n][0] == wire[0] && wire[1..][n - 1] == wire[n] && wire[1..][..n - 1] == wire[..n][1..];
  }

  /** A read takes bytes that the counts have in flight, and reports the end exactly where the counts do. */
  lemma PollTracks(cfg: Config, b: Both)
    requires Tracks(b) && Ready(cfg, b, Poll)
    ensures LinkAfter(cfg, b, Poll).Some? && Tracks(Next(cfg, b, Poll).value)
    ensures W.PollUpTo(b.ch.queue, RECEIVE_BUFFER).1.Eof? ==> b.link.fin && b.link.taken == b.link.sent
  {
    assert W.Joined([]) == [];
  }

  lemma {:induction false} EmptyJoin(ms: seq<Bytes>)
    requires W.AllNonEmpty(ms) && |W.Joined(ms)| == 0
    ensures ms == []
  {
    if ms != [] {
      JoinedHead(ms);
    }
  }

  /** Where the byte counts say that the stream has ended, the messages say so too: at
      once, or after the delivery of the one message left, which is the empty one. */
  lemma EndReachesReader(cfg: Config, b: Both)
    requires Tracks(b) && LinkNext(cfg, b.stop, false, b.link, RxEof).Some?
    ensures b.ch.wire == [] || b.ch.wire == [[]]
    ensures b.ch.wire != [] ==> Ready(cfg, b, Deliver)
    ensures var ch := if b.ch.wire == [] then b.ch else ChannelNext(b.ch, Deliver);
            W.PollUpTo(ch.queue, RECEIVE_BUFFER).1.Eof?
  {
    var wire := b.ch.wire;
    if wire != [] {
      var n := |wire| - 1;
      JoinedAppend(wire[..n], []);
      assert wire == wire[..n] + [[]];
      EmptyJoin(wire[..n]);
    }
  }

  /** The messages never do what the byte counts refuse, and the two stay together. */
  lemma StepTracks(cfg: Config, b: Both, e: Step)
    requires ValidConfig(cfg) && Tracks(b) && LinkOk(cfg, b.stop, false, b.link) && Ready(cfg, b, e)
    ensures Next(cfg, b, e).Some? && Tracks(Next(cfg, b, e).value)
  {
    match e
    case StopSenders =>
    case Book(m) =>
    case Start(block) => StartTracks(cfg, b, block);
    case Send => SendTracks(cfg, b);
    case End => EndTracks(cfg, b);
    case Deliver => DeliverTracks(cfg, b);
    case Poll => PollTracks(cfg, b);
  }

  lemma StepKeepsOk(cfg: Config, b: Both, e: Step)
    requires ValidConfig(cfg) && cfg.transport == WebRtc && LinkOk(cfg, b.stop, false, b.link)
    requires Next(cfg, b, e).Some?
    ensures var b1 := Next(cfg, b, e).value; LinkOk(cfg, b1.stop, false, b1.link)
  {
    match e
    case StopSenders =>
    case Book(m) => LinkStepOk(cfg, b.stop, false, b.link, m);
    case Start(_) => LinkStepOk(cfg, b.stop, false, b.link, TxGo);
    case Send => LinkStepOk(cfg, b.stop, false, b.link, TxPush(|b.ch.todo[0]|));
    case End =>
    case Deliver =>
    case Poll =>
      var a := W.PollUpTo(b.ch.queue, RECEIVE_BUFFER).1;
      LinkStepOk(cfg, b.stop, false, b.link, if a.Got? then RxTake(|a.bytes|) else RxEof);
  }

  /** A stream whose tasks are about to start. */
  ghost predicate Starting(b: Both) {
    b == Both(Link(TxInit, RxTop, 0, 0, 0, 0, false, false), Channel([], [], Fresh()), false)
  }

  lemma {:induction false} RunTracks(cfg: Config, b: Both, es: seq<Step>)
    requires ValidConfig(cfg) && cfg.transport == WebRtc && Tracks(b) && LinkOk(cfg, b.stop, false, b.link)
    requires Run(cfg, b, es).Some?
    ensures var b1 := Run(cfg, b, es).value; Tracks(b1) && LinkOk(cfg, b1.stop, false, b1.link)
    decreases |es|
  {
    if es != [] {
      StepTracks(cfg, b, es[0]);
      StepKeepsOk(cfg, b, es[0]);
      RunTracks(cfg, Next(cfg, b, es[0]).value, es[1..]);
    }
  }

  /** In every run of the messages from the start: whatever they allow the byte counts
      allow too; and once the receiver has met the end of the stream, what it received
      is what the sender sent and counted. */
  lemma MessagesAreTheCounts(cfg: Config, b: Both, es: seq<Step>, e: Step)
    requires ValidConfig(cfg) && cfg.transport == WebRtc && Starting(b) && Run(cfg, b, es).Some?
    ensures var b1 := Run(cfg, b, es).value;
            && (Ready(cfg, b1, e) ==> Next(cfg, b1, e).Some?)
            && (b1.link.rx.RxEnded? ==> b1.link.received == b1.link.sent == b1.link.counted)
  {
    assert W.Joined([]) == [];
    RunTracks(cfg, b, es);
    var b1 := Run(cfg, b, es).value;
    if Ready(cfg, b1, e) {
      StepTracks(cfg, b1, e);
    }
  }
}
