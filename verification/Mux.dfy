/** One probe stream of a mux test: a writer that records when it sends, a receiver that
    tallies and echoes, and a reader that matches echoes, all running at once over
    ordered channels and able to fail at any point. */
module Mux {
  import opened Wire

  const DATA_HEADER_LEN := 13
  const MAX_DATA_PAYLOAD := 0x100_0000

  datatype Message = Message(seqno: nat, inWindow: bool, len: nat)

  /** measured: the stream echoes and keeps send times. known: the receiver has a tally for it. */
  datatype Config = Config(measured: bool, known: bool)

  /** Writing(m): m's send time is recorded, its bytes are not yet written.
      Wrote(m): the bytes are out, the counter is not yet raised. */
  datatype Writer = Idle | Writing(m: Message) | Wrote(m: Message) | Ended | Broke(m: Message)

  /** Echoing(s): tallied, echo of s not yet written. Torn(s): that write failed. */
  datatype Receiver = Draining | Echoing(s: nat) | Drained | Stopped | Torn(s: nat)

  /** written and drained are the whole histories of the data channel; samples, of the reader. */
  datatype State = State(
    writer: Writer, seqno: nat, bytesSent: nat, sendTimes: set<nat>,
    wire: seq<Message>, receiver: Receiver, tally: nat, echoes: seq<nat>, reading: bool,
    written: seq<Message>, drained: seq<Message>, recorded: seq<nat>, samples: seq<nat>)

  function Init(): State { State(Idle, 0, 0, {}, [], Draining, 0, [], true, [], [], [], []) }

  datatype Event =
    | Produce(inWindow: bool, len: nat) | Write(ok: bool) | Count | Deadline
    | Drain(ok: bool) | Echo(ok: bool) | EndOfData | ReadEcho | StopReading

  function Size(m: Message): nat { DATA_HEADER_LEN + m.len }

  predicate Probe(cfg: Config, m: Message) { cfg.measured && m.inWindow }

  function WriterNext(cfg: Config, st: State, e: Event): Option<State> {
    match e
    case Produce(inWindow, len) =>
      if st.writer.Idle? then
        var m := Message(st.seqno, inWindow, len);
        if Probe(cfg, m) then
          Some(st.(writer := Writing(m), sendTimes := st.sendTimes + {m.seqno}, recorded := st.recorded + [m.seqno]))
        else Some(st.(writer := Writing(m)))
      else None
    case Write(ok) =>
      if !st.writer.Writing? then None
      else if ok then
        var m := st.writer.m;
        Some(st.(writer := Wrote(m), wire := st.wire + [m], written := st.written + [m]))
      else Some(st.(writer := Broke(st.writer.m)))
    case Count =>
      if st.writer.Wrote? then
        Some(st.(writer := Idle, bytesSent := st.bytesSent + Size(st.writer.m), seqno := st.seqno + 1))
      else None
    case Deadline => if st.writer.Idle? then Some(st.(writer := Ended)) else None
    case _ => None
  }

  function ReceiverNext(cfg: Config, st: State, e: Event): Option<State> {
    match e
    case Drain(ok) =>
      if !st.receiver.Draining? || st.wire == [] then None
      else if !ok || st.wire[0].len > MAX_DATA_PAYLOAD then Some(st.(receiver := Stopped))
      else
        var m := st.wire[0];
        var st1 := st.(wire := st.wire[1..], drained := st.drained + [m]);
        Some(st1.(tally := st.tally + (if m.inWindow && cfg.known then Size(m) else 0),
                  receiver := if Probe(cfg, m) then Echoing(m.seqno) else Draining))
    case Echo(ok) =>
      if !st.receiver.Echoing? then None
      else if ok then Some(st.(echoes := st.echoes + [st.receiver.s], receiver := Draining))
      else Some(st.(receiver := Torn(st.receiver.s)))
    case EndOfData =>
      if st.receiver.Draining? && st.wire == [] && (st.writer.Ended? || st.writer.Broke?) then
        Some(st.(receiver := Drained))
      else None
    case _ => None
  }

  function ReaderNext(st: State, e: Event): Option<State> {
    match e
    case ReadEcho =>
      if !st.reading || st.echoes == [] then None
      else
        var s := st.echoes[0];
        var st1 := st.(echoes := st.echoes[1..]);
        if s in st.sendTimes then Some(st1.(sendTimes := st.sendTimes - {s}, samples := st.samples + [s]))
        else Some(st1)
    case StopReading => if st.reading then Some(st.(reading := false)) else None
    case _ => None
  }

  function Next(cfg: Config, st: State, e: Event): Option<State> {
    match e
    case Drain(_) => ReceiverNext(cfg, st, e)
    case Echo(_) => ReceiverNext(cfg, st, e)
    case EndOfData => ReceiverNext(cfg, st, e)
    case ReadEcho => ReaderNext(st, e)
    case StopReading => ReaderNext(st, e)
    case _ => WriterNext(cfg, st, e)
  }

  function Run(cfg: Config, st: State, es: seq<Event>): Option<State>
    decreases |es|
  {
    if es == [] then Some(st)
    else
      var st1 := Next(cfg, st, es[0]);
      if st1.Some? then Run(cfg, st1.value, es[1..]) else None
  }

  // ----- where every probe is -----

  /** Sequence numbers of the probes among some messages. */
  function Probes(cfg: Config, ms: seq<Message>): seq<nat> {
    if ms == [] then [] else (if Probe(cfg, ms[0]) then [ms[0].seqno] else []) + Probes(cfg, ms[1..])
  }

  function WindowBytes(ms: seq<Message>): nat {
    if ms == [] then 0 else (if ms[0].inWindow then Size(ms[0]) else 0) + WindowBytes(ms[1..])
  }

  function AllBytes(ms: seq<Message>): nat {
    if ms == [] then 0 else Size(ms[0]) + AllBytes(ms[1..])
  }

  /** The probe in the writer's hands, and the one in the receiver's. */
  function AtWriter(cfg: Config, w: Writer): seq<nat> {
    if (w.Writing? || w.Broke?) && Probe(cfg, w.m) then [w.m.seqno] else []
  }

  function AtReceiver(r: Receiver): seq<nat> {
    if r.Echoing? || r.Torn? then [r.s] else []
  }

  /** Probes recorded and not yet sampled, in the order they were sent. */
  function Outstanding(cfg: Config, st: State): seq<nat> {
    st.echoes + AtReceiver(st.receiver) + Probes(cfg, st.wire) + AtWriter(cfg, st.writer)
  }

  ghost predicate Ascending(q: seq<nat>, bound: nat) {
    && (forall i, j :: 0 <= i < j < |q| ==> q[i] < q[j])
    && (forall i :: 0 <= i < |q| ==> q[i] < bound)
  }

  function Elements(q: seq<nat>): set<nat> { set i | 0 <= i < |q| :: q[i] }

  function Bound(st: State): nat { if st.writer.Idle? || st.writer.Ended? then st.seqno else st.seqno + 1 }

  /** Every recorded probe is, exactly once and in order, a sample, an echo, in the
      receiver's hands, on the wire or in the writer's hands. */
  ghost predicate ProbesInv(cfg: Config, st: State) {
    && st.recorded == st.samples + Outstanding(cfg, st)
    && Ascending(st.recorded, Bound(st))
    && st.sendTimes == Elements(Outstanding(cfg, st))
    && (st.writer.Writing? || st.writer.Wrote? || st.writer.Broke? ==> st.writer.m.seqno == st.seqno)
    && (st.writer.Wrote? ==> st.written != [] && st.written[|st.written| - 1] == st.writer.m)
  }

  ghost predicate BytesInv(cfg: Config, st: State) {
    && st.written == st.drained + st.wire
    && st.tally == (if cfg.known then WindowBytes(st.drained) else 0)
    && st.bytesSent + (if st.writer.Wrote? then Size(st.writer.m) else 0) == AllBytes(st.written)
  }

  lemma {:induction false} ProbesAppend(cfg: Config, ms: seq<Message>, m: Message)
    ensures Probes(cfg, ms + [m]) == Probes(cfg, ms) + (if Probe(cfg, m) then [m.seqno] else [])
  {
    if ms == [] {
      assert ms + [m] == [m];
    } else {
      assert (ms + [m])[1..] == ms[1..] + [m];
      ProbesAppend(cfg, ms[1..], m);
    }
  }

  lemma {:induction false} BytesAppend(ms: seq<Message>, m: Message)
    ensures WindowBytes(ms + [m]) == WindowBytes(ms) + (if m.inWindow then Size(m) else 0)
    ensures AllBytes(ms + [m]) == AllBytes(ms) + Size(m)
  {
    if ms == [] {
      assert ms + [m] == [m];
    } else {
      assert (ms + [m])[1..] == ms[1..] + [m];
      BytesAppend(ms[1..], m);
    }
  }

  lemma WriteKeepsBytes(cfg: Config, st: State, ok: bool)
    requires BytesInv(cfg, st) && WriterNext(cfg, st, Write(ok)).Some?
    ensures BytesInv(cfg, WriterNext(cfg, st, Write(ok)).value)
  {
    BytesAppend(st.written, st.writer.m);
    assert (st.drained + st.wire) + [st.writer.m] == st.drained + (st.wire + [st.writer.m]);
  }

  lemma DrainKeepsBytes(cfg: Config, st: State, ok: bool)
    requires BytesInv(cfg, st) && ReceiverNext(cfg, st, Drain(ok)).Some?
    ensures BytesInv(cfg, ReceiverNext(cfg, st, Drain(ok)).value)
  {
    BytesAppend(st.drained, st.wire[0]);
    assert (st.drained + [st.wire[0]]) + st.wire[1..] == st.drained + st.wire;
  }

  lemma BytesKept(cfg: Config, st: State, e: Event)
    requires BytesInv(cfg, st) && Next(cfg, st, e).Some?
    ensures BytesInv(cfg, Next(cfg, st, e).value)
  {
    if e.Write? {
      WriteKeepsBytes(cfg, st, e.ok);
    } else if e.Drain? {
      DrainKeepsBytes(cfg, st, e.ok);
    }
  }

  /** Moves along the line: same probes, same order. */
  ghost predicate SameLine(cfg: Config, st: State, st1: State) {
    && st1.recorded == st.recorded && st1.samples == st.samples && st1.sendTimes == st.sendTimes
    && Outstanding(cfg, st1) == Outstanding(cfg, st)
  }

  lemma LineKeepsProbes(cfg: Config, st: State, st1: State)
    requires ProbesInv(cfg, st) && SameLine(cfg, st, st1) && Bound(st) <= Bound(st1)
    requires st1.writer.Writing? || st1.writer.Wrote? || st1.writer.Broke? ==> st1.writer.m.seqno == st1.seqno
    requires st1.writer.Wrote? ==> st1.written != [] && st1.written[|st1.written| - 1] == st1.writer.m
    ensures ProbesInv(cfg, st1)
  {
  }

  lemma WriteKeeps(cfg: Config, st: State, ok: bool)
    requires ProbesInv(cfg, st) && WriterNext(cfg, st, Write(ok)).Some?
    ensures ProbesInv(cfg, WriterNext(cfg, st, Write(ok)).value)
  {
    var st1 := WriterNext(cfg, st, Write(ok)).value;
    if ok {
      ProbesAppend(cfg, st.wire, st.writer.m);
      assert Outstanding(cfg, st1) == Outstanding(cfg, st);
    }
    LineKeepsProbes(cfg, st, st1);
  }

  lemma DrainKeeps(cfg: Config, st: State, ok: bool)
    requires ProbesInv(cfg, st) && ReceiverNext(cfg, st, Drain(ok)).Some?
    ensures ProbesInv(cfg, ReceiverNext(cfg, st, Drain(ok)).value)
  {
    var st1 := ReceiverNext(cfg, st, Drain(ok)).value;
    assert Outstanding(cfg, st1) == Outstanding(cfg, st);
    LineKeepsProbes(cfg, st, st1);
  }

  lemma EchoKeeps(cfg: Config, st: State, ok: bool)
    requires ProbesInv(cfg, st) && ReceiverNext(cfg, st, Echo(ok)).Some?
    ensures ProbesInv(cfg, ReceiverNext(cfg, st, Echo(ok)).value)
  {
    var st1 := ReceiverNext(cfg, st, Echo(ok)).value;
    assert Outstanding(cfg, st1) == Outstanding(cfg, st);
    LineKeepsProbes(cfg, st, st1);
  }

  lemma ProduceKeeps(cfg: Config, st: State, inWindow: bool, len: nat)
    requires ProbesInv(cfg, st) && WriterNext(cfg, st, Produce(inWindow, len)).Some?
    ensures ProbesInv(cfg, WriterNext(cfg, st, Produce(inWindow, len)).value)
  {
    var st1 := WriterNext(cfg, st, Produce(inWindow, len)).value;
    if Probe(cfg, st1.writer.m) {
      var q := Outstanding(cfg, st);
      var q1 := Outstanding(cfg, st1);
      assert q1 == q + [st.seqno];
      ElementsAppend(q, st.seqno);
      assert st1.recorded == st1.samples + q1;
    } else {
      LineKeepsProbes(cfg, st, st1);
    }
  }

  lemma OutstandingHead(cfg: Config, st: State)
    requires st.echoes != []
    ensures Outstanding(cfg, st) == [st.echoes[0]] + Outstanding(cfg, st.(echoes := st.echoes[1..]))
  {
  }

  /** Every echo that is read matches a recorded probe, so it becomes exactly one sample. */
  lemma EchoAlwaysMatches(cfg: Config, st: State)
    requires ProbesInv(cfg, st) && ReaderNext(st, ReadEcho).Some?
    ensures st.echoes[0] in st.sendTimes
    ensures ProbesInv(cfg, ReaderNext(st, ReadEcho).value)
  {
    var s := st.echoes[0];
    var st1 := ReaderNext(st, ReadEcho).value;
    var q := Outstanding(cfg, st);
    var q1 := Outstanding(cfg, st.(echoes := st.echoes[1..]));
    OutstandingHead(cfg, st);
    assert q[0] == s && s in Elements(q);
    assert Outstanding(cfg, st1) == q1;
    HeadLeaves(st.samples, q1, s, Bound(st));
    assert st.samples + ([s] + q1) == (st.samples + [s]) + q1;
  }

  lemma HeadLeaves(done: seq<nat>, q: seq<nat>, s: nat, bound: nat)
    requires Ascending(done + ([s] + q), bound)
    ensures Elements([s] + q) - {s} == Elements(q)
  {
    var all := done + ([s] + q);
    var n := |done|;
    assert all[n] == s;
    forall i | 0 <= i < |q|
      ensures q[i] != s
    {
      assert all[n + 1 + i] == q[i];
    }
    forall x | x in Elements([s] + q) - {s}
      ensures x in Elements(q)
    {
      var i :| 0 <= i < |[s] + q| && ([s] + q)[i] == x;
      assert q[i - 1] == x;
    }
    forall x | x in Elements(q)
      ensures x in Elements([s] + q) - {s}
    {
      var i :| 0 <= i < |q| && q[i] == x;
      assert ([s] + q)[i + 1] == x;
    }
  }

  lemma NextKeepsProbes(cfg: Config, st: State, e: Event)
    requires ProbesInv(cfg, st) && Next(cfg, st, e).Some?
    ensures ProbesInv(cfg, Next(cfg, st, e).value)
  {
    match e
    case Produce(inWindow, len) => ProduceKeeps(cfg, st, inWindow, len);
    case Write(ok) => WriteKeeps(cfg, st, ok);
    case Drain(ok) => DrainKeeps(cfg, st, ok);
    case Echo(ok) => EchoKeeps(cfg, st, ok);
    case ReadEcho => EchoAlwaysMatches(cfg, st);
    case _ => LineKeepsProbes(cfg, st, Next(cfg, st, e).value);
  }

  lemma {:induction false} RunKeepsInv(cfg: Config, st: State, es: seq<Event>)
    requires ProbesInv(cfg, st) && BytesInv(cfg, st) && Run(cfg, st, es).Some?
    ensures ProbesInv(cfg, Run(cfg, st, es).value) && BytesInv(cfg, Run(cfg, st, es).value)
    decreases |es|
  {
    if es != [] {
      NextKeepsProbes(cfg, st, es[0]);
      BytesKept(cfg, st, es[0]);
      RunKeepsInv(cfg, Next(cfg, st, es[0]).value, es[1..]);
    }
  }

  lemma InitInv(cfg: Config)
    ensures ProbesInv(cfg, Init()) && BytesInv(cfg, Init())
  {
    assert Outstanding(cfg, Init()) == [];
  }

  lemma {:induction false} ElementsCount(q: seq<nat>, bound: nat)
    requires Ascending(q, bound)
    ensures |Elements(q)| == |q|
  {
    if q != [] {
      HeadLeaves([], q[1..], q[0], bound);
      assert q == [q[0]] + q[1..] && [] + ([q[0]] + q[1..]) == q;
      assert Elements(q) - {q[0]} == Elements(q[1..]);
      assert q[0] in Elements(q);
      ElementsCount(q[1..], bound);
    }
  }

  // ----- every interleaving -----

  /** At the end of any run, each in-window message recorded on a measured stream is
      exactly one sample or exactly one timeout: samples and leftover send times are
      disjoint, cover the recorded probes, and add up. */
  lemma EveryProbeAccounted(cfg: Config, es: seq<Event>)
    requires Run(cfg, Init(), es).Some?
    ensures var st := Run(cfg, Init(), es).value;
            && Elements(st.samples) !! st.sendTimes
            && Elements(st.samples) + st.sendTimes == Elements(st.recorded)
            && |st.samples| + |st.sendTimes| == |st.recorded|
  {
    InitInv(cfg);
    RunKeepsInv(cfg, Init(), es);
    var st := Run(cfg, Init(), es).value;
    SplitElements(st.samples, Outstanding(cfg, st), Bound(st));
  }

  lemma SuffixAscends(a: seq<nat>, b: seq<nat>, bound: nat)
    requires Ascending(a + b, bound)
    ensures Ascending(b, bound)
  {
    var all := a + b;
    forall i, j | 0 <= i < j < |b|
      ensures b[i] < b[j]
    {
      assert all[|a| + i] == b[i] && all[|a| + j] == b[j];
    }
    forall i | 0 <= i < |b|
      ensures b[i] < bound
    {
      assert all[|a| + i] == b[i];
    }
  }

  lemma Apart(a: seq<nat>, b: seq<nat>, bound: nat)
    requires Ascending(a + b, bound)
    ensures Elements(a) !! Elements(b)
  {
    var all := a + b;
    forall i, j | 0 <= i < |a| && 0 <= j < |b|
      ensures a[i] != b[j]
    {
      assert all[i] == a[i] && all[|a| + j] == b[j];
    }
  }

  lemma Together(a: seq<nat>, b: seq<nat>)
    ensures Elements(a) + Elements(b) == Elements(a + b)
  {
    var all := a + b;
    forall x | x in Elements(a)
      ensures x in Elements(all)
    {
      var i :| 0 <= i < |a| && a[i] == x;
      assert all[i] == x;
    }
    forall x | x in Elements(b)
      ensures x in Elements(all)
    {
      var i :| 0 <= i < |b| && b[i] == x;
      assert all[|a| + i] == x;
    }
  }

  lemma SplitElements(a: seq<nat>, b: seq<nat>, bound: nat)
    requires Ascending(a + b, bound)
    ensures Elements(a) !! Elements(b) && Elements(a) + Elements(b) == Elements(a + b)
    ensures |b| == |Elements(b)|
  {
    Apart(a, b, bound);
    Together(a, b);
    SuffixAscends(a, b, bound);
    ElementsCount(b, bound);
  }

  lemma NothingOutstanding(cfg: Config, st: State)
    requires ProbesInv(cfg, st) && st.writer.Ended? && st.receiver.Drained? && st.wire == [] && st.echoes == []
    ensures st.sendTimes == {} && st.samples == st.recorded
  {
    assert Outstanding(cfg, st) == [];
    assert st.samples + [] == st.samples;
  }

  /** When nothing failed and everything was read to its end, there are no timeouts at all. */
  lemma CleanRunHasNoTimeouts(cfg: Config, es: seq<Event>)
    requires Run(cfg, Init(), es).Some?
    requires Run(cfg, Init(), es).value.writer.Ended? && Run(cfg, Init(), es).value.receiver.Drained?
    requires Run(cfg, Init(), es).value.wire == [] && Run(cfg, Init(), es).value.echoes == []
    ensures Run(cfg, Init(), es).value.sendTimes == {}
    ensures Run(cfg, Init(), es).value.samples == Run(cfg, Init(), es).value.recorded
  {
    InitInv(cfg);
    RunKeepsInv(cfg, Init(), es);
    NothingOutstanding(cfg, Run(cfg, Init(), es).value);
  }

  /** Bytes of the messages sent outside the measured window. */
  function OutsideBytes(ms: seq<Message>): nat {
    if ms == [] then 0 else (if ms[0].inWindow then 0 else Size(ms[0])) + OutsideBytes(ms[1..])
  }

  lemma {:induction false} WindowAndOutside(a: seq<Message>, b: seq<Message>)
    ensures WindowBytes(a) + OutsideBytes(a) + AllBytes(b) == AllBytes(a + b)
  {
    if a == [] {
      assert a + b == b;
    } else {
      assert (a + b)[1..] == a[1..] + b;
      WindowAndOutside(a[1..], b);
    }
  }

  /** The reader has drained the very message whose sending is not yet counted, and its
      size is more than all bytes sent outside the window. */
  predicate Ahead(st: State) {
    st.writer.Wrote? && st.wire == [] && st.writer.m.inWindow && OutsideBytes(st.drained) < Size(st.writer.m)
  }

  lemma {:induction false} LastWithinAll(ms: seq<Message>)
    requires ms != []
    ensures Size(ms[|ms| - 1]) <= AllBytes(ms)
  {
    if |ms| > 1 {
      LastWithinAll(ms[1..]);
    }
  }

  lemma {:induction false} LastOutside(ms: seq<Message>)
    requires ms != [] && !ms[|ms| - 1].inWindow
    ensures Size(ms[|ms| - 1]) <= OutsideBytes(ms)
  {
    if |ms| > 1 {
      LastOutside(ms[1..]);
    }
  }

  /** Leaving the last message out of the bytes sent matters exactly when it has been drained. */
  lemma WithoutLast(drained: seq<Message>, wire: seq<Message>, m: Message)
    requires drained + wire != [] && (drained + wire)[|drained| + |wire| - 1] == m
    ensures WindowBytes(drained) + Size(m) <= AllBytes(drained + wire) <==>
              !(wire == [] && m.inWindow && OutsideBytes(drained) < Size(m))
  {
    WindowAndOutside(drained, wire);
    if wire != [] {
      LastWithinAll(wire);
    } else if !m.inWindow {
      LastOutside(drained);
    }
  }

  /** The received tally is the size of the in-window messages drained; it is more than
      the bytes counted as sent exactly while the reader is ahead of the writer's count. */
  lemma TallyWithinSentExactlyWhen(cfg: Config, es: seq<Event>)
    requires Run(cfg, Init(), es).Some? && cfg.known
    ensures var st := Run(cfg, Init(), es).value;
            && st.written == st.drained + st.wire
            && st.tally == WindowBytes(st.drained)
            && (st.tally <= st.bytesSent <==> !Ahead(st))
  {
    ReachableBytes(cfg, es);
    TallyAgainstSent(cfg, Run(cfg, Init(), es).value);
  }

  lemma ReachableBytes(cfg: Config, es: seq<Event>)
    requires Run(cfg, Init(), es).Some?
    ensures var st := Run(cfg, Init(), es).value;
            BytesInv(cfg, st)
            && (st.writer.Wrote? ==> st.written != [] && st.written[|st.written| - 1] == st.writer.m)
  {
    InitInv(cfg);
    RunKeepsInv(cfg, Init(), es);
  }

  lemma TallyAgainstSent(cfg: Config, st: State)
    requires BytesInv(cfg, st) && cfg.known
    requires st.writer.Wrote? ==> st.written != [] && st.written[|st.written| - 1] == st.writer.m
    ensures st.tally <= st.bytesSent <==> !Ahead(st)
  {
    WindowAndOutside(st.drained, st.wire);
    if st.writer.Wrote? {
      WithoutLast(st.drained, st.wire, st.writer.m);
    }
  }

  /** It happens: one message is produced, written and drained before it is counted. */
  lemma TallyCanLead(cfg: Config, len: nat)
    requires cfg.known && len <= MAX_DATA_PAYLOAD
    ensures var run := Run(cfg, Init(), [Produce(true, len), Write(true), Drain(true)]);
            run.Some? && run.value.tally == DATA_HEADER_LEN + len && run.value.bytesSent == 0
  {
    var m := Message(0, true, len);
    var st1 := Next(cfg, Init(), Produce(true, len)).value;
    var st2 := Next(cfg, st1, Write(true)).value;
    assert st2.wire == [m];
    var st3 := Next(cfg, st2, Drain(true)).value;
    RunFrom(cfg, st2, Drain(true), []);
    RunFrom(cfg, st1, Write(true), [Drain(true)]);
    RunFrom(cfg, Init(), Produce(true, len), [Write(true), Drain(true)]);
    assert [Drain(true)] + [] == [Drain(true)];
    assert [Write(true)] + [Drain(true)] == [Write(true), Drain(true)];
    assert [Produce(true, len)] + [Write(true), Drain(true)] == [Produce(true, len), Write(true), Drain(true)];
  }

  lemma RunFrom(cfg: Config, st: State, e: Event, es: seq<Event>)
    requires Next(cfg, st, e).Some?
    ensures Run(cfg, st, [e] + es) == Run(cfg, Next(cfg, st, e).value, es)
  {
    assert ([e] + es)[1..] == es;
  }

  /** What the program reports, after the writer has been joined, whether it ended or
      broke: every byte written is counted, the tally is the in-window part of what was
      drained and at most the bytes sent, and samples plus timeouts are the probes. */
  lemma FinalAccounting(cfg: Config, es: seq<Event>)
    requires Run(cfg, Init(), es).Some? && cfg.known
    requires Run(cfg, Init(), es).value.writer.Ended? || Run(cfg, Init(), es).value.writer.Broke?
    ensures var st := Run(cfg, Init(), es).value;
            && st.bytesSent == AllBytes(st.written)
            && st.tally == WindowBytes(st.drained) <= st.bytesSent
            && st.bytesSent - st.tally == OutsideBytes(st.drained) + AllBytes(st.wire)
            && |st.samples| + |st.sendTimes| == |st.recorded|
  {
    InitInv(cfg);
    RunKeepsInv(cfg, Init(), es);
    var st := Run(cfg, Init(), es).value;
    WindowAndOutside(st.drained, st.wire);
    EveryProbeAccounted(cfg, es);
  }

  // ----- the loops -----

  /** The receiver's loop over a stream's messages: it stops at a payload over the cap. */
  method DrainStream(cfg: Config, messages: seq<Message>) returns (ok: bool, drained: nat, tally: nat, echoes: seq<nat>)
    ensures drained <= |messages|
    ensures forall i :: 0 <= i < drained ==> messages[i].len <= MAX_DATA_PAYLOAD
    ensures if ok then drained == |messages| else drained < |messages| && messages[drained].len > MAX_DATA_PAYLOAD
    ensures tally == if cfg.known then WindowBytes(messages[..drained]) else 0
    ensures echoes == Probes(cfg, messages[..drained])
  {
    ok, drained, tally, echoes := true, 0, 0, [];
    while drained < |messages|
      invariant drained <= |messages|
      invariant forall i :: 0 <= i < drained ==> messages[i].len <= MAX_DATA_PAYLOAD
      invariant tally == if cfg.known then WindowBytes(messages[..drained]) else 0
      invariant echoes == Probes(cfg, messages[..drained])
    {
      var m := messages[drained];
      if m.len > MAX_DATA_PAYLOAD {
        ok := false;
        return;
      }
      assert messages[..drained + 1] == messages[..drained] + [m];
      BytesAppend(messages[..drained], m);
      ProbesAppend(cfg, messages[..drained], m);
      if m.inWindow {
        if cfg.known {
          tally := tally + DATA_HEADER_LEN + m.len;
        }
        if cfg.measured {
          echoes := echoes + [m.seqno];
        }
      }
      drained := drained + 1;
    }
  }

  /** The reader's loop: each echo that still has a send time becomes a sample. */
  method ReadEchoes(echoes: seq<nat>, sent: set<nat>) returns (samples: seq<nat>, leftover: set<nat>)
    ensures Elements(samples) == sent * Elements(echoes) && leftover == sent - Elements(echoes)
    ensures forall i, j :: 0 <= i < j < |samples| ==> samples[i] != samples[j]
  {
    samples, leftover := [], sent;
    for i := 0 to |echoes|
      invariant Elements(samples) == sent * Elements(echoes[..i]) && leftover == sent - Elements(echoes[..i])
      invariant forall i, j :: 0 <= i < j < |samples| ==> samples[i] != samples[j]
    {
      var s := echoes[i];
      ElementsAppend(echoes[..i], s);
      assert echoes[..i + 1] == echoes[..i] + [s];
      if s in leftover {
        ElementsAppend(samples, s);
        leftover := leftover - {s};
        assert s !in Elements(samples);
        samples := samples + [s];
      }
    }
    assert echoes[..|echoes|] == echoes;
  }

  lemma ElementsAppend(q: seq<nat>, s: nat)
    ensures Elements(q + [s]) == Elements(q) + {s}
  {
    forall x | x in Elements(q)
      ensures x in Elements(q + [s])
    {
      var i :| 0 <= i < |q| && q[i] == x;
      assert (q + [s])[i] == x;
    }
    assert (q + [s])[|q|] == s;
  }
}
