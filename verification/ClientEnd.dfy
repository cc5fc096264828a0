/** How each client decides that a test is over, against any peer: what it may write
    and report whatever state bytes arrive and whenever its timers fire. */
module RustClient {
  import opened Wire

  datatype Outcome = Looping | Finished | Failed

  /** ended: the end time is set. endSets, testEnds, lateEnds count what the session did:
      end times set, TEST_END bytes written or tried, and those after EXCHANGE_RESULTS. */
  datatype Session = Session(
    running: bool, armed: bool, ended: bool, remote: bool, exchanged: bool,
    endSets: nat, testEnds: nat, lateEnds: nat, outcome: Outcome)

  function Init(): Session { Session(false, false, false, false, false, 0, 0, 0, Looping) }

  /** `ok` says whether the I/O that handling the event needs succeeds; `acked` whether
      the terminal acknowledgement, where the transport has one, matches. */
  datatype Event = Timer(ok: bool) | Tick | State(b: int, ok: bool, acked: bool) | ReadFailed

  function Fail(s: Session, ok: bool): Session { if ok then s else s.(outcome := Failed) }

  /** The duration timer's arm and its guard. */
  function OnTimer(s: Session, ok: bool): Session {
    if s.armed && s.running && !s.ended then
      Fail(s.(ended := true, endSets := s.endSets + 1, running := false,
              testEnds := s.testEnds + 1, lateEnds := s.lateEnds + if s.exchanged then 1 else 0), ok)
    else s
  }

  function Exchange(s: Session, ok: bool): Session {
    var s0 := if s.ended then s else s.(ended := true, endSets := s.endSets + 1, running := false);
    var s1 := s0.(exchanged := true);
    if ok then s1.(remote := true) else s1.(outcome := Failed)
  }

  function OnState(s: Session, b: int, ok: bool, acked: bool): Session {
    if b == IPERF_START || b == TEST_START then s
    else if b == PARAM_EXCHANGE || b == CREATE_STREAMS then Fail(s, ok)
    else if b == TEST_RUNNING then s.(running := true, armed := true)
    else if b == EXCHANGE_RESULTS then Exchange(s, ok)
    else if b == DISPLAY_RESULTS then s.(outcome := if ok && acked && s.remote then Finished else Failed)
    else s.(outcome := Failed)
  }

  function Next(s: Session, e: Event): Session {
    if !s.outcome.Looping? then s
    else
      match e
      case Timer(ok) => OnTimer(s, ok)
      case Tick => s
      case State(b, ok, acked) => OnState(s, b, ok, acked)
      case ReadFailed => s.(outcome := Failed)
  }

  function Run(s: Session, es: seq<Event>): Session
    decreases |es|
  {
    if es == [] then s else Run(Next(s, es[0]), es[1..])
  }

  ghost predicate Inv(s: Session) {
    && s.endSets == (if s.ended then 1 else 0)
    && s.testEnds <= s.endSets && s.lateEnds == 0
    && (s.exchanged ==> s.ended)
    && (s.remote ==> s.exchanged)
    && (s.outcome.Finished? ==> s.remote)
  }

  /** Against any bytes and any timing: one end time, one TEST_END, none after the result
      exchange began, and success only after the peer's results were decoded. */
  lemma {:induction false} EndsOnce(s: Session, es: seq<Event>)
    requires Inv(s)
    ensures Inv(Run(s, es))
    decreases |es|
  {
    if es != [] {
      EndsOnce(Next(s, es[0]), es[1..]);
    }
  }

  /** An exchange that was decoded is in the history of every success. */
  lemma {:induction false} SuccessNeedsExchange(s: Session, es: seq<Event>)
    requires Inv(s) && !s.remote && s.outcome.Looping? && Run(s, es).outcome.Finished?
    ensures exists i :: 0 <= i < |es| && es[i].State? && es[i].b == EXCHANGE_RESULTS && es[i].ok
    decreases |es|
  {
    var s1 := Next(s, es[0]);
    if !(es[0].State? && es[0].b == EXCHANGE_RESULTS && es[0].ok) {
      EndsOnce(s1, es[1..]);
      Stopped(s1, es[1..]);
      SuccessNeedsExchange(s1, es[1..]);
      var i :| 0 <= i < |es[1..]| && es[1..][i].State? && es[1..][i].b == EXCHANGE_RESULTS && es[1..][i].ok;
      assert es[i + 1] == es[1..][i];
    }
  }

  lemma {:induction false} Stopped(s: Session, es: seq<Event>)
    ensures !s.outcome.Looping? ==> Run(s, es) == s
    decreases |es|
  {
    if es != [] {
      Stopped(Next(s, es[0]), es[1..]);
    }
  }

  /** The session object and its select loop; `events` is what the loop meets, in order. */
  class ClientSession {
    var running: bool
    var armed: bool
    var ended: bool
    var remote: bool
    var exchanged: bool
    var endSets: nat
    var testEnds: nat
    var lateEnds: nat

    function State(outcome: Outcome): Session
      reads this
    {
      Session(running, armed, ended, remote, exchanged, endSets, testEnds, lateEnds, outcome)
    }

    constructor ()
      ensures State(Looping) == Init()
    {
      running, armed, ended, remote, exchanged := false, false, false, false, false;
      endSets, testEnds, lateEnds := 0, 0, 0;
    }

    method RunLoop(events: seq<Event>) returns (outcome: Outcome)
      modifies this
      ensures State(outcome) == Run(old(State(Looping)), events)
      ensures old(Inv(State(Looping))) ==> testEnds <= 1 && lateEnds == 0 && (outcome.Finished? ==> remote)
    {
      ghost var start := State(Looping);
      var i := 0;
      outcome := Looping;
      while i < |events| && outcome == Looping
        invariant 0 <= i <= |events|
        invariant Run(State(outcome), events[i..]) == Run(start, events)
        decreases |events| - i
      {
        ghost var before := State(outcome);
        match events[i] {
          case Timer(ok) =>
            outcome := TimerFired(ok);
          case Tick =>
          case State(b, ok, acked) =>
            outcome := Dispatch(b, ok, acked);
          case ReadFailed =>
            outcome := Failed;
        }
        assert State(outcome) == Next(before, events[i]);
        assert events[i..][1..] == events[i + 1..];
        i := i + 1;
      }
      Stopped(State(outcome), events[i..]);
      if Inv(start) {
        EndsOnce(start, events);
      }
    }

    /** The duration timer's arm. */
    method TimerFired(ok: bool) returns (outcome: Outcome)
      modifies this
      ensures State(outcome) == OnTimer(old(State(Looping)), ok)
    {
      if !(armed && running && !ended) {
        return Looping;
      }
      ended := true;
      endSets := endSets + 1;
      running := false;
      testEnds := testEnds + 1;
      if exchanged {
        lateEnds := lateEnds + 1;
      }
      return if ok then Looping else Failed;
    }

    method Dispatch(b: int, ok: bool, acked: bool) returns (outcome: Outcome)
      modifies this
      ensures State(outcome) == OnState(old(State(Looping)), b, ok, acked)
    {
      if b == IPERF_START || b == TEST_START {
        return Looping;
      }
      if b == PARAM_EXCHANGE || b == CREATE_STREAMS {
        return if ok then Looping else Failed;
      }
      if b == TEST_RUNNING {
        running := true;
        armed := true;
        return Looping;
      }
      if b == EXCHANGE_RESULTS {
        if !ended {
          ended := true;
          endSets := endSets + 1;
          running := false;
        }
        exchanged := true;
        if !ok {
          return Failed;
        }
        remote := true;
        return Looping;
      }
      if b == DISPLAY_RESULTS && ok && acked && remote {
        return Finished;
      }
      return Failed;
    }
  }
}

/** The TypeScript client: three triggers compete to end the test (the end timer, the
    reverse receive path, an early EXCHANGE_RESULTS), and timers outlive the field that names them. */
module TsClient {
  import opened Wire

  datatype Outcome = Looping | Finished | Failed

  /** handle: the timer that the field names. pending: timers that may still fire.
      timers: how many were ever set. exchanging: suspended inside the result exchange. */
  datatype Session = Session(
    running: bool, ended: bool, handle: Option<nat>, pending: set<nat>, timers: nat,
    exchanged: bool, exchanging: bool, remote: bool,
    endSets: nat, testEnds: nat, lateEnds: nat, outcome: Outcome)

  function Init(): Session { Session(false, false, None, {}, 0, false, false, false, 0, 0, 0, Looping) }

  /** ReverseBytes(late): data arrived, past the deadline or not. Exchanged(ok): the
      suspended exchange resumes, with decoded results or an error. */
  datatype Event = State(b: int, ok: bool) | Exchanged(ok: bool) | Timer(t: nat) | ReverseBytes(late: bool) | ReadFailed

  function ClearTimer(s: Session): Session {
    if s.handle.Some? then s.(pending := s.pending - {s.handle.value}, handle := None) else s
  }

  /** Every installed end action does the same. */
  function EndTest(s: Session): Session {
    if !s.running then s
    else
      ClearTimer(s).(running := false, ended := true, endSets := s.endSets + 1,
                     testEnds := s.testEnds + 1, lateEnds := s.lateEnds + if s.exchanged then 1 else 0)
  }

  /** The final clean-up forgets only the timer that the field names. */
  function Leave(s: Session, outcome: Outcome): Session {
    ClearTimer(s).(running := false, exchanging := false, outcome := outcome)
  }

  function OnState(s: Session, b: int, ok: bool): Session {
    if b == IPERF_START || b == TEST_START then s
    else if b == PARAM_EXCHANGE || b == CREATE_STREAMS then if ok then s else Leave(s, Failed)
    else if b == TEST_RUNNING then
      s.(running := true, handle := Some(s.timers), pending := s.pending + {s.timers}, timers := s.timers + 1)
    else if b == EXCHANGE_RESULTS then
      var s1 := if s.ended then s else ClearTimer(s).(ended := true, endSets := s.endSets + 1, running := false);
      if ok then s1.(exchanged := true, exchanging := true) else Leave(s1.(exchanged := true), Failed)
    else if b == DISPLAY_RESULTS then Leave(s, if ok && s.remote then Finished else Failed)
    else Leave(s, Failed)
  }

  function Next(s: Session, e: Event): Session {
    match e
    case State(b, ok) => if s.outcome.Looping? && !s.exchanging then OnState(s, b, ok) else s
    case Exchanged(ok) =>
      if !s.exchanging then s
      else if ok then s.(exchanging := false, remote := true)
      else Leave(s, Failed)
    case Timer(t) => if t in s.pending then EndTest(s.(pending := s.pending - {t})) else s
    case ReverseBytes(late) => if s.running && late then EndTest(s) else s
    case ReadFailed => if s.outcome.Looping? && !s.exchanging then Leave(s, Failed) else s
  }

  function Run(s: Session, es: seq<Event>): Session
    decreases |es|
  {
    if es == [] then s else Run(Next(s, es[0]), es[1..])
  }

  /** The end-of-test promises. */
  predicate Good(s: Session) { s.endSets <= 1 && s.testEnds <= 1 && s.lateEnds == 0 }

  /** The peer sends TEST_RUNNING at most once, and not after EXCHANGE_RESULTS, as long as the client listens. */
  predicate Disciplined(bs: seq<int>, started: bool, exchanged: bool)
    decreases |bs|
  {
    if bs == [] || Terminal(bs[0]) then true
    else if bs[0] == TEST_RUNNING then !started && !exchanged && Disciplined(bs[1..], true, exchanged)
    else Disciplined(bs[1..], started, exchanged || bs[0] == EXCHANGE_RESULTS)
  }

  predicate Terminal(b: int) {
    !(b == IPERF_START || b == TEST_START || b == PARAM_EXCHANGE || b == CREATE_STREAMS
      || b == TEST_RUNNING || b == EXCHANGE_RESULTS)
  }

  /** The bytes of a schedule, in order. */
  function BytesOf(es: seq<Event>): seq<int> {
    if es == [] then [] else (if es[0].State? then [es[0].b] else []) + BytesOf(es[1..])
  }

  /** A byte is only handed over when the client is listening for one. */
  predicate Heard(s: Session, es: seq<Event>)
    decreases |es|
  {
    es != [] ==> (es[0].State? ==> s.outcome.Looping? && !s.exchanging) && Heard(Next(s, es[0]), es[1..])
  }

  // ----- a disciplined peer gets the promises on every schedule -----

  ghost predicate Inv(s: Session, started: bool, exchanged: bool) {
    && s.endSets == (if s.ended then 1 else 0)
    && s.testEnds <= s.endSets && s.lateEnds == 0
    && s.exchanged == exchanged
    && (s.running ==> started && !s.ended && s.outcome.Looping?)
    && (exchanged ==> s.ended)
    && (s.ended && !exchanged ==> started)
    && (s.remote || s.exchanging ==> exchanged)
    && (s.outcome.Finished? ==> s.remote)
  }

  lemma StateKeepsInv(s: Session, b: int, ok: bool, started: bool, exchanged: bool)
    requires Inv(s, started, exchanged) && s.outcome.Looping?
    requires b == TEST_RUNNING ==> !started && !exchanged
    ensures Inv(OnState(s, b, ok), started || b == TEST_RUNNING, exchanged || b == EXCHANGE_RESULTS)
    ensures Terminal(b) ==> !OnState(s, b, ok).outcome.Looping?
  {
  }

  lemma ExchangeKeepsInv(s: Session, ok: bool, started: bool)
    ensures Inv(s, started, s.exchanged) && s.outcome.Looping? ==>
              Inv(OnState(s, EXCHANGE_RESULTS, ok), started, true) && OnState(s, EXCHANGE_RESULTS, ok).endSets == 1
    ensures OnState(s, EXCHANGE_RESULTS, ok).exchanged
  {
    if Inv(s, started, s.exchanged) && s.outcome.Looping? {
      StateKeepsInv(s, EXCHANGE_RESULTS, ok, started, s.exchanged);
    }
  }

  lemma OtherKeepsInv(s: Session, e: Event, started: bool, exchanged: bool)
    requires Inv(s, started, exchanged) && !e.State?
    ensures Inv(Next(s, e), started, exchanged)
  {
  }

  lemma {:induction false} DisciplinedPeerIsSafe(s: Session, es: seq<Event>, started: bool, exchanged: bool)
    requires Inv(s, started, exchanged) && Heard(s, es)
    requires s.outcome.Looping? ==> Disciplined(BytesOf(es), started, exchanged)
    ensures Good(Run(s, es)) && (Run(s, es).outcome.Finished? ==> Run(s, es).remote)
    decreases |es|
  {
    if es != [] {
      var e := es[0];
      if e.State? {
        assert BytesOf(es) == [e.b] + BytesOf(es[1..]);
        StateKeepsInv(s, e.b, e.ok, started, exchanged);
        DisciplinedPeerIsSafe(
          Next(s, e), es[1..], started || e.b == TEST_RUNNING, exchanged || e.b == EXCHANGE_RESULTS);
      } else {
        OtherKeepsInv(s, e, started, exchanged);
        LoopingWas(s, e);
        assert BytesOf(es) == BytesOf(es[1..]);
        DisciplinedPeerIsSafe(Next(s, e), es[1..], started, exchanged);
      }
    }
  }

  lemma LoopingWas(s: Session, e: Event)
    ensures Next(s, e).outcome.Looping? ==> s.outcome.Looping?
  {
  }

  // ----- any other peer can break them -----

  /** The schedule that breaks them: every timer fires before the next byte. */
  function Eager(bs: seq<int>, timers: nat): seq<Event>
    decreases |bs|
  {
    if bs == [] || Terminal(bs[0]) then []
    else if bs[0] == TEST_RUNNING then [State(bs[0], true), Timer(timers)] + Eager(bs[1..], timers + 1)
    else if bs[0] == EXCHANGE_RESULTS then [State(bs[0], true), Exchanged(true)] + Eager(bs[1..], timers)
    else [State(bs[0], true)] + Eager(bs[1..], timers)
  }

  /** The session between two groups of the eager schedule. */
  ghost predicate Between(s: Session, started: bool, exchanged: bool) {
    && !s.running && !s.exchanging && s.outcome.Looping?
    && s.exchanged == exchanged
    && (started ==> s.testEnds >= 1)
  }

  lemma RunTwo(s: Session, e: Event, f: Event, es: seq<Event>)
    ensures Run(s, [e, f] + es) == Run(Next(Next(s, e), f), es)
    ensures Heard(s, [e, f] + es) <==> (e.State? ==> s.outcome.Looping? && !s.exchanging) && Heard(Next(s, e), [f] + es)
    ensures Heard(Next(s, e), [f] + es) <==>
              (f.State? ==> Next(s, e).outcome.Looping? && !Next(s, e).exchanging) && Heard(Next(Next(s, e), f), es)
  {
    assert ([e, f] + es)[1..] == [f] + es;
    assert ([f] + es)[1..] == es;
  }

  lemma LeaveCounts(s: Session, outcome: Outcome)
    ensures Leave(s, outcome).testEnds == s.testEnds && Leave(s, outcome).lateEnds == s.lateEnds
    ensures ClearTimer(s).testEnds == s.testEnds && ClearTimer(s).lateEnds == s.lateEnds
  {
  }

  lemma StateCounts(s: Session, b: int, ok: bool)
    ensures OnState(s, b, ok).testEnds == s.testEnds && OnState(s, b, ok).lateEnds == s.lateEnds
  {
    LeaveCounts(s, Failed);
    if b == EXCHANGE_RESULTS {
      var s1 := if s.ended then s else ClearTimer(s).(ended := true, endSets := s.endSets + 1, running := false);
      LeaveCounts(s1.(exchanged := true), Failed);
    } else if b == DISPLAY_RESULTS {
      LeaveCounts(s, if ok && s.remote then Finished else Failed);
    }
  }

  lemma CountsGrow(s: Session, e: Event)
    ensures Next(s, e).testEnds >= s.testEnds && Next(s, e).lateEnds >= s.lateEnds
  {
    if e.State? {
      StateCounts(s, e.b, e.ok);
    }
  }

  lemma {:induction false} CountsOnlyGrow(s: Session, es: seq<Event>)
    ensures Run(s, es).testEnds >= s.testEnds && Run(s, es).lateEnds >= s.lateEnds
    decreases |es|
  {
    if es != [] {
      CountsGrow(s, es[0]);
      CountsOnlyGrow(Next(s, es[0]), es[1..]);
    }
  }

  /** The listened-to part of the bytes. */
  function Listened(bs: seq<int>): seq<int> {
    if bs == [] || Terminal(bs[0]) then [] else [bs[0]] + Listened(bs[1..])
  }

  lemma RunningGroup(s: Session, started: bool, exchanged: bool)
    requires Between(s, started, exchanged)
    ensures var s2 := Next(Next(s, State(TEST_RUNNING, true)), Timer(s.timers));
            && Between(s2, true, exchanged) && s2.timers == s.timers + 1
            && s2.testEnds == s.testEnds + 1
            && (exchanged ==> s2.lateEnds == s.lateEnds + 1)
  {
    var s1 := Next(s, State(TEST_RUNNING, true));
    assert s1.running && s.timers in s1.pending;
  }

  lemma ExchangeGroup(s: Session, started: bool, exchanged: bool)
    requires Between(s, started, exchanged)
    ensures var s2 := Next(Next(s, State(EXCHANGE_RESULTS, true)), Exchanged(true));
            Between(s2, started, true) && s2.timers == s.timers
  {
    var s1 := Next(s, State(EXCHANGE_RESULTS, true));
    assert s1.exchanging && !s1.running;
  }

  lemma {:induction false} EagerBreaks(s: Session, bs: seq<int>, started: bool, exchanged: bool)
    requires Between(s, started, exchanged) && !Disciplined(bs, started, exchanged)
    ensures Heard(s, Eager(bs, s.timers)) && BytesOf(Eager(bs, s.timers)) == Listened(bs)
    ensures !Good(Run(s, Eager(bs, s.timers)))
    decreases |bs|
  {
    EagerShape(s, bs, started, exchanged);
    var b := bs[0];
    if b == TEST_RUNNING {
      var rest := Eager(bs[1..], s.timers + 1);
      RunTwo(s, State(b, true), Timer(s.timers), rest);
      RunningGroup(s, started, exchanged);
      var s2 := Next(Next(s, State(b, true)), Timer(s.timers));
      if started || exchanged {
        CountsOnlyGrow(s2, rest);
      } else {
        EagerBreaks(s2, bs[1..], true, exchanged);
      }
    } else if b == EXCHANGE_RESULTS {
      RunTwo(s, State(b, true), Exchanged(true), Eager(bs[1..], s.timers));
      ExchangeGroup(s, started, exchanged);
      EagerBreaks(Next(Next(s, State(b, true)), Exchanged(true)), bs[1..], started, true);
    } else {
      assert ([State(b, true)] + Eager(bs[1..], s.timers))[1..] == Eager(bs[1..], s.timers);
      EagerBreaks(s, bs[1..], started, exchanged);
    }
  }

  /** The eager schedule hands over exactly the listened-to bytes, each when the client listens. */
  lemma {:induction false} EagerShape(s: Session, bs: seq<int>, started: bool, exchanged: bool)
    requires Between(s, started, exchanged)
    ensures Heard(s, Eager(bs, s.timers)) && BytesOf(Eager(bs, s.timers)) == Listened(bs)
    decreases |bs|
  {
    if bs != [] && !Terminal(bs[0]) {
      var b := bs[0];
      if b == TEST_RUNNING {
        var rest := Eager(bs[1..], s.timers + 1);
        RunTwo(s, State(b, true), Timer(s.timers), rest);
        RunningGroup(s, started, exchanged);
        EagerShape(Next(Next(s, State(b, true)), Timer(s.timers)), bs[1..], true, exchanged);
        BytesOfTwo(b, Timer(s.timers), rest);
      } else if b == EXCHANGE_RESULTS {
        var rest := Eager(bs[1..], s.timers);
        RunTwo(s, State(b, true), Exchanged(true), rest);
        ExchangeGroup(s, started, exchanged);
        EagerShape(Next(Next(s, State(b, true)), Exchanged(true)), bs[1..], started, true);
        BytesOfTwo(b, Exchanged(true), rest);
      } else {
        var rest := Eager(bs[1..], s.timers);
        assert ([State(b, true)] + rest)[1..] == rest;
        EagerShape(s, bs[1..], started, exchanged);
      }
    }
  }

  lemma BytesOfTwo(b: int, f: Event, es: seq<Event>)
    requires !f.State?
    ensures BytesOf([State(b, true), f] + es) == [b] + BytesOf(es)
  {
    assert ([State(b, true), f] + es)[1..] == [f] + es;
    assert ([f] + es)[1..] == es;
  }

  /** Every schedule in which the client hears exactly these bytes keeps the promises. */
  ghost predicate SafeOnEverySchedule(bs: seq<int>) {
    forall es :: Heard(Init(), es) && BytesOf(es) == Listened(bs) ==> Good(Run(Init(), es))
  }

  lemma {:induction false} ListenedDisciplined(bs: seq<int>, started: bool, exchanged: bool)
    ensures Disciplined(Listened(bs), started, exchanged) == Disciplined(bs, started, exchanged)
    decreases |bs|
  {
    if bs != [] && !Terminal(bs[0]) {
      assert Listened(bs)[1..] == Listened(bs[1..]);
      ListenedDisciplined(bs[1..], started || bs[0] == TEST_RUNNING, exchanged || bs[0] == EXCHANGE_RESULTS);
    }
  }

  /** The client ends its test once, and not after the result exchange, on every schedule
      exactly when the peer sends TEST_RUNNING at most once and never after EXCHANGE_RESULTS. */
  lemma EndsOnceExactlyWhen(bs: seq<int>)
    ensures SafeOnEverySchedule(bs) <==> Disciplined(bs, false, false)
  {
    if Disciplined(bs, false, false) {
      ListenedDisciplined(bs, false, false);
      forall es | Heard(Init(), es) && BytesOf(es) == Listened(bs)
        ensures Good(Run(Init(), es))
      {
        DisciplinedPeerIsSafe(Init(), es, false, false);
      }
    } else {
      EagerBreaks(Init(), bs, false, false);
    }
  }

  // ----- the session object -----

  /** started: a TEST_RUNNING has been handled. */
  class ClientSession {
    ghost var started: bool
    var running: bool
    var ended: bool
    var endTimer: Option<nat>
    var pending: set<nat>
    var timers: nat
    var exchanged: bool
    var exchanging: bool
    var remote: bool
    var endSets: nat
    var testEnds: nat
    var lateEnds: nat
    var outcome: Outcome

    function Snapshot(): Session
      reads this
    {
      Session(running, ended, endTimer, pending, timers, exchanged, exchanging, remote,
              endSets, testEnds, lateEnds, outcome)
    }

    /** What holds as long as the peer keeps to one TEST_RUNNING before EXCHANGE_RESULTS. */
    ghost predicate Valid()
      reads this
    {
      Inv(Snapshot(), started, exchanged)
    }

    lemma ValidIsGood()
      requires Valid()
      ensures endSets <= 1 && testEnds <= 1 && lateEnds == 0 && (outcome.Finished? ==> remote)
    {
    }

    constructor ()
      ensures Snapshot() == Init() && !started && Valid()
    {
      started := false;
      running, ended, endTimer, pending, timers := false, false, None, {}, 0;
      exchanged, exchanging, remote := false, false, false;
      endSets, testEnds, lateEnds, outcome := 0, 0, 0, Looping;
    }

    method Disarm()
      modifies this`endTimer, this`pending
      ensures Snapshot() == ClearTimer(old(Snapshot()))
    {
      if endTimer.Some? {
        pending := pending - {endTimer.value};
        endTimer := None;
      }
    }

    method StartRunning()
      modifies this
      ensures Snapshot() == OnState(old(Snapshot()), TEST_RUNNING, true) && started
      ensures old(Valid()) && old(outcome).Looping? && !old(started) && !old(exchanged) ==> Valid()
    {
      started := true;
      running := true;
      endTimer := Some(timers);
      pending := pending + {timers};
      timers := timers + 1;
    }

    method EndNow()
      modifies this
      ensures Snapshot() == EndTest(old(Snapshot())) && started == old(started)
      ensures old(Valid()) ==> Valid() && testEnds <= 1
    {
      if !running {
        return;
      }
      running := false;
      ended := true;
      endSets := endSets + 1;
      Disarm();
      testEnds := testEnds + 1;
      if exchanged {
        lateEnds := lateEnds + 1;
      }
    }

    method OnTimer(t: nat)
      modifies this
      ensures Snapshot() == Next(old(Snapshot()), Timer(t)) && started == old(started)
      ensures old(Valid()) ==> Valid() && testEnds <= 1
    {
      if t in pending {
        pending := pending - {t};
        EndNow();
      }
    }

    method OnReverseBytes(late: bool)
      modifies this
      ensures Snapshot() == Next(old(Snapshot()), ReverseBytes(late)) && started == old(started)
      ensures old(Valid()) ==> Valid() && testEnds <= 1
    {
      if running && late {
        EndNow();
      }
    }

    /** An EXCHANGE_RESULTS that comes before the end of the test ends it. */
    method EndByExchange()
      modifies this
      ensures var s := old(Snapshot());
              Snapshot() == if s.ended then s
                            else ClearTimer(s).(ended := true, endSets := s.endSets + 1, running := false)
      ensures started == old(started)
    {
      if !ended {
        ended := true;
        endSets := endSets + 1;
        running := false;
        Disarm();
      }
    }

    /** The synchronous half of EXCHANGE_RESULTS; `ok` is false when a stream failed. */
    method BeginExchange(ok: bool)
      modifies this
      ensures Snapshot() == OnState(old(Snapshot()), EXCHANGE_RESULTS, ok) && started == old(started)
      ensures old(Valid()) && old(outcome).Looping? ==> Valid() && endSets == 1
    {
      ExchangeKeepsInv(Snapshot(), ok, started);
      EndByExchange();
      Suspend(ok);
    }

    /** Waits for the peer's results, or gives up at once. */
    method Suspend(ok: bool)
      modifies this
      ensures var s := old(Snapshot());
              Snapshot() == if ok then s.(exchanged := true, exchanging := true)
                            else Leave(s.(exchanged := true), Failed)
      ensures started == old(started)
    {
      exchanged := true;
      if ok {
        exchanging := true;
      } else {
        Cleanup(Failed);
      }
    }

    method Cleanup(result: Outcome)
      modifies this
      ensures Snapshot() == Leave(old(Snapshot()), result) && started == old(started)
      ensures old(Valid()) && (result.Finished? ==> remote) ==> Valid()
    {
      running := false;
      Disarm();
      exchanging := false;
      outcome := result;
    }
  }
}
