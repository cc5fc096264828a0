/** One side of a test over TCP, WebSocket or QUIC from its result exchange on. The control
    loop looks through the streams for an error while their tasks still run; then
    both stop flags are set, each stream is closed behind the lock its task may be
    holding across a pending read or write, and each task is joined. The peer is
    free to let pending I/O hang for ever. */
module Teardown {
  import opened Wire

  /** A stream's sender or receiver task. Init: a sender that has not yet asked the
      channel for its write mode. Wait: queued for the channel lock. Hold: inside a
      read or write, holding the lock. Count: about to add to the counters. */
  datatype Task = NoTask | Init | Top | Wait | Hold | Count | Ended

  datatype Holder = Free | ByTask | ByCloser

  /** flagged: the stream's own `closed` flag. failed: the channel has latched an
      error. latched: the error snapshot. shut: the channel has been closed. */
  datatype Stream = Stream(
    task: Task, lock: Holder, flagged: bool, failed: bool,
    snapshots: nat, latched: bool, shut: bool, aborted: bool)

  /** Checking is the error check at result exchange, before the stop flags. */
  datatype Pc = Checking(i: nat) | Closing(i: nat) | Locking(i: nat) | Shutting(i: nat) | Joining(i: nat) | Done

  /** found: the stream that the error check stopped at. */
  datatype State = State(streams: seq<Stream>, pc: Pc, found: Option<nat>)

  /** Teardown sets both stop flags before it touches a stream. */
  predicate Stopped(pc: Pc) { !pc.Checking? }

  /** IoOk and IoErr are the peer's or the network's doing; Expire is the join's
      time limit; everything else is local. */
  datatype Move = Closer | TaskGo(i: nat) | IoOk(i: nat) | IoErr(i: nat) | Cancel(i: nat) | Expire

  predicate Local(m: Move) { m.Closer? || m.TaskGo? || m.Cancel? }

  function Go(s: Stream, stopped: bool): Option<Stream> {
    match s.task
    case Init => if s.lock == Free then Some(s.(task := Top)) else None
    case Top => Some(s.(task := if stopped then Ended else Wait))
    case Wait => if s.lock == Free then Some(s.(task := Hold, lock := ByTask)) else None
    case Count => Some(s.(task := Top))
    case _ => None
  }

  function StreamNext(s: Stream, m: Move, stopped: bool): Option<Stream> {
    match m
    case TaskGo(_) => Go(s, stopped)
    // A closed channel refuses reads and writes.
    case IoOk(_) => if s.task == Hold && !s.shut then Some(s.(task := Count, lock := Free)) else None
    case IoErr(_) => if s.task == Hold then Some(s.(task := Ended, lock := Free, failed := true)) else None
    case Cancel(_) =>
      if !stopped then None
      else if s.task == Wait then Some(s.(task := Ended))
      else if s.task == Hold then Some(s.(task := Ended, lock := Free))
      else None
    case _ => None
  }

  function CloserNext(st: State): Option<State> {
    var n := |st.streams|;
    match st.pc
    case Checking(i) =>
      if i >= n then Some(st.(pc := Closing(0)))
      else if st.streams[i].flagged && st.streams[i].latched then Some(st.(pc := Closing(0), found := Some(i)))
      else Some(st.(pc := Checking(i + 1)))
    case Closing(i) =>
      if i >= n then Some(st.(pc := Joining(0)))
      else if st.streams[i].flagged then Some(st.(pc := Closing(i + 1)))
      else Some(st.(streams := st.streams[i := st.streams[i].(flagged := true)], pc := Locking(i)))
    case Locking(i) =>
      if i < n && st.streams[i].lock == Free then
        var s := st.streams[i];
        var taken := s.(lock := ByCloser, snapshots := s.snapshots + 1, latched := s.failed);
        Some(st.(streams := st.streams[i := taken], pc := Shutting(i)))
      else None
    case Shutting(i) =>
      if i < n then
        Some(st.(streams := st.streams[i := st.streams[i].(lock := Free, shut := true)], pc := Closing(i + 1)))
      else None
    case Joining(i) =>
      if i >= n then Some(st.(pc := Done))
      else if Finished(st.streams[i].task) then Some(st.(pc := Joining(i + 1)))
      else None
    case Done => None
  }

  predicate Finished(t: Task) { t == NoTask || t == Ended }

  /** Dropping an aborted task drops the lock it held. */
  function ExpireNext(st: State): Option<State> {
    if st.pc.Joining? && st.pc.i < |st.streams| && !Finished(st.streams[st.pc.i].task) then
      var s := st.streams[st.pc.i];
      var dropped := s.(task := Ended, aborted := true, lock := if s.lock == ByTask then Free else s.lock);
      Some(st.(streams := st.streams[st.pc.i := dropped]))
    else None
  }

  function Next(st: State, m: Move): Option<State> {
    match m
    case Closer => CloserNext(st)
    case Expire => ExpireNext(st)
    case _ =>
      if m.i >= |st.streams| then None
      else
        var s := StreamNext(st.streams[m.i], m, Stopped(st.pc));
        if s.Some? then Some(st.(streams := st.streams[m.i := s.value])) else None
  }

  function Run(st: State, ms: seq<Move>): Option<State>
    decreases |ms|
  {
    if ms == [] then Some(st)
    else
      var st1 := Next(st, ms[0]);
      if st1.Some? then Run(st1.value, ms[1..]) else None
  }

  /** A stream as the control loop may find it: its task anywhere, the lock with the task
      exactly while the task is inside its I/O, closed completely or not at all. */
  ghost predicate Met(s: Stream) {
    && (s.lock == ByTask <==> s.task == Hold) && s.lock != ByCloser
    && s.snapshots == (if s.flagged then 1 else 0)
    && (s.shut <==> s.flagged)
    && !s.aborted
  }

  /** The start of the result exchange, or of a teardown without one. */
  ghost predicate Start(st: State) {
    (st.pc == Checking(0) || st.pc == Closing(0)) && forall i :: 0 <= i < |st.streams| ==> Met(st.streams[i])
  }

  /** Where stream i stands for a given position of the control loop. */
  ghost predicate StreamInv(s: Stream, i: nat, pc: Pc) {
    && (s.lock == ByTask <==> s.task == Hold)
    && (s.lock == ByCloser <==> pc == Shutting(i))
    && (s.shut ==> s.flagged && s.snapshots == 1)
    && s.snapshots == (if s.shut || pc == Shutting(i) then 1 else 0)
    && (s.flagged <==> s.shut || pc == Locking(i) || pc == Shutting(i))
    && ((pc.Closing? || pc.Locking? || pc.Shutting?) && i < pc.i ==> s.shut)
    && (pc.Joining? || pc.Done? ==> s.shut)
    && (pc.Joining? && i < pc.i ==> Finished(s.task))
    && (pc.Done? ==> Finished(s.task))
    && (s.aborted ==> pc.Joining? || pc.Done?)
    && (pc.Locking? || pc.Shutting? ==> i != pc.i || !s.shut)
  }

  ghost predicate Inv(st: State) {
    && (st.pc.Locking? || st.pc.Shutting? ==> st.pc.i < |st.streams|)
    && (st.pc.Closing? || st.pc.Joining? || st.pc.Checking? ==> st.pc.i <= |st.streams|)
    && forall i: nat :: i < |st.streams| ==> StreamInv(st.streams[i], i, st.pc)
  }

  lemma StartInv(st: State)
    requires Start(st)
    ensures Inv(st)
  {
    forall i: nat | i < |st.streams|
      ensures StreamInv(st.streams[i], i, st.pc)
    {
      assert Met(st.streams[i]);
    }
  }

  lemma StreamStepKeeps(s: Stream, m: Move, i: nat, pc: Pc)
    requires StreamInv(s, i, pc) && StreamNext(s, m, Stopped(pc)).Some?
    ensures StreamInv(StreamNext(s, m, Stopped(pc)).value, i, pc)
  {
  }

  lemma CloserKeeps(st: State, i: nat)
    requires Inv(st) && CloserNext(st).Some? && i < |st.streams|
    ensures |CloserNext(st).value.streams| == |st.streams|
    ensures StreamInv(CloserNext(st).value.streams[i], i, CloserNext(st).value.pc)
  {
    assert StreamInv(st.streams[i], i, st.pc);
  }

  lemma NextKeepsInv(st: State, m: Move)
    requires Inv(st) && Next(st, m).Some?
    ensures Inv(Next(st, m).value) && |Next(st, m).value.streams| == |st.streams|
  {
    var st1 := Next(st, m).value;
    if m.Closer? {
      forall i: nat | i < |st1.streams|
        ensures StreamInv(st1.streams[i], i, st1.pc)
      {
        CloserKeeps(st, i);
      }
    } else if !m.Expire? {
      StreamStepKeeps(st.streams[m.i], m, m.i, st.pc);
    }
  }

  // ----- a measure that every move lowers -----

  function TaskRank(t: Task): nat {
    match t
    case NoTask => 0
    case Ended => 0
    case Top => 1
    case Init => 2
    case Count => 2
    case Hold => 3
    case Wait => 4
  }

  function TaskRanks(ss: seq<Stream>): nat {
    if ss == [] then 0 else TaskRank(ss[0].task) + TaskRanks(ss[1..])
  }

  function PcRank(pc: Pc, n: nat): int {
    match pc
    case Closing(i) => 3 * (n - i) + n + 2
    case Locking(i) => 3 * (n - i) + n + 1
    case Shutting(i) => 3 * (n - i) + n
    case Joining(i) => n - i + 1
    case Done => 0
    case Checking(i) => 4 * n + 3 + n - i
  }

  function Measure(st: State): int { PcRank(st.pc, |st.streams|) + TaskRanks(st.streams) }

  lemma {:induction false} RanksUpdate(ss: seq<Stream>, i: nat, s: Stream)
    requires i < |ss|
    ensures TaskRanks(ss[i := s]) == TaskRanks(ss) - TaskRank(ss[i].task) + TaskRank(s.task)
  {
    if i == 0 {
      assert ss[i := s][1..] == ss[1..];
    } else {
      assert ss[i := s][1..] == ss[1..][i - 1 := s];
      RanksUpdate(ss[1..], i - 1, s);
    }
  }

  lemma StreamRankFalls(s: Stream, m: Move)
    requires StreamNext(s, m, true).Some?
    ensures TaskRank(StreamNext(s, m, true).value.task) < TaskRank(s.task)
  {
  }

  lemma CloserFalls(st: State)
    requires Inv(st) && CloserNext(st).Some?
    ensures PcRank(CloserNext(st).value.pc, |st.streams|) < PcRank(st.pc, |st.streams|)
    ensures TaskRanks(CloserNext(st).value.streams) == TaskRanks(st.streams)
    ensures |CloserNext(st).value.streams| == |st.streams|
  {
    var st1 := CloserNext(st).value;
    if st1.streams != st.streams {
      RanksUpdate(st.streams, st.pc.i, st1.streams[st.pc.i]);
    }
  }

  /** Once the stop flags are set every move lowers the measure. */
  lemma MeasureFalls(st: State, m: Move)
    requires Inv(st) && Stopped(st.pc) && Next(st, m).Some?
    ensures 0 <= Measure(Next(st, m).value) < Measure(st) && Stopped(Next(st, m).value.pc)
  {
    var st1 := Next(st, m).value;
    NextKeepsInv(st, m);
    if m.Closer? {
      CloserFalls(st);
    } else if m.Expire? {
      RanksUpdate(st.streams, st.pc.i, st1.streams[st.pc.i]);
    } else {
      StreamRankFalls(st.streams[m.i], m);
      RanksUpdate(st.streams, m.i, st1.streams[m.i]);
    }
  }

  // ----- never stuck, and never at the peer's mercy -----

  /** The task's own next move that needs nobody: it drops pending I/O or its place in the queue. */
  function OwnMove(s: Stream, i: nat): Move {
    if s.task == Hold || s.task == Wait then Cancel(i) else TaskGo(i)
  }

  lemma OwnMoveEnabled(s: Stream, i: nat)
    requires !Finished(s.task) && (s.task == Init ==> s.lock == Free)
    ensures StreamNext(s, OwnMove(s, i), true).Some?
  {
  }

  /** In every state before the end some local move is enabled: neither the peer's
      I/O nor the join's time limit is ever needed. */
  lemma LocalMoveEnabled(st: State) returns (m: Move)
    requires Inv(st) && !st.pc.Done?
    ensures Local(m) && Next(st, m).Some?
  {
    if CloserNext(st).Some? {
      m := Closer;
    } else {
      var i := st.pc.i;
      assert StreamInv(st.streams[i], i, st.pc);
      OwnMoveEnabled(st.streams[i], i);
      m := OwnMove(st.streams[i], i);
    }
  }

  ghost predicate TornDown(st: State) {
    st.pc.Done? && forall i: nat :: i < |st.streams| ==>
      st.streams[i].shut && Finished(st.streams[i].task) && st.streams[i].snapshots == 1 && st.streams[i].lock == Free
  }

  /** From any task states, every run keeps going for at most its measure, can
      always go on locally until it ends, and ends with every channel closed, every
      task ended and each error snapshot taken exactly once. */
  lemma {:induction false} EveryRunTearsDown(st: State, ms: seq<Move>)
    requires Inv(st) && Stopped(st.pc) && Run(st, ms).Some?
    ensures Inv(Run(st, ms).value)
    ensures |Run(st, ms).value.streams| == |st.streams|
    ensures 0 <= Measure(Run(st, ms).value) && |ms| + Measure(Run(st, ms).value) <= Measure(st)
    ensures TornDown(Run(st, ms).value) || exists m :: Local(m) && Next(Run(st, ms).value, m).Some?
    decreases |ms|
  {
    if ms != [] {
      NextKeepsInv(st, ms[0]);
      MeasureFalls(st, ms[0]);
      EveryRunTearsDown(Next(st, ms[0]).value, ms[1..]);
    } else {
      MeasureBounded(st);
      if st.pc.Done? {
        forall i: nat | i < |st.streams|
          ensures st.streams[i].shut && Finished(st.streams[i].task)
          ensures st.streams[i].snapshots == 1 && st.streams[i].lock == Free
        {
          assert StreamInv(st.streams[i], i, st.pc);
        }
      } else {
        var m := LocalMoveEnabled(st);
      }
    }
  }

  lemma MeasureBounded(st: State)
    requires Inv(st)
    ensures 0 <= Measure(st)
  {
  }

  lemma {:induction false} RanksBounded(ss: seq<Stream>)
    ensures TaskRanks(ss) <= 4 * |ss|
  {
    if ss != [] {
      RanksBounded(ss[1..]);
    }
  }

  /** From whatever the tasks are doing when teardown starts, a run that cannot go on
      has torn everything down, and no run takes more than eight moves a stream plus two. */
  lemma TeardownCompletes(st: State, ms: seq<Move>)
    requires Start(st) && Stopped(st.pc) && Run(st, ms).Some?
    ensures |ms| <= 8 * |st.streams| + 2
    ensures (forall m :: Local(m) ==> Next(Run(st, ms).value, m).None?) ==> TornDown(Run(st, ms).value)
  {
    StartInv(st);
    EveryRunTearsDown(st, ms);
    RanksBounded(st.streams);
  }

  /** The schedule that uses local moves only: it ends, and no task is aborted. */
  lemma {:induction false} LocalMovesFinish(st: State) returns (ms: seq<Move>)
    requires Inv(st) && Stopped(st.pc)
    ensures forall i :: 0 <= i < |ms| ==> Local(ms[i])
    ensures Run(st, ms).Some? && TornDown(Run(st, ms).value)
    ensures forall i :: 0 <= i < |st.streams| ==>
              i < |Run(st, ms).value.streams| && Run(st, ms).value.streams[i].aborted == st.streams[i].aborted
    decreases Measure(st)
  {
    MeasureBounded(st);
    if st.pc.Done? {
      EveryRunTearsDown(st, []);
      ms := [];
    } else {
      var m := LocalMoveEnabled(st);
      NextKeepsInv(st, m);
      MeasureFalls(st, m);
      var st1 := Next(st, m).value;
      var rest := LocalMovesFinish(st1);
      ms := [m] + rest;
      assert ms[1..] == rest;
      LocalMovesAbortNothing(st, m);
    }
  }

  lemma LocalMovesAbortNothing(st: State, m: Move)
    requires Local(m) && Next(st, m).Some?
    ensures |Next(st, m).value.streams| == |st.streams|
    ensures forall i :: 0 <= i < |st.streams| ==> Next(st, m).value.streams[i].aborted == st.streams[i].aborted
  {
  }

  /** The snapshot of a stream is taken at most once, before the channel is closed, and is the error latched by then. */
  lemma SnapshotOnceBeforeClose(st: State, m: Move, i: nat)
    requires Inv(st) && Next(st, m).Some? && i < |st.streams|
    ensures |Next(st, m).value.streams| == |st.streams|
    ensures var s := st.streams[i]; var s1 := Next(st, m).value.streams[i];
            && s.snapshots <= s1.snapshots <= 1
            && (s1.snapshots != s.snapshots || s1.latched != s.latched ==>
                  && s.snapshots == 0 && s1.snapshots == 1 && s1.latched == s.failed
                  && !s.shut && !s1.shut && s.lock == Free)
            && (s1.shut && !s.shut ==> s.snapshots == 1)
  {
    NextKeepsInv(st, m);
    assert StreamInv(st.streams[i], i, st.pc);
  }

  // ----- the error check at result exchange -----

  predicate Faulty(s: Stream) { s.flagged && s.latched }

  /** A stream's flags, without its task and its lock. */
  function Flags(s: Stream): (bool, bool) { (s.flagged, s.latched) }

  /** A step of the error check is enabled whoever holds whatever lock, changes no stream,
      and goes where the flags alone send it. */
  lemma CheckNeverWaits(st: State, other: State)
    requires st.pc.Checking? && other.pc == st.pc && other.found == st.found && |other.streams| == |st.streams|
    requires forall i :: 0 <= i < |st.streams| ==> Flags(other.streams[i]) == Flags(st.streams[i])
    ensures CloserNext(st).Some? && CloserNext(st).value.streams == st.streams
    ensures CloserNext(other).Some? && CloserNext(other).value.pc == CloserNext(st).value.pc
    ensures CloserNext(other).value.found == CloserNext(st).value.found
  {
  }

  /** The streams' flags do not move while the check runs, whatever their tasks do. */
  ghost predicate CheckedSoFar(st: State, start: seq<Stream>) {
    && |st.streams| == |start|
    && (forall i :: 0 <= i < |start| ==> Flags(st.streams[i]) == Flags(start[i]))
    && st.pc.Checking? && st.pc.i <= |start| && st.found.None?
    && forall i :: 0 <= i < st.pc.i ==> !Faulty(start[i])
  }

  /** What the check finds: the first stream closed with an error, or none. */
  ghost predicate CheckedAll(st: State, start: seq<Stream>) {
    && (st.found.Some? ==> st.found.value < |start| && Faulty(start[st.found.value])
                           && forall i :: 0 <= i < st.found.value ==> !Faulty(start[i]))
    && (st.found.None? ==> forall i :: 0 <= i < |start| ==> !Faulty(start[i]))
  }

  lemma CheckStep(st: State, start: seq<Stream>, m: Move)
    requires CheckedSoFar(st, start) && Next(st, m).Some?
    ensures var st1 := Next(st, m).value;
            if m.Closer? then
              (if st1.pc.Checking? then CheckedSoFar(st1, start) && st1.pc.i == st.pc.i + 1
               else st1.pc == Closing(0) && CheckedAll(st1, start))
            else CheckedSoFar(st1, start) && st1.pc == st.pc
  {
  }

  function CloserMoves(ms: seq<Move>): nat {
    if ms == [] then 0 else (if ms[0].Closer? then 1 else 0) + CloserMoves(ms[1..])
  }

  /** However the tasks run, a check that is still going has made a step for each stream
      it has passed, so it is over after one step a stream and one more; and
      a step that ends it has the right answer. */
  lemma {:induction false} CheckEnds(st: State, ms: seq<Move>, m: Move)
    requires st.pc.Checking? && CheckedSoFar(st, st.streams) && Run(st, ms).Some? && Run(st, ms).value.pc.Checking?
    requires Next(Run(st, ms).value, m).Some?
    ensures CloserMoves(ms) <= |st.streams|
    ensures var st2 := Next(Run(st, ms).value, m).value; Stopped(st2.pc) ==> CheckedAll(st2, st.streams)
  {
    CheckGoes(st, st.streams, ms);
    CheckStep(Run(st, ms).value, st.streams, m);
  }

  lemma {:induction false} CheckGoes(st: State, start: seq<Stream>, ms: seq<Move>)
    requires CheckedSoFar(st, start) && Run(st, ms).Some? && Run(st, ms).value.pc.Checking?
    ensures CheckedSoFar(Run(st, ms).value, start)
    ensures Run(st, ms).value.pc.i == st.pc.i + CloserMoves(ms)
    decreases |ms|
  {
    if ms != [] {
      var st1 := Next(st, ms[0]).value;
      CheckStep(st, start, ms[0]);
      if Stopped(st1.pc) {
        StaysStopped(st1, ms[1..]);
      } else {
        CheckGoes(st1, start, ms[1..]);
      }
    }
  }

  lemma {:induction false} StaysStopped(st: State, ms: seq<Move>)
    requires Stopped(st.pc) && Run(st, ms).Some?
    ensures Stopped(Run(st, ms).value.pc)
    decreases |ms|
  {
    if ms != [] {
      StaysStopped(Next(st, ms[0]).value, ms[1..]);
    }
  }

  /** The check as the loop it is: it reads the flags of each stream in turn. */
  method ClosedWithError(ss: seq<Stream>) returns (r: Option<nat>)
    ensures CheckedAll(State(ss, Closing(0), r), ss)
  {
    for i := 0 to |ss|
      invariant forall j :: 0 <= j < i ==> !Faulty(ss[j])
    {
      if ss[i].flagged && ss[i].latched {
        return Some(i);
      }
    }
    return None;
  }
}
