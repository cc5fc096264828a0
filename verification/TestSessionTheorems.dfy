/** What the fault-free test protocol guarantees in every run. */
module TestSessionTheorems {
  import BytePipes
  import opened Sequences
  import opened Wire
  import opened DataPlane
  import opened TestSession
  import opened TestSessionInv
  import opened TestSessionSteps
  import opened TestSessionProgress

  lemma ReachableInv(cfg: Config, moves: seq<Label>)
    requires ValidConfig(cfg) && Run(cfg, Init(), moves).Some?
    ensures Inv(cfg, Run(cfg, Init(), moves).value)
  {
    InitInv(cfg);
    RunKeepsInv(cfg, Init(), moves);
  }

  /** Every control read meets the message it expects, and no data connection is refused. */
  lemma EveryReadMeetsItsMessage(cfg: Config, moves: seq<Label>)
    requires ValidConfig(cfg) && Run(cfg, Init(), moves).Some?
    ensures
      var st := Run(cfg, Init(), moves).value;
      !st.c.pc.CFailed? && !st.s.pc.SFailed? && !st.denied
  {
    ReachableInv(cfg, moves);
  }

  // ----- deadlock -----

  lemma BothReadingMeansRunning(cfg: Config, st: State)
    requires Inv(cfg, st) && !Finished(st)
    requires st.c.pc.CDone? || (st.c.pc in {CLoop, CResultsRead, CAck} && st.toC == [])
    requires ServerReads(st.s.pc) && st.toS == []
    ensures TimerNext(cfg, st).Some?
  {
  }

  lemma CollectingClient(cfg: Config, st: State)
    requires Inv(cfg, st) && st.s.pc.SCollect?
    requires st.c.pc.CDone? || (st.c.pc in {CLoop, CResultsRead, CAck} && st.toC == [])
    ensures st.c.pc.CLoop? && st.c.got == 2
  {
  }

  lemma DrainingClient(cfg: Config, st: State)
    requires Inv(cfg, st) && st.s.pc.SDrain?
    requires st.c.pc.CDone? || (st.c.pc in {CLoop, CResultsRead, CAck} && st.toC == [])
    ensures st.c.pc.CLoop?
  {
  }

  lemma ClosingEnds(cfg: Config, st: State)
    requires Inv(cfg, st) && !Finished(st) && (st.s.pc.SAwaitClose? || st.s.pc.SDone?)
    requires st.c.pc.CDone? || (st.c.pc in {CLoop, CResultsRead, CAck} && st.toC == [])
    ensures ServerNext(cfg, st).Some?
  {
  }

  lemma ServerSnapMoves(cfg: Config, st: State)
    requires Inv(cfg, st) && st.s.pc.SSnap?
    ensures ServerNext(cfg, st).Some?
  {
    if |st.s.rows| < |st.added| { assert st.added[|st.s.rows|] in st.added; }
  }

  lemma ServerMovesForWaitingClient(cfg: Config, st: State) returns (move: Label)
    requires ValidConfig(cfg) && Inv(cfg, st) && !Finished(st) && ServerNext(cfg, st).None?
    requires st.c.pc.CDone? || (st.c.pc in {CLoop, CResultsRead, CAck} && st.toC == [])
    ensures Next(cfg, st, move).Some? && (move.Task? ==> st.stopTx)
  {
    if ServerReads(st.s.pc) {
      BothReadingMeansRunning(cfg, st);
      move := DurationTimer;
    } else {
      move := ServerLocalMoves(cfg, st);
    }
  }

  lemma ServerLocalMoves(cfg: Config, st: State) returns (move: Label)
    requires ValidConfig(cfg) && Inv(cfg, st) && !Finished(st) && ServerNext(cfg, st).None? && !ServerReads(st.s.pc)
    requires st.c.pc.CDone? || (st.c.pc in {CLoop, CResultsRead, CAck} && st.toC == [])
    ensures Next(cfg, st, move).Some? && (move.Task? ==> st.stopTx)
  {
    ServerBlockedAt(cfg, st);
    if st.s.pc.SCollect? {
      CollectingClient(cfg, st);
      move := ServerCanCollect(cfg, st);
    } else if st.s.pc.SDrain? {
      DrainingClient(cfg, st);
      move := ServerCanDrain(cfg, st);
    } else if st.s.pc.SJoin? {
      move := ServerCanJoin(cfg, st);
    } else {
      move := ServerCanClose(cfg, st);
    }
  }

  /** A server that waits without reading waits for connections, tasks or a lock. */
  lemma ServerBlockedAt(cfg: Config, st: State)
    requires Inv(cfg, st) && !Finished(st) && ServerNext(cfg, st).None? && !ServerReads(st.s.pc)
    requires st.c.pc.CDone? || (st.c.pc in {CLoop, CResultsRead, CAck} && st.toC == [])
    ensures st.s.pc.SCollect? || st.s.pc.SDrain? || st.s.pc.SJoin? || st.s.pc.SClosing?
  {
    if st.s.pc.SMarkers? {
      ServerCanMark(cfg, st);
    } else if st.s.pc.SSnap? {
      ServerSnapMoves(cfg, st);
    } else if st.s.pc.SAwaitClose? || st.s.pc.SDone? {
      ClosingEnds(cfg, st);
    }
  }

  /** Before both sides finish some control step is enabled, or the senders
      have been stopped and one of the tasks can move. */
  lemma NeverStuck(cfg: Config, st: State) returns (move: Label)
    requires ValidConfig(cfg) && Inv(cfg, st) && !Finished(st)
    ensures Next(cfg, st, move).Some? && (move.Task? ==> st.stopTx)
  {
    if ClientNext(cfg, st).Some? {
      return ClientStep;
    }
    if ServerNext(cfg, st).Some? {
      return ServerStep;
    }
    match st.c.pc {
      case CJoin => move := ClientCanJoin(cfg, st);
      case CClosing(_) => move := ClientCanClose(cfg, st);
      case CDrain => move := ClientCanDrain(cfg, st);
      case CMarkers(_) => ClientCanMark(cfg, st); assert false;
      case _ => move := ServerMovesForWaitingClient(cfg, st);
    }
  }

  lemma NoDeadlock(cfg: Config, moves: seq<Label>) returns (move: Label)
    requires ValidConfig(cfg) && Run(cfg, Init(), moves).Some? && !Finished(Run(cfg, Init(), moves).value)
    ensures
      var st := Run(cfg, Init(), moves).value;
      Next(cfg, st, move).Some? && (move.Task? ==> st.stopTx)
  {
    ReachableInv(cfg, moves);
    move := NeverStuck(cfg, Run(cfg, Init(), moves).value);
  }

  function ControlSteps(moves: seq<Label>): nat {
    if moves == [] then 0 else (if moves[0].Task? then 0 else 1) + ControlSteps(moves[1..])
  }

  /** However the tasks interleave, a run holds a bounded number of control steps. */
  lemma {:induction false} ControlStepsBounded(cfg: Config, from: State, moves: seq<Label>)
    requires ValidConfig(cfg) && Inv(cfg, from) && Run(cfg, from, moves).Some?
    ensures ControlSteps(moves) + ControlRank(cfg, Run(cfg, from, moves).value) <= ControlRank(cfg, from)
    decreases |moves|
  {
    if moves != [] {
      ControlFalls(cfg, from, moves[0]);
      NextKeepsInv(cfg, from, moves[0]);
      ControlStepsBounded(cfg, Next(cfg, from, moves[0]).value, moves[1..]);
    }
  }

  /** After the stop every run is finite, and one that cannot go on has finished on both sides. */
  lemma {:induction false} StoppedRunsFinish(cfg: Config, from: State, moves: seq<Label>)
    requires ValidConfig(cfg) && Inv(cfg, from) && from.stopTx && Run(cfg, from, moves).Some?
    ensures |moves| + TotalRank(cfg, Run(cfg, from, moves).value) <= TotalRank(cfg, from)
    ensures
      var st := Run(cfg, from, moves).value;
      (forall move :: Next(cfg, st, move).None?) ==> Finished(st)
    decreases |moves|
  {
    if moves == [] {
      if !Finished(from) { var move := NeverStuck(cfg, from); }
    } else {
      StoppedFalls(cfg, from, moves[0]);
      NextKeepsInv(cfg, from, moves[0]);
      StoppedRunsFinish(cfg, Next(cfg, from, moves[0]).value, moves[1..]);
    }
  }

  /** From the initial state: a bounded number of control steps, whatever the streams do. */
  lemma RunHasFewControlSteps(cfg: Config, moves: seq<Label>)
    requires ValidConfig(cfg) && Run(cfg, Init(), moves).Some?
    ensures ControlSteps(moves) <= 27 * UNIT
  {
    InitInv(cfg);
    ControlStepsBounded(cfg, Init(), moves);
  }

  /** From any reachable state in which the senders have been stopped, every
      schedule ends, within TotalRank steps, with both sides finished. */
  lemma StopLeadsToFinish(cfg: Config, before: seq<Label>, moves: seq<Label>)
    requires ValidConfig(cfg) && Run(cfg, Init(), before).Some? && Run(cfg, Init(), before).value.stopTx
    requires Run(cfg, Run(cfg, Init(), before).value, moves).Some?
    ensures
      var from := Run(cfg, Init(), before).value;
      var st := Run(cfg, from, moves).value;
      |moves| <= TotalRank(cfg, from) && ((forall move :: Next(cfg, st, move).None?) ==> Finished(st))
  {
    ReachableInv(cfg, before);
    StoppedRunsFinish(cfg, Run(cfg, Init(), before).value, moves);
  }

  // ----- results -----

  function Ids(rows: seq<StreamResult>): seq<nat> {
    seq(|rows|, k requires 0 <= k < |rows| => rows[k].id)
  }

  function StreamIds(n: nat): seq<nat> { seq(n, k requires 0 <= k < n => NextStreamId(k)) }

  /** The sender's report against the receiver's report of one stream. */
  ghost predicate Agree(cfg: Config, tx: nat, rx: nat) {
    && rx <= tx + cfg.len
    && (Drains(cfg) ==> tx <= rx)
    && (cfg.transport == WebRtc ==> tx == rx)
  }

  ghost predicate PairAgrees(cfg: Config, client: StreamResult, server: StreamResult) {
    if cfg.reverse then Agree(cfg, server.bytes, client.bytes) else Agree(cfg, client.bytes, server.bytes)
  }

  /** Both result lists carry the same ids in the same order. */
  lemma IdsAgree(cfg: Config, moves: seq<Label>)
    requires ValidConfig(cfg) && Run(cfg, Init(), moves).Some? && Run(cfg, Init(), moves).value.c.pc.CDone?
    ensures
      var st := Run(cfg, Init(), moves).value;
      && st.c.remote.Some?
      && Ids(st.c.report) == Ids(st.c.local) == Ids(st.c.remote.value) == StreamIds(cfg.parallel)
  {
    ReachableInv(cfg, moves);
  }

  lemma RowsAgree(cfg: Config, st: State, rows: seq<StreamResult>, k: nat)
    requires ClientRows(cfg, st.links, rows) && ServerRows(cfg, st.links, st.added, st.s.rows)
    requires k < |st.s.rows| && st.added[k] < |rows|
    ensures PairAgrees(cfg, rows[st.added[k]], st.s.rows[k])
  {
    var row, row' := st.s.rows[k], rows[st.added[k]];
  }

  /** For every stream, the client's result and the server's row for the same
      connection agree: exactly on WebRTC, within one block on QUIC, and the
      receiver is never more than one block ahead on any transport. */
  lemma BytesAgree(cfg: Config, moves: seq<Label>, k: nat)
    requires ValidConfig(cfg) && Run(cfg, Init(), moves).Some? && Run(cfg, Init(), moves).value.c.pc.CDone?
    requires k < cfg.parallel
    ensures
      var st := Run(cfg, Init(), moves).value;
      && st.c.remote.Some? && |st.added| == |st.c.remote.value| == |st.c.local| == |st.c.report| == cfg.parallel
      && st.added[k] < cfg.parallel
      && PairAgrees(cfg, st.c.local[st.added[k]], st.c.remote.value[k])
      && PairAgrees(cfg, st.c.report[st.added[k]], st.c.remote.value[k])
      && (cfg.transport == WebRtc ==> st.added[k] == k)
  {
    ReachableInv(cfg, moves);
    var st := Run(cfg, Init(), moves).value;
    assert st.added[k] in st.added;
    RowsAgree(cfg, st, st.c.local, k);
    RowsAgree(cfg, st, st.c.report, k);
  }

  // ----- the hand-over from cookie to payload -----

  /** Bytes the client has written on a data connection: its cookie, then payload. */
  function ClientBytes(cfg: Config, l: Link): nat { COOKIE_SIZE + if cfg.reverse then 0 else l.sent }

  /** A connection the server has not yet turned into a data channel has carried its cookie and nothing else. */
  lemma OnlyCookieBeforeHandover(cfg: Config, moves: seq<Label>, i: nat)
    requires ValidConfig(cfg) && Run(cfg, Init(), moves).Some?
    requires i < |Run(cfg, Init(), moves).value.links| && i !in Run(cfg, Init(), moves).value.added
    ensures
      var st := Run(cfg, Init(), moves).value;
      ClientBytes(cfg, st.links[i]) == COOKIE_SIZE && st.links[i].sent == 0
  {
    ReachableInv(cfg, moves);
    var st := Run(cfg, Init(), moves).value;
    assert LinkInv(cfg, CtlOf(st), i, st.links[i]);
    if At(st.s.pc) >= 5 { AllAdded(cfg, st, i); }
  }

  /** So, in every run, a connection whose cookie has been read converts to a data
      channel however its bytes were cut, and the channel starts at its first payload byte. */
  lemma HandoverNeverFails(cfg: Config, moves: seq<Label>, i: nat, arrived: seq<BytePipes.Item>, pulls: nat)
    requires ValidConfig(cfg) && Run(cfg, Init(), moves).Some?
    requires i < |Run(cfg, Init(), moves).value.links| && i !in Run(cfg, Init(), moves).value.added
    requires |BytePipes.Bytes(arrived)| <= ClientBytes(cfg, Run(cfg, Init(), moves).value.links[i])
    requires BytePipes.Fill(BytePipes.Pipe([], arrived), COOKIE_SIZE, pulls).1.Ready?
    ensures
      var p := BytePipes.Fill(BytePipes.Pipe([], arrived), COOKIE_SIZE, pulls).0;
      BytePipes.Converts(p) && BytePipes.Bytes(p.inbox) == []
  {
    OnlyCookieBeforeHandover(cfg, moves, i);
    BytePipes.ConvertsExactlyWhen(arrived, pulls);
  }

  // ----- totals -----

  function Total(rows: seq<StreamResult>): nat {
    if rows == [] then 0 else Total(rows[..|rows| - 1]) + rows[|rows| - 1].bytes
  }

  /** The rows of the connections named by p, in that order. */
  function Pick(rows: seq<StreamResult>, p: seq<nat>): (r: seq<StreamResult>)
    requires forall k :: 0 <= k < |p| ==> p[k] < |rows|
    ensures |r| == |p|
  {
    seq(|p|, k requires 0 <= k < |p| => rows[p[k]])
  }

  lemma {:induction false} TotalConcat(a: seq<StreamResult>, b: seq<StreamResult>)
    ensures Total(a + b) == Total(a) + Total(b)
  {
    if b == [] {
      assert a + b == a;
    } else {
      assert (a + b)[..|a + b| - 1] == a + b[..|b| - 1];
      TotalConcat(a, b[..|b| - 1]);
    }
  }

  ghost predicate Permutation(p: seq<nat>, n: nat) {
    && |p| == n && NoDuplicates(p)
    && (forall k :: 0 <= k < |p| ==> p[k] < n)
    && (forall i: nat :: i < n ==> i in p)
  }

  lemma WithoutLast(p: seq<nat>, n: nat, j: nat)
    requires Permutation(p, n + 1) && j <= n && p[j] == n
    ensures Permutation(p[..j] + p[j + 1..], n)
  {
    var rest := p[..j] + p[j + 1..];
    forall k | 0 <= k < |rest| ensures rest[k] < n {
      assert rest[k] == p[if k < j then k else k + 1];
    }
    forall i: nat | i < n ensures i in rest {
      assert i in p;
      var k :| 0 <= k < |p| && p[k] == i;
      assert rest[if k < j then k else k - 1] == i;
    }
  }

  lemma TotalWithoutLast(rows: seq<StreamResult>, p: seq<nat>, n: nat, j: nat)
    requires |rows| == n + 1 && Permutation(p, n + 1) && j <= n && p[j] == n
    requires Permutation(p[..j] + p[j + 1..], n)
    ensures Total(Pick(rows, p)) == Total(Pick(rows[..n], p[..j] + p[j + 1..])) + rows[n].bytes
  {
    var a, b := Pick(rows, p[..j]), Pick(rows, p[j + 1..]);
    assert Pick(rows, p) == (a + [rows[n]]) + b;
    assert Pick(rows[..n], p[..j] + p[j + 1..]) == a + b;
    TotalConcat(a, [rows[n]]);
    TotalConcat(a + [rows[n]], b);
    TotalConcat(a, b);
  }

  /** A total does not depend on the order in which the connections were accepted. */
  lemma {:induction false} TotalOfPermutation(rows: seq<StreamResult>, p: seq<nat>)
    requires Permutation(p, |rows|)
    ensures Total(Pick(rows, p)) == Total(rows)
  {
    if |rows| > 0 {
      var n: nat := |rows| - 1;
      assert n in p;
      var j :| 0 <= j < |p| && p[j] == n;
      WithoutLast(p, n, j);
      TotalWithoutLast(rows, p, n, j);
      TotalOfPermutation(rows[..n], p[..j] + p[j + 1..]);
    }
  }

  lemma {:induction false} TotalsOfPairs(cfg: Config, client: seq<StreamResult>, server: seq<StreamResult>)
    requires |client| == |server|
    requires forall k :: 0 <= k < |client| ==> PairAgrees(cfg, client[k], server[k])
    ensures
      var tx, rx := if cfg.reverse then Total(server) else Total(client),
                    if cfg.reverse then Total(client) else Total(server);
      && rx <= tx + |client| * cfg.len
      && (Drains(cfg) ==> tx <= rx)
      && (cfg.transport == WebRtc ==> tx == rx)
  {
    var n := |client|;
    if n > 0 {
      TotalsOfPairs(cfg, client[..n - 1], server[..n - 1]);
      assert PairAgrees(cfg, client[n - 1], server[n - 1]);
      assert n * cfg.len == (n - 1) * cfg.len + cfg.len;
    }
  }

  /** sent_bytes and received_bytes of the returned result: equal on WebRTC, and
      on QUIC received - sent lies between 0 and one block for each stream. */
  lemma TotalsAgree(cfg: Config, moves: seq<Label>)
    requires ValidConfig(cfg) && Run(cfg, Init(), moves).Some? && Run(cfg, Init(), moves).value.c.pc.CDone?
    ensures
      var c := Run(cfg, Init(), moves).value.c;
      && c.remote.Some?
      && var sent := if cfg.reverse then Total(c.remote.value) else Total(c.local);
         var received := if cfg.reverse then Total(c.local) else Total(c.remote.value);
         && received <= sent + cfg.parallel * cfg.len
         && (Drains(cfg) ==> sent <= received)
         && (cfg.transport == WebRtc ==> sent == received)
  {
    ReachableInv(cfg, moves);
    var st := Run(cfg, Init(), moves).value;
    forall i: nat | i < |st.links| ensures i in st.added { AllAdded(cfg, st, i); }
    forall k | 0 <= k < |st.added| ensures st.added[k] < |st.links| { assert st.added[k] in st.added; }
    assert st.added + st.claimed == st.added;
    var client := Pick(st.c.local, st.added);
    forall k | 0 <= k < |client| ensures PairAgrees(cfg, client[k], st.s.rows[k]) {
      BytesAgree(cfg, moves, k);
    }
    TotalOfPermutation(st.c.local, st.added);
    TotalsOfPairs(cfg, client, st.s.rows);
  }

  // ----- which stream gets which id -----

  lemma {:induction false} RunExtend(cfg: Config, from: State, moves: seq<Label>, move: Label)
    requires Run(cfg, from, moves).Some? && Next(cfg, Run(cfg, from, moves).value, move).Some?
    ensures Run(cfg, from, moves + [move]) == Next(cfg, Run(cfg, from, moves).value, move)
    decreases |moves|
  {
    if moves != [] {
      assert (moves + [move])[1..] == moves[1..] + [move];
      RunExtend(cfg, Next(cfg, from, moves[0]).value, moves[1..], move);
    }
  }

  lemma ToParams(cfg: Config) returns (moves: seq<Label>, st: State)
    ensures Run(cfg, Init(), moves) == Some(st) && st.c.pc == CParams && st.s.pc == SParamsRead
    ensures st.toS == [] && st.toC == [] && st.links == [] && st.pending == {} && st.claimed == [] && st.added == []
  {
    moves, st := [ClientStep], Next(cfg, Init(), ClientStep).value;
    RunExtend(cfg, Init(), moves, ServerStep);
    moves, st := moves + [ServerStep], Next(cfg, st, ServerStep).value;
    RunExtend(cfg, Init(), moves, ServerStep);
    moves, st := moves + [ServerStep], Next(cfg, st, ServerStep).value;
    RunExtend(cfg, Init(), moves, ClientStep);
    moves, st := moves + [ClientStep], Next(cfg, st, ClientStep).value;
  }

  lemma ToOpening(cfg: Config) returns (moves: seq<Label>, st: State)
    ensures Run(cfg, Init(), moves) == Some(st) && st.c.pc == COpening(cfg.parallel) && st.s.pc == SCollect
    ensures st.s.awaiting && st.s.slots == cfg.parallel
    ensures st.links == [] && st.pending == {} && st.claimed == [] && st.added == []
  {
    moves, st := ToParams(cfg);
    RunExtend(cfg, Init(), moves, ClientStep);
    moves, st := moves + [ClientStep], Next(cfg, st, ClientStep).value;
    RunExtend(cfg, Init(), moves, ServerStep);
    moves, st := moves + [ServerStep], Next(cfg, st, ServerStep).value;
    RunExtend(cfg, Init(), moves, ServerStep);
    moves, st := moves + [ServerStep], Next(cfg, st, ServerStep).value;
    RunExtend(cfg, Init(), moves, ClientStep);
    moves, st := moves + [ClientStep], Next(cfg, st, ClientStep).value;
  }

  lemma ToClaims(cfg: Config) returns (moves: seq<Label>, st: State)
    requires cfg.parallel >= 2 && cfg.transport != WebRtc
    ensures Run(cfg, Init(), moves) == Some(st) && st.s.pc == SCollect
    ensures st.claimed == [1, 0] && st.added == []
  {
    moves, st := ToOpening(cfg);
    RunExtend(cfg, Init(), moves, ClientStep);
    moves, st := moves + [ClientStep], Next(cfg, st, ClientStep).value;
    RunExtend(cfg, Init(), moves, ClientStep);
    moves, st := moves + [ClientStep], Next(cfg, st, ClientStep).value;
    RunExtend(cfg, Init(), moves, Accept(1));
    moves, st := moves + [Accept(1)], Next(cfg, st, Accept(1)).value;
    RunExtend(cfg, Init(), moves, Accept(0));
    moves, st := moves + [Accept(0)], Next(cfg, st, Accept(0)).value;
  }

  /** Equal id lists do not mean equal pairing: outside WebRTC the server numbers
      connections in the order it classifies them, which need not be the order
      in which the client opened them. */
  lemma PairingCanCross(cfg: Config) returns (moves: seq<Label>)
    requires ValidConfig(cfg) && cfg.parallel >= 2 && cfg.transport != WebRtc
    ensures Run(cfg, Init(), moves).Some? && Run(cfg, Init(), moves).value.added == [1, 0]
  {
    var st;
    moves, st := ToClaims(cfg);
    RunExtend(cfg, Init(), moves, ServerStep);
    moves, st := moves + [ServerStep], Next(cfg, st, ServerStep).value;
    RunExtend(cfg, Init(), moves, ServerStep);
    moves := moves + [ServerStep];
  }

  ghost predicate InOpeningOrder(added: seq<nat>) { forall k :: 0 <= k < |added| ==> added[k] == k }

  /** The two sides give the same id to the same connection in every run exactly
      for a single stream or over WebRTC, whose channels are numbered. */
  lemma SameIdSameStreamExactlyWhen(cfg: Config)
    requires ValidConfig(cfg)
    ensures (forall moves :: Run(cfg, Init(), moves).Some? ==> InOpeningOrder(Run(cfg, Init(), moves).value.added))
            <==> cfg.parallel == 1 || cfg.transport == WebRtc
  {
    if cfg.parallel == 1 || cfg.transport == WebRtc {
      forall moves | Run(cfg, Init(), moves).Some?
        ensures InOpeningOrder(Run(cfg, Init(), moves).value.added)
      {
        ReachableInv(cfg, moves);
        var st := Run(cfg, Init(), moves).value;
        forall k | 0 <= k < |st.added| ensures st.added[k] == k { assert st.added[k] in st.added; }
      }
    } else {
      var moves := PairingCanCross(cfg);
      assert Run(cfg, Init(), moves).value.added[0] == 1;
    }
  }
}
