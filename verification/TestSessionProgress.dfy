/** No reachable state of the test protocol is stuck before both sides finish,
    and every step is bounded by a falling measure. */
module TestSessionProgress {
  import opened Wire
  import opened DataPlane
  import opened TestSession
  import opened TestSessionInv
  import opened TestSessionSteps

  predicate Finished(st: State) { st.c.pc.CDone? && st.s.pc.SDone? }

  // ----- the control measure -----

  /** More than the work inside any one position, for every legal stream count. */
  const UNIT := 1000

  function Minus(a: nat, b: nat): nat { if b <= a then a - b else 0 }

  function ClientWork(cfg: Config, c: Client): nat {
    var n := cfg.parallel;
    match c.pc
    case COpening(left) => 2 * left + 1
    case CJoin => n + 2
    case CMarkers(k) => Minus(n, k) + 1
    case CClosing(k) => Minus(n, k) + 1
    case CDrain => n + 3
    case CSnap(final) => Minus(n, |if final then c.local else c.report|) + 2
    case _ => 0
  }

  function ServerWork(cfg: Config, s: Server, added: nat): nat {
    var n := cfg.parallel;
    match s.pc
    case SCollect => Minus(n, added) + 1
    case SSpawn => 1
    case SStop => 2 * n + 5
    case SJoin => 2 * n + 4
    case SMarkers(k) => n + 3 + Minus(n, k)
    case SDrain => n + 2
    case SClosing(k) => Minus(n, k) + 1
    case SSnap => Minus(n, |s.rows|) + 1
    case SAwaitClose => 1
    case _ => 0
  }

  function ClientRank(cfg: Config, c: Client): nat {
    UNIT * (Minus(8, c.got) + Minus(5, c.put) + (if c.ended then 0 else 1)) + ClientWork(cfg, c)
  }

  function ServerRank(cfg: Config, s: Server, added: nat): nat {
    UNIT * (Minus(5, ServerGot(s.pc)) + Minus(8, ServerSent(cfg, s.pc))) + ServerWork(cfg, s, added)
  }

  /** Control messages still to come, the end of the test, and the work inside the current position. */
  function ControlRank(cfg: Config, st: State): nat {
    ClientRank(cfg, st.c) + ServerRank(cfg, st.s, |st.added|) + |st.pending|
  }

  lemma ClientPutFalls(cfg: Config, st: State)
    requires ValidConfig(cfg) && ClientInv(cfg, st.c)
    requires st.c.pc in {CConnect, CParams, CEndWrite, CResultsWrite, CDisplay}
    ensures ClientRank(cfg, ClientPut(cfg, st).c) < ClientRank(cfg, st.c)
  {
  }

  lemma ClientTakeFalls(cfg: Config, st: State)
    requires ValidConfig(cfg) && QueuesInv(cfg, st.c, st.s, st.toS, st.toC) && ClientInv(cfg, st.c)
    requires st.toC != [] && st.c.pc in {CLoop, CResultsRead, CAck}
    ensures ClientRank(cfg, ClientTake(cfg, st).c) < ClientRank(cfg, st.c)
  {
    ClientMeets(cfg, st);
    ClientTakeIs(cfg, st);
    TakenFalls(cfg, st.c, st.s.rows);
  }

  lemma TakenFalls(cfg: Config, c: Client, rows: seq<StreamResult>)
    requires ValidConfig(cfg) && c.got < 8
    requires c.pc in {CLoop, CResultsRead, CAck}
    ensures ClientRank(cfg, TakenClient(cfg, c, rows)) < ClientRank(cfg, c)
  {
    assert ClientWork(cfg, TakenClient(cfg, c, rows)) < UNIT;
  }

  lemma OpeningFalls(cfg: Config, st: State)
    requires st.c.pc.COpening? && |st.links| !in st.pending
    ensures
      var st' := ClientLocal(cfg, st).value;
      && st'.c.got == st.c.got && st'.c.put == st.c.put && st'.c.ended == st.c.ended
      && st'.s == st.s && st'.added == st.added
      && ClientWork(cfg, st'.c) + |st'.pending| < ClientWork(cfg, st.c) + |st.pending|
  {
    assert |st.pending + {|st.links|}| == |st.pending| + 1;
  }

  lemma SnapFalls(cfg: Config, c: Client, links: seq<Link>, final: bool)
    requires c.pc == CSnap(final) && |links| == cfg.parallel
    ensures
      var c' := ClientSnap(cfg, c, links, final);
      c'.got == c.got && c'.put == c.put && c'.ended == c.ended && ClientWork(cfg, c') < ClientWork(cfg, c)
  {
  }

  /** Where a client position without messages leads. */
  predicate ClientAdvance(n: nat, pc: ClientPc, pc': ClientPc) {
    match pc
    case CJoin => pc' == CMarkers(0)
    case CMarkers(k) => pc' == if k < n then CMarkers(k + 1) else CEndWrite
    case CClosing(k) => pc' == if k < n then CClosing(k + 1) else CLoop
    case CDrain => pc' == CSnap(false)
    case _ => false
  }

  lemma ClientAdvanceFalls(cfg: Config, c: Client, pc': ClientPc)
    requires ClientAdvance(cfg.parallel, c.pc, pc')
    ensures ClientRank(cfg, c.(pc := pc')) < ClientRank(cfg, c)
  {
  }

  lemma ClientLocalAdvances(cfg: Config, st: State)
    requires ClientLocal(cfg, st).Some? && !st.c.pc.COpening? && !st.c.pc.CSnap?
    ensures
      var st' := ClientLocal(cfg, st).value;
      && st'.s == st.s && st'.added == st.added && st'.pending == st.pending
      && ClientAdvance(|st.links|, st.c.pc, st'.c.pc) && st'.c == st.c.(pc := st'.c.pc)
  {
  }

  lemma TimerFalls(cfg: Config, st: State)
    requires ValidConfig(cfg) && TimerNext(cfg, st).Some?
    ensures ClientRank(cfg, TimerNext(cfg, st).value.c) < ClientRank(cfg, st.c)
  {
  }

  lemma ServerPutFalls(cfg: Config, st: State)
    requires ValidConfig(cfg) && ServerInv(cfg, st.s) && ServerWrites(st.s.pc)
    ensures ServerRank(cfg, ServerPut(cfg, st).s, |st.added|) < ServerRank(cfg, st.s, |st.added|)
  {
    ServerSaysScript(cfg, st.s);
  }

  lemma ServerTakeFalls(cfg: Config, pc: ServerPc)
    requires ServerReads(pc)
    ensures ServerGot(AfterServerRead(cfg, pc)) == ServerGot(pc) + 1 <= 5
    ensures ServerSent(cfg, AfterServerRead(cfg, pc)) == ServerSent(cfg, pc)
  {
  }

  lemma CollectFalls(cfg: Config, st: State)
    requires st.s.pc.SCollect? && Collect(cfg, st).Some?
    ensures
      var st' := Collect(cfg, st).value;
      && st'.c == st.c && At(st'.s.pc) in {4, 5}
      && ServerWork(cfg, st'.s, |st'.added|) + |st'.pending| < ServerWork(cfg, st.s, |st.added|) + |st.pending|
  {
  }

  lemma ServerLoopFalls(cfg: Config, st: State)
    requires st.s.pc.SMarkers? || st.s.pc.SClosing?
    requires ServerLocal(cfg, st).Some? && |st.added| == cfg.parallel
    ensures
      var st' := ServerLocal(cfg, st).value;
      && st'.c == st.c && st'.added == st.added && st'.pending == st.pending
      && At(st'.s.pc) in {11, 13, 14}
      && ServerWork(cfg, st'.s, |st.added|) < ServerWork(cfg, st.s, |st.added|)
  {
    var st' := ServerLocal(cfg, st).value;
    if st.s.pc.SMarkers? {
      var k := st.s.pc.next;
      assert ServerMark(st, k) == Some(st');
      assert st'.s == st.s.(pc := if k < |st.added| then SMarkers(k + 1) else SClosing(0));
    } else {
      var k := st.s.pc.at;
      assert ServerClose(cfg, st, k) == Some(st');
      assert st'.s == st.s.(pc := if k < |st.added| then SClosing(k + 1) else SExchangeWrite);
    }
  }

  lemma ServerSnapFalls(cfg: Config, st: State)
    requires st.s.pc.SSnap? && ServerSnap(cfg, st).Some? && |st.added| == cfg.parallel
    ensures
      var st' := ServerSnap(cfg, st).value;
      && st'.c == st.c && st'.added == st.added && st'.pending == st.pending
      && At(st'.s.pc) in {16, 17}
      && ServerWork(cfg, st'.s, |st.added|) < ServerWork(cfg, st.s, |st.added|)
  {
  }

  lemma ServerPointFalls(cfg: Config, st: State)
    requires st.s.pc in {SSpawn, SStop, SJoin, SDrain, SAwaitClose} && ServerInv(cfg, st.s)
    requires ServerLocal(cfg, st).Some? && (st.s.pc.SAwaitClose? ==> st.toS == [])
    ensures
      var st' := ServerLocal(cfg, st).value;
      && st'.c == st.c && st'.added == st.added && st'.pending == st.pending
      && ServerGot(st'.s.pc) == ServerGot(st.s.pc) && ServerSent(cfg, st'.s.pc) == ServerSent(cfg, st.s.pc)
      && ServerWork(cfg, st'.s, |st.added|) < ServerWork(cfg, st.s, |st.added|)
  {
    var st' := ServerLocal(cfg, st).value;
    match st.s.pc {
      case SSpawn => assert st'.s.pc == SWaitEnd;
      case SStop => assert st'.s.pc in {SJoin, SDrain, SClosing(0)};
      case SJoin => assert st'.s.pc == SMarkers(0);
      case SDrain => assert st'.s.pc == SClosing(0);
      case SAwaitClose => assert st'.s.pc == SDone;
    }
  }

  lemma ClientFalls(cfg: Config, st: State)
    requires ValidConfig(cfg) && Inv(cfg, st) && ClientNext(cfg, st).Some?
    ensures ControlRank(cfg, ClientNext(cfg, st).value) < ControlRank(cfg, st)
  {
    if st.c.pc in {CConnect, CParams, CEndWrite, CResultsWrite, CDisplay} {
      ClientPutFalls(cfg, st);
    } else if st.c.pc in {CLoop, CResultsRead, CAck} {
      ClientTakeIs(cfg, st);
      ClientTakeFalls(cfg, st);
    } else if st.c.pc.COpening? {
      OpeningFalls(cfg, st);
    } else if st.c.pc.CSnap? {
      SnapFalls(cfg, st.c, st.links, st.c.pc.final);
    } else {
      ClientLocalAdvances(cfg, st);
      ClientAdvanceFalls(cfg, st.c, ClientLocal(cfg, st).value.c.pc);
    }
  }

  lemma ServerFalls(cfg: Config, st: State)
    requires ValidConfig(cfg) && Inv(cfg, st) && ServerNext(cfg, st).Some?
    ensures ControlRank(cfg, ServerNext(cfg, st).value) < ControlRank(cfg, st)
  {
    if ServerWrites(st.s.pc) {
      ServerPutFalls(cfg, st);
    } else if ServerReads(st.s.pc) {
      ServerReadFalls(cfg, st);
    } else {
      ServerLocalFalls(cfg, st);
    }
  }

  lemma ServerReadFalls(cfg: Config, st: State)
    requires ValidConfig(cfg) && QueuesInv(cfg, st.c, st.s, st.toS, st.toC) && ServerReads(st.s.pc) && st.toS != []
    ensures ControlRank(cfg, ServerTake(cfg, st)) < ControlRank(cfg, st)
  {
    ServerMeets(cfg, st);
    ServerTakeFalls(cfg, st.s.pc);
    assert ServerWork(cfg, ServerTake(cfg, st).s, |st.added|) < UNIT;
  }

  lemma ServerLocalFalls(cfg: Config, st: State)
    requires ValidConfig(cfg) && Inv(cfg, st) && ServerLocal(cfg, st).Some?
    requires !ServerWrites(st.s.pc) && !ServerReads(st.s.pc)
    ensures ControlRank(cfg, ServerLocal(cfg, st).value) < ControlRank(cfg, st)
  {
    if st.s.pc.SCollect? {
      CollectFalls(cfg, st);
    } else if st.s.pc.SMarkers? || st.s.pc.SClosing? {
      ServerLoopFalls(cfg, st);
    } else if st.s.pc.SSnap? {
      ServerSnapFalls(cfg, st);
    } else {
      ServerPointFalls(cfg, st);
    }
  }

  /** A measure falls at every control step, and no data move changes it. */
  lemma ControlFalls(cfg: Config, st: State, move: Label)
    requires ValidConfig(cfg) && Inv(cfg, st) && Next(cfg, st, move).Some?
    ensures
      var r, r' := ControlRank(cfg, st), ControlRank(cfg, Next(cfg, st, move).value);
      if move.Task? then r' == r else r' < r
  {
    match move {
      case ClientStep => ClientFalls(cfg, st);
      case DurationTimer => TimerFalls(cfg, st);
      case ServerStep => ServerFalls(cfg, st);
      case Accept(i) =>
        SlotIsFree(cfg, CtlOf(st), |st.links|, st.pending, st.claimed, i);
        assert |st.pending - {i}| == |st.pending| - 1;
      case Task(i, m) =>
    }
  }

  // ----- the data measure -----

  ghost function DataRank(cfg: Config, links: seq<Link>): nat {
    if links == [] then 0 else DataRank(cfg, links[..|links| - 1]) + LinkRank(cfg, links[|links| - 1])
  }

  lemma {:induction false} DataRankUpdate(cfg: Config, links: seq<Link>, i: nat, l: Link)
    requires i < |links|
    ensures DataRank(cfg, links[i := l]) + LinkRank(cfg, links[i]) == DataRank(cfg, links) + LinkRank(cfg, l)
  {
    var n := |links| - 1;
    if i == n {
      assert links[i := l][..n] == links[..n];
    } else {
      assert links[i := l][..n] == links[..n][i := l];
      DataRankUpdate(cfg, links[..n], i, l);
    }
  }

  /** After the stop no stream is opened, added or started. */
  lemma StoppedPlace(cfg: Config, st: State)
    requires Inv(cfg, st) && st.stopTx
    ensures !st.c.pc.COpening? && (st.c.got == 3 ==> cfg.reverse)
    ensures !st.s.pc.SCollect? && (st.s.pc.SSpawn? ==> !cfg.reverse)
  {
  }

  /** Streams that differ at most in their end-of-stream and closed flags. */
  ghost predicate SameWork(links: seq<Link>, links': seq<Link>) {
    |links'| == |links| && forall i :: 0 <= i < |links| ==>
      links'[i] == links[i].(fin := links'[i].fin, closed := links'[i].closed)
  }

  lemma {:induction false} SameWorkSameRank(cfg: Config, links: seq<Link>, links': seq<Link>)
    requires SameWork(links, links')
    ensures DataRank(cfg, links') == DataRank(cfg, links)
  {
    if links != [] { SameWorkSameRank(cfg, links[..|links| - 1], links'[..|links| - 1]); }
  }

  /** A control step after the stop leaves the streams' own work as it is. */
  lemma ClientKeepsWork(cfg: Config, st: State)
    requires st.stopTx && !st.c.pc.COpening? && ClientLocal(cfg, st).Some?
    ensures var st' := ClientLocal(cfg, st).value; SameWork(st.links, st'.links) && st'.stopTx
  {
  }

  lemma ServerMarkKeepsWork(st: State, k: nat)
    requires ServerMark(st, k).Some?
    ensures var st' := ServerMark(st, k).value; SameWork(st.links, st'.links) && st'.stopTx == st.stopTx
  {
  }

  lemma ServerCloseKeepsWork(cfg: Config, st: State, k: nat)
    requires ServerClose(cfg, st, k).Some?
    ensures var st' := ServerClose(cfg, st, k).value; SameWork(st.links, st'.links) && st'.stopTx == st.stopTx
  {
  }

  lemma ServerPointKeepsLinks(cfg: Config, st: State)
    requires st.s.pc in {SSpawn, SStop, SJoin, SDrain, SSnap, SAwaitClose} && (st.s.pc.SSpawn? ==> !cfg.reverse)
    requires ServerLocal(cfg, st).Some?
    ensures var st' := ServerLocal(cfg, st).value; st'.links == st.links && (st.stopTx ==> st'.stopTx)
  {
  }

  lemma ServerKeepsWork(cfg: Config, st: State)
    requires st.stopTx && !st.s.pc.SCollect? && (st.s.pc.SSpawn? ==> !cfg.reverse) && ServerLocal(cfg, st).Some?
    ensures var st' := ServerLocal(cfg, st).value; SameWork(st.links, st'.links) && st'.stopTx
  {
    if st.s.pc.SMarkers? {
      ServerMarkKeepsWork(st, st.s.pc.next);
    } else if st.s.pc.SClosing? {
      ServerCloseKeepsWork(cfg, st, st.s.pc.at);
    } else {
      ServerPointKeepsLinks(cfg, st);
    }
  }

  lemma ClientStepKeepsWork(cfg: Config, st: State)
    requires QueuesInv(cfg, st.c, st.s, st.toS, st.toC) && ClientInv(cfg, st.c) && ClientNext(cfg, st).Some?
    requires st.stopTx && !st.c.pc.COpening? && (st.c.got == 3 ==> cfg.reverse)
    ensures var st' := ClientNext(cfg, st).value; SameWork(st.links, st'.links) && st'.stopTx
  {
    if st.c.pc in {CLoop, CResultsRead, CAck} {
      ClientTakeIs(cfg, st);
    } else if st.c.pc !in {CConnect, CParams, CEndWrite, CResultsWrite, CDisplay} {
      ClientKeepsWork(cfg, st);
    }
  }

  lemma ServerStepKeepsWork(cfg: Config, st: State)
    requires st.stopTx && !st.s.pc.SCollect? && (st.s.pc.SSpawn? ==> !cfg.reverse) && ServerNext(cfg, st).Some?
    ensures var st' := ServerNext(cfg, st).value; SameWork(st.links, st'.links) && st'.stopTx
  {
    if !ServerWrites(st.s.pc) && !ServerReads(st.s.pc) { ServerKeepsWork(cfg, st); }
  }

  lemma ControlKeepsWork(cfg: Config, st: State, move: Label)
    requires Inv(cfg, st) && st.stopTx && Next(cfg, st, move).Some? && !move.Task?
    ensures var st' := Next(cfg, st, move).value; SameWork(st.links, st'.links) && st'.stopTx
  {
    StoppedPlace(cfg, st);
    match move {
      case ClientStep => ClientStepKeepsWork(cfg, st);
      case ServerStep => ServerStepKeepsWork(cfg, st);
      case _ =>
    }
  }

  ghost function TotalRank(cfg: Config, st: State): nat { ControlRank(cfg, st) + DataRank(cfg, st.links) }

  /** Once the senders are told to stop, every step of either kind falls. */
  lemma StoppedFalls(cfg: Config, st: State, move: Label)
    requires ValidConfig(cfg) && Inv(cfg, st) && st.stopTx && Next(cfg, st, move).Some?
    ensures
      var st' := Next(cfg, st, move).value;
      st'.stopTx && TotalRank(cfg, st') < TotalRank(cfg, st)
  {
    ControlFalls(cfg, st, move);
    var st' := Next(cfg, st, move).value;
    if move.Task? {
      var i := move.i;
      assert LinkInv(cfg, CtlOf(st), i, st.links[i]);
      LinkRankFalls(cfg, st.stopRx, st.links[i], move.m);
      DataRankUpdate(cfg, st.links, i, st'.links[i]);
    } else {
      ControlKeepsWork(cfg, st, move);
      SameWorkSameRank(cfg, st.links, st'.links);
    }
  }

  // ----- no deadlock -----

  lemma ClientCanJoin(cfg: Config, st: State) returns (move: Label)
    requires ValidConfig(cfg) && Inv(cfg, st) && st.c.pc.CJoin? && !AllTxEnded(st.links)
    ensures st.stopTx && Next(cfg, st, move).Some?
  {
    var i :| 0 <= i < |st.links| && !st.links[i].tx.TxEnded?;
    assert LinkInv(cfg, CtlOf(st), i, st.links[i]);
    AllAdded(cfg, st, i);
    var m := StoppedSenderMoves(cfg, st.stopRx, st.links[i]);
    move := Task(i, m);
  }

  lemma ClientCanClose(cfg: Config, st: State) returns (move: Label)
    requires ValidConfig(cfg) && Inv(cfg, st) && st.c.pc.CClosing? && ClientNext(cfg, st).None?
    ensures st.stopTx && Next(cfg, st, move).Some?
  {
    var k := st.c.pc.at;
    assert LinkInv(cfg, CtlOf(st), k, st.links[k]);
    move := Task(k, TxCancel);
  }

  lemma ClientCanDrain(cfg: Config, st: State) returns (move: Label)
    requires ValidConfig(cfg) && Inv(cfg, st) && st.c.pc.CDrain? && !AllRxEnded(st.links)
    ensures st.stopTx && Next(cfg, st, move).Some?
  {
    var i :| 0 <= i < |st.links| && !st.links[i].rx.RxEnded?;
    assert LinkInv(cfg, CtlOf(st), i, st.links[i]);
    var m := FinishedReceiverMoves(cfg, st.stopTx, st.stopRx, st.links[i]);
    move := Task(i, m);
  }

  lemma ServerCanCollect(cfg: Config, st: State) returns (move: Label)
    requires ValidConfig(cfg) && Inv(cfg, st) && st.s.pc.SCollect? && ServerNext(cfg, st).None?
    requires st.c.pc.CLoop? && st.c.got == 2
    ensures Next(cfg, st, move).Some? && !move.Task?
  {
    assert |st.links| == cfg.parallel;
    assert |st.added| !in st.added || cfg.transport != WebRtc;
    assert st.pending != {};
    var i :| i in st.pending;
    move := Accept(i);
  }

  lemma ServerCanJoin(cfg: Config, st: State) returns (move: Label)
    requires ValidConfig(cfg) && Inv(cfg, st) && st.s.pc.SJoin? && !AllTxEnded(st.links)
    ensures st.stopTx && Next(cfg, st, move).Some?
  {
    var i :| 0 <= i < |st.links| && !st.links[i].tx.TxEnded?;
    assert LinkInv(cfg, CtlOf(st), i, st.links[i]);
    var m := StoppedSenderMoves(cfg, st.stopRx, st.links[i]);
    move := Task(i, m);
  }

  lemma ServerCanDrain(cfg: Config, st: State) returns (move: Label)
    requires ValidConfig(cfg) && Inv(cfg, st) && st.s.pc.SDrain? && !AllRxEnded(st.links) && st.c.pc.CLoop?
    ensures st.stopTx && Next(cfg, st, move).Some?
  {
    var i :| 0 <= i < |st.links| && !st.links[i].rx.RxEnded?;
    assert LinkInv(cfg, CtlOf(st), i, st.links[i]);
    AllAdded(cfg, st, i);
    var m := FinishedReceiverMoves(cfg, st.stopTx, st.stopRx, st.links[i]);
    move := Task(i, m);
  }

  lemma ServerCanClose(cfg: Config, st: State) returns (move: Label)
    requires ValidConfig(cfg) && Inv(cfg, st) && st.s.pc.SClosing? && ServerNext(cfg, st).None?
    ensures st.stopTx && Next(cfg, st, move).Some?
  {
    var k := st.s.pc.at;
    var i := st.added[k];
    assert i in st.added;
    assert LinkInv(cfg, CtlOf(st), i, st.links[i]);
    move := Task(i, if cfg.reverse then TxCancel else RxCancel);
  }

  lemma ServerCanMark(cfg: Config, st: State)
    requires Inv(cfg, st) && st.s.pc.SMarkers?
    ensures ServerNext(cfg, st).Some?
  {
    var k := st.s.pc.next;
    if k < |st.added| {
      var i := st.added[k];
      assert i in st.added;
      assert LinkInv(cfg, CtlOf(st), i, st.links[i]);
    }
  }

  lemma ClientCanMark(cfg: Config, st: State)
    requires Inv(cfg, st) && st.c.pc.CMarkers?
    ensures ClientNext(cfg, st).Some?
  {
    var k := st.c.pc.next;
    if k < |st.links| { assert LinkInv(cfg, CtlOf(st), k, st.links[k]); }
  }
}
