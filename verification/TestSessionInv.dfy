/** The invariant of the two-party test protocol, and its preservation by every step. */
module TestSessionInv {
  import opened Sequences
  import opened Wire
  import opened DataPlane
  import opened TestSession

  /** Position of a server state in its fixed order. */
  function At(pc: ServerPc): nat {
    match pc
    case SCookie => 0
    case SParamsWrite => 1
    case SParamsRead => 2
    case SCreateWrite => 3
    case SCollect => 4
    case SStartWrite => 5
    case SRunningWrite => 6
    case SSpawn => 7
    case SWaitEnd => 8
    case SStop => 9
    case SJoin => 10
    case SMarkers(_) => 11
    case SDrain => 12
    case SClosing(_) => 13
    case SExchangeWrite => 14
    case SResultsRead => 15
    case SSnap => 16
    case SResultsWrite => 17
    case SDisplayWrite => 18
    case SDoneRead => 19
    case SAckWrite => 20
    case SAwaitClose => 21
    case SDone => 22
    case SFailed => 23
  }

  /** Control messages the server has read at a position. */
  function ServerGot(pc: ServerPc): nat {
    var r := At(pc);
    if r == 0 then 0 else if r <= 2 then 1 else if r <= 8 then 2 else if r <= 15 then 3 else if r <= 19 then 4 else 5
  }

  /** Control messages the server has written at a position. */
  function ServerSent(cfg: Config, pc: ServerPc): nat {
    var r := At(pc);
    if r <= 1 then 0 else if r <= 3 then 1 else if r <= 5 then 2 else if r == 6 then 3 else if r <= 14 then 4
    else if r <= 17 then 5 else if r == 18 then 6 else if r <= 20 then 7 else if r == 21 then 8
    else if cfg.transport == WebRtc then 8 else 7
  }

  /** The whole conversation, one script for each direction. */
  function ClientScript(c: Client): seq<Msg> {
    [Cookie, Params, St(TEST_END), Results(c.report), St(IPERF_DONE)]
  }

  function ServerScript(s: Server): seq<Msg> {
    [St(PARAM_EXCHANGE), St(CREATE_STREAMS), St(TEST_START), St(TEST_RUNNING),
     St(EXCHANGE_RESULTS), Results(s.rows), St(DISPLAY_RESULTS), St(IPERF_DONE)]
  }

  /** A queue is exactly the part of its script written but not yet read. */
  ghost predicate QueueInv(q: seq<Msg>, script: seq<Msg>, got: nat, put: nat) {
    got <= put <= |script| && q == script[got..put]
  }

  lemma QueuePut(q: seq<Msg>, script: seq<Msg>, got: nat, put: nat)
    requires QueueInv(q, script, got, put) && put < |script|
    ensures QueueInv(q + [script[put]], script, got, put + 1)
  {
  }

  lemma QueueTake(q: seq<Msg>, script: seq<Msg>, got: nat, put: nat)
    requires QueueInv(q, script, got, put) && q != []
    ensures q[0] == script[got] && QueueInv(q[1..], script, got + 1, put)
  {
  }

  ghost predicate QueuesInv(cfg: Config, c: Client, s: Server, toS: seq<Msg>, toC: seq<Msg>) {
    && QueueInv(toS, ClientScript(c), ServerGot(s.pc), c.put)
    && QueueInv(toC, ServerScript(s), c.got, ServerSent(cfg, s.pc))
  }

  ghost predicate ClientInv(cfg: Config, c: Client) {
    && (c.running <==> c.pc.CLoop? && c.got == 4 && c.put == 2)
    && (c.ended <==> c.put >= 3 || c.pc.CJoin? || c.pc.CMarkers? || c.pc.CEndWrite?)
    && (c.remote.Some? <==> c.got >= 6)
    && match c.pc
       case CConnect => c.got == 0 && c.put == 0
       case CLoop =>
         || (c.got == 0 && c.put == 1)
         || (1 <= c.got <= 4 && c.put == 2)
         || (c.got == 4 && c.put == 3)
         || (c.got == 6 && c.put == 4)
       case CParams => c.got == 1 && c.put == 1
       case COpening(left) => c.got == 2 && c.put == 2 && left <= cfg.parallel
       case CJoin => c.got == 4 && c.put == 2 && cfg.transport == WebRtc && !cfg.reverse
       case CMarkers(k) => c.got == 4 && c.put == 2 && cfg.transport == WebRtc && !cfg.reverse && k <= cfg.parallel
       case CEndWrite => c.got == 4 && c.put == 2
       case CClosing(k) => c.got == 4 && c.put == 3 && !cfg.reverse && k <= cfg.parallel
       case CDrain => c.got == 5 && c.put == 3 && cfg.reverse && Drains(cfg)
       case CSnap(final) =>
         if final then c.put == 5 && c.got == (if cfg.transport == WebRtc then 8 else 7)
         else c.got == 5 && c.put == 3
       case CResultsWrite => c.got == 5 && c.put == 3
       case CResultsRead => c.got == 5 && c.put == 4
       case CDisplay => c.got == 7 && c.put == 4
       case CAck => c.got == 7 && c.put == 5 && cfg.transport == WebRtc
       case CDone => c.put == 5 && c.got == (if cfg.transport == WebRtc then 8 else 7)
       case CFailed => false
  }

  ghost predicate ServerInv(cfg: Config, s: Server) {
    && (s.awaiting <==> s.pc.SCreateWrite? || s.pc.SCollect?)
    && match s.pc
       case SJoin => cfg.transport == WebRtc && cfg.reverse
       case SMarkers(k) => cfg.transport == WebRtc && cfg.reverse && k <= cfg.parallel
       case SDrain => Drains(cfg) && !cfg.reverse
       case SClosing(k) => k <= cfg.parallel
       case SAckWrite => cfg.transport == WebRtc
       case SAwaitClose => cfg.transport == WebRtc
       case SFailed => false
       case _ => true
  }

  /** The control state that the streams' invariants refer to. */
  datatype Ctl = Ctl(c: Client, s: Server, added: seq<nat>, stopTx: bool, stopRx: bool)

  function CtlOf(st: State): Ctl { Ctl(st.c, st.s, st.added, st.stopTx, st.stopRx) }

  ghost predicate FlagsInv(cfg: Config, x: Ctl) {
    && (x.stopTx <==> if cfg.reverse then At(x.s.pc) > 9
                      else x.c.put >= 3 || x.c.pc.CJoin? || x.c.pc.CMarkers?
                           || (x.c.pc.CEndWrite? && cfg.transport == WebRtc))
    && (x.stopRx <==> !cfg.reverse && !Drains(cfg) && At(x.s.pc) > 9)
    && (x.c.remote.Some? ==> x.c.remote.value == x.s.rows)
  }

  function Opened(cfg: Config, c: Client): int {
    if c.pc.COpening? then cfg.parallel - c.pc.left else if c.got >= 2 then cfg.parallel else 0
  }

  /** Every opened stream is in exactly one place on its way into the server's list. */
  ghost predicate StreamsInv(cfg: Config, x: Ctl, n: nat, pending: set<nat>, claimed: seq<nat>) {
    && n == Opened(cfg, x.c)
    && |pending| + |claimed| + |x.added| == n
    && NoDuplicates(x.added + claimed)
    && (forall i :: i in pending ==> 0 <= i < n && i !in x.added && i !in claimed)
    && (forall i :: i in claimed ==> 0 <= i < n)
    && (forall i :: i in x.added ==> 0 <= i < n)
    && (forall i :: 0 <= i < n ==> i in pending || i in claimed || i in x.added)
    && (x.s.awaiting && cfg.transport != WebRtc ==> x.s.slots + |claimed| + |x.added| == cfg.parallel)
    && (At(x.s.pc) >= 5 ==> |x.added| == cfg.parallel)
    && (cfg.transport == WebRtc ==> claimed == [] && forall k :: 0 <= k < |x.added| ==> x.added[k] == k)
  }

  predicate TxSpawned(cfg: Config, x: Ctl) { if cfg.reverse then At(x.s.pc) > 7 else x.c.got >= 4 }

  predicate TxJoined(cfg: Config, x: Ctl) {
    && cfg.transport == WebRtc
    && if cfg.reverse then At(x.s.pc) > 10 else x.c.pc.CMarkers? || x.c.pc.CEndWrite? || x.c.put >= 3
  }

  predicate MarkerSent(cfg: Config, x: Ctl, i: nat) {
    && cfg.transport == WebRtc
    && if cfg.reverse then
         At(x.s.pc) > 11 || (x.s.pc.SMarkers? && x.s.pc.next <= |x.added| && i in x.added[..x.s.pc.next])
       else x.c.put >= 3 || x.c.pc.CEndWrite? || (x.c.pc.CMarkers? && i < x.c.pc.next)
  }

  predicate SenderClosed(cfg: Config, x: Ctl, i: nat) {
    if cfg.reverse then
      At(x.s.pc) > 13 || (x.s.pc.SClosing? && x.s.pc.at <= |x.added| && i in x.added[..x.s.pc.at])
    else x.c.put >= 3 && (x.c.pc.CClosing? ==> i < x.c.pc.at)
  }

  predicate ReceiverJoined(cfg: Config, x: Ctl) {
    Drains(cfg) && if cfg.reverse then x.c.got >= 5 && !x.c.pc.CDrain? else At(x.s.pc) > 12
  }

  ghost predicate LinkInv(cfg: Config, x: Ctl, i: nat, l: Link) {
    && LinkOk(cfg, x.stopTx, x.stopRx, l)
    && (l.tx.TxAbsent? <==> !TxSpawned(cfg, x))
    && (l.rx.RxAbsent? <==> !cfg.reverse && i !in x.added)
    && (TxJoined(cfg, x) ==> l.tx.TxEnded?)
    && (MarkerSent(cfg, x, i) ==> l.fin)
    && (SenderClosed(cfg, x, i) ==> l.closed)
    && (ReceiverJoined(cfg, x) ==> Drained(l))
  }

  ghost predicate LinksInv(cfg: Config, x: Ctl, links: seq<Link>) {
    forall i :: 0 <= i < |links| ==> LinkInv(cfg, x, i, links[i])
  }

  /** What a row taken from the sending (receiving) side says about its stream, from then on. */
  ghost predicate TxRow(cfg: Config, b: nat, l: Link) {
    Sealed(l) && b <= l.sent <= b + cfg.len && (cfg.transport == WebRtc ==> b == l.sent)
  }

  ghost predicate RxRow(cfg: Config, b: nat, l: Link) {
    b <= l.sent && (Drains(cfg) ==> Sealed(l) && b == l.sent)
  }

  ghost predicate Row(cfg: Config, sending: bool, b: nat, l: Link) {
    if sending then TxRow(cfg, b, l) else RxRow(cfg, b, l)
  }

  ghost predicate ClientRows(cfg: Config, links: seq<Link>, rows: seq<StreamResult>) {
    && |rows| <= |links|
    && forall k {:trigger rows[k]} :: 0 <= k < |rows| ==>
         rows[k].id == NextStreamId(k) && Row(cfg, !cfg.reverse, rows[k].bytes, links[k])
  }

  ghost predicate ServerRows(cfg: Config, links: seq<Link>, added: seq<nat>, rows: seq<StreamResult>) {
    && |rows| <= |added|
    && forall k {:trigger rows[k]} :: 0 <= k < |rows| ==>
         && rows[k].id == NextStreamId(k)
         && added[k] < |links|
         && Row(cfg, cfg.reverse, rows[k].bytes, links[added[k]])
  }

  ghost predicate RowsInv(cfg: Config, x: Ctl, links: seq<Link>) {
    && ClientRows(cfg, links, x.c.report)
    && ClientRows(cfg, links, x.c.local)
    && ServerRows(cfg, links, x.added, x.s.rows)
    && (x.c.pc.CResultsWrite? || x.c.put >= 4 ==> |x.c.report| == |links|)
    && (x.c.pc.CDone? ==> |x.c.local| == |links|)
    && (At(x.s.pc) < 16 ==> x.s.rows == [])
    && (At(x.s.pc) > 16 ==> |x.s.rows| == |x.added|)
  }

  ghost predicate Inv(cfg: Config, st: State) {
    && QueuesInv(cfg, st.c, st.s, st.toS, st.toC)
    && ClientInv(cfg, st.c)
    && ServerInv(cfg, st.s)
    && FlagsInv(cfg, CtlOf(st))
    && !st.denied
    && StreamsInv(cfg, CtlOf(st), |st.links|, st.pending, st.claimed)
    && LinksInv(cfg, CtlOf(st), st.links)
    && RowsInv(cfg, CtlOf(st), st.links)
  }

  lemma InitInv(cfg: Config)
    requires ValidConfig(cfg)
    ensures Inv(cfg, Init())
  {
    var st := Init();
    assert QueueInv(st.toS, ClientScript(st.c), 0, 0);
    assert QueueInv(st.toC, ServerScript(st.s), 0, 0);
    assert RowsInv(cfg, CtlOf(st), st.links);
  }

  // ----- task moves -----

  /** Rows stay true while streams only move forward. */
  ghost predicate Advances(l: Link, l': Link) {
    l.sent <= l'.sent && (Sealed(l) ==> Sealed(l') && l'.sent == l.sent)
  }

  ghost predicate AllAdvance(links: seq<Link>, links': seq<Link>) {
    |links| <= |links'| && forall k :: 0 <= k < |links| ==> Advances(links[k], links'[k])
  }

  lemma RowsSurvive(cfg: Config, x: Ctl, links: seq<Link>, added': seq<nat>, links': seq<Link>)
    requires ClientRows(cfg, links, x.c.report) && ClientRows(cfg, links, x.c.local)
    requires ServerRows(cfg, links, x.added, x.s.rows)
    requires AllAdvance(links, links') && x.added <= added'
    ensures ClientRows(cfg, links', x.c.report) && ClientRows(cfg, links', x.c.local)
    ensures ServerRows(cfg, links', added', x.s.rows)
  {
    assert forall k :: 0 <= k < |x.added| ==> added'[k] == x.added[k];
    forall k | 0 <= k < |x.s.rows| ensures added'[k] == x.added[k] < |links| { var row := x.s.rows[k]; }
  }

  lemma TaskKeepsInv(cfg: Config, st: State, i: nat, m: Move)
    requires ValidConfig(cfg) && Inv(cfg, st)
    requires Next(cfg, st, Task(i, m)).Some?
    ensures Inv(cfg, Next(cfg, st, Task(i, m)).value)
  {
    var st' := Next(cfg, st, Task(i, m)).value;
    var x := CtlOf(st);
    assert CtlOf(st') == x;
    LinkStepOk(cfg, st.stopTx, st.stopRx, st.links[i], m);
    assert LinkInv(cfg, x, i, st.links[i]);
    assert LinkInv(cfg, x, i, st'.links[i]);
    assert LinksInv(cfg, x, st'.links);
    RowsSurvive(cfg, x, st.links, st.added, st'.links);
  }

  // ----- control messages -----

  /** Client and server positions and the stop flags. */
  ghost predicate PlaceInv(cfg: Config, x: Ctl) {
    ClientInv(cfg, x.c) && ServerInv(cfg, x.s) && FlagsInv(cfg, x)
  }

  lemma ClientPutQueues(cfg: Config, st: State)
    requires QueuesInv(cfg, st.c, st.s, st.toS, st.toC) && ClientInv(cfg, st.c)
    requires st.c.pc in {CConnect, CParams, CEndWrite, CResultsWrite, CDisplay}
    ensures var st' := ClientPut(cfg, st); QueuesInv(cfg, st'.c, st'.s, st'.toS, st'.toC)
  {
    assert ClientMessage(st.c) == ClientScript(st.c)[st.c.put];
    QueuePut(st.toS, ClientScript(st.c), ServerGot(st.s.pc), st.c.put);
  }

  lemma ClientPutPlace(cfg: Config, st: State)
    requires PlaceInv(cfg, CtlOf(st))
    requires st.c.pc in {CConnect, CParams, CEndWrite, CResultsWrite, CDisplay}
    ensures PlaceInv(cfg, CtlOf(ClientPut(cfg, st)))
  {
  }

  /** Every read of the client meets the message its position calls for. */
  lemma ClientMeets(cfg: Config, st: State)
    requires QueuesInv(cfg, st.c, st.s, st.toS, st.toC) && ClientInv(cfg, st.c)
    requires st.toC != [] && st.c.pc in {CLoop, CResultsRead, CAck}
    ensures st.c.got < 8 && st.toC[0] == ServerScript(st.s)[st.c.got]
    ensures st.c.pc.CLoop? ==> (st.c.got == 0 && st.c.put == 1) || (1 <= st.c.got <= 3 && st.c.put == 2)
                               || (st.c.got == 4 && st.c.put == 3) || (st.c.got == 6 && st.c.put == 4)
  {
    QueueTake(st.toC, ServerScript(st.s), st.c.got, ServerSent(cfg, st.s.pc));
  }

  /** The client after it has read the next message of the script. */
  function TakenClient(cfg: Config, c: Client, rows: seq<StreamResult>): Client {
    var c1 := c.(got := c.got + 1);
    if c.pc.CResultsRead? then c1.(pc := CLoop, remote := Some(rows))
    else if c.pc.CAck? then c1.(pc := CSnap(true))
    else if c.got == 0 then c1.(pc := CParams)
    else if c.got == 1 then c1.(pc := COpening(cfg.parallel))
    else if c.got == 2 then c1
    else if c.got == 3 then c1.(running := true)
    else if c.got == 4 then c1.(pc := if cfg.reverse && Drains(cfg) then CDrain else CSnap(false))
    else c1.(pc := CDisplay)
  }

  /** A read moves the client along the script, and with TEST_RUNNING starts the senders; nothing else changes. */
  lemma ClientTakeIs(cfg: Config, st: State)
    requires QueuesInv(cfg, st.c, st.s, st.toS, st.toC) && ClientInv(cfg, st.c)
    requires st.toC != [] && st.c.pc in {CLoop, CResultsRead, CAck}
    ensures ClientTake(cfg, st) == st.(
              toC := st.toC[1..], c := TakenClient(cfg, st.c, st.s.rows),
              links := if st.c.got == 3 && !cfg.reverse then SpawnSenders(st.links) else st.links)
  {
    ClientMeets(cfg, st);
  }

  lemma ClientTakeQueues(cfg: Config, st: State)
    requires QueuesInv(cfg, st.c, st.s, st.toS, st.toC) && ClientInv(cfg, st.c)
    requires st.toC != [] && st.c.pc in {CLoop, CResultsRead, CAck}
    ensures var st' := ClientTake(cfg, st); QueuesInv(cfg, st'.c, st'.s, st'.toS, st'.toC)
  {
    QueueTake(st.toC, ServerScript(st.s), st.c.got, ServerSent(cfg, st.s.pc));
    ClientTakeIs(cfg, st);
  }

  lemma TakenClientInv(cfg: Config, c: Client, rows: seq<StreamResult>)
    requires ClientInv(cfg, c) && c.pc in {CLoop, CResultsRead, CAck}
    requires c.pc.CLoop? ==> (c.got == 0 && c.put == 1) || (1 <= c.got <= 3 && c.put == 2)
                             || (c.got == 4 && c.put == 3) || (c.got == 6 && c.put == 4)
    ensures
      var c' := TakenClient(cfg, c, rows);
      && ClientInv(cfg, c')
      && c'.put == c.put && c'.report == c.report && c'.local == c.local && Opened(cfg, c') == Opened(cfg, c)
      && c'.pc !in {CResultsWrite, CDone, CJoin, CEndWrite} && !c'.pc.CMarkers? && !c'.pc.CClosing?
  {
  }

  lemma ClientTakePlace(cfg: Config, st: State)
    requires PlaceInv(cfg, CtlOf(st)) && QueuesInv(cfg, st.c, st.s, st.toS, st.toC)
    requires st.toC != [] && st.c.pc in {CLoop, CResultsRead, CAck}
    ensures PlaceInv(cfg, CtlOf(ClientTake(cfg, st)))
  {
    ClientMeets(cfg, st);
    ClientTakeIs(cfg, st);
    TakenClientInv(cfg, st.c, st.s.rows);
  }

  lemma ServerSaysScript(cfg: Config, s: Server)
    requires ServerInv(cfg, s) && ServerWrites(s.pc)
    ensures ServerSent(cfg, s.pc) < 8 && ServerMessage(s) == ServerScript(s)[ServerSent(cfg, s.pc)]
    ensures ServerSent(cfg, AfterServerMessage(s.pc)) == ServerSent(cfg, s.pc) + 1
    ensures ServerGot(AfterServerMessage(s.pc)) == ServerGot(s.pc)
  {
  }

  lemma ServerPutQueues(cfg: Config, st: State)
    requires QueuesInv(cfg, st.c, st.s, st.toS, st.toC) && ServerInv(cfg, st.s) && ServerWrites(st.s.pc)
    ensures var st' := ServerPut(cfg, st); QueuesInv(cfg, st'.c, st'.s, st'.toS, st'.toC)
  {
    ServerSaysScript(cfg, st.s);
    QueuePut(st.toC, ServerScript(st.s), st.c.got, ServerSent(cfg, st.s.pc));
  }

  lemma ServerPutPlace(cfg: Config, st: State)
    requires PlaceInv(cfg, CtlOf(st)) && ServerWrites(st.s.pc)
    ensures PlaceInv(cfg, CtlOf(ServerPut(cfg, st)))
  {
  }

  /** Every read of the server meets the message its position calls for. */
  lemma ServerMeets(cfg: Config, st: State)
    requires QueuesInv(cfg, st.c, st.s, st.toS, st.toC) && ServerReads(st.s.pc) && st.toS != []
    ensures ServerAccepts(st.s.pc, st.toS[0])
    ensures QueueInv(st.toS[1..], ClientScript(st.c), ServerGot(st.s.pc) + 1, st.c.put)
  {
    QueueTake(st.toS, ClientScript(st.c), ServerGot(st.s.pc), st.c.put);
  }

  lemma ServerTakeQueues(cfg: Config, st: State)
    requires QueuesInv(cfg, st.c, st.s, st.toS, st.toC) && ServerInv(cfg, st.s)
    requires ServerReads(st.s.pc) && st.toS != []
    ensures var st' := ServerTake(cfg, st); QueuesInv(cfg, st'.c, st'.s, st'.toS, st'.toC)
  {
    ServerMeets(cfg, st);
  }

  lemma ServerTakePlace(cfg: Config, st: State)
    requires PlaceInv(cfg, CtlOf(st)) && QueuesInv(cfg, st.c, st.s, st.toS, st.toC)
    requires ServerReads(st.s.pc) && st.toS != []
    ensures PlaceInv(cfg, CtlOf(ServerTake(cfg, st)))
  {
    ServerMeets(cfg, st);
  }

  // ----- streams across control messages -----

  /** From x to x', nothing new is claimed of any stream. */
  ghost predicate NoNewClaim(cfg: Config, x: Ctl, x': Ctl) {
    && x'.added == x.added
    && (x.stopTx ==> x'.stopTx) && (x.stopRx ==> x'.stopRx)
    && TxSpawned(cfg, x') == TxSpawned(cfg, x)
    && (TxJoined(cfg, x') ==> TxJoined(cfg, x))
    && (forall i: nat :: MarkerSent(cfg, x', i) ==> MarkerSent(cfg, x, i))
    && (forall i: nat :: SenderClosed(cfg, x', i) ==> SenderClosed(cfg, x, i))
    && (ReceiverJoined(cfg, x') ==> ReceiverJoined(cfg, x))
  }

  lemma LinksCarry(cfg: Config, x: Ctl, x': Ctl, links: seq<Link>)
    requires LinksInv(cfg, x, links) && NoNewClaim(cfg, x, x')
    ensures LinksInv(cfg, x', links)
  {
    forall i | 0 <= i < |links| ensures LinkInv(cfg, x', i, links[i]) {
      assert LinkInv(cfg, x, i, links[i]);
    }
  }

  lemma ClientPutClaims(cfg: Config, st: State)
    requires PlaceInv(cfg, CtlOf(st))
    requires st.c.pc in {CConnect, CParams, CEndWrite, CResultsWrite, CDisplay}
    ensures NoNewClaim(cfg, CtlOf(st), CtlOf(ClientPut(cfg, st)))
  {
  }

  lemma ServerPutClaims(cfg: Config, st: State)
    requires ServerWrites(st.s.pc)
    ensures NoNewClaim(cfg, CtlOf(st), CtlOf(ServerPut(cfg, st)))
  {
  }

  lemma ServerTakeClaims(cfg: Config, st: State)
    requires QueuesInv(cfg, st.c, st.s, st.toS, st.toC) && ServerReads(st.s.pc) && st.toS != []
    ensures NoNewClaim(cfg, CtlOf(st), CtlOf(ServerTake(cfg, st)))
  {
    ServerMeets(cfg, st);
  }

  lemma TakenClaims(cfg: Config, x: Ctl, rows: seq<StreamResult>)
    requires ClientInv(cfg, x.c) && x.c.pc in {CLoop, CResultsRead, CAck}
    requires x.c.pc.CLoop? ==> (x.c.got == 0 && x.c.put == 1) || (1 <= x.c.got <= 3 && x.c.put == 2)
                               || (x.c.got == 4 && x.c.put == 3) || (x.c.got == 6 && x.c.put == 4)
    requires cfg.reverse || x.c.got != 3
    ensures NoNewClaim(cfg, x, x.(c := TakenClient(cfg, x.c, rows)))
  {
  }

  lemma ClientTakeClaims(cfg: Config, st: State)
    requires ClientInv(cfg, st.c) && QueuesInv(cfg, st.c, st.s, st.toS, st.toC)
    requires st.toC != [] && st.c.pc in {CLoop, CResultsRead, CAck}
    requires cfg.reverse || st.c.got != 3
    ensures NoNewClaim(cfg, CtlOf(st), CtlOf(ClientTake(cfg, st)))
  {
    ClientMeets(cfg, st);
    ClientTakeIs(cfg, st);
    TakenClaims(cfg, CtlOf(st), st.s.rows);
  }

  lemma StreamsCarry(cfg: Config, x: Ctl, x': Ctl, n: nat, pending: set<nat>, claimed: seq<nat>)
    requires StreamsInv(cfg, x, n, pending, claimed)
    requires x'.added == x.added && Opened(cfg, x'.c) == Opened(cfg, x.c)
    requires At(x'.s.pc) >= 5 ==> At(x.s.pc) >= 5
    requires x'.s.awaiting ==> (x.s.awaiting && x'.s.slots == x.s.slots) || (n == 0 && x'.s.slots == cfg.parallel)
    ensures StreamsInv(cfg, x', n, pending, claimed)
  {
  }

  lemma RowsCarry(cfg: Config, x: Ctl, x': Ctl, links: seq<Link>, links': seq<Link>)
    requires RowsInv(cfg, x, links)
    requires AllAdvance(links, links') && |links'| == |links|
    requires x'.added == x.added && x'.s.rows == x.s.rows && x'.c.report == x.c.report && x'.c.local == x.c.local
    requires x'.c.pc.CResultsWrite? || x'.c.put >= 4 ==> x.c.pc.CResultsWrite? || x.c.put >= 4
    requires x'.c.pc.CDone? ==> x.c.pc.CDone?
    requires At(x'.s.pc) < 16 ==> At(x.s.pc) < 16
    requires At(x'.s.pc) > 16 ==> At(x.s.pc) > 16
    ensures RowsInv(cfg, x', links')
  {
    RowsSurvive(cfg, x, links, x.added, links');
  }

  lemma ClientPutKeepsInv(cfg: Config, st: State)
    requires ValidConfig(cfg) && Inv(cfg, st)
    requires st.c.pc in {CConnect, CParams, CEndWrite, CResultsWrite, CDisplay}
    ensures Inv(cfg, ClientPut(cfg, st))
  {
    var st' := ClientPut(cfg, st);
    var x, x' := CtlOf(st), CtlOf(st');
    ClientPutQueues(cfg, st);
    ClientPutPlace(cfg, st);
    ClientPutClaims(cfg, st);
    LinksCarry(cfg, x, x', st.links);
    StreamsCarry(cfg, x, x', |st.links|, st.pending, st.claimed);
    RowsCarry(cfg, x, x', st.links, st.links);
  }

  lemma ServerPutKeepsInv(cfg: Config, st: State)
    requires ValidConfig(cfg) && Inv(cfg, st) && ServerWrites(st.s.pc)
    ensures Inv(cfg, ServerPut(cfg, st))
  {
    var st' := ServerPut(cfg, st);
    var x, x' := CtlOf(st), CtlOf(st');
    ServerPutQueues(cfg, st);
    ServerPutPlace(cfg, st);
    ServerPutClaims(cfg, st);
    LinksCarry(cfg, x, x', st.links);
    StreamsCarry(cfg, x, x', |st.links|, st.pending, st.claimed);
    RowsCarry(cfg, x, x', st.links, st.links);
  }

  lemma ServerTakeFrame(cfg: Config, st: State)
    requires QueuesInv(cfg, st.c, st.s, st.toS, st.toC) && ServerInv(cfg, st.s)
    requires ServerReads(st.s.pc) && st.toS != []
    ensures
      var st' := ServerTake(cfg, st);
      && st' == st.(toS := st.toS[1..], s := st'.s) && st'.s.rows == st.s.rows
      && (At(st'.s.pc) >= 5 <==> At(st.s.pc) >= 5) && (At(st'.s.pc) < 16 <==> At(st.s.pc) < 15)
      && (At(st'.s.pc) > 16 <==> At(st.s.pc) > 16)
      && (st'.s.awaiting ==> st.s.pc.SParamsRead? && st'.s.slots == cfg.parallel)
  {
    ServerMeets(cfg, st);
  }

  lemma ServerTakeKeepsInv(cfg: Config, st: State)
    requires ValidConfig(cfg) && Inv(cfg, st) && ServerReads(st.s.pc) && st.toS != []
    ensures Inv(cfg, ServerTake(cfg, st))
  {
    var st' := ServerTake(cfg, st);
    var x, x' := CtlOf(st), CtlOf(st');
    ServerTakeQueues(cfg, st);
    ServerTakePlace(cfg, st);
    ServerTakeClaims(cfg, st);
    ServerTakeFrame(cfg, st);
    LinksCarry(cfg, x, x', st.links);
    StreamsCarry(cfg, x, x', |st.links|, st.pending, st.claimed);
    RowsCarry(cfg, x, x', st.links, st.links);
  }

  lemma ClientTakeKeepsInv(cfg: Config, st: State)
    requires ValidConfig(cfg) && Inv(cfg, st)
    requires st.toC != [] && st.c.pc in {CLoop, CResultsRead, CAck}
    requires cfg.reverse || st.c.got != 3
    ensures Inv(cfg, ClientTake(cfg, st))
  {
    var st' := ClientTake(cfg, st);
    var x, x' := CtlOf(st), CtlOf(st');
    ClientTakeQueues(cfg, st);
    ClientTakePlace(cfg, st);
    ClientTakeClaims(cfg, st);
    ClientMeets(cfg, st);
    ClientTakeIs(cfg, st);
    TakenClientInv(cfg, st.c, st.s.rows);
    LinksCarry(cfg, x, x', st.links);
    StreamsCarry(cfg, x, x', |st.links|, st.pending, st.claimed);
    RowsCarry(cfg, x, x', st.links, st.links);
  }

  // ----- spawning the sender tasks -----

  lemma SpawnedLink(cfg: Config, stopTx: bool, stopRx: bool, l: Link)
    requires LinkOk(cfg, stopTx, stopRx, l) && l.tx.TxAbsent? && !stopTx
    ensures LinkOk(cfg, stopTx, stopRx, l.(tx := TxInit)) && Advances(l, l.(tx := TxInit))
  {
  }

  lemma SpawnKeepsLinks(cfg: Config, x: Ctl, x': Ctl, links: seq<Link>)
    requires LinksInv(cfg, x, links)
    requires x'.added == x.added && x'.stopTx == x.stopTx && x'.stopRx == x.stopRx
    requires !x.stopTx && !TxSpawned(cfg, x) && TxSpawned(cfg, x')
    requires !TxJoined(cfg, x') && !ReceiverJoined(cfg, x')
    requires forall i: nat :: !MarkerSent(cfg, x', i) && !SenderClosed(cfg, x', i)
    ensures LinksInv(cfg, x', SpawnSenders(links)) && AllAdvance(links, SpawnSenders(links))
  {
    var links' := SpawnSenders(links);
    forall i | 0 <= i < |links| ensures LinkInv(cfg, x', i, links'[i]) && Advances(links[i], links'[i]) {
      assert LinkInv(cfg, x, i, links[i]);
      SpawnedLink(cfg, x.stopTx, x.stopRx, links[i]);
    }
  }

  lemma ClientSpawnKeepsInv(cfg: Config, st: State)
    requires ValidConfig(cfg) && Inv(cfg, st)
    requires st.toC != [] && st.c.pc.CLoop? && st.c.got == 3 && !cfg.reverse
    ensures Inv(cfg, ClientTake(cfg, st))
  {
    var st' := ClientTake(cfg, st);
    var x, x' := CtlOf(st), CtlOf(st');
    ClientTakeQueues(cfg, st);
    ClientTakePlace(cfg, st);
    ClientMeets(cfg, st);
    ClientTakeIs(cfg, st);
    TakenClientInv(cfg, st.c, st.s.rows);
    assert At(x.s.pc) <= 8;
    SpawnKeepsLinks(cfg, x, x', st.links);
    StreamsCarry(cfg, x, x', |st.links|, st.pending, st.claimed);
    RowsCarry(cfg, x, x', st.links, st'.links);
  }
}
