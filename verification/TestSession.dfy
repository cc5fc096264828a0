/** The fault-free test protocol as one two-party system: the client control
    loop, the server session, the two FIFO control pipes, the data connections
    on their way to the server, and every data stream's tasks. `Next` is the
    step function; a run is a sequence of labels. */
module TestSession {
  import opened Wire
  import opened DataPlane

  datatype StreamResult = StreamResult(id: nat, bytes: nat)

  datatype Msg = Cookie | Params | Results(rows: seq<StreamResult>) | St(code: int)

  datatype ClientPc =
    | CConnect
    | CLoop
    | CParams
    | COpening(left: nat)
    | CJoin
    | CMarkers(next: nat)
    | CEndWrite
    | CClosing(at: nat)
    | CDrain
    | CSnap(final: bool)
    | CResultsWrite
    | CResultsRead
    | CDisplay
    | CAck
    | CDone
    | CFailed

  /** report: the rows sent to the server. local: the rows of the returned
      result. got, put: control messages read and written so far. */
  datatype Client = Client(
    pc: ClientPc, running: bool, ended: bool,
    report: seq<StreamResult>, local: seq<StreamResult>, remote: Option<seq<StreamResult>>,
    got: nat, put: nat)

  datatype ServerPc =
    | SCookie
    | SParamsWrite
    | SParamsRead
    | SCreateWrite
    | SCollect
    | SStartWrite
    | SRunningWrite
    | SSpawn
    | SWaitEnd
    | SStop
    | SJoin
    | SMarkers(next: nat)
    | SDrain
    | SClosing(at: nat)
    | SExchangeWrite
    | SResultsRead
    | SSnap
    | SResultsWrite
    | SDisplayWrite
    | SDoneRead
    | SAckWrite
    | SAwaitClose
    | SDone
    | SFailed

  datatype Server = Server(pc: ServerPc, rows: seq<StreamResult>, awaiting: bool, slots: nat)

  /** links: data streams in the order the client opened them. pending: opened
      but not yet classified by the server. claimed: holding a slot and queued
      for the session. added: the server's own stream list. stopTx and stopRx
      are the flags that the sending and the receiving side's tasks watch. */
  datatype State = State(
    c: Client, s: Server, toS: seq<Msg>, toC: seq<Msg>,
    links: seq<Link>, pending: set<nat>, claimed: seq<nat>, added: seq<nat>,
    stopTx: bool, stopRx: bool, denied: bool)

  function Init(): State {
    State(Client(CConnect, false, false, [], [], None, 0, 0), Server(SCookie, [], false, 0),
          [], [], [], {}, [], [], false, false, false)
  }

  /** Accept(i): the server classifies the connection of stream i.
      Task(i, m): a move of one of stream i's tasks. */
  datatype Label = ClientStep | DurationTimer | ServerStep | Accept(i: nat) | Task(i: nat, m: Move)

  function Next(cfg: Config, st: State, move: Label): Option<State> {
    match move
    case ClientStep => ClientNext(cfg, st)
    case DurationTimer => TimerNext(cfg, st)
    case ServerStep => ServerNext(cfg, st)
    case Accept(i) => AcceptNext(cfg, st, i)
    case Task(i, m) =>
      if i < |st.links| then
        var r := LinkNext(cfg, st.stopTx, st.stopRx, st.links[i], m);
        if r.Some? then Some(st.(links := st.links[i := r.value])) else None
      else None
  }

  /** The state after a sequence of labels, or None if one was not enabled. */
  function Run(cfg: Config, from: State, labels: seq<Label>): Option<State>
    decreases |labels|
  {
    if labels == [] then Some(from)
    else
      var r := Next(cfg, from, labels[0]);
      if r.Some? then Run(cfg, r.value, labels[1..]) else None
  }

  // ----- client -----

  function ToPc(st: State, pc: ClientPc): State { st.(c := st.c.(pc := pc)) }

  function NewLink(cfg: Config): Link {
    Link(TxAbsent, if cfg.reverse then RxTop else RxAbsent, 0, 0, 0, 0, false, false)
  }

  function SpawnSenders(links: seq<Link>): (r: seq<Link>)
    ensures |r| == |links|
  {
    seq(|links|, i requires 0 <= i < |links| => links[i].(tx := TxInit))
  }

  predicate AllTxEnded(links: seq<Link>) { forall i :: 0 <= i < |links| ==> links[i].tx.TxEnded? }
  predicate AllRxEnded(links: seq<Link>) { forall i :: 0 <= i < |links| ==> links[i].rx.RxEnded? }

  function ClientCount(cfg: Config, l: Link): nat { if cfg.reverse then l.received else l.counted }
  function ServerCount(cfg: Config, l: Link): nat { if cfg.reverse then l.counted else l.received }

  /** The duration timer: it ends the test once. */
  function TimerNext(cfg: Config, st: State): Option<State> {
    if st.c.pc.CLoop? && st.c.running && !st.c.ended then
      var st1 := st.(c := st.c.(running := false, ended := true));
      if cfg.transport == WebRtc && !cfg.reverse then Some(ToPc(st1, CJoin).(stopTx := true))
      else Some(ToPc(st1, CEndWrite))
    else None
  }

  function ClientNext(cfg: Config, st: State): Option<State> {
    match st.c.pc
    case CConnect => Some(ClientPut(cfg, st))
    case CParams => Some(ClientPut(cfg, st))
    case CEndWrite => Some(ClientPut(cfg, st))
    case CResultsWrite => Some(ClientPut(cfg, st))
    case CDisplay => Some(ClientPut(cfg, st))
    case CLoop => if st.toC == [] then None else Some(ClientTake(cfg, st))
    case CResultsRead => if st.toC == [] then None else Some(ClientTake(cfg, st))
    case CAck => if st.toC == [] then None else Some(ClientTake(cfg, st))
    case CDone => None
    case CFailed => None
    case _ => ClientLocal(cfg, st)
  }

  /** What the client writes at each of its writing positions, and where it goes then. */
  function ClientMessage(c: Client): Msg {
    match c.pc
    case CConnect => Cookie
    case CParams => Params
    case CEndWrite => St(TEST_END)
    case CResultsWrite => Results(c.report)
    case _ => St(IPERF_DONE)
  }

  function AfterClientMessage(cfg: Config, pc: ClientPc): ClientPc {
    match pc
    case CEndWrite => if cfg.reverse then CLoop else CClosing(0)
    case CResultsWrite => CResultsRead
    case CDisplay => if cfg.transport == WebRtc then CAck else CSnap(true)
    case _ => CLoop
  }

  function ClientPut(cfg: Config, st: State): State {
    st.(toS := st.toS + [ClientMessage(st.c)],
        c := st.c.(pc := AfterClientMessage(cfg, st.c.pc), put := st.c.put + 1),
        // The stop flag follows the TEST_END byte, and precedes the closes.
        stopTx := st.stopTx || (st.c.pc.CEndWrite? && !cfg.reverse))
  }

  function ClientTake(cfg: Config, st: State): State
    requires st.toC != []
  {
    var st1 := st.(toC := st.toC[1..], c := st.c.(got := st.c.got + 1));
    match st.c.pc
    case CLoop => Dispatch(cfg, st1, st.toC[0])
    case CResultsRead =>
      if st.toC[0].Results? then st1.(c := st1.c.(pc := CLoop, remote := Some(st.toC[0].rows)))
      else ToPc(st1, CFailed)
    case _ => ToPc(st1, if st.toC[0] == St(IPERF_DONE) then CSnap(true) else CFailed)
  }

  /** The state byte dispatch of the control loop. */
  function Dispatch(cfg: Config, st: State, m: Msg): State {
    if !m.St? then ToPc(st, CFailed)
    else if m.code == IPERF_START || m.code == TEST_START then st
    else if m.code == PARAM_EXCHANGE then ToPc(st, CParams)
    else if m.code == CREATE_STREAMS then ToPc(st, COpening(cfg.parallel))
    else if m.code == TEST_RUNNING then
      st.(c := st.c.(running := true), links := if cfg.reverse then st.links else SpawnSenders(st.links))
    else if m.code == EXCHANGE_RESULTS then ToResults(cfg, st)
    else if m.code == DISPLAY_RESULTS then ToPc(st, CDisplay)
    else ToPc(st, CFailed)
  }

  /** EXCHANGE_RESULTS also ends a test whose timer has not fired. */
  function ToResults(cfg: Config, st: State): State {
    st.(c := st.c.(ended := true, running := st.c.running && st.c.ended,
                   pc := if cfg.reverse && Drains(cfg) then CDrain else CSnap(false)),
        stopTx := st.stopTx || (!st.c.ended && !cfg.reverse))
  }

  function ClientLocal(cfg: Config, st: State): Option<State> {
    match st.c.pc
    case COpening(left) =>
      if left == 0 then Some(ToPc(st, CLoop))
      else Some(ToPc(st, COpening(left - 1)).(
                  links := st.links + [NewLink(cfg)], pending := st.pending + {|st.links|}))
    case CJoin => if AllTxEnded(st.links) then Some(ToPc(st, CMarkers(0))) else None
    case CMarkers(k) =>
      if k >= |st.links| then Some(ToPc(st, CEndWrite))
      else if st.links[k].tx.TxWriting? then None
      else Some(ToPc(st, CMarkers(k + 1)).(links := st.links[k := SendMarker(st.links[k])]))
    case CClosing(k) =>
      if k >= |st.links| then Some(ToPc(st, CLoop))
      else if !CanCloseTx(st.links[k]) then None
      else Some(ToPc(st, CClosing(k + 1)).(links := st.links[k := CloseTx(cfg, st.links[k])]))
    case CDrain => if AllRxEnded(st.links) then Some(ToPc(st, CSnap(false))) else None
    case CSnap(final) => Some(st.(c := ClientSnap(cfg, st.c, st.links, final)))
    case _ => None
  }

  /** Counters are read one stream at a time; the returned result reads them again. */
  function ClientSnap(cfg: Config, c: Client, links: seq<Link>, final: bool): Client {
    var rows := if final then c.local else c.report;
    if |rows| < |links| then
      var row := StreamResult(NextStreamId(|rows|), ClientCount(cfg, links[|rows|]));
      if final then c.(local := rows + [row]) else c.(report := rows + [row])
    else if !final then c.(pc := CResultsWrite)
    else c.(pc := if c.remote.Some? then CDone else CFailed)
  }

  // ----- server -----

  function ToSpc(st: State, pc: ServerPc): State { st.(s := st.s.(pc := pc)) }

  function ServerNext(cfg: Config, st: State): Option<State> {
    if ServerWrites(st.s.pc) then Some(ServerPut(cfg, st))
    else if ServerReads(st.s.pc) then if st.toS == [] then None else Some(ServerTake(cfg, st))
    else ServerLocal(cfg, st)
  }

  predicate ServerWrites(pc: ServerPc) {
    match pc
    case SParamsWrite => true
    case SCreateWrite => true
    case SStartWrite => true
    case SRunningWrite => true
    case SExchangeWrite => true
    case SResultsWrite => true
    case SDisplayWrite => true
    case SAckWrite => true
    case _ => false
  }

  function ServerMessage(s: Server): Msg {
    match s.pc
    case SParamsWrite => St(PARAM_EXCHANGE)
    case SCreateWrite => St(CREATE_STREAMS)
    case SStartWrite => St(TEST_START)
    case SRunningWrite => St(TEST_RUNNING)
    case SExchangeWrite => St(EXCHANGE_RESULTS)
    case SResultsWrite => Results(s.rows)
    case SDisplayWrite => St(DISPLAY_RESULTS)
    case _ => St(IPERF_DONE)
  }

  function AfterServerMessage(pc: ServerPc): ServerPc {
    match pc
    case SParamsWrite => SParamsRead
    case SCreateWrite => SCollect
    case SStartWrite => SRunningWrite
    case SRunningWrite => SSpawn
    case SExchangeWrite => SResultsRead
    case SResultsWrite => SDisplayWrite
    case SDisplayWrite => SDoneRead
    case _ => SAwaitClose
  }

  function ServerPut(cfg: Config, st: State): State {
    st.(toC := st.toC + [ServerMessage(st.s)], s := st.s.(pc := AfterServerMessage(st.s.pc)))
  }

  predicate ServerReads(pc: ServerPc) {
    match pc
    case SCookie => true
    case SParamsRead => true
    case SWaitEnd => true
    case SResultsRead => true
    case SDoneRead => true
    case _ => false
  }

  predicate ServerAccepts(pc: ServerPc, m: Msg) {
    match pc
    case SCookie => m.Cookie?
    case SParamsRead => m.Params?
    case SWaitEnd => m == St(TEST_END)
    case SResultsRead => m.Results?
    case _ => m == St(IPERF_DONE)
  }

  function AfterServerRead(cfg: Config, pc: ServerPc): ServerPc {
    match pc
    case SCookie => SParamsWrite
    case SParamsRead => SCreateWrite
    case SWaitEnd => SStop
    case SResultsRead => SSnap
    case _ => if cfg.transport == WebRtc then SAckWrite else SDone
  }

  /** Anything but the expected message ends the session with SERVER_ERROR.
      The stream window opens before CREATE_STREAMS is announced. */
  function ServerTake(cfg: Config, st: State): State
    requires st.toS != []
  {
    if !ServerAccepts(st.s.pc, st.toS[0]) then ServerFail(st.(toS := st.toS[1..]))
    else if st.s.pc.SParamsRead? then
      st.(toS := st.toS[1..], s := st.s.(pc := SCreateWrite, slots := cfg.parallel, awaiting := true))
    else st.(toS := st.toS[1..], s := st.s.(pc := AfterServerRead(cfg, st.s.pc)))
  }

  function ServerFail(st: State): State {
    st.(toC := st.toC + [St(SERVER_ERROR)], s := st.s.(pc := SFailed))
  }

  /** The accept rule for a connection that carries this session's cookie. */
  function AcceptNext(cfg: Config, st: State, i: nat): Option<State> {
    if cfg.transport == WebRtc || i !in st.pending then None
    else if st.s.awaiting && st.s.slots > 0 then
      Some(st.(pending := st.pending - {i}, claimed := st.claimed + [i], s := st.s.(slots := st.s.slots - 1)))
    else Some(st.(pending := st.pending - {i}, denied := true))
  }

  /** A forward test attaches the receiver as soon as the stream is added. */
  function AddStream(cfg: Config, st: State, i: nat): State {
    st.(added := st.added + [i],
        links := if cfg.reverse || i >= |st.links| then st.links
                 else st.links[i := st.links[i].(rx := RxTop)])
  }

  function Collect(cfg: Config, st: State): Option<State> {
    if |st.added| >= cfg.parallel then Some(st.(s := st.s.(pc := SStartWrite, awaiting := false)))
    else if cfg.transport == WebRtc then
      if |st.added| in st.pending then
        Some(AddStream(cfg, st.(pending := st.pending - {|st.added|}), |st.added|))
      else None
    else if st.claimed == [] then None
    else Some(AddStream(cfg, st.(claimed := st.claimed[1..]), st.claimed[0]))
  }

  function ServerLocal(cfg: Config, st: State): Option<State> {
    match st.s.pc
    case SCollect => Collect(cfg, st)
    case SSpawn => Some(ToSpc(st, SWaitEnd).(links := if cfg.reverse then SpawnSenders(st.links) else st.links))
    case SStop =>
      var st1 := st.(stopTx := st.stopTx || cfg.reverse);
      if cfg.transport == WebRtc && cfg.reverse then Some(ToSpc(st1, SJoin))
      else if Drains(cfg) && !cfg.reverse then Some(ToSpc(st1, SDrain))
      else Some(ToSpc(st1, SClosing(0)).(stopRx := st.stopRx || !cfg.reverse))
    case SJoin => if AllTxEnded(st.links) then Some(ToSpc(st, SMarkers(0))) else None
    case SMarkers(k) => ServerMark(st, k)
    case SDrain => if AllRxEnded(st.links) then Some(ToSpc(st, SClosing(0))) else None
    case SClosing(k) => ServerClose(cfg, st, k)
    case SSnap => ServerSnap(cfg, st)
    // Waits for the client's close; any further byte is an error.
    case SAwaitClose =>
      if st.toS != [] then Some(ServerFail(st.(toS := st.toS[1..])))
      else if st.c.pc.CDone? then Some(ToSpc(st, SDone))
      else None
    case _ => None
  }

  function ServerMark(st: State, k: nat): Option<State> {
    if k >= |st.added| then Some(ToSpc(st, SClosing(0)))
    else if st.added[k] >= |st.links| || st.links[st.added[k]].tx.TxWriting? then None
    else
      var i := st.added[k];
      Some(ToSpc(st, SMarkers(k + 1)).(links := st.links[i := SendMarker(st.links[i])]))
  }

  /** Closing a stream needs the lock that its pending write or read holds. */
  function ServerClose(cfg: Config, st: State, k: nat): Option<State> {
    if k >= |st.added| then Some(ToSpc(st, SExchangeWrite))
    else if st.added[k] >= |st.links| then None
    else
      var i := st.added[k];
      if cfg.reverse then
        if !CanCloseTx(st.links[i]) then None
        else Some(ToSpc(st, SClosing(k + 1)).(links := st.links[i := CloseTx(cfg, st.links[i])]))
      else if st.links[i].rx.RxReading? then None
      else Some(ToSpc(st, SClosing(k + 1)))
  }

  function ServerSnap(cfg: Config, st: State): Option<State> {
    var k := |st.s.rows|;
    if k >= |st.added| then Some(ToSpc(st, SResultsWrite))
    else if st.added[k] >= |st.links| then None
    else
      var row := StreamResult(NextStreamId(k), ServerCount(cfg, st.links[st.added[k]]));
      Some(st.(s := st.s.(rows := st.s.rows + [row])))
  }
}
