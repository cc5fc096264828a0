/** One data stream: its sender task, its receiver task, and the ordered byte
    channel between them. Every task move is atomic; a move that the code can
    only make while it holds the channel lock names that lock implicitly
    (`TxWriting` and `RxReading` hold the lock of their own side). */
module DataPlane {
  import opened Wire

  datatype Transport = Tcp | Ws | Quic | WebRtc

  /** `len` is the block size; `capacity` bounds the bytes in flight, so a write
      can be blocked by a peer that does not read. */
  datatype Config = Config(transport: Transport, reverse: bool, parallel: nat, len: nat, capacity: nat)

  predicate ValidConfig(cfg: Config) {
    1 <= cfg.parallel <= MAX_PARALLEL && 4 <= cfg.len <= MAX_LEN && 1 <= cfg.capacity
  }

  /** WebRTC writes run to completion before the stop flag is looked at; the
      other transports drop a pending write when the flag fires. */
  predicate Cancellable(cfg: Config) { cfg.transport != WebRtc }

  /** Transports whose receiver is joined at its end of stream before counters are read. */
  predicate Drains(cfg: Config) { cfg.transport == Quic || cfg.transport == WebRtc }

  datatype Sender = TxAbsent | TxInit | TxTop | TxWaiting | TxWriting(left: nat) | TxWrote | TxEnded
  datatype Receiver = RxAbsent | RxTop | RxReading | RxGot(n: nat) | RxEnded

  /** sent: bytes handed to the channel. taken: bytes read from it.
      counted, received: the two sides' reported counters. fin: the end of
      stream follows the sent bytes. closed: the sending side closed its channel. */
  datatype Link = Link(
    tx: Sender, rx: Receiver,
    sent: nat, taken: nat, counted: nat, received: nat,
    fin: bool, closed: bool)

  datatype Move = TxGo | TxPush(k: nat) | TxCancel | RxGo | RxTake(k: nat) | RxEof | RxCancel

  const RECEIVE_BUFFER := 65536

  /** One atomic move of one task, or None when it is not enabled. */
  function LinkNext(cfg: Config, stopTx: bool, stopRx: bool, l: Link, m: Move): (r: Option<Link>) {
    match m
    case TxGo => TxNext(cfg, stopTx, l)
    case TxPush(k) =>
      if l.tx.TxWriting? && 1 <= k <= l.tx.left && l.sent + k <= l.taken + cfg.capacity then
        Some(l.(sent := l.sent + k, tx := if k == l.tx.left then TxWrote else TxWriting(l.tx.left - k)))
      else None
    case TxCancel =>
      if Cancellable(cfg) && stopTx && (l.tx.TxWaiting? || l.tx.TxWriting?) then Some(l.(tx := TxEnded)) else None
    case RxGo =>
      (match l.rx
       case RxTop => Some(l.(rx := if stopRx then RxEnded else RxReading))
       case RxGot(n) => Some(l.(received := l.received + n, rx := RxTop))
       case _ => None)
    case RxTake(k) =>
      if l.rx.RxReading? && 1 <= k <= RECEIVE_BUFFER && l.taken + k <= l.sent then
        Some(l.(taken := l.taken + k, rx := RxGot(k)))
      else None
    case RxEof =>
      if l.rx.RxReading? && l.fin && l.taken == l.sent then Some(l.(rx := RxEnded)) else None
    case RxCancel =>
      if l.rx.RxReading? && stopRx then Some(l.(rx := RxEnded)) else None
  }

  function TxNext(cfg: Config, stopTx: bool, l: Link): Option<Link> {
    match l.tx
    case TxInit => Some(l.(tx := TxTop))
    case TxTop => Some(l.(tx := if stopTx then TxEnded else TxWaiting))
    // The lock is free: a write on a closed channel fails at once.
    case TxWaiting => Some(l.(tx := if l.closed then TxEnded else TxWriting(cfg.len)))
    case TxWrote => Some(l.(counted := l.counted + cfg.len, tx := TxTop))
    case _ => None
  }

  /** Closing the sending side. It needs the channel lock. */
  predicate CanCloseTx(l: Link) { !l.tx.TxWriting? }

  /** Closing ends the byte stream, except on WebRTC, where only an explicit
      empty message (`SendMarker`) does. */
  function CloseTx(cfg: Config, l: Link): Link {
    l.(closed := true, fin := l.fin || cfg.transport != WebRtc)
  }

  function SendMarker(l: Link): Link { l.(fin := true) }

  /** No byte can be added to the channel any more. */
  predicate Sealed(l: Link) { l.tx.TxEnded? || l.closed }

  /** The receiver saw the end of stream and counted every byte. */
  predicate Drained(l: Link) { l.rx.RxEnded? && l.fin && l.taken == l.sent }

  ghost predicate TxOk(cfg: Config, l: Link) {
    match l.tx
    case TxAbsent => l.sent == 0 && l.counted == 0
    case TxWriting(left) => 1 <= left <= cfg.len && l.sent + left == l.counted + cfg.len
    case TxWrote => l.sent == l.counted + cfg.len
    case TxEnded => l.counted <= l.sent <= l.counted + cfg.len && (cfg.transport == WebRtc ==> l.sent == l.counted)
    case _ => l.sent == l.counted
  }

  ghost predicate RxOk(stopRx: bool, l: Link) {
    && l.taken == l.received + (if l.rx.RxGot? then l.rx.n else 0)
    && (l.rx.RxAbsent? ==> l.taken == 0)
    && (l.rx.RxEnded? ==> stopRx || (l.fin && l.taken == l.sent))
  }

  /** What every move of every task keeps. */
  ghost predicate LinkOk(cfg: Config, stopTx: bool, stopRx: bool, l: Link) {
    && TxOk(cfg, l)
    && RxOk(stopRx, l)
    && l.taken <= l.sent <= l.taken + cfg.capacity
    && (l.closed || l.fin ==> stopTx && !l.tx.TxWriting?)
    && (l.fin ==> Sealed(l) && (cfg.transport == WebRtc ==> l.tx.TxEnded?))
    && (l.closed && cfg.transport != WebRtc ==> l.fin)
    && (l.tx.TxEnded? ==> stopTx)
  }

  /** How a move may change a stream. */
  ghost predicate Moved(l: Link, l': Link) {
    && l'.fin == l.fin && l'.closed == l.closed
    && (Sealed(l) ==> Sealed(l') && l'.sent == l.sent)
    && (Drained(l) ==> Drained(l'))
    && l.sent <= l'.sent
    && (l.tx.TxAbsent? <==> l'.tx.TxAbsent?)
    && (l.tx.TxEnded? ==> l'.tx.TxEnded?)
    && (l.rx.RxAbsent? <==> l'.rx.RxAbsent?)
  }

  predicate IsTx(m: Move) { m.TxGo? || m.TxPush? || m.TxCancel? }

  lemma TxStepOk(cfg: Config, stopTx: bool, stopRx: bool, l: Link, m: Move)
    requires ValidConfig(cfg) && LinkOk(cfg, stopTx, stopRx, l) && IsTx(m)
    requires LinkNext(cfg, stopTx, stopRx, l, m).Some?
    ensures LinkOk(cfg, stopTx, stopRx, LinkNext(cfg, stopTx, stopRx, l, m).value)
    ensures Moved(l, LinkNext(cfg, stopTx, stopRx, l, m).value)
  {
  }

  lemma RxStepOk(cfg: Config, stopTx: bool, stopRx: bool, l: Link, m: Move)
    requires ValidConfig(cfg) && LinkOk(cfg, stopTx, stopRx, l) && !IsTx(m)
    requires LinkNext(cfg, stopTx, stopRx, l, m).Some?
    ensures LinkOk(cfg, stopTx, stopRx, LinkNext(cfg, stopTx, stopRx, l, m).value)
    ensures Moved(l, LinkNext(cfg, stopTx, stopRx, l, m).value)
  {
  }

  lemma LinkStepOk(cfg: Config, stopTx: bool, stopRx: bool, l: Link, m: Move)
    requires ValidConfig(cfg) && LinkOk(cfg, stopTx, stopRx, l)
    requires LinkNext(cfg, stopTx, stopRx, l, m).Some?
    ensures LinkOk(cfg, stopTx, stopRx, LinkNext(cfg, stopTx, stopRx, l, m).value)
    ensures Moved(l, LinkNext(cfg, stopTx, stopRx, l, m).value)
  {
    if IsTx(m) {
      TxStepOk(cfg, stopTx, stopRx, l, m);
    } else {
      RxStepOk(cfg, stopTx, stopRx, l, m);
    }
  }

  /** Work left in one stream once its sender has been told to stop. */
  ghost function TxRank(cfg: Config, l: Link): nat {
    match l.tx
    case TxAbsent => 0
    case TxEnded => 0
    case TxInit => 2
    case TxTop => 1
    case TxWrote => 2
    case TxWriting(left) => 2 + left
    case TxWaiting => 3 + cfg.len
  }

  ghost function RxRank(l: Link): nat {
    match l.rx
    case RxAbsent => 0
    case RxEnded => 0
    case RxReading => 1
    case RxTop => 2
    case RxGot(n) => 3
  }

  ghost function LinkRank(cfg: Config, l: Link): nat {
    4 * TxRank(cfg, l) + 3 * (if l.taken <= l.sent then l.sent - l.taken else 0) + RxRank(l)
  }

  lemma LinkRankFalls(cfg: Config, stopRx: bool, l: Link, m: Move)
    requires LinkOk(cfg, true, stopRx, l)
    requires LinkNext(cfg, true, stopRx, l, m).Some?
    ensures
      LinkRank(cfg, LinkNext(cfg, true, stopRx, l, m).value) < LinkRank(cfg, l)
  {
  }

  /** A stopped sender that has not ended, or whoever must first read for it, can move. */
  lemma StoppedSenderMoves(cfg: Config, stopRx: bool, l: Link) returns (m: Move)
    requires ValidConfig(cfg) && LinkOk(cfg, true, stopRx, l)
    requires !l.tx.TxAbsent? && !l.tx.TxEnded?
    requires Cancellable(cfg) || (!l.rx.RxAbsent? && !stopRx)
    ensures LinkNext(cfg, true, stopRx, l, m).Some?
  {
    if l.tx.TxWriting? {
      if Cancellable(cfg) {
        m := TxCancel;
      } else if l.sent < l.taken + cfg.capacity {
        m := TxPush(1);
      } else {
        m := if l.rx.RxReading? then RxTake(1) else RxGo;
      }
    } else {
      m := TxGo;
    }
  }

  /** A receiver whose stream has ended can move until it has ended too. */
  lemma FinishedReceiverMoves(cfg: Config, stopTx: bool, stopRx: bool, l: Link) returns (m: Move)
    requires LinkOk(cfg, stopTx, stopRx, l)
    requires l.fin && !l.rx.RxAbsent? && !l.rx.RxEnded?
    ensures LinkNext(cfg, stopTx, stopRx, l, m).Some?
  {
    m := if !l.rx.RxReading? then RxGo else if l.taken < l.sent then RxTake(1) else RxEof;
  }
}
