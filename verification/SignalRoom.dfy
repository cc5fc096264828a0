/** The signaling room: one durable row, up to four sockets with serialized
    attachments, one alarm, and binds that are suspended in the middle of a
    listener-secret check. Every handler is atomic except a listener's bind,
    which is split at its suspension point. */
module SignalRoom {
  import opened Wire

  const BIND_DEADLINE_MS := 5_000
  const MAX_CANDIDATES := 16
  const MAX_FORWARDED_BYTES := 1_048_576
  const MAX_SOCKETS := 4
  const MAX_EXPIRES_IN := 3_600

  datatype Role = Listener | Joiner
  datatype Lifecycle = ListenerCreated | ListenerBound | Paired | Closed
  datatype Reason = Expired | PeerLeft | SocketError

  datatype Row = Row(
    lifecycle: Lifecycle, expiresAt: int, secretHash: nat,
    listenerCandidates: nat, joinerCandidates: nat, forwardedBytes: nat,
    offerSeen: bool, answerSeen: bool, reason: Option<Reason>)

  datatype Attachment = Attachment(connectedAt: int, bound: bool, role: Option<Role>)

  datatype Socket = Socket(id: nat, open: bool, at: Attachment)

  /** A listener bind waiting for its secret check, with the attachment read before the wait. */
  datatype Suspended = Suspended(ws: nat, at: Attachment, genuine: bool)

  datatype SdpType = Offer | Answer

  /** A decoded client frame, with its encoded size where the room counts it.
      `genuine` is the outcome the secret check will have. */
  datatype Frame =
    | Bind(role: Role, genuine: bool)
    | Description(sdp: SdpType, size: nat)
    | Candidate(size: nat)
    | EndOfCandidates(size: nat)
    | Leave
    | Malformed

  datatype Forwarded = Forwarded(from: Role, frame: Frame)

  /** log: every frame forwarded so far. */
  datatype Room = Room(
    row: Option<Row>, sockets: seq<Socket>, alarm: Option<int>, suspended: seq<Suspended>,
    nextId: nat, log: seq<Forwarded>)

  function NewRoom(): Room { Room(None, [], None, [], 0, []) }

  predicate Live(r: Room) { r.row.Some? && r.row.value.lifecycle != Closed }

  // ----- sockets -----

  function CloseSocket(ss: seq<Socket>, id: nat): (r: seq<Socket>)
    ensures |r| == |ss|
  {
    seq(|ss|, i requires 0 <= i < |ss| => if ss[i].id == id then ss[i].(open := false) else ss[i])
  }

  function CloseAll(ss: seq<Socket>): (r: seq<Socket>)
    ensures |r| == |ss|
  {
    seq(|ss|, i requires 0 <= i < |ss| => ss[i].(open := false))
  }

  predicate Late(s: Socket, now: int) { !s.at.bound && s.at.connectedAt + BIND_DEADLINE_MS <= now }

  function CloseLate(ss: seq<Socket>, now: int): (r: seq<Socket>)
    ensures |r| == |ss|
  {
    seq(|ss|, i requires 0 <= i < |ss| => if Late(ss[i], now) then ss[i].(open := false) else ss[i])
  }

  function Attach(ss: seq<Socket>, id: nat, at: Attachment): (r: seq<Socket>)
    ensures |r| == |ss|
  {
    seq(|ss|, i requires 0 <= i < |ss| => if ss[i].id == id then ss[i].(at := at) else ss[i])
  }

  predicate Holds(s: Socket, role: Role) { s.open && s.at.bound && s.at.role == Some(role) }

  /** Some open socket other than `except` is bound to the role. */
  predicate Occupied(ss: seq<Socket>, role: Role, except: Option<nat>) {
    exists i :: 0 <= i < |ss| && Some(ss[i].id) != except && Holds(ss[i], role)
  }

  /** The earliest of a limit and the bind deadlines of the unbound sockets. */
  function Earliest(ss: seq<Socket>, limit: int): int {
    if ss == [] then limit
    else
      var rest := Earliest(ss[..|ss| - 1], limit);
      var last := ss[|ss| - 1].at;
      if !last.bound && last.connectedAt + BIND_DEADLINE_MS < rest then last.connectedAt + BIND_DEADLINE_MS else rest
  }

  // ----- shared handler parts -----

  function Schedule(r: Room): Room {
    if !Live(r) then r.(alarm := None) else r.(alarm := Some(Earliest(r.sockets, r.row.value.expiresAt)))
  }

  /** Records the reason, drops the alarm and closes every socket; a no-op unless live. */
  function CloseRoom(r: Room, reason: Reason): Room {
    if !Live(r) then r
    else r.(row := Some(r.row.value.(lifecycle := Closed, reason := Some(reason))),
            alarm := None, sockets := CloseAll(r.sockets))
  }

  function Reject(r: Room, ws: nat): Room { r.(sockets := CloseSocket(r.sockets, ws)) }

  // ----- handlers -----

  function Initialize(r: Room, secretHash: nat, expiresAt: int): Room {
    if r.row.Some? then r
    else r.(row := Some(Row(ListenerCreated, expiresAt, secretHash, 0, 0, 0, false, false, None)),
            alarm := Some(expiresAt))
  }

  function Fetch(r: Room, upgrade: bool, now: int): Room {
    if !Live(r) then r
    else if r.row.value.expiresAt <= now then CloseRoom(r, Expired)
    else if !upgrade || |r.sockets| >= MAX_SOCKETS then r
    else Schedule(r.(sockets := r.sockets + [Socket(r.nextId, true, Attachment(now, false, None))],
                     nextId := r.nextId + 1))
  }

  function Message(r: Room, ws: nat, at: Attachment, frame: Frame, now: int): Room {
    if !Live(r) then Reject(r, ws)
    else if r.row.value.expiresAt <= now then CloseRoom(r, Expired)
    else if frame.Malformed? then Reject(r, ws)
    else if !at.bound then BindSocket(r, ws, at, frame, now)
    else if frame.Bind? then Reject(r, ws)
    else if frame.Leave? then CloseRoom(r, PeerLeft)
    else Forward(r, ws, at.role, frame)
  }

  /** A joiner binds at once; a listener is suspended for its secret check. */
  function BindSocket(r: Room, ws: nat, at: Attachment, frame: Frame, now: int): Room {
    if now > at.connectedAt + BIND_DEADLINE_MS || !frame.Bind? then Reject(r, ws)
    else if frame.role == Listener then r.(suspended := r.suspended + [Suspended(ws, at, frame.genuine)])
    else FinishBind(r, ws, at, Joiner, now)
  }

  /** The k-th suspended check completes; the others stay suspended. */
  function Resume(r: Room, k: nat, now: int): Room
    requires k < |r.suspended|
  {
    var b := r.suspended[k];
    var r1 := r.(suspended := r.suspended[..k] + r.suspended[k + 1..]);
    if !b.genuine then Reject(r1, b.ws) else FinishBind(r1, b.ws, b.at, Listener, now)
  }

  function ExpiresIn(expiresAt: int, now: int): int {
    if expiresAt <= now then 0 else (expiresAt - now + 999) / 1000
  }

  /** The attachment and lifecycle writes of a successful bind. The attachment
      written is the one read before any suspension; a closed row is not updated. */
  function WriteBind(r: Room, ws: nat, at: Attachment, role: Role): Room
    requires r.row.Some?
  {
    var ss := Attach(r.sockets, ws, at.(bound := true, role := Some(role)));
    var listener := role == Listener || Occupied(ss, Listener, None);
    var joiner := role == Joiner || Occupied(ss, Joiner, None);
    var row := r.row.value;
    r.(sockets := ss,
       row := Some(row.(lifecycle := if row.lifecycle == Closed then Closed
                                     else if listener && joiner then Paired
                                     else if listener then ListenerBound else ListenerCreated)))
  }

  function FinishBind(r: Room, ws: nat, at: Attachment, role: Role, now: int): Room {
    if r.row.None? then r
    else if Occupied(r.sockets, role, Some(ws)) then Reject(r, ws)
    // A `bound` reply that its own schema refuses raises, and the socket is closed instead.
    else if ExpiresIn(r.row.value.expiresAt, now) > MAX_EXPIRES_IN then Reject(WriteBind(r, ws, at, role), ws)
    else Schedule(WriteBind(r, ws, at, role))
  }

  function Other(role: Role): Role { if role == Listener then Joiner else Listener }

  predicate LegalDescription(row: Row, role: Role, sdp: SdpType) {
    || (role == Joiner && sdp == Offer && !row.offerSeen)
    || (role == Listener && sdp == Answer && row.offerSeen && !row.answerSeen)
  }

  function SizeOf(frame: Frame): nat {
    match frame
    case Description(_, size) => size
    case Candidate(size) => size
    case EndOfCandidates(size) => size
    case _ => 0
  }

  predicate MayForward(row: Row, role: Role, frame: Frame) {
    && (frame.Description? ==> LegalDescription(row, role, frame.sdp))
    && row.forwardedBytes + SizeOf(frame) <= MAX_FORWARDED_BYTES
    && (frame.Candidate? ==>
          (if role == Listener then row.listenerCandidates else row.joinerCandidates) < MAX_CANDIDATES)
  }

  function Count(row: Row, role: Role, frame: Frame): Row {
    var row1 := row.(forwardedBytes := row.forwardedBytes + SizeOf(frame));
    match frame
    case Candidate(_) =>
      if role == Listener then row1.(listenerCandidates := row.listenerCandidates + 1)
      else row1.(joinerCandidates := row.joinerCandidates + 1)
    case Description(Offer, _) => row1.(offerSeen := true)
    case Description(Answer, _) => row1.(answerSeen := true)
    case _ => row1
  }

  function Forward(r: Room, ws: nat, role: Option<Role>, frame: Frame): Room
    requires r.row.Some?
  {
    if role.None? || !Occupied(r.sockets, Other(role.value), None) then Reject(r, ws)
    else if !MayForward(r.row.value, role.value, frame) then Reject(r, ws)
    else r.(row := Some(Count(r.row.value, role.value, frame)), log := r.log + [Forwarded(role.value, frame)])
  }

  function WsClose(r: Room, ws: nat, bound: bool): Room {
    var r1 := Reject(r, ws);
    if bound then CloseRoom(r1, PeerLeft) else Schedule(r1)
  }

  function WsError(r: Room, ws: nat, bound: bool): Room {
    Reject(if bound then CloseRoom(r, SocketError) else r, ws)
  }

  /** The alarm that fired is consumed before its handler runs. */
  function Alarm(r: Room, now: int): Room {
    var r0 := r.(alarm := None);
    if !Live(r0) then r0
    else if r0.row.value.expiresAt <= now then CloseRoom(r0, Expired)
    else Schedule(r0.(sockets := CloseLate(r0.sockets, now)))
  }

  // ----- events -----

  /** i and k name a socket and a suspended bind by position. Gone(i): the
      runtime forgets a socket that is no longer open. */
  datatype Event =
    | EInitialize(secretHash: nat, expiresAt: int)
    | EFetch(upgrade: bool, now: int)
    | EMessage(i: nat, frame: Frame, now: int)
    | EResume(k: nat, now: int)
    | EClose(i: nat)
    | EError(i: nat)
    | EGone(i: nat)
    | EAlarm(now: int)

  function Next(r: Room, e: Event): Option<Room> {
    match e
    case EInitialize(h, expiresAt) => Some(Initialize(r, h, expiresAt))
    case EFetch(upgrade, now) => Some(Fetch(r, upgrade, now))
    case EMessage(i, frame, now) =>
      if i < |r.sockets| then Some(Message(r, r.sockets[i].id, r.sockets[i].at, frame, now)) else None
    case EResume(k, now) => if k < |r.suspended| then Some(Resume(r, k, now)) else None
    case EClose(i) => if i < |r.sockets| then Some(WsClose(r, r.sockets[i].id, r.sockets[i].at.bound)) else None
    case EError(i) => if i < |r.sockets| then Some(WsError(r, r.sockets[i].id, r.sockets[i].at.bound)) else None
    case EGone(i) =>
      if i < |r.sockets| && !r.sockets[i].open then Some(r.(sockets := r.sockets[..i] + r.sockets[i + 1..])) else None
    case EAlarm(now) => if r.alarm.Some? && r.alarm.value <= now then Some(Alarm(r, now)) else None
  }

  function Run(r: Room, es: seq<Event>): Option<Room>
    decreases |es|
  {
    if es == [] then Some(r)
    else
      var r1 := Next(r, es[0]);
      if r1.Some? then Run(r1.value, es[1..]) else None
  }
}
