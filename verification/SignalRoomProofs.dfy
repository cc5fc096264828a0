/** Invariants of the signaling room over every event history, including every
    interleaving of suspended secret checks. */
module SignalRoomProofs {
  import opened Wire
  import opened SignalRoom

  // ----- what the log says -----

  function Bytes(log: seq<Forwarded>): nat {
    if log == [] then 0 else Bytes(log[..|log| - 1]) + SizeOf(log[|log| - 1].frame)
  }

  function Candidates(log: seq<Forwarded>, role: Role): nat {
    if log == [] then 0
    else
      var last := log[|log| - 1];
      Candidates(log[..|log| - 1], role) + if last.frame.Candidate? && last.from == role then 1 else 0
  }

  function Descriptions(log: seq<Forwarded>): seq<(Role, SdpType)> {
    if log == [] then []
    else
      var last := log[|log| - 1];
      Descriptions(log[..|log| - 1]) + if last.frame.Description? then [(last.from, last.frame.sdp)] else []
  }

  // ----- invariants -----

  ghost predicate IdsInv(r: Room) {
    && (forall i :: 0 <= i < |r.sockets| ==> r.sockets[i].id < r.nextId)
    && (forall i, j :: 0 <= i < j < |r.sockets| ==> r.sockets[i].id != r.sockets[j].id)
  }

  ghost predicate OnePerRole(ss: seq<Socket>) {
    forall i, j, role: Role :: 0 <= i < j < |ss| ==> !(Holds(ss[i], role) && Holds(ss[j], role))
  }

  ghost predicate AlarmInv(r: Room) {
    if !Live(r) then r.alarm.None?
    else
      && r.alarm.Some? && r.alarm.value <= r.row.value.expiresAt
      && forall i :: 0 <= i < |r.sockets| && !r.sockets[i].at.bound ==>
           r.alarm.value <= r.sockets[i].at.connectedAt + BIND_DEADLINE_MS
  }

  ghost predicate LogInv(row: Option<Row>, log: seq<Forwarded>) {
    if row.None? then log == []
    else
      var w := row.value;
      && w.forwardedBytes == Bytes(log) <= MAX_FORWARDED_BYTES
      && w.listenerCandidates == Candidates(log, Listener) <= MAX_CANDIDATES
      && w.joinerCandidates == Candidates(log, Joiner) <= MAX_CANDIDATES
      && (w.answerSeen ==> w.offerSeen)
      && Descriptions(log) == (if !w.offerSeen then [] else if !w.answerSeen then [(Joiner, Offer)]
                               else [(Joiner, Offer), (Listener, Answer)])
      && (w.lifecycle == Closed <==> w.reason.Some?)
  }

  ghost predicate Inv(r: Room) {
    && IdsInv(r)
    && |r.sockets| <= MAX_SOCKETS
    && (r.row.None? ==> r.sockets == [])
    && OnePerRole(r.sockets)
    && AlarmInv(r)
    && LogInv(r.row, r.log)
  }

  // ----- handler parts -----

  lemma {:induction false} EarliestCovers(ss: seq<Socket>, limit: int)
    ensures Earliest(ss, limit) <= limit
    ensures forall i :: 0 <= i < |ss| && !ss[i].at.bound ==>
              Earliest(ss, limit) <= ss[i].at.connectedAt + BIND_DEADLINE_MS
    ensures Earliest(ss, limit) == limit
            || exists i :: 0 <= i < |ss| && !ss[i].at.bound
                           && Earliest(ss, limit) == ss[i].at.connectedAt + BIND_DEADLINE_MS
  {
    if ss != [] {
      var front := ss[..|ss| - 1];
      EarliestCovers(front, limit);
      forall i | 0 <= i < |ss| && !ss[i].at.bound
        ensures Earliest(ss, limit) <= ss[i].at.connectedAt + BIND_DEADLINE_MS
      {
        if i < |front| { assert front[i] == ss[i]; }
      }
      if Earliest(ss, limit) == Earliest(front, limit) != limit {
        var i :| 0 <= i < |front| && !front[i].at.bound
                 && Earliest(front, limit) == front[i].at.connectedAt + BIND_DEADLINE_MS;
        assert ss[i] == front[i];
      }
    }
  }

  lemma ScheduleCovers(r: Room)
    ensures AlarmInv(Schedule(r))
    ensures var r' := Schedule(r);
            r'.sockets == r.sockets && r'.row == r.row && r'.log == r.log && r'.nextId == r.nextId
  {
    if Live(r) { EarliestCovers(r.sockets, r.row.value.expiresAt); }
  }

  /** Sockets may close, but none opens and no attachment changes. */
  ghost predicate OnlyCloses(ss: seq<Socket>, ss': seq<Socket>) {
    |ss'| == |ss| && forall i :: 0 <= i < |ss| ==> ss'[i] == ss[i].(open := ss'[i].open) && (ss'[i].open ==> ss[i].open)
  }

  lemma ClosingKeeps(r: Room, r': Room)
    requires IdsInv(r) && OnePerRole(r.sockets) && OnlyCloses(r.sockets, r'.sockets) && r'.nextId == r.nextId
    ensures IdsInv(r') && OnePerRole(r'.sockets)
  {
  }

  lemma RejectKeeps(r: Room, ws: nat)
    requires Inv(r)
    ensures Inv(Reject(r, ws))
  {
    ClosingKeeps(r, Reject(r, ws));
  }

  lemma CloseRoomKeeps(r: Room, reason: Reason)
    requires Inv(r)
    ensures Inv(CloseRoom(r, reason))
  {
    if Live(r) { ClosingKeeps(r, CloseRoom(r, reason)); }
  }

  lemma FetchKeeps(r: Room, upgrade: bool, now: int)
    requires Inv(r)
    ensures Inv(Fetch(r, upgrade, now))
  {
    if Live(r) && r.row.value.expiresAt <= now {
      CloseRoomKeeps(r, Expired);
    } else if Live(r) && upgrade && |r.sockets| < MAX_SOCKETS {
      var s := Socket(r.nextId, true, Attachment(now, false, None));
      ScheduleCovers(r.(sockets := r.sockets + [s], nextId := r.nextId + 1));
    }
  }

  /** Writing a role into one attachment adds at most that socket to the role. */
  lemma AttachKeepsRoles(r: Room, ws: nat, at: Attachment, role: Role)
    requires IdsInv(r) && OnePerRole(r.sockets) && !Occupied(r.sockets, role, Some(ws))
    ensures OnePerRole(Attach(r.sockets, ws, at.(bound := true, role := Some(role))))
  {
    var ss := r.sockets;
    var ss' := Attach(ss, ws, at.(bound := true, role := Some(role)));
    forall i, j, q: Role | 0 <= i < j < |ss'| ensures !(Holds(ss'[i], q) && Holds(ss'[j], q)) {
      assert ss[i].id != ss[j].id;
      if ss[i].id == ws {
        assert !Holds(ss[j], role);
      } else if ss[j].id == ws {
        assert !Holds(ss[i], role);
      }
    }
  }

  lemma FinishBindKeeps(r: Room, ws: nat, at: Attachment, role: Role, now: int)
    requires Inv(r)
    ensures Inv(FinishBind(r, ws, at, role, now))
  {
    if r.row.Some? {
      if Occupied(r.sockets, role, Some(ws)) {
        RejectKeeps(r, ws);
      } else {
        AttachKeepsRoles(r, ws, at, role);
        var r1 := WriteBind(r, ws, at, role);
        assert IdsInv(r1);
        if ExpiresIn(r.row.value.expiresAt, now) > MAX_EXPIRES_IN {
          RejectKeeps(r1, ws);
        } else {
          ScheduleCovers(r1);
        }
      }
    }
  }

  lemma CountKeepsLog(w: Row, log: seq<Forwarded>, role: Role, frame: Frame)
    requires LogInv(Some(w), log) && MayForward(w, role, frame) && !frame.Bind? && !frame.Leave? && !frame.Malformed?
    ensures LogInv(Some(Count(w, role, frame)), log + [Forwarded(role, frame)])
  {
    var log' := log + [Forwarded(role, frame)];
    assert log'[..|log'| - 1] == log;
  }

  lemma ForwardKeeps(r: Room, ws: nat, role: Option<Role>, frame: Frame)
    requires Inv(r) && Live(r) && !frame.Bind? && !frame.Leave? && !frame.Malformed?
    ensures Inv(Forward(r, ws, role, frame))
  {
    if role.None? || !Occupied(r.sockets, Other(role.value), None) || !MayForward(r.row.value, role.value, frame) {
      RejectKeeps(r, ws);
    } else {
      CountKeepsLog(r.row.value, r.log, role.value, frame);
    }
  }

  lemma MessageKeeps(r: Room, ws: nat, at: Attachment, frame: Frame, now: int)
    requires Inv(r)
    ensures Inv(Message(r, ws, at, frame, now))
  {
    if Live(r) && r.row.value.expiresAt > now && !frame.Malformed? {
      if at.bound {
        if frame.Leave? { CloseRoomKeeps(r, PeerLeft); }
        else if frame.Bind? { RejectKeeps(r, ws); }
        else { ForwardKeeps(r, ws, at.role, frame); }
      } else if now <= at.connectedAt + BIND_DEADLINE_MS && frame.Bind? {
        if frame.role == Joiner { FinishBindKeeps(r, ws, at, Joiner, now); }
      } else {
        RejectKeeps(r, ws);
      }
    } else {
      RejectKeeps(r, ws);
      CloseRoomKeeps(r, Expired);
    }
  }

  lemma ResumeKeeps(r: Room, k: nat, now: int)
    requires Inv(r) && k < |r.suspended|
    ensures Inv(Resume(r, k, now))
  {
    var b := r.suspended[k];
    var r1 := r.(suspended := r.suspended[..k] + r.suspended[k + 1..]);
    assert Inv(r1);
    if b.genuine { FinishBindKeeps(r1, b.ws, b.at, Listener, now); } else { RejectKeeps(r1, b.ws); }
  }

  lemma AlarmKeeps(r: Room, now: int)
    requires Inv(r)
    ensures Inv(Alarm(r, now))
  {
    var r0 := r.(alarm := None);
    if Live(r0) {
      if r0.row.value.expiresAt <= now {
        ClosingKeeps(r, CloseRoom(r0, Expired));
      } else {
        var r1 := r0.(sockets := CloseLate(r0.sockets, now));
        ClosingKeeps(r, r1);
        ScheduleCovers(r1);
      }
    }
  }

  lemma CloseEventKeeps(r: Room, ws: nat, bound: bool)
    requires Inv(r)
    ensures Inv(WsClose(r, ws, bound)) && Inv(WsError(r, ws, bound))
  {
    RejectKeeps(r, ws);
    CloseRoomKeeps(Reject(r, ws), PeerLeft);
    ScheduleCovers(Reject(r, ws));
    CloseRoomKeeps(r, SocketError);
    RejectKeeps(CloseRoom(r, SocketError), ws);
  }

  lemma GoneKeeps(r: Room, i: nat)
    requires Inv(r) && i < |r.sockets|
    ensures Inv(r.(sockets := r.sockets[..i] + r.sockets[i + 1..]))
  {
    var ss, ss' := r.sockets, r.sockets[..i] + r.sockets[i + 1..];
    assert forall k :: 0 <= k < |ss'| ==> ss'[k] == ss[if k < i then k else k + 1];
  }

  lemma NextKeeps(r: Room, e: Event)
    requires Inv(r) && Next(r, e).Some?
    ensures Inv(Next(r, e).value)
  {
    match e {
      case EInitialize(_, _) =>
        assert Bytes([]) == 0 && Candidates([], Listener) == 0 && Candidates([], Joiner) == 0 && Descriptions([]) == [];
      case EFetch(upgrade, now) => FetchKeeps(r, upgrade, now);
      case EMessage(i, frame, now) => MessageKeeps(r, r.sockets[i].id, r.sockets[i].at, frame, now);
      case EResume(k, now) => ResumeKeeps(r, k, now);
      case EClose(i) => CloseEventKeeps(r, r.sockets[i].id, r.sockets[i].at.bound);
      case EError(i) => CloseEventKeeps(r, r.sockets[i].id, r.sockets[i].at.bound);
      case EGone(i) => GoneKeeps(r, i);
      case EAlarm(now) => AlarmKeeps(r, now);
    }
  }

  lemma {:induction false} RunKeeps(r: Room, es: seq<Event>)
    requires Inv(r) && Run(r, es).Some?
    ensures Inv(Run(r, es).value)
    decreases |es|
  {
    if es != [] {
      NextKeeps(r, es[0]);
      RunKeeps(Next(r, es[0]).value, es[1..]);
    }
  }

  // ----- what holds in every reachable room -----

  lemma ReachableInv(es: seq<Event>)
    requires Run(NewRoom(), es).Some?
    ensures Inv(Run(NewRoom(), es).value)
  {
    RunKeeps(NewRoom(), es);
  }

  /** At most one open socket is bound to each role, whatever binds are suspended and however they resume. */
  lemma OneSocketPerRole(es: seq<Event>, i: nat, j: nat, role: Role)
    requires Run(NewRoom(), es).Some?
    requires i < |Run(NewRoom(), es).value.sockets| && j < |Run(NewRoom(), es).value.sockets|
    requires Holds(Run(NewRoom(), es).value.sockets[i], role) && Holds(Run(NewRoom(), es).value.sockets[j], role)
    ensures i == j
  {
    ReachableInv(es);
  }

  /** Budgets and order over the whole history of forwarded frames. */
  lemma BudgetsHold(es: seq<Event>)
    requires Run(NewRoom(), es).Some?
    ensures
      var r := Run(NewRoom(), es).value;
      && Bytes(r.log) <= MAX_FORWARDED_BYTES
      && Candidates(r.log, Listener) <= MAX_CANDIDATES && Candidates(r.log, Joiner) <= MAX_CANDIDATES
      && Descriptions(r.log) <= [(Joiner, Offer), (Listener, Answer)]
      && (r.row.Some? ==>
            && r.row.value.forwardedBytes == Bytes(r.log)
            && r.row.value.listenerCandidates == Candidates(r.log, Listener)
            && r.row.value.joinerCandidates == Candidates(r.log, Joiner))
  {
    ReachableInv(es);
    assert Bytes([]) == 0 && Candidates([], Listener) == 0 && Candidates([], Joiner) == 0 && Descriptions([]) == [];
  }

  /** A live room always has an alarm early enough for its expiry and for every bind deadline. */
  lemma AlarmIsInTime(es: seq<Event>)
    requires Run(NewRoom(), es).Some? && Live(Run(NewRoom(), es).value)
    ensures
      var r := Run(NewRoom(), es).value;
      && |r.sockets| <= MAX_SOCKETS
      && r.alarm.Some? && r.alarm.value <= r.row.value.expiresAt
      && forall i :: 0 <= i < |r.sockets| && !r.sockets[i].at.bound ==>
           r.alarm.value <= r.sockets[i].at.connectedAt + BIND_DEADLINE_MS
  {
    ReachableInv(es);
  }

  // ----- one frame -----

  /** A frame from a bound socket of a live, unexpired room is forwarded exactly
      when the other role is present and the frame is within order and budgets;
      otherwise the counters and the log stay as they are. */
  lemma ForwardedExactlyWhen(r: Room, ws: nat, at: Attachment, frame: Frame, now: int)
    requires Live(r) && r.row.value.expiresAt > now && at.bound && at.role.Some?
    requires frame.Description? || frame.Candidate? || frame.EndOfCandidates?
    ensures
      var r' := Message(r, ws, at, frame, now);
      if Occupied(r.sockets, Other(at.role.value), None) && MayForward(r.row.value, at.role.value, frame)
      then r'.log == r.log + [Forwarded(at.role.value, frame)] && r'.sockets == r.sockets
      else r'.log == r.log && r'.row == r.row && r'.sockets == CloseSocket(r.sockets, ws)
  {
  }

  /** Every other event leaves the log, and with it every counter, unchanged. */
  lemma OnlyFramesAreForwarded(r: Room, e: Event)
    requires Next(r, e).Some?
    ensures
      var r' := Next(r, e).value;
      || r'.log == r.log
      || (e.EMessage? && Live(r) && Live(r') && r.sockets[e.i].at.role.Some?
          && r'.log == r.log + [Forwarded(r.sockets[e.i].at.role.value, e.frame)])
  {
  }

  // ----- the terminal state -----

  lemma ClosedStepStays(r: Room, e: Event)
    requires Inv(r) && r.row.Some? && r.row.value.lifecycle == Closed && Next(r, e).Some?
    ensures var r' := Next(r, e).value; r'.row == r.row && r'.log == r.log && r'.alarm.None?
  {
  }

  /** Once closed: the whole row, with its terminal reason, never changes, no
      frame is forwarded and no alarm is set, even if a suspended bind resumes. */
  lemma {:induction false} ClosedIsFinal(r: Room, es: seq<Event>)
    requires Inv(r) && r.row.Some? && r.row.value.lifecycle == Closed && Run(r, es).Some?
    ensures var r' := Run(r, es).value; r'.row == r.row && r'.log == r.log && r'.alarm.None?
    decreases |es|
  {
    if es != [] {
      NextKeeps(r, es[0]);
      ClosedStepStays(r, es[0]);
      ClosedIsFinal(Next(r, es[0]).value, es[1..]);
    }
  }

  // ----- an expired alarm works -----

  /** The alarm handler of a live, unexpired room leaves no unbound socket open past its deadline. */
  lemma AlarmEvictsLateSockets(r: Room, now: int)
    requires Live(r) && r.row.value.expiresAt > now
    ensures forall i :: 0 <= i < |Alarm(r, now).sockets| ==>
      var s := Alarm(r, now).sockets[i];
      s.open == (r.sockets[i].open && !Late(r.sockets[i], now)) && s.at == r.sockets[i].at && s.id == r.sockets[i].id
  {
  }

  // ----- roles are not permanent -----

  lemma FinishBindWrites(r: Room, ws: nat, at: Attachment, role: Role, now: int, i: nat)
    requires r.row.Some? && i < |r.sockets|
    ensures
      var ss' := FinishBind(r, ws, at, role, now).sockets;
      && |ss'| == |r.sockets| && ss'[i].id == r.sockets[i].id
      && ss'[i].at == if r.sockets[i].id == ws && !Occupied(r.sockets, role, Some(ws))
                      then at.(bound := true, role := Some(role)) else r.sockets[i].at
  {
  }

  lemma MessageWritesOthers(r: Room, j: nat, frame: Frame, now: int, i: nat)
    requires Inv(r) && i < |r.sockets| && j < |r.sockets| && (i == j ==> r.sockets[i].at.bound)
    ensures
      var ss' := Message(r, r.sockets[j].id, r.sockets[j].at, frame, now).sockets;
      |ss'| == |r.sockets| && ss'[i].id == r.sockets[i].id && ss'[i].at == r.sockets[i].at
  {
    if r.row.Some? { FinishBindWrites(r, r.sockets[j].id, r.sockets[j].at, Joiner, now, i); }
    if i != j { assert r.sockets[i].id != r.sockets[j].id; }
  }

  /** A bound socket keeps its role through an event except exactly when its own
      suspended listener bind resumes successfully after it became the joiner. */
  lemma RoleKeptExactlyWhen(r: Room, e: Event, i: nat)
    requires Inv(r) && i < |r.sockets| && r.sockets[i].at.bound && r.sockets[i].at.role.Some?
    requires Next(r, e).Some? && !e.EGone?
    ensures i < |Next(r, e).value.sockets|
    ensures
      var s, s' := r.sockets[i], Next(r, e).value.sockets[i];
      && s'.id == s.id && s'.at.bound
      && (s'.at.role == s.at.role <==>
            !(&& e.EResume? && r.suspended[e.k].ws == s.id && r.suspended[e.k].genuine
              && s.at.role == Some(Joiner) && !Occupied(r.sockets, Listener, Some(s.id))))
  {
    match e {
      case EMessage(j, frame, now) => MessageWritesOthers(r, j, frame, now, i);
      case EResume(k, now) =>
        var b := r.suspended[k];
        assert r.sockets[i].at.role.value.Listener? || r.sockets[i].at.role.value.Joiner?;
        FinishBindWrites(r.(suspended := r.suspended[..k] + r.suspended[k + 1..]), b.ws, b.at, Listener, now, i);
      case _ =>
    }
  }

  lemma {:induction false} RunExtend(r: Room, es: seq<Event>, e: Event)
    requires Run(r, es).Some? && Next(Run(r, es).value, e).Some?
    ensures Run(r, es + [e]) == Next(Run(r, es).value, e)
    decreases |es|
  {
    if es != [] {
      assert (es + [e])[1..] == es[1..] + [e];
      RunExtend(Next(r, es[0]).value, es[1..], e);
    }
  }

  lemma ListenerSuspended() returns (es: seq<Event>, r: Room)
    ensures Run(NewRoom(), es) == Some(r) && r.row.Some?
    ensures r.row.value.lifecycle != Closed && r.row.value.expiresAt == 60_000
    ensures r.sockets == [Socket(0, true, Attachment(0, false, None))]
    ensures r.suspended == [Suspended(0, Attachment(0, false, None), true)]
  {
    es := [EInitialize(0, 60_000)];
    RunExtend(NewRoom(), es, EFetch(true, 0));
    es := es + [EFetch(true, 0)];
    var e := EMessage(0, Bind(Listener, true), 1);
    RunExtend(NewRoom(), es, e);
    es := es + [e];
    r := Run(NewRoom(), es).value;
  }

  /** The exception is reachable: a socket asks to be listener, then joins, then its check completes. */
  lemma RoleCanChange() returns (es: seq<Event>, e: Event)
    ensures Run(NewRoom(), es).Some? && Run(NewRoom(), es + [e]).Some?
    ensures
      var r, r' := Run(NewRoom(), es).value, Run(NewRoom(), es + [e]).value;
      && |r.sockets| == |r'.sockets| == 1
      && Holds(r.sockets[0], Joiner) && Holds(r'.sockets[0], Listener)
  {
    var r;
    es, r := ListenerSuspended();
    var join := EMessage(0, Bind(Joiner, true), 2);
    FinishBindWrites(r, 0, r.sockets[0].at, Joiner, 2, 0);
    RunExtend(NewRoom(), es, join);
    es, r := es + [join], Next(r, join).value;
    e := EResume(0, 3);
    RunExtend(NewRoom(), es, e);
    FinishBindWrites(r.(suspended := []), 0, Attachment(0, false, None), Listener, 3, 0);
  }
}
