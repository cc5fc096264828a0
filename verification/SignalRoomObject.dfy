/** The room as the durable object it is: fields updated in place by handlers,
    sockets visited in loops. Each handler makes its transition and hands the next
    one a room in which the room's promises hold. */
module SignalRoomObject {
  import opened Wire
  import SR = SignalRoom
  import SRP = SignalRoomProofs

  class SignalRoom {
    var row: Option<SR.Row>
    var sockets: seq<SR.Socket>
    var alarm: Option<int>
    var suspended: seq<SR.Suspended>
    var nextId: nat
    ghost var log: seq<SR.Forwarded>

    ghost function State(): SR.Room
      reads this
    {
      SR.Room(row, sockets, alarm, suspended, nextId, log)
    }

    /** What every handler may count on and leaves behind. */
    ghost predicate Valid()
      reads this
    {
      SRP.Inv(State())
    }

    /** At most one open socket holds each role. */
    ghost predicate OneHolderPerRole()
      reads this
    {
      forall i, j, role: SR.Role :: 0 <= i < j < |sockets| ==>
        !(SR.Holds(sockets[i], role) && SR.Holds(sockets[j], role))
    }

    /** The row's counters are those of the forwarded frames, within order and budgets. */
    ghost predicate CountersMatchLog()
      reads this
    {
      && SRP.Bytes(log) <= SR.MAX_FORWARDED_BYTES
      && SRP.Candidates(log, SR.Listener) <= SR.MAX_CANDIDATES && SRP.Candidates(log, SR.Joiner) <= SR.MAX_CANDIDATES
      && SRP.Descriptions(log) <= [(SR.Joiner, SR.Offer), (SR.Listener, SR.Answer)]
      && (row.Some? ==>
            && row.value.forwardedBytes == SRP.Bytes(log)
            && row.value.listenerCandidates == SRP.Candidates(log, SR.Listener)
            && row.value.joinerCandidates == SRP.Candidates(log, SR.Joiner))
    }

    /** A live room has an alarm for its expiry and every bind deadline; any other has none. */
    ghost predicate AlarmInTime()
      reads this
    {
      && |sockets| <= SR.MAX_SOCKETS
      && if row.None? || row.value.lifecycle == SR.Closed then alarm.None?
         else
           && alarm.Some? && alarm.value <= row.value.expiresAt
           && forall i :: 0 <= i < |sockets| && !sockets[i].at.bound ==>
                alarm.value <= sockets[i].at.connectedAt + SR.BIND_DEADLINE_MS
    }

    /** The promises of the room after a handler that found it in the state `before`. */
    ghost predicate Handled(before: SR.Room)
      reads this
    {
      && Valid() && OneHolderPerRole() && CountersMatchLog() && AlarmInTime()
      && before.log <= log
      && (before.row.Some? && before.row.value.lifecycle == SR.Closed ==> row == before.row && log == before.log)
    }

    lemma Promises()
      requires Valid()
      ensures OneHolderPerRole() && CountersMatchLog() && AlarmInTime()
    {
      assert SRP.Bytes([]) == 0 && SRP.Descriptions([]) == [];
      assert SRP.Candidates([], SR.Listener) == 0 && SRP.Candidates([], SR.Joiner) == 0;
    }

    /** Every event of the room keeps its promises. */
    lemma EventHandled(before: SR.Room, e: SR.Event)
      requires SRP.Inv(before) && SR.Next(before, e) == Some(State())
      ensures Handled(before)
    {
      SRP.NextKeeps(before, e);
      SRP.OnlyFramesAreForwarded(before, e);
      Promises();
      if before.row.Some? && before.row.value.lifecycle == SR.Closed {
        SRP.ClosedStepStays(before, e);
      }
    }

    constructor ()
      ensures State() == SR.NewRoom()
      ensures Handled(SR.NewRoom())
    {
      row, sockets, alarm, suspended, nextId, log := None, [], None, [], 0, [];
      new;
      Promises();
    }

    /** First open socket, other than `except`, that holds the role. */
    method BoundSocket(role: SR.Role, except: Option<nat>) returns (found: Option<nat>)
      ensures found.Some? <==> SR.Occupied(sockets, role, except)
      ensures found.Some? ==>
                exists i :: 0 <= i < |sockets| && sockets[i].id == found.value && SR.Holds(sockets[i], role)
    {
      for i := 0 to |sockets|
        invariant forall j :: 0 <= j < i ==> Some(sockets[j].id) == except || !SR.Holds(sockets[j], role)
      {
        if Some(sockets[i].id) != except && sockets[i].open && sockets[i].at.bound && sockets[i].at.role == Some(role) {
          return Some(sockets[i].id);
        }
      }
      return None;
    }

    method ScheduleNextAlarm()
      modifies this`alarm
      ensures State() == SR.Schedule(old(State()))
      ensures SRP.AlarmInv(State())
    {
      SRP.ScheduleCovers(State());
      if row.None? || row.value.lifecycle == SR.Closed {
        alarm := None;
        return;
      }
      var next := row.value.expiresAt;
      for i := 0 to |sockets|
        invariant next == SR.Earliest(sockets[..i], row.value.expiresAt)
      {
        assert sockets[..i + 1][..i] == sockets[..i];
        if !sockets[i].at.bound && sockets[i].at.connectedAt + SR.BIND_DEADLINE_MS < next {
          next := sockets[i].at.connectedAt + SR.BIND_DEADLINE_MS;
        }
      }
      assert sockets[..|sockets|] == sockets;
      alarm := Some(next);
    }

    method SafeClose(ws: nat)
      modifies this`sockets
      ensures State() == SR.Reject(old(State()), ws)
      ensures old(Valid()) ==> Valid()
    {
      ghost var state := State();
      var before := sockets;
      for i := 0 to |sockets|
        invariant |sockets| == |before|
        invariant forall j :: i <= j < |before| ==> sockets[j] == before[j]
        invariant forall j :: 0 <= j < i ==> sockets[j] == SR.CloseSocket(before, ws)[j]
      {
        if sockets[i].id == ws && sockets[i].open {
          sockets := sockets[i := sockets[i].(open := false)];
        }
      }
      assert sockets == SR.CloseSocket(before, ws);
      if SRP.Inv(state) {
        SRP.RejectKeeps(state, ws);
      }
    }

    method CloseRoom(reason: SR.Reason)
      modifies this`row, this`alarm, this`sockets
      ensures State() == SR.CloseRoom(old(State()), reason)
      ensures old(Valid()) ==> Valid()
    {
      ghost var state := State();
      if row.None? || row.value.lifecycle == SR.Closed {
        return;
      }
      row := Some(row.value.(lifecycle := SR.Closed, reason := Some(reason)));
      alarm := None;
      var before := sockets;
      for i := 0 to |sockets|
        invariant |sockets| == |before| && alarm.None?
        invariant row == Some(old(row).value.(lifecycle := SR.Closed, reason := Some(reason)))
        invariant forall j :: i <= j < |before| ==> sockets[j] == before[j]
        invariant forall j :: 0 <= j < i ==> sockets[j] == SR.CloseAll(before)[j]
      {
        sockets := sockets[i := sockets[i].(open := false)];
      }
      assert sockets == SR.CloseAll(before);
      if SRP.Inv(state) {
        SRP.CloseRoomKeeps(state, reason);
      }
    }

    method Initialize(secretHash: nat, expiresAt: int) returns (created: bool, matches: bool)
      requires Valid()
      modifies this
      ensures State() == SR.Initialize(old(State()), secretHash, expiresAt)
      ensures Handled(old(State()))
      ensures created <==> old(row).None?
      ensures matches <==> row.Some? && row.value.secretHash == secretHash
    {
      ghost var before := State();
      if row.Some? {
        created, matches := false, row.value.secretHash == secretHash;
      } else {
        row := Some(SR.Row(SR.ListenerCreated, expiresAt, secretHash, 0, 0, 0, false, false, None));
        alarm := Some(expiresAt);
        created, matches := true, true;
      }
      EventHandled(before, SR.EInitialize(secretHash, expiresAt));
    }

    /** Accepts an upgrade exactly in a live, unexpired room with a place left. */
    method Fetch(upgrade: bool, now: int) returns (accepted: bool)
      requires Valid()
      modifies this
      ensures State() == SR.Fetch(old(State()), upgrade, now)
      ensures accepted <==>
                old(SR.Live(State())) && old(row).value.expiresAt > now && upgrade && |old(sockets)| < SR.MAX_SOCKETS
      ensures accepted ==> sockets == old(sockets) + [SR.Socket(old(nextId), true, SR.Attachment(now, false, None))]
      ensures Handled(old(State()))
    {
      ghost var before := State();
      accepted := false;
      if row.Some? && row.value.lifecycle != SR.Closed {
        if row.value.expiresAt <= now {
          CloseRoom(SR.Expired);
        } else if upgrade && |sockets| < SR.MAX_SOCKETS {
          sockets := sockets + [SR.Socket(nextId, true, SR.Attachment(now, false, None))];
          nextId := nextId + 1;
          ScheduleNextAlarm();
          accepted := true;
        }
      }
      EventHandled(before, SR.EFetch(upgrade, now));
    }

    method WebSocketMessage(i: nat, frame: SR.Frame, now: int)
      requires Valid() && i < |sockets|
      modifies this
      ensures SR.Next(old(State()), SR.EMessage(i, frame, now)) == Some(State())
      ensures Handled(old(State()))
    {
      ghost var before := State();
      var ws, at := sockets[i].id, sockets[i].at;
      if row.None? || row.value.lifecycle == SR.Closed {
        SafeClose(ws);
      } else if row.value.expiresAt <= now {
        CloseRoom(SR.Expired);
      } else if frame.Malformed? {
        SafeClose(ws);
      } else if !at.bound {
        BindSocket(ws, at, frame, now);
      } else if frame.Bind? {
        SafeClose(ws);
      } else if frame.Leave? {
        CloseRoom(SR.PeerLeft);
      } else {
        Forward(ws, at.role, frame);
      }
      EventHandled(before, SR.EMessage(i, frame, now));
    }

    method BindSocket(ws: nat, at: SR.Attachment, frame: SR.Frame, now: int)
      modifies this
      ensures State() == SR.BindSocket(old(State()), ws, at, frame, now)
      ensures old(Valid()) ==> Valid()
    {
      if now > at.connectedAt + SR.BIND_DEADLINE_MS || !frame.Bind? {
        SafeClose(ws);
      } else if frame.role == SR.Listener {
        suspended := suspended + [SR.Suspended(ws, at, frame.genuine)];
      } else {
        FinishBind(ws, at, SR.Joiner, now);
      }
    }

    /** A secret check completes. Anything may have happened since it began. */
    method ResumeBind(k: nat, now: int)
      requires Valid() && k < |suspended|
      modifies this
      ensures SR.Next(old(State()), SR.EResume(k, now)) == Some(State())
      ensures Handled(old(State()))
    {
      ghost var before := State();
      var b := suspended[k];
      suspended := suspended[..k] + suspended[k + 1..];
      if b.genuine {
        FinishBind(b.ws, b.at, SR.Listener, now);
      } else {
        SafeClose(b.ws);
      }
      EventHandled(before, SR.EResume(k, now));
    }

    method FinishBind(ws: nat, at: SR.Attachment, role: SR.Role, now: int)
      modifies this
      ensures State() == SR.FinishBind(old(State()), ws, at, role, now)
      ensures old(Valid()) ==> Valid()
    {
      if Valid() {
        SRP.FinishBindKeeps(State(), ws, at, role, now);
      }
      if row.None? {
        return;
      }
      var holder := BoundSocket(role, Some(ws));
      if holder.Some? {
        SafeClose(ws);
        return;
      }
      sockets := SR.Attach(sockets, ws, at.(bound := true, role := Some(role)));
      var other := BoundSocket(SR.Other(role), None);
      var listener := role == SR.Listener || other.Some?;
      var joiner := role == SR.Joiner || other.Some?;
      if row.value.lifecycle != SR.Closed {
        row := Some(row.value.(lifecycle := if listener && joiner then SR.Paired
                                            else if listener then SR.ListenerBound else SR.ListenerCreated));
      }
      if SR.ExpiresIn(row.value.expiresAt, now) > SR.MAX_EXPIRES_IN {
        SafeClose(ws);
      } else {
        ScheduleNextAlarm();
      }
    }

    method Forward(ws: nat, role: Option<SR.Role>, frame: SR.Frame)
      requires row.Some?
      modifies this
      ensures State() == SR.Forward(old(State()), ws, role, frame)
      ensures old(Valid()) && old(SR.Live(State())) && !frame.Bind? && !frame.Leave? && !frame.Malformed? ==> Valid()
    {
      if Valid() && SR.Live(State()) && !frame.Bind? && !frame.Leave? && !frame.Malformed? {
        SRP.ForwardKeeps(State(), ws, role, frame);
      }
      if role.None? {
        SafeClose(ws);
        return;
      }
      var peer := BoundSocket(SR.Other(role.value), None);
      if peer.None? {
        SafeClose(ws);
        return;
      }
      var w := row.value;
      if frame.Description? && !SR.LegalDescription(w, role.value, frame.sdp) {
        SafeClose(ws);
        return;
      }
      var bytes := SR.SizeOf(frame);
      if w.forwardedBytes + bytes > SR.MAX_FORWARDED_BYTES {
        SafeClose(ws);
        return;
      }
      if frame.Candidate? {
        var count := if role.value == SR.Listener then w.listenerCandidates else w.joinerCandidates;
        if count >= SR.MAX_CANDIDATES {
          SafeClose(ws);
          return;
        }
        w := if role.value == SR.Listener then w.(listenerCandidates := count + 1)
             else w.(joinerCandidates := count + 1);
      } else if frame.Description? {
        w := if frame.sdp == SR.Offer then w.(offerSeen := true) else w.(answerSeen := true);
      }
      row := Some(w.(forwardedBytes := w.forwardedBytes + bytes));
      log := log + [SR.Forwarded(role.value, frame)];
    }

    method WebSocketClose(i: nat)
      requires Valid() && i < |sockets|
      modifies this
      ensures SR.Next(old(State()), SR.EClose(i)) == Some(State())
      ensures Handled(old(State()))
    {
      ghost var before := State();
      var ws, bound := sockets[i].id, sockets[i].at.bound;
      SafeClose(ws);
      if bound {
        CloseRoom(SR.PeerLeft);
      } else {
        ScheduleNextAlarm();
      }
      EventHandled(before, SR.EClose(i));
    }

    method WebSocketError(i: nat)
      requires Valid() && i < |sockets|
      modifies this
      ensures SR.Next(old(State()), SR.EError(i)) == Some(State())
      ensures Handled(old(State()))
    {
      ghost var before := State();
      var ws, bound := sockets[i].id, sockets[i].at.bound;
      if bound {
        CloseRoom(SR.SocketError);
      }
      SafeClose(ws);
      EventHandled(before, SR.EError(i));
    }

    method AlarmFired(now: int)
      requires Valid() && alarm.Some? && alarm.value <= now
      modifies this
      ensures SR.Next(old(State()), SR.EAlarm(now)) == Some(State())
      ensures Handled(old(State()))
    {
      ghost var before := State();
      alarm := None;
      if row.Some? && row.value.lifecycle != SR.Closed {
        if row.value.expiresAt <= now {
          CloseRoom(SR.Expired);
        } else {
          EvictLateSockets(now);
          ScheduleNextAlarm();
        }
      }
      EventHandled(before, SR.EAlarm(now));
    }

    /** Closes exactly the unbound sockets past their deadline. */
    method EvictLateSockets(now: int)
      modifies this`sockets
      ensures sockets == SR.CloseLate(old(sockets), now)
    {
      var before := sockets;
      for i := 0 to |sockets|
        invariant |sockets| == |before|
        invariant forall j :: i <= j < |before| ==> sockets[j] == before[j]
        invariant forall j :: 0 <= j < i ==> sockets[j] == SR.CloseLate(before, now)[j]
      {
        if !sockets[i].at.bound && sockets[i].at.connectedAt + SR.BIND_DEADLINE_MS <= now {
          sockets := sockets[i := sockets[i].(open := false)];
        }
      }
      assert sockets == SR.CloseLate(before, now);
    }
  }
}
