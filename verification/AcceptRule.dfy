/** The server's accept rule under concurrency: connection tasks classify
    themselves under one lock, the running session opens and closes its stream
    window with two separate atomics, and a guard frees the single test slot on
    every exit, failure and panic included. */
module AcceptRule {
  import opened Sequences
  import opened Wire

  /** Created .. Started: the session's own progress. Over: run returned or
      panicked, guard not yet dropped. Gone: guard dropped. */
  datatype Phase = Created | SlotsStored | Collecting | WindowClosed | Started | Over | Gone

  /** claimed: slots taken so far. queue: channels sent to the session and not
      yet collected. streams: connections collected, in order. */
  datatype Session = Session(
    cookie: nat, phase: Phase, awaiting: bool, remaining: nat,
    parallel: nat, claimed: nat, queue: seq<nat>, streams: seq<nat>)

  /** A connection after its cookie was read. Claiming(s) holds the lock between
      the window load and the slot update. */
  datatype ConnPc =
    | Arrived | Claiming(s: nat) | Converting(s: nat) | Delivered(s: nat) | Dropped | Busy | Control(s: nat)

  datatype Conn = Conn(cookie: nat, pc: ConnPc)

  datatype Core = Core(active: Option<nat>, lock: Option<nat>, sessions: seq<Session>, conns: seq<Conn>)

  function Init(): Core { Core(None, None, [], []) }

  datatype Event =
    | Arrive(cookie: nat)
    | Classify(c: nat)
    | Claim(c: nat)
    | Convert(c: nat, ok: bool)
    | StoreSlots(s: nat, parallel: nat)
    | OpenWindow(s: nat)
    | Collect(s: nat)
    | CloseWindow(s: nat)
    | WriteTestStart(s: nat)
    | Finish(s: nat)
    | DropGuard(s: nat)

  function SetConn(k: Core, c: nat, pc: ConnPc): Core
    requires c < |k.conns|
  {
    k.(conns := k.conns[c := k.conns[c].(pc := pc)])
  }

  function SetSession(k: Core, s: nat, v: Session): Core
    requires s < |k.sessions|
  {
    k.(sessions := k.sessions[s := v])
  }

  function NewSession(cookie: nat): Session { Session(cookie, Created, false, 0, 0, 0, [], []) }

  /** The decision under the lock, up to the window load. */
  function ClassifyNext(k: Core, c: nat): Option<Core> {
    if c >= |k.conns| || k.conns[c].pc != Arrived || k.lock.Some? then None
    else if k.active.None? then
      Some(SetConn(k.(sessions := k.sessions + [NewSession(k.conns[c].cookie)], active := Some(|k.sessions|)),
                   c, Control(|k.sessions|)))
    else if k.active.value < |k.sessions| && k.sessions[k.active.value].cookie == k.conns[c].cookie
            && k.sessions[k.active.value].awaiting then
      Some(SetConn(k, c, Claiming(k.active.value)).(lock := Some(c)))
    else Some(SetConn(k, c, Busy))
  }

  /** The slot update, still under the lock. */
  function ClaimNext(k: Core, c: nat): Option<Core> {
    if c >= |k.conns| || !k.conns[c].pc.Claiming? || k.conns[c].pc.s >= |k.sessions| then None
    else
      var s := k.conns[c].pc.s;
      var v := k.sessions[s];
      if v.remaining == 0 then Some(SetConn(k, c, Busy).(lock := None))
      else Some(SetSession(SetConn(k, c, Converting(s)).(lock := None), s,
                           v.(remaining := v.remaining - 1, claimed := v.claimed + 1)))
  }

  /** Outside the lock: a failed conversion loses the slot; a session that is over takes nothing. */
  function ConvertNext(k: Core, c: nat, ok: bool): Option<Core> {
    if c >= |k.conns| || !k.conns[c].pc.Converting? || k.conns[c].pc.s >= |k.sessions| then None
    else
      var s := k.conns[c].pc.s;
      var v := k.sessions[s];
      if !ok || v.phase == Over || v.phase == Gone then Some(SetConn(k, c, Dropped))
      else Some(SetSession(SetConn(k, c, Delivered(s)), s, v.(queue := v.queue + [c])))
  }

  function SessionNext(v: Session, e: Event): Option<Session> {
    match e
    case StoreSlots(_, n) =>
      if v.phase == Created && 1 <= n <= MAX_PARALLEL then
        Some(v.(phase := SlotsStored, remaining := n, parallel := n))
      else None
    case OpenWindow(_) => if v.phase == SlotsStored then Some(v.(phase := Collecting, awaiting := true)) else None
    case Collect(_) =>
      if v.phase == Collecting && |v.streams| < v.parallel && v.queue != [] then
        Some(v.(streams := v.streams + [v.queue[0]], queue := v.queue[1..]))
      else None
    case CloseWindow(_) =>
      if v.phase == Collecting && |v.streams| == v.parallel then
        Some(v.(phase := WindowClosed, awaiting := false))
      else None
    case WriteTestStart(_) => if v.phase == WindowClosed then Some(v.(phase := Started)) else None
    case Finish(_) => if v.phase != Over && v.phase != Gone then Some(v.(phase := Over)) else None
    case _ => None
  }

  /** The guard clears whatever handle is installed; it needs the lock. */
  function DropNext(k: Core, s: nat): Option<Core> {
    if s < |k.sessions| && k.sessions[s].phase == Over && k.lock.None? then
      Some(SetSession(k, s, k.sessions[s].(phase := Gone)).(active := None))
    else None
  }

  function Next(k: Core, e: Event): Option<Core> {
    match e
    case Arrive(cookie) => Some(k.(conns := k.conns + [Conn(cookie, Arrived)]))
    case Classify(c) => ClassifyNext(k, c)
    case Claim(c) => ClaimNext(k, c)
    case Convert(c, ok) => ConvertNext(k, c, ok)
    case DropGuard(s) => DropNext(k, s)
    case _ =>
      if e.s >= |k.sessions| then None
      else
        var v := SessionNext(k.sessions[e.s], e);
        if v.Some? then Some(SetSession(k, e.s, v.value)) else None
  }

  function Run(k: Core, es: seq<Event>): Option<Core>
    decreases |es|
  {
    if es == [] then Some(k)
    else
      var k1 := Next(k, es[0]);
      if k1.Some? then Run(k1.value, es[1..]) else None
  }

  // ----- invariants -----

  /** The slot holds a session's handle exactly while that session's guard is alive. */
  ghost predicate SlotInv(k: Core) {
    && (k.active.Some? ==> k.active.value < |k.sessions|)
    && forall s :: 0 <= s < |k.sessions| ==> (k.sessions[s].phase != Gone <==> k.active == Some(s))
  }

  ghost predicate LockInv(k: Core) {
    && (k.lock.Some? ==> k.lock.value < |k.conns| && k.conns[k.lock.value].pc.Claiming?)
    && forall c :: 0 <= c < |k.conns| && k.conns[c].pc.Claiming? ==>
         && k.lock == Some(c) && k.active == Some(k.conns[c].pc.s)
         && k.conns[c].pc.s < |k.sessions| && k.sessions[k.conns[c].pc.s].cookie == k.conns[c].cookie
  }

  predicate ConvertsFor(conn: Conn, s: nat) { conn.pc == Converting(s) }

  /** Connections that claimed a slot of session s and have not delivered or lost it. */
  function Pending(conns: seq<Conn>, s: nat): nat {
    if conns == [] then 0 else Pending(conns[1..], s) + if ConvertsFor(conns[0], s) then 1 else 0
  }

  /** Slots left plus slots claimed is the stream count, from the moment it is stored. */
  ghost predicate SessionInv(v: Session, pending: nat) {
    && v.remaining + v.claimed == v.parallel <= MAX_PARALLEL
    && |v.streams| + |v.queue| + pending <= v.claimed
    && (v.phase == Created ==> v.parallel == 0)
    && (v.phase == WindowClosed || v.phase == Started ==> |v.streams| == v.parallel)
    && (v.phase != Collecting && v.phase != Over && v.phase != Gone ==> !v.awaiting)
  }

  ghost predicate SessionsInv(k: Core) {
    forall s :: 0 <= s < |k.sessions| ==> SessionInv(k.sessions[s], Pending(k.conns, s))
  }

  /** Every channel of a session is a distinct connection that carried its cookie. */
  ghost predicate OwnedBy(k: Core, s: nat, q: seq<nat>)
    requires s < |k.sessions|
  {
    forall i :: 0 <= i < |q| ==> q[i] < |k.conns| && k.conns[q[i]] == Conn(k.sessions[s].cookie, Delivered(s))
  }

  ghost predicate Owned(k: Core, s: nat)
    requires s < |k.sessions|
  {
    var q := k.sessions[s].streams + k.sessions[s].queue;
    NoDuplicates(q) && OwnedBy(k, s, q)
  }

  ghost predicate StreamsInv(k: Core) {
    && (forall s :: 0 <= s < |k.sessions| ==> Owned(k, s))
    && (forall c :: 0 <= c < |k.conns| && k.conns[c].pc.Converting? ==>
          k.conns[c].pc.s < |k.sessions| && k.sessions[k.conns[c].pc.s].cookie == k.conns[c].cookie)
  }

  ghost predicate Inv(k: Core) {
    SlotInv(k) && LockInv(k) && SessionsInv(k) && StreamsInv(k)
  }

  // ----- every step -----

  lemma {:induction false} PendingUpdate(conns: seq<Conn>, c: nat, conn: Conn, s: nat)
    requires c < |conns|
    ensures Pending(conns[c := conn], s) + (if ConvertsFor(conns[c], s) then 1 else 0)
         == Pending(conns, s) + (if ConvertsFor(conn, s) then 1 else 0)
  {
    var after := conns[c := conn];
    if c == 0 {
      assert after[1..] == conns[1..];
    } else {
      assert after[1..] == conns[1..][c - 1 := conn];
      PendingUpdate(conns[1..], c - 1, conn, s);
    }
  }

  lemma {:induction false} PendingAppend(conns: seq<Conn>, conn: Conn, s: nat)
    requires !ConvertsFor(conn, s)
    ensures Pending(conns + [conn], s) == Pending(conns, s)
  {
    if conns == [] {
      assert conns + [conn] == [conn];
    } else {
      assert (conns + [conn])[1..] == conns[1..] + [conn];
      PendingAppend(conns[1..], conn, s);
    }
  }

  lemma {:induction false} NonePending(conns: seq<Conn>, s: nat)
    requires forall c :: 0 <= c < |conns| ==> !ConvertsFor(conns[c], s)
    ensures Pending(conns, s) == 0
  {
    if conns != [] {
      NonePending(conns[1..], s);
    }
  }

  lemma ArriveKeeps(k: Core, cookie: nat)
    requires Inv(k)
    ensures Inv(Next(k, Arrive(cookie)).value)
  {
    var k1 := Next(k, Arrive(cookie)).value;
    forall s | 0 <= s < |k1.sessions|
      ensures SessionInv(k1.sessions[s], Pending(k1.conns, s)) && Owned(k1, s)
    {
      PendingAppend(k.conns, Conn(cookie, Arrived), s);
      assert Owned(k, s);
    }
  }

  lemma ClassifySlot(k: Core, c: nat)
    requires SlotInv(k) && LockInv(k) && ClassifyNext(k, c).Some?
    ensures SlotInv(ClassifyNext(k, c).value) && LockInv(ClassifyNext(k, c).value)
  {
  }

  lemma ClassifySessions(k: Core, c: nat)
    requires SessionsInv(k) && StreamsInv(k) && ClassifyNext(k, c).Some?
    ensures SessionsInv(ClassifyNext(k, c).value)
  {
    var k1 := ClassifyNext(k, c).value;
    forall s | 0 <= s < |k1.sessions|
      ensures SessionInv(k1.sessions[s], Pending(k1.conns, s))
    {
      PendingUpdate(k.conns, c, k1.conns[c], s);
      if s == |k.sessions| {
        NonePending(k.conns, s);
      }
    }
  }

  lemma ClassifyStreams(k: Core, c: nat)
    requires StreamsInv(k) && ClassifyNext(k, c).Some?
    ensures StreamsInv(ClassifyNext(k, c).value)
  {
    var k1 := ClassifyNext(k, c).value;
    forall s | 0 <= s < |k1.sessions|
      ensures Owned(k1, s)
    {
      if s < |k.sessions| {
        assert k1.sessions[s] == k.sessions[s] && Owned(k, s);
      }
    }
  }

  lemma ClaimSlot(k: Core, c: nat)
    requires SlotInv(k) && LockInv(k) && ClaimNext(k, c).Some?
    ensures SlotInv(ClaimNext(k, c).value) && LockInv(ClaimNext(k, c).value)
  {
  }

  lemma ClaimSessions(k: Core, c: nat)
    requires SessionsInv(k) && ClaimNext(k, c).Some?
    ensures SessionsInv(ClaimNext(k, c).value)
  {
    var k1 := ClaimNext(k, c).value;
    forall s | 0 <= s < |k1.sessions|
      ensures SessionInv(k1.sessions[s], Pending(k1.conns, s))
    {
      PendingUpdate(k.conns, c, k1.conns[c], s);
    }
  }

  lemma ClaimStreams(k: Core, c: nat)
    requires LockInv(k) && StreamsInv(k) && ClaimNext(k, c).Some?
    ensures StreamsInv(ClaimNext(k, c).value)
  {
    var k1 := ClaimNext(k, c).value;
    forall s | 0 <= s < |k1.sessions|
      ensures Owned(k1, s)
    {
      assert Owned(k, s);
      assert k1.sessions[s].streams == k.sessions[s].streams && k1.sessions[s].queue == k.sessions[s].queue;
    }
  }

  lemma ConvertSlot(k: Core, c: nat, ok: bool)
    requires SlotInv(k) && LockInv(k) && ConvertNext(k, c, ok).Some?
    ensures SlotInv(ConvertNext(k, c, ok).value) && LockInv(ConvertNext(k, c, ok).value)
  {
  }

  lemma ConvertSessions(k: Core, c: nat, ok: bool)
    requires SessionsInv(k) && ConvertNext(k, c, ok).Some?
    ensures SessionsInv(ConvertNext(k, c, ok).value)
  {
    var k1 := ConvertNext(k, c, ok).value;
    forall s | 0 <= s < |k1.sessions|
      ensures SessionInv(k1.sessions[s], Pending(k1.conns, s))
    {
      PendingUpdate(k.conns, c, k1.conns[c], s);
    }
  }

  lemma ConvertStreams(k: Core, c: nat, ok: bool)
    requires StreamsInv(k) && ConvertNext(k, c, ok).Some?
    ensures StreamsInv(ConvertNext(k, c, ok).value)
  {
    var k1 := ConvertNext(k, c, ok).value;
    var d := k.conns[c].pc.s;
    forall s | 0 <= s < |k1.sessions|
      ensures Owned(k1, s)
    {
      assert Owned(k, s);
      var q := k.sessions[s].streams + k.sessions[s].queue;
      var q1 := k1.sessions[s].streams + k1.sessions[s].queue;
      assert forall i :: 0 <= i < |q| ==> q[i] != c;
      assert q1 == q || (s == d && q1 == q + [c]);
    }
  }

  lemma SessionSlot(k: Core, s: nat, v: Session)
    requires SlotInv(k) && LockInv(k) && s < |k.sessions|
    requires v.cookie == k.sessions[s].cookie && (v.phase == Gone <==> k.sessions[s].phase == Gone)
    ensures SlotInv(SetSession(k, s, v)) && LockInv(SetSession(k, s, v))
  {
  }

  lemma SessionStep(v: Session, e: Event, pending: nat)
    requires SessionInv(v, pending) && SessionNext(v, e).Some?
    ensures SessionInv(SessionNext(v, e).value, pending)
    ensures var v1 := SessionNext(v, e).value;
            v1.cookie == v.cookie && v1.streams + v1.queue == v.streams + v.queue && v1.phase != Gone && v.phase != Gone
  {
  }

  lemma SessionStreams(k: Core, s: nat, v: Session)
    requires StreamsInv(k) && s < |k.sessions|
    requires v.cookie == k.sessions[s].cookie
    requires v.streams + v.queue == k.sessions[s].streams + k.sessions[s].queue
    ensures StreamsInv(SetSession(k, s, v))
  {
    var k1 := SetSession(k, s, v);
    forall t | 0 <= t < |k1.sessions|
      ensures Owned(k1, t)
    {
      assert Owned(k, t);
    }
  }

  lemma SessionKeeps(k: Core, e: Event)
    requires Inv(k) && Next(k, e).Some?
    requires !e.Arrive? && !e.Classify? && !e.Claim? && !e.Convert? && !e.DropGuard?
    ensures Inv(Next(k, e).value)
  {
    var v := SessionNext(k.sessions[e.s], e).value;
    SessionStep(k.sessions[e.s], e, Pending(k.conns, e.s));
    SessionSlot(k, e.s, v);
    SessionStreams(k, e.s, v);
  }

  /** The guard clears the slot without looking; the handle there is its own. */
  lemma GuardClearsOwnHandle(k: Core, s: nat)
    requires Inv(k) && DropNext(k, s).Some?
    ensures k.active == Some(s)
    ensures Inv(DropNext(k, s).value)
  {
    var k1 := DropNext(k, s).value;
    var kept := SetSession(k, s, k1.sessions[s]);
    SessionStreams(k, s, k1.sessions[s]);
    forall t | 0 <= t < |k1.sessions|
      ensures Owned(k1, t)
    {
      assert Owned(kept, t);
    }
  }

  lemma NextKeepsInv(k: Core, e: Event)
    requires Inv(k) && Next(k, e).Some?
    ensures Inv(Next(k, e).value)
  {
    match e
    case Arrive(cookie) => ArriveKeeps(k, cookie);
    case Classify(c) => ClassifySlot(k, c); ClassifySessions(k, c); ClassifyStreams(k, c);
    case Claim(c) => ClaimSlot(k, c); ClaimSessions(k, c); ClaimStreams(k, c);
    case Convert(c, ok) => ConvertSlot(k, c, ok); ConvertSessions(k, c, ok); ConvertStreams(k, c, ok);
    case DropGuard(s) => GuardClearsOwnHandle(k, s);
    case _ => SessionKeeps(k, e);
  }

  lemma {:induction false} RunKeepsInv(k: Core, es: seq<Event>)
    requires Inv(k) && Run(k, es).Some?
    ensures Inv(Run(k, es).value)
    decreases |es|
  {
    if es != [] {
      NextKeepsInv(k, es[0]);
      RunKeepsInv(Next(k, es[0]).value, es[1..]);
    }
  }

  // ----- whole runs -----

  /** At most one session's guard is alive, and the slot holds exactly its handle. */
  lemma OneSessionHoldsTheSlot(es: seq<Event>, s: nat, t: nat)
    requires Run(Init(), es).Some?
    requires s < |Run(Init(), es).value.sessions| && t < |Run(Init(), es).value.sessions|
    requires Run(Init(), es).value.sessions[s].phase != Gone && Run(Init(), es).value.sessions[t].phase != Gone
    ensures s == t && Run(Init(), es).value.active == Some(s)
  {
    RunKeepsInv(Init(), es);
  }

  /** Every interleaving conserves slots, and TEST_START is written with exactly the
      requested number of distinct connections, each carrying the session's cookie. */
  lemma SlotsAreConserved(es: seq<Event>, s: nat)
    requires Run(Init(), es).Some? && s < |Run(Init(), es).value.sessions|
    ensures var k := Run(Init(), es).value; var v := k.sessions[s];
            && v.remaining + v.claimed == v.parallel
            && |v.streams| + |v.queue| + Pending(k.conns, s) <= v.claimed
            && NoDuplicates(v.streams) && OwnedBy(k, s, v.streams)
            && (v.phase == Started ==>
                  |v.streams| == v.parallel && v.remaining == 0 && v.queue == [] && Pending(k.conns, s) == 0)
  {
    RunKeepsInv(Init(), es);
    var k := Run(Init(), es).value;
    var v := k.sessions[s];
    assert SessionInv(v, Pending(k.conns, s));
    assert Owned(k, s);
    var q := v.streams + v.queue;
    assert forall i :: 0 <= i < |v.streams| ==> v.streams[i] == q[i];
  }

  ghost predicate Settled(v: Session) {
    (v.phase == Started || v.phase == Over || v.phase == Gone) && v.remaining == 0 && v.queue == []
  }

  lemma SettledClaim(k: Core, c: nat, s: nat)
    requires ClaimNext(k, c).Some? && s < |k.sessions| && Settled(k.sessions[s])
    ensures var k1 := ClaimNext(k, c).value;
            |k1.conns| == |k.conns| && k1.conns == k.conns[c := k1.conns[c]]
            && |k1.sessions| == |k.sessions| && k1.sessions[s] == k.sessions[s]
            && k1.conns[c].pc != Converting(s)
  {
  }

  lemma SettledClassify(k: Core, c: nat, s: nat)
    requires ClassifyNext(k, c).Some? && s < |k.sessions|
    ensures var k1 := ClassifyNext(k, c).value;
            |k1.conns| == |k.conns| && k1.conns == k.conns[c := k1.conns[c]]
            && |k1.sessions| >= |k.sessions| && k1.sessions[s] == k.sessions[s]
            && !k1.conns[c].pc.Converting?
  {
  }

  lemma SettledConvert(k: Core, c: nat, ok: bool, s: nat)
    requires ConvertNext(k, c, ok).Some? && s < |k.sessions| && Pending(k.conns, s) == 0
    ensures var k1 := ConvertNext(k, c, ok).value;
            |k1.conns| == |k.conns| && k1.conns == k.conns[c := k1.conns[c]]
            && |k1.sessions| == |k.sessions| && k1.sessions[s] == k.sessions[s]
            && !k1.conns[c].pc.Converting?
  {
    PendingUpdate(k.conns, c, Conn(0, Busy), s);
  }

  lemma SettledStep(k: Core, e: Event, s: nat)
    requires Next(k, e).Some? && s < |k.sessions|
    requires Settled(k.sessions[s]) && Pending(k.conns, s) == 0
    ensures s < |Next(k, e).value.sessions|
    ensures var k1 := Next(k, e).value;
            Settled(k1.sessions[s]) && Pending(k1.conns, s) == 0
            && k1.sessions[s].claimed == k.sessions[s].claimed && k1.sessions[s].streams == k.sessions[s].streams
  {
    var k1 := Next(k, e).value;
    if e.Arrive? {
      PendingAppend(k.conns, Conn(e.cookie, Arrived), s);
    } else if e.Classify? {
      SettledClassify(k, e.c, s);
      PendingUpdate(k.conns, e.c, k1.conns[e.c], s);
    } else if e.Claim? {
      SettledClaim(k, e.c, s);
      PendingUpdate(k.conns, e.c, k1.conns[e.c], s);
    } else if e.Convert? {
      SettledConvert(k, e.c, e.ok, s);
      PendingUpdate(k.conns, e.c, k1.conns[e.c], s);
    }
  }

  lemma {:induction false} SettledRun(k: Core, es: seq<Event>, s: nat)
    requires s < |k.sessions| && Settled(k.sessions[s]) && Pending(k.conns, s) == 0
    requires Run(k, es).Some?
    ensures var k1 := Run(k, es).value;
            s < |k1.sessions| && Settled(k1.sessions[s])
            && k1.sessions[s].claimed == k.sessions[s].claimed && k1.sessions[s].streams == k.sessions[s].streams
    decreases |es|
  {
    if es != [] {
      SettledStep(k, es[0], s);
      SettledRun(Next(k, es[0]).value, es[1..], s);
    }
  }

  /** After TEST_START no claim of that session can succeed, whatever follows. */
  lemma NoClaimAfterStart(es: seq<Event>, rest: seq<Event>, s: nat)
    requires Run(Init(), es).Some? && s < |Run(Init(), es).value.sessions|
    requires Run(Init(), es).value.sessions[s].phase == Started
    requires Run(Run(Init(), es).value, rest).Some?
    ensures var v := Run(Init(), es).value.sessions[s];
            var k1 := Run(Run(Init(), es).value, rest).value;
            s < |k1.sessions| && k1.sessions[s].remaining == 0
            && k1.sessions[s].claimed == v.claimed == v.parallel && k1.sessions[s].streams == v.streams
  {
    SlotsAreConserved(es, s);
    SettledRun(Run(Init(), es).value, rest, s);
  }

  /** From every reachable state the slot can be freed again, so a failed or
      panicking session never makes the server refuse for ever. */
  lemma SlotCanAlwaysBeFreed(past: seq<Event>)
    requires Run(Init(), past).Some?
    ensures exists es :: |es| <= 3 && Run(Run(Init(), past).value, es).Some?
                         && Run(Run(Init(), past).value, es).value.active.None?
  {
    var k := Run(Init(), past).value;
    RunKeepsInv(Init(), past);
    if k.lock.Some? {
      var c := k.lock.value;
      NextKeepsInv(k, Claim(c));
      var k1 := Next(k, Claim(c)).value;
      var es := FreeingRun(k1);
      RunStep(k, Claim(c), es);
    } else {
      var es := FreeingRun(k);
    }
  }

  lemma RunStep(k: Core, e: Event, es: seq<Event>)
    requires Next(k, e).Some?
    ensures Run(k, [e] + es) == Run(Next(k, e).value, es)
  {
    assert ([e] + es)[1..] == es;
  }

  lemma FreeingRun(k: Core) returns (es: seq<Event>)
    requires Inv(k) && k.lock.None?
    ensures |es| <= 2 && Run(k, es).Some? && Run(k, es).value.active.None?
  {
    if k.active.None? {
      es := [];
    } else {
      var s := k.active.value;
      var k1 := k;
      if k.sessions[s].phase != Over {
        k1 := Next(k, Finish(s)).value;
        RunStep(k, Finish(s), [DropGuard(s)] + []);
      }
      var k2 := DropNext(k1, s).value;
      RunStep(k1, DropGuard(s), []);
      es := if k.sessions[s].phase == Over then [DropGuard(s)] + [] else [Finish(s)] + ([DropGuard(s)] + []);
    }
  }

  /** What the accept rule decides for a connection whose cookie has been read,
      if nothing comes between the two halves of the decision. */
  function Decide(k: Core, c: nat): Option<ConnPc> {
    var k1 := ClassifyNext(k, c);
    if k1.None? || c >= |k1.value.conns| then None
    else if !k1.value.conns[c].pc.Claiming? then Some(k1.value.conns[c].pc)
    else
      var k2 := ClaimNext(k1.value, c);
      if k2.None? || c >= |k2.value.conns| then None else Some(k2.value.conns[c].pc)
  }

  /** A connection becomes a stream of the active test, is refused, or starts a test: each exactly when. */
  lemma DecidedExactlyWhen(k: Core, c: nat)
    requires Inv(k) && c < |k.conns| && k.conns[c].pc == Arrived && k.lock.None?
    ensures Decide(k, c).Some?
    ensures Decide(k, c).value.Control? <==> k.active.None?
    ensures Decide(k, c).value.Converting? <==>
              k.active.Some? && var v := k.sessions[k.active.value];
              v.cookie == k.conns[c].cookie && v.awaiting && v.remaining > 0
    ensures !Decide(k, c).value.Control? && !Decide(k, c).value.Converting? ==> Decide(k, c) == Some(Busy)
  {
  }
}
