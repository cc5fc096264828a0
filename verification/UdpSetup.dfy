/** UDP stream set-up as a two-party system. The server pins each stream by
    connecting the socket that heard its hello and binds the next listener before it
    replies; the client sends each hello once and never retries. The kernel routes
    a datagram to the socket connected to its sender, else to an unconnected one. */
module UdpSetup {
  import opened Wire

  /** BindFirst .. Announce happen before CREATE_STREAMS is on the wire. Top is the head
      of the collect loop. `cur` is a socket's place in the bind order; `peer` the
      client socket a hello came from. Missing: the internal error of a collect loop without a listener. */
  datatype ServerPc =
    | BindFirst | Announce | Top | Accept(cur: nat) | Heard(cur: nat, peer: nat)
    | BindNext(cur: nat, peer: nat) | Reply(cur: nat, peer: nat) | Add(cur: nat, peer: nat)
    | SDone | Missing

  datatype ClientPc = Idle | Open | Hello | Await | Push | CDone

  datatype Datagram = HelloFrom(client: nat) | ReplyTo(client: nat)

  /** socks[k]: the client socket that server socket k is connected to, if any.
      pending: the listener bound for the next stream. heard: (socket, sender) of hellos
      in kernel buffers. replies: replies in kernel buffers. lost: datagrams no socket
      would take. serverStreams, clientStreams: the client socket of each side's k-th stream. */
  datatype State = State(
    server: ServerPc, client: ClientPc, announced: bool,
    socks: seq<Option<nat>>, pending: Option<nat>,
    net: seq<Datagram>, heard: seq<(nat, nat)>, replies: seq<nat>, lost: nat,
    serverStreams: seq<nat>, clientStreams: seq<nat>)

  datatype Move = Server | Client | Deliver(k: nat)

  function Init(): State { State(BindFirst, Idle, false, [], None, [], [], [], 0, [], []) }

  /** A socket connected to `from`, if any; the latest of several. */
  function Connected(socks: seq<Option<nat>>, from: nat): Option<nat> {
    if socks == [] then None
    else if socks[|socks| - 1] == Some(from) then Some(|socks| - 1)
    else Connected(socks[..|socks| - 1], from)
  }

  /** An unconnected socket, if any; the latest of several. */
  function Listener(socks: seq<Option<nat>>): Option<nat> {
    if socks == [] then None
    else if socks[|socks| - 1].None? then Some(|socks| - 1)
    else Listener(socks[..|socks| - 1])
  }

  function DeliverNext(st: State, k: nat): Option<State> {
    if k >= |st.net| then None
    else
      var rest := st.net[..k] + st.net[k + 1..];
      match st.net[k]
      case ReplyTo(c) => Some(st.(net := rest, replies := st.replies + [c]))
      case HelloFrom(c) =>
        // A hello on an already connected socket is a stray datagram there.
        if Connected(st.socks, c).Some? || Listener(st.socks).None? then Some(st.(net := rest, lost := st.lost + 1))
        else Some(st.(net := rest, heard := st.heard + [(Listener(st.socks).value, c)]))
  }

  function ServerNext(n: nat, st: State): Option<State> {
    match st.server
    case BindFirst => Some(st.(socks := st.socks + [None], pending := Some(|st.socks|), server := Announce))
    case Announce => Some(st.(announced := true, server := Top))
    case Top =>
      if |st.serverStreams| >= n then Some(st.(server := SDone))
      else if st.pending.None? then Some(st.(server := Missing))
      else Some(st.(pending := None, server := Accept(st.pending.value)))
    case Accept(cur) =>
      if st.heard != [] && st.heard[0].0 == cur then
        Some(st.(heard := st.heard[1..], server := Heard(cur, st.heard[0].1)))
      else None
    case Heard(cur, peer) =>
      if cur < |st.socks| then Some(st.(socks := st.socks[cur := Some(peer)], server := BindNext(cur, peer))) else None
    case BindNext(cur, peer) =>
      if |st.serverStreams| + 1 < n then
        Some(st.(socks := st.socks + [None], pending := Some(|st.socks|), server := Reply(cur, peer)))
      else Some(st.(server := Reply(cur, peer)))
    case Reply(cur, peer) => Some(st.(net := st.net + [ReplyTo(peer)], server := Add(cur, peer)))
    case Add(cur, peer) => Some(st.(serverStreams := st.serverStreams + [peer], server := Top))
    case _ => None
  }

  /** The client's next socket is numbered by the streams it has. */
  function ClientNext(n: nat, st: State): Option<State> {
    var j := |st.clientStreams|;
    match st.client
    case Idle => if st.announced then Some(st.(announced := false, client := Open)) else None
    case Open => Some(st.(client := if j >= n then CDone else Hello))
    case Hello => Some(st.(net := st.net + [HelloFrom(j)], client := Await))
    case Await =>
      if st.replies != [] && st.replies[0] == j then Some(st.(replies := st.replies[1..], client := Push)) else None
    case Push => Some(st.(clientStreams := st.clientStreams + [j], client := Open))
    case CDone => None
  }

  function Next(n: nat, st: State, m: Move): Option<State> {
    match m
    case Server => ServerNext(n, st)
    case Client => ClientNext(n, st)
    case Deliver(k) => DeliverNext(st, k)
  }

  function Run(n: nat, st: State, ms: seq<Move>): Option<State>
    decreases |ms|
  {
    if ms == [] then Some(st)
    else
      var st1 := Next(n, st, ms[0]);
      if st1.Some? then Run(n, st1.value, ms[1..]) else None
  }

  // ----- the invariant -----

  ghost predicate Counted(streams: seq<nat>) { forall k :: 0 <= k < |streams| ==> streams[k] == k }

  /** Connected sockets, in order, and whether a listener follows them. */
  function Pinned(pc: ServerPc, i: nat): nat {
    if pc.BindNext? || pc.Reply? || pc.Add? then i + 1 else i
  }

  predicate Listens(pc: ServerPc, i: nat, n: nat) {
    match pc
    case Announce => true
    case Accept(_) => true
    case Heard(_, _) => true
    case Top => i < n
    case Reply(_, _) => i + 1 < n
    case Add(_, _) => i + 1 < n
    case _ => false
  }

  /** The listener that has been bound but not yet taken by the collect loop. */
  predicate Parked(pc: ServerPc, i: nat, n: nat) {
    pc.Announce? || (pc.Top? && i < n) || ((pc.Reply? || pc.Add?) && i + 1 < n)
  }

  ghost predicate SocksOk(socks: seq<Option<nat>>, c: nat, listens: bool) {
    && |socks| == c + (if listens then 1 else 0)
    && (forall k :: 0 <= k < c ==> socks[k] == Some(k))
    && (listens ==> socks[c] == None)
  }

  ghost predicate ServerInv(n: nat, st: State) {
    var i := |st.serverStreams|;
    && i <= n && Counted(st.serverStreams)
    && SocksOk(st.socks, Pinned(st.server, i), Listens(st.server, i, n))
    && st.pending == (if Parked(st.server, i, n) then Some(Pinned(st.server, i)) else None)
    && PcOk(n, st.server, i)
  }

  ghost predicate PcOk(n: nat, pc: ServerPc, i: nat) {
    && (pc.BindFirst? || pc.Announce? ==> i == 0)
    && (pc.SDone? ==> i == n)
    && !pc.Missing?
    && (pc.Accept? ==> pc.cur == i < n)
    && (pc.Heard? || pc.BindNext? || pc.Reply? || pc.Add? ==>
          pc.cur == i < n && pc.peer == i)
  }

  /** The server is ready for the j-th hello, or one step of bookkeeping away from it. */
  predicate Ready(pc: ServerPc, i: nat, j: nat, n: nat) {
    ((pc.Top? || pc.Accept?) && i == j) || (pc.Add? && i + 1 == j) || (pc.SDone? && i == j == n)
  }

  predicate Answering(pc: ServerPc, i: nat, j: nat) { (pc.Heard? || pc.BindNext? || pc.Reply?) && i == j }

  predicate Quiet(st: State) { st.net == [] && st.heard == [] && st.replies == [] }

  predicate AwaitInv(n: nat, st: State) {
    var i := |st.serverStreams|;
    var j := |st.clientStreams|;
    || (st.net == [HelloFrom(j)] && st.heard == [] && st.replies == [] && Ready(st.server, i, j, n))
    || (st.net == [] && st.heard == [(j, j)] && st.replies == [] && Ready(st.server, i, j, n))
    || (Quiet(st) && Answering(st.server, i, j))
    || (st.net == [ReplyTo(j)] && st.heard == [] && st.replies == [] && Ready(st.server, i, j + 1, n))
    || (st.net == [] && st.heard == [] && st.replies == [j] && Ready(st.server, i, j + 1, n))
  }

  /** Where the one outstanding exchange stands. */
  ghost predicate ExchangeInv(n: nat, st: State) {
    var i := |st.serverStreams|;
    var j := |st.clientStreams|;
    && j <= n && Counted(st.clientStreams) && st.lost == 0
    && (st.announced ==> st.client.Idle?)
    && match st.client
       case Idle =>
         Quiet(st) && j == 0
         && if st.announced then Ready(st.server, i, 0, n) else st.server.BindFirst? || st.server.Announce?
       case Open => Quiet(st) && Ready(st.server, i, j, n)
       case Hello => Quiet(st) && j < n && Ready(st.server, i, j, n)
       case Await => j < n && AwaitInv(n, st)
       case Push => Quiet(st) && j < n && Ready(st.server, i, j + 1, n)
       case CDone => Quiet(st) && j == n && Ready(st.server, i, n, n)
  }

  ghost predicate Inv(n: nat, st: State) { ServerInv(n, st) && ExchangeInv(n, st) }

  lemma {:induction false} RoutesToListener(socks: seq<Option<nat>>, c: nat, from: nat)
    requires SocksOk(socks, c, true) && from >= c
    ensures Connected(socks, from).None? && Listener(socks) == Some(c)
  {
    NotConnected(socks[..c], from);
    assert socks[..|socks| - 1] == socks[..c];
  }

  lemma {:induction false} NotConnected(socks: seq<Option<nat>>, from: nat)
    requires forall k :: 0 <= k < |socks| ==> socks[k] != Some(from)
    ensures Connected(socks, from).None?
  {
    if socks != [] {
      NotConnected(socks[..|socks| - 1], from);
    }
  }

  lemma DeliverKeeps(n: nat, st: State, k: nat)
    requires Inv(n, st) && DeliverNext(st, k).Some?
    ensures Inv(n, DeliverNext(st, k).value)
  {
    var i, j := |st.serverStreams|, |st.clientStreams|;
    assert st.client.Await?;
    assert k == 0 && st.net[..0] + st.net[1..] == [];
    if st.net[0].HelloFrom? {
      assert Listens(st.server, i, n) && Pinned(st.server, i) == j;
      RoutesToListener(st.socks, j, j);
    }
  }

  /** The server's own positions, sockets and listener; the rest is the exchange's. */
  lemma BindingKeepsSocks(n: nat, st: State)
    requires ServerInv(n, st) && n > 0 && ServerNext(n, st).Some?
    requires st.server.BindFirst? || st.server.Announce? || st.server.Top? || st.server.Accept?
    requires st.server.Accept? && st.heard != [] ==> st.heard[0].1 == st.server.cur
    ensures ServerInv(n, ServerNext(n, st).value)
  {
  }

  lemma AnsweringKeepsSocks(n: nat, st: State)
    requires ServerInv(n, st) && n > 0 && ServerNext(n, st).Some?
    requires st.server.Heard? || st.server.BindNext? || st.server.Reply? || st.server.Add?
    ensures ServerInv(n, ServerNext(n, st).value)
  {
  }

  lemma ServerKeepsSocks(n: nat, st: State)
    requires ServerInv(n, st) && n > 0 && ServerNext(n, st).Some?
    requires st.server.Accept? && st.heard != [] ==> st.heard[0].1 == st.server.cur
    ensures ServerInv(n, ServerNext(n, st).value)
  {
    if st.server.BindFirst? || st.server.Announce? || st.server.Top? || st.server.Accept? {
      BindingKeepsSocks(n, st);
    } else {
      AnsweringKeepsSocks(n, st);
    }
  }

  lemma ServerKeepsExchange(n: nat, st: State)
    requires PcOk(n, st.server, |st.serverStreams|) && ExchangeInv(n, st) && n > 0
    requires st.server.Top? && |st.serverStreams| < n ==> st.pending.Some?
    requires ServerNext(n, st).Some?
    ensures ExchangeInv(n, ServerNext(n, st).value)
  {
  }

  lemma ClientKeeps(n: nat, st: State)
    requires ExchangeInv(n, st) && ClientNext(n, st).Some?
    ensures ExchangeInv(n, ClientNext(n, st).value)
  {
  }

  lemma NextKeepsInv(n: nat, st: State, m: Move)
    requires n > 0 && Inv(n, st) && Next(n, st, m).Some?
    ensures Inv(n, Next(n, st, m).value)
  {
    match m
    case Server => ServerKeepsSocks(n, st); ServerKeepsExchange(n, st);
    case Client => ClientKeeps(n, st);
    case Deliver(k) => DeliverKeeps(n, st, k);
  }

  lemma {:induction false} RunKeepsInv(n: nat, st: State, ms: seq<Move>)
    requires n > 0 && Inv(n, st) && Run(n, st, ms).Some?
    ensures Inv(n, Run(n, st, ms).value)
    decreases |ms|
  {
    if ms != [] {
      NextKeepsInv(n, st, ms[0]);
      RunKeepsInv(n, Next(n, st, ms[0]).value, ms[1..]);
    }
  }

  // ----- every run -----

  /** Whenever a hello is in flight, exactly one unconnected listener is bound, and the
      hello is the only datagram in flight; no datagram is ever lost. */
  lemma HelloMeetsOneListener(n: nat, ms: seq<Move>)
    requires n > 0 && Run(n, Init(), ms).Some?
    ensures var st := Run(n, Init(), ms).value;
            && st.lost == 0 && !st.server.Missing?
            && forall c :: HelloFrom(c) in st.net ==>
                 st.net == [HelloFrom(c)]
                 && exists k :: 0 <= k < |st.socks| && st.socks[k].None?
                                && forall l :: 0 <= l < |st.socks| && st.socks[l].None? ==> l == k
  {
    var st := Run(n, Init(), ms).value;
    RunKeepsInv(n, Init(), ms);
    forall c | HelloFrom(c) in st.net
      ensures st.net == [HelloFrom(c)]
              && exists k :: 0 <= k < |st.socks| && st.socks[k].None?
                             && forall l :: 0 <= l < |st.socks| && st.socks[l].None? ==> l == k
    {
      var i, j := |st.serverStreams|, |st.clientStreams|;
      assert st.client.Await?;
      assert Listens(st.server, i, n) && Pinned(st.server, i) == j;
      assert st.socks[j].None?;
    }
  }

  /** Both sides number the same connection as their k-th stream, so equal ids name equal streams. */
  lemma StreamsPairUp(n: nat, ms: seq<Move>, k: nat, l: nat)
    requires n > 0 && Run(n, Init(), ms).Some?
    ensures var st := Run(n, Init(), ms).value;
            && (k < |st.serverStreams| && l < |st.clientStreams| ==>
                  (NextStreamId(k) == NextStreamId(l) <==> st.serverStreams[k] == st.clientStreams[l]))
            && (k < |st.serverStreams| && k < |st.socks| ==> st.socks[k] == Some(st.serverStreams[k]))
            && (st.server.SDone? && st.client.CDone? ==> |st.serverStreams| == |st.clientStreams| == n)
  {
    RunKeepsInv(n, Init(), ms);
  }

  lemma NeverStuck(n: nat, st: State)
    requires n > 0 && Inv(n, st) && !(st.server.SDone? && st.client.CDone?)
    ensures Next(n, st, Server).Some? || Next(n, st, Client).Some? || Next(n, st, Deliver(0)).Some?
  {
  }

  /** No reachable state is stuck before both sides have all their streams. */
  lemma NoDeadlock(n: nat, ms: seq<Move>)
    requires n > 0 && Run(n, Init(), ms).Some?
    requires !(Run(n, Init(), ms).value.server.SDone? && Run(n, Init(), ms).value.client.CDone?)
    ensures exists m :: Next(n, Run(n, Init(), ms).value, m).Some?
  {
    RunKeepsInv(n, Init(), ms);
    NeverStuck(n, Run(n, Init(), ms).value);
  }

  // ----- and every run is short -----

  function ServerRank(pc: ServerPc, i: nat, n: nat): int {
    8 * (n - i) + match pc
    case BindFirst => 4
    case Announce => 3
    case Top => 2
    case Accept(_) => 1
    case Heard(_, _) => 0
    case BindNext(_, _) => -1
    case Reply(_, _) => -2
    case Add(_, _) => -4
    case SDone => 0
    case Missing => 0
  }

  function ClientRank(pc: ClientPc, j: nat, n: nat): int {
    8 * (n - j) + match pc
    case Idle => 3
    case Open => 2
    case Hello => 1
    case Await => -1
    case Push => -2
    case CDone => 0
  }

  function Rank(n: nat, st: State): int {
    ServerRank(st.server, |st.serverStreams|, n) + ClientRank(st.client, |st.clientStreams|, n) + |st.net|
  }

  lemma RankBounded(n: nat, st: State)
    requires Inv(n, st)
    ensures 0 <= Rank(n, st)
  {
  }

  lemma ServerRankFalls(n: nat, st: State)
    requires PcOk(n, st.server, |st.serverStreams|) && ServerNext(n, st).Some?
    requires st.server.Top? && |st.serverStreams| < n ==> st.pending.Some?
    ensures Rank(n, ServerNext(n, st).value) < Rank(n, st)
  {
  }

  lemma ClientRankFalls(n: nat, st: State)
    requires |st.clientStreams| <= n && ClientNext(n, st).Some?
    ensures Rank(n, ClientNext(n, st).value) < Rank(n, st)
  {
  }

  lemma DeliverRankFalls(n: nat, st: State, k: nat)
    requires DeliverNext(st, k).Some?
    ensures Rank(n, DeliverNext(st, k).value) < Rank(n, st)
  {
  }

  lemma RankFalls(n: nat, st: State, m: Move)
    requires n > 0 && Inv(n, st) && Next(n, st, m).Some?
    ensures Rank(n, Next(n, st, m).value) < Rank(n, st)
  {
    match m
    case Server => ServerRankFalls(n, st);
    case Client => ClientRankFalls(n, st);
    case Deliver(k) => DeliverRankFalls(n, st, k);
  }

  /** Set-up takes at most sixteen moves a stream plus seven, whatever the schedule. */
  lemma {:induction false} RunsAreShort(n: nat, st: State, ms: seq<Move>)
    requires n > 0 && Inv(n, st) && Run(n, st, ms).Some?
    ensures |ms| <= Rank(n, st)
    decreases |ms|
  {
    RankBounded(n, st);
    if ms != [] {
      NextKeepsInv(n, st, ms[0]);
      RankFalls(n, st, ms[0]);
      RunsAreShort(n, Next(n, st, ms[0]).value, ms[1..]);
    }
  }

  lemma SetUpCompletes(n: nat, ms: seq<Move>)
    requires n > 0 && Run(n, Init(), ms).Some?
    ensures |ms| <= 16 * n + 7
  {
    RunsAreShort(n, Init(), ms);
  }
}
