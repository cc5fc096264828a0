/** The remaining steps of the test protocol keep the invariant: stream opening
    and acceptance, joins, end markers, closes, drains and result rows. */
module TestSessionSteps {
  import opened Wire
  import opened DataPlane
  import opened TestSession
  import opened TestSessionInv

  /** As NoNewClaim, except for stream i. */
  ghost predicate NoNewClaimBut(cfg: Config, x: Ctl, x': Ctl, i: nat) {
    && x'.added == x.added
    && (x.stopTx ==> x'.stopTx) && (x.stopRx ==> x'.stopRx)
    && TxSpawned(cfg, x') == TxSpawned(cfg, x)
    && (TxJoined(cfg, x') ==> TxJoined(cfg, x))
    && (forall j: nat :: j != i && MarkerSent(cfg, x', j) ==> MarkerSent(cfg, x, j))
    && (forall j: nat :: j != i && SenderClosed(cfg, x', j) ==> SenderClosed(cfg, x, j))
    && (ReceiverJoined(cfg, x') ==> ReceiverJoined(cfg, x))
  }

  lemma LinksUpdate(cfg: Config, x: Ctl, x': Ctl, links: seq<Link>, i: nat, l': Link)
    requires LinksInv(cfg, x, links) && i < |links| && NoNewClaimBut(cfg, x, x', i)
    requires LinkInv(cfg, x', i, l') && Advances(links[i], l')
    ensures LinksInv(cfg, x', links[i := l']) && AllAdvance(links, links[i := l'])
  {
    var links' := links[i := l'];
    forall j | 0 <= j < |links| ensures LinkInv(cfg, x', j, links'[j]) {
      assert LinkInv(cfg, x, j, links[j]);
    }
  }

  /** Every stream meets a claim that becomes true for all of them at once. */
  lemma LinksClaim(cfg: Config, x: Ctl, x': Ctl, links: seq<Link>)
    requires LinksInv(cfg, x, links)
    requires x'.added == x.added && x'.stopTx == x.stopTx && x'.stopRx == x.stopRx
    requires TxSpawned(cfg, x') == TxSpawned(cfg, x)
    requires TxJoined(cfg, x') ==> AllTxEnded(links)
    requires ReceiverJoined(cfg, x') ==> ReceiverJoined(cfg, x) || (AllRxEnded(links) && !x.stopRx)
    requires forall i: nat :: i < |links| && MarkerSent(cfg, x', i) ==> MarkerSent(cfg, x, i)
    requires forall i: nat :: i < |links| && SenderClosed(cfg, x', i) ==> SenderClosed(cfg, x, i)
    ensures LinksInv(cfg, x', links)
  {
    forall i | 0 <= i < |links| ensures LinkInv(cfg, x', i, links[i]) {
      assert LinkInv(cfg, x, i, links[i]);
    }
  }

  lemma JoinedTxEnded(cfg: Config, x: Ctl, links: seq<Link>)
    requires LinksInv(cfg, x, links) && TxJoined(cfg, x)
    ensures AllTxEnded(links)
  {
    forall i | 0 <= i < |links| ensures links[i].tx.TxEnded? {
      assert LinkInv(cfg, x, i, links[i]);
    }
  }

  // ----- client: opening streams -----

  lemma OpenedAllKeepsInv(cfg: Config, st: State)
    requires ValidConfig(cfg) && Inv(cfg, st) && st.c.pc == COpening(0)
    ensures Inv(cfg, ToPc(st, CLoop))
  {
    var x, x' := CtlOf(st), CtlOf(ToPc(st, CLoop));
    assert At(st.s.pc) <= 8;
    assert NoNewClaim(cfg, x, x');
    LinksCarry(cfg, x, x', st.links);
    StreamsCarry(cfg, x, x', |st.links|, st.pending, st.claimed);
    RowsCarry(cfg, x, x', st.links, st.links);
  }

  lemma OpenKeepsInv(cfg: Config, st: State)
    requires ValidConfig(cfg) && Inv(cfg, st) && st.c.pc.COpening? && st.c.pc.left > 0
    ensures Inv(cfg, ClientLocal(cfg, st).value)
  {
    var st' := ClientLocal(cfg, st).value;
    var x, x' := CtlOf(st), CtlOf(st');
    assert At(st.s.pc) < 5;
    assert NoNewClaim(cfg, x, x');
    OpenedLinks(cfg, x, x', st.links);
    OpenedStreams(cfg, x, x', |st.links|, st.pending, st.claimed);
    RowsSurvive(cfg, x, st.links, st.added, st'.links);
  }

  lemma OpenedLinks(cfg: Config, x: Ctl, x': Ctl, links: seq<Link>)
    requires LinksInv(cfg, x, links) && FlagsInv(cfg, x) && NoNewClaim(cfg, x, x')
    requires At(x.s.pc) < 5 && x.c.got == 2 && x.c.put == 2 && x.c.pc.COpening? && x'.c.pc.COpening?
    requires x'.s == x.s && x'.c.got == 2 && x'.c.put == 2 && x'.stopTx == x.stopTx && x'.stopRx == x.stopRx
    requires |links| !in x.added
    ensures LinksInv(cfg, x', links + [NewLink(cfg)]) && AllAdvance(links, links + [NewLink(cfg)])
  {
    LinksCarry(cfg, x, x', links);
    var links' := links + [NewLink(cfg)];
    assert LinkInv(cfg, x', |links|, NewLink(cfg));
    forall j | 0 <= j < |links'| ensures LinkInv(cfg, x', j, links'[j]) {
      if j < |links| { assert LinkInv(cfg, x', j, links[j]); }
    }
  }

  lemma OpenedStreams(cfg: Config, x: Ctl, x': Ctl, n: nat, pending: set<nat>, claimed: seq<nat>)
    requires StreamsInv(cfg, x, n, pending, claimed)
    requires x'.added == x.added && x'.s == x.s && At(x.s.pc) < 5
    requires Opened(cfg, x'.c) == n + 1
    ensures StreamsInv(cfg, x', n + 1, pending + {n}, claimed)
  {
    assert n !in pending;
    assert |pending + {n}| == |pending| + 1;
  }

  // ----- client: end of test -----

  lemma TimerKeepsInv(cfg: Config, st: State)
    requires ValidConfig(cfg) && Inv(cfg, st) && TimerNext(cfg, st).Some?
    ensures Inv(cfg, TimerNext(cfg, st).value)
  {
    var st' := TimerNext(cfg, st).value;
    var x, x' := CtlOf(st), CtlOf(st');
    assert At(st.s.pc) <= 8;
    assert NoNewClaim(cfg, x, x');
    LinksCarry(cfg, x, x', st.links);
    StreamsCarry(cfg, x, x', |st.links|, st.pending, st.claimed);
    RowsCarry(cfg, x, x', st.links, st.links);
  }

  lemma JoinKeepsInv(cfg: Config, st: State)
    requires ValidConfig(cfg) && Inv(cfg, st) && st.c.pc.CJoin? && ClientLocal(cfg, st).Some?
    ensures Inv(cfg, ClientLocal(cfg, st).value)
  {
    var st' := ClientLocal(cfg, st).value;
    var x, x' := CtlOf(st), CtlOf(st');
    assert At(st.s.pc) <= 8;
    LinksClaim(cfg, x, x', st.links);
    StreamsCarry(cfg, x, x', |st.links|, st.pending, st.claimed);
    RowsCarry(cfg, x, x', st.links, st.links);
  }

  lemma MarkKeepsInv(cfg: Config, st: State)
    requires ValidConfig(cfg) && Inv(cfg, st) && st.c.pc.CMarkers? && ClientLocal(cfg, st).Some?
    ensures Inv(cfg, ClientLocal(cfg, st).value)
  {
    var st' := ClientLocal(cfg, st).value;
    var x, x' := CtlOf(st), CtlOf(st');
    var k := st.c.pc.next;
    assert At(st.s.pc) <= 8;
    JoinedTxEnded(cfg, x, st.links);
    if k >= |st.links| {
      LinksClaim(cfg, x, x', st.links);
    } else {
      assert LinkInv(cfg, x, k, st.links[k]);
      assert LinkInv(cfg, x', k, st'.links[k]);
      LinksUpdate(cfg, x, x', st.links, k, st'.links[k]);
    }
    StreamsCarry(cfg, x, x', |st.links|, st.pending, st.claimed);
    RowsCarry(cfg, x, x', st.links, st'.links);
  }

  lemma CloseKeepsInv(cfg: Config, st: State)
    requires ValidConfig(cfg) && Inv(cfg, st) && st.c.pc.CClosing? && ClientLocal(cfg, st).Some?
    ensures Inv(cfg, ClientLocal(cfg, st).value)
  {
    var st' := ClientLocal(cfg, st).value;
    var x, x' := CtlOf(st), CtlOf(st');
    var k := st.c.pc.at;
    if k >= |st.links| {
      if TxJoined(cfg, x) { JoinedTxEnded(cfg, x, st.links); }
      LinksClaim(cfg, x, x', st.links);
    } else {
      assert LinkInv(cfg, x, k, st.links[k]);
      assert LinkInv(cfg, x', k, st'.links[k]);
      LinksUpdate(cfg, x, x', st.links, k, st'.links[k]);
    }
    StreamsCarry(cfg, x, x', |st.links|, st.pending, st.claimed);
    RowsCarry(cfg, x, x', st.links, st'.links);
  }

  lemma DrainKeepsInv(cfg: Config, st: State)
    requires ValidConfig(cfg) && Inv(cfg, st) && st.c.pc.CDrain? && ClientLocal(cfg, st).Some?
    ensures Inv(cfg, ClientLocal(cfg, st).value)
  {
    var st' := ClientLocal(cfg, st).value;
    var x, x' := CtlOf(st), CtlOf(st');
    if TxJoined(cfg, x) { JoinedTxEnded(cfg, x, st.links); }
    LinksClaim(cfg, x, x', st.links);
    StreamsCarry(cfg, x, x', |st.links|, st.pending, st.claimed);
    RowsCarry(cfg, x, x', st.links, st.links);
  }

  // ----- result rows -----

  lemma QueueRescript(q: seq<Msg>, script: seq<Msg>, script': seq<Msg>, got: nat, put: nat)
    requires QueueInv(q, script, got, put) && put <= |script'| && script[..put] == script'[..put]
    ensures QueueInv(q, script', got, put)
  {
    assert script[got..put] == script[..put][got..] == script'[..put][got..] == script'[got..put];
  }

  /** A counter read once the streams are sealed or drained bounds the stream for good. */
  lemma CountIsRow(cfg: Config, x: Ctl, i: nat, l: Link, sending: bool)
    requires LinkInv(cfg, x, i, l)
    requires sending ==> SenderClosed(cfg, x, i) && (cfg.transport == WebRtc ==> TxJoined(cfg, x))
    requires !sending && Drains(cfg) ==> ReceiverJoined(cfg, x)
    ensures Row(cfg, sending, if sending then l.counted else l.received, l)
  {
  }

  lemma AppendClientRow(cfg: Config, links: seq<Link>, rows: seq<StreamResult>)
    requires ClientRows(cfg, links, rows) && |rows| < |links|
    requires Row(cfg, !cfg.reverse, ClientCount(cfg, links[|rows|]), links[|rows|])
    ensures ClientRows(cfg, links, rows + [StreamResult(NextStreamId(|rows|), ClientCount(cfg, links[|rows|]))])
  {
  }

  lemma SnapRows(cfg: Config, st: State)
    requires ValidConfig(cfg) && Inv(cfg, st) && st.c.pc.CSnap?
    ensures RowsInv(cfg, CtlOf(st.(c := ClientSnap(cfg, st.c, st.links, st.c.pc.final))), st.links)
  {
    var rows := if st.c.pc.final then st.c.local else st.c.report;
    if |rows| < |st.links| {
      var k := |rows|;
      assert LinkInv(cfg, CtlOf(st), k, st.links[k]);
      CountIsRow(cfg, CtlOf(st), k, st.links[k], !cfg.reverse);
      AppendClientRow(cfg, st.links, rows);
    }
  }

  lemma SnapPlace(cfg: Config, x: Ctl, links: seq<Link>, final: bool)
    requires PlaceInv(cfg, x) && x.c.pc == CSnap(final)
    ensures
      var x' := x.(c := ClientSnap(cfg, x.c, links, final));
      && PlaceInv(cfg, x') && NoNewClaim(cfg, x, x')
      && x'.c.got == x.c.got && x'.c.put == x.c.put && Opened(cfg, x'.c) == Opened(cfg, x.c)
      && (x'.c.report == x.c.report || x.c.put == 3)
  {
  }

  lemma SnapKeepsInv(cfg: Config, st: State)
    requires ValidConfig(cfg) && Inv(cfg, st) && st.c.pc.CSnap?
    ensures Inv(cfg, st.(c := ClientSnap(cfg, st.c, st.links, st.c.pc.final)))
  {
    var st' := st.(c := ClientSnap(cfg, st.c, st.links, st.c.pc.final));
    var x, x' := CtlOf(st), CtlOf(st');
    SnapRows(cfg, st);
    SnapPlace(cfg, x, st.links, st.c.pc.final);
    QueueRescript(st.toS, ClientScript(st.c), ClientScript(st'.c), ServerGot(st.s.pc), st.c.put);
    LinksCarry(cfg, x, x', st.links);
    StreamsCarry(cfg, x, x', |st.links|, st.pending, st.claimed);
  }

  lemma AppendServerRow(cfg: Config, links: seq<Link>, added: seq<nat>, rows: seq<StreamResult>, b: nat)
    requires ServerRows(cfg, links, added, rows) && |rows| < |added| && added[|rows|] < |links|
    requires Row(cfg, cfg.reverse, b, links[added[|rows|]])
    ensures ServerRows(cfg, links, added, rows + [StreamResult(NextStreamId(|rows|), b)])
  {
  }

  lemma ServerSnapRows(cfg: Config, st: State)
    requires ValidConfig(cfg) && Inv(cfg, st) && st.s.pc.SSnap?
    ensures ServerSnap(cfg, st).Some?
    ensures var st' := ServerSnap(cfg, st).value; RowsInv(cfg, CtlOf(st'), st'.links) && st'.links == st.links
  {
    var x := CtlOf(st);
    var k := |st.s.rows|;
    if k < |st.added| {
      var i := st.added[k];
      assert i in st.added;
      assert LinkInv(cfg, x, i, st.links[i]);
      CountIsRow(cfg, x, i, st.links[i], cfg.reverse);
      AppendServerRow(cfg, st.links, st.added, st.s.rows, ServerCount(cfg, st.links[i]));
    }
  }

  lemma ServerSnapPlace(cfg: Config, st: State)
    requires PlaceInv(cfg, CtlOf(st)) && QueuesInv(cfg, st.c, st.s, st.toS, st.toC)
    requires st.s.pc.SSnap? && ServerSnap(cfg, st).Some?
    ensures
      var st' := ServerSnap(cfg, st).value;
      && st' == st.(s := st.s.(pc := st'.s.pc, rows := st'.s.rows))
      && PlaceInv(cfg, CtlOf(st')) && NoNewClaim(cfg, CtlOf(st), CtlOf(st'))
      && ServerGot(st'.s.pc) == ServerGot(st.s.pc) && ServerSent(cfg, st'.s.pc) == ServerSent(cfg, st.s.pc) == 5
  {
  }

  lemma ServerSnapKeepsInv(cfg: Config, st: State)
    requires ValidConfig(cfg) && Inv(cfg, st) && st.s.pc.SSnap?
    ensures ServerSnap(cfg, st).Some? && Inv(cfg, ServerSnap(cfg, st).value)
  {
    ServerSnapRows(cfg, st);
    var st' := ServerSnap(cfg, st).value;
    var x, x' := CtlOf(st), CtlOf(st');
    ServerSnapPlace(cfg, st);
    QueueRescript(st.toC, ServerScript(st.s), ServerScript(st'.s), st.c.got, ServerSent(cfg, st.s.pc));
    LinksCarry(cfg, x, x', st.links);
    StreamsCarry(cfg, x, x', |st.links|, st.pending, st.claimed);
  }

  // ----- server: accepting and collecting streams -----

  lemma AcceptKeepsInv(cfg: Config, st: State, i: nat)
    requires ValidConfig(cfg) && Inv(cfg, st) && AcceptNext(cfg, st, i).Some?
    ensures Inv(cfg, AcceptNext(cfg, st, i).value)
  {
    var st' := AcceptNext(cfg, st, i).value;
    var x, x' := CtlOf(st), CtlOf(st');
    SlotIsFree(cfg, x, |st.links|, st.pending, st.claimed, i);
    assert st.c.got <= ServerSent(cfg, st.s.pc);
    assert NoNewClaim(cfg, x, x');
    LinksCarry(cfg, x, x', st.links);
    ClaimedStreams(cfg, x, x', |st.links|, st.pending, st.claimed, i);
    RowsCarry(cfg, x, x', st.links, st.links);
  }

  /** A connection of this session that is still pending finds the window open and a slot left. */
  lemma SlotIsFree(cfg: Config, x: Ctl, n: nat, pending: set<nat>, claimed: seq<nat>, i: nat)
    requires StreamsInv(cfg, x, n, pending, claimed) && ServerInv(cfg, x.s) && ClientInv(cfg, x.c)
    requires x.c.got <= ServerSent(cfg, x.s.pc)
    requires i in pending && cfg.transport != WebRtc
    ensures x.s.awaiting && x.s.slots > 0
  {
    assert pending != {};
  }

  lemma ClaimedStreams(cfg: Config, x: Ctl, x': Ctl, n: nat, pending: set<nat>, claimed: seq<nat>, i: nat)
    requires StreamsInv(cfg, x, n, pending, claimed)
    requires i in pending && cfg.transport != WebRtc && x.s.slots > 0
    requires x' == x.(s := x.s.(slots := x.s.slots - 1))
    ensures StreamsInv(cfg, x', n, pending - {i}, claimed + [i])
  {
    var q, q' := x.added + claimed, x.added + (claimed + [i]);
    assert q' == q + [i];
    assert |pending - {i}| == |pending| - 1;
    forall a, b | 0 <= a < b < |q'| ensures q'[a] != q'[b] {
      assert q'[a] == q[a] && q[a] in q;
    }
  }

  /** During collection no stream has started, and no later claim is made. */
  lemma LinksAdded(cfg: Config, x: Ctl, x': Ctl, links: seq<Link>, i: nat)
    requires LinksInv(cfg, x, links) && i < |links| && i !in x.added
    requires x' == x.(added := x.added + [i])
    requires At(x.s.pc) == 4 && x.c.got <= 2 && x.c.put <= 2 && !x.c.pc.CMarkers? && !x.c.pc.CEndWrite?
    ensures
      var links' := if cfg.reverse then links else links[i := links[i].(rx := RxTop)];
      LinksInv(cfg, x', links') && AllAdvance(links, links')
  {
    var links' := if cfg.reverse then links else links[i := links[i].(rx := RxTop)];
    forall j | 0 <= j < |links| ensures LinkInv(cfg, x', j, links'[j]) {
      assert LinkInv(cfg, x, j, links[j]);
    }
  }

  lemma CollectedStreams(cfg: Config, x: Ctl, x': Ctl, n: nat, pending: set<nat>, claimed: seq<nat>)
    requires StreamsInv(cfg, x, n, pending, claimed) && At(x.s.pc) == 4
    requires claimed != [] && x' == x.(added := x.added + [claimed[0]])
    ensures claimed[0] < n && claimed[0] !in x.added
    ensures StreamsInv(cfg, x', n, pending, claimed[1..])
  {
    var q := x.added + claimed;
    assert claimed[0] in claimed;
    assert q[|x.added|] == claimed[0];
    forall a | 0 <= a < |x.added| ensures x.added[a] != claimed[0] { assert q[a] == x.added[a]; }
    assert (x.added + [claimed[0]]) + claimed[1..] == q;
    forall j | j in claimed[1..] ensures 0 <= j < n { assert j in claimed; }
    forall j | 0 <= j < n ensures j in pending || j in claimed[1..] || j in x'.added {
      if j in claimed { assert claimed == [claimed[0]] + claimed[1..]; }
    }
  }

  lemma CollectedPayload(cfg: Config, x: Ctl, x': Ctl, n: nat, pending: set<nat>, claimed: seq<nat>)
    requires StreamsInv(cfg, x, n, pending, claimed) && At(x.s.pc) == 4 && cfg.transport == WebRtc
    requires |x.added| in pending && x' == x.(added := x.added + [|x.added|])
    ensures StreamsInv(cfg, x', n, pending - {|x.added|}, claimed)
  {
    assert x'.added + claimed == x'.added;
    assert x.added + claimed == x.added;
    assert |pending - {|x.added|}| == |pending| - 1;
  }

  lemma CollectedAllKeepsInv(cfg: Config, st: State)
    requires ValidConfig(cfg) && Inv(cfg, st) && st.s.pc.SCollect? && |st.added| >= cfg.parallel
    ensures Inv(cfg, Collect(cfg, st).value)
  {
    var st' := Collect(cfg, st).value;
    var x, x' := CtlOf(st), CtlOf(st');
    assert NoNewClaim(cfg, x, x');
    LinksCarry(cfg, x, x', st.links);
    assert StreamsInv(cfg, x', |st.links|, st.pending, st.claimed);
    RowsCarry(cfg, x, x', st.links, st.links);
  }

  /** Adding one stream, whichever queue it came from. */
  lemma AddKeepsInv(cfg: Config, st: State, st1: State, i: nat)
    requires ValidConfig(cfg) && Inv(cfg, st) && st.s.pc.SCollect?
    requires st1 == st.(pending := st1.pending, claimed := st1.claimed)
    requires i < |st.links| && i !in st.added
    requires StreamsInv(cfg, CtlOf(st).(added := st.added + [i]), |st.links|, st1.pending, st1.claimed)
    ensures Inv(cfg, AddStream(cfg, st1, i))
  {
    var st' := AddStream(cfg, st1, i);
    var x, x' := CtlOf(st), CtlOf(st');
    assert x' == x.(added := x.added + [i]);
    assert st.c.got <= 2;
    LinksAdded(cfg, x, x', st.links, i);
    RowsSurvive(cfg, x, st.links, st'.added, st'.links);
  }

  lemma CollectKeepsInv(cfg: Config, st: State)
    requires ValidConfig(cfg) && Inv(cfg, st) && st.s.pc.SCollect? && Collect(cfg, st).Some?
    ensures Inv(cfg, Collect(cfg, st).value)
  {
    var x := CtlOf(st);
    var n := |st.links|;
    if |st.added| >= cfg.parallel {
      CollectedAllKeepsInv(cfg, st);
    } else if cfg.transport == WebRtc {
      var i := |st.added|;
      CollectedPayload(cfg, x, x.(added := x.added + [i]), n, st.pending, st.claimed);
      AddKeepsInv(cfg, st, st.(pending := st.pending - {i}), i);
    } else {
      var i := st.claimed[0];
      CollectedStreams(cfg, x, x.(added := x.added + [i]), n, st.pending, st.claimed);
      AddKeepsInv(cfg, st, st.(claimed := st.claimed[1..]), i);
    }
  }

  // ----- server: start, stop, join, markers, drain, close -----

  lemma ServerSpawnKeepsInv(cfg: Config, st: State)
    requires ValidConfig(cfg) && Inv(cfg, st) && st.s.pc.SSpawn?
    ensures Inv(cfg, ServerLocal(cfg, st).value)
  {
    var st' := ServerLocal(cfg, st).value;
    var x, x' := CtlOf(st), CtlOf(st');
    assert st.c.got <= 4;
    if cfg.reverse {
      SpawnKeepsLinks(cfg, x, x', st.links);
    } else {
      assert NoNewClaim(cfg, x, x');
      LinksCarry(cfg, x, x', st.links);
    }
    StreamsCarry(cfg, x, x', |st.links|, st.pending, st.claimed);
    RowsCarry(cfg, x, x', st.links, st'.links);
  }

  /** TEST_END sends the server on to a join, a drain or its closes. */
  lemma StopMoves(cfg: Config, st: State)
    requires st.s.pc.SStop? && ServerInv(cfg, st.s)
    ensures
      var st' := ServerLocal(cfg, st).value;
      && st' == st.(s := st.s.(pc := st'.s.pc), stopTx := st'.stopTx, stopRx := st'.stopRx)
      && st'.s.pc in {SJoin, SDrain, SClosing(0)} && ServerInv(cfg, st'.s)
      && st'.stopTx == (st.stopTx || cfg.reverse)
      && st'.stopRx == (st.stopRx || (!cfg.reverse && !Drains(cfg)))
  {
  }

  lemma StopPlace(cfg: Config, x: Ctl, x': Ctl)
    requires FlagsInv(cfg, x) && x.s.pc.SStop? && x'.s.pc in {SJoin, SDrain, SClosing(0)}
    requires x' == x.(s := x.s.(pc := x'.s.pc), stopTx := x.stopTx || cfg.reverse,
                      stopRx := x.stopRx || (!cfg.reverse && !Drains(cfg)))
    requires x'.s.pc.SClosing? ==> !Drains(cfg) || (cfg.reverse && cfg.transport != WebRtc)
    requires ServerInv(cfg, x'.s)
    ensures FlagsInv(cfg, x') && NoNewClaim(cfg, x, x')
  {
  }

  lemma StopKeepsInv(cfg: Config, st: State)
    requires ValidConfig(cfg) && Inv(cfg, st) && st.s.pc.SStop?
    ensures Inv(cfg, ServerLocal(cfg, st).value)
  {
    var st' := ServerLocal(cfg, st).value;
    var x, x' := CtlOf(st), CtlOf(st');
    StopMoves(cfg, st);
    StopPlace(cfg, x, x');
    LinksCarry(cfg, x, x', st.links);
    StreamsCarry(cfg, x, x', |st.links|, st.pending, st.claimed);
    RowsCarry(cfg, x, x', st.links, st.links);
  }

  lemma ServerJoinKeepsInv(cfg: Config, st: State)
    requires ValidConfig(cfg) && Inv(cfg, st) && (st.s.pc.SJoin? || st.s.pc.SDrain?) && ServerLocal(cfg, st).Some?
    ensures Inv(cfg, ServerLocal(cfg, st).value)
  {
    var st' := ServerLocal(cfg, st).value;
    var x, x' := CtlOf(st), CtlOf(st');
    if TxJoined(cfg, x) { JoinedTxEnded(cfg, x, st.links); }
    LinksClaim(cfg, x, x', st.links);
    StreamsCarry(cfg, x, x', |st.links|, st.pending, st.claimed);
    RowsCarry(cfg, x, x', st.links, st.links);
  }

  /** Every stream is in the server's list once collection is over. */
  lemma AllAdded(cfg: Config, st: State, i: nat)
    requires Inv(cfg, st) && At(st.s.pc) >= 5 && i < |st.links|
    ensures i in st.added
  {
    assert st.pending == {} && st.claimed == [];
  }

  lemma ServerMarkKeepsInv(cfg: Config, st: State, k: nat)
    requires ValidConfig(cfg) && Inv(cfg, st) && st.s.pc == SMarkers(k) && ServerMark(st, k).Some?
    ensures Inv(cfg, ServerMark(st, k).value)
  {
    var st' := ServerMark(st, k).value;
    var x, x' := CtlOf(st), CtlOf(st');
    JoinedTxEnded(cfg, x, st.links);
    if k >= |st.added| {
      assert st.added[..k] == st.added;
      forall i: nat | i < |st.links| ensures MarkerSent(cfg, x, i) { AllAdded(cfg, st, i); }
      LinksClaim(cfg, x, x', st.links);
    } else {
      var i := st.added[k];
      assert st.added[..k + 1] == st.added[..k] + [i];
      assert LinkInv(cfg, x, i, st.links[i]);
      assert LinkInv(cfg, x', i, st'.links[i]);
      LinksUpdate(cfg, x, x', st.links, i, st'.links[i]);
    }
    StreamsCarry(cfg, x, x', |st.links|, st.pending, st.claimed);
    RowsCarry(cfg, x, x', st.links, st'.links);
  }

  lemma ServerCloseLinks(cfg: Config, st: State, k: nat)
    requires ValidConfig(cfg) && Inv(cfg, st) && st.s.pc == SClosing(k) && ServerClose(cfg, st, k).Some?
    ensures
      var st' := ServerClose(cfg, st, k).value;
      LinksInv(cfg, CtlOf(st'), st'.links) && AllAdvance(st.links, st'.links) && |st'.links| == |st.links|
  {
    var st' := ServerClose(cfg, st, k).value;
    var x, x' := CtlOf(st), CtlOf(st');
    if k >= |st.added| {
      assert st.added[..k] == st.added;
      if cfg.reverse {
        forall i: nat | i < |st.links| ensures SenderClosed(cfg, x, i) { AllAdded(cfg, st, i); }
      }
      if TxJoined(cfg, x) { JoinedTxEnded(cfg, x, st.links); }
      LinksClaim(cfg, x, x', st.links);
    } else if cfg.reverse {
      var i := st.added[k];
      assert st.added[..k + 1] == st.added[..k] + [i];
      assert LinkInv(cfg, x, i, st.links[i]);
      assert LinkInv(cfg, x', i, st'.links[i]);
      LinksUpdate(cfg, x, x', st.links, i, st'.links[i]);
    } else {
      assert NoNewClaim(cfg, x, x');
      LinksCarry(cfg, x, x', st.links);
    }
  }

  lemma ServerCloseKeepsInv(cfg: Config, st: State, k: nat)
    requires ValidConfig(cfg) && Inv(cfg, st) && st.s.pc == SClosing(k) && ServerClose(cfg, st, k).Some?
    ensures Inv(cfg, ServerClose(cfg, st, k).value)
  {
    var st' := ServerClose(cfg, st, k).value;
    ServerCloseLinks(cfg, st, k);
    StreamsCarry(cfg, CtlOf(st), CtlOf(st'), |st.links|, st.pending, st.claimed);
    RowsCarry(cfg, CtlOf(st), CtlOf(st'), st.links, st'.links);
  }

  lemma AwaitCloseKeepsInv(cfg: Config, st: State)
    requires ValidConfig(cfg) && Inv(cfg, st) && st.s.pc.SAwaitClose? && ServerLocal(cfg, st).Some?
    ensures Inv(cfg, ServerLocal(cfg, st).value)
  {
    assert st.toS == [];
    var st' := ServerLocal(cfg, st).value;
    var x, x' := CtlOf(st), CtlOf(st');
    assert NoNewClaim(cfg, x, x');
    LinksCarry(cfg, x, x', st.links);
    StreamsCarry(cfg, x, x', |st.links|, st.pending, st.claimed);
    RowsCarry(cfg, x, x', st.links, st.links);
  }

  // ----- every step -----

  lemma ClientLocalKeepsInv(cfg: Config, st: State)
    requires ValidConfig(cfg) && Inv(cfg, st) && ClientLocal(cfg, st).Some?
    ensures Inv(cfg, ClientLocal(cfg, st).value)
  {
    match st.c.pc {
      case COpening(left) => if left == 0 { OpenedAllKeepsInv(cfg, st); } else { OpenKeepsInv(cfg, st); }
      case CJoin => JoinKeepsInv(cfg, st);
      case CMarkers(_) => MarkKeepsInv(cfg, st);
      case CClosing(_) => CloseKeepsInv(cfg, st);
      case CDrain => DrainKeepsInv(cfg, st);
      case CSnap(_) => SnapKeepsInv(cfg, st);
    }
  }

  lemma ClientReadKeepsInv(cfg: Config, st: State)
    requires ValidConfig(cfg) && Inv(cfg, st) && st.toC != [] && st.c.pc in {CLoop, CResultsRead, CAck}
    ensures Inv(cfg, ClientTake(cfg, st))
  {
    if st.c.pc.CLoop? && st.c.got == 3 && !cfg.reverse {
      ClientSpawnKeepsInv(cfg, st);
    } else {
      ClientTakeKeepsInv(cfg, st);
    }
  }

  lemma ClientKeepsInv(cfg: Config, st: State)
    requires ValidConfig(cfg) && Inv(cfg, st) && ClientNext(cfg, st).Some?
    ensures Inv(cfg, ClientNext(cfg, st).value)
  {
    if st.c.pc in {CConnect, CParams, CEndWrite, CResultsWrite, CDisplay} {
      ClientPutKeepsInv(cfg, st);
    } else if st.c.pc in {CLoop, CResultsRead, CAck} {
      ClientReadKeepsInv(cfg, st);
    } else {
      ClientLocalKeepsInv(cfg, st);
    }
  }

  lemma ServerLoopKeepsInv(cfg: Config, st: State)
    requires ValidConfig(cfg) && Inv(cfg, st) && ServerLocal(cfg, st).Some?
    requires st.s.pc.SMarkers? || st.s.pc.SClosing? || st.s.pc.SSnap?
    ensures Inv(cfg, ServerLocal(cfg, st).value)
  {
    match st.s.pc {
      case SMarkers(k) => ServerMarkKeepsInv(cfg, st, k);
      case SClosing(k) => ServerCloseKeepsInv(cfg, st, k);
      case SSnap => ServerSnapKeepsInv(cfg, st);
    }
  }

  lemma ServerPointKeepsInv(cfg: Config, st: State)
    requires ValidConfig(cfg) && Inv(cfg, st) && ServerLocal(cfg, st).Some?
    requires !st.s.pc.SMarkers? && !st.s.pc.SClosing? && !st.s.pc.SSnap?
    ensures Inv(cfg, ServerLocal(cfg, st).value)
  {
    if st.s.pc.SCollect? {
      CollectKeepsInv(cfg, st);
    } else if st.s.pc.SSpawn? {
      ServerSpawnKeepsInv(cfg, st);
    } else if st.s.pc.SStop? {
      StopKeepsInv(cfg, st);
    } else if st.s.pc.SAwaitClose? {
      AwaitCloseKeepsInv(cfg, st);
    } else {
      ServerJoinKeepsInv(cfg, st);
    }
  }

  lemma ServerLocalKeepsInv(cfg: Config, st: State)
    requires ValidConfig(cfg) && Inv(cfg, st) && ServerLocal(cfg, st).Some?
    ensures Inv(cfg, ServerLocal(cfg, st).value)
  {
    if st.s.pc.SMarkers? || st.s.pc.SClosing? || st.s.pc.SSnap? {
      ServerLoopKeepsInv(cfg, st);
    } else {
      ServerPointKeepsInv(cfg, st);
    }
  }

  lemma ServerKeepsInv(cfg: Config, st: State)
    requires ValidConfig(cfg) && Inv(cfg, st) && ServerNext(cfg, st).Some?
    ensures Inv(cfg, ServerNext(cfg, st).value)
  {
    if ServerWrites(st.s.pc) {
      ServerPutKeepsInv(cfg, st);
    } else if ServerReads(st.s.pc) {
      ServerTakeKeepsInv(cfg, st);
    } else {
      ServerLocalKeepsInv(cfg, st);
    }
  }

  lemma NextKeepsInv(cfg: Config, st: State, move: Label)
    requires ValidConfig(cfg) && Inv(cfg, st) && Next(cfg, st, move).Some?
    ensures Inv(cfg, Next(cfg, st, move).value)
  {
    match move {
      case ClientStep => ClientKeepsInv(cfg, st);
      case DurationTimer => TimerKeepsInv(cfg, st);
      case ServerStep => ServerKeepsInv(cfg, st);
      case Accept(i) => AcceptKeepsInv(cfg, st, i);
      case Task(i, m) => TaskKeepsInv(cfg, st, i, m);
    }
  }

  lemma {:induction false} RunKeepsInv(cfg: Config, from: State, moves: seq<Label>)
    requires ValidConfig(cfg) && Inv(cfg, from) && Run(cfg, from, moves).Some?
    ensures Inv(cfg, Run(cfg, from, moves).value)
    decreases |moves|
  {
    if moves != [] {
      NextKeepsInv(cfg, from, moves[0]);
      RunKeepsInv(cfg, Next(cfg, from, moves[0]).value, moves[1..]);
    }
  }
}
