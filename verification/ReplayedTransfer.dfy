/** A snapshot whose recording holds a transfer: right after the restart part of the money is in a credit just emitted. */
module ReplayedTransfer {
  import opened Wrappers
  import opened Mesh
  import opened Counter
  import opened Sidecar
  import opened Bookkeeping
  import opened Sums
  import opened Network
  import opened Wave
  import opened WaveRun
  import opened ConsistentCut
  import opened Completion
  import opened Beginning
  import opened Restart
  import opened Episodes

  /** A process at B asks A to transfer `x` to B. */
  function Order(x: int): Message {
    Msg(Payload.App(Transfer([], Some(B), APP_PORT, x)), EPHEMERAL_PORT, APP_PORT, A)
  }

  function OrderDatagram(x: int): Datagram {
    Datagram(Address(B, EPHEMERAL_PORT), Some(Address(A, APP_PORT)), Order(x).payload)
  }

  function First(): Node {
    Newcomer(A, TWO, [B], 10)
  }

  function Second(): Node {
    Newcomer(B, TWO, [A], 10)
  }

  /** A right after its cut. */
  function Recording(w: SnapshotId): Node {
    CutOne(First(), B, LOCALHOST, 0, w).(tunnel := [])
  }

  /** B once the order is on its way. */
  function Ordered(x: int): Node {
    Second().(peers := map[A := Peer([Order(x)], {}, [], map[], [])])
  }

  /** A once the order is recorded. */
  function OrderHeld(x: int, w: SnapshotId): Node {
    Recording(w).(
      ctrl := Recording(w).ctrl.(channels := map[B := [Rec(0, Order(x))]]),
      peers := map[B := Peer([MarkerMessage(w)], {}, [Order(x)], map[], [])])
  }

  lemma Sends(x: int)
    ensures var n := Second().(app := App.App(B, [], 10, [OrderDatagram(x)]));
            && PlainChannels(n.ctrl.channels)
            && Intercept(n) == Ordered(x).(tunnel := [Outgoing(A, Data(0, Order(x)))])
  {
    var n := Second();
    assert FRESH.(sent := FRESH.sent + [Order(x)]) == Peer([Order(x)], {}, [], map[], []);
    assert MessageOf(OrderDatagram(x)) == Order(x);
    assert UseRudp(n, A) && InMesh(A);
  }

  lemma Records(x: int, w: SnapshotId)
    ensures PlainChannels(Recording(w).ctrl.channels)
    ensures Receive(Recording(w), B, Data(0, Order(x))) == OrderHeld(x, w).(tunnel := [Outgoing(B, Frame.Ack(0))])
  {
    var n := Recording(w);
    var p := Peer([MarkerMessage(w)], {}, [], map[], []);
    assert {B} - {LOCALHOST} == {B} && [] + [MarkerMessage(w)] == [MarkerMessage(w)];
    assert n.peers == map[B := p] && At(n.peers, B) == p;
    var q := n.(peers := n.peers[B := p], tunnel := n.tunnel + [Outgoing(B, Frame.Ack(0))]);
    TakeCases(q, B, Order(x));
    var r := Append(Keep(q, B, Order(x)), B, Order(x));
    assert ChannelOf(q.ctrl, B) == [] && [] + [Rec(0, Order(x))] == [Rec(0, Order(x))];
    assert r.ctrl.channels == map[B := [Rec(0, Order(x))]];
    assert [] + [Order(x)] == [Order(x)] && p.(got := [Order(x)]) == Peer([MarkerMessage(w)], {}, [Order(x)], map[], []);
    assert r.peers == OrderHeld(x, w).peers && r.ctrl == OrderHeld(x, w).ctrl;
    assert r == OrderHeld(x, w).(tunnel := [Outgoing(B, Frame.Ack(0))]);
    assert Take(q, B, Order(x)) == r;
    assert Unbuffer(r, B) == r;
  }

  // ---------- The run ----------

  /** A is asked for a snapshot, and is cut. */
  lemma FirstCut(w: SnapshotId) returns (run: seq<Action>, s: System)
    ensures LeadsTo(FreshPair(10, 10), run, s, w) && IsPair(s, Recording(w), Second())
    ensures Packet(A, B, Data(0, MarkerMessage(w))) in s.net
  {
    var start := FreshPair(10, 10);
    PairIsFresh(10, 10);
    EmptyRun(start, w);
    var asked := First().(app := App.App(A, [], 10, [Request(A, w)]));
    var q := LocalStep(start, [], start, A, LocalSend(Request(A, w)), asked, w);
    PairMoves(start, q, First(), Second(), A, asked, start.net);
    StartsOne(asked, B, Request(A, w), w);
    assert asked.(app := asked.app.(pending := [])) == First();
    var r := CutOne(First(), B, LOCALHOST, 0, w);
    run := [] + [Local(A, LocalSend(Request(A, w)))];
    s := LocalStep(start, run, q, A, Intercepted, r, w);
    PairMoves(q, s, asked, Second(), A, r, q.net);
    assert Outgoing(B, Data(0, MarkerMessage(w))) in r.tunnel;
    run := run + [Local(A, Intercepted)];
  }

  /** B, not cut yet, sends its order. */
  lemma ThenOrdered(x: int, w: SnapshotId) returns (run: seq<Action>, s: System)
    ensures LeadsTo(FreshPair(10, 10), run, s, w) && IsPair(s, Recording(w), Ordered(x))
    ensures Packet(A, B, Data(0, MarkerMessage(w))) in s.net && Packet(B, A, Data(0, Order(x))) in s.net
  {
    var before, q := FirstCut(w);
    var asked := Second().(app := App.App(B, [], 10, [OrderDatagram(x)]));
    var q1 := LocalStep(FreshPair(10, 10), before, q, B, LocalSend(OrderDatagram(x)), asked, w);
    PairMoves(q, q1, Recording(w), Second(), B, asked, q.net);
    run := before + [Local(B, LocalSend(OrderDatagram(x)))];
    Sends(x);
    var r := Ordered(x).(tunnel := [Outgoing(A, Data(0, Order(x)))]);
    s := LocalStep(FreshPair(10, 10), run, q1, B, Intercepted, r, w);
    PairMoves(q1, s, Recording(w), asked, B, r, q1.net);
    assert Outgoing(A, Data(0, Order(x))) in r.tunnel;
    run := run + [Local(B, Intercepted)];
  }

  /** A takes the order in, and records it. */
  lemma ThenRecorded(x: int, w: SnapshotId) returns (run: seq<Action>, s: System)
    ensures LeadsTo(FreshPair(10, 10), run, s, w) && IsPair(s, OrderHeld(x, w), Ordered(x))
    ensures Packet(A, B, Data(0, MarkerMessage(w))) in s.net
  {
    var before, q := ThenOrdered(x, w);
    var order := Packet(B, A, Data(0, Order(x)));
    Records(x, w);
    var r := OrderHeld(x, w).(tunnel := [Outgoing(B, Frame.Ack(0))]);
    s := DeliverStep(FreshPair(10, 10), before, q, order, r, w);
    PairMoves(q, s, Recording(w), Ordered(x), A, r, q.net - multiset{order});
    assert Packet(A, B, Data(0, MarkerMessage(w))) in q.net - multiset{order};
    run := before + [Deliver(order)];
  }

  /** B is cut by A's marker, and is done. */
  lemma ThenSecondDone(x: int, w: SnapshotId) returns (run: seq<Action>, s: System)
    ensures LeadsTo(FreshPair(10, 10), run, s, w)
    ensures IsPair(s, OrderHeld(x, w), CutAndDone(Ordered(x), A, w).(tunnel := []))
    ensures Packet(B, A, Data(1, MarkerMessage(w))) in s.net
  {
    var before, q := ThenRecorded(x, w);
    var marker := Packet(A, B, Data(0, MarkerMessage(w)));
    PairIsFresh(10, 10);
    MarkerCutsOne(Ordered(x), A, w);
    var r := CutAndDone(Ordered(x), A, w);
    s := DeliverStep(FreshPair(10, 10), before, q, marker, r, w);
    PairMoves(q, s, OrderHeld(x, w), Ordered(x), B, r, q.net - multiset{marker});
    assert Outgoing(A, Data(1, MarkerMessage(w))) in r.tunnel;
    run := before + [Deliver(marker)];
  }

  lemma SecondIsDone(x: int, w: SnapshotId)
    ensures var b := CutAndDone(Ordered(x), A, w).(tunnel := []);
            && IsDone(b) && ArtifactOf(b).peers.Keys == {A} && ArtifactOf(b).peers[A].channel == []
  {
  }

  lemma MarkerReturns(x: int, w: SnapshotId) returns (r: Node)
    requires NodeInv(OrderHeld(x, w)) && PlainChannels(OrderHeld(x, w).ctrl.channels)
    ensures r == Receive(OrderHeld(x, w), B, Data(1, MarkerMessage(w)))
    ensures IsDone(r) && ArtifactOf(r).peers.Keys == {B} && ArtifactOf(r).peers[B].channel == [Rec(0, Order(x))]
  {
    var n := OrderHeld(x, w);
    assert {B} - {LOCALHOST} == {B} && |At(n.peers, B).got| == 1 && At(n.peers, B).buffer == map[];
    LastMarker(n, B, w);
    r := Receive(n, B, Data(1, MarkerMessage(w)));
  }

  /** B's marker comes back, and A is done as well. */
  lemma ThenDone(x: int, w: SnapshotId) returns (run: seq<Action>, t: System, a: Node, b: Node)
    ensures LeadsTo(FreshPair(10, 10), run, t, w) && IsPair(t, a, b) && IsDone(a) && IsDone(b)
    ensures ArtifactOf(a).peers.Keys == {B} && ArtifactOf(a).peers[B].channel == [Rec(0, Order(x))]
    ensures ArtifactOf(b).peers.Keys == {A} && ArtifactOf(b).peers[A].channel == []
  {
    var before, q := ThenSecondDone(x, w);
    b := CutAndDone(Ordered(x), A, w).(tunnel := []);
    SecondIsDone(x, w);
    MemberOfRun(before, q, OrderHeld(x, w), b, w);
    var back := Packet(B, A, Data(1, MarkerMessage(w)));
    var r := MarkerReturns(x, w);
    t := DeliverStep(FreshPair(10, 10), before, q, back, r, w);
    PairMoves(q, t, OrderHeld(x, w), b, A, r, q.net - multiset{back});
    a := r.(tunnel := []);
    run := before + [Deliver(back)];
  }

  lemma TransfersOf(x: int, a: Node, b: Node)
    requires IsDone(a) && ArtifactOf(a).peers.Keys == {B} && ArtifactOf(a).peers[B].channel == [Rec(0, Order(x))]
    requires IsDone(b) && ArtifactOf(b).peers.Keys == {A} && ArtifactOf(b).peers[A].channel == []
    ensures Total(TWO, TransferValues(ChannelsOf(ArtifactOf(a)))) == x
    ensures Total(TWO, TransferValues(ChannelsOf(ArtifactOf(b)))) == 0
  {
    var u, v := TransferValues(ChannelsOf(ArtifactOf(a))), TransferValues(ChannelsOf(ArtifactOf(b)));
    assert SumTransfers([Rec(0, Order(x))]) == x + SumTransfers([]);
    assert TWO[1..] == [B] && [B][1..] == [];
    assert Total([B], u) == x && Total([B], v) == 0;
  }

  lemma PairTransfers(x: int, t: System, a: Node, b: Node)
    requires IsPair(t, a, b) && IsDone(a) && IsDone(b)
    requires Total(TWO, TransferValues(ChannelsOf(ArtifactOf(a)))) == x
    requires Total(TWO, TransferValues(ChannelsOf(ArtifactOf(b)))) == 0
    ensures AllDone(t) && TransferTotal(t, TWO) == x
  {
    PairDone(t, a, b);
    assert TWO[1..] == [B] && [B][1..] == [];
    assert TransferTotal(t, [B]) == 0;
  }

  lemma RecordedRun(x: int, w: SnapshotId) returns (run: seq<Action>, t: System)
    ensures WellFormed(FreshPair(10, 10)) && LegalWave(FreshPair(10, 10), run, w) && Legal(FreshPair(10, 10), run)
    ensures t == Run(FreshPair(10, 10), run) && WaveSys(t, w) && t.mesh == TWO && t.nodes.Keys == {A, B}
    ensures AllDone(t) && TransferTotal(t, TWO) == x
  {
    PairStarts(w);
    var a, b;
    run, t, a, b := ThenDone(x, w);
    PairRuns(run, t, w);
    TransfersOf(x, a, b);
    PairTransfers(x, t, a, b);
  }

  /**
   * From two members that have just started, a run of a wave that records a transfer of `x`; after the restart the
   * counters are short of the snapshot by `x`, which is in the credit that the replay has made a member emit.
   */
  lemma CountersAloneAreShort(x: int, w: SnapshotId) returns (run: seq<Action>, t: System)
    ensures WellFormed(FreshPair(10, 10)) && LegalWave(FreshPair(10, 10), run, w) && Legal(FreshPair(10, 10), run)
    ensures t == Run(FreshPair(10, 10), run) && WaveSys(t, w) && AllDone(t) && t.mesh == TWO && t.nodes.Keys == {A, B}
    ensures Recoverable(t)
    ensures CounterTotal(RestoredSystem(t), TWO) + ExitTotal(RestoredSystem(t), TWO) == SnapshotTotal(t, w) - x
  {
    run, t := RecordedRun(x, w);
    RestoredCounters(t, w);
  }
}
