/** The one way a stored snapshot misses money: a member's credit to itself, on its way when the member is cut. */
module SelfTransfer {
  import opened Wrappers
  import opened Mesh
  import opened Counter
  import opened Sidecar
  import opened Bookkeeping
  import opened Network
  import opened Wave
  import opened WaveRun
  import opened ConsistentCut
  import opened Completion
  import opened Beginning
  import opened Restoration
  import opened Restart
  import opened Episodes

  /** A client tells member A to transfer `x` to A. */
  function Order(x: int): Message {
    Msg(Payload.App(Transfer([], Some(A), APP_PORT, x)), APP_PORT, APP_PORT, A)
  }

  function CreditTo(x: int): Message {
    Msg(Payload.App(Credit([], [], x)), EPHEMERAL_PORT, APP_PORT, A)
  }

  function CreditDatagram(x: int): Datagram {
    Datagram(Address(A, EPHEMERAL_PORT), Some(Address(A, APP_PORT)), CreditTo(x).payload)
  }

  const REPLY: Datagram :=
    Datagram(Address(A, APP_PORT), Some(Address(CLIENT, APP_PORT)), Payload.App(Done("TRANSFER", [])))

  /** A after the debit. */
  function Debited(x: int): Node {
    Newcomer(A, TWO, [B], 10).(
      app := App.App(A, [], 10 - x, [CreditDatagram(x), REPLY]), peers := map[CLIENT := FRESH],
      spoof := [Address(CLIENT, APP_PORT)])
  }

  /** A after the credit to itself was sent. */
  function Credited(x: int): Node {
    Debited(x).(app := App.App(A, [], 10 - x, [REPLY]),
                peers := map[CLIENT := FRESH, A := Peer([CreditTo(x)], {}, [], map[], [])])
  }

  /** A after the client was answered. */
  function Answered(x: int): Node {
    Credited(x).(app := App.App(A, [], 10 - x, []), exits := [REPLY])
  }

  lemma Debits(x: int)
    ensures React(Newcomer(A, TWO, [B], 10), Arrive(CLIENT, Frame.Plain(Order(x)))) == Debited(x)
  {
  }

  lemma Credits(x: int)
    ensures Debited(x).app.pending != [] && PlainChannels(Debited(x).ctrl.channels)
    ensures Intercept(Debited(x)) == Credited(x).(tunnel := [Outgoing(A, Data(0, CreditTo(x)))])
  {
    var n := Pop(Debited(x));
    assert n.app.pending == [REPLY] && At(n.peers, A) == FRESH;
    assert FRESH.(sent := FRESH.sent + [CreditTo(x)]) == Peer([CreditTo(x)], {}, [], map[], []);
    assert MessageOf(CreditDatagram(x)) == CreditTo(x);
    assert UseRudp(n, A) && InMesh(A);
  }

  lemma Answers(x: int)
    ensures Credited(x).app.pending != [] && PlainChannels(Credited(x).ctrl.channels)
    ensures Intercept(Credited(x)) == Answered(x).(tunnel := [Outgoing(CLIENT, Frame.Plain(MessageOf(REPLY)))])
  {
  }

  // ---------- The run ----------

  function Other(): Node {
    Newcomer(B, TWO, [A], 10)
  }

  /** The client's order, and the credit sent to A itself. */
  lemma CreditIsSent(x: int, w: SnapshotId) returns (run: seq<Action>, s: System)
    ensures LeadsTo(FreshPair(10, 10), run, s, w) && IsPair(s, Credited(x), Other())
    ensures Packet(A, A, Data(0, CreditTo(x))) in s.net
  {
    var start := FreshPair(10, 10);
    PairIsFresh(10, 10);
    EmptyRun(start, w);
    Debits(x);
    var s1 := OutsideStep(start, [], start, A, CLIENT, Order(x), Debited(x), w);
    PairMoves(start, s1, Newcomer(A, TWO, [B], 10), Other(), A, Debited(x), start.net);
    Credits(x);
    var r := Credited(x).(tunnel := [Outgoing(A, Data(0, CreditTo(x)))]);
    s := LocalStep(start, [] + [Outside(A, CLIENT, Order(x))], s1, A, Intercepted, r, w);
    PairMoves(s1, s, Debited(x), Other(), A, r, s1.net);
    assert Outgoing(A, Data(0, CreditTo(x))) in r.tunnel;
    run := [] + [Outside(A, CLIENT, Order(x))] + [Local(A, Intercepted)];
  }

  /** The credit is lost, and the client is answered. */
  lemma CreditIsLost(x: int, w: SnapshotId) returns (run: seq<Action>, s: System)
    ensures LeadsTo(FreshPair(10, 10), run, s, w) && IsPair(s, Answered(x), Other())
  {
    var start := FreshPair(10, 10);
    var before, q := CreditIsSent(x, w);
    var lost := Packet(A, A, Data(0, CreditTo(x)));
    var q1 := LoseStep(start, before, q, lost, w);
    Answers(x);
    var r := Answered(x).(tunnel := [Outgoing(CLIENT, Frame.Plain(MessageOf(REPLY)))]);
    s := LocalStep(start, before + [Lose(lost)], q1, A, Intercepted, r, w);
    PairMoves(q1, s, Credited(x), Other(), A, r, q1.net);
    run := before + [Lose(lost)] + [Local(A, Intercepted)];
  }

  function Asked(x: int, w: SnapshotId): Node {
    Answered(x).(app := App.App(A, [], 10 - x, [Request(A, w)]))
  }

  /** A local process at A asks for a snapshot. */
  lemma ThenAsked(x: int, w: SnapshotId) returns (run: seq<Action>, s: System)
    ensures LeadsTo(FreshPair(10, 10), run, s, w) && IsPair(s, Asked(x, w), Other())
  {
    var before, q := CreditIsLost(x, w);
    s := LocalStep(FreshPair(10, 10), before, q, A, LocalSend(Request(A, w)), Asked(x, w), w);
    PairMoves(q, s, Answered(x), Other(), A, Asked(x, w), q.net);
    run := before + [Local(A, LocalSend(Request(A, w)))];
  }

  /** A is cut. */
  lemma ThenCut(x: int, w: SnapshotId) returns (run: seq<Action>, s: System)
    ensures LeadsTo(FreshPair(10, 10), run, s, w)
    ensures IsPair(s, CutOne(Answered(x), B, LOCALHOST, 0, w).(tunnel := []), Other())
    ensures Packet(A, B, Data(0, MarkerMessage(w))) in s.net
  {
    var before, q := ThenAsked(x, w);
    PairIsFresh(10, 10);
    StartsOne(Asked(x, w), B, Request(A, w), w);
    assert Asked(x, w).(app := Asked(x, w).app.(pending := [])) == Answered(x);
    var r := CutOne(Answered(x), B, LOCALHOST, 0, w);
    s := LocalStep(FreshPair(10, 10), before, q, A, Intercepted, r, w);
    PairMoves(q, s, Asked(x, w), Other(), A, r, q.net);
    assert Outgoing(B, Data(0, MarkerMessage(w))) in r.tunnel;
    run := before + [Local(A, Intercepted)];
  }

  /** B is cut by A's marker, and is done. */
  lemma ThenOtherDone(x: int, w: SnapshotId) returns (run: seq<Action>, s: System)
    ensures LeadsTo(FreshPair(10, 10), run, s, w)
    ensures IsPair(s, CutOne(Answered(x), B, LOCALHOST, 0, w).(tunnel := []), CutAndDone(Other(), A, w).(tunnel := []))
    ensures Packet(B, A, Data(0, MarkerMessage(w))) in s.net
  {
    var before, q := ThenCut(x, w);
    var marker := Packet(A, B, Data(0, MarkerMessage(w)));
    PairIsFresh(10, 10);
    MarkerCutsOne(Other(), A, w);
    var r := CutAndDone(Other(), A, w);
    s := DeliverStep(FreshPair(10, 10), before, q, marker, r, w);
    PairMoves(q, s, CutOne(Answered(x), B, LOCALHOST, 0, w).(tunnel := []), Other(), B, r, q.net - multiset{marker});
    assert Outgoing(A, Data(0, MarkerMessage(w))) in r.tunnel;
    run := before + [Deliver(marker)];
  }

  /** B's marker comes back, and A is done as well. */
  lemma ThenDone(x: int, w: SnapshotId) returns (run: seq<Action>, t: System, a: Node, b: Node)
    ensures LeadsTo(FreshPair(10, 10), run, t, w) && IsPair(t, a, b) && IsDone(a) && IsDone(b)
    ensures IsCut(a) && ImageOf(a).peers == Answered(x).peers && a.cfg.self == A
    ensures IsCut(b) && ImageOf(b).peers == map[A := FRESH] && b.cfg.self == B
  {
    var before, q := ThenOtherDone(x, w);
    var n := CutOne(Answered(x), B, LOCALHOST, 0, w).(tunnel := []);
    b := CutAndDone(Other(), A, w).(tunnel := []);
    OtherIsDone(w);
    MemberOfRun(before, q, n, b, w);
    var back := Packet(B, A, Data(0, MarkerMessage(w)));
    var r := MarkerReturns(x, w);
    t := DeliverStep(FreshPair(10, 10), before, q, back, r, w);
    PairMoves(q, t, n, b, A, r, q.net - multiset{back});
    a := r.(tunnel := []);
    run := before + [Deliver(back)];
  }

  lemma OtherIsDone(w: SnapshotId)
    ensures var b := CutAndDone(Other(), A, w).(tunnel := []);
            IsDone(b) && IsCut(b) && ImageOf(b).peers == map[A := FRESH] && b.cfg.self == B
  {
  }

  lemma MarkerReturns(x: int, w: SnapshotId) returns (r: Node)
    requires NodeInv(CutOne(Answered(x), B, LOCALHOST, 0, w).(tunnel := []))
    requires PlainChannels(CutOne(Answered(x), B, LOCALHOST, 0, w).(tunnel := []).ctrl.channels)
    ensures r == Receive(CutOne(Answered(x), B, LOCALHOST, 0, w).(tunnel := []), B, Data(0, MarkerMessage(w)))
    ensures IsDone(r) && IsCut(r) && ImageOf(r).peers == Answered(x).peers && r.cfg.self == A
  {
    var n := CutOne(Answered(x), B, LOCALHOST, 0, w).(tunnel := []);
    assert {B} - {LOCALHOST} == {B} && At(n.peers, B).got == [] && At(n.peers, B).buffer == map[];
    LastMarker(n, B, w);
    r := Receive(n, B, Data(0, MarkerMessage(w)));
  }

  lemma NetsOf(x: int, t: System, a: Node, b: Node)
    requires IsPair(t, a, b)
    requires IsCut(a) && ImageOf(a).peers == Answered(x).peers && a.cfg.self == A
    requires IsCut(b) && ImageOf(b).peers == map[A := FRESH] && b.cfg.self == B
    ensures SelfNets(t, TWO) == x
  {
    assert SumMessages([CreditTo(x)]) == x;
    assert SelfNet(a) == x && SelfNet(b) == 0;
    assert TWO[1..] == [B] && [B][1..] == [];
    assert SelfNets(t, [B]) == 0;
  }

  lemma SelfTotalOf(x: int, t: System, a: Node, b: Node, w: SnapshotId)
    requires WaveSys(t, w) && AllDone(t) && IsPair(t, a, b) && SelfNets(t, TWO) == x
    ensures SelfTotal(t, w) == x
  {
    DoneIsRecoverable(t, w);
    SelfTotalIs(t, w);
  }

  lemma MissedRun(x: int, w: SnapshotId) returns (run: seq<Action>, t: System, a: Node, b: Node)
    ensures WellFormed(FreshPair(10, 10)) && LegalWave(FreshPair(10, 10), run, w) && Legal(FreshPair(10, 10), run)
    ensures t == Run(FreshPair(10, 10), run) && WaveSys(t, w)
    ensures IsPair(t, a, b) && IsDone(a) && IsDone(b) && SelfNets(t, TWO) == x
  {
    PairStarts(w);
    run, t, a, b := ThenDone(x, w);
    PairRuns(run, t, w);
    NetsOf(x, t, a, b);
  }

  /**
   * From two members that have just started with ten each, a run of a wave that ends, with every member done, in a stored
   * total that is short by whatever amount a client had told one of them to transfer to itself.
   */
  lemma SelfTransferIsMissed(x: int, w: SnapshotId) returns (run: seq<Action>, t: System)
    ensures Fresh(FreshPair(10, 10)) && CounterTotal(FreshPair(10, 10), TWO) == 20
    ensures WellFormed(FreshPair(10, 10)) && LegalWave(FreshPair(10, 10), run, w) && Legal(FreshPair(10, 10), run)
    ensures t == Run(FreshPair(10, 10), run) && WaveSys(t, w) && AllDone(t) && SnapshotTotal(t, w) == 20 - x
  {
    PairIsFresh(10, 10);
    var a, b;
    run, t, a, b := MissedRun(x, w);
    MissedTotal(x, run, t, a, b, w);
  }

  lemma MissedTotal(x: int, run: seq<Action>, t: System, a: Node, b: Node, w: SnapshotId)
    requires WellFormed(FreshPair(10, 10)) && Legal(FreshPair(10, 10), run) && t == Run(FreshPair(10, 10), run)
    requires WaveSys(t, w) && IsPair(t, a, b) && IsDone(a) && IsDone(b) && SelfNets(t, TWO) == x
    ensures AllDone(t) && SnapshotTotal(t, w) == 20 - x
  {
    PairIsFresh(10, 10);
    StartingTotal(FreshPair(10, 10), run);
    PairDone(t, a, b);
    SelfTotalOf(x, t, a, b, w);
    SnapshotConserves(t, w);
  }
}
