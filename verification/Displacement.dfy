/** A run in which an app hears the messages of one channel in another order than they were sent in. */
module Displacement {
  import opened Wrappers
  import opened Mesh
  import opened Counter
  import opened Recency
  import opened Sidecar
  import opened Bookkeeping
  import opened Callbacks
  import opened Network
  import opened WaveRun
  import opened Completion
  import opened Beginning
  import opened Order
  import opened Episodes

  const THREE: seq<Ip> := [A, B, C]

  function First(): Node {
    Newcomer(A, THREE, [B, C], 10)
  }

  function Second(): Node {
    Newcomer(B, THREE, [A, C], 10)
  }

  function Third(): Node {
    Newcomer(C, THREE, [A, B], 10)
  }

  function FreshTriple(): System {
    System(THREE, map[A := First(), B := Second(), C := Third()], multiset{})
  }

  lemma OthersOfThree(a: Ip, b: Ip, c: Ip, self: Ip)
    ensures Others([a, b, c], self) ==
            (if a == self then [] else [a]) + (if b == self then [] else [b]) + (if c == self then [] else [c])
  {
    assert [a, b, c][1..] == [b, c] && [b, c][1..] == [c] && [c][1..] == [];
    assert Others([c], self) == if c == self then [] else [c];
    assert Others([b, c], self) == (if b == self then [] else [b]) + Others([c], self);
  }

  lemma NewcomerIsFresh(self: Ip, o: Ip, u: Ip, mesh: seq<Ip>)
    requires Distinct(mesh) && self in mesh && LOCALHOST !in mesh && o != u
    requires forall k :: k in mesh && k != self <==> k == o || k == u
    ensures FreshNode(Newcomer(self, mesh, [o, u], 10))
  {
    assert Distinct([o, u]) by {
      assert [o, u][1..] == [u] && [u][1..] == [];
    }
    assert SetOf([o, u]) == Peers(Config(self, mesh, [o, u]));
  }

  lemma ThreeDistinct(a: Ip, b: Ip, c: Ip)
    requires a != b && a != c && b != c
    ensures Distinct([a, b, c]) && SetOf([a, b, c]) == {a, b, c}
  {
    assert [a, b, c][1..] == [b, c] && [b, c][1..] == [c] && [c][1..] == [];
    assert Distinct([c]) && Distinct([b, c]);
  }

  lemma ThreeOthers()
    ensures Others(THREE, A) == [B, C] && Others(THREE, B) == [A, C] && Others(THREE, C) == [A, B]
  {
    OthersOfThree(A, B, C, A);
    OthersOfThree(A, B, C, B);
    OthersOfThree(A, B, C, C);
  }

  lemma TripleIsFresh()
    ensures Fresh(FreshTriple())
  {
    ThreeDistinct(A, B, C);
    NewcomerIsFresh(A, B, C, THREE);
    NewcomerIsFresh(B, A, C, THREE);
    NewcomerIsFresh(C, A, B, THREE);
  }

  /** `s` is the three members `a`, `b` and `c`, with whatever is in the network. */
  ghost predicate IsTriple(s: System, a: Node, b: Node, c: Node) {
    s.mesh == THREE && s.nodes == map[A := a, B := b, C := c] && WellFormed(s)
  }

  lemma FirstMoves(s: System, t: System, a: Node, b: Node, c: Node, r: Node, net: multiset<Packet>)
    requires IsTriple(s, a, b, c) && Became(s, t, A, r, net)
    ensures IsTriple(t, r.(tunnel := []), b, c)
  {
    ThreeNodes(r.(tunnel := []), a, b, c);
  }

  lemma ThreeNodes(r: Node, a: Node, b: Node, c: Node)
    ensures map[A := a, B := b, C := c][A := r] == map[A := r, B := b, C := c]
  {
  }

  lemma SecondMoves(s: System, t: System, a: Node, b: Node, c: Node, r: Node, net: multiset<Packet>)
    requires IsTriple(s, a, b, c) && Became(s, t, B, r, net)
    ensures IsTriple(t, a, r.(tunnel := []), c)
  {
  }

  lemma ThirdMoves(s: System, t: System, a: Node, b: Node, c: Node, r: Node, net: multiset<Packet>)
    requires IsTriple(s, a, b, c) && Became(s, t, C, r, net)
    ensures IsTriple(t, a, b, r.(tunnel := []))
  {
  }

  /** A process at B asks for A's state. */
  const QUERY: Message := Msg(Payload.App(State), EPHEMERAL_PORT, APP_PORT, A)

  const QUERY_DATAGRAM: Datagram :=
    Datagram(Address(B, EPHEMERAL_PORT), Some(Address(A, APP_PORT)), QUERY.payload)

  // ---------- What the members go through ----------

  /** `n` right after a cut, when nothing is pending and `o` and `u` are the other members. */
  function CutTwo(n: Node, o: Ip, u: Ip, remote: Ip, sn: nat, w: SnapshotId): Node {
    var p, q := At(n.peers, o), At(n.peers, u);
    n.(ctrl := Controller(true, Some(w), {o, u} - {remote}, map[o := [], u := []],
                          map[o := |p.sent| + 1, u := |q.sent| + 1],
                          if remote == o then map[o := sn + 1] else map[], n.peers),
       host := n.host.(images := n.host.images + [Image(w, n.app, n.exits, n.peers)]),
       peers := n.peers[o := p.(sent := p.sent + [MarkerMessage(w)])][u := q.(sent := q.sent + [MarkerMessage(w)])],
       tunnel := n.tunnel + [Outgoing(o, Data(|p.sent|, MarkerMessage(w)))]
                          + [Outgoing(u, Data(|q.sent|, MarkerMessage(w)))])
  }

  lemma BroadcastsTwo(c: Node, o: Ip, u: Ip, w: SnapshotId)
    requires o != u
    ensures var p, q := At(c.peers, o), At(c.peers, u);
            Broadcast(c, [o, u], w) ==
            c.(peers := c.peers[o := p.(sent := p.sent + [MarkerMessage(w)])][u := q.(sent := q.sent + [MarkerMessage(w)])],
               tunnel := c.tunnel + [Outgoing(o, Data(|p.sent|, MarkerMessage(w)))]
                                  + [Outgoing(u, Data(|q.sent|, MarkerMessage(w)))],
               ctrl := c.ctrl.(sendCut := c.ctrl.sendCut[o := |p.sent| + 1][u := |q.sent| + 1]))
  {
    var n1 := SendData(c, o, MarkerMessage(w));
    var n2 := n1.(ctrl := n1.ctrl.(sendCut := n1.ctrl.sendCut[o := |At(n1.peers, o).sent|]));
    assert [o, u][1..] == [u];
    assert Broadcast(c, [o, u], w) == Broadcast(n2, [u], w);
    BroadcastsOne(n2, u, w);
  }

  lemma OpensTwo(b: Node, o: Ip, u: Ip, remote: Ip, sn: nat)
    requires o != u && remote != u && Others(b.cfg.mesh, b.cfg.self) == [o, u] && b.ctrl.recording == {o, u} - {remote}
    ensures OpenChannels(b, remote, sn) ==
            b.(ctrl := b.ctrl.(channels := map[o := [], u := []], recvCut := if remote == o then map[o := sn + 1] else map[]))
  {
    var quiet: map<Ip, seq<Rec>> := map k | k in b.ctrl.recording :: [];
    QuietTwo(o, u, remote, quiet);
  }

  lemma QuietTwo(o: Ip, u: Ip, remote: Ip, quiet: map<Ip, seq<Rec>>)
    requires remote != u && quiet.Keys == {o, u} - {remote} && forall k :: k in quiet ==> quiet[k] == []
    ensures (if remote in [o, u] then quiet[remote := []] else quiet) == map[o := [], u := []]
  {
  }

  lemma BeginsTwo(n: Node, o: Ip, u: Ip, remote: Ip, sn: nat, w: SnapshotId)
    requires Others(n.cfg.mesh, n.cfg.self) == [o, u] && o != u && remote != u
    requires n.app.pending == [] && n.host.checkpointUp
    ensures Begin(n, remote, sn, w) == CutTwo(n, o, u, remote, sn, w)
  {
    QuietCut(n, [o, u], remote, w);
    assert SetOf([o, u]) == {o, u};
    BegunTwo(n, Cut(n, remote, w), o, u, remote, sn, w);
  }

  lemma BegunTwo(n: Node, c: Node, o: Ip, u: Ip, remote: Ip, sn: nat, w: SnapshotId)
    requires Others(n.cfg.mesh, n.cfg.self) == [o, u] && o != u && remote != u
    requires c == n.(ctrl := Controller(true, Some(w), {o, u} - {remote}, map[], map[], map[], n.peers),
                     host := n.host.(images := n.host.images + [Image(w, n.app, n.exits, n.peers)]))
    ensures OpenChannels(Broadcast(c, [o, u], w), remote, sn) == CutTwo(n, o, u, remote, sn, w)
  {
    BroadcastsTwo(c, o, u, w);
    OpensTwo(Broadcast(c, [o, u], w), o, u, remote, sn);
  }

  /** A request at an idle member with two others. */
  lemma StartsTwo(n: Node, o: Ip, u: Ip, d: Datagram, w: SnapshotId)
    requires Others(n.cfg.mesh, n.cfg.self) == [o, u] && o != u && o != LOCALHOST && u != LOCALHOST
    requires n.host.checkpointUp && !n.ctrl.active
    requires n.app.pending == [d] && d.payload == Start(w) && PlainChannels(n.ctrl.channels)
    ensures Intercept(n) == CutTwo(n.(app := n.app.(pending := [])), o, u, LOCALHOST, 0, w)
  {
    var q := Pop(n);
    assert q == n.(app := n.app.(pending := []));
    BeginsTwo(q, o, u, LOCALHOST, 0, w);
    assert o in {o, u} - {LOCALHOST};
    var m := Msg(Marker(w), 0, 0, LOCALHOST);
    assert Initiate(q, LOCALHOST, 0, w) == Begin(q, LOCALHOST, 0, w);
    assert ProcessMessage(q, LOCALHOST, 0, m) == Initiate(q, LOCALHOST, 0, w);
  }

  function Acked(n: Node, o: Ip): Node {
    n.(peers := n.peers[o := At(n.peers, o)], tunnel := n.tunnel + [Outgoing(o, Frame.Ack(|At(n.peers, o).got|))])
  }

  /** The first marker, at an idle member with another channel to record. */
  lemma MarkerCutsTwo(n: Node, o: Ip, u: Ip, w: SnapshotId)
    requires Others(n.cfg.mesh, n.cfg.self) == [o, u] && o != u && n.app.pending == [] && n.host.checkpointUp
    requires n.ctrl == IDLE && At(n.peers, o).buffer == map[]
    ensures PlainChannels(n.ctrl.channels)
    ensures Receive(n, o, Data(|At(n.peers, o).got|, MarkerMessage(w))) ==
            Append(CutTwo(Acked(n, o), o, u, o, |At(n.peers, o).got|, w), o, MarkerMessage(w))
  {
    var q, sn := Acked(n, o), |At(n.peers, o).got|;
    assert At(q.peers, o) == At(n.peers, o);
    var b := CutTwo(q, o, u, o, sn, w);
    BeginsTwo(q, o, u, o, sn, w);
    TakeCases(q, o, MarkerMessage(w));
    assert u in {o, u} - {o};
    assert Initiate(q, o, sn, w) == b;
    var r := Append(b, o, MarkerMessage(w));
    assert Take(q, o, MarkerMessage(w)) == r;
    assert At(r.peers, o).buffer == map[];
    assert Unbuffer(r, o) == r;
  }

  /** Taking in the next message, when nothing waits behind it. */
  lemma TakesIn(n: Node, o: Ip, m: Message)
    requires PlainChannels(n.ctrl.channels) && At(n.peers, o).buffer == map[]
    ensures Receive(n, o, Data(|At(n.peers, o).got|, m)) == Take(Acked(n, o), o, m)
  {
    assert At(Acked(n, o).peers, o) == At(n.peers, o);
    TakeLinks(Acked(n, o), o, m);
    var r := Take(Acked(n, o), o, m);
    assert At(r.peers, o).buffer == map[];
    assert Unbuffer(r, o) == r;
  }

  /** B once it has sent its query. */
  function Asking(): Node {
    Second().(peers := map[A := Peer([QUERY], {}, [], map[], [])])
  }

  /** A right after its cut. */
  function Recording(w: SnapshotId): Node {
    CutTwo(First(), B, C, LOCALHOST, 0, w).(tunnel := [])
  }

  /** The link from B to A, as A has it, and A once the first query is recorded. */
  function Holding(w: SnapshotId): Node {
    Recording(w).(
      ctrl := Recording(w).ctrl.(channels := map[B := [Rec(0, QUERY)], C := []]),
      peers := Recording(w).peers[B := Peer([MarkerMessage(w)], {}, [QUERY], map[], [])])
  }

  /** A once B's marker is in: that channel is closed, C's is still open. */
  function HalfClosed(w: SnapshotId): Node {
    Holding(w).(
      ctrl := Close(Holding(w).ctrl, B, 1),
      peers := Holding(w).peers[B := Peer([MarkerMessage(w)], {}, [QUERY, MarkerMessage(w)], map[], [])])
  }

  /** A once the second query was delivered. */
  function Overtaken(w: SnapshotId): Node {
    HalfClosed(w).(
      app := First().app.Receive(B, QUERY), spoof := [Address(B, EPHEMERAL_PORT)],
      peers := HalfClosed(w).peers[
        B := Peer([MarkerMessage(w)], {}, [QUERY, MarkerMessage(w), QUERY], map[], [Rec(2, QUERY)])])
  }

  lemma Asks(n: Node, p: Peer)
    requires n.cfg == Second().cfg && n.app.pending == [QUERY_DATAGRAM] && At(n.peers, A) == p
    requires PlainChannels(n.ctrl.channels)
    ensures Intercept(n) ==
            n.(app := n.app.(pending := []), peers := n.peers[A := p.(sent := p.sent + [QUERY])],
               tunnel := n.tunnel + [Outgoing(A, Data(|p.sent|, QUERY))])
  {
    assert MessageOf(QUERY_DATAGRAM) == QUERY;
    assert UseRudp(n, A) && InMesh(A);
    assert Pop(n) == n.(app := n.app.(pending := []));
  }

  lemma HoldsFirst(w: SnapshotId)
    ensures PlainChannels(Recording(w).ctrl.channels)
    ensures Receive(Recording(w), B, Data(0, QUERY)) == Holding(w).(tunnel := [Outgoing(B, Frame.Ack(0))])
  {
    var n := Recording(w);
    RecordingHas(w);
    TakesIn(n, B, QUERY);
    TakeCases(Acked(n, B), B, QUERY);
    HoldsRecord(w);
  }

  lemma RecordingHas(w: SnapshotId)
    ensures var n := Recording(w);
            && n.ctrl.active && n.ctrl.recording == {B, C} && n.ctrl.channels == map[B := [], C := []]
            && At(n.peers, B) == Peer([MarkerMessage(w)], {}, [], map[], []) && n.tunnel == []
  {
    assert {B, C} - {LOCALHOST} == {B, C} && [] + [MarkerMessage(w)] == [MarkerMessage(w)];
  }

  lemma HoldsRecord(w: SnapshotId)
    ensures var q := Acked(Recording(w), B);
            && Stays(q, B, QUERY)
            && Append(Keep(q, B, QUERY), B, QUERY) == Holding(w).(tunnel := [Outgoing(B, Frame.Ack(0))])
  {
    RecordingHas(w);
    var q := Acked(Recording(w), B);
    var p := At(q.peers, B);
    var r := Append(Keep(q, B, QUERY), B, QUERY);
    assert [] + [Rec(0, QUERY)] == [Rec(0, QUERY)] && [] + [QUERY] == [QUERY];
    assert r.ctrl.channels == map[B := [Rec(0, QUERY)], C := []];
    assert p.(got := [QUERY]) == Peer([MarkerMessage(w)], {}, [QUERY], map[], []);
    assert r.peers == Holding(w).peers;
  }

  lemma ClosesHalf(w: SnapshotId)
    ensures PlainChannels(Holding(w).ctrl.channels)
    ensures Receive(Holding(w), B, Data(1, MarkerMessage(w))) == HalfClosed(w).(tunnel := [Outgoing(B, Frame.Ack(1))])
  {
    var n := Holding(w);
    var p := Peer([MarkerMessage(w)], {}, [QUERY], map[], []);
    assert n.ctrl.recording == {B, C} && At(n.peers, B) == p;
    TakesIn(n, B, MarkerMessage(w));
    var q := Acked(n, B);
    TakeCases(q, B, MarkerMessage(w));
    assert C in n.ctrl.recording;
    var r := Append(q.(ctrl := Close(q.ctrl, B, 1)), B, MarkerMessage(w));
    assert [QUERY] + [MarkerMessage(w)] == [QUERY, MarkerMessage(w)];
    assert r.peers == HalfClosed(w).peers;
  }

  lemma Overtakes(w: SnapshotId)
    ensures PlainChannels(HalfClosed(w).ctrl.channels)
    ensures Receive(HalfClosed(w), B, Data(2, QUERY)) == Overtaken(w).(tunnel := [Outgoing(B, Frame.Ack(2))])
  {
    var n := HalfClosed(w);
    var p := Peer([MarkerMessage(w)], {}, [QUERY, MarkerMessage(w)], map[], []);
    assert B !in n.ctrl.recording && At(n.peers, B) == p;
    TakesIn(n, B, QUERY);
    var q := Acked(n, B);
    TakeCases(q, B, QUERY);
    var r := Append(Keep(q, B, QUERY), B, QUERY);
    assert [QUERY, MarkerMessage(w)] + [QUERY] == [QUERY, MarkerMessage(w), QUERY] && [] + [Rec(2, QUERY)] == [Rec(2, QUERY)];
    assert r.peers == Overtaken(w).peers;
    assert n.app == First().app && Touch([], Address(B, EPHEMERAL_PORT)) == [Address(B, EPHEMERAL_PORT)];
    assert r.app == Overtaken(w).app && r.spoof == Overtaken(w).spoof;
  }

  // ---------- The run ----------

  lemma AsksFirst()
    ensures var n := Second().(app := App.App(B, [], 10, [QUERY_DATAGRAM]));
            PlainChannels(n.ctrl.channels) && Intercept(n) == Asking().(tunnel := [Outgoing(A, Data(0, QUERY))])
  {
    Asks(Second().(app := App.App(B, [], 10, [QUERY_DATAGRAM])), FRESH);
    assert FRESH.(sent := FRESH.sent + [QUERY]) == Peer([QUERY], {}, [], map[], []);
  }

  lemma FirstPrompt(w: SnapshotId) returns (q: System)
    ensures LeadsTo(FreshTriple(), [] + [Local(B, LocalSend(QUERY_DATAGRAM))], q, w)
    ensures IsTriple(q, First(), Second().(app := App.App(B, [], 10, [QUERY_DATAGRAM])), Third())
  {
    var start := FreshTriple();
    TripleIsFresh();
    EmptyRun(start, w);
    var asked := Second().(app := App.App(B, [], 10, [QUERY_DATAGRAM]));
    q := LocalStep(start, [], start, B, LocalSend(QUERY_DATAGRAM), asked, w);
    SecondMoves(start, q, First(), Second(), Third(), asked, start.net);
  }

  /** B sends its first query, which stays on its way. */
  lemma FirstQuery(w: SnapshotId) returns (run: seq<Action>, s: System)
    ensures LeadsTo(FreshTriple(), run, s, w) && IsTriple(s, First(), Asking(), Third())
    ensures Packet(B, A, Data(0, QUERY)) in s.net
  {
    var start := FreshTriple();
    var asked := Second().(app := App.App(B, [], 10, [QUERY_DATAGRAM]));
    var q := FirstPrompt(w);
    AsksFirst();
    var r := Asking().(tunnel := [Outgoing(A, Data(0, QUERY))]);
    run := [] + [Local(B, LocalSend(QUERY_DATAGRAM))];
    s := LocalStep(start, run, q, B, Intercepted, r, w);
    SecondMoves(q, s, First(), asked, Third(), r, q.net);
    assert Outgoing(A, Data(0, QUERY)) in r.tunnel;
    run := run + [Local(B, Intercepted)];
  }

  /** A is asked for a snapshot, and is cut. */
  lemma ThenCut(w: SnapshotId) returns (run: seq<Action>, s: System)
    ensures LeadsTo(FreshTriple(), run, s, w) && IsTriple(s, Recording(w), Asking(), Third())
    ensures Packet(B, A, Data(0, QUERY)) in s.net
    ensures Packet(A, B, Data(0, MarkerMessage(w))) in s.net && Packet(A, C, Data(0, MarkerMessage(w))) in s.net
  {
    var before, q := FirstQuery(w);
    var asked := First().(app := App.App(A, [], 10, [Request(A, w)]));
    var q1 := LocalStep(FreshTriple(), before, q, A, LocalSend(Request(A, w)), asked, w);
    FirstMoves(q, q1, First(), Asking(), Third(), asked, q.net);
    ThreeOthers();
    StartsTwo(asked, B, C, Request(A, w), w);
    assert asked.(app := asked.app.(pending := [])) == First();
    var r := CutTwo(First(), B, C, LOCALHOST, 0, w);
    run := before + [Local(A, LocalSend(Request(A, w)))];
    s := LocalStep(FreshTriple(), run, q1, A, Intercepted, r, w);
    FirstMoves(q1, s, asked, Asking(), Third(), r, q1.net);
    assert Outgoing(B, Data(0, MarkerMessage(w))) in r.tunnel && Outgoing(C, Data(0, MarkerMessage(w))) in r.tunnel;
    run := run + [Local(A, Intercepted)];
  }

  /** The first query arrives, and is recorded. */
  lemma ThenHeld(w: SnapshotId) returns (run: seq<Action>, s: System)
    ensures LeadsTo(FreshTriple(), run, s, w) && IsTriple(s, Holding(w), Asking(), Third())
    ensures Packet(A, B, Data(0, MarkerMessage(w))) in s.net && Packet(A, C, Data(0, MarkerMessage(w))) in s.net
  {
    var before, q := ThenCut(w);
    var query := Packet(B, A, Data(0, QUERY));
    HoldsFirst(w);
    var r := Holding(w).(tunnel := [Outgoing(B, Frame.Ack(0))]);
    s := DeliverStep(FreshTriple(), before, q, query, r, w);
    FirstMoves(q, s, Recording(w), Asking(), Third(), r, q.net - multiset{query});
    Stay(q.net, query, s.net, Packet(A, B, Data(0, MarkerMessage(w))));
    Stay(q.net, query, s.net, Packet(A, C, Data(0, MarkerMessage(w))));
    run := before + [Deliver(query)];
  }

  /** Other datagrams stay on their way when one is delivered. */
  lemma Stay(before: multiset<Packet>, gone: Packet, after: multiset<Packet>, p: Packet)
    requires p in before && p != gone && before - multiset{gone} <= after
    ensures p in after
  {
    assert p in before - multiset{gone};
  }

  /** B once it is cut. */
  function SecondCut(w: SnapshotId): Node {
    Append(CutTwo(Acked(Asking(), A), A, C, A, 0, w), A, MarkerMessage(w)).(tunnel := [])
  }

  lemma SecondCuts(w: SnapshotId)
    ensures PlainChannels(Asking().ctrl.channels)
    ensures var r := Receive(Asking(), A, Data(0, MarkerMessage(w)));
            && r.(tunnel := []) == SecondCut(w) && Outgoing(A, Data(1, MarkerMessage(w))) in r.tunnel
    ensures SecondCut(w).cfg == Second().cfg && SecondCut(w).app == Second().app
    ensures PlainChannels(SecondCut(w).ctrl.channels)
    ensures At(SecondCut(w).peers, A) == Peer([QUERY, MarkerMessage(w)], {}, [MarkerMessage(w)], map[], [])
  {
    ThreeOthers();
    MarkerCutsTwo(Asking(), A, C, w);
    assert [QUERY] + [MarkerMessage(w)] == [QUERY, MarkerMessage(w)] && [] + [MarkerMessage(w)] == [MarkerMessage(w)];
  }

  /** B is cut by A's marker. */
  lemma ThenSecondCut(w: SnapshotId) returns (run: seq<Action>, s: System)
    ensures LeadsTo(FreshTriple(), run, s, w) && IsTriple(s, Holding(w), SecondCut(w), Third())
    ensures Packet(B, A, Data(1, MarkerMessage(w))) in s.net && Packet(A, C, Data(0, MarkerMessage(w))) in s.net
  {
    var before, q := ThenHeld(w);
    var marker := Packet(A, B, Data(0, MarkerMessage(w)));
    SecondCuts(w);
    var r := Receive(Asking(), A, Data(0, MarkerMessage(w)));
    s := DeliverStep(FreshTriple(), before, q, marker, r, w);
    SecondMoves(q, s, Holding(w), Asking(), Third(), r, q.net - multiset{marker});
    Stay(q.net, marker, s.net, Packet(A, C, Data(0, MarkerMessage(w))));
    run := before + [Deliver(marker)];
  }

  /** B once it has sent its second query, behind the marker. */
  function AskingAgain(w: SnapshotId): Node {
    SecondCut(w).(peers := SecondCut(w).peers[
      A := Peer([QUERY, MarkerMessage(w), QUERY], {}, [MarkerMessage(w)], map[], [])])
  }

  /** B about to be asked again. */
  function Prompted(w: SnapshotId): Node {
    SecondCut(w).(app := SecondCut(w).app.(pending := [QUERY_DATAGRAM]))
  }

  lemma SecondPrompt(w: SnapshotId) returns (run: seq<Action>, s: System)
    ensures LeadsTo(FreshTriple(), run, s, w) && IsTriple(s, Holding(w), Prompted(w), Third())
    ensures Packet(B, A, Data(1, MarkerMessage(w))) in s.net && Packet(A, C, Data(0, MarkerMessage(w))) in s.net
  {
    var before, q := ThenSecondCut(w);
    SecondCuts(w);
    assert SecondCut(w).app.pending + [QUERY_DATAGRAM] == [QUERY_DATAGRAM];
    s := LocalStep(FreshTriple(), before, q, B, LocalSend(QUERY_DATAGRAM), Prompted(w), w);
    SecondMoves(q, s, Holding(w), SecondCut(w), Third(), Prompted(w), q.net);
    run := before + [Local(B, LocalSend(QUERY_DATAGRAM))];
  }

  lemma SecondQuery(w: SnapshotId) returns (run: seq<Action>, s: System)
    ensures LeadsTo(FreshTriple(), run, s, w) && IsTriple(s, Holding(w), AskingAgain(w), Third())
    ensures Packet(B, A, Data(1, MarkerMessage(w))) in s.net && Packet(A, C, Data(0, MarkerMessage(w))) in s.net
    ensures Packet(B, A, Data(2, QUERY)) in s.net
  {
    var before, q := SecondPrompt(w);
    var r := AsksAgain(w, Prompted(w));
    assert !Prompted(w).app.pending[0].payload.Start?;
    s := LocalStep(FreshTriple(), before, q, B, Intercepted, r, w);
    SecondMoves(q, s, Holding(w), Prompted(w), Third(), r, q.net);
    assert Outgoing(A, Data(2, QUERY)) in r.tunnel;
    run := before + [Local(B, Intercepted)];
  }

  lemma AsksAgain(w: SnapshotId, asked: Node) returns (r: Node)
    requires asked == Prompted(w)
    ensures PlainChannels(asked.ctrl.channels) && r == Intercept(asked)
    ensures r == AskingAgain(w).(tunnel := [Outgoing(A, Data(2, QUERY))])
  {
    SecondCuts(w);
    var p := Peer([QUERY, MarkerMessage(w)], {}, [MarkerMessage(w)], map[], []);
    Asks(asked, p);
    assert [QUERY, MarkerMessage(w)] + [QUERY] == [QUERY, MarkerMessage(w), QUERY];
    assert SecondCut(w).app.(pending := []) == SecondCut(w).app;
    r := Intercept(asked);
  }

  /** B's marker closes its channel at A, and the second query is delivered at once. */
  lemma ThenOvertaken(w: SnapshotId) returns (run: seq<Action>, s: System)
    ensures LeadsTo(FreshTriple(), run, s, w) && IsTriple(s, Overtaken(w), AskingAgain(w), Third())
    ensures Packet(A, C, Data(0, MarkerMessage(w))) in s.net
  {
    var before, q := SecondQuery(w);
    var marker, query := Packet(B, A, Data(1, MarkerMessage(w))), Packet(B, A, Data(2, QUERY));
    ClosesHalf(w);
    var r := HalfClosed(w).(tunnel := [Outgoing(B, Frame.Ack(1))]);
    var q1 := DeliverStep(FreshTriple(), before, q, marker, r, w);
    FirstMoves(q, q1, Holding(w), AskingAgain(w), Third(), r, q.net - multiset{marker});
    Stay(q.net, marker, q1.net, query);
    Stay(q.net, marker, q1.net, Packet(A, C, Data(0, MarkerMessage(w))));
    run := before + [Deliver(marker)];
    Overtakes(w);
    var r1 := Overtaken(w).(tunnel := [Outgoing(B, Frame.Ack(2))]);
    s := DeliverStep(FreshTriple(), run, q1, query, r1, w);
    FirstMoves(q1, s, HalfClosed(w), AskingAgain(w), Third(), r1, q1.net - multiset{query});
    Stay(q1.net, query, s.net, Packet(A, C, Data(0, MarkerMessage(w))));
    run := run + [Deliver(query)];
  }

  lemma ThirdCuts(w: SnapshotId)
    ensures PlainChannels(Third().ctrl.channels)
    ensures Outgoing(A, Data(0, MarkerMessage(w))) in Receive(Third(), A, Data(0, MarkerMessage(w))).tunnel
  {
    ThreeOthers();
    MarkerCutsTwo(Third(), A, B, w);
  }

  /** C is cut as well, and its marker is on its way to A, the last that A waits for. */
  lemma ThenThirdCut(w: SnapshotId) returns (run: seq<Action>, s: System, c: Node)
    ensures LeadsTo(FreshTriple(), run, s, w) && IsTriple(s, Overtaken(w), AskingAgain(w), c)
    ensures Packet(C, A, Data(0, MarkerMessage(w))) in s.net
  {
    var before, q := ThenOvertaken(w);
    var marker := Packet(A, C, Data(0, MarkerMessage(w)));
    ThirdCuts(w);
    var r := Receive(Third(), A, Data(0, MarkerMessage(w)));
    s := DeliverStep(FreshTriple(), before, q, marker, r, w);
    ThirdMoves(q, s, Overtaken(w), AskingAgain(w), Third(), r, q.net - multiset{marker});
    c := r.(tunnel := []);
    run := before + [Deliver(marker)];
  }

  lemma MemberOfTriple(run: seq<Action>, s: System, a: Node, b: Node, c: Node, w: SnapshotId)
    requires LeadsTo(FreshTriple(), run, s, w) && IsTriple(s, a, b, c)
    ensures NodeInv(a) && PlainChannels(a.ctrl.channels)
  {
    TripleRuns(run, s, w);
    FirstOfTriple(s, a, b, c);
  }

  lemma FirstOfTriple(s: System, a: Node, b: Node, c: Node)
    requires Inv(s) && IsTriple(s, a, b, c)
    ensures NodeInv(a) && PlainChannels(a.ctrl.channels)
  {
    assert MemberInv(s, A);
  }

  /** The flush, at last, hands the first query over. */
  lemma FlushesLate(w: SnapshotId) returns (r: Node)
    requires NodeInv(Overtaken(w)) && PlainChannels(Overtaken(w).ctrl.channels)
    ensures r == Receive(Overtaken(w), C, Data(0, MarkerMessage(w)))
    ensures At(r.peers, B).got == [QUERY, MarkerMessage(w), QUERY] && !r.ctrl.active
    ensures At(r.peers, B).heard == [Rec(2, QUERY), Rec(0, QUERY)]
  {
    var n := Overtaken(w);
    OvertakenHas(w);
    TakesIn(n, C, MarkerMessage(w));
    r := ClosesLast(n, C, B, w);
    assert [Rec(2, QUERY)] + [Rec(0, QUERY)] == [Rec(2, QUERY), Rec(0, QUERY)];
  }

  lemma OvertakenHas(w: SnapshotId)
    ensures var n := Overtaken(w);
            && n.ctrl.active && n.ctrl.id == Some(w) && n.ctrl.recording == {C}
            && At(n.peers, C).got == [] && At(n.peers, C).buffer == map[] && ChannelOf(n.ctrl, B) == [Rec(0, QUERY)]
            && At(n.peers, B).got == [QUERY, MarkerMessage(w), QUERY] && At(n.peers, B).heard == [Rec(2, QUERY)]
  {
    assert {B, C} - {LOCALHOST} - {B} == {C};
  }

  /** The last marker makes a member hand over what it had recorded on each other channel. */
  lemma ClosesLast(n: Node, o: Ip, k: Ip, w: SnapshotId) returns (r: Node)
    requires NodeInv(n) && PlainChannels(n.ctrl.channels) && k != o
    requires n.ctrl.active && n.ctrl.id == Some(w) && n.ctrl.recording == {o}
    ensures r == Take(Acked(n, o), o, MarkerMessage(w)) && !r.ctrl.active
    ensures At(r.peers, k) == At(n.peers, k).(heard := At(n.peers, k).heard + ChannelOf(n.ctrl, k))
  {
    var q := Acked(n, o);
    assert At(q.peers, k) == At(n.peers, k) && At(q.peers, o) == At(n.peers, o);
    TakeCases(q, o, MarkerMessage(w));
    var closed := q.(ctrl := Close(q.ctrl, o, |At(n.peers, o).got|));
    InvShape(n);
    FinishHeard(closed, Complete);
    r := Append(Finish(closed, Complete), o, MarkerMessage(w));
  }

  lemma QueriesOrder(p: Peer, w: SnapshotId)
    requires p.got == [QUERY, MarkerMessage(w), QUERY] && p.heard == [Rec(2, QUERY), Rec(0, QUERY)]
    ensures !InOrder(p)
  {
    RecordedHas(p.got, 0, 3, p.heard[0]);
    RecordedAscends(p.got, 0, 3);
  }

  /**
   * From three members that have just started, a run of a wave at whose end a member's app has heard two messages of
   * another, both sent and both taken in, in the other order.
   */
  lemma OrderIsNotKept(w: SnapshotId) returns (run: seq<Action>, t: System)
    ensures Fresh(FreshTriple()) && WellFormed(FreshTriple())
    ensures LegalWave(FreshTriple(), run, w) && Legal(FreshTriple(), run) && t == Run(FreshTriple(), run)
    ensures A in t.nodes && !t.nodes[A].ctrl.active && !InOrder(Link(t, A, B))
    ensures Link(t, A, B).got == [QUERY, MarkerMessage(w), QUERY]
    ensures Link(t, A, B).heard == [Rec(2, QUERY), Rec(0, QUERY)]
  {
    var before, q, c := ThenThirdCut(w);
    MemberOfTriple(before, q, Overtaken(w), AskingAgain(w), c, w);
    var r := FlushesLate(w);
    var marker := Packet(C, A, Data(0, MarkerMessage(w)));
    t := DeliverStep(FreshTriple(), before, q, marker, r, w);
    FirstMoves(q, t, Overtaken(w), AskingAgain(w), c, r, q.net - multiset{marker});
    QueriesOrder(At(r.peers, B), w);
    run := before + [Deliver(marker)];
    TripleRuns(run, t, w);
  }

  lemma TripleRuns(run: seq<Action>, t: System, w: SnapshotId)
    requires LeadsTo(FreshTriple(), run, t, w)
    ensures Fresh(FreshTriple()) && WellFormed(FreshTriple())
    ensures LegalWave(FreshTriple(), run, w) && Legal(FreshTriple(), run) && t == Run(FreshTriple(), run) && Inv(t)
  {
    TripleIsFresh();
    Starts(FreshTriple(), w);
    LeadsRuns(FreshTriple(), run, t, w);
  }
}
