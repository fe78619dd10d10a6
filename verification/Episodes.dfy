/** Concrete runs, step by step: two or three members that have just started, and what leads where. */
module Episodes {
  import opened Wrappers
  import opened Mesh
  import opened Counter
  import opened Sidecar
  import opened Bookkeeping
  import opened Callbacks
  import opened Network
  import opened Wave
  import opened WaveRun
  import opened ConsistentCut
  import opened Completion
  import opened Beginning

  // 10.24.24.10 to .12 are members, 10.24.24.200 is a client.
  const A: Ip := 0x0A18180A
  const B: Ip := 0x0A18180B
  const C: Ip := 0x0A18180C
  const CLIENT: Ip := 0x0A1818C8

  const TWO: seq<Ip> := [A, B]

  /** A member that has just started. */
  function Newcomer(self: Ip, mesh: seq<Ip>, order: seq<Ip>, counter: int): Node {
    Node(Config(self, mesh, order), App.App(self, [], counter, []), map[], IDLE, Host(true, true, [], []), [], [], [])
  }

  // ---------- One step after another ----------

  /** The run goes on by one action. */
  lemma OneStep(start: System, run: seq<Action>, s: System, a: Action, w: SnapshotId) returns (t: System)
    requires LeadsTo(start, run, s, w) && WellFormed(s) && Enabled(s, a) && InWave(s, a, w)
    ensures t == Apply(s, a) && WellFormed(t) && LeadsTo(start, run + [a], t, w)
  {
    t := Apply(s, a);
    SingleLeads(s, a, w);
    LeadsCompose(start, run, s, [a], t, w);
  }

  /** Member `j` has become `r`, what it sent is in the network with `net`, and nothing else has changed. */
  ghost predicate Became(s: System, t: System, j: Ip, r: Node, net: multiset<Packet>) {
    && WellFormed(t) && t.mesh == s.mesh && t.nodes == s.nodes[j := r.(tunnel := [])] && net <= t.net
    && forall o :: o in r.tunnel ==> Packet(j, o.dst, o.frame) in t.net
  }

  lemma PutMoves(s: System, j: Ip, r: Node, net: multiset<Packet>)
    requires WellFormed(Put(s, j, r, net))
    ensures Became(s, Put(s, j, r, net), j, r, net)
  {
  }

  lemma LocalStep(start: System, run: seq<Action>, s: System, j: Ip, e: Event, r: Node, w: SnapshotId) returns (t: System)
    requires LeadsTo(start, run, s, w) && WellFormed(s) && Enabled(s, Local(j, e)) && InWave(s, Local(j, e), w)
    requires React(s.nodes[j], e) == r
    ensures LeadsTo(start, run + [Local(j, e)], t, w) && Became(s, t, j, r, s.net)
  {
    t := OneStep(start, run, s, Local(j, e), w);
    PutMoves(s, j, r, s.net);
  }

  lemma OutsideStep(start: System, run: seq<Action>, s: System, j: Ip, from: Ip, m: Message, r: Node, w: SnapshotId)
    returns (t: System)
    requires LeadsTo(start, run, s, w) && WellFormed(s) && Enabled(s, Outside(j, from, m))
    requires React(s.nodes[j], Arrive(from, Frame.Plain(m))) == r
    ensures LeadsTo(start, run + [Outside(j, from, m)], t, w) && Became(s, t, j, r, s.net)
  {
    t := OneStep(start, run, s, Outside(j, from, m), w);
    PutMoves(s, j, r, s.net);
  }

  lemma DeliverStep(start: System, run: seq<Action>, s: System, p: Packet, r: Node, w: SnapshotId) returns (t: System)
    requires LeadsTo(start, run, s, w) && WellFormed(s) && Enabled(s, Deliver(p))
    requires React(s.nodes[p.dst], Arrive(p.src, p.frame)) == r
    ensures LeadsTo(start, run + [Deliver(p)], t, w) && Became(s, t, p.dst, r, s.net - multiset{p})
  {
    t := OneStep(start, run, s, Deliver(p), w);
    PutMoves(s, p.dst, r, s.net - multiset{p});
  }

  lemma LoseStep(start: System, run: seq<Action>, s: System, p: Packet, w: SnapshotId) returns (t: System)
    requires LeadsTo(start, run, s, w) && WellFormed(s) && p in s.net
    ensures LeadsTo(start, run + [Lose(p)], t, w) && WellFormed(t) && t == s.(net := s.net - multiset{p})
  {
    t := OneStep(start, run, s, Lose(p), w);
  }

  // ---------- Where the runs start ----------

  /** A mesh of newcomers is fresh, and a wave may begin in it. */
  lemma Starts(s: System, w: SnapshotId)
    requires Fresh(s) && forall j :: j in s.nodes ==> s.nodes[j].host == Host(true, true, [], [])
    ensures WaveSys(s, w) && LeadsTo(s, [], s, w) && WellFormed(s)
  {
    FreshIsReady(s, w);
    ReadyBegins(s, w);
    assert Path([s], [], w);
  }

  /** The empty run of such a mesh. */
  lemma EmptyRun(s: System, w: SnapshotId)
    requires Fresh(s)
    ensures LeadsTo(s, [], s, w) && WellFormed(s)
  {
    assert Path([s], [], w);
  }

  // ---------- Cuts ----------

  /** `n` right after a cut, when nothing is pending and `o` is the only other member. */
  function CutOne(n: Node, o: Ip, remote: Ip, sn: nat, w: SnapshotId): Node {
    var p := At(n.peers, o);
    n.(ctrl := Controller(true, Some(w), {o} - {remote}, map[o := []], map[o := |p.sent| + 1],
                          if remote == o then map[o := sn + 1] else map[], n.peers),
       host := n.host.(images := n.host.images + [Image(w, n.app, n.exits, n.peers)]),
       peers := n.peers[o := p.(sent := p.sent + [MarkerMessage(w)])],
       tunnel := n.tunnel + [Outgoing(o, Data(|p.sent|, MarkerMessage(w)))])
  }

  /** With nothing pending, a cut is just the checkpoint. */
  lemma QuietCut(n: Node, os: seq<Ip>, remote: Ip, w: SnapshotId)
    requires Others(n.cfg.mesh, n.cfg.self) == os && n.app.pending == [] && n.host.checkpointUp
    ensures Cut(n, remote, w) ==
            n.(ctrl := Controller(true, Some(w), SetOf(os) - {remote}, map[], map[], map[], n.peers),
               host := n.host.(images := n.host.images + [Image(w, n.app, n.exits, n.peers)]))
  {
  }

  lemma BeginsOne(n: Node, o: Ip, remote: Ip, sn: nat, w: SnapshotId)
    requires Others(n.cfg.mesh, n.cfg.self) == [o] && n.app.pending == [] && n.host.checkpointUp
    ensures Begin(n, remote, sn, w) == CutOne(n, o, remote, sn, w)
  {
    var c := Cut(n, remote, w);
    QuietCut(n, [o], remote, w);
    assert SetOf([o]) == {o};
    BroadcastsOne(c, o, w);
    var quiet: map<Ip, seq<Rec>> := map k | k in {o} - {remote} :: [];
    assert (if remote == o then quiet[o := []] else quiet) == map[o := []];
  }

  lemma BroadcastsOne(c: Node, o: Ip, w: SnapshotId)
    ensures var p := At(c.peers, o);
            Broadcast(c, [o], w) ==
            c.(peers := c.peers[o := p.(sent := p.sent + [MarkerMessage(w)])],
               tunnel := c.tunnel + [Outgoing(o, Data(|p.sent|, MarkerMessage(w)))],
               ctrl := c.ctrl.(sendCut := c.ctrl.sendCut[o := |p.sent| + 1]))
  {
    var n1 := SendData(c, o, MarkerMessage(w));
    var n2 := n1.(ctrl := n1.ctrl.(sendCut := n1.ctrl.sendCut[o := |At(n1.peers, o).sent|]));
    assert [o][1..] == [];
    assert Broadcast(c, [o], w) == Broadcast(n2, [], w) == n2;
  }

  /** A request at an idle member with one other. */
  lemma StartsOne(n: Node, o: Ip, d: Datagram, w: SnapshotId)
    requires Others(n.cfg.mesh, n.cfg.self) == [o] && o != LOCALHOST && n.host.checkpointUp && !n.ctrl.active
    requires n.app.pending == [d] && d.payload == Start(w) && PlainChannels(n.ctrl.channels)
    ensures Intercept(n) == CutOne(n.(app := n.app.(pending := [])), o, LOCALHOST, 0, w)
  {
    var q := Pop(n);
    assert q == n.(app := n.app.(pending := []));
    BeginsOne(q, o, LOCALHOST, 0, w);
    assert {o} - {LOCALHOST} == {o};
    var m := Msg(Marker(w), 0, 0, LOCALHOST);
    assert Initiate(q, LOCALHOST, 0, w) == Begin(q, LOCALHOST, 0, w);
    assert ProcessMessage(q, LOCALHOST, 0, m) == Initiate(q, LOCALHOST, 0, w);
  }

  /** The first marker at an idle member whose only other member it comes from: cut, and done at once. */
  function CutAndDone(n: Node, o: Ip, w: SnapshotId): Node {
    var p := At(n.peers, o);
    var q := n.(peers := n.peers[o := p], tunnel := n.tunnel + [Outgoing(o, Frame.Ack(|p.got|))]);
    var b := CutOne(q, o, o, |p.got|, w);
    b.(ctrl := IDLE,
       host := b.host.(artifacts := n.host.artifacts + [BuildArtifact(b.ctrl, Complete)]),
       peers := b.peers[o := p.(sent := p.sent + [MarkerMessage(w)], got := p.got + [MarkerMessage(w)])])
  }

  lemma MarkerCutsOne(n: Node, o: Ip, w: SnapshotId)
    requires Others(n.cfg.mesh, n.cfg.self) == [o] && n.app.pending == [] && n.host.checkpointUp && n.host.storeUp
    requires n.ctrl == IDLE && At(n.peers, o).buffer == map[]
    ensures PlainChannels(n.ctrl.channels)
    ensures Receive(n, o, Data(|At(n.peers, o).got|, MarkerMessage(w))) == CutAndDone(n, o, w)
  {
    var p := At(n.peers, o);
    var sn := |p.got|;
    var q := n.(peers := n.peers[o := p], tunnel := n.tunnel + [Outgoing(o, Frame.Ack(sn))]);
    assert At(q.peers, o) == p;
    var b := CutOne(q, o, o, sn, w);
    BeginsOne(q, o, o, sn, w);
    TakeCases(q, o, MarkerMessage(w));
    forall k ensures ChannelOf(b.ctrl, k) == [] {
    }
    AllQuiet(b.ctrl);
    QuietFinish(b, Complete);
    assert b.ctrl.recording == {};
    assert Initiate(q, o, sn, w) == Finish(b, Complete);
    var r := Append(Finish(b, Complete), o, MarkerMessage(w));
    assert r.peers == CutAndDone(n, o, w).peers;
    assert Take(q, o, MarkerMessage(w)) == r;
    assert At(r.peers, o).buffer == map[];
    assert Unbuffer(r, o) == r;
  }

  /** The last marker of the wave at a member: it is done, and its checkpoint is the one it had. */
  lemma LastMarker(n: Node, o: Ip, w: SnapshotId)
    requires NodeInv(n) && PlainChannels(n.ctrl.channels) && n.host.storeUp && At(n.peers, o).buffer == map[]
    requires n.ctrl.active && n.ctrl.id == Some(w) && n.ctrl.recording == {o}
    ensures var r := Receive(n, o, Data(|At(n.peers, o).got|, MarkerMessage(w)));
            && r.cfg == n.cfg && r.host.images == n.host.images
            && r.host.artifacts == n.host.artifacts + [BuildArtifact(Close(n.ctrl, o, |At(n.peers, o).got|), Complete)]
  {
    var p := At(n.peers, o);
    var sn := |p.got|;
    var q := n.(peers := n.peers[o := p], tunnel := n.tunnel + [Outgoing(o, Frame.Ack(sn))]);
    TakeCases(q, o, MarkerMessage(w));
    TakeLinks(q, o, MarkerMessage(w));
    var r := Take(q, o, MarkerMessage(w));
    assert At(r.peers, o).buffer == map[];
    assert Unbuffer(r, o) == r;
    assert r == Append(Finish(q.(ctrl := Close(q.ctrl, o, sn)), Complete), o, MarkerMessage(w));
  }

  // ---------- Two members ----------

  function Pair(a: Node, b: Node): System {
    System(TWO, map[A := a, B := b], multiset{})
  }

  /** Two members that have just started. */
  function FreshPair(ca: int, cb: int): System {
    Pair(Newcomer(A, TWO, [B], ca), Newcomer(B, TWO, [A], cb))
  }

  lemma PairIsFresh(ca: int, cb: int)
    ensures Fresh(FreshPair(ca, cb)) && CounterTotal(FreshPair(ca, cb), TWO) == ca + cb
    ensures Others(TWO, A) == [B] && Others(TWO, B) == [A]
  {
    assert TWO[1..] == [B] && [B][1..] == [];
    assert Others([B], A) == [B] && Others([B], B) == [];
    assert SetOf(TWO) == {A, B} && SetOf([A]) == {A} && SetOf([B]) == {B};
    assert CounterTotal(FreshPair(ca, cb), [B]) == cb;
  }

  /** `s` is the two members `a` and `b`, with whatever is in the network. */
  ghost predicate IsPair(s: System, a: Node, b: Node) {
    s.mesh == TWO && s.nodes == map[A := a, B := b] && WellFormed(s)
  }

  lemma PairMoves(s: System, t: System, a: Node, b: Node, j: Ip, r: Node, net: multiset<Packet>)
    requires IsPair(s, a, b) && (j == A || j == B) && Became(s, t, j, r, net)
    ensures IsPair(t, if j == A then r.(tunnel := []) else a, if j == B then r.(tunnel := []) else b)
  {
  }

  function Request(j: Ip, w: SnapshotId): Datagram {
    Datagram(Address(j, EPHEMERAL_PORT), None, Start(w))
  }

  lemma PairStarts(w: SnapshotId)
    ensures WellFormed(FreshPair(10, 10))
  {
    PairIsFresh(10, 10);
    Starts(FreshPair(10, 10), w);
  }

  lemma PairRuns(run: seq<Action>, t: System, w: SnapshotId)
    requires LeadsTo(FreshPair(10, 10), run, t, w) && WellFormed(FreshPair(10, 10))
    ensures LegalWave(FreshPair(10, 10), run, w) && Legal(FreshPair(10, 10), run) && t == Run(FreshPair(10, 10), run)
    ensures WaveSys(t, w)
  {
    PairIsFresh(10, 10);
    Starts(FreshPair(10, 10), w);
    LeadsRuns(FreshPair(10, 10), run, t, w);
  }

  lemma MemberOfRun(run: seq<Action>, s: System, a: Node, b: Node, w: SnapshotId)
    requires LeadsTo(FreshPair(10, 10), run, s, w) && IsPair(s, a, b)
    ensures WaveSys(s, w) && NodeInv(a) && PlainChannels(a.ctrl.channels)
  {
    PairIsFresh(10, 10);
    Starts(FreshPair(10, 10), w);
    LeadsRuns(FreshPair(10, 10), run, s, w);
    assert MemberInv(s, A);
  }

  lemma PairDone(t: System, a: Node, b: Node)
    requires IsPair(t, a, b) && IsDone(a) && IsDone(b)
    ensures AllDone(t)
  {
  }
}
