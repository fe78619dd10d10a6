/** One snapshot wave over the whole mesh: whoever starts it, and however its markers travel. */
module WaveRun {
  import opened Wrappers
  import opened Mesh
  import opened Counter
  import opened Sidecar
  import opened Bookkeeping
  import opened Callbacks
  import opened Ledger
  import opened Network
  import opened Wave

  /**
   * The wave `w` is the only one, is requested at a member only before that member has finished it, never times out,
   * and the host accepts what it is sent.
   */
  ghost predicate InWave(s: System, a: Action, w: SnapshotId) {
    a.Local? && a.node in s.nodes ==>
      var n := s.nodes[a.node];
      match a.event
      case TimedOut => !n.ctrl.active
      case HostChange(c, h) => c && h
      case Intercepted => n.app.pending != [] && n.app.pending[0].payload.Start? ==>
                            n.app.pending[0].payload.id == w && (n.ctrl.active || !IsCut(n))
      case _ => true
  }

  ghost predicate MemberWave(n: Node, w: SnapshotId) {
    WaveInv(n, w) && Accounted(n)
  }

  /** Every member is somewhere in the wave `w`, and only its markers are on their way. */
  ghost predicate Waving(s: System, w: SnapshotId) {
    && Inv(s)
    && (forall j :: j in s.nodes ==> WaveInv(s.nodes[j], w))
    && (forall i, j :: i in s.nodes && j in s.nodes ==> OnlyWave(Link(s, i, j).sent, |Link(s, j, i).got|, w))
  }

  /** The same, and the accounts of every image are right. */
  ghost predicate WaveSys(s: System, w: SnapshotId) {
    Waving(s, w) && forall j :: j in s.nodes ==> Accounted(s.nodes[j])
  }

  lemma SelfUnmarked(n: Node, w: SnapshotId, k: Ip)
    requires NodeInv(n) && WaveInv(n, w) && k !in Peers(n.cfg)
    ensures SendCut(n, k) == None && RecvCut(n, k) == None
  {
  }

  // ---------- Events at one member ----------

  lemma QuietGoesOn(n: Node, r: Node, w: SnapshotId)
    requires MemberWave(n, w) && r.cfg == n.cfg && r.ctrl == n.ctrl && r.host == n.host && Balance(r) == Balance(n)
    requires forall k :: SendsNoMarker(At(n.peers, k), At(r.peers, k))
    ensures GoesOn(n, r, w)
  {
    QuietWave(n, r, w);
    forall k ensures SendsOnlyWave(At(n.peers, k), At(r.peers, k), w) {
      assert SendsNoMarker(At(n.peers, k), At(r.peers, k));
    }
  }

  lemma StartGoesOn(n: Node, w: SnapshotId)
    requires NodeInv(n) && MemberWave(n, w) && SoundNode(n) && PlainChannels(n.ctrl.channels) && (n.ctrl.active || !IsCut(n))
    ensures GoesOn(n, ProcessMessage(n, LOCALHOST, 0, Msg(Marker(w), 0, 0, LOCALHOST)), w)
  {
    StartCases(n, w);
    StartBalance(n, w);
    if !n.ctrl.active {
      StartWave(n, w);
      IdleBalance(n);
      InitiateSends(n, LOCALHOST, 0, w);
    }
  }

  lemma InterceptGoesOn(n: Node, w: SnapshotId)
    requires Steady(n) && MemberWave(n, w) && SoundNode(n) && PlainChannels(n.ctrl.channels) && n.app.pending != []
    requires n.app.pending[0].payload.Start? ==> n.app.pending[0].payload.id == w && (n.ctrl.active || !IsCut(n))
    ensures GoesOn(n, Intercept(n), w)
  {
    var d := n.app.pending[0];
    PopWorth(n);
    InterceptBalance(n);
    if d.payload.Start? {
      assert DatagramValue(d) == 0;
      AsideSteady(n, Pop(n));
      QuietWave(n, Pop(n), w);
      assert Accounted(Pop(n));
      StartGoesOn(Pop(n), w);
      StartedGoesOn(n, Pop(n), Intercept(n), w);
    } else {
      ForwardQuiet(Pop(n), d);
      ForwardedGoesOn(n, Pop(n), Forward(Pop(n), d), w);
    }
  }

  lemma StartedGoesOn(n: Node, q: Node, r: Node, w: SnapshotId)
    requires q.peers == n.peers && GoesOn(q, r, w)
    ensures GoesOn(n, r, w)
  {
    forall k ensures SendsOnlyWave(At(n.peers, k), At(r.peers, k), w) {
      assert SendsOnlyWave(At(q.peers, k), At(r.peers, k), w);
    }
  }

  lemma ForwardedGoesOn(n: Node, q: Node, r: Node, w: SnapshotId)
    requires MemberWave(n, w) && Balance(r) == Balance(n) && q.peers == n.peers
    requires r.cfg == n.cfg && r.ctrl == n.ctrl && r.host == n.host
    requires forall k :: SendsNoMarker(At(q.peers, k), At(r.peers, k))
    ensures GoesOn(n, r, w)
  {
    forall k ensures SendsNoMarker(At(n.peers, k), At(r.peers, k)) {
      assert SendsNoMarker(At(q.peers, k), At(r.peers, k));
    }
    QuietGoesOn(n, r, w);
  }

  lemma LocalGoesOn(n: Node, e: Event, w: SnapshotId)
    requires Steady(n) && MemberWave(n, w) && SoundNode(n) && PlainChannels(n.ctrl.channels) && n.tunnel == []
    requires !e.Arrive? && n.cfg.self in n.cfg.mesh
    requires e.LocalSend? ==> SoundDatagram(e.datagram) && DatagramValue(e.datagram) == 0
    requires e.TimedOut? ==> !n.ctrl.active
    requires e.HostChange? ==> e.checkpointUp && e.storeUp
    requires e.Intercepted? && n.app.pending != [] && n.app.pending[0].payload.Start? ==>
               n.app.pending[0].payload.id == w && (n.ctrl.active || !IsCut(n))
    ensures GoesOn(n, React(n, e), w)
  {
    LocalReacts(n, e);
    if e.Intercepted? && n.app.pending != [] {
      InterceptGoesOn(n, w);
    } else if e.HostChange? {
      assert n.host.(checkpointUp := true, storeUp := true) == n.host;
      QuietGoesOn(n, React(n, e), w);
    } else {
      QuietGoesOn(n, React(n, e), w);
    }
  }

  lemma InOrderGoesOn(n: Node, src: Ip, m: Message, log: seq<Message>, o: Option<nat>, w: SnapshotId)
    requires Steady(n) && MemberWave(n, w) && SoundNode(n) && PlainChannels(n.ctrl.channels) && src in n.cfg.mesh
    requires Fed(At(n.peers, src), log) && WaveLog(n, src, log, o, w) && OnlyWave(log, |At(n.peers, src).got|, w)
    requires |At(n.peers, src).got| < |log| && log[|At(n.peers, src).got|] == m
    ensures GoesOn(n, Unbuffer(Take(n, src, m), src), w)
  {
    FirstTaken(n, src, m, log, o, w);
    UnbufferWave(Take(n, src, m), src, log, o, w);
    GoesOnTransitive(n, Take(n, src, m), Unbuffer(Take(n, src, m), src), w);
  }

  /** After the expected message was taken in, what waited for it may follow. */
  lemma FirstTaken(n: Node, src: Ip, m: Message, log: seq<Message>, o: Option<nat>, w: SnapshotId)
    requires Steady(n) && MemberWave(n, w) && SoundNode(n) && PlainChannels(n.ctrl.channels) && src in n.cfg.mesh
    requires Fed(At(n.peers, src), log) && WaveLog(n, src, log, o, w) && OnlyWave(log, |At(n.peers, src).got|, w)
    requires |At(n.peers, src).got| < |log| && log[|At(n.peers, src).got|] == m
    ensures var r := Take(n, src, m);
            && r.cfg == n.cfg && Timely(n, src, m, w) && GoesOn(n, r, w)
            && NodeInv(r) && SoundNode(r) && UnbufferedElsewhere(r, src) && PlainChannels(r.ctrl.channels)
            && Fed(At(r.peers, src), log) && OnlyWave(log, |At(r.peers, src).got|, w)
  {
    assert m in log;
    NextIsTimely(n, src, log, o, w);
    TakeInv(n, src, m);
    TakeBalance(n, src, m);
    TakeWave(n, src, m, w);
    TakeLinks(n, src, m);
    TakeElsewhere(n, src, m);
  }

  lemma AcknowledgeGoesOn(n: Node, q: Node, r: Node, w: SnapshotId)
    requires (forall k :: At(q.peers, k) == At(n.peers, k)) && GoesOn(q, r, w)
    ensures GoesOn(n, r, w)
  {
    forall k ensures SendsOnlyWave(At(n.peers, k), At(r.peers, k), w) {
      assert SendsOnlyWave(At(q.peers, k), At(r.peers, k), w);
    }
  }

  lemma AcknowledgedWave(n: Node, src: Ip, sn: nat, w: SnapshotId)
    requires Steady(n) && MemberWave(n, w) && SoundNode(n)
    ensures var r := Acknowledge(n, src, sn);
            && Steady(r) && MemberWave(r, w) && SoundNode(r) && r.ctrl == n.ctrl && r.cfg == n.cfg
            && forall k :: At(r.peers, k) == At(n.peers, k)
  {
    var r := Acknowledge(n, src, sn);
    AcknowledgeInv(n, src, sn);
    AsideBalance(n, r);
    QuietWave(n, r, w);
  }

  lemma DataGoesOn(n: Node, src: Ip, sn: nat, m: Message, log: seq<Message>, o: Option<nat>, w: SnapshotId)
    requires Steady(n) && MemberWave(n, w) && SoundNode(n) && PlainChannels(n.ctrl.channels) && src in n.cfg.mesh
    requires Fed(At(n.peers, src), log) && WaveLog(n, src, log, o, w) && OnlyWave(log, |At(n.peers, src).got|, w)
    requires sn < |log| && log[sn] == m
    ensures GoesOn(n, Receive(n, src, Data(sn, m)), w)
  {
    if sn == |At(n.peers, src).got| {
      var n1 := Acknowledge(n, src, sn);
      AcknowledgedWave(n, src, sn, w);
      InOrderGoesOn(n1, src, m, log, o, w);
      AcknowledgeGoesOn(n, n1, Receive(n, src, Data(sn, m)), w);
    } else {
      DataWaits(n, src, sn, m);
      DataBalance(n, src, sn, m, log);
      QuietGoesOn(n, Receive(n, src, Data(sn, m)), w);
    }
  }

  lemma AckGoesOn(n: Node, src: Ip, sn: nat, w: SnapshotId)
    requires Steady(n) && MemberWave(n, w) && SoundNode(n) && PlainChannels(n.ctrl.channels)
    ensures GoesOn(n, Receive(n, src, Frame.Ack(sn)), w)
    ensures forall k :: At(n.peers, k).got <= At(Receive(n, src, Frame.Ack(sn)).peers, k).got
  {
    var r := Receive(n, src, Frame.Ack(sn));
    AckHeeds(n, src, sn);
    AsideBalance(n, r);
    AckFrame(n, src, sn);
    QuietGoesOn(n, r, w);
  }

  lemma AckFrame(n: Node, src: Ip, sn: nat)
    requires PlainChannels(n.ctrl.channels)
    ensures var r := Receive(n, src, Frame.Ack(sn));
            r.ctrl == n.ctrl && r.host == n.host && r.app == n.app && r.exits == n.exits
  {
  }

  lemma PlainGoesOn(n: Node, from: Ip, m: Message, w: SnapshotId)
    requires Steady(n) && MemberWave(n, w) && SoundNode(n) && PlainChannels(n.ctrl.channels) && Sound(m) && Value(m) == 0
    ensures GoesOn(n, Receive(n, from, Frame.Plain(m)), w)
  {
    OutsideReacts(n, from, m);
    QuietGoesOn(n, Receive(n, from, Frame.Plain(m)), w);
  }

  // ---------- The whole mesh ----------

  lemma PutWave(s: System, j: Ip, r: Node, net: multiset<Packet>, w: SnapshotId)
    requires WaveSys(s, w) && j in s.nodes && GoesOn(s.nodes[j], r, w) && Inv(Put(s, j, r, net))
    requires forall k :: k in s.nodes ==> Link(s, j, k).got <= At(r.peers, k).got
    ensures WaveSys(Put(s, j, r, net), w)
  {
    var t := Put(s, j, r, net);
    PutMemberWave(r, w);
    forall i | i in t.nodes ensures MemberWave(t.nodes[i], w) {
      assert MemberWave(s.nodes[i], w);
    }
    forall i, k | i in t.nodes && k in t.nodes ensures OnlyWave(Link(t, i, k).sent, |Link(t, k, i).got|, w) {
      PutOnlyWave(s, j, r, net, w, i, k);
    }
  }

  lemma PutMemberWave(r: Node, w: SnapshotId)
    requires WaveInv(r, w) && Accounted(r)
    ensures MemberWave(r.(tunnel := []), w)
  {
    QuietWave(r, r.(tunnel := []), w);
  }

  lemma PutOnlyWave(s: System, j: Ip, r: Node, net: multiset<Packet>, w: SnapshotId, i: Ip, k: Ip)
    requires j in s.nodes && i in s.nodes && k in s.nodes && GoesOn(s.nodes[j], r, w)
    requires OnlyWave(Link(s, i, k).sent, |Link(s, k, i).got|, w)
    requires Link(s, j, i).got <= At(r.peers, i).got
    ensures OnlyWave(Link(Put(s, j, r, net), i, k).sent, |Link(Put(s, j, r, net), k, i).got|, w)
  {
    var t := Put(s, j, r, net);
    assert SendsOnlyWave(At(s.nodes[j].peers, k), At(r.peers, k), w);
    assert i == j ==> Link(s, i, k).sent <= Link(t, i, k).sent && OnlyWave(Link(t, i, k).sent, |Link(s, i, k).sent|, w);
    assert |Link(s, k, i).got| <= |Link(t, k, i).got|;
  }

  lemma LocalInWave(s: System, j: Ip, e: Event, w: SnapshotId)
    requires WaveSys(s, w) && Enabled(s, Local(j, e)) && InWave(s, Local(j, e), w)
    ensures WaveSys(Apply(s, Local(j, e)), w)
  {
    var n, r := s.nodes[j], React(s.nodes[j], e);
    assert MemberInv(s, j) && MemberWave(n, w);
    LocalKeeps(s, j, e);
    LocalReacts(n, e);
    LocalGoesOn(n, e, w);
    forall k ensures At(n.peers, k).got <= At(r.peers, k).got {
      assert SendsOn(At(n.peers, k), At(r.peers, k));
    }
    PutWave(s, j, r, s.net, w);
  }

  lemma OutsideInWave(s: System, j: Ip, from: Ip, m: Message, w: SnapshotId)
    requires WaveSys(s, w) && Enabled(s, Outside(j, from, m))
    ensures WaveSys(Apply(s, Outside(j, from, m)), w)
  {
    var n, r := s.nodes[j], React(s.nodes[j], Arrive(from, Frame.Plain(m)));
    assert MemberInv(s, j) && MemberWave(n, w);
    OutsideKeeps(s, j, from, m);
    OutsideReacts(n, from, m);
    PlainGoesOn(n, from, m, w);
    forall k ensures At(n.peers, k).got <= At(r.peers, k).got {
      assert SendsOn(At(n.peers, k), At(r.peers, k));
    }
    PutWave(s, j, r, s.net, w);
  }

  lemma LogOf(s: System, i: Ip, j: Ip, w: SnapshotId)
    requires WaveSys(s, w) && i in s.nodes && j in s.nodes
    ensures WaveLog(s.nodes[j], i, Link(s, i, j).sent, SendCut(s.nodes[i], j), w)
  {
    assert MemberInv(s, i) && MemberInv(s, j) && MemberWave(s.nodes[i], w);
    assert WavePart(s.nodes[i], w, j);
    if i !in Peers(s.nodes[j].cfg) {
      assert i in SetOf(s.mesh) && i == j;
      SelfUnmarked(s.nodes[i], w, j);
    }
  }

  lemma DataInWave(s: System, p: Packet, w: SnapshotId)
    requires WaveSys(s, w) && Enabled(s, Deliver(p)) && p.frame.Data?
    ensures WaveSys(Apply(s, Deliver(p)), w)
  {
    var j, src := p.dst, p.src;
    var n, r := s.nodes[j], React(s.nodes[j], Arrive(src, p.frame));
    assert PacketInv(s, p) && MemberInv(s, j) && MemberWave(n, w);
    DataKeeps(s, p);
    LinkOf(s, src, j);
    LogOf(s, src, j, w);
    assert src in SetOf(s.mesh);
    assert OnlyWave(Link(s, src, j).sent, |Link(s, j, src).got|, w);
    DataGoesOn(n, src, p.frame.sn, p.frame.msg, Link(s, src, j).sent, SendCut(s.nodes[src], j), w);
    forall k | k in s.nodes ensures Link(s, j, k).got <= At(r.peers, k).got {
      HeedsGot(n, r, src, p.frame.sn, k);
    }
    PutWave(s, j, r, s.net - multiset{p}, w);
  }

  lemma AckInWave(s: System, p: Packet, w: SnapshotId)
    requires WaveSys(s, w) && Enabled(s, Deliver(p)) && p.frame.Ack?
    ensures WaveSys(Apply(s, Deliver(p)), w)
  {
    var j, src := p.dst, p.src;
    var n, r := s.nodes[j], React(s.nodes[j], Arrive(src, p.frame));
    assert PacketInv(s, p) && MemberInv(s, j) && MemberWave(n, w);
    AckKeeps(s, p);
    AckGoesOn(n, src, p.frame.sn, w);
    PutWave(s, j, r, s.net - multiset{p}, w);
  }

  lemma DeliverInWave(s: System, p: Packet, w: SnapshotId)
    requires WaveSys(s, w) && Enabled(s, Deliver(p))
    ensures WaveSys(Apply(s, Deliver(p)), w)
  {
    assert PacketInv(s, p);
    if p.frame.Data? {
      DataInWave(s, p, w);
    } else {
      AckInWave(s, p, w);
    }
  }

  lemma HeedsGot(n: Node, r: Node, src: Ip, sn: nat, k: Ip)
    requires Heeds(n, r, src, sn)
    ensures At(n.peers, k).got <= At(r.peers, k).got
  {
    assert k != src ==> SendsOn(At(n.peers, k), At(r.peers, k));
  }

  lemma NetInWave(s: System, net: multiset<Packet>, w: SnapshotId)
    requires WaveSys(s, w) && Inv(s.(net := net))
    ensures WaveSys(s.(net := net), w)
  {
    forall i, j | i in s.nodes && j in s.nodes
      ensures OnlyWave(Link(s.(net := net), i, j).sent, |Link(s.(net := net), j, i).got|, w)
    {
      assert OnlyWave(Link(s, i, j).sent, |Link(s, j, i).got|, w);
    }
  }

  lemma ApplyInWave(s: System, a: Action, w: SnapshotId)
    requires WaveSys(s, w) && Enabled(s, a) && InWave(s, a, w)
    ensures WaveSys(Apply(s, a), w)
  {
    ApplyKeeps(s, a);
    match a
    case Local(j, e) => LocalInWave(s, j, e, w);
    case Outside(j, from, m) => OutsideInWave(s, j, from, m, w);
    case Deliver(p) => DeliverInWave(s, p, w);
    case Lose(p) => NetInWave(s, s.net - multiset{p}, w);
    case Repeat(p) => NetInWave(s, s.net + multiset{p}, w);
  }

  /** Every action of the run keeps to the wave `w`. */
  ghost predicate LegalWave(s: System, run: seq<Action>, w: SnapshotId)
    requires WellFormed(s)
    decreases |run|
  {
    run == [] || (Enabled(s, run[0]) && InWave(s, run[0], w) && LegalWave(Apply(s, run[0]), run[1..], w))
  }

  lemma {:induction false} LegalWaveIsLegal(s: System, run: seq<Action>, w: SnapshotId)
    requires WellFormed(s) && LegalWave(s, run, w)
    ensures Legal(s, run)
    decreases |run|
  {
    if run != [] {
      LegalWaveIsLegal(Apply(s, run[0]), run[1..], w);
    }
  }

  lemma {:induction false} RunInWave(s: System, run: seq<Action>, w: SnapshotId)
    requires WaveSys(s, w) && LegalWave(s, run, w)
    ensures Legal(s, run) && WaveSys(Run(s, run), w)
    decreases |run|
  {
    LegalWaveIsLegal(s, run, w);
    if run != [] {
      ApplyInWave(s, run[0], w);
      RunInWave(Apply(s, run[0]), run[1..], w);
    }
  }
}
