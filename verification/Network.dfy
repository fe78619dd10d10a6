/** The whole mesh over a network that may lose, repeat and reorder every datagram. */
module Network {
  import opened Mesh
  import opened Counter
  import opened Sidecar
  import opened Bookkeeping
  import opened Callbacks
  import opened Ledger

  datatype Packet = Packet(src: Ip, dst: Ip, frame: Frame<Payload>)

  /** All members, and the datagrams now in the network. */
  datatype System = System(mesh: seq<Ip>, nodes: map<Ip, Node>, net: multiset<Packet>)

  /** Something happens at one member, or to one datagram. */
  datatype Action =
    | Local(node: Ip, event: Event)
    | Outside(node: Ip, from: Ip, msg: Message)
    | Deliver(packet: Packet)
    | Lose(packet: Packet)
    | Repeat(packet: Packet)

  function Packets(src: Ip, outs: seq<Outgoing>): (ps: multiset<Packet>)
    ensures forall p :: p in ps <==> p.src == src && Outgoing(p.dst, p.frame) in outs
  {
    if outs == [] then multiset{}
    else
      assert outs == [outs[0]] + outs[1..];
      multiset{Packet(src, outs[0].dst, outs[0].frame)} + Packets(src, outs[1..])
  }

  /** Member `j` is now `n`, and what it put on the tunnel is in the network. */
  function Put(s: System, j: Ip, n: Node, net: multiset<Packet>): System {
    s.(nodes := s.nodes[j := n.(tunnel := [])], net := net + Packets(j, n.tunnel))
  }

  ghost predicate WellFormed(s: System) {
    && Distinct(s.mesh) && s.nodes.Keys == SetOf(s.mesh)
    && forall j :: j in s.nodes ==> PlainChannels(s.nodes[j].ctrl.channels)
  }

  /** Local processes send neither markers nor money; outsiders are not members and bring no money either. */
  ghost predicate Enabled(s: System, a: Action) {
    match a
    case Local(j, e) =>
      && j in s.nodes && !e.Arrive?
      && (e.LocalSend? ==> SoundDatagram(e.datagram) && DatagramValue(e.datagram) == 0)
    case Outside(j, from, m) => j in s.nodes && from !in s.mesh && Sound(m) && Value(m) == 0
    case Deliver(p) => p in s.net && p.dst in s.nodes
    case Lose(p) => p in s.net
    case Repeat(p) => p in s.net
  }

  function Apply(s: System, a: Action): (r: System)
    requires WellFormed(s) && Enabled(s, a)
    ensures WellFormed(r) && r.mesh == s.mesh
  {
    match a
    case Local(j, e) => Put(s, j, React(s.nodes[j], e), s.net)
    case Outside(j, from, m) => Put(s, j, React(s.nodes[j], Arrive(from, Frame.Plain(m))), s.net)
    case Deliver(p) => Put(s, p.dst, React(s.nodes[p.dst], Arrive(p.src, p.frame)), s.net - multiset{p})
    case Lose(p) => s.(net := s.net - multiset{p})
    case Repeat(p) => s.(net := s.net + multiset{p})
  }

  /** The actions can happen one after another, from `s`. */
  ghost predicate Legal(s: System, run: seq<Action>)
    requires WellFormed(s)
    decreases |run|
  {
    run == [] || (Enabled(s, run[0]) && Legal(Apply(s, run[0]), run[1..]))
  }

  function Run(s: System, run: seq<Action>): (r: System)
    requires WellFormed(s) && Legal(s, run)
    ensures WellFormed(r) && r.mesh == s.mesh
    decreases |run|
  {
    if run == [] then s else Run(Apply(s, run[0]), run[1..])
  }

  // ---------- The invariant ----------

  /** `a` is the sending side of a link, `b` its receiving side. */
  ghost predicate LinkInv(a: Peer, b: Peer) {
    && Fed(b, a.sent)
    && forall x :: x in a.acked ==> Received(b, x)
  }

  function Link(s: System, i: Ip, j: Ip): Peer
    requires i in s.nodes
  {
    At(s.nodes[i].peers, j)
  }

  ghost predicate PacketInv(s: System, p: Packet) {
    && p.src in s.nodes
    && match p.frame
       case Data(sn, m) => p.dst in s.nodes ==> sn < |Link(s, p.src, p.dst).sent| && Link(s, p.src, p.dst).sent[sn] == m
       case Ack(sn) => p.dst in s.nodes && Received(Link(s, p.src, p.dst), sn)
       case Plain(_) => p.dst !in s.nodes
  }

  ghost predicate MemberInv(s: System, j: Ip)
    requires j in s.nodes
  {
    var n := s.nodes[j];
    n.cfg.self == j && n.cfg.mesh == s.mesh && n.tunnel == [] && Steady(n) && SoundNode(n)
  }

  ghost predicate Inv(s: System) {
    && WellFormed(s)
    && (forall j :: j in s.nodes ==> MemberInv(s, j))
    && (forall i, j :: i in s.nodes && j in s.nodes ==> LinkInv(Link(s, i, j), Link(s, j, i)))
    && (forall p :: p in s.net ==> PacketInv(s, p))
  }

  /** How one member's link to `k` may change: the other side's view of it stays right. */
  ghost predicate Lawful(s: System, j: Ip, r: Node, k: Ip)
    requires j in s.nodes && k in s.nodes
  {
    var a, b, far := Link(s, j, k), At(r.peers, k), Link(s, k, j);
    && a.sent <= b.sent && (forall x: nat :: Received(a, x) ==> Received(b, x))
    && (forall x :: x in b.acked ==> x in a.acked || Received(far, x))
    && Fed(b, far.sent)
  }

  ghost predicate PacketNow(s: System, j: Ip, r: Node, p: Packet)
    requires j in s.nodes
  {
    PacketInv(s, p) ||
    (p.src == j && match p.frame
                   case Data(_, _) => Genuine(r, Outgoing(p.dst, p.frame))
                   case Ack(sn) => p.dst in s.nodes && Received(At(r.peers, p.dst), sn)
                   case Plain(_) => p.dst !in s.nodes)
  }

  lemma PutInv(s: System, j: Ip, r: Node, net: multiset<Packet>)
    requires Inv(s) && j in s.nodes && r.cfg == s.nodes[j].cfg && Steady(r) && SoundNode(r)
    requires forall k :: k in s.nodes ==> Lawful(s, j, r, k)
    requires forall p :: p in net + Packets(j, r.tunnel) ==> PacketNow(s, j, r, p)
    ensures Inv(Put(s, j, r, net))
  {
    var t := Put(s, j, r, net);
    assert MemberInv(s, j);
    PutFormed(s, j, r, net);
    forall i | i in t.nodes ensures MemberInv(t, i) {
      assert MemberInv(s, i);
      PutMember(s, j, r, net, i);
    }
    forall i, k | i in t.nodes && k in t.nodes ensures LinkInv(Link(t, i, k), Link(t, k, i)) {
      PutLink(s, j, r, net, i, k);
    }
    forall p | p in t.net ensures PacketInv(t, p) {
      PutPacket(s, j, r, net, p);
    }
  }

  lemma PutFormed(s: System, j: Ip, r: Node, net: multiset<Packet>)
    requires WellFormed(s) && j in s.nodes && Steady(r)
    ensures WellFormed(Put(s, j, r, net))
  {
    InvShape(r);
  }

  lemma PutMember(s: System, j: Ip, r: Node, net: multiset<Packet>, i: Ip)
    requires j in s.nodes && i in s.nodes && MemberInv(s, i)
    requires r.cfg == s.nodes[j].cfg && Steady(r) && SoundNode(r)
    ensures MemberInv(Put(s, j, r, net), i)
  {
    AsideSteady(r, r.(tunnel := []));
  }

  lemma PutPacket(s: System, j: Ip, r: Node, net: multiset<Packet>, p: Packet)
    requires j in s.nodes && r.cfg.mesh == s.mesh && s.nodes.Keys == SetOf(s.mesh) && PacketNow(s, j, r, p)
    requires p.dst in s.nodes ==> Lawful(s, j, r, p.dst)
    ensures PacketInv(Put(s, j, r, net), p)
  {
    var t := Put(s, j, r, net);
    assert p.dst in s.nodes ==> p.dst in t.nodes;
    if PacketInv(s, p) && p.dst in s.nodes && p.src == j {
      assert Link(s, j, p.dst).sent <= Link(t, j, p.dst).sent;
    }
  }

  lemma PutLink(s: System, j: Ip, r: Node, net: multiset<Packet>, i: Ip, k: Ip)
    requires Inv(s) && i in s.nodes && k in s.nodes && j in s.nodes
    requires Lawful(s, j, r, i) && Lawful(s, j, r, k)
    ensures LinkInv(Link(Put(s, j, r, net), i, k), Link(Put(s, j, r, net), k, i))
  {
    var t := Put(s, j, r, net);
    assert LinkInv(Link(s, i, k), Link(s, k, i));
    LinkMoves(Link(s, i, k), Link(s, k, i), Link(t, i, k), Link(t, k, i));
  }

  /** A link whose sides move on, each as the other allows, stays a link. */
  lemma LinkMoves(a: Peer, b: Peer, a': Peer, b': Peer)
    requires LinkInv(a, b) && a.sent <= a'.sent && Fed(b', a.sent)
    requires forall x: nat :: Received(b, x) ==> Received(b', x)
    requires forall x :: x in a'.acked ==> x in a.acked || Received(b, x)
    ensures LinkInv(a', b')
  {
  }

  // ---------- Every action keeps the invariant ----------

  lemma LinkOf(s: System, i: Ip, j: Ip)
    requires Inv(s) && i in s.nodes && j in s.nodes
    ensures LinkInv(Link(s, i, j), Link(s, j, i))
  {
  }

  lemma PutOld(s: System, j: Ip, r: Node, net: multiset<Packet>, p: Packet)
    requires Inv(s) && j in s.nodes && net <= s.net && p in net + Packets(j, r.tunnel)
    ensures PacketInv(s, p) || (p.src == j && Outgoing(p.dst, p.frame) in r.tunnel)
  {
    assert p in net ==> p in s.net;
  }

  lemma ProgressLawful(s: System, j: Ip, r: Node, k: Ip)
    requires Inv(s) && j in s.nodes && k in s.nodes && SendsOn(At(s.nodes[j].peers, k), At(r.peers, k))
    ensures Lawful(s, j, r, k)
  {
    LinkOf(s, k, j);
    LinkOf(s, j, k);
  }

  /** An event that only sends on. */
  lemma ProgressKeeps(s: System, j: Ip, r: Node)
    requires Inv(s) && j in s.nodes && Progress(s.nodes[j], r) && Steady(r) && SoundNode(r)
    ensures Inv(Put(s, j, r, s.net))
  {
    assert MemberInv(s, j);
    forall k | k in s.nodes ensures Lawful(s, j, r, k) {
      ProgressLawful(s, j, r, k);
    }
    forall p | p in s.net + Packets(j, r.tunnel) ensures PacketNow(s, j, r, p) {
      ProgressPacket(s, j, r, p);
    }
    PutInv(s, j, r, s.net);
  }

  lemma ProgressPacket(s: System, j: Ip, r: Node, p: Packet)
    requires Inv(s) && j in s.nodes && Progress(s.nodes[j], r) && p in s.net + Packets(j, r.tunnel)
    ensures PacketNow(s, j, r, p)
  {
    assert MemberInv(s, j);
    PutOld(s, j, r, s.net, p);
    if !PacketInv(s, p) {
      assert Genuine(r, Outgoing(p.dst, p.frame));
    }
  }

  lemma DataKeeps(s: System, p: Packet)
    requires Inv(s) && p in s.net && p.dst in s.nodes && p.frame.Data?
    ensures var r := React(s.nodes[p.dst], Arrive(p.src, p.frame));
            && Inv(Put(s, p.dst, r, s.net - multiset{p}))
            && p.src in s.nodes && Heeds(s.nodes[p.dst], r, p.src, p.frame.sn) && Steady(r)
            && Fed(At(r.peers, p.src), Link(s, p.src, p.dst).sent)
            && Balance(r) == Balance(s.nodes[p.dst])
  {
    var j, src, sn, m := p.dst, p.src, p.frame.sn, p.frame.msg;
    var n := s.nodes[j];
    var r := React(n, Arrive(src, p.frame));
    assert PacketInv(s, p) && MemberInv(s, j) && MemberInv(s, src);
    var log := Link(s, src, j).sent;
    LinkOf(s, src, j);
    if sn == |At(n.peers, src).got| {
      DataInOrder(n, src, m, log);
    } else {
      DataOutOfOrder(n, src, sn, m, log);
    }
    assert SoundLog(log);
    DataBalance(n, src, sn, m, log);
    HeedsKeeps(s, j, r, src, sn, s.net - multiset{p});
  }

  lemma HeedsKeeps(s: System, j: Ip, r: Node, src: Ip, sn: nat, net: multiset<Packet>)
    requires Inv(s) && j in s.nodes && src in s.nodes && net <= s.net
    requires Heeds(s.nodes[j], r, src, sn) && Fed(At(r.peers, src), Link(s, src, j).sent) && Steady(r) && SoundNode(r)
    ensures Inv(Put(s, j, r, net))
  {
    assert MemberInv(s, j);
    forall k | k in s.nodes ensures Lawful(s, j, r, k) {
      HeedsLawful(s, j, r, src, sn, k);
    }
    forall p | p in net + Packets(j, r.tunnel) ensures PacketNow(s, j, r, p) {
      HeedsPacket(s, j, r, src, sn, net, p);
    }
    PutInv(s, j, r, net);
  }

  lemma HeedsLawful(s: System, j: Ip, r: Node, src: Ip, sn: nat, k: Ip)
    requires Inv(s) && j in s.nodes && k in s.nodes && src in s.nodes
    requires Heeds(s.nodes[j], r, src, sn) && Fed(At(r.peers, src), Link(s, src, j).sent)
    ensures Lawful(s, j, r, k)
  {
    LinkOf(s, k, j);
    LinkOf(s, j, k);
    if k != src {
      ProgressLawful(s, j, r, k);
    }
  }

  lemma HeedsPacket(s: System, j: Ip, r: Node, src: Ip, sn: nat, net: multiset<Packet>, p: Packet)
    requires Inv(s) && j in s.nodes && src in s.nodes && net <= s.net
    requires Heeds(s.nodes[j], r, src, sn) && p in net + Packets(j, r.tunnel)
    ensures PacketNow(s, j, r, p)
  {
    assert MemberInv(s, j);
    PutOld(s, j, r, net, p);
    if !PacketInv(s, p) {
      assert Genuine(r, Outgoing(p.dst, p.frame)) || Outgoing(p.dst, p.frame) == Outgoing(src, Frame.Ack(sn));
      assert Received(At(r.peers, src), sn);
    }
  }

  lemma AckKeeps(s: System, p: Packet)
    requires Inv(s) && p in s.net && p.dst in s.nodes && p.frame.Ack?
    ensures var r := React(s.nodes[p.dst], Arrive(p.src, p.frame));
            Inv(Put(s, p.dst, r, s.net - multiset{p})) && Balance(r) == Balance(s.nodes[p.dst])
  {
    var j, src, sn := p.dst, p.src, p.frame.sn;
    var n := s.nodes[j];
    var r := React(n, Arrive(src, p.frame));
    assert PacketInv(s, p) && MemberInv(s, j);
    AckHeeds(n, src, sn);
    AsideBalance(n, r);
    forall k | k in s.nodes ensures Lawful(s, j, r, k) {
      AckLawful(s, j, r, src, sn, k);
    }
    forall q | q in s.net - multiset{p} + Packets(j, r.tunnel) ensures PacketNow(s, j, r, q) {
      PutOld(s, j, r, s.net - multiset{p}, q);
    }
    PutInv(s, j, r, s.net - multiset{p});
  }

  lemma AckLawful(s: System, j: Ip, r: Node, src: Ip, sn: nat, k: Ip)
    requires Inv(s) && j in s.nodes && k in s.nodes && src in s.nodes && Received(Link(s, src, j), sn)
    requires var p := At(s.nodes[j].peers, src);
             r.peers == s.nodes[j].peers[src := p.(acked := if sn < |p.sent| then p.acked + {sn} else p.acked)]
    ensures Lawful(s, j, r, k)
  {
    LinkOf(s, k, j);
    LinkOf(s, j, k);
  }

  /** Datagrams of local processes and outsiders, timeouts, retransmissions and host failures. */
  lemma LocalReacts(n: Node, e: Event)
    requires Steady(n) && SoundNode(n) && PlainChannels(n.ctrl.channels) && n.tunnel == []
    requires n.cfg.self in n.cfg.mesh && !e.Arrive?
    requires e.LocalSend? ==> SoundDatagram(e.datagram) && DatagramValue(e.datagram) == 0
    ensures var r := React(n, e); Steady(r) && SoundNode(r) && Progress(n, r) && Balance(r) == Balance(n)
  {
    match e
    case Intercepted =>
      if n.app.pending != [] {
        InterceptSteady(n);
        InterceptBalance(n);
      }
    case TimedOut =>
      TimeoutSteady(n);
      TimeoutBalance(n);
    case Resend(k, sn) =>
      AsideSteady(n, React(n, e));
      AsideBalance(n, React(n, e));
    case LocalSend(d) =>
      SumDatagramsAppend(n.app.pending, [d]);
      assert SumDatagrams([d]) == DatagramValue(d);
      AsideSteady(n, React(n, e));
    case HostChange(c, h) =>
      AsideSteady(n, React(n, e));
      AsideBalance(n, React(n, e));
    case Arrive(_, _) =>
  }

  lemma OutsideReacts(n: Node, from: Ip, m: Message)
    requires Steady(n) && SoundNode(n) && PlainChannels(n.ctrl.channels) && Sound(m) && Value(m) == 0
    ensures var r := React(n, Arrive(from, Frame.Plain(m)));
            Steady(r) && SoundNode(r) && Progress(n, r) && Balance(r) == Balance(n)
  {
    var n0 := GetPeer(n, from);
    AsideSteady(n, n0);
    AsideBalance(n, n0);
    ToAppWorth(n0, from, m);
    AsideSteady(n0, ToApp(n0, from, m));
  }

  ghost predicate SameBooks(s: System, r: System) {
    forall j :: j in s.nodes ==> j in r.nodes && Balance(r.nodes[j]) == Balance(s.nodes[j])
  }

  lemma PutBooks(s: System, j: Ip, r: Node, net: multiset<Packet>)
    requires j in s.nodes && Balance(r) == Balance(s.nodes[j])
    ensures SameBooks(s, Put(s, j, r, net))
  {
  }

  lemma LocalKeeps(s: System, j: Ip, e: Event)
    requires Inv(s) && Enabled(s, Local(j, e))
    ensures Inv(Apply(s, Local(j, e))) && SameBooks(s, Apply(s, Local(j, e)))
  {
    var r := React(s.nodes[j], e);
    assert MemberInv(s, j);
    LocalReacts(s.nodes[j], e);
    ProgressKeeps(s, j, r);
    PutBooks(s, j, r, s.net);
  }

  lemma OutsideKeeps(s: System, j: Ip, from: Ip, m: Message)
    requires Inv(s) && Enabled(s, Outside(j, from, m))
    ensures Inv(Apply(s, Outside(j, from, m))) && SameBooks(s, Apply(s, Outside(j, from, m)))
  {
    var r := React(s.nodes[j], Arrive(from, Frame.Plain(m)));
    assert MemberInv(s, j);
    OutsideReacts(s.nodes[j], from, m);
    ProgressKeeps(s, j, r);
    PutBooks(s, j, r, s.net);
  }

  lemma DeliverKeeps(s: System, p: Packet)
    requires Inv(s) && Enabled(s, Deliver(p))
    ensures Inv(Apply(s, Deliver(p))) && SameBooks(s, Apply(s, Deliver(p)))
  {
    assert PacketInv(s, p);
    if p.frame.Data? {
      DataKeeps(s, p);
    } else {
      AckKeeps(s, p);
    }
    PutBooks(s, p.dst, React(s.nodes[p.dst], Arrive(p.src, p.frame)), s.net - multiset{p});
  }

  lemma NetKeeps(s: System, net: multiset<Packet>)
    requires Inv(s) && forall p :: p in net ==> p in s.net
    ensures Inv(s.(net := net))
  {
    var t := s.(net := net);
    forall p | p in net ensures PacketInv(t, p) {
      assert PacketInv(s, p);
    }
    forall j | j in t.nodes ensures MemberInv(t, j) {
      assert MemberInv(s, j);
    }
    forall i, j | i in t.nodes && j in t.nodes ensures LinkInv(Link(t, i, j), Link(t, j, i)) {
      LinkOf(s, i, j);
    }
  }

  /** One action: the invariant is kept, and no member's books change. */
  lemma ApplyKeeps(s: System, a: Action)
    requires Inv(s) && Enabled(s, a)
    ensures Inv(Apply(s, a)) && SameBooks(s, Apply(s, a))
  {
    match a
    case Local(j, e) => LocalKeeps(s, j, e);
    case Outside(j, from, m) => OutsideKeeps(s, j, from, m);
    case Deliver(p) => DeliverKeeps(s, p);
    case Lose(p) => NetKeeps(s, s.net - multiset{p});
    case Repeat(p) => NetKeeps(s, s.net + multiset{p});
  }

  /** Every run from a state that satisfies the invariant ends in one, with every member's books unchanged. */
  lemma {:induction false} RunKeeps(s: System, run: seq<Action>)
    requires Inv(s) && Legal(s, run)
    ensures Inv(Run(s, run))
    ensures SameBooks(s, Run(s, run))
    decreases |run|
  {
    if run != [] {
      ApplyKeeps(s, run[0]);
      RunKeeps(Apply(s, run[0]), run[1..]);
    }
  }
}
