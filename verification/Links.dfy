/** The reliable link: whatever the network does, each direction of it is a queue without loss or repetition. */
module Links {
  import opened Mesh
  import opened Sidecar
  import opened Bookkeeping
  import opened Callbacks
  import opened Network

  /** The number of a data frame from `i` that this action brings to `j`. */
  ghost function BroughtBy(a: Action, i: Ip, j: Ip): set<nat> {
    if a.Deliver? && a.packet.src == i && a.packet.dst == j && a.packet.frame.Data? then {a.packet.frame.sn} else {}
  }

  /** The numbers brought to `j` in a run, in any order and any number of times. */
  ghost function Brought(run: seq<Action>, i: Ip, j: Ip): set<nat> {
    if run == [] then {} else BroughtBy(run[0], i, j) + Brought(run[1..], i, j)
  }

  lemma ReactsBring(n: Node, r: Node, i: Ip, x: nat)
    requires Progress(n, r)
    ensures Received(At(r.peers, i), x) <==> Received(At(n.peers, i), x)
  {
    assert SendsOn(At(n.peers, i), At(r.peers, i));
  }

  lemma DataBrings(s: System, p: Packet, i: Ip, x: nat)
    requires Inv(s) && Enabled(s, Deliver(p)) && p.frame.Data? && i in s.nodes
    ensures var r := React(s.nodes[p.dst], Arrive(p.src, p.frame));
            Received(At(r.peers, i), x) <==> Received(Link(s, p.dst, i), x) || (i == p.src && x == p.frame.sn)
  {
    DataKeeps(s, p);
    assert i != p.src ==> SendsOn(Link(s, p.dst, i), At(React(s.nodes[p.dst], Arrive(p.src, p.frame)).peers, i));
  }

  lemma AckBrings(s: System, p: Packet, i: Ip, x: nat)
    requires Inv(s) && Enabled(s, Deliver(p)) && p.frame.Ack?
    ensures var r := React(s.nodes[p.dst], Arrive(p.src, p.frame));
            Received(At(r.peers, i), x) <==> Received(Link(s, p.dst, i), x)
  {
    assert MemberInv(s, p.dst);
    AckHeeds(s.nodes[p.dst], p.src, p.frame.sn);
  }

  lemma PutLinks(s: System, k: Ip, r: Node, net: multiset<Packet>, i: Ip, j: Ip)
    requires k in s.nodes && j in s.nodes
    ensures Link(Put(s, k, r, net), j, i) == if j == k then At(r.peers, i) else Link(s, j, i)
  {
  }

  lemma LocalBrings(s: System, k: Ip, e: Event, i: Ip, j: Ip, x: nat)
    requires Inv(s) && Enabled(s, Local(k, e)) && j in s.nodes
    ensures Received(Link(Apply(s, Local(k, e)), j, i), x) <==> Received(Link(s, j, i), x)
  {
    assert MemberInv(s, k);
    LocalReacts(s.nodes[k], e);
    ReactsBring(s.nodes[k], React(s.nodes[k], e), i, x);
    PutLinks(s, k, React(s.nodes[k], e), s.net, i, j);
  }

  lemma OutsideBrings(s: System, k: Ip, from: Ip, m: Message, i: Ip, j: Ip, x: nat)
    requires Inv(s) && Enabled(s, Outside(k, from, m)) && j in s.nodes
    ensures Received(Link(Apply(s, Outside(k, from, m)), j, i), x) <==> Received(Link(s, j, i), x)
  {
    var r := React(s.nodes[k], Arrive(from, Frame.Plain(m)));
    assert MemberInv(s, k);
    OutsideReacts(s.nodes[k], from, m);
    ReactsBring(s.nodes[k], r, i, x);
    PutLinks(s, k, r, s.net, i, j);
  }

  lemma DeliverBrings(s: System, p: Packet, i: Ip, j: Ip, x: nat)
    requires Inv(s) && Enabled(s, Deliver(p)) && i in s.nodes && j in s.nodes
    ensures Received(Link(Apply(s, Deliver(p)), j, i), x) <==> Received(Link(s, j, i), x) || x in BroughtBy(Deliver(p), i, j)
  {
    FrameBrings(s, p, i, x);
    PutLinks(s, p.dst, React(s.nodes[p.dst], Arrive(p.src, p.frame)), s.net - multiset{p}, i, j);
  }

  lemma FrameBrings(s: System, p: Packet, i: Ip, x: nat)
    requires Inv(s) && Enabled(s, Deliver(p)) && i in s.nodes
    ensures var r := React(s.nodes[p.dst], Arrive(p.src, p.frame));
            Received(At(r.peers, i), x) <==> Received(Link(s, p.dst, i), x) || x in BroughtBy(Deliver(p), i, p.dst)
  {
    assert PacketInv(s, p);
    if p.frame.Data? {
      DataBrings(s, p, i, x);
    } else {
      AckBrings(s, p, i, x);
    }
  }

  lemma NoFrameBrings(s: System, a: Action, i: Ip, j: Ip, x: nat)
    requires Inv(s) && Enabled(s, a) && j in s.nodes && !a.Deliver?
    ensures Received(Link(Apply(s, a), j, i), x) <==> Received(Link(s, j, i), x)
  {
    match a
    case Local(k, e) => LocalBrings(s, k, e, i, j, x);
    case Outside(k, from, m) => OutsideBrings(s, k, from, m, i, j, x);
    case Lose(p) => NetActionBrings(s, a, p, i, j);
    case Repeat(p) => NetActionBrings(s, a, p, i, j);
  }

  /** One action brings at most one number to the receiving side of a link, and takes none away. */
  lemma ApplyBrings(s: System, a: Action, i: Ip, j: Ip, x: nat)
    requires Inv(s) && Enabled(s, a) && i in s.nodes && j in s.nodes
    ensures Received(Link(Apply(s, a), j, i), x) <==> Received(Link(s, j, i), x) || x in BroughtBy(a, i, j)
  {
    if a.Deliver? {
      DeliverBrings(s, a.packet, i, j, x);
    } else {
      NoFrameBrings(s, a, i, j, x);
    }
  }

  lemma NetActionBrings(s: System, a: Action, p: Packet, i: Ip, j: Ip)
    requires WellFormed(s) && Enabled(s, a) && (a == Lose(p) || a == Repeat(p)) && j in s.nodes
    ensures Link(Apply(s, a), j, i) == Link(s, j, i) && BroughtBy(a, i, j) == {}
  {
    NetBrings(s, if a.Lose? then s.net - multiset{p} else s.net + multiset{p}, i, j);
  }

  lemma NetBrings(s: System, net: multiset<Packet>, i: Ip, j: Ip)
    requires j in s.nodes
    ensures Link(s.(net := net), j, i) == Link(s, j, i)
  {
  }

  /** The received numbers are exactly those that were brought: nothing is forgotten and nothing is invented. */
  lemma {:induction false} ReceivedIsBrought(s: System, run: seq<Action>, i: Ip, j: Ip, x: nat)
    requires Inv(s) && Legal(s, run) && i in s.nodes && j in s.nodes
    ensures j in Run(s, run).nodes
    ensures Received(Link(Run(s, run), j, i), x) <==> Received(Link(s, j, i), x) || x in Brought(run, i, j)
    decreases |run|
  {
    if run != [] {
      ApplyKeeps(s, run[0]);
      ApplyBrings(s, run[0], i, j, x);
      ReceivedIsBrought(Apply(s, run[0]), run[1..], i, j, x);
    }
  }

  /**
   * In every reachable state the receiving side has taken in exactly the messages sent before its expected number, in
   * the order they were sent; the expected number is the least it never received; and it holds back exactly the
   * received messages beyond, unchanged.
   */
  lemma LinkIsQueue(s: System, i: Ip, j: Ip)
    requires Inv(s) && i in s.nodes && j in s.nodes
    ensures var a, b := Link(s, i, j), Link(s, j, i);
            && b.got == a.sent[..|b.got|]
            && !Received(b, |b.got|) && (forall x: nat :: x < |b.got| ==> Received(b, x))
            && (forall x :: x in b.buffer <==> x > |b.got| && Received(b, x))
            && (forall x :: x in b.buffer ==> x < |a.sent| && b.buffer[x] == a.sent[x])
  {
    LinkOf(s, i, j);
    assert MemberInv(s, j);
    SteadyLink(s.nodes[j], i);
  }

  lemma SteadyLink(n: Node, i: Ip)
    requires Steady(n)
    ensures Unbuffered(At(n.peers, i)) && LinkTables(At(n.peers, i))
  {
    assert PartInv(n, i);
  }

  /** Every message sent is still kept for retransmission, with its original contents, or has been received. */
  lemma NothingIsLost(s: System, i: Ip, j: Ip, x: nat)
    requires Inv(s) && i in s.nodes && j in s.nodes && x < |Link(s, i, j).sent|
    ensures var a, b := Link(s, i, j), Link(s, j, i);
            (x in a.Unacked() && a.Unacked()[x] == a.sent[x]) || Received(b, x)
  {
    LinkOf(s, i, j);
  }

  /** The frame the receiving side is waiting for. */
  function Expected(s: System, i: Ip, j: Ip): Packet
    requires i in s.nodes && j in s.nodes && |Link(s, j, i).got| < |Link(s, i, j).sent|
  {
    Packet(i, j, Data(|Link(s, j, i).got|, Link(s, i, j).sent[|Link(s, j, i).got|]))
  }

  /** Whenever a receiver is behind, its sender can put the frame it waits for into the network, and nothing else changes. */
  lemma ExpectedIsResent(s: System, i: Ip, j: Ip)
    requires Inv(s) && i in s.nodes && j in s.nodes && |Link(s, j, i).got| < |Link(s, i, j).sent|
    ensures var a := Local(i, Resend(j, |Link(s, j, i).got|));
            Enabled(s, a) && Apply(s, a) == s.(net := s.net + multiset{Expected(s, i, j)})
  {
    var e := |Link(s, j, i).got|;
    assert MemberInv(s, i) && MemberInv(s, j);
    assert PartInv(s.nodes[j], i) && Unbuffered(Link(s, j, i));
    NothingIsLost(s, i, j, e);
    ResendPacket(s.nodes[i], i, j, e);
    PutBack(s, i, React(s.nodes[i], Resend(j, e)), s.net);
  }

  lemma PutBack(s: System, i: Ip, r: Node, net: multiset<Packet>)
    requires i in s.nodes && r.(tunnel := []) == s.nodes[i]
    ensures Put(s, i, r, net) == s.(net := net + Packets(i, r.tunnel))
  {
    assert s.nodes[i := s.nodes[i]] == s.nodes;
  }

  lemma ResendPacket(n: Node, i: Ip, k: Ip, sn: nat)
    requires PlainChannels(n.ctrl.channels) && n.tunnel == [] && sn in At(n.peers, k).Unacked()
    ensures var r := React(n, Resend(k, sn));
            && r.(tunnel := []) == n
            && Packets(i, r.tunnel) == multiset{Packet(i, k, Data(sn, At(n.peers, k).Unacked()[sn]))}
  {
    var o := Outgoing(k, Data(sn, At(n.peers, k).Unacked()[sn]));
    assert React(n, Resend(k, sn)).tunnel == [o] && [o][1..] == [];
    assert Packets(i, [o]) == multiset{Packet(i, k, o.frame)} + Packets(i, [o][1..]);
  }

  /** The arrival of the expected frame moves the receiver on. */
  lemma ExpectedMovesOn(s: System, i: Ip, j: Ip)
    requires Inv(s) && i in s.nodes && j in s.nodes && |Link(s, j, i).got| < |Link(s, i, j).sent|
    requires Expected(s, i, j) in s.net
    ensures Enabled(s, Deliver(Expected(s, i, j)))
    ensures var t := Apply(s, Deliver(Expected(s, i, j)));
            j in t.nodes && |Link(s, j, i).got| < |Link(t, j, i).got| && Link(s, j, i).got <= Link(t, j, i).got
  {
    var p := Expected(s, i, j);
    var r := React(s.nodes[j], Arrive(i, p.frame));
    DataKeeps(s, p);
    HeedsExpected(s.nodes[j], r, i);
    PutLinks(s, j, r, s.net - multiset{p}, i, j);
  }

  lemma HeedsExpected(n: Node, r: Node, src: Ip)
    requires Heeds(n, r, src, |At(n.peers, src).got|) && Steady(r)
    ensures |At(n.peers, src).got| < |At(r.peers, src).got| && At(n.peers, src).got <= At(r.peers, src).got
  {
    assert Unbuffered(At(r.peers, src));
    assert Received(At(r.peers, src), |At(n.peers, src).got|);
  }

  /** Between waves, the app has been handed every message of the link that is not a marker, exactly once. */
  lemma DeliveredOnce(s: System, i: Ip, j: Ip)
    requires Inv(s) && i in s.nodes && j in s.nodes && !s.nodes[j].ctrl.active
    ensures var b := Link(s, j, i);
            && multiset(b.heard) == multiset(Recorded(b.got, 0, |b.got|))
            && b.got == Link(s, i, j).sent[..|b.got|]
  {
    assert MemberInv(s, j);
    assert PartInv(s.nodes[j], i);
    LinkIsQueue(s, i, j);
  }
}
