/** Whole callbacks: what each does to the links, and that each keeps the invariant. */
module Callbacks {
  import opened Wrappers
  import opened Mesh
  import opened Counter
  import opened Sidecar
  import opened Bookkeeping

  /** The number has reached this side of the link: taken in, or waiting for its turn. */
  predicate Received(p: Peer, s: nat) {
    s < |p.got| || s in p.buffer
  }

  /** What this side took in or holds back is what the log of the other side says. */
  ghost predicate Fed(p: Peer, log: seq<Message>) {
    p.got <= log && forall s :: s in p.buffer ==> s < |log| && p.buffer[s] == log[s]
  }

  /** The next message, with everything that was waiting behind it, moved from the buffer to the history. */
  ghost predicate Intake(a: Peer, b: Peer) {
    && a.sent <= b.sent && b.acked == a.acked && a.got <= b.got
    && (forall s: nat :: Received(a, s) <==> Received(b, s))
  }

  /** Taking in a message moves this link by exactly that message and leaves the intake of the others alone. */
  lemma TakeLinks(n: Node, i: Ip, m: Message)
    requires PlainChannels(n.ctrl.channels)
    ensures var p, q := At(n.peers, i), At(Take(n, i, m).peers, i);
            p.sent <= q.sent && q.acked == p.acked && q.got == p.got + [m] && q.buffer == p.buffer
    ensures forall k :: k != i ==> SendsOn(At(n.peers, k), At(Take(n, i, m).peers, k))
    ensures forall o :: o in Take(n, i, m).tunnel ==> o in n.tunnel || Genuine(Take(n, i, m), o)
  {
    var q := ProcessAndDeliver(n, i, |At(n.peers, i).got|, m);
    assert SendsOn(At(n.peers, i), At(q.peers, i));
    forall k | k != i ensures SendsOn(At(n.peers, k), At(Take(n, i, m).peers, k)) {
      assert SendsOn(At(n.peers, k), At(q.peers, k));
    }
    forall o | o in q.tunnel ensures o in n.tunnel || Genuine(Take(n, i, m), o) {
      assert o in n.tunnel || Genuine(q, o);
    }
  }

  ghost predicate UnbufferedElsewhere(n: Node, i: Ip) {
    forall k :: k != i ==> Unbuffered(At(n.peers, k))
  }

  lemma TakeElsewhere(n: Node, i: Ip, m: Message)
    requires UnbufferedElsewhere(n, i) && PlainChannels(n.ctrl.channels)
    ensures UnbufferedElsewhere(Take(n, i, m), i)
  {
    TakeLinks(n, i, m);
    forall k | k != i ensures Unbuffered(At(Take(n, i, m).peers, k)) {
      assert Unbuffered(At(n.peers, k)) && SendsOn(At(n.peers, k), At(Take(n, i, m).peers, k));
    }
  }

  function PopBuffer(n: Node, i: Ip): Node {
    var p := At(n.peers, i);
    n.(peers := n.peers[i := p.(buffer := p.buffer - {|p.got|})])
  }

  lemma PopBufferInv(n: Node, i: Ip)
    requires NodeInv(n)
    ensures NodeInv(PopBuffer(n, i)) && Unbuffered(At(PopBuffer(n, i).peers, i))
  {
    var r := PopBuffer(n, i);
    forall k ensures PartInv(r, k) {
      assert PartInv(n, k);
      if k != i {
        PartSame(n, r, k);
      }
    }
  }

  lemma PopElsewhere(n: Node, i: Ip)
    requires UnbufferedElsewhere(n, i)
    ensures UnbufferedElsewhere(PopBuffer(n, i), i)
  {
    forall k | k != i ensures Unbuffered(At(PopBuffer(n, i).peers, k)) {
      assert Unbuffered(At(n.peers, k));
    }
  }

  lemma {:induction false} UnbufferInv(n: Node, i: Ip)
    requires NodeInv(n) && PlainChannels(n.ctrl.channels) && UnbufferedElsewhere(n, i)
    ensures NodeInv(Unbuffer(n, i)) && UnbufferedElsewhere(Unbuffer(n, i), i) && Unbuffered(At(Unbuffer(n, i).peers, i))
    decreases |At(n.peers, i).buffer|
  {
    var p := At(n.peers, i);
    if |p.got| in p.buffer {
      var n1 := PopBuffer(n, i);
      var n2 := Take(n1, i, p.buffer[|p.got|]);
      PopBufferInv(n, i);
      TakeInv(n1, i, p.buffer[|p.got|]);
      TakeLinks(n1, i, p.buffer[|p.got|]);
      PopElsewhere(n, i);
      TakeElsewhere(n1, i, p.buffer[|p.got|]);
      UnbufferInv(n2, i);
    }
  }

  /** The link from `i` may take messages out of its buffer; every other link only sends on. */
  ghost predicate Moves(n: Node, r: Node, i: Ip) {
    && r.cfg == n.cfg
    && Intake(At(n.peers, i), At(r.peers, i))
    && (forall k :: k != i ==> SendsOn(At(n.peers, k), At(r.peers, k)))
    && (forall o :: o in r.tunnel ==> o in n.tunnel || Genuine(r, o))
  }

  lemma MovesTransitive(n: Node, q: Node, r: Node, i: Ip)
    requires Moves(n, q, i) && Moves(q, r, i)
    ensures Moves(n, r, i)
  {
    forall s: nat ensures Received(At(n.peers, i), s) <==> Received(At(r.peers, i), s) {
      assert Received(At(n.peers, i), s) <==> Received(At(q.peers, i), s);
    }
    forall k | k != i ensures SendsOn(At(n.peers, k), At(r.peers, k)) {
      assert SendsOn(At(n.peers, k), At(q.peers, k)) && SendsOn(At(q.peers, k), At(r.peers, k));
    }
    forall o | o in r.tunnel ensures o in n.tunnel || Genuine(r, o) {
      if o in q.tunnel && o !in n.tunnel {
        assert Genuine(q, o) && At(q.peers, o.dst).sent <= At(r.peers, o.dst).sent;
      }
    }
  }

  lemma PopTakeMoves(n: Node, i: Ip, log: seq<Message>)
    requires PlainChannels(n.ctrl.channels) && Fed(At(n.peers, i), log) && !Unbuffered(At(n.peers, i))
    ensures var p := At(n.peers, i); var r := Take(PopBuffer(n, i), i, p.buffer[|p.got|]);
            Moves(n, r, i) && Fed(At(r.peers, i), log)
  {
    var p, n1 := At(n.peers, i), PopBuffer(n, i);
    TakeLinks(n1, i, p.buffer[|p.got|]);
    assert log[|p.got|] == p.buffer[|p.got|];
  }

  /** Emptying the buffer in turn hands over the log in order and forgets nothing. */
  lemma {:induction false} UnbufferLinks(n: Node, i: Ip, log: seq<Message>)
    requires PlainChannels(n.ctrl.channels) && Fed(At(n.peers, i), log)
    ensures Moves(n, Unbuffer(n, i), i) && Fed(At(Unbuffer(n, i).peers, i), log)
    decreases |At(n.peers, i).buffer|
  {
    var p := At(n.peers, i);
    if |p.got| in p.buffer {
      PopTakeMoves(n, i, log);
      var n2 := Take(PopBuffer(n, i), i, p.buffer[|p.got|]);
      UnbufferLinks(n2, i, log);
      MovesTransitive(n, n2, Unbuffer(n2, i), i);
    }
  }

  // ---------- What is on the tunnel stays there ----------

  lemma {:induction false} DrainSays(n: Node)
    ensures n.tunnel <= Drain(n).tunnel
    decreases |n.app.pending|
  {
    if n.app.pending != [] {
      DrainSays(Forward(Pop(n), n.app.pending[0]));
    }
  }

  lemma {:induction false} BroadcastSays(n: Node, ks: seq<Ip>, id: SnapshotId)
    ensures n.tunnel <= Broadcast(n, ks, id).tunnel
    decreases |ks|
  {
    if ks != [] {
      var n1 := SendData(n, ks[0], MarkerMessage(id));
      BroadcastSays(n1.(ctrl := n1.ctrl.(sendCut := n1.ctrl.sendCut[ks[0] := |At(n1.peers, ks[0]).sent|])), ks[1..], id);
    }
  }

  lemma FinishSays(n: Node, status: Status)
    requires PlainChannels(n.ctrl.channels)
    ensures Finish(n, status).tunnel == n.tunnel
  {
  }

  lemma InitiateSays(n: Node, remote: Ip, sn: nat, id: SnapshotId)
    ensures n.tunnel <= Initiate(n, remote, sn, id).tunnel
  {
    var others := Others(n.cfg.mesh, n.cfg.self);
    var c, b := Cut(n, remote, id), Begin(n, remote, sn, id);
    DrainSays(n.(ctrl := Controller(true, Some(id), SetOf(others) - {remote}, map[], map[], map[], map[])));
    BroadcastSays(c, others, id);
    assert b.tunnel == Broadcast(c, others, id).tunnel;
    FinishSays(b, Complete);
  }

  lemma TakeSays(n: Node, i: Ip, m: Message)
    requires PlainChannels(n.ctrl.channels)
    ensures n.tunnel <= Take(n, i, m).tunnel
  {
    TakeCases(n, i, m);
    var sn := |At(n.peers, i).got|;
    if !Stays(n, i, m) {
      if n.ctrl.active {
        FinishSays(n.(ctrl := Close(n.ctrl, i, sn)), Complete);
      } else {
        InitiateSays(n, i, sn, m.payload.id);
      }
    }
  }

  lemma {:induction false} UnbufferSays(n: Node, i: Ip)
    requires PlainChannels(n.ctrl.channels)
    ensures n.tunnel <= Unbuffer(n, i).tunnel
    decreases |At(n.peers, i).buffer|
  {
    var p := At(n.peers, i);
    if |p.got| in p.buffer {
      var m := p.buffer[|p.got|];
      TakeSays(PopBuffer(n, i), i, m);
      TakeLinks(PopBuffer(n, i), i, m);
      UnbufferSays(Take(PopBuffer(n, i), i, m), i);
    }
  }

  /** Every data frame is acknowledged, in its turn or not, and before anything that it leads to is sent. */
  lemma DataAcknowledged(n: Node, src: Ip, sn: nat, m: Message)
    requires PlainChannels(n.ctrl.channels)
    ensures n.tunnel + [Outgoing(src, Frame.Ack(sn))] <= Receive(n, src, Data(sn, m)).tunnel
  {
    var n1 := Acknowledge(n, src, sn);
    if sn == |At(n.peers, src).got| {
      TakeSays(n1, src, m);
      UnbufferSays(Take(n1, src, m), src);
    }
  }

  // ---------- Whole callbacks ----------

  /** The invariant between callbacks: no buffered message is due. */
  ghost predicate Steady(n: Node) {
    NodeInv(n) && forall k :: Unbuffered(At(n.peers, k))
  }

  /** What a data frame does to the links: its number has now been received, and nothing but its acknowledgement is new. */
  ghost predicate Heeds(n: Node, r: Node, src: Ip, sn: nat) {
    var p, q := At(n.peers, src), At(r.peers, src);
    && r.cfg == n.cfg
    && p.sent <= q.sent && q.acked == p.acked && p.got <= q.got
    && (forall s: nat :: Received(q, s) <==> Received(p, s) || s == sn)
    && (forall k :: k != src ==> SendsOn(At(n.peers, k), At(r.peers, k)))
    && (forall o :: o in r.tunnel ==> o in n.tunnel || Genuine(r, o) || o == Outgoing(src, Frame.Ack(sn)))
  }

  lemma DataInOrder(n: Node, src: Ip, m: Message, log: seq<Message>)
    requires Steady(n) && PlainChannels(n.ctrl.channels) && Fed(At(n.peers, src), log)
    requires |At(n.peers, src).got| < |log| && log[|At(n.peers, src).got|] == m
    ensures var sn := |At(n.peers, src).got|; var r := Receive(n, src, Data(sn, m));
            Steady(r) && Heeds(n, r, src, sn) && Fed(At(r.peers, src), log)
    ensures var sn := |At(n.peers, src).got|;
            n.tunnel + [Outgoing(src, Frame.Ack(sn))] <= Receive(n, src, Data(sn, m)).tunnel
  {
    DataAcknowledged(n, src, |At(n.peers, src).got|, m);
    InOrderHeeds(n, src, m, log);
  }

  lemma InOrderHeeds(n: Node, src: Ip, m: Message, log: seq<Message>)
    requires Steady(n) && PlainChannels(n.ctrl.channels) && Fed(At(n.peers, src), log)
    requires |At(n.peers, src).got| < |log| && log[|At(n.peers, src).got|] == m
    ensures var sn := |At(n.peers, src).got|; var r := Receive(n, src, Data(sn, m));
            Steady(r) && Heeds(n, r, src, sn) && Fed(At(r.peers, src), log)
  {
    var sn := |At(n.peers, src).got|;
    var n1 := Acknowledge(n, src, sn);
    var n2 := Take(n1, src, m);
    AcknowledgeInv(n, src, sn);
    TakeInv(n1, src, m);
    TakeLinks(n1, src, m);
    TakeElsewhere(n1, src, m);
    UnbufferInv(n2, src);
    UnbufferLinks(n2, src, log);
    TakeThenMove(n, n2, Unbuffer(n2, src), src, sn);
  }

  function Acknowledge(n: Node, src: Ip, sn: nat): Node {
    GetPeer(n, src).(tunnel := n.tunnel + [Outgoing(src, Frame.Ack(sn))])
  }

  lemma AcknowledgeInv(n: Node, src: Ip, sn: nat)
    requires Steady(n)
    ensures Steady(Acknowledge(n, src, sn))
  {
    var r := Acknowledge(n, src, sn);
    forall k ensures PartInv(r, k) && Unbuffered(At(r.peers, k)) {
      assert PartInv(n, k) && Unbuffered(At(n.peers, k));
      PartSame(n, r, k);
    }
  }

  lemma TakeThenMove(n: Node, q: Node, r: Node, src: Ip, sn: nat)
    requires q.cfg == n.cfg && Moves(q, r, src) && sn == |At(n.peers, src).got|
    requires var a, b := At(n.peers, src), At(q.peers, src);
             a.sent <= b.sent && b.acked == a.acked && a.got <= b.got && |b.got| == sn + 1 && b.buffer == a.buffer
    requires forall k :: k != src ==> SendsOn(At(n.peers, k), At(q.peers, k))
    requires forall o :: o in q.tunnel ==> o in n.tunnel || Genuine(q, o) || o == Outgoing(src, Frame.Ack(sn))
    ensures Heeds(n, r, src, sn)
  {
    var a, b, c := At(n.peers, src), At(q.peers, src), At(r.peers, src);
    forall s: nat ensures Received(c, s) <==> Received(a, s) || s == sn {
      assert Received(b, s) <==> Received(c, s);
    }
    forall k | k != src ensures SendsOn(At(n.peers, k), At(r.peers, k)) {
      assert SendsOn(At(n.peers, k), At(q.peers, k)) && SendsOn(At(q.peers, k), At(r.peers, k));
    }
    forall o | o in r.tunnel ensures o in n.tunnel || Genuine(r, o) || o == Outgoing(src, Frame.Ack(sn)) {
      if o in q.tunnel && o !in n.tunnel && o != Outgoing(src, Frame.Ack(sn)) {
        assert Genuine(q, o) && At(q.peers, o.dst).sent <= At(r.peers, o.dst).sent;
      }
    }
  }

  /** Changing only what one link holds back, or what it has had acknowledged, concerns no other table. */
  lemma LinkSteady(n: Node, r: Node, src: Ip, q: Peer)
    requires Steady(n) && r.cfg == n.cfg && r.ctrl == n.ctrl && r.peers == n.peers[src := q]
    requires q == At(n.peers, src).(buffer := q.buffer, acked := q.acked) && LinkTables(q) && Unbuffered(q)
    ensures Steady(r)
  {
    forall k ensures PartInv(r, k) && Unbuffered(At(r.peers, k)) {
      assert PartInv(n, k) && Unbuffered(At(n.peers, k));
      if k != src {
        PartSame(n, r, k);
      } else {
        LinkPart(n, r, src);
      }
    }
  }

  lemma LinkPart(n: Node, r: Node, k: Ip)
    requires PartInv(n, k) && r.cfg == n.cfg && r.ctrl == n.ctrl && LinkTables(At(r.peers, k))
    requires At(r.peers, k) == At(n.peers, k).(buffer := At(r.peers, k).buffer, acked := At(r.peers, k).acked)
    ensures PartInv(r, k)
  {
    HeardSame(Settled(n, k), Settled(r, k));
    if k in n.ctrl.channels {
      LinkChannel(n, r, k);
    }
  }

  lemma LinkChannel(n: Node, r: Node, k: Ip)
    requires ChannelInv(n, k) && r.ctrl == n.ctrl
    requires At(r.peers, k) == At(n.peers, k).(buffer := At(r.peers, k).buffer, acked := At(r.peers, k).acked)
    ensures ChannelInv(r, k)
  {
  }

  /** A data frame ahead of its turn waits in the buffer; one behind it is only acknowledged again. */
  lemma DataOutOfOrder(n: Node, src: Ip, sn: nat, m: Message, log: seq<Message>)
    requires Steady(n) && PlainChannels(n.ctrl.channels) && Fed(At(n.peers, src), log)
    requires sn < |log| && log[sn] == m && sn != |At(n.peers, src).got|
    ensures var r := Receive(n, src, Data(sn, m));
            Steady(r) && Heeds(n, r, src, sn) && Fed(At(r.peers, src), log)
    ensures Receive(n, src, Data(sn, m)).tunnel == n.tunnel + [Outgoing(src, Frame.Ack(sn))]
  {
    DataWaits(n, src, sn, m);
    WaitHeeds(n, Receive(n, src, Data(sn, m)), src, sn, m, log);
  }

  lemma WaitHeeds(n: Node, r: Node, src: Ip, sn: nat, m: Message, log: seq<Message>)
    requires Steady(n) && Fed(At(n.peers, src), log)
    requires sn < |log| && log[sn] == m && sn != |At(n.peers, src).got|
    requires var p := At(n.peers, src);
             r == n.(peers := n.peers[src := if sn > |p.got| then p.(buffer := p.buffer[sn := m]) else p],
                     tunnel := n.tunnel + [Outgoing(src, Frame.Ack(sn))])
    ensures Steady(r) && Heeds(n, r, src, sn) && Fed(At(r.peers, src), log)
  {
    assert PartInv(n, src) && Unbuffered(At(n.peers, src));
    LinkSteady(n, r, src, At(r.peers, src));
  }

  lemma DataWaits(n: Node, src: Ip, sn: nat, m: Message)
    requires PlainChannels(n.ctrl.channels) && sn != |At(n.peers, src).got|
    ensures var p, r := At(n.peers, src), Receive(n, src, Data(sn, m));
            r == n.(peers := n.peers[src := if sn > |p.got| then p.(buffer := p.buffer[sn := m]) else p],
                    tunnel := n.tunnel + [Outgoing(src, Frame.Ack(sn))])
  {
  }

  /** An acknowledgement ends the retransmission of its number and changes nothing else. */
  lemma AckHeeds(n: Node, src: Ip, sn: nat)
    requires Steady(n) && PlainChannels(n.ctrl.channels)
    ensures var r := Receive(n, src, Frame.Ack(sn)); var p := At(n.peers, src);
            && Steady(r) && r.cfg == n.cfg && r.tunnel == n.tunnel
            && r.peers == n.peers[src := p.(acked := if sn < |p.sent| then p.acked + {sn} else p.acked)]
  {
    var p, r := At(n.peers, src), Receive(n, src, Frame.Ack(sn));
    var q := p.(acked := if sn < |p.sent| then p.acked + {sn} else p.acked);
    assert PartInv(n, src) && Unbuffered(p);
    assert sn in p.Unacked() <==> sn < |p.sent| && sn !in p.acked;
    assert sn in p.acked ==> p.acked + {sn} == p.acked;
    assert r.peers == n.peers[src := q];
    LinkSteady(n, r, src, q);
  }

  /** Handing an outsider's datagram to the app, or changing only the app, host or outputs, concerns no table. */
  lemma AsideSteady(n: Node, r: Node)
    requires Steady(n) && r.cfg == n.cfg && r.ctrl == n.ctrl && forall k :: At(r.peers, k) == At(n.peers, k)
    ensures Steady(r)
  {
    forall k ensures PartInv(r, k) && Unbuffered(At(r.peers, k)) {
      assert PartInv(n, k) && Unbuffered(At(n.peers, k));
      PartSame(n, r, k);
    }
  }

  /** Sending alone keeps the invariant: the marker of the current wave stays where it is. */
  lemma SendSteady(n: Node, r: Node)
    requires Steady(n) && Progress(n, r) && r.ctrl == n.ctrl && SameHeard(n.peers, r.peers)
    ensures Steady(r)
  {
    forall k ensures PartInv(r, k) && Unbuffered(At(r.peers, k)) {
      assert PartInv(n, k) && Unbuffered(At(n.peers, k)) && SendsOn(At(n.peers, k), At(r.peers, k));
      SendPart(n, r, k);
    }
  }

  lemma SendPart(n: Node, r: Node, k: Ip)
    requires PartInv(n, k) && r.cfg == n.cfg && r.ctrl == n.ctrl && SendsOn(At(n.peers, k), At(r.peers, k))
    requires At(r.peers, k).heard == At(n.peers, k).heard
    ensures PartInv(r, k)
  {
    HeardSame(Settled(n, k), Settled(r, k));
  }

  lemma FlushSteady(n: Node, r: Node)
    requires NodeInv(r) && Progress(n, r) && forall k :: Unbuffered(At(n.peers, k))
    ensures Steady(r)
  {
    forall k ensures Unbuffered(At(r.peers, k)) {
      assert Unbuffered(At(n.peers, k)) && SendsOn(At(n.peers, k), At(r.peers, k));
    }
  }

  lemma StartCases(n: Node, id: SnapshotId)
    requires NodeInv(n) && PlainChannels(n.ctrl.channels)
    ensures ProcessMessage(n, LOCALHOST, 0, Msg(Marker(id), 0, 0, LOCALHOST)) ==
            if n.ctrl.active then n else Initiate(n, LOCALHOST, 0, id)
  {
    assert n.ctrl.active ==> LOCALHOST !in n.ctrl.recording;
  }

  /** A locally requested snapshot either starts a wave here or is ignored. */
  lemma StartSteady(n: Node, id: SnapshotId)
    requires Steady(n) && PlainChannels(n.ctrl.channels)
    ensures Steady(ProcessMessage(n, LOCALHOST, 0, Msg(Marker(id), 0, 0, LOCALHOST)))
  {
    var r := ProcessMessage(n, LOCALHOST, 0, Msg(Marker(id), 0, 0, LOCALHOST));
    StartCases(n, id);
    if !n.ctrl.active {
      InitiateInv(n, LOCALHOST, id);
    }
    FlushSteady(n, r);
  }

  lemma TimeoutSteady(n: Node)
    requires Steady(n) && PlainChannels(n.ctrl.channels)
    ensures Steady(Timeout(n)) && Progress(n, Timeout(n))
  {
    if n.ctrl.active {
      FinishInv(n, n.ctrl, Aborted);
      assert n.(ctrl := n.ctrl) == n;
      FlushSteady(n, Timeout(n));
    }
  }

  lemma InterceptSteady(n: Node)
    requires Steady(n) && PlainChannels(n.ctrl.channels) && n.app.pending != []
    ensures Steady(Intercept(n)) && Progress(n, Intercept(n))
  {
    AsideSteady(n, Pop(n));
    var d := n.app.pending[0];
    if d.payload.Start? {
      StartSteady(Pop(n), d.payload.id);
    } else {
      SendSteady(Pop(n), Forward(Pop(n), d));
    }
  }
}
