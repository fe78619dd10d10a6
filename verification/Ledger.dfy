/** The books of one member: what it holds, is about to send, has sent and has taken in never drift apart. */
module Ledger {
  import opened Wrappers
  import opened Mesh
  import opened Counter
  import opened Sidecar
  import opened Bookkeeping
  import opened Callbacks
  import opened Sums

  function SumRecs(rs: seq<Rec>): int {
    if rs == [] then 0 else Value(rs[0].msg) + SumRecs(rs[1..])
  }

  lemma {:induction false} SumRecsAppend(rs: seq<Rec>, qs: seq<Rec>)
    ensures SumRecs(rs + qs) == SumRecs(rs) + SumRecs(qs)
  {
    if rs == [] {
      assert rs + qs == qs;
    } else {
      assert (rs + qs)[1..] == rs[1..] + qs;
      SumRecsAppend(rs[1..], qs);
    }
  }

  /** What this member has sent to another, less what it has taken in from it. */
  function Net(p: Peer): int {
    SumMessages(p.sent) - SumMessages(p.got)
  }

  function Nets(peers: map<Ip, Peer>): map<Ip, int> {
    map k | k in peers :: Net(peers[k])
  }

  function ChannelValues(channels: map<Ip, seq<Rec>>): map<Ip, int> {
    map k | k in channels :: SumRecs(channels[k])
  }

  /** The values the controller holds back, channel by channel. */
  function Held(c: Controller): map<Ip, int> {
    ChannelValues(c.channels)
  }

  /** Everything the member accounts for, but for what its controller holds back. */
  function Worth(cfg: Config, app: App, exits: seq<Datagram>, peers: map<Ip, Peer>): int {
    app.Worth() + SumDatagrams(exits) + Total(cfg.mesh, Nets(peers))
  }

  function NodeWorth(n: Node): int {
    Worth(n.cfg, n.app, n.exits, n.peers)
  }

  /** The member's ledger: its worth, and the recorded messages not yet delivered. */
  function Balance(n: Node): int {
    NodeWorth(n) + Total(n.cfg.order, Held(n.ctrl))
  }

  ghost predicate SoundChannels(channels: map<Ip, seq<Rec>>) {
    forall k, r :: k in channels && r in channels[k] ==> Sound(r.msg)
  }

  /** Nothing this member may yet deliver or send overwrites a counter or sends money nowhere. */
  ghost predicate SoundNode(n: Node) {
    && (forall d :: d in n.app.pending ==> SoundDatagram(d))
    && (forall k, m :: m in At(n.peers, k).sent ==> Sound(m))
    && SoundChannels(n.ctrl.channels)
  }

  // ---------- Parts of a callback ----------

  lemma PeerWorth(n: Node, k: Ip, p: Peer)
    requires Distinct(n.cfg.mesh) && k in n.cfg.mesh
    ensures NodeWorth(n.(peers := n.peers[k := p])) == NodeWorth(n) + Net(p) - Net(At(n.peers, k))
  {
    TotalUpdate(n.cfg.mesh, Nets(n.peers), k, Net(p));
    assert Nets(n.peers[k := p]) == Nets(n.peers)[k := Net(p)];
  }

  lemma SendWorth(n: Node, k: Ip, m: Message)
    requires Distinct(n.cfg.mesh) && k in n.cfg.mesh
    ensures NodeWorth(SendData(n, k, m)) == NodeWorth(n) + Value(m)
  {
    var p := At(n.peers, k);
    PeerWorth(n, k, p.(sent := p.sent + [m]));
    SumMessagesAppend(p.sent, [m]);
    assert SumMessages([m]) == Value(m);
  }

  /** Forwarding a datagram moves its value from the app's hands to a link, or out of the mesh. */
  lemma ForwardWorth(n: Node, d: Datagram)
    requires Distinct(n.cfg.mesh)
    ensures NodeWorth(Forward(n, d)) == NodeWorth(n) + DatagramValue(d)
  {
    if d.dst.Some? && d.dst.value.port != 0 {
      if InMesh(d.dst.value.ip) && UseRudp(n, d.dst.value.ip) {
        SendWorth(n, d.dst.value.ip, MessageOf(d));
      } else {
        SumDatagramsAppend(n.exits, [d]);
        assert SumDatagrams([d]) == DatagramValue(d);
      }
    }
  }

  lemma ForwardSound(n: Node, d: Datagram)
    requires SoundNode(n) && SoundDatagram(d)
    ensures SoundNode(Forward(n, d))
  {
    var r := Forward(n, d);
    forall k, m | m in At(r.peers, k).sent ensures Sound(m) {
      assert m in At(n.peers, k).sent || m == MessageOf(d);
    }
  }

  lemma PopWorth(n: Node)
    requires n.app.pending != []
    ensures NodeWorth(Pop(n)) == NodeWorth(n) - DatagramValue(n.app.pending[0])
    ensures SoundNode(n) ==> SoundNode(Pop(n)) && SoundDatagram(n.app.pending[0])
  {
  }

  lemma {:induction false} DrainWorth(n: Node)
    requires Distinct(n.cfg.mesh) && SoundNode(n)
    ensures NodeWorth(Drain(n)) == NodeWorth(n) && SoundNode(Drain(n))
    decreases |n.app.pending|
  {
    if n.app.pending != [] {
      PopWorth(n);
      ForwardWorth(Pop(n), n.app.pending[0]);
      ForwardSound(Pop(n), n.app.pending[0]);
      DrainWorth(Forward(Pop(n), n.app.pending[0]));
    }
  }

  lemma {:induction false} BroadcastWorth(n: Node, ks: seq<Ip>, id: SnapshotId)
    requires Distinct(n.cfg.mesh) && (forall k :: k in ks ==> k in n.cfg.mesh) && SoundNode(n)
    ensures NodeWorth(Broadcast(n, ks, id)) == NodeWorth(n) && SoundNode(Broadcast(n, ks, id))
    decreases |ks|
  {
    if ks != [] {
      var n1 := SendData(n, ks[0], MarkerMessage(id));
      SendWorth(n, ks[0], MarkerMessage(id));
      var n2 := n1.(ctrl := n1.ctrl.(sendCut := n1.ctrl.sendCut[ks[0] := |At(n1.peers, ks[0]).sent|]));
      forall k, m | m in At(n2.peers, k).sent ensures Sound(m) {
        assert m in At(n.peers, k).sent || m == MarkerMessage(id);
      }
      BroadcastWorth(n2, ks[1..], id);
    }
  }

  /** Delivering a sound message adds its value. */
  lemma ToAppWorth(n: Node, from: Ip, m: Message)
    requires Sound(m) && SoundNode(n)
    ensures NodeWorth(ToApp(n, from, m)) == NodeWorth(n) + Value(m) && SoundNode(ToApp(n, from, m))
  {
    ReceiveConserves(n.app, from, m);
    ReceiveEmitsSound(n.app, from, m);
  }

  lemma DeliverWorth(n: Node, from: Ip, sn: nat, m: Message)
    requires Distinct(n.cfg.mesh) && from in n.cfg.mesh && Sound(m) && SoundNode(n)
    ensures NodeWorth(Deliver(n, from, sn, m)) == NodeWorth(n) + Value(m) && SoundNode(Deliver(n, from, sn, m))
  {
    ToAppWorth(n, from, m);
    var p := At(n.peers, from);
    PeerWorth(ToApp(n, from, m), from, p.(heard := p.heard + [Rec(sn, m)]));
    var r := Deliver(n, from, sn, m);
    forall k, x | x in At(r.peers, k).sent ensures Sound(x) {
      assert x in At(n.peers, k).sent;
    }
  }

  lemma {:induction false} DeliverAllWorth(n: Node, from: Ip, rs: seq<Rec>)
    requires Distinct(n.cfg.mesh) && from in n.cfg.mesh && SoundNode(n) && forall r :: r in rs ==> Sound(r.msg)
    requires !n.ctrl.active && PlainChannels(n.ctrl.channels) && PlainRecords(rs)
    ensures NodeWorth(DeliverAll(n, from, rs)) == NodeWorth(n) + SumRecs(rs) && SoundNode(DeliverAll(n, from, rs))
    decreases |rs|
  {
    if rs != [] {
      ReplayDelivers(n, from, rs[0].sn, rs[0].msg);
      DeliverWorth(n, from, rs[0].sn, rs[0].msg);
      DeliverAllWorth(Deliver(n, from, rs[0].sn, rs[0].msg), from, rs[1..]);
    }
  }

  /** Replaying recorded channels adds exactly what was recorded. */
  lemma {:induction false} ReplayWorth(n: Node, channels: map<Ip, seq<Rec>>, ks: seq<Ip>)
    requires Distinct(n.cfg.mesh) && (forall k :: k in ks ==> k in n.cfg.mesh) && SoundNode(n) && SoundChannels(channels)
    requires !n.ctrl.active && PlainChannels(n.ctrl.channels) && PlainChannels(channels)
    requires forall k :: k in channels ==> Ascending(channels[k])
    ensures NodeWorth(Replay(n, channels, ks)) == NodeWorth(n) + Total(ks, ChannelValues(channels))
    ensures SoundNode(Replay(n, channels, ks))
    decreases |ks|
  {
    if ks != [] {
      if ks[0] in channels {
        SortIdentity(channels[ks[0]]);
        DeliverAllWorth(n, ks[0], SortBySeq(channels[ks[0]]));
        ReplayWorth(DeliverAll(n, ks[0], SortBySeq(channels[ks[0]])), channels, ks[1..]);
      } else {
        ReplayWorth(n, channels, ks[1..]);
      }
    }
  }

  /** A flush, on completion or on abort, turns what was held back into what was delivered. */
  lemma FinishBalance(n: Node, status: Status)
    requires ValidConfig(n.cfg) && SoundNode(n) && PlainChannels(n.ctrl.channels)
    requires forall k :: k in n.ctrl.channels ==> Ascending(n.ctrl.channels[k])
    ensures Balance(Finish(n, status)) == Balance(n) && SoundNode(Finish(n, status))
  {
    var n1 := Post(n, BuildArtifact(n.ctrl, status));
    var n2 := n1.(ctrl := IDLE.(channels := n.ctrl.channels));
    forall k | k in n.cfg.order ensures k in n.cfg.mesh {
      assert k in SetOf(n.cfg.order);
    }
    ReplayWorth(n2, n.ctrl.channels, n.cfg.order);
    assert ChannelValues(n.ctrl.channels) == Held(n.ctrl) && Held(IDLE) == map[];
    TotalZero(n.cfg.order);
  }

  lemma QuietHeld(c: Controller, ks: seq<Ip>)
    requires forall k :: ChannelOf(c, k) == []
    ensures Total(ks, Held(c)) == 0
  {
    forall k | k in ks ensures Weight(Held(c), k) == 0 {
      assert ChannelOf(c, k) == [];
    }
    TotalSame(ks, Held(c), map[]);
    TotalZero(ks);
  }

  /** Starting a wave costs nothing: what is drained is sent, and markers have no value. */
  lemma InitiateBalance(n: Node, remote: Ip, sn: nat, id: SnapshotId)
    requires NodeInv(n) && SoundNode(n) && !n.ctrl.active
    ensures Balance(Initiate(n, remote, sn, id)) == Balance(n) && SoundNode(Initiate(n, remote, sn, id))
  {
    var b := Begin(n, remote, sn, id);
    BeginWorth(n, remote, sn, id);
    BeginBegun(n, remote, sn, id);
    QuietHeld(b.ctrl, n.cfg.order);
    QuietHeld(n.ctrl, n.cfg.order);
    if b.ctrl.recording == {} {
      QuietBalance(b);
    }
  }

  lemma QuietBalance(b: Node)
    requires ValidConfig(b.cfg) && SoundNode(b) && forall k :: ChannelOf(b.ctrl, k) == []
    ensures PlainChannels(b.ctrl.channels)
    ensures Balance(Finish(b, Complete)) == Balance(b) && SoundNode(Finish(b, Complete))
  {
    AllQuiet(b.ctrl);
    FinishBalance(b, Complete);
  }

  lemma BeginWorth(n: Node, remote: Ip, sn: nat, id: SnapshotId)
    requires ValidConfig(n.cfg) && SoundNode(n)
    ensures var b := Begin(n, remote, sn, id);
            NodeWorth(b) == NodeWorth(n) && (forall k :: ChannelOf(b.ctrl, k) == []) && SoundNode(b)
  {
    CutWorth(n, remote, id);
    var n1 := Cut(n, remote, id);
    BroadcastWorth(n1, Others(n.cfg.mesh, n.cfg.self), id);
    OpenTables(Broadcast(n1, Others(n.cfg.mesh, n.cfg.self), id), remote, sn);
    OpenSound(Broadcast(n1, Others(n.cfg.mesh, n.cfg.self), id), remote, sn);
  }

  lemma OpenSound(n: Node, remote: Ip, sn: nat)
    requires SoundNode(n)
    ensures SoundNode(OpenChannels(n, remote, sn)) && NodeWorth(OpenChannels(n, remote, sn)) == NodeWorth(n)
  {
  }

  /** At the cut the app's intercept queue is empty, and its worth is that of the node before the cut. */
  lemma CutWorth(n: Node, remote: Ip, id: SnapshotId)
    requires ValidConfig(n.cfg) && SoundNode(n)
    ensures var c := Cut(n, remote, id);
            && NodeWorth(c) == NodeWorth(n) && SoundNode(c)
            && c.cfg == n.cfg && c.ctrl.recording == Peers(n.cfg) - {remote}
            && c.app == n.app.(pending := [])
            && c.host == (if n.host.checkpointUp
                          then n.host.(images := n.host.images + [Image(id, c.app, c.exits, c.peers)])
                          else n.host)
  {
    var recording := SetOf(Others(n.cfg.mesh, n.cfg.self)) - {remote};
    var n0 := n.(ctrl := Controller(true, Some(id), recording, map[], map[], map[], map[]));
    DrainWorth(n0);
  }

  lemma AppendBalance(n: Node, i: Ip, m: Message)
    requires Distinct(n.cfg.mesh) && i in n.cfg.mesh
    ensures Balance(Append(n, i, m)) == Balance(n) - Value(m)
    ensures SoundNode(n) ==> SoundNode(Append(n, i, m))
  {
    var p := At(n.peers, i);
    PeerWorth(n, i, p.(got := p.got + [m]));
    SumMessagesAppend(p.got, [m]);
    assert SumMessages([m]) == Value(m);
    if SoundNode(n) {
      forall k, x | x in At(Append(n, i, m).peers, k).sent ensures Sound(x) {
        assert x in At(n.peers, k).sent;
      }
    }
  }

  lemma RecordBalance(n: Node, i: Ip, rec: Rec, r: Node)
    requires ValidConfig(n.cfg) && i in Peers(n.cfg) && SoundNode(n) && Sound(rec.msg)
    requires r == n.(ctrl := n.ctrl.(channels := n.ctrl.channels[i := ChannelOf(n.ctrl, i) + [rec]]))
    ensures Balance(r) == Balance(n) + Value(rec.msg) && SoundNode(r)
  {
    var channel := ChannelOf(n.ctrl, i) + [rec];
    SumRecsAppend(ChannelOf(n.ctrl, i), [rec]);
    assert SumRecs([rec]) == Value(rec.msg);
    assert i in SetOf(n.cfg.order);
    TotalUpdate(n.cfg.order, Held(n.ctrl), i, SumRecs(channel));
    assert Held(r.ctrl) == Held(n.ctrl)[i := SumRecs(channel)];
    forall k, x | k in r.ctrl.channels && x in r.ctrl.channels[k] ensures Sound(x.msg) {
      assert x == rec || (k in n.ctrl.channels && x in n.ctrl.channels[k]);
    }
  }

  lemma KeepBalance(n: Node, i: Ip, m: Message)
    requires NodeInv(n) && SoundNode(n) && Sound(m) && i in n.cfg.mesh
    ensures Balance(Keep(n, i, m)) == Balance(n) + Value(m) && SoundNode(Keep(n, i, m))
  {
    if !m.payload.Marker? {
      if n.ctrl.active && i in n.ctrl.recording {
        RecordBalance(n, i, Rec(|At(n.peers, i).got|, m), Keep(n, i, m));
      } else {
        DeliverWorth(n, i, |At(n.peers, i).got|, m);
      }
    }
  }

  lemma CloseBalance(n: Node, i: Ip, sn: nat)
    requires NodeInv(n) && PlainChannels(n.ctrl.channels) && SoundNode(n)
    ensures var n1 := n.(ctrl := Close(n.ctrl, i, sn));
            && Balance(n1) == Balance(n) && SoundNode(n1)
            && Balance(Finish(n1, Complete)) == Balance(n) && SoundNode(Finish(n1, Complete))
  {
    var n1 := n.(ctrl := Close(n.ctrl, i, sn));
    assert Held(n1.ctrl) == Held(n.ctrl);
    InvShape(n);
    FinishBalance(n1, Complete);
  }

  /** Taking in a message is neutral: it is delivered, recorded, or worthless. */
  lemma TakeBalance(n: Node, i: Ip, m: Message)
    requires NodeInv(n) && PlainChannels(n.ctrl.channels) && SoundNode(n) && Sound(m) && i in n.cfg.mesh
    ensures Balance(Take(n, i, m)) == Balance(n) && SoundNode(Take(n, i, m))
  {
    TakeCases(n, i, m);
    var sn := |At(n.peers, i).got|;
    if Stays(n, i, m) {
      KeepBalance(n, i, m);
      AppendBalance(Keep(n, i, m), i, m);
    } else if !n.ctrl.active {
      InitiateBalance(n, i, sn, m.payload.id);
      AppendBalance(Initiate(n, i, sn, m.payload.id), i, m);
    } else {
      CloseBalance(n, i, sn);
      var n1 := n.(ctrl := Close(n.ctrl, i, sn));
      AppendBalance(if n.ctrl.recording == {i} then Finish(n1, Complete) else n1, i, m);
    }
  }

  ghost predicate SoundLog(log: seq<Message>) {
    forall m :: m in log ==> Sound(m)
  }

  lemma {:induction false} UnbufferBalance(n: Node, i: Ip, log: seq<Message>)
    requires NodeInv(n) && PlainChannels(n.ctrl.channels) && UnbufferedElsewhere(n, i) && SoundNode(n) && i in n.cfg.mesh
    requires Fed(At(n.peers, i), log) && SoundLog(log)
    ensures Balance(Unbuffer(n, i)) == Balance(n) && SoundNode(Unbuffer(n, i))
    decreases |At(n.peers, i).buffer|
  {
    var p := At(n.peers, i);
    if |p.got| in p.buffer {
      var m := p.buffer[|p.got|];
      var n1 := PopBuffer(n, i);
      var n2 := Take(n1, i, m);
      PopBufferInv(n, i);
      PeerWorth(n, i, At(n1.peers, i));
      forall k, x | x in At(n1.peers, k).sent ensures Sound(x) {
        assert x in At(n.peers, k).sent;
      }
      assert m in log;
      TakeInv(n1, i, m);
      TakeBalance(n1, i, m);
      TakeLinks(n1, i, m);
      PopTakeMoves(n, i, log);
      PopElsewhere(n, i);
      TakeElsewhere(n1, i, m);
      UnbufferBalance(n2, i, log);
    }
  }

  lemma AsideBalance(n: Node, r: Node)
    requires r.cfg == n.cfg && r.ctrl == n.ctrl && r.app == n.app && r.exits == n.exits && Distinct(n.cfg.mesh)
    requires forall k :: Net(At(r.peers, k)) == Net(At(n.peers, k)) && At(r.peers, k).sent == At(n.peers, k).sent
    ensures Balance(r) == Balance(n) && (SoundNode(n) ==> SoundNode(r))
  {
    TotalSame(n.cfg.mesh, Nets(n.peers), Nets(r.peers)) by {
      forall k | k in n.cfg.mesh ensures Weight(Nets(n.peers), k) == Weight(Nets(r.peers), k) {
        assert Net(At(r.peers, k)) == Net(At(n.peers, k));
      }
    }
  }

  lemma InOrderBalance(n: Node, src: Ip, m: Message, log: seq<Message>)
    requires Steady(n) && PlainChannels(n.ctrl.channels) && SoundNode(n) && src in n.cfg.mesh
    requires Fed(At(n.peers, src), log) && SoundLog(log)
    requires |At(n.peers, src).got| < |log| && log[|At(n.peers, src).got|] == m
    ensures var r := Unbuffer(Take(n, src, m), src); Balance(r) == Balance(n) && SoundNode(r)
  {
    var n2 := Take(n, src, m);
    assert m in log;
    TakeInv(n, src, m);
    TakeBalance(n, src, m);
    TakeLinks(n, src, m);
    TakeElsewhere(n, src, m);
    UnbufferBalance(n2, src, log);
  }

  /** A data frame is neutral to the books, however late, early or often it comes. */
  lemma DataBalance(n: Node, src: Ip, sn: nat, m: Message, log: seq<Message>)
    requires Steady(n) && PlainChannels(n.ctrl.channels) && SoundNode(n) && src in n.cfg.mesh
    requires Fed(At(n.peers, src), log) && SoundLog(log) && sn < |log| && log[sn] == m
    ensures var r := Receive(n, src, Data(sn, m)); Balance(r) == Balance(n) && SoundNode(r)
  {
    if sn == |At(n.peers, src).got| {
      var n1 := Acknowledge(n, src, sn);
      AcknowledgeInv(n, src, sn);
      AsideBalance(n, n1);
      InOrderBalance(n1, src, m, log);
    } else {
      DataWaits(n, src, sn, m);
      AsideBalance(n, Receive(n, src, Data(sn, m)));
    }
  }

  lemma StartBalance(n: Node, id: SnapshotId)
    requires NodeInv(n) && PlainChannels(n.ctrl.channels) && SoundNode(n)
    ensures var r := ProcessMessage(n, LOCALHOST, 0, Msg(Marker(id), 0, 0, LOCALHOST));
            Balance(r) == Balance(n) && SoundNode(r)
  {
    StartCases(n, id);
    if !n.ctrl.active {
      InitiateBalance(n, LOCALHOST, 0, id);
    }
  }

  lemma InterceptBalance(n: Node)
    requires Steady(n) && PlainChannels(n.ctrl.channels) && n.app.pending != [] && SoundNode(n)
    ensures Balance(Intercept(n)) == Balance(n) && SoundNode(Intercept(n))
  {
    var d := n.app.pending[0];
    PopWorth(n);
    if d.payload.Start? {
      assert DatagramValue(d) == 0;
      AsideSteady(n, Pop(n));
      StartBalance(Pop(n), d.payload.id);
    } else {
      ForwardBalance(Pop(n), d);
    }
  }

  lemma ForwardBalance(n: Node, d: Datagram)
    requires Distinct(n.cfg.mesh) && SoundNode(n) && SoundDatagram(d)
    ensures Balance(Forward(n, d)) == Balance(n) + DatagramValue(d) && SoundNode(Forward(n, d))
  {
    ForwardWorth(n, d);
    ForwardSound(n, d);
  }

  lemma TimeoutBalance(n: Node)
    requires Steady(n) && PlainChannels(n.ctrl.channels) && SoundNode(n)
    ensures Balance(Timeout(n)) == Balance(n) && SoundNode(Timeout(n))
  {
    if n.ctrl.active {
      InvShape(n);
      FinishBalance(n, Aborted);
    }
  }
}
