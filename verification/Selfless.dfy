/**
 * Members that are never told to pay themselves: what such a member sends to itself is worthless in every run, so no
 * snapshot misses any money. A stricter reading covers every datagram of a member to itself.
 */
module Selfless {
  import opened Wrappers
  import opened Mesh
  import opened Counter
  import opened Sidecar
  import opened Bookkeeping
  import opened Callbacks
  import opened Network
  import opened Beginning

  /** A TRANSFER that names `j` as the one to be credited; only one of value counts unless `strict`. */
  predicate Names(m: Message, j: Ip, strict: bool) {
    && m.dstPort == APP_PORT && m.payload.App? && m.payload.command.Transfer?
    && m.payload.command.host == Some(j) && (strict || m.payload.command.amount != 0)
  }

  /** What `self` may send to `j`: no TRANSFER to `j` itself, and, if `self` is `j`, no money, and nothing at all if strict. */
  predicate Allowed(m: Message, self: Ip, j: Ip, strict: bool) {
    !Names(m, j, strict) && (self == j ==> !strict && Value(m) == 0)
  }

  predicate Harmless(d: Datagram, self: Ip, j: Ip, strict: bool) {
    d.dst.Some? && d.dst.value.ip == j ==> Allowed(MessageOf(d), self, j, strict)
  }

  /** Nothing `n` may yet send to `j`, deliver or hold back makes `j` pay itself. */
  ghost predicate Spares(n: Node, j: Ip, strict: bool) {
    && (forall d :: d in n.app.pending ==> Harmless(d, n.cfg.self, j, strict))
    && (forall m :: m in At(n.peers, j).sent ==> Allowed(m, n.cfg.self, j, strict))
    && (n.cfg.self == j ==> SparesRecorded(n.ctrl.channels, j, strict))
  }

  ghost predicate SparesRecorded(channels: map<Ip, seq<Rec>>, j: Ip, strict: bool) {
    && (strict ==> j !in channels)
    && (forall k, r :: k in channels && r in channels[k] ==> !Names(r.msg, j, strict))
  }

  /** A message from `from` that the app of `self` may be handed. */
  predicate Hearable(m: Message, from: Ip, self: Ip, j: Ip, strict: bool) {
    self == j ==> !Names(m, j, strict) && (strict ==> from != j)
  }

  // ---------- Parts of a callback ----------

  lemma ReceiveSpares(a: App, from: Ip, m: Message, self: Ip, j: Ip, strict: bool)
    requires Hearable(m, from, self, j, strict)
    requires forall d :: d in a.pending ==> Harmless(d, self, j, strict)
    ensures forall d :: d in a.Receive(from, m).pending ==> Harmless(d, self, j, strict)
  {
  }

  lemma ForwardSpares(n: Node, d: Datagram, j: Ip, strict: bool)
    requires Spares(n, j, strict) && Harmless(d, n.cfg.self, j, strict)
    ensures Spares(Forward(n, d), j, strict)
  {
    var r := Forward(n, d);
    forall m | m in At(r.peers, j).sent ensures Allowed(m, n.cfg.self, j, strict) {
      assert m in At(n.peers, j).sent || (d.dst.Some? && d.dst.value.ip == j && m == MessageOf(d));
    }
  }

  lemma PopSpares(n: Node, j: Ip, strict: bool)
    requires Spares(n, j, strict) && n.app.pending != []
    ensures Spares(Pop(n), j, strict) && Harmless(n.app.pending[0], n.cfg.self, j, strict)
  {
  }

  lemma {:induction false} DrainSpares(n: Node, j: Ip, strict: bool)
    requires Spares(n, j, strict)
    ensures Spares(Drain(n), j, strict)
    decreases |n.app.pending|
  {
    if n.app.pending != [] {
      PopSpares(n, j, strict);
      ForwardSpares(Pop(n), n.app.pending[0], j, strict);
      DrainSpares(Forward(Pop(n), n.app.pending[0]), j, strict);
    }
  }

  lemma SendMarkerSpares(n: Node, k: Ip, id: SnapshotId, j: Ip, strict: bool)
    requires Spares(n, j, strict) && k != n.cfg.self
    ensures Spares(SendData(n, k, MarkerMessage(id)), j, strict)
  {
    var r := SendData(n, k, MarkerMessage(id));
    forall m | m in At(r.peers, j).sent ensures Allowed(m, n.cfg.self, j, strict) {
      assert m in At(n.peers, j).sent || (k == j && m == MarkerMessage(id));
    }
  }

  lemma {:induction false} BroadcastSpares(n: Node, ks: seq<Ip>, id: SnapshotId, j: Ip, strict: bool)
    requires Spares(n, j, strict) && n.cfg.self !in ks
    ensures Spares(Broadcast(n, ks, id), j, strict)
    decreases |ks|
  {
    if ks != [] {
      var n1 := SendData(n, ks[0], MarkerMessage(id));
      SendMarkerSpares(n, ks[0], id, j, strict);
      var n2 := n1.(ctrl := n1.ctrl.(sendCut := n1.ctrl.sendCut[ks[0] := |At(n1.peers, ks[0]).sent|]));
      BroadcastSpares(n2, ks[1..], id, j, strict);
    }
  }

  lemma ToAppSpares(n: Node, from: Ip, m: Message, j: Ip, strict: bool)
    requires Spares(n, j, strict) && Hearable(m, from, n.cfg.self, j, strict)
    ensures Spares(ToApp(n, from, m), j, strict)
  {
    ReceiveSpares(n.app, from, m, n.cfg.self, j, strict);
  }

  lemma SameSpares(n: Node, r: Node, j: Ip, strict: bool)
    requires Spares(n, j, strict) && r.cfg == n.cfg && r.app.pending == n.app.pending
    requires At(r.peers, j).sent == At(n.peers, j).sent
    requires n.cfg.self == j ==> SparesRecorded(r.ctrl.channels, j, strict)
    ensures Spares(r, j, strict)
  {
  }

  lemma DeliverSpares(n: Node, from: Ip, sn: nat, m: Message, j: Ip, strict: bool)
    requires Spares(n, j, strict) && Hearable(m, from, n.cfg.self, j, strict)
    ensures Spares(Sidecar.Deliver(n, from, sn, m), j, strict)
  {
    ToAppSpares(n, from, m, j, strict);
    SameSpares(ToApp(n, from, m), Sidecar.Deliver(n, from, sn, m), j, strict);
  }

  lemma {:induction false} DeliverAllSpares(n: Node, from: Ip, rs: seq<Rec>, j: Ip, strict: bool)
    requires Spares(n, j, strict) && forall r :: r in rs ==> Hearable(r.msg, from, n.cfg.self, j, strict)
    requires !n.ctrl.active && PlainChannels(n.ctrl.channels) && PlainRecords(rs)
    ensures Spares(DeliverAll(n, from, rs), j, strict)
    decreases |rs|
  {
    if rs != [] {
      ReplayDelivers(n, from, rs[0].sn, rs[0].msg);
      DeliverSpares(n, from, rs[0].sn, rs[0].msg, j, strict);
      DeliverAllSpares(Sidecar.Deliver(n, from, rs[0].sn, rs[0].msg), from, rs[1..], j, strict);
    }
  }

  lemma {:induction false} ReplaySpares(n: Node, channels: map<Ip, seq<Rec>>, ks: seq<Ip>, j: Ip, strict: bool)
    requires Spares(n, j, strict) && (n.cfg.self == j ==> SparesRecorded(channels, j, strict))
    requires !n.ctrl.active && PlainChannels(n.ctrl.channels) && PlainChannels(channels)
    requires forall k :: k in channels ==> Ascending(channels[k])
    ensures Spares(Replay(n, channels, ks), j, strict)
    decreases |ks|
  {
    if ks != [] {
      if ks[0] in channels {
        SortIdentity(channels[ks[0]]);
        DeliverAllSpares(n, ks[0], channels[ks[0]], j, strict);
        ReplaySpares(DeliverAll(n, ks[0], SortBySeq(channels[ks[0]])), channels, ks[1..], j, strict);
      } else {
        ReplaySpares(n, channels, ks[1..], j, strict);
      }
    }
  }

  lemma FinishSpares(n: Node, status: Status, j: Ip, strict: bool)
    requires Spares(n, j, strict) && PlainChannels(n.ctrl.channels)
    requires forall k :: k in n.ctrl.channels ==> Ascending(n.ctrl.channels[k])
    ensures Spares(Finish(n, status), j, strict)
  {
    var n1 := Post(n, BuildArtifact(n.ctrl, status));
    var n2 := n1.(ctrl := IDLE.(channels := n.ctrl.channels));
    SameSpares(n, n2, j, strict);
    ReplaySpares(n2, n.ctrl.channels, n.cfg.order, j, strict);
    var r := Replay(n2, n.ctrl.channels, n.cfg.order);
    assert Finish(n, status) == r.(ctrl := IDLE);
    SameSpares(r, r.(ctrl := IDLE), j, strict);
  }

  lemma CutSpares(n: Node, remote: Ip, id: SnapshotId, j: Ip, strict: bool)
    requires Spares(n, j, strict)
    ensures Spares(Cut(n, remote, id), j, strict) && Cut(n, remote, id).cfg == n.cfg
  {
    var recording := SetOf(Others(n.cfg.mesh, n.cfg.self)) - {remote};
    var n0 := n.(ctrl := Controller(true, Some(id), recording, map[], map[], map[], map[]));
    SameSpares(n, n0, j, strict);
    DrainSpares(n0, j, strict);
    SameSpares(Drain(n0), Cut(n, remote, id), j, strict);
  }

  lemma BeginSpares(n: Node, remote: Ip, sn: nat, id: SnapshotId, j: Ip, strict: bool)
    requires Spares(n, j, strict) && ValidConfig(n.cfg)
    ensures Spares(Begin(n, remote, sn, id), j, strict)
  {
    var c := Cut(n, remote, id);
    var members := Others(n.cfg.mesh, n.cfg.self);
    CutSpares(n, remote, id, j, strict);
    BroadcastSpares(c, members, id, j, strict);
    BeginTables(n, remote, sn, id);
    var b := Begin(n, remote, sn, id);
    QuietSpares(b.ctrl, n.cfg.self, j, strict) by {
      assert n.cfg.self !in Peers(n.cfg);
    }
    SameSpares(Broadcast(c, members, id), b, j, strict);
  }

  lemma QuietSpares(c: Controller, self: Ip, j: Ip, strict: bool)
    requires (forall k :: ChannelOf(c, k) == []) && self !in c.channels
    ensures self == j ==> SparesRecorded(c.channels, j, strict)
  {
    forall k | k in c.channels ensures c.channels[k] == [] {
      assert ChannelOf(c, k) == [];
    }
  }

  lemma InitiateSpares(n: Node, remote: Ip, sn: nat, id: SnapshotId, j: Ip, strict: bool)
    requires Spares(n, j, strict) && ValidConfig(n.cfg)
    ensures Spares(Initiate(n, remote, sn, id), j, strict)
  {
    var b := Begin(n, remote, sn, id);
    BeginSpares(n, remote, sn, id, j, strict);
    BeginTables(n, remote, sn, id);
    if b.ctrl.recording == {} {
      AllQuiet(b.ctrl);
      FinishSpares(b, Complete, j, strict);
    }
  }

  lemma RecordSpares(n: Node, i: Ip, rec: Rec, r: Node, j: Ip, strict: bool)
    requires Spares(n, j, strict) && Hearable(rec.msg, i, n.cfg.self, j, strict)
    requires r == n.(ctrl := n.ctrl.(channels := n.ctrl.channels[i := ChannelOf(n.ctrl, i) + [rec]]))
    ensures Spares(r, j, strict)
  {
    if n.cfg.self == j {
      forall k, x | k in r.ctrl.channels && x in r.ctrl.channels[k] ensures !Names(x.msg, j, strict) {
        assert x == rec || (k in n.ctrl.channels && x in n.ctrl.channels[k]);
      }
    }
  }

  lemma KeepSpares(n: Node, i: Ip, m: Message, j: Ip, strict: bool)
    requires Spares(n, j, strict) && Hearable(m, i, n.cfg.self, j, strict)
    ensures Spares(Keep(n, i, m), j, strict)
  {
    if !m.payload.Marker? {
      if n.ctrl.active && i in n.ctrl.recording {
        RecordSpares(n, i, Rec(|At(n.peers, i).got|, m), Keep(n, i, m), j, strict);
      } else {
        DeliverSpares(n, i, |At(n.peers, i).got|, m, j, strict);
      }
    }
  }

  lemma AppendSpares(n: Node, i: Ip, m: Message, j: Ip, strict: bool)
    requires Spares(n, j, strict)
    ensures Spares(Append(n, i, m), j, strict)
  {
    SameSpares(n, Append(n, i, m), j, strict);
  }

  lemma TakeSpares(n: Node, i: Ip, m: Message, j: Ip, strict: bool)
    requires NodeInv(n) && PlainChannels(n.ctrl.channels)
    requires Spares(n, j, strict) && Hearable(m, i, n.cfg.self, j, strict)
    ensures Spares(Take(n, i, m), j, strict)
  {
    TakeCases(n, i, m);
    var sn := |At(n.peers, i).got|;
    if Stays(n, i, m) {
      KeepSpares(n, i, m, j, strict);
      AppendSpares(Keep(n, i, m), i, m, j, strict);
    } else if !n.ctrl.active {
      InitiateSpares(n, i, sn, m.payload.id, j, strict);
      AppendSpares(Initiate(n, i, sn, m.payload.id), i, m, j, strict);
    } else {
      var n1 := n.(ctrl := Close(n.ctrl, i, sn));
      InvShape(n);
      SameSpares(n, n1, j, strict);
      FinishSpares(n1, Complete, j, strict);
      AppendSpares(if n.ctrl.recording == {i} then Finish(n1, Complete) else n1, i, m, j, strict);
    }
  }

  /** Everything on the log of `i` may be heard. */
  ghost predicate HearableLog(log: seq<Message>, i: Ip, self: Ip, j: Ip, strict: bool) {
    forall m :: m in log ==> Hearable(m, i, self, j, strict)
  }

  lemma {:induction false} UnbufferSpares(n: Node, i: Ip, log: seq<Message>, j: Ip, strict: bool)
    requires NodeInv(n) && PlainChannels(n.ctrl.channels) && UnbufferedElsewhere(n, i)
    requires Fed(At(n.peers, i), log) && HearableLog(log, i, n.cfg.self, j, strict) && Spares(n, j, strict)
    ensures Spares(Unbuffer(n, i), j, strict)
    decreases |At(n.peers, i).buffer|
  {
    var p := At(n.peers, i);
    if |p.got| in p.buffer {
      var m := p.buffer[|p.got|];
      var n1 := PopBuffer(n, i);
      var n2 := Take(n1, i, m);
      assert m in log;
      PopBufferInv(n, i);
      SameSpares(n, n1, j, strict);
      TakeInv(n1, i, m);
      TakeSpares(n1, i, m, j, strict);
      TakeLinks(n1, i, m);
      PopTakeMoves(n, i, log);
      PopElsewhere(n, i);
      TakeElsewhere(n1, i, m);
      UnbufferSpares(n2, i, log, j, strict);
    }
  }

  lemma InOrderSpares(n: Node, src: Ip, m: Message, log: seq<Message>, j: Ip, strict: bool)
    requires Steady(n) && PlainChannels(n.ctrl.channels) && Spares(n, j, strict)
    requires Fed(At(n.peers, src), log) && HearableLog(log, src, n.cfg.self, j, strict)
    requires |At(n.peers, src).got| < |log| && log[|At(n.peers, src).got|] == m
    ensures Spares(Unbuffer(Take(n, src, m), src), j, strict)
  {
    assert m in log;
    TakeInv(n, src, m);
    TakeSpares(n, src, m, j, strict);
    TakeLinks(n, src, m);
    TakeElsewhere(n, src, m);
    UnbufferSpares(Take(n, src, m), src, log, j, strict);
  }

  lemma DataSpares(n: Node, src: Ip, sn: nat, m: Message, log: seq<Message>, j: Ip, strict: bool)
    requires Steady(n) && PlainChannels(n.ctrl.channels) && Spares(n, j, strict)
    requires Fed(At(n.peers, src), log) && HearableLog(log, src, n.cfg.self, j, strict) && sn < |log| && log[sn] == m
    ensures Spares(Receive(n, src, Data(sn, m)), j, strict)
  {
    if sn == |At(n.peers, src).got| {
      var n1 := Acknowledge(n, src, sn);
      AcknowledgeInv(n, src, sn);
      SameSpares(n, n1, j, strict);
      InOrderSpares(n1, src, m, log, j, strict);
    } else {
      DataWaits(n, src, sn, m);
      SameSpares(n, Receive(n, src, Data(sn, m)), j, strict);
    }
  }

  lemma StartSpares(n: Node, j: Ip, strict: bool)
    requires Steady(n) && PlainChannels(n.ctrl.channels) && n.app.pending != [] && Spares(n, j, strict)
    ensures Spares(Intercept(n), j, strict)
  {
    var d := n.app.pending[0];
    PopSpares(n, j, strict);
    if d.payload.Start? {
      AsideSteady(n, Pop(n));
      StartCases(Pop(n), d.payload.id);
      if !n.ctrl.active {
        InitiateSpares(Pop(n), LOCALHOST, 0, d.payload.id, j, strict);
      }
    } else {
      ForwardSpares(Pop(n), d, j, strict);
    }
  }

  /** An event that no frame brings. */
  lemma LocalSpares(n: Node, e: Event, j: Ip, strict: bool)
    requires Steady(n) && PlainChannels(n.ctrl.channels) && Spares(n, j, strict) && !e.Arrive?
    requires e.LocalSend? ==> Harmless(e.datagram, n.cfg.self, j, strict)
    ensures Spares(React(n, e), j, strict)
  {
    match e
    case Intercepted =>
      if n.app.pending != [] {
        StartSpares(n, j, strict);
      }
    case TimedOut =>
      if n.ctrl.active {
        InvShape(n);
        FinishSpares(n, Aborted, j, strict);
      }
    case Resend(_, _) => SameSpares(n, React(n, e), j, strict);
    case LocalSend(_) =>
    case HostChange(_, _) => SameSpares(n, React(n, e), j, strict);
    case Arrive(_, _) =>
  }

  // ---------- Runs ----------

  /** The action brings `j` an order to pay itself, or, if strict, makes a process at `j` address `j`. */
  predicate Bids(a: Action, j: Ip, strict: bool) {
    match a
    case Local(k, LocalSend(d)) =>
      d.dst.Some? && d.dst.value.ip == j && (Names(MessageOf(d), j, strict) || (strict && k == j))
    case Outside(k, _, m) => k == j && Names(m, j, strict)
    case _ => false
  }

  ghost predicate NeverBids(run: seq<Action>, j: Ip, strict: bool) {
    forall x :: 0 <= x < |run| ==> !Bids(run[x], j, strict)
  }

  ghost predicate AllSpare(s: System, j: Ip, strict: bool) {
    forall k :: k in s.nodes ==> Spares(s.nodes[k], j, strict)
  }

  lemma PutSpares(s: System, k: Ip, r: Node, net: multiset<Packet>, j: Ip, strict: bool)
    requires AllSpare(s, j, strict) && k in s.nodes && Spares(r, j, strict)
    ensures AllSpare(Put(s, k, r, net), j, strict)
  {
    SameSpares(r, r.(tunnel := []), j, strict);
  }

  /** Whatever another member has sent to `k` may be heard there. */
  lemma LogHearable(s: System, i: Ip, k: Ip, j: Ip, strict: bool)
    requires Inv(s) && AllSpare(s, j, strict) && i in s.nodes && k in s.nodes
    ensures HearableLog(Link(s, i, k).sent, i, k, j, strict)
  {
    assert MemberInv(s, i) && Spares(s.nodes[i], j, strict);
  }

  lemma DeliverDataSpares(s: System, p: Packet, j: Ip, strict: bool)
    requires Inv(s) && Enabled(s, Action.Deliver(p)) && p.frame.Data? && AllSpare(s, j, strict)
    ensures Spares(React(s.nodes[p.dst], Arrive(p.src, p.frame)), j, strict)
  {
    assert PacketInv(s, p) && MemberInv(s, p.dst);
    LinkOf(s, p.src, p.dst);
    LogHearable(s, p.src, p.dst, j, strict);
    DataSpares(s.nodes[p.dst], p.src, p.frame.sn, p.frame.msg, Link(s, p.src, p.dst).sent, j, strict);
  }

  lemma DeliverAckSpares(s: System, p: Packet, j: Ip, strict: bool)
    requires Inv(s) && Enabled(s, Action.Deliver(p)) && p.frame.Ack? && AllSpare(s, j, strict)
    ensures Spares(React(s.nodes[p.dst], Arrive(p.src, p.frame)), j, strict)
  {
    var n := s.nodes[p.dst];
    assert MemberInv(s, p.dst);
    AckHeeds(n, p.src, p.frame.sn);
    AckAside(n, p.src, p.frame.sn);
    SameSpares(n, React(n, Arrive(p.src, p.frame)), j, strict);
  }

  lemma AckAside(n: Node, src: Ip, sn: nat)
    requires PlainChannels(n.ctrl.channels)
    ensures var r := Receive(n, src, Frame.Ack(sn)); r.ctrl == n.ctrl && r.app == n.app
  {
  }

  lemma OutsideSpares(s: System, k: Ip, from: Ip, m: Message, j: Ip, strict: bool)
    requires Inv(s) && Enabled(s, Outside(k, from, m)) && AllSpare(s, j, strict) && !Bids(Outside(k, from, m), j, strict)
    ensures Spares(React(s.nodes[k], Arrive(from, Frame.Plain(m))), j, strict)
  {
    var n := s.nodes[k];
    var n0 := GetPeer(n, from);
    assert MemberInv(s, k) && k in SetOf(s.mesh);
    SameSpares(n, n0, j, strict);
    ToAppSpares(n0, from, m, j, strict);
  }

  lemma ApplySpares(s: System, a: Action, j: Ip, strict: bool)
    requires Inv(s) && Enabled(s, a) && AllSpare(s, j, strict) && !Bids(a, j, strict)
    ensures AllSpare(Apply(s, a), j, strict)
  {
    match a
    case Local(k, e) =>
      assert MemberInv(s, k);
      LocalSpares(s.nodes[k], e, j, strict);
      PutSpares(s, k, React(s.nodes[k], e), s.net, j, strict);
    case Outside(k, from, m) =>
      OutsideSpares(s, k, from, m, j, strict);
      PutSpares(s, k, React(s.nodes[k], Arrive(from, Frame.Plain(m))), s.net, j, strict);
    case Deliver(p) =>
      assert PacketInv(s, p);
      if p.frame.Data? {
        DeliverDataSpares(s, p, j, strict);
      } else {
        DeliverAckSpares(s, p, j, strict);
      }
      PutSpares(s, p.dst, React(s.nodes[p.dst], Arrive(p.src, p.frame)), s.net - multiset{p}, j, strict);
    case Lose(_) =>
    case Repeat(_) =>
  }

  /** A run that never bids `j` pay itself leaves every member so that it never will. */
  lemma {:induction false} RunSpares(s: System, run: seq<Action>, j: Ip, strict: bool)
    requires Inv(s) && Legal(s, run) && AllSpare(s, j, strict) && NeverBids(run, j, strict)
    ensures AllSpare(Run(s, run), j, strict)
    decreases |run|
  {
    if run != [] {
      ApplyKeeps(s, run[0]);
      ApplySpares(s, run[0], j, strict);
      RunSpares(Apply(s, run[0]), run[1..], j, strict);
    }
  }

  /** At start-up nobody has been told anything. */
  lemma FreshSpares(s: System, j: Ip, strict: bool)
    requires Fresh(s)
    ensures AllSpare(s, j, strict)
  {
    forall k | k in s.nodes ensures Spares(s.nodes[k], j, strict) {
      assert At(s.nodes[k].peers, j) == FRESH;
    }
  }
}
