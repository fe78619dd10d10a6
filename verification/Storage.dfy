/** What the hosts have stored before never matters: a mesh runs the same behind any earlier images and artifacts. */
module Storage {
  import opened Wrappers
  import opened Mesh
  import opened Counter
  import opened Sidecar
  import opened Bookkeeping
  import opened Callbacks
  import opened Network
  import opened Wave
  import opened WaveRun
  import opened ConsistentCut
  import opened Beginning
  import opened Restart

  datatype Store = Store(images: seq<Image>, artifacts: seq<Artifact>)

  /** The same member, on a host that had stored `e` before. */
  function Behind(n: Node, e: Store): Node {
    n.(host := n.host.(images := e.images + n.host.images, artifacts := e.artifacts + n.host.artifacts))
  }

  lemma {:induction false} DrainBehind(n: Node, e: Store)
    ensures Drain(Behind(n, e)) == Behind(Drain(n), e)
    decreases |n.app.pending|
  {
    if n.app.pending != [] {
      DrainBehind(Forward(Pop(n), n.app.pending[0]), e);
    }
  }

  lemma {:induction false} BroadcastBehind(n: Node, ks: seq<Ip>, id: SnapshotId, e: Store)
    ensures Broadcast(Behind(n, e), ks, id) == Behind(Broadcast(n, ks, id), e)
    decreases |ks|
  {
    if ks != [] {
      var n1 := SendData(n, ks[0], MarkerMessage(id));
      BroadcastBehind(n1.(ctrl := n1.ctrl.(sendCut := n1.ctrl.sendCut[ks[0] := |At(n1.peers, ks[0]).sent|])), ks[1..], id, e);
    }
  }

  lemma CheckpointBehind(n: Node, id: SnapshotId, e: Store)
    ensures Checkpoint(Behind(n, e), id) == Behind(Checkpoint(n, id), e)
  {
    var image := Image(id, n.app, n.exits, n.peers);
    assert (e.images + n.host.images) + [image] == e.images + (n.host.images + [image]);
  }

  lemma PostBehind(n: Node, a: Artifact, e: Store)
    ensures Post(Behind(n, e), a) == Behind(Post(n, a), e)
  {
    assert (e.artifacts + n.host.artifacts) + [a] == e.artifacts + (n.host.artifacts + [a]);
  }

  lemma CutBehind(n: Node, remote: Ip, id: SnapshotId, e: Store)
    ensures Cut(Behind(n, e), remote, id) == Behind(Cut(n, remote, id), e)
  {
    var recording := SetOf(Others(n.cfg.mesh, n.cfg.self)) - {remote};
    var n0 := n.(ctrl := Controller(true, Some(id), recording, map[], map[], map[], map[]));
    DrainBehind(n0, e);
    var n1 := Drain(n0);
    CheckpointBehind(n1.(ctrl := n1.ctrl.(cut := n1.peers)), id, e);
  }

  lemma BeginBehind(n: Node, remote: Ip, sn: nat, id: SnapshotId, e: Store)
    ensures Begin(Behind(n, e), remote, sn, id) == Behind(Begin(n, remote, sn, id), e)
  {
    CutBehind(n, remote, id, e);
    BroadcastBehind(Cut(n, remote, id), Others(n.cfg.mesh, n.cfg.self), id, e);
  }

  lemma {:induction false} DeliverAllBehind(n: Node, remote: Ip, rs: seq<Rec>, e: Store)
    requires !n.ctrl.active && PlainChannels(n.ctrl.channels) && PlainRecords(rs)
    ensures DeliverAll(Behind(n, e), remote, rs) == Behind(DeliverAll(n, remote, rs), e)
    decreases |rs|
  {
    if rs != [] {
      ReplayDelivers(n, remote, rs[0].sn, rs[0].msg);
      ReplayDelivers(Behind(n, e), remote, rs[0].sn, rs[0].msg);
      DeliverAllBehind(Sidecar.Deliver(n, remote, rs[0].sn, rs[0].msg), remote, rs[1..], e);
    }
  }

  lemma {:induction false} ReplayBehind(n: Node, channels: map<Ip, seq<Rec>>, ks: seq<Ip>, e: Store)
    requires !n.ctrl.active && PlainChannels(n.ctrl.channels) && PlainChannels(channels)
    ensures Replay(Behind(n, e), channels, ks) == Behind(Replay(n, channels, ks), e)
    decreases |ks|
  {
    if ks != [] {
      if ks[0] in channels {
        DeliverAllBehind(n, ks[0], SortBySeq(channels[ks[0]]), e);
        ReplayBehind(DeliverAll(n, ks[0], SortBySeq(channels[ks[0]])), channels, ks[1..], e);
      } else {
        ReplayBehind(n, channels, ks[1..], e);
      }
    }
  }

  lemma FinishBehind(n: Node, status: Status, e: Store)
    requires PlainChannels(n.ctrl.channels)
    ensures Finish(Behind(n, e), status) == Behind(Finish(n, status), e)
  {
    var a := BuildArtifact(n.ctrl, status);
    PostBehind(n, a, e);
    ReplayBehind(Post(n, a).(ctrl := IDLE.(channels := n.ctrl.channels)), n.ctrl.channels, n.cfg.order, e);
  }

  lemma InitiateBehind(n: Node, remote: Ip, sn: nat, id: SnapshotId, e: Store)
    ensures Initiate(Behind(n, e), remote, sn, id) == Behind(Initiate(n, remote, sn, id), e)
  {
    BeginBehind(n, remote, sn, id, e);
    if Begin(n, remote, sn, id).ctrl.recording == {} {
      FinishBehind(Begin(n, remote, sn, id), Complete, e);
    }
  }

  lemma ProcessBehind(n: Node, remote: Ip, sn: nat, m: Message, e: Store)
    requires PlainChannels(n.ctrl.channels)
    ensures ProcessMessage(Behind(n, e), remote, sn, m) == Behind(ProcessMessage(n, remote, sn, m), e)
  {
    if m.payload.Marker? {
      if !n.ctrl.active {
        InitiateBehind(n, remote, sn, m.payload.id, e);
      } else if n.ctrl.id == Some(m.payload.id) && remote in n.ctrl.recording {
        var n1 := n.(ctrl := Close(n.ctrl, remote, sn));
        FinishBehind(n1, Complete, e);
      }
    }
  }

  lemma TakeBehind(n: Node, i: Ip, m: Message, e: Store)
    requires PlainChannels(n.ctrl.channels)
    ensures Take(Behind(n, e), i, m) == Behind(Take(n, i, m), e)
  {
    ProcessBehind(n, i, |At(n.peers, i).got|, m, e);
  }

  lemma {:induction false} UnbufferBehind(n: Node, i: Ip, e: Store)
    requires PlainChannels(n.ctrl.channels)
    ensures Unbuffer(Behind(n, e), i) == Behind(Unbuffer(n, i), e)
    decreases |At(n.peers, i).buffer|
  {
    var p := At(n.peers, i);
    if |p.got| in p.buffer {
      TakeBehind(PopBuffer(n, i), i, p.buffer[|p.got|], e);
      TakeLinks(PopBuffer(n, i), i, p.buffer[|p.got|]);
      UnbufferBehind(Take(PopBuffer(n, i), i, p.buffer[|p.got|]), i, e);
    }
  }

  lemma ReceiveBehind(n: Node, src: Ip, frame: Frame<Payload>, e: Store)
    requires PlainChannels(n.ctrl.channels)
    ensures Receive(Behind(n, e), src, frame) == Behind(Receive(n, src, frame), e)
  {
    if frame.Data? && frame.sn == |At(n.peers, src).got| {
      var n1 := Acknowledge(n, src, frame.sn);
      TakeBehind(n1, src, frame.msg, e);
      UnbufferBehind(Take(n1, src, frame.msg), src, e);
    }
  }

  lemma ReactBehind(n: Node, ev: Event, e: Store)
    requires PlainChannels(n.ctrl.channels)
    ensures React(Behind(n, e), ev) == Behind(React(n, ev), e)
  {
    match ev
    case Arrive(src, frame) => ReceiveBehind(n, src, frame, e);
    case Intercepted =>
      if n.app.pending != [] && n.app.pending[0].payload.Start? {
        ProcessBehind(Pop(n), LOCALHOST, 0, Msg(Marker(n.app.pending[0].payload.id), 0, 0, LOCALHOST), e);
      }
    case TimedOut =>
      if n.ctrl.active {
        FinishBehind(n, Aborted, e);
      }
    case Resend(_, _) =>
    case LocalSend(_) =>
    case HostChange(_, _) =>
  }

  // ---------- All members ----------

  function AllBehind(s: System, e: map<Ip, Store>): System
    requires s.nodes.Keys <= e.Keys
  {
    s.(nodes := map j | j in s.nodes :: Behind(s.nodes[j], e[j]))
  }

  lemma PutBehind(s: System, j: Ip, n: Node, net: multiset<Packet>, e: map<Ip, Store>)
    requires s.nodes.Keys <= e.Keys && j in s.nodes
    ensures Put(AllBehind(s, e), j, Behind(n, e[j]), net) == AllBehind(Put(s, j, n, net), e)
  {
    assert Put(AllBehind(s, e), j, Behind(n, e[j]), net).nodes == AllBehind(Put(s, j, n, net), e).nodes;
  }

  lemma FormedBehind(s: System, e: map<Ip, Store>)
    requires WellFormed(s) && s.nodes.Keys <= e.Keys
    ensures WellFormed(AllBehind(s, e))
  {
  }

  lemma EnabledBehind(s: System, a: Action, e: map<Ip, Store>)
    requires WellFormed(s) && s.nodes.Keys <= e.Keys
    ensures WellFormed(AllBehind(s, e)) && (Enabled(AllBehind(s, e), a) <==> Enabled(s, a))
  {
  }

  lemma ApplyBehind(s: System, a: Action, e: map<Ip, Store>)
    requires WellFormed(s) && Enabled(s, a) && s.nodes.Keys <= e.Keys
    ensures WellFormed(AllBehind(s, e)) && Enabled(AllBehind(s, e), a)
    ensures Apply(AllBehind(s, e), a) == AllBehind(Apply(s, a), e)
  {
    EnabledBehind(s, a, e);
    match a
    case Local(j, ev) =>
      ReactBehind(s.nodes[j], ev, e[j]);
      PutBehind(s, j, React(s.nodes[j], ev), s.net, e);
    case Outside(j, from, m) =>
      ReactBehind(s.nodes[j], Arrive(from, Frame.Plain(m)), e[j]);
      PutBehind(s, j, React(s.nodes[j], Arrive(from, Frame.Plain(m))), s.net, e);
    case Deliver(p) =>
      ReactBehind(s.nodes[p.dst], Arrive(p.src, p.frame), e[p.dst]);
      PutBehind(s, p.dst, React(s.nodes[p.dst], Arrive(p.src, p.frame)), s.net - multiset{p}, e);
    case Lose(_) =>
    case Repeat(_) =>
  }

  /**
   * A run is possible behind earlier storage if and only if it is possible without, and ends in the same apps, links and
   * controllers, with what it stored behind what was stored before.
   */
  lemma {:induction false} RunBehind(s: System, run: seq<Action>, e: map<Ip, Store>)
    requires WellFormed(s) && s.nodes.Keys <= e.Keys
    ensures WellFormed(AllBehind(s, e)) && (Legal(AllBehind(s, e), run) <==> Legal(s, run))
    ensures Legal(s, run) ==>
              Run(s, run).nodes.Keys <= e.Keys && Run(AllBehind(s, e), run) == AllBehind(Run(s, run), e)
    decreases |run|
  {
    FormedBehind(s, e);
    if run != [] {
      EnabledBehind(s, run[0], e);
      if Enabled(s, run[0]) {
        ApplyBehind(s, run[0], e);
        RunBehind(Apply(s, run[0]), run[1..], e);
      }
    }
  }

  // ---------- Later waves ----------

  /** Between waves, whatever earlier ones have stored. */
  ghost predicate ReadyAgain(s: System, w: SnapshotId) {
    && Inv(s)
    && (forall j :: j in s.nodes ==> ReadyBut(s.nodes[j], w))
    && (forall i, j :: i in s.nodes && j in s.nodes ==> OnlyWave(Link(s, i, j).sent, |Link(s, j, i).got|, w))
  }

  ghost predicate ReadyBut(n: Node, w: SnapshotId) {
    && !n.ctrl.active && n.host.checkpointUp && n.host.storeUp && !Holds(n.host.images, w)
    && forall k :: Unheard(At(n.peers, k).sent, w) && Unheard(At(n.peers, k).got, w)
  }

  function Cleared(s: System): System {
    s.(nodes := map j | j in s.nodes :: s.nodes[j].(host := Host(true, true, [], [])))
  }

  function Kept(s: System): map<Ip, Store> {
    map j | j in s.nodes :: Store(s.nodes[j].host.images, s.nodes[j].host.artifacts)
  }

  lemma ClearedNode(n: Node, w: SnapshotId)
    requires ReadyBut(n, w)
    ensures Behind(n.(host := Host(true, true, [], [])), Store(n.host.images, n.host.artifacts)) == n
    ensures ReadyNode(n.(host := Host(true, true, [], [])), w)
  {
    assert n.host.images + [] == n.host.images && n.host.artifacts + [] == n.host.artifacts;
  }

  lemma ClearedAndKept(s: System, w: SnapshotId)
    requires forall j :: j in s.nodes ==> ReadyBut(s.nodes[j], w)
    ensures s == AllBehind(Cleared(s), Kept(s)) && forall j :: j in s.nodes ==> ReadyNode(Cleared(s).nodes[j], w)
  {
    forall j | j in s.nodes
      ensures Behind(Cleared(s).nodes[j], Kept(s)[j]) == s.nodes[j] && ReadyNode(Cleared(s).nodes[j], w)
    {
      ClearedNode(s.nodes[j], w);
    }
    assert AllBehind(Cleared(s), Kept(s)).nodes == s.nodes;
  }

  /** The systems differ in nothing but what their hosts hold or accept. */
  ghost predicate SameButHosts(s: System, t: System) {
    && t.mesh == s.mesh && t.net == s.net && t.nodes.Keys == s.nodes.Keys
    && forall j :: j in s.nodes ==> t.nodes[j] == s.nodes[j].(host := t.nodes[j].host)
  }

  lemma HostMember(s: System, t: System, j: Ip)
    requires Inv(s) && SameButHosts(s, t) && j in s.nodes
    ensures MemberInv(t, j)
  {
    assert MemberInv(s, j);
    AsideSteady(s.nodes[j], t.nodes[j]);
  }

  lemma HostLink(s: System, t: System, i: Ip, j: Ip)
    requires SameButHosts(s, t) && i in s.nodes
    ensures Link(t, i, j) == Link(s, i, j)
  {
  }

  lemma HostPacket(s: System, t: System, p: Packet)
    requires PacketInv(s, p) && SameButHosts(s, t)
    ensures PacketInv(t, p)
  {
  }

  lemma HostFormed(s: System, t: System)
    requires WellFormed(s) && SameButHosts(s, t)
    ensures WellFormed(t)
  {
  }

  /** The invariant of all runs does not look at the hosts. */
  lemma HostsInv(s: System, t: System)
    requires Inv(s) && SameButHosts(s, t)
    ensures Inv(t)
  {
    HostFormed(s, t);
    forall j | j in t.nodes ensures MemberInv(t, j) {
      HostMember(s, t, j);
    }
    forall i, j | i in t.nodes && j in t.nodes ensures LinkInv(Link(t, i, j), Link(t, j, i)) {
      HostLink(s, t, i, j);
      HostLink(s, t, j, i);
      LinkOf(s, i, j);
    }
    forall p | p in t.net ensures PacketInv(t, p) {
      HostPacket(s, t, p);
    }
  }

  lemma HostsOnlyWave(s: System, t: System, w: SnapshotId)
    requires SameButHosts(s, t)
    requires forall i, j :: i in s.nodes && j in s.nodes ==> OnlyWave(Link(s, i, j).sent, |Link(s, j, i).got|, w)
    ensures forall i, j :: i in t.nodes && j in t.nodes ==> OnlyWave(Link(t, i, j).sent, |Link(t, j, i).got|, w)
  {
    forall i, j | i in t.nodes && j in t.nodes ensures OnlyWave(Link(t, i, j).sent, |Link(t, j, i).got|, w) {
      HostLink(s, t, i, j);
      HostLink(s, t, j, i);
    }
  }

  lemma ClearedIsReady(s: System, w: SnapshotId)
    requires ReadyAgain(s, w)
    ensures ReadyFor(Cleared(s), w)
  {
    var t := Cleared(s);
    HostsInv(s, t);
    ClearedAndKept(s, w);
    HostsOnlyWave(s, t, w);
  }

  // ---------- A wave known by its id ----------

  /** A checkpoint of wave `w` is stored. */
  ghost predicate Holds(images: seq<Image>, w: SnapshotId) {
    exists x :: 0 <= x < |images| && images[x].id == w
  }

  /**
   * `InWave` on hosts that may hold anything: `w` is requested at a member only while it is in progress there, or no
   * checkpoint of it is stored.
   */
  ghost predicate InNamedWave(s: System, a: Action, w: SnapshotId) {
    a.Local? && a.node in s.nodes ==>
      var n := s.nodes[a.node];
      match a.event
      case TimedOut => !n.ctrl.active
      case HostChange(c, h) => c && h
      case Intercepted => n.app.pending != [] && n.app.pending[0].payload.Start? ==>
                            n.app.pending[0].payload.id == w && (n.ctrl.active || !Holds(n.host.images, w))
      case _ => true
  }

  ghost predicate LegalNamed(s: System, run: seq<Action>, w: SnapshotId)
    requires WellFormed(s)
    decreases |run|
  {
    run == [] || (Enabled(s, run[0]) && InNamedWave(s, run[0], w) && LegalNamed(Apply(s, run[0]), run[1..], w))
  }

  lemma HoldsIsCut(n: Node, e: Store, w: SnapshotId)
    requires PhaseInv(n, w) && !Holds(e.images, w)
    ensures Holds(Behind(n, e).host.images, w) <==> IsCut(n)
  {
    var images := Behind(n, e).host.images;
    if IsCut(n) {
      assert images[|e.images|] == n.host.images[0];
    }
  }

  lemma NamedIsInWave(s: System, a: Action, e: map<Ip, Store>, w: SnapshotId)
    requires WaveSys(s, w) && s.nodes.Keys <= e.Keys && forall j :: j in s.nodes ==> !Holds(e[j].images, w)
    requires InNamedWave(AllBehind(s, e), a, w)
    ensures InWave(s, a, w)
  {
    if a.Local? && a.node in s.nodes {
      assert MemberWave(s.nodes[a.node], w);
      HoldsIsCut(s.nodes[a.node], e[a.node], w);
    }
  }

  lemma {:induction false} NamedIsWave(s: System, run: seq<Action>, e: map<Ip, Store>, w: SnapshotId)
    requires WaveSys(s, w) && s.nodes.Keys <= e.Keys && forall j :: j in s.nodes ==> !Holds(e[j].images, w)
    requires WellFormed(AllBehind(s, e)) && LegalNamed(AllBehind(s, e), run, w)
    ensures LegalWave(s, run, w)
    decreases |run|
  {
    if run != [] {
      EnabledBehind(s, run[0], e);
      NamedIsInWave(s, run[0], e, w);
      ApplyBehind(s, run[0], e);
      ApplyInWave(s, run[0], w);
      NamedIsWave(Apply(s, run[0]), run[1..], e, w);
    }
  }

  lemma {:induction false} NamedIsLegal(s: System, run: seq<Action>, w: SnapshotId)
    requires WellFormed(s) && LegalNamed(s, run, w)
    ensures Legal(s, run)
    decreases |run|
  {
    if run != [] {
      NamedIsLegal(Apply(s, run[0]), run[1..], w);
    }
  }

  /**
   * A later wave runs as the first one would on empty hosts, behind what is stored already: every result about a wave
   * that begins between waves is one about each wave of a mesh that has stored many.
   */
  lemma LaterWavesToo(s: System, run: seq<Action>, w: SnapshotId) returns (t: System, e: map<Ip, Store>)
    requires ReadyAgain(s, w) && LegalNamed(s, run, w)
    ensures ReadyFor(t, w) && t.nodes.Keys <= e.Keys && s == AllBehind(t, e) && t.mesh == s.mesh
    ensures LegalWave(t, run, w) && Legal(t, run) && Run(t, run).nodes.Keys <= e.Keys
    ensures Legal(s, run) && Run(s, run) == AllBehind(Run(t, run), e)
  {
    t, e := Cleared(s), Kept(s);
    ClearedAndKept(s, w);
    ClearedIsReady(s, w);
    ReadyBegins(t, w);
    NothingHeldBefore(s, w);
    NamedIsWave(t, run, e, w);
    LegalWaveIsLegal(t, run, w);
    RunBehind(t, run, e);
  }

  lemma NothingHeldBefore(s: System, w: SnapshotId)
    requires ReadyAgain(s, w)
    ensures forall j :: j in s.nodes ==> !Holds(Kept(s)[j].images, w)
  {
    forall j | j in s.nodes ensures !Holds(Kept(s)[j].images, w) {
      assert ReadyBut(s.nodes[j], w);
    }
  }

  lemma DoneIsIdle(n: Node, w: SnapshotId, v: SnapshotId)
    requires PhaseInv(n, w) && IsDone(n) && v != w
    ensures !n.ctrl.active && n.host.checkpointUp && n.host.storeUp && !Holds(n.host.images, v)
  {
  }

  lemma NoneIsOnly(ms: seq<Message>, lo: nat, v: SnapshotId)
    requires forall x :: lo <= x < |ms| ==> !ms[x].payload.Marker?
    ensures OnlyWave(ms, lo, v)
  {
  }

  /** A mesh in which a wave is done everywhere is ready for the next one, without a restart. */
  lemma DoneIsReadyAgain(s: System, w: SnapshotId, v: SnapshotId)
    requires WaveSys(s, w) && AllDone(s) && Unmet(s, v) && v != w
    ensures ReadyAgain(s, v)
  {
    forall j | j in s.nodes ensures ReadyBut(s.nodes[j], v) {
      Ends(s, w, j, j);
      DoneIsIdle(s.nodes[j], w, v);
    }
    forall i, j | i in s.nodes && j in s.nodes ensures OnlyWave(Link(s, i, j).sent, |Link(s, j, i).got|, v) {
      NoMarkerLeft(s, w, i, j);
      NoneIsOnly(Link(s, i, j).sent, |Link(s, j, i).got|, v);
    }
  }

  lemma BehindHolds(images: seq<Image>, more: seq<Image>, v: SnapshotId)
    requires !Holds(images, v) && !Holds(more, v)
    ensures !Holds(images + more, v)
  {
    var all := images + more;
    forall x | 0 <= x < |all| ensures all[x].id != v {
      assert all[x] == if x < |images| then images[x] else more[x - |images|];
    }
  }

  /** And so on: readiness for a wave does not depend on what else is stored, so waves may follow each other without end. */
  lemma ReadyBehind(s: System, e: map<Ip, Store>, v: SnapshotId)
    requires ReadyAgain(s, v) && s.nodes.Keys <= e.Keys && forall j :: j in s.nodes ==> !Holds(e[j].images, v)
    ensures ReadyAgain(AllBehind(s, e), v)
  {
    var t := AllBehind(s, e);
    HostsInv(s, t);
    HostsOnlyWave(s, t, v);
    forall j | j in t.nodes ensures ReadyBut(t.nodes[j], v) {
      assert ReadyBut(s.nodes[j], v);
      BehindHolds(e[j].images, s.nodes[j].host.images, v);
    }
  }
}
