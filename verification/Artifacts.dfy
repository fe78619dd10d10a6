/** What members store: a complete artifact has every coordinate, an aborted one lacks exactly those still open. */
module Artifacts {
  import opened Wrappers
  import opened Mesh
  import opened Counter
  import opened Sidecar
  import opened Bookkeeping
  import opened Callbacks
  import opened Network

  ghost predicate EveryCoordinate(a: Artifact) {
    forall k :: k in a.peers ==> a.peers[k].recvSeq.Some?
  }

  /** One entry for every other member, with the coordinate of sending, and that of receiving everywhere if complete. */
  ghost predicate WellStored(cfg: Config, a: Artifact) {
    && a.id.Some? && a.peers.Keys == Peers(cfg)
    && (forall k :: k in a.peers ==> a.peers[k].sendSeq.Some?)
    && (a.status == Complete <==> EveryCoordinate(a))
  }

  ghost predicate StoredWell(n: Node) {
    forall a :: a in n.host.artifacts ==> WellStored(n.cfg, a)
  }

  /** In every state of a wave: what would be stored now lacks the coordinates of the open channels and no others. */
  lemma ArtifactNow(n: Node, status: Status)
    requires NodeInv(n) && n.ctrl.active
    ensures var a := BuildArtifact(n.ctrl, status);
            && a.id == n.ctrl.id && a.peers.Keys == Peers(n.cfg)
            && (forall k :: k in a.peers ==>
                  && a.peers[k].sendSeq.Some?
                  && (a.peers[k].recvSeq.None? <==> k in n.ctrl.recording)
                  && a.peers[k].channel == n.ctrl.channels[k])
  {
    assert BuildArtifact(n.ctrl, status).peers.Keys == Peers(n.cfg);
  }

  lemma AbortedArtifact(n: Node)
    requires NodeInv(n) && n.ctrl.active
    ensures WellStored(n.cfg, BuildArtifact(n.ctrl, Aborted))
  {
    var a := BuildArtifact(n.ctrl, Aborted);
    ArtifactNow(n, Aborted);
    var open :| open in n.ctrl.recording;
    assert open in a.peers && a.peers[open].recvSeq.None?;
  }

  /** A controller with every table full and no channel open builds a complete artifact. */
  lemma CompleteArtifact(cfg: Config, c: Controller)
    requires c.id.Some? && c.channels.Keys == Peers(cfg) && c.sendCut.Keys == Peers(cfg) && c.recvCut.Keys == Peers(cfg)
    ensures WellStored(cfg, BuildArtifact(c, Complete))
  {
    assert BuildArtifact(c, Complete).peers.Keys == Peers(cfg);
  }

  /** Nothing new was stored, or one artifact that is in order. */
  ghost predicate StoresWell(n: Node, r: Node) {
    r.cfg == n.cfg && forall a :: a in r.host.artifacts ==> a in n.host.artifacts || WellStored(n.cfg, a)
  }

  lemma FinishStores(n: Node, status: Status)
    requires PlainChannels(n.ctrl.channels) && WellStored(n.cfg, BuildArtifact(n.ctrl, status))
    ensures StoresWell(n, Finish(n, status))
  {
  }

  lemma BeginStores(n: Node, remote: Ip, sn: nat, id: SnapshotId)
    ensures Begin(n, remote, sn, id).host.artifacts == n.host.artifacts
  {
    assert Cut(n, remote, id).host.artifacts == n.host.artifacts;
  }

  lemma InitiateStores(n: Node, remote: Ip, sn: nat, id: SnapshotId)
    requires NodeInv(n)
    ensures StoresWell(n, Initiate(n, remote, sn, id))
  {
    var b := Begin(n, remote, sn, id);
    BeginStores(n, remote, sn, id);
    BeginBegun(n, remote, sn, id);
    if b.ctrl.recording == {} {
      QuickStores(n, b, remote, sn, id);
    }
  }

  /** A wave that is over as soon as it has begun. */
  lemma QuickStores(n: Node, b: Node, remote: Ip, sn: nat, id: SnapshotId)
    requires Begun(n, b, remote, sn, id) && b.ctrl.recording == {} && PlainChannels(b.ctrl.channels)
    ensures StoresWell(b, Finish(b, Complete))
  {
    forall k | k in Peers(n.cfg) ensures k == remote {
      assert k !in b.ctrl.recording;
    }
    assert b.ctrl.recvCut.Keys == Peers(n.cfg);
    CompleteArtifact(n.cfg, b.ctrl);
    FinishStores(b, Complete);
  }

  lemma LastStores(n: Node, i: Ip, sn: nat)
    requires NodeInv(n) && n.ctrl.active && n.ctrl.recording == {i} && PlainChannels(n.ctrl.channels)
    ensures StoresWell(n, Finish(n.(ctrl := Close(n.ctrl, i, sn)), Complete))
  {
    var c := Close(n.ctrl, i, sn);
    assert c.recvCut.Keys == Peers(n.cfg);
    CompleteArtifact(n.cfg, c);
    FinishStores(n.(ctrl := c), Complete);
  }

  lemma TakeStores(n: Node, i: Ip, m: Message)
    requires NodeInv(n) && PlainChannels(n.ctrl.channels)
    ensures StoresWell(n, Take(n, i, m))
  {
    TakeCases(n, i, m);
    var sn := |At(n.peers, i).got|;
    if !Stays(n, i, m) {
      if !n.ctrl.active {
        InitiateStores(n, i, sn, m.payload.id);
      } else if n.ctrl.recording == {i} {
        LastStores(n, i, sn);
      }
    }
  }

  lemma StoresTransitive(n: Node, q: Node, r: Node)
    requires StoresWell(n, q) && StoresWell(q, r)
    ensures StoresWell(n, r)
  {
  }

  lemma {:induction false} UnbufferStores(n: Node, i: Ip)
    requires NodeInv(n) && PlainChannels(n.ctrl.channels) && UnbufferedElsewhere(n, i)
    ensures StoresWell(n, Unbuffer(n, i))
    decreases |At(n.peers, i).buffer|
  {
    var p := At(n.peers, i);
    if |p.got| in p.buffer {
      var n1 := PopBuffer(n, i);
      var m := p.buffer[|p.got|];
      var n2 := Take(n1, i, m);
      PopBufferInv(n, i);
      TakeInv(n1, i, m);
      TakeStores(n1, i, m);
      TakeLinks(n1, i, m);
      PopElsewhere(n, i);
      TakeElsewhere(n1, i, m);
      UnbufferStores(n2, i);
      StoresTransitive(n1, n2, Unbuffer(n2, i));
    }
  }

  lemma DataStores(n: Node, src: Ip, sn: nat, m: Message)
    requires Steady(n) && PlainChannels(n.ctrl.channels)
    ensures StoresWell(n, Receive(n, src, Data(sn, m)))
  {
    if sn == |At(n.peers, src).got| {
      var n1 := Acknowledge(n, src, sn);
      AcknowledgeInv(n, src, sn);
      TakeInv(n1, src, m);
      TakeStores(n1, src, m);
      TakeLinks(n1, src, m);
      TakeElsewhere(n1, src, m);
      UnbufferStores(Take(n1, src, m), src);
      StoresTransitive(n1, Take(n1, src, m), Unbuffer(Take(n1, src, m), src));
    } else {
      DataWaits(n, src, sn, m);
    }
  }

  lemma StartStores(n: Node)
    requires Steady(n) && PlainChannels(n.ctrl.channels) && n.app.pending != []
    ensures StoresWell(n, Intercept(n))
  {
    var d := n.app.pending[0];
    if d.payload.Start? {
      AsideSteady(n, Pop(n));
      StartCases(Pop(n), d.payload.id);
      if !n.ctrl.active {
        InitiateStores(Pop(n), LOCALHOST, 0, d.payload.id);
      }
    }
  }

  /** Whatever happens at a member, it stores only artifacts in order. */
  lemma ReactStores(n: Node, e: Event)
    requires Steady(n) && PlainChannels(n.ctrl.channels)
    ensures StoresWell(n, React(n, e))
  {
    match e
    case Arrive(src, frame) =>
      if frame.Data? {
        DataStores(n, src, frame.sn, frame.msg);
      }
    case Intercepted =>
      if n.app.pending != [] {
        StartStores(n);
      }
    case TimedOut =>
      if n.ctrl.active {
        AbortedArtifact(n);
        FinishStores(n, Aborted);
      }
    case Resend(_, _) =>
    case LocalSend(_) =>
    case HostChange(_, _) =>
  }

  ghost predicate AllStoredWell(s: System) {
    forall j :: j in s.nodes ==> StoredWell(s.nodes[j])
  }

  lemma PutStores(s: System, j: Ip, e: Event, net: multiset<Packet>)
    requires Inv(s) && j in s.nodes && AllStoredWell(s)
    ensures AllStoredWell(Put(s, j, React(s.nodes[j], e), net))
  {
    assert MemberInv(s, j);
    ReactStores(s.nodes[j], e);
  }

  lemma ApplyStoresWell(s: System, a: Action)
    requires Inv(s) && Enabled(s, a) && AllStoredWell(s)
    ensures AllStoredWell(Apply(s, a))
  {
    match a
    case Local(j, e) => PutStores(s, j, e, s.net);
    case Outside(j, from, m) => PutStores(s, j, Arrive(from, Frame.Plain(m)), s.net);
    case Deliver(p) => PutStores(s, p.dst, Arrive(p.src, p.frame), s.net - multiset{p});
    case Lose(_) =>
    case Repeat(_) =>
  }

  /** In every run, with overlapping, stale and aborted waves, "complete" means that no coordinate is missing. */
  lemma {:induction false} RunStoresWell(s: System, run: seq<Action>)
    requires Inv(s) && Legal(s, run) && AllStoredWell(s)
    ensures AllStoredWell(Run(s, run))
    decreases |run|
  {
    if run != [] {
      ApplyKeeps(s, run[0]);
      ApplyStoresWell(s, run[0]);
      RunStoresWell(Apply(s, run[0]), run[1..]);
    }
  }

  // ---------- When a member is cut ----------

  lemma CutImages(n: Node, remote: Ip, sn: nat, id: SnapshotId)
    requires PlainChannels(n.ctrl.channels)
    ensures |Initiate(n, remote, sn, id).host.images| == |n.host.images| + (if n.host.checkpointUp then 1 else 0)
  {
    var c := Cut(n, remote, id);
    assert |c.host.images| == |n.host.images| + (if n.host.checkpointUp then 1 else 0);
    assert Begin(n, remote, sn, id).host == c.host;
  }

  /** Taking in a message checkpoints the app if and only if it is a marker, no wave is in progress here, and the host accepts. */
  lemma TakeCuts(n: Node, i: Ip, m: Message)
    requires PlainChannels(n.ctrl.channels)
    ensures |Take(n, i, m).host.images| ==
            |n.host.images| + (if m.payload.Marker? && !n.ctrl.active && n.host.checkpointUp then 1 else 0)
  {
    TakeCases(n, i, m);
    if !Stays(n, i, m) && !n.ctrl.active {
      CutImages(n, i, |At(n.peers, i).got|, m.payload.id);
    }
  }

  /** A marker of a wave that was aborted here starts that wave anew: without timeouts a cut is unique, with one it is not. */
  lemma LateMarkerCutsAgain(n: Node, k: Ip, w: SnapshotId)
    requires Steady(n) && PlainChannels(n.ctrl.channels) && n.ctrl.active && n.ctrl.id == Some(w) && n.host.checkpointUp
    ensures var r := Take(Timeout(n), k, MarkerMessage(w));
            |r.host.images| == |n.host.images| + 1 && n.host.images < r.host.images
  {
    TakeCuts(Timeout(n), k, MarkerMessage(w));
  }

  // ---------- What is stored, and when ----------

  /** The artifact says what the tables of `c` say: no receive coordinate for an open channel, and everything else. */
  ghost predicate Says(a: Artifact, cfg: Config, c: Controller, status: Status) {
    && a.id == c.id && a.status == status && a.peers.Keys == Peers(cfg)
    && forall k :: k in a.peers ==>
         && k in c.sendCut && a.peers[k].sendSeq == Some(c.sendCut[k])
         && k in c.channels && a.peers[k].channel == c.channels[k]
         && if k in c.recording then a.peers[k].recvSeq == None
            else k in c.recvCut && a.peers[k].recvSeq == Some(c.recvCut[k])
  }

  /** One artifact more at a host that accepts it, and none at a host that does not. */
  ghost predicate StoresOne(n: Node, r: Node, c: Controller, status: Status) {
    if n.host.storeUp then
      && |r.host.artifacts| == |n.host.artifacts| + 1
      && r.host.artifacts[..|n.host.artifacts|] == n.host.artifacts
      && Says(r.host.artifacts[|n.host.artifacts|], n.cfg, c, status)
    else
      r.host.artifacts == n.host.artifacts
  }

  ghost predicate TablesFull(cfg: Config, c: Controller) {
    && c.sendCut.Keys == Peers(cfg) && c.channels.Keys == Peers(cfg)
    && c.recording <= Peers(cfg) && c.recvCut.Keys == Peers(cfg) - c.recording
  }

  lemma FinishStoresOne(n: Node, c: Controller, status: Status)
    requires PlainChannels(c.channels) && TablesFull(n.cfg, c)
    ensures var r := Finish(n.(ctrl := c), status);
            StoresOne(n, r, c, status) && r.ctrl == IDLE && r.host.images == n.host.images
  {
    var a := BuildArtifact(c, status);
    assert a.peers.Keys == Peers(n.cfg);
    assert Says(a, n.cfg, c, status);
  }

  /**
   * A due timeout ends the wave: the aborted artifact is stored, with the coordinates of receiving missing for exactly
   * the channels still open, and the controller is idle. A member without a wave is not concerned.
   */
  lemma TimeoutStores(n: Node)
    requires NodeInv(n) && PlainChannels(n.ctrl.channels)
    ensures var r := Timeout(n);
            && r.ctrl == IDLE && r.host.images == n.host.images
            && (n.ctrl.active ==> StoresOne(n, r, n.ctrl, Aborted))
            && (!n.ctrl.active ==> r == n)
  {
    if n.ctrl.active {
      FinishStoresOne(n, n.ctrl, Aborted);
      assert n.(ctrl := n.ctrl) == n;
    }
  }

  /** The marker that closes the last open channel. */
  ghost predicate Completes(n: Node, i: Ip, m: Message) {
    && m.payload.Marker? && n.ctrl.active && n.ctrl.id == Some(m.payload.id) && n.ctrl.recording == {i}
  }

  /** The first marker of a wave, at a member that has no other channel to record. */
  ghost predicate CompletesAtOnce(n: Node, i: Ip, m: Message) {
    m.payload.Marker? && !n.ctrl.active && Peers(n.cfg) <= {i}
  }

  /**
   * Taking in a message stores an artifact if and only if it completes the wave here, and then exactly what the tables
   * say, the last coordinate of receiving being right behind the marker.
   */
  lemma TakeStoresOne(n: Node, i: Ip, m: Message)
    requires NodeInv(n) && PlainChannels(n.ctrl.channels)
    ensures var r, sn := Take(n, i, m), |At(n.peers, i).got|;
            && (Completes(n, i, m) ==>
                  && StoresOne(n, r, n.ctrl.(recording := {}, recvCut := n.ctrl.recvCut[i := sn + 1]), Complete)
                  && r.ctrl == IDLE)
            && (CompletesAtOnce(n, i, m) ==>
                  StoresOne(n, r, Begin(n, i, sn, m.payload.id).ctrl, Complete) && r.ctrl == IDLE)
            && (!Completes(n, i, m) && !CompletesAtOnce(n, i, m) ==> r.host.artifacts == n.host.artifacts)
  {
    if Completes(n, i, m) {
      LastStoresOne(n, i, m);
    } else if CompletesAtOnce(n, i, m) {
      TakeCases(n, i, m);
      InitiateStoresOne(n, i, |At(n.peers, i).got|, m.payload.id);
    } else {
      TakeStoresNone(n, i, m);
    }
  }

  lemma LastStoresOne(n: Node, i: Ip, m: Message)
    requires NodeInv(n) && PlainChannels(n.ctrl.channels) && Completes(n, i, m)
    ensures var r, sn := Take(n, i, m), |At(n.peers, i).got|;
            StoresOne(n, r, n.ctrl.(recording := {}, recvCut := n.ctrl.recvCut[i := sn + 1]), Complete) && r.ctrl == IDLE
  {
    var c := n.ctrl.(recording := {}, recvCut := n.ctrl.recvCut[i := |At(n.peers, i).got| + 1]);
    LastTables(n.ctrl, i, |At(n.peers, i).got|, n.cfg);
    FinishStoresOne(n, c, Complete);
    LastIs(n, i, m);
  }

  lemma LastTables(c: Controller, i: Ip, sn: nat, cfg: Config)
    requires TablesInv(c, Peers(cfg)) && c.active && c.recording == {i}
    ensures TablesFull(cfg, c.(recording := {}, recvCut := c.recvCut[i := sn + 1]))
  {
    assert c.recvCut[i := sn + 1].Keys == Peers(cfg);
  }

  lemma LastIs(n: Node, i: Ip, m: Message)
    requires PlainChannels(n.ctrl.channels) && Completes(n, i, m)
    ensures var c := n.ctrl.(recording := {}, recvCut := n.ctrl.recvCut[i := |At(n.peers, i).got| + 1]);
            Take(n, i, m) == Append(Finish(n.(ctrl := c), Complete), i, m)
  {
    TakeCases(n, i, m);
    assert n.ctrl.recording - {i} == {};
  }

  lemma TakeStoresNone(n: Node, i: Ip, m: Message)
    requires NodeInv(n) && PlainChannels(n.ctrl.channels) && !Completes(n, i, m) && !CompletesAtOnce(n, i, m)
    ensures Take(n, i, m).host.artifacts == n.host.artifacts
  {
    TakeCases(n, i, m);
    if !Stays(n, i, m) && !n.ctrl.active {
      InitiateStoresOne(n, i, |At(n.peers, i).got|, m.payload.id);
    }
  }

  /** A wave begun by a lone pair, or by a member on its own, is complete at once. */
  lemma InitiateStoresOne(n: Node, remote: Ip, sn: nat, id: SnapshotId)
    requires NodeInv(n)
    ensures var b, r := Begin(n, remote, sn, id), Initiate(n, remote, sn, id);
            if Peers(n.cfg) <= {remote} then StoresOne(n, r, b.ctrl, Complete) && b.ctrl.id == Some(id) && r.ctrl == IDLE
            else r.host.artifacts == n.host.artifacts
  {
    var b := Begin(n, remote, sn, id);
    BeginBegun(n, remote, sn, id);
    BeginHost(n, remote, sn, id);
    InitiateIs(n, remote, sn, id);
    if Peers(n.cfg) <= {remote} {
      BegunStoresOne(n, b, remote, sn, id);
    } else {
      assert b.ctrl.recording != {};
    }
  }

  lemma BegunStoresOne(n: Node, b: Node, remote: Ip, sn: nat, id: SnapshotId)
    requires Begun(n, b, remote, sn, id) && b.host.storeUp == n.host.storeUp && b.host.artifacts == n.host.artifacts
    requires PlainChannels(b.ctrl.channels) && Peers(n.cfg) <= {remote}
    ensures StoresOne(n, Finish(b, Complete), b.ctrl, Complete) && Finish(b, Complete).ctrl == IDLE
  {
    FinishStoresOne(b, b.ctrl, Complete);
    assert b.(ctrl := b.ctrl) == b;
  }

  lemma BeginHost(n: Node, remote: Ip, sn: nat, id: SnapshotId)
    ensures var b := Begin(n, remote, sn, id);
            && b.host.storeUp == n.host.storeUp && b.host.artifacts == n.host.artifacts
            && PlainChannels(b.ctrl.channels)
  {
    BeginStores(n, remote, sn, id);
    assert Cut(n, remote, id).host.storeUp == n.host.storeUp;
  }
}
