/** One snapshot wave, as one member sees it: uncut, recording, or done, and where each of its channels is cut. */
module Wave {
  import opened Wrappers
  import opened Mesh
  import opened Counter
  import opened Sidecar
  import opened Bookkeeping
  import opened Callbacks
  import opened Sums
  import opened Ledger

  /** The wave's marker is in `ms` exactly where the cut coordinate says: just before it, and nowhere else. */
  ghost predicate MarkedAt(ms: seq<Message>, cut: Option<nat>, w: SnapshotId) {
    && (cut.Some? ==> 0 < cut.value <= |ms|)
    && forall x :: 0 <= x < |ms| ==> (ms[x].payload == Marker(w) <==> cut == Some(x + 1))
  }

  /** From `lo` on, the only markers are this wave's. */
  ghost predicate OnlyWave(ms: seq<Message>, lo: nat, w: SnapshotId) {
    forall x :: lo <= x < |ms| && ms[x].payload.Marker? ==> ms[x].payload == Marker(w)
  }

  predicate IsCut(n: Node) {
    n.host.images != []
  }

  predicate IsDone(n: Node) {
    n.host.artifacts != []
  }

  /** The checkpoint of this wave's cut. */
  function ImageOf(n: Node): Image
    requires IsCut(n)
  {
    n.host.images[0]
  }

  function ArtifactOf(n: Node): Artifact
    requires IsDone(n)
  {
    n.host.artifacts[0]
  }

  /** The coordinate right behind this wave's marker on the channel to `k`, while known. */
  function SendCut(n: Node, k: Ip): Option<nat> {
    if n.ctrl.active then Lookup(n.ctrl.sendCut, k)
    else if IsDone(n) && k in ArtifactOf(n).peers then ArtifactOf(n).peers[k].sendSeq
    else None
  }

  /** The coordinate right behind this wave's marker on the channel from `k`, once it was taken in. */
  function RecvCut(n: Node, k: Ip): Option<nat> {
    if n.ctrl.active then Lookup(n.ctrl.recvCut, k)
    else if IsDone(n) && k in ArtifactOf(n).peers then ArtifactOf(n).peers[k].recvSeq
    else None
  }

  /** A stored channel: cut by a marker on both sides, with exactly what lay between the cuts. */
  ghost predicate StoredAt(p: Peer, c: Peer, a: PeerCut) {
    && a.sendSeq == Some(|c.sent| + 1) && c.sent <= p.sent && |c.sent| < |p.sent|
    && a.recvSeq.Some? && c.got <= p.got && |c.got| < a.recvSeq.value <= |p.got|
    && a.channel == Recorded(p.got, |c.got|, a.recvSeq.value - 1)
  }

  ghost predicate PhaseInv(n: Node, w: SnapshotId) {
    && n.host.checkpointUp && n.host.storeUp && |n.host.images| <= 1 && |n.host.artifacts| <= 1
    && (n.ctrl.active ==> n.ctrl.id == Some(w) && IsCut(n) && !IsDone(n) && n.ctrl.cut == ImageOf(n).peers)
    && (!n.ctrl.active ==> (IsCut(n) <==> IsDone(n)))
    && (IsDone(n) ==> ArtifactOf(n).id == Some(w) && ArtifactOf(n).status == Complete
                      && ArtifactOf(n).peers.Keys == Peers(n.cfg))
    && (IsCut(n) ==> ImageOf(n).id == w && ImageOf(n).app.pending == [])
  }

  /** What the checkpointed app holds, with the links as they stood, is exactly what the member's books say. */
  ghost predicate Accounted(n: Node) {
    IsCut(n) ==> Worth(n.cfg, ImageOf(n).app, ImageOf(n).exits, ImageOf(n).peers) == Balance(n)
  }

  ghost predicate WavePart(n: Node, w: SnapshotId, k: Ip) {
    var p := At(n.peers, k);
    && MarkedAt(p.sent, SendCut(n, k), w)
    && MarkedAt(p.got, RecvCut(n, k), w)
    && (IsCut(n) ==> SendsPast(At(ImageOf(n).peers, k), p) && OnlyWave(p.got, |At(ImageOf(n).peers, k).got|, w)
                     && HeardAll(At(ImageOf(n).peers, k)))
    && (IsCut(n) && IsDone(n) && k in Peers(n.cfg) ==>
          k in ArtifactOf(n).peers && StoredAt(p, At(ImageOf(n).peers, k), ArtifactOf(n).peers[k]))
  }

  ghost predicate SendsPast(c: Peer, p: Peer) {
    c.sent <= p.sent && c.got <= p.got
  }

  ghost predicate WaveInv(n: Node, w: SnapshotId) {
    PhaseInv(n, w) && forall k :: WavePart(n, w, k)
  }

  // ---------- Steps that leave the wave where it is ----------

  /** Sending app traffic, being acknowledged, or delivering leaves every marker where it is. */
  ghost predicate SendsNoMarker(a: Peer, b: Peer) {
    && a.sent <= b.sent && b.got == a.got
    && forall x :: |a.sent| <= x < |b.sent| ==> !b.sent[x].payload.Marker?
  }

  lemma QuietPart(n: Node, r: Node, w: SnapshotId, k: Ip)
    requires WavePart(n, w, k) && r.cfg == n.cfg && r.ctrl == n.ctrl && r.host == n.host
    requires SendsNoMarker(At(n.peers, k), At(r.peers, k))
    ensures WavePart(r, w, k)
  {
    var p, q := At(n.peers, k), At(r.peers, k);
    assert SendCut(r, k) == SendCut(n, k) && RecvCut(r, k) == RecvCut(n, k);
    assert MarkedAt(q.sent, SendCut(n, k), w);
  }

  lemma QuietWave(n: Node, r: Node, w: SnapshotId)
    requires WaveInv(n, w) && r.cfg == n.cfg && r.ctrl == n.ctrl && r.host == n.host
    requires forall k :: SendsNoMarker(At(n.peers, k), At(r.peers, k))
    ensures WaveInv(r, w)
  {
    forall k ensures WavePart(r, w, k) {
      QuietPart(n, r, w, k);
    }
  }

  /** The message may be a marker only if it is this wave's first on its channel, and then from another member. */
  ghost predicate Timely(n: Node, i: Ip, m: Message, w: SnapshotId) {
    m.payload.Marker? ==> m.payload == Marker(w) && RecvCut(n, i) == None && i in Peers(n.cfg)
  }

  lemma TimelyStays(n: Node, i: Ip, m: Message, w: SnapshotId)
    requires NodeInv(n) && WaveInv(n, w) && Timely(n, i, m, w)
    ensures Stays(n, i, m) <==> !m.payload.Marker?
    ensures m.payload.Marker? && !n.ctrl.active ==> !IsCut(n)
  {
    assert WavePart(n, w, i);
  }

  lemma KeepWave(n: Node, i: Ip, m: Message, w: SnapshotId)
    requires NodeInv(n) && WaveInv(n, w) && !m.payload.Marker?
    ensures WaveInv(Append(Keep(n, i, m), i, m), w)
  {
    var r := Append(Keep(n, i, m), i, m);
    KeepFrame(n, i, m);
    forall k ensures WavePart(r, w, k) {
      assert WavePart(n, w, k);
      AppendPart(n, r, w, i, m, k);
    }
  }

  lemma KeepFrame(n: Node, i: Ip, m: Message)
    ensures var r := Append(Keep(n, i, m), i, m);
            && r.cfg == n.cfg && r.host == n.host
            && r.ctrl == n.ctrl.(channels := r.ctrl.channels)
            && (forall k :: At(r.peers, k).sent == At(n.peers, k).sent)
            && (forall k :: At(r.peers, k).got == if k == i then At(n.peers, k).got + [m] else At(n.peers, k).got)
  {
  }

  lemma AppendPart(n: Node, r: Node, w: SnapshotId, i: Ip, m: Message, k: Ip)
    requires WavePart(n, w, k) && !m.payload.Marker?
    requires r.cfg == n.cfg && r.host == n.host && r.ctrl == n.ctrl.(channels := r.ctrl.channels)
    requires At(r.peers, k).sent == At(n.peers, k).sent
    requires At(r.peers, k).got == if k == i then At(n.peers, k).got + [m] else At(n.peers, k).got
    ensures WavePart(r, w, k)
  {
    var p, q := At(n.peers, k), At(r.peers, k);
    assert SendCut(r, k) == SendCut(n, k) && RecvCut(r, k) == RecvCut(n, k);
    if IsCut(n) && IsDone(n) && k in Peers(n.cfg) {
      StoredStays(p, At(ImageOf(n).peers, k), ArtifactOf(n).peers[k], q);
    }
  }

  /** What was stored stays right while the channel moves on. */
  lemma StoredStays(p: Peer, c: Peer, a: PeerCut, q: Peer)
    requires StoredAt(p, c, a) && p.sent <= q.sent && p.got <= q.got
    ensures StoredAt(q, c, a)
  {
    RecordedPrefix(p.got, q.got, |c.got|, a.recvSeq.value - 1);
  }

  // ---------- A marker that closes a channel ----------

  lemma MarkedAppend(ms: seq<Message>, m: Message, w: SnapshotId)
    requires MarkedAt(ms, None, w) && m.payload == Marker(w)
    ensures MarkedAt(ms + [m], Some(|ms| + 1), w)
  {
  }

  /** Any marker but the last: the channel is closed, and the wave goes on. */
  lemma CloseWave(n: Node, i: Ip, m: Message, w: SnapshotId)
    requires NodeInv(n) && WaveInv(n, w) && Timely(n, i, m, w) && m.payload.Marker? && n.ctrl.active
    ensures WaveInv(Append(n.(ctrl := Close(n.ctrl, i, |At(n.peers, i).got|)), i, m), w)
  {
    var sn := |At(n.peers, i).got|;
    var r := Append(n.(ctrl := Close(n.ctrl, i, sn)), i, m);
    forall k ensures WavePart(r, w, k) {
      assert WavePart(n, w, k);
      ClosePartWave(n, i, m, w, k);
    }
  }

  lemma ClosePartWave(n: Node, i: Ip, m: Message, w: SnapshotId, k: Ip)
    requires WavePart(n, w, k) && PhaseInv(n, w) && Timely(n, i, m, w) && m.payload.Marker? && n.ctrl.active
    ensures WavePart(Append(n.(ctrl := Close(n.ctrl, i, |At(n.peers, i).got|)), i, m), w, k)
  {
    var p := At(n.peers, k);
    var r := Append(n.(ctrl := Close(n.ctrl, i, |At(n.peers, i).got|)), i, m);
    assert SendCut(r, k) == SendCut(n, k);
    if k == i {
      MarkedAppend(p.got, m, w);
      assert At(r.peers, k) == p.(got := p.got + [m]) && RecvCut(r, k) == Some(|p.got| + 1);
    } else {
      assert At(r.peers, k) == p && RecvCut(r, k) == RecvCut(n, k);
    }
  }

  // ---------- The end of the wave ----------

  /** `r` is `n` after its artifact was stored and its controller went idle. */
  ghost predicate Stored(n: Node, r: Node) {
    && r.cfg == n.cfg && r.ctrl == IDLE
    && r.host == n.host.(artifacts := n.host.artifacts + [BuildArtifact(n.ctrl, Complete)])
    && forall k :: At(r.peers, k).sent == At(n.peers, k).sent && At(r.peers, k).got == At(n.peers, k).got
  }

  ghost predicate AllClosed(n: Node) {
    && n.ctrl.active && n.ctrl.recording == {}
    && n.ctrl.sendCut.Keys == Peers(n.cfg) && n.ctrl.recvCut.Keys == Peers(n.cfg) && n.ctrl.channels.Keys == Peers(n.cfg)
    && forall k :: PartInv(n, k)
  }

  lemma BuiltEntry(n: Node, k: Ip)
    requires AllClosed(n)
    ensures var a := BuildArtifact(n.ctrl, Complete);
            && a.peers.Keys == Peers(n.cfg)
            && (k in Peers(n.cfg) ==>
                  a.peers[k] == PeerCut(Some(n.ctrl.sendCut[k]), Some(n.ctrl.recvCut[k]), n.ctrl.channels[k]))
  {
  }

  lemma ClosedStored(n: Node, w: SnapshotId, k: Ip, q: Peer)
    requires AllClosed(n) && n.ctrl.id == Some(w) && k in Peers(n.cfg)
    requires q.sent == At(n.peers, k).sent && q.got == At(n.peers, k).got
    ensures StoredAt(q, At(n.ctrl.cut, k), PeerCut(Some(n.ctrl.sendCut[k]), Some(n.ctrl.recvCut[k]), n.ctrl.channels[k]))
  {
    assert PartInv(n, k);
    ClosedEnds(At(n.peers, k), At(n.ctrl.cut, k), n.ctrl.channels[k], n.ctrl.sendCut[k], n.ctrl.recvCut[k], w, q);
  }

  lemma ClosedEnds(p: Peer, c: Peer, channel: seq<Rec>, s: nat, r: nat, w: SnapshotId, q: Peer)
    requires CutSent(p, c, s, w) && ClosedAt(p, c, channel, r, w) && q.sent == p.sent && q.got == p.got
    ensures StoredAt(q, c, PeerCut(Some(s), Some(r), channel))
  {
  }

  lemma StoredPart(n: Node, r: Node, w: SnapshotId, k: Ip)
    requires AllClosed(n) && PhaseInv(n, w) && WavePart(n, w, k) && Stored(n, r)
    ensures WavePart(r, w, k)
  {
    BuiltEntry(n, k);
    assert At(r.peers, k).sent == At(n.peers, k).sent && At(r.peers, k).got == At(n.peers, k).got;
    assert ArtifactOf(r) == BuildArtifact(n.ctrl, Complete) && ImageOf(r) == ImageOf(n);
    assert SendCut(r, k) == SendCut(n, k) && RecvCut(r, k) == RecvCut(n, k);
    if k in Peers(n.cfg) {
      ClosedStored(n, w, k, At(r.peers, k));
    }
  }

  /** Once every channel is closed, what is stored is the whole cut, with no coordinate missing. */
  lemma StoredWave(n: Node, r: Node, w: SnapshotId)
    requires AllClosed(n) && PhaseInv(n, w) && (forall k :: WavePart(n, w, k)) && Stored(n, r)
    ensures WaveInv(r, w)
  {
    forall k ensures WavePart(r, w, k) {
      StoredPart(n, r, w, k);
    }
  }

  lemma FinishStored(n: Node)
    requires ValidConfig(n.cfg) && n.ctrl.channels.Keys <= Peers(n.cfg) && n.host.storeUp
    requires forall k :: k in n.ctrl.channels ==> PlainRecords(n.ctrl.channels[k]) && Ascending(n.ctrl.channels[k])
    ensures PlainChannels(n.ctrl.channels) && Stored(n, Finish(n, Complete))
  {
    FinishHeard(n, Complete);
  }

  lemma AppendStored(n: Node, r: Node, i: Ip, m: Message)
    requires Stored(n, r)
    ensures Stored(Append(n, i, m), Append(r, i, m))
  {
    forall k
      ensures At(Append(r, i, m).peers, k).sent == At(Append(n, i, m).peers, k).sent
      ensures At(Append(r, i, m).peers, k).got == At(Append(n, i, m).peers, k).got
    {
      assert At(r.peers, k).sent == At(n.peers, k).sent && At(r.peers, k).got == At(n.peers, k).got;
      assert At(r.peers, i).got == At(n.peers, i).got;
    }
  }

  /** The last marker: the artifact is stored and the member is done. */
  lemma LastWave(n: Node, i: Ip, m: Message, w: SnapshotId)
    requires NodeInv(n) && WaveInv(n, w) && Unbuffered(At(n.peers, i)) && PlainChannels(n.ctrl.channels)
    requires Timely(n, i, m, w) && m.payload.Marker? && n.ctrl.active && n.ctrl.recording == {i}
    ensures WaveInv(Append(Finish(n.(ctrl := Close(n.ctrl, i, |At(n.peers, i).got|)), Complete), i, m), w)
  {
    var n1 := n.(ctrl := Close(n.ctrl, i, |At(n.peers, i).got|));
    var n2 := Append(n1, i, m);
    InvShape(n);
    FinishStored(n1);
    AppendStored(n1, Finish(n1, Complete), i, m);
    LastClosed(n, i, m, w);
    CloseParts(n, i, m, w);
    StoredWave(n2, Append(Finish(n1, Complete), i, m), w);
  }

  lemma CloseParts(n: Node, i: Ip, m: Message, w: SnapshotId)
    requires WaveInv(n, w) && Timely(n, i, m, w) && m.payload.Marker? && n.ctrl.active
    ensures var r := Append(n.(ctrl := Close(n.ctrl, i, |At(n.peers, i).got|)), i, m);
            PhaseInv(r, w) && forall k :: WavePart(r, w, k)
  {
    var r := Append(n.(ctrl := Close(n.ctrl, i, |At(n.peers, i).got|)), i, m);
    forall k ensures WavePart(r, w, k) {
      assert WavePart(n, w, k);
      ClosePartWave(n, i, m, w, k);
    }
  }

  lemma LastClosed(n: Node, i: Ip, m: Message, w: SnapshotId)
    requires NodeInv(n) && WaveInv(n, w) && Unbuffered(At(n.peers, i))
    requires Timely(n, i, m, w) && m.payload.Marker? && n.ctrl.active && n.ctrl.recording == {i}
    ensures AllClosed(Append(n.(ctrl := Close(n.ctrl, i, |At(n.peers, i).got|)), i, m))
  {
    var n1 := n.(ctrl := Close(n.ctrl, i, |At(n.peers, i).got|));
    var r := Append(n1, i, m);
    assert n1.ctrl.recording == {};
    forall k ensures PartInv(r, k) {
      assert PartInv(n, k);
      if k == i {
        ClosePart(n, i, m);
      } else {
        PartSame(n, r, k);
      }
    }
  }

  // ---------- The beginning of the wave ----------

  lemma {:induction false} DrainQuiet(n: Node)
    requires SoundNode(n)
    ensures forall k :: SendsNoMarker(At(n.peers, k), At(Drain(n).peers, k))
    decreases |n.app.pending|
  {
    if n.app.pending != [] {
      var n1 := Forward(Pop(n), n.app.pending[0]);
      PopWorth(n);
      ForwardSound(Pop(n), n.app.pending[0]);
      ForwardQuiet(Pop(n), n.app.pending[0]);
      DrainQuiet(n1);
      forall k ensures SendsNoMarker(At(n.peers, k), At(Drain(n1).peers, k)) {
        assert SendsNoMarker(At(n.peers, k), At(n1.peers, k));
        assert SendsNoMarker(At(n1.peers, k), At(Drain(n1).peers, k));
      }
    }
  }

  lemma ForwardQuiet(n: Node, d: Datagram)
    requires SoundDatagram(d)
    ensures forall k :: SendsNoMarker(At(n.peers, k), At(Forward(n, d).peers, k))
  {
  }

  /** At the cut: the image holds the app and the links as they stand, and every earlier message is before the marker. */
  lemma CutWave(n: Node, remote: Ip, w: SnapshotId, k: Ip)
    requires ValidConfig(n.cfg) && SoundNode(n) && n.host.checkpointUp && n.host.images == []
    ensures var c := Cut(n, remote, w);
            && c.host == n.host.(images := [Image(w, c.app, c.exits, c.peers)])
            && c.app.pending == [] && c.ctrl.cut == c.peers && NodeWorth(c) == NodeWorth(n)
            && SendsNoMarker(At(n.peers, k), At(c.peers, k))
  {
    CutWorth(n, remote, w);
    var recording := SetOf(Others(n.cfg.mesh, n.cfg.self)) - {remote};
    DrainQuiet(n.(ctrl := Controller(true, Some(w), recording, map[], map[], map[], map[])));
  }

  /** `b` is `n` right after its cut for wave `w`. */
  ghost predicate Opened(n: Node, b: Node, w: SnapshotId) {
    && b.host.images == [Image(w, b.app, b.exits, b.ctrl.cut)]
    && b.host == n.host.(images := b.host.images)
    && b.app.pending == []
    && forall k :: SendsNoMarker(At(n.peers, k), At(b.ctrl.cut, k))
  }

  lemma BeginOpened(n: Node, remote: Ip, sn: nat, w: SnapshotId)
    requires ValidConfig(n.cfg) && SoundNode(n) && n.host.checkpointUp && n.host.images == []
    ensures var b := Begin(n, remote, sn, w);
            Opened(n, b, w) && Worth(b.cfg, b.app, b.exits, b.ctrl.cut) == NodeWorth(n)
  {
    var c, b := Cut(n, remote, w), Begin(n, remote, sn, w);
    assert b.ctrl.cut == c.ctrl.cut && b.host == c.host && b.app == c.app && b.exits == c.exits;
    forall k ensures SendsNoMarker(At(n.peers, k), At(b.ctrl.cut, k)) {
      CutWave(n, remote, w, k);
    }
    CutWave(n, remote, w, 0);
  }

  lemma OpenedSent(n: Node, b: Node, remote: Ip, sn: nat, w: SnapshotId, k: Ip)
    requires WaveInv(n, w) && !IsCut(n) && !n.ctrl.active && Begun(n, b, remote, sn, w) && Opened(n, b, w)
    ensures MarkedAt(At(b.peers, k).sent, SendCut(b, k), w)
  {
    var p, c := At(b.peers, k), At(b.ctrl.cut, k);
    assert WavePart(n, w, k) && BegunAt(n, b, k, w) && SendsNoMarker(At(n.peers, k), c);
    assert MarkedAt(At(n.peers, k).sent, None, w);
    assert MarkedAt(c.sent, None, w);
    if k in Peers(n.cfg) {
      MarkedAppend(c.sent, MarkerMessage(w), w);
    }
  }

  /** A channel the first marker did not come on, right after the cut. */
  lemma OpenedPart(n: Node, b: Node, remote: Ip, sn: nat, w: SnapshotId, k: Ip)
    requires WaveInv(n, w) && !IsCut(n) && !n.ctrl.active && Begun(n, b, remote, sn, w) && Opened(n, b, w)
    requires k != remote || remote !in Peers(n.cfg)
    requires HeardAll(At(n.peers, k))
    ensures WavePart(b, w, k)
  {
    OpenedSent(n, b, remote, sn, w, k);
    assert WavePart(n, w, k) && BegunAt(n, b, k, w);
    HeardSame(At(n.peers, k), At(b.ctrl.cut, k));
    assert At(b.peers, k).got == At(n.peers, k).got && RecvCut(b, k) == None;
    assert At(ImageOf(b).peers, k) == At(b.ctrl.cut, k);
  }

  /** The channel the first marker came on, once it was taken in. */
  lemma OpenedTakes(n: Node, b: Node, i: Ip, m: Message, w: SnapshotId)
    requires WaveInv(n, w) && !IsCut(n) && !n.ctrl.active && Opened(n, b, w)
    requires Begun(n, b, i, |At(n.peers, i).got|, w) && Timely(n, i, m, w) && m.payload.Marker?
    requires HeardAll(At(n.peers, i))
    ensures WavePart(Append(b, i, m), w, i)
  {
    var p, q := At(b.peers, i), At(Append(b, i, m).peers, i);
    OpenedSent(n, b, i, |At(n.peers, i).got|, w, i);
    assert WavePart(n, w, i) && BegunAt(n, b, i, w);
    assert p.got == At(n.peers, i).got && q == p.(got := p.got + [m]);
    HeardSame(At(n.peers, i), At(b.ctrl.cut, i));
    MarkedAppend(p.got, m, w);
    assert RecvCut(Append(b, i, m), i) == Some(|p.got| + 1);
    assert At(ImageOf(b).peers, i) == At(b.ctrl.cut, i);
  }

  lemma OpenedPhase(n: Node, b: Node, remote: Ip, sn: nat, w: SnapshotId)
    requires WaveInv(n, w) && !IsCut(n) && !n.ctrl.active && Begun(n, b, remote, sn, w) && Opened(n, b, w)
    ensures PhaseInv(b, w)
  {
  }

  lemma AppendOpened(n: Node, b: Node, i: Ip, m: Message, w: SnapshotId)
    requires NodeInv(n) && WaveInv(n, w) && !IsCut(n) && !n.ctrl.active && Opened(n, b, w)
    requires Begun(n, b, i, |At(n.peers, i).got|, w) && Timely(n, i, m, w) && m.payload.Marker?
    ensures PhaseInv(Append(b, i, m), w) && forall k :: WavePart(Append(b, i, m), w, k)
  {
    var r := Append(b, i, m);
    OpenedPhase(n, b, i, |At(n.peers, i).got|, w);
    forall k ensures WavePart(r, w, k) {
      assert PartInv(n, k);
      if k == i {
        OpenedTakes(n, b, i, m, w);
      } else {
        OpenedPart(n, b, i, |At(n.peers, i).got|, w, k);
        QuietPart(b, r, w, k);
      }
    }
  }

  lemma BegunClosed(n: Node, b: Node, i: Ip, m: Message)
    requires NodeInv(n) && !n.ctrl.active && m.payload.Marker? && Unbuffered(At(n.peers, i)) && i in Peers(n.cfg)
    requires Begun(n, b, i, |At(n.peers, i).got|, m.payload.id) && b.ctrl.recording == {}
    ensures AllClosed(Append(b, i, m))
  {
    var r := Append(b, i, m);
    assert Peers(n.cfg) == {i};
    forall k ensures PartInv(r, k) {
      if k == i {
        BegunTakesAt(n, b, i, m);
      } else {
        BegunPart(n, b, i, |At(n.peers, i).got|, m.payload.id, k);
        PartSame(b, r, k);
      }
    }
  }

  /** Whatever was sent meanwhile, the only markers in it are this wave's. */
  ghost predicate SendsOnlyWave(a: Peer, b: Peer, w: SnapshotId) {
    a.sent <= b.sent && OnlyWave(b.sent, |a.sent|, w)
  }

  lemma OpenedSends(n: Node, b: Node, remote: Ip, sn: nat, w: SnapshotId, k: Ip)
    requires Begun(n, b, remote, sn, w) && Opened(n, b, w)
    ensures SendsOnlyWave(At(n.peers, k), At(b.peers, k), w)
  {
    assert BegunAt(n, b, k, w) && SendsNoMarker(At(n.peers, k), At(b.ctrl.cut, k));
  }

  /** The first marker at an uncut member: cut, and if it is the only other member, already done. */
  lemma FirstWave(n: Node, i: Ip, m: Message, w: SnapshotId)
    requires NodeInv(n) && WaveInv(n, w) && SoundNode(n) && Unbuffered(At(n.peers, i))
    requires Timely(n, i, m, w) && m.payload.Marker? && !n.ctrl.active
    ensures var r := Append(Initiate(n, i, |At(n.peers, i).got|, w), i, m);
            WaveInv(r, w) && IsCut(r) && Worth(r.cfg, ImageOf(r).app, ImageOf(r).exits, ImageOf(r).peers) == NodeWorth(n)
  {
    var sn := |At(n.peers, i).got|;
    var b := Begin(n, i, sn, w);
    TimelyStays(n, i, m, w);
    BeginBegun(n, i, sn, w);
    BeginOpened(n, i, sn, w);
    AppendOpened(n, b, i, m, w);
    if b.ctrl.recording == {} {
      BegunClosed(n, b, i, m);
      AllQuiet(b.ctrl);
      FinishStored(b);
      AppendStored(b, Finish(b, Complete), i, m);
      StoredWave(Append(b, i, m), Append(Finish(b, Complete), i, m), w);
    }
  }

  /** Starting a wave sends nothing but app traffic and this wave's markers. */
  lemma InitiateSends(n: Node, remote: Ip, sn: nat, w: SnapshotId)
    requires ValidConfig(n.cfg) && SoundNode(n) && n.host.checkpointUp && n.host.storeUp && n.host.images == []
    ensures forall k :: SendsOnlyWave(At(n.peers, k), At(Initiate(n, remote, sn, w).peers, k), w)
  {
    var b, r := Begin(n, remote, sn, w), Initiate(n, remote, sn, w);
    BeginBegun(n, remote, sn, w);
    BeginOpened(n, remote, sn, w);
    if b.ctrl.recording == {} {
      AllQuiet(b.ctrl);
      FinishStored(b);
    }
    forall k ensures SendsOnlyWave(At(n.peers, k), At(r.peers, k), w) {
      OpenedSends(n, b, remote, sn, w, k);
      assert At(r.peers, k).sent == At(b.peers, k).sent;
    }
  }

  /** A local request at an uncut member. */
  lemma StartWave(n: Node, w: SnapshotId)
    requires NodeInv(n) && WaveInv(n, w) && SoundNode(n) && !n.ctrl.active && !IsCut(n)
    ensures var r := Initiate(n, LOCALHOST, 0, w);
            WaveInv(r, w) && IsCut(r) && Worth(r.cfg, ImageOf(r).app, ImageOf(r).exits, ImageOf(r).peers) == NodeWorth(n)
  {
    var b := Begin(n, LOCALHOST, 0, w);
    BeginBegun(n, LOCALHOST, 0, w);
    BeginOpened(n, LOCALHOST, 0, w);
    OpenedPhase(n, b, LOCALHOST, 0, w);
    forall k ensures WavePart(b, w, k) {
      assert PartInv(n, k);
      OpenedPart(n, b, LOCALHOST, 0, w, k);
    }
    if b.ctrl.recording == {} {
      assert Peers(n.cfg) == {};
      BegunInv(n, b, LOCALHOST, 0, w);
      forall k ensures PartInv(b, k) {
        BegunPart(n, b, LOCALHOST, 0, w, k);
      }
      AllQuiet(b.ctrl);
      FinishStored(b);
      StoredWave(b, Finish(b, Complete), w);
    }
  }

  // ---------- Whole callbacks ----------

  /** The wave goes on from `n` to `r`: its invariant and its accounts hold, and no foreign marker was sent. */
  ghost predicate GoesOn(n: Node, r: Node, w: SnapshotId) {
    WaveInv(r, w) && Accounted(r) && forall k :: SendsOnlyWave(At(n.peers, k), At(r.peers, k), w)
  }

  lemma GoesOnTransitive(n: Node, q: Node, r: Node, w: SnapshotId)
    requires GoesOn(n, q, w) && GoesOn(q, r, w)
    ensures GoesOn(n, r, w)
  {
    forall k ensures SendsOnlyWave(At(n.peers, k), At(r.peers, k), w) {
      assert SendsOnlyWave(At(n.peers, k), At(q.peers, k), w) && SendsOnlyWave(At(q.peers, k), At(r.peers, k), w);
    }
  }

  lemma IdleBalance(n: Node)
    requires n.ctrl == IDLE
    ensures Balance(n) == NodeWorth(n)
  {
    assert Held(IDLE) == map[];
    TotalZero(n.cfg.order);
  }

  /** The wave goes on if its invariant does, the image stays, and what is sent is this wave's. */
  lemma SameImage(n: Node, r: Node, w: SnapshotId)
    requires Accounted(n) && WaveInv(r, w) && Balance(r) == Balance(n)
    requires r.cfg == n.cfg && r.host.images == n.host.images && forall k :: At(r.peers, k).sent == At(n.peers, k).sent
    ensures GoesOn(n, r, w)
  {
  }

  lemma AppendSends(n: Node, q: Node, i: Ip, m: Message, w: SnapshotId)
    requires forall k :: SendsOnlyWave(At(n.peers, k), At(q.peers, k), w)
    ensures forall k :: SendsOnlyWave(At(n.peers, k), At(Append(q, i, m).peers, k), w)
  {
    forall k ensures SendsOnlyWave(At(n.peers, k), At(Append(q, i, m).peers, k), w) {
      assert SendsOnlyWave(At(n.peers, k), At(q.peers, k), w);
    }
  }

  lemma FirstGoesOn(n: Node, i: Ip, m: Message, w: SnapshotId)
    requires NodeInv(n) && WaveInv(n, w) && SoundNode(n) && Unbuffered(At(n.peers, i))
    requires Timely(n, i, m, w) && m.payload.Marker? && !n.ctrl.active
    requires Balance(Append(Initiate(n, i, |At(n.peers, i).got|, w), i, m)) == Balance(n)
    ensures GoesOn(n, Append(Initiate(n, i, |At(n.peers, i).got|, w), i, m), w)
  {
    var sn := |At(n.peers, i).got|;
    TimelyStays(n, i, m, w);
    FirstWave(n, i, m, w);
    IdleBalance(n);
    InitiateSends(n, i, sn, w);
    AppendSends(n, Initiate(n, i, sn, w), i, m, w);
  }

  lemma KeepGoesOn(n: Node, i: Ip, m: Message, w: SnapshotId)
    requires NodeInv(n) && WaveInv(n, w) && Accounted(n) && !m.payload.Marker?
    requires Balance(Append(Keep(n, i, m), i, m)) == Balance(n)
    ensures GoesOn(n, Append(Keep(n, i, m), i, m), w)
  {
    KeepWave(n, i, m, w);
    KeepFrame(n, i, m);
    SameImage(n, Append(Keep(n, i, m), i, m), w);
  }

  lemma LastGoesOn(n: Node, i: Ip, m: Message, w: SnapshotId)
    requires NodeInv(n) && WaveInv(n, w) && Accounted(n) && Unbuffered(At(n.peers, i)) && PlainChannels(n.ctrl.channels)
    requires Timely(n, i, m, w) && m.payload.Marker? && n.ctrl.active && n.ctrl.recording == {i}
    requires Balance(Append(Finish(n.(ctrl := Close(n.ctrl, i, |At(n.peers, i).got|)), Complete), i, m)) == Balance(n)
    ensures GoesOn(n, Append(Finish(n.(ctrl := Close(n.ctrl, i, |At(n.peers, i).got|)), Complete), i, m), w)
  {
    LastWave(n, i, m, w);
    LastFrame(n, i, m);
    SameImage(n, Append(Finish(n.(ctrl := Close(n.ctrl, i, |At(n.peers, i).got|)), Complete), i, m), w);
  }

  lemma CloseGoesOn(n: Node, i: Ip, m: Message, w: SnapshotId)
    requires NodeInv(n) && WaveInv(n, w) && Accounted(n)
    requires Timely(n, i, m, w) && m.payload.Marker? && n.ctrl.active
    requires Balance(Append(n.(ctrl := Close(n.ctrl, i, |At(n.peers, i).got|)), i, m)) == Balance(n)
    ensures GoesOn(n, Append(n.(ctrl := Close(n.ctrl, i, |At(n.peers, i).got|)), i, m), w)
  {
    CloseWave(n, i, m, w);
    SameImage(n, Append(n.(ctrl := Close(n.ctrl, i, |At(n.peers, i).got|)), i, m), w);
  }

  /** Taking in the next message, of whatever kind, carries the wave on. */
  lemma TakeWave(n: Node, i: Ip, m: Message, w: SnapshotId)
    requires NodeInv(n) && WaveInv(n, w) && Accounted(n) && SoundNode(n) && Sound(m)
    requires i in n.cfg.mesh && Unbuffered(At(n.peers, i)) && PlainChannels(n.ctrl.channels) && Timely(n, i, m, w)
    ensures GoesOn(n, Take(n, i, m), w)
  {
    TakeCases(n, i, m);
    TakeBalance(n, i, m);
    TimelyStays(n, i, m, w);
    if Stays(n, i, m) {
      KeepGoesOn(n, i, m, w);
    } else if !n.ctrl.active {
      FirstGoesOn(n, i, m, w);
    } else if n.ctrl.recording == {i} {
      LastGoesOn(n, i, m, w);
    } else {
      CloseGoesOn(n, i, m, w);
    }
  }

  lemma LastFrame(n: Node, i: Ip, m: Message)
    requires NodeInv(n) && PlainChannels(n.ctrl.channels) && n.host.storeUp
    ensures var r := Append(Finish(n.(ctrl := Close(n.ctrl, i, |At(n.peers, i).got|)), Complete), i, m);
            r.cfg == n.cfg && r.host.images == n.host.images && forall k :: At(r.peers, k).sent == At(n.peers, k).sent
  {
    var n1 := n.(ctrl := Close(n.ctrl, i, |At(n.peers, i).got|));
    InvShape(n);
    FinishStored(n1);
    AppendStored(n1, Finish(n1, Complete), i, m);
  }

  /** What the other side of a link has sent in this wave: at most one marker, and none to itself. */
  ghost predicate WaveLog(n: Node, i: Ip, log: seq<Message>, o: Option<nat>, w: SnapshotId) {
    && MarkedAt(log, o, w) && SoundLog(log)
    && (i !in Peers(n.cfg) ==> o == None)
  }

  /** The next message of the log is never a second marker, and never a foreign one. */
  lemma NextIsTimely(n: Node, i: Ip, log: seq<Message>, o: Option<nat>, w: SnapshotId)
    requires WaveInv(n, w) && WaveLog(n, i, log, o, w) && At(n.peers, i).got < log
    requires OnlyWave(log, |At(n.peers, i).got|, w)
    ensures Timely(n, i, log[|At(n.peers, i).got|], w)
  {
    var p := At(n.peers, i);
    assert WavePart(n, w, i);
    if RecvCut(n, i).Some? {
      assert log[RecvCut(n, i).value - 1] == p.got[RecvCut(n, i).value - 1];
    }
  }

  lemma PopBufferWave(n: Node, i: Ip, w: SnapshotId)
    requires WaveInv(n, w) && Accounted(n) && SoundNode(n) && Distinct(n.cfg.mesh) && i in n.cfg.mesh
    ensures WaveInv(PopBuffer(n, i), w) && Accounted(PopBuffer(n, i)) && SoundNode(PopBuffer(n, i))
  {
    QuietWave(n, PopBuffer(n, i), w);
    AsideBalance(n, PopBuffer(n, i));
  }

  lemma {:induction false} UnbufferWave(n: Node, i: Ip, log: seq<Message>, o: Option<nat>, w: SnapshotId)
    requires NodeInv(n) && WaveInv(n, w) && Accounted(n) && SoundNode(n) && UnbufferedElsewhere(n, i)
    requires PlainChannels(n.ctrl.channels) && i in n.cfg.mesh
    requires Fed(At(n.peers, i), log) && WaveLog(n, i, log, o, w) && OnlyWave(log, |At(n.peers, i).got|, w)
    ensures GoesOn(n, Unbuffer(n, i), w)
    decreases |At(n.peers, i).buffer|
  {
    var p := At(n.peers, i);
    if |p.got| in p.buffer {
      var n1 := PopBuffer(n, i);
      var m := p.buffer[|p.got|];
      var n2 := Take(n1, i, m);
      PopBufferInv(n, i);
      PopBufferWave(n, i, w);
      assert m in log && log[|p.got|] == m;
      NextIsTimely(n1, i, log, o, w);
      TakeInv(n1, i, m);
      TakeBalance(n1, i, m);
      TakeWave(n1, i, m, w);
      TakeLinks(n1, i, m);
      PopElsewhere(n, i);
      TakeElsewhere(n1, i, m);
      PopTakeMoves(n, i, log);
      UnbufferWave(n2, i, log, o, w);
      PopGoesOn(n, n2, i, w);
      GoesOnTransitive(n, n2, Unbuffer(n2, i), w);
    }
  }

  lemma PopGoesOn(n: Node, q: Node, i: Ip, w: SnapshotId)
    requires GoesOn(PopBuffer(n, i), q, w)
    ensures GoesOn(n, q, w)
  {
    forall k ensures SendsOnlyWave(At(n.peers, k), At(q.peers, k), w) {
      assert SendsOnlyWave(At(PopBuffer(n, i).peers, k), At(q.peers, k), w);
    }
  }
}
