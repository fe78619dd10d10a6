/** Restarting the whole mesh from a stored wave: what comes back is a mesh in order, with the same total. */
module Restoration {
  import opened Wrappers
  import opened Mesh
  import opened Counter
  import opened Sidecar
  import opened Bookkeeping
  import opened Callbacks
  import opened Sums
  import opened Ledger
  import opened Wave
  import opened ConsistentCut

  // ---------- One member ----------

  /** The part of a history below a coordinate. */
  function Upto(ms: seq<Message>, cut: Option<nat>): seq<Message> {
    if cut.Some? && cut.value <= |ms| then ms[..cut.value] else ms
  }

  /** What the stored coordinates stand for: the messages below them, and what the checkpointed app had heard. */
  function Past(n: Node): map<Ip, Peer>
    requires IsCut(n)
  {
    map k | k in n.peers ::
      Peer(Upto(n.peers[k].sent, SendCut(n, k)), {}, Upto(n.peers[k].got, RecvCut(n, k)), map[],
           At(ImageOf(n).peers, k).heard)
  }

  /** A checkpointed app with a sidecar that has just been started, and a host with nothing stored since. */
  function Blank(n: Node): Node
    requires IsCut(n)
  {
    Node(n.cfg, ImageOf(n).app, map[], IDLE, Host(true, true, [], []), [], ImageOf(n).exits, [])
  }

  /** A link as it stands at the cut, between restoring the coordinates and replaying what was recorded. */
  function Seeded(n: Node, k: Ip): Peer
    requires IsCut(n) && IsDone(n)
  {
    var past := At(Past(n), k);
    if k in ArtifactOf(n).peers then SeedPeer(FRESH, ArtifactOf(n).peers[k], past) else FRESH
  }

  lemma {:induction false} SeedAt(n: Node, a: Artifact, past: map<Ip, Peer>, ks: seq<Ip>, k: Ip)
    requires Distinct(ks)
    ensures At(Seed(n, a, past, ks).peers, k) ==
            if k in ks && k in a.peers then SeedPeer(At(n.peers, k), a.peers[k], At(past, k)) else At(n.peers, k)
    decreases |ks|
  {
    if ks != [] {
      assert ks == [ks[0]] + ks[1..];
      if ks[0] in a.peers {
        SeedAt(n.(peers := n.peers[ks[0] := SeedPeer(At(n.peers, ks[0]), a.peers[ks[0]], At(past, ks[0]))]), a, past, ks[1..], k);
      } else {
        SeedAt(n, a, past, ks[1..], k);
      }
    }
  }

  ghost predicate Restorable(n: Node, w: SnapshotId) {
    NodeInv(n) && WaveInv(n, w) && Accounted(n) && IsCut(n) && IsDone(n)
  }

  lemma StoredShape(n: Node, w: SnapshotId)
    requires Restorable(n, w)
    ensures PlainChannels(ChannelsOf(ArtifactOf(n)))
    ensures forall k :: k in ChannelsOf(ArtifactOf(n)) ==> Ascending(ChannelsOf(ArtifactOf(n))[k])
  {
    var channels := ChannelsOf(ArtifactOf(n));
    forall k | k in channels ensures PlainRecords(channels[k]) && Ascending(channels[k]) {
      DoneStored(n, w, k);
      RecordedShape(At(n.peers, k).got, |At(ImageOf(n).peers, k).got|, ArtifactOf(n).peers[k].recvSeq.value - 1);
    }
  }

  /** This member after the restart. */
  function Restored(n: Node): Node
    requires IsCut(n) && IsDone(n) && PlainChannels(ChannelsOf(ArtifactOf(n)))
  {
    Restore(Blank(n), ArtifactOf(n), n.cfg.order, Past(n))
  }

  /** The same link once what was recorded on it has been replayed. */
  function Resumed(n: Node, k: Ip): Peer
    requires IsCut(n) && IsDone(n)
  {
    Seeded(n, k).(heard := Seeded(n, k).heard + ChannelIn(ChannelsOf(ArtifactOf(n)), k))
  }

  /** A restored link stands at the stored coordinates, and the app has heard what the image had, and then the recording. */
  lemma RestoredAt(n: Node, w: SnapshotId, k: Ip)
    requires Restorable(n, w) && PlainChannels(ChannelsOf(ArtifactOf(n)))
    ensures At(Restored(n).peers, k) == Resumed(n, k)
  {
    var a := ArtifactOf(n);
    StoredShape(n, w);
    SeedAt(Blank(n), a, Past(n), n.cfg.order, k);
    ReplayHeard(Seed(Blank(n), a, Past(n), n.cfg.order), ChannelsOf(a), n.cfg.order);
    assert k in a.peers ==> k in Peers(n.cfg) && k in SetOf(n.cfg.order);
  }

  /** `q` is the link `p` as it is seeded from its artifact: cut back to `s` messages sent and `r` taken in. */
  ghost predicate SeedShape(p: Peer, c: Peer, a: PeerCut, s: nat, r: nat, q: Peer) {
    && s == |c.sent| + 1 <= |p.sent| && |c.got| < r <= |p.got| && c.got <= p.got && c.sent <= p.sent
    && p.sent[s - 1].payload.Marker? && p.got[r - 1].payload.Marker?
    && a.channel == Recorded(p.got, |c.got|, r - 1) && HeardAll(c)
    && q == Peer(p.sent[..s], Below(s), p.got[..r], map[], c.heard)
  }

  /** The histories below the stored coordinates of a channel. */
  lemma SeededIs(n: Node, w: SnapshotId, k: Ip)
    requires Restorable(n, w) && k in Peers(n.cfg)
    ensures k in ArtifactOf(n).peers && SendCut(n, k).Some? && RecvCut(n, k).Some?
    ensures SeedShape(At(n.peers, k), At(ImageOf(n).peers, k), ArtifactOf(n).peers[k],
                      SendCut(n, k).value, RecvCut(n, k).value, Seeded(n, k))
  {
    DoneStored(n, w, k);
    assert WavePart(n, w, k);
    StoredCuts(n, k);
    CutMarkers(n, w, k);
    PastIs(n, k);
    SeedTakesShape(At(n.peers, k), At(ImageOf(n).peers, k), ArtifactOf(n).peers[k], SendCut(n, k).value, RecvCut(n, k).value);
  }

  lemma SeedTakesShape(p: Peer, c: Peer, a: PeerCut, s: nat, r: nat)
    requires StoredAt(p, c, a) && a.sendSeq == Some(s) && a.recvSeq == Some(r) && HeardAll(c)
    requires 0 < s <= |p.sent| && p.sent[s - 1].payload.Marker? && 0 < r <= |p.got| && p.got[r - 1].payload.Marker?
    ensures SeedShape(p, c, a, s, r, SeedPeer(FRESH, a, Peer(p.sent[..s], {}, p.got[..r], map[], c.heard)))
  {
  }

  lemma StoredCuts(n: Node, k: Ip)
    requires IsCut(n) && IsDone(n) && !n.ctrl.active && k in ArtifactOf(n).peers
    requires StoredAt(At(n.peers, k), At(ImageOf(n).peers, k), ArtifactOf(n).peers[k])
    ensures SendCut(n, k) == ArtifactOf(n).peers[k].sendSeq && SendCut(n, k).Some?
    ensures RecvCut(n, k) == ArtifactOf(n).peers[k].recvSeq && RecvCut(n, k).Some?
  {
  }

  lemma CutMarkers(n: Node, w: SnapshotId, k: Ip)
    requires WavePart(n, w, k) && SendCut(n, k).Some? && RecvCut(n, k).Some?
    ensures var p, s, r := At(n.peers, k), SendCut(n, k).value, RecvCut(n, k).value;
            && 0 < s <= |p.sent| && p.sent[s - 1].payload.Marker? && 0 < r <= |p.got| && p.got[r - 1].payload.Marker?
  {
  }

  lemma PastIs(n: Node, k: Ip)
    requires IsCut(n) && SendCut(n, k).Some? && RecvCut(n, k).Some?
    requires 0 < SendCut(n, k).value <= |At(n.peers, k).sent| && RecvCut(n, k).value <= |At(n.peers, k).got|
    ensures var p := At(n.peers, k);
            At(Past(n), k) == Peer(p.sent[..SendCut(n, k).value], {}, p.got[..RecvCut(n, k).value], map[],
                                   At(ImageOf(n).peers, k).heard)
  {
    assert k in n.peers;
  }

  /** Up to and including its marker, a channel is what the image had taken in, and then what was recorded. */
  lemma RecordedAround(had: seq<Message>, got: seq<Message>, cut: nat)
    requires had <= got && |had| < cut <= |got| && got[cut - 1].payload.Marker?
    ensures Recorded(got[..cut], 0, cut) == Recorded(had, 0, |had|) + Recorded(got, |had|, cut - 1)
  {
    RecordedPrefix(got[..cut], got, 0, cut);
    assert Recorded(got, 0, cut) == Recorded(got, 0, cut - 1);
    RecordedSplit(got, 0, |had|, cut - 1);
    RecordedPrefix(had, got, 0, |had|);
  }

  /** The recorded block closes the gap between what the image had heard and the marker. */
  lemma SeededHeard(p: Peer, c: Peer, cut: nat, q: Peer)
    requires c.got <= p.got && |c.got| < cut <= |p.got| && p.got[cut - 1].payload.Marker? && HeardAll(c)
    requires q.got == p.got[..cut] && q.heard == c.heard + Recorded(p.got, |c.got|, cut - 1)
    ensures HeardAll(q)
  {
    RecordedAround(c.got, p.got, cut);
    HeardJoin(c.heard, Recorded(c.got, 0, |c.got|), Recorded(p.got, |c.got|, cut - 1));
  }

  /** `q` is the link `p` cut back to `s` messages sent and `r` taken in, as restored around the image `c`. */
  ghost predicate Rebuilt(p: Peer, c: Peer, s: nat, r: nat, q: Peer) {
    && c.sent <= p.sent && s == |c.sent| + 1 <= |p.sent| && p.sent[s - 1].payload.Marker?
    && c.got <= p.got && |c.got| < r <= |p.got| && p.got[r - 1].payload.Marker? && HeardAll(c)
    && q == Peer(p.sent[..s], Below(s), p.got[..r], map[], c.heard + Recorded(p.got, |c.got|, r - 1))
  }

  ghost predicate Orderly(q: Peer) {
    HeardAll(q) && LinkTables(q) && Unbuffered(q)
  }

  lemma RebuiltOrderly(p: Peer, c: Peer, s: nat, r: nat, q: Peer)
    requires Rebuilt(p, c, s, r, q)
    ensures Orderly(q)
  {
    SeededHeard(p, c, r, q);
  }

  /** A restored link to another member, in full. */
  lemma ResumedIs(n: Node, w: SnapshotId, k: Ip)
    requires Restorable(n, w) && k in Peers(n.cfg)
    ensures SendCut(n, k).Some? && RecvCut(n, k).Some?
    ensures Rebuilt(At(n.peers, k), At(ImageOf(n).peers, k), SendCut(n, k).value, RecvCut(n, k).value, Resumed(n, k))
  {
    SeededIs(n, w, k);
    assert ChannelIn(ChannelsOf(ArtifactOf(n)), k) == ArtifactOf(n).peers[k].channel;
  }

  lemma RecordingIs(n: Node, w: SnapshotId, k: Ip)
    requires Restorable(n, w) && k in Peers(n.cfg)
    ensures RecvCut(n, k).Some? && 0 < RecvCut(n, k).value <= |At(n.peers, k).got|
    ensures ChannelIn(ChannelsOf(ArtifactOf(n)), k) ==
            Recorded(At(n.peers, k).got, |At(ImageOf(n).peers, k).got|, RecvCut(n, k).value - 1)
  {
    SeededIs(n, w, k);
    assert ChannelIn(ChannelsOf(ArtifactOf(n)), k) == ArtifactOf(n).peers[k].channel;
  }

  lemma FreshLink(n: Node, w: SnapshotId, k: Ip)
    requires Restorable(n, w) && k !in Peers(n.cfg)
    ensures Resumed(n, k) == FRESH
  {
    assert k !in ArtifactOf(n).peers;
  }

  lemma FreshOrderly()
    ensures Orderly(FRESH)
  {
  }

  lemma OrderlyPart(r: Node, k: Ip)
    requires r.ctrl == IDLE && Orderly(At(r.peers, k))
    ensures PartInv(r, k) && Unbuffered(At(r.peers, k))
  {
  }

  lemma RestoredOrderly(n: Node, w: SnapshotId, k: Ip)
    requires Restorable(n, w) && PlainChannels(ChannelsOf(ArtifactOf(n)))
    ensures Orderly(At(Restored(n).peers, k))
  {
    RestoredAt(n, w, k);
    if k in Peers(n.cfg) {
      ResumedIs(n, w, k);
      RebuiltOrderly(At(n.peers, k), At(ImageOf(n).peers, k), SendCut(n, k).value, RecvCut(n, k).value, Resumed(n, k));
    } else {
      FreshLink(n, w, k);
      FreshOrderly();
    }
  }

  lemma RestoredSteady(n: Node, w: SnapshotId)
    requires Restorable(n, w) && PlainChannels(ChannelsOf(ArtifactOf(n)))
    ensures Steady(Restored(n)) && Restored(n).ctrl == IDLE && Restored(n).tunnel == [] && Restored(n).cfg == n.cfg
    ensures Restored(n).host == Host(true, true, [], []) && Restored(n).exits == ImageOf(n).exits
  {
    forall k ensures PartInv(Restored(n), k) && Unbuffered(At(Restored(n).peers, k)) {
      RestoredOrderly(n, w, k);
      OrderlyPart(Restored(n), k);
    }
  }

  // ---------- The books after the restart ----------

  lemma {:induction false} RecordedWorth(got: seq<Message>, lo: nat, hi: nat)
    requires lo <= hi <= |got|
    ensures SumRecs(Recorded(got, lo, hi)) == SumMessages(got[..hi]) - SumMessages(got[..lo])
    decreases hi
  {
    if hi > lo {
      RecordedWorth(got, lo, hi - 1);
      assert got[..hi][..hi - 1] == got[..hi - 1];
      SumRecsAppend(Recorded(got, lo, hi - 1), [Rec(hi - 1, got[hi - 1])]);
    }
  }

  lemma MarkedWorth(ms: seq<Message>, had: seq<Message>, s: nat)
    requires had <= ms && 0 < s <= |ms| && ms[s - 1].payload.Marker?
    ensures SumMessages(ms[..s]) == SumMessages(ms[..s - 1])
    ensures s == |had| + 1 ==> SumMessages(ms[..s]) == SumMessages(had)
    ensures SumMessages(ms[..|had|]) == SumMessages(had)
  {
    assert ms[..s][..s - 1] == ms[..s - 1];
    assert ms[..|had|] == had;
  }

  /** A rebuilt link counts as taken in what it is about to hand over again. */
  lemma RebuiltNet(p: Peer, c: Peer, s: nat, r: nat, q: Peer)
    requires Rebuilt(p, c, s, r, q)
    ensures Net(c) == Net(q) + SumRecs(Recorded(p.got, |c.got|, r - 1))
  {
    MarkedWorth(p.sent, c.sent, s);
    MarkedWorth(p.got, c.got, r);
    RecordedWorth(p.got, |c.got|, r - 1);
  }

  ghost predicate SoundGot(n: Node) {
    forall k, m :: k in Peers(n.cfg) && m in At(n.peers, k).got ==> Sound(m)
  }

  lemma StoredSound(n: Node, w: SnapshotId)
    requires Restorable(n, w) && SoundGot(n)
    ensures SoundChannels(ChannelsOf(ArtifactOf(n)))
  {
    var channels := ChannelsOf(ArtifactOf(n));
    forall k: Ip, r: Rec | k in channels && r in channels[k] ensures Sound(r.msg) {
      DoneStored(n, w, k);
      RecordedShape(At(n.peers, k).got, |At(ImageOf(n).peers, k).got|, ArtifactOf(n).peers[k].recvSeq.value - 1);
    }
  }

  function SeededNode(n: Node): Node
    requires IsCut(n) && IsDone(n)
  {
    Seed(Blank(n), ArtifactOf(n), Past(n), n.cfg.order)
  }

  lemma SeededNodeAt(n: Node, w: SnapshotId, k: Ip)
    requires Restorable(n, w)
    ensures At(SeededNode(n).peers, k) == Seeded(n, k)
  {
    SeedAt(Blank(n), ArtifactOf(n), Past(n), n.cfg.order, k);
    assert k in ArtifactOf(n).peers ==> k in Peers(n.cfg) && k in SetOf(n.cfg.order);
  }

  lemma SeededSound(n: Node, w: SnapshotId)
    requires Restorable(n, w) && SoundNode(n)
    ensures SoundNode(SeededNode(n))
  {
    forall k, m | m in At(SeededNode(n).peers, k).sent ensures Sound(m) {
      SeededNodeAt(n, w, k);
      if k in Peers(n.cfg) {
        SeededIs(n, w, k);
        assert m in At(n.peers, k).sent;
      } else {
        FreshLink(n, w, k);
      }
    }
  }

  /** What this member had sent to itself and not taken in at its cut. */
  function SelfNet(n: Node): int
    requires IsCut(n)
  {
    Net(At(ImageOf(n).peers, n.cfg.self))
  }

  lemma SeededNet(n: Node, w: SnapshotId, k: Ip)
    requires Restorable(n, w) && k in n.cfg.mesh
    ensures Net(At(ImageOf(n).peers, k)) ==
            Net(Seeded(n, k)) + SumRecs(ChannelIn(ChannelsOf(ArtifactOf(n)), k)) + if k == n.cfg.self then SelfNet(n) else 0
  {
    if k == n.cfg.self {
      assert k !in Peers(n.cfg);
      FreshLink(n, w, k);
      assert ChannelIn(ChannelsOf(ArtifactOf(n)), k) == [];
    } else {
      assert k in Peers(n.cfg);
      OtherNet(n, w, k);
    }
  }

  lemma OtherNet(n: Node, w: SnapshotId, k: Ip)
    requires Restorable(n, w) && k in Peers(n.cfg)
    ensures Net(At(ImageOf(n).peers, k)) == Net(Seeded(n, k)) + SumRecs(ChannelIn(ChannelsOf(ArtifactOf(n)), k))
  {
    ResumedIs(n, w, k);
    RebuiltNet(At(n.peers, k), At(ImageOf(n).peers, k), SendCut(n, k).value, RecvCut(n, k).value, Resumed(n, k));
    RecordingIs(n, w, k);
  }

  lemma SeededWorth(n: Node, w: SnapshotId)
    requires Restorable(n, w)
    ensures NodeWorth(SeededNode(n)) + Total(n.cfg.mesh, ChannelValues(ChannelsOf(ArtifactOf(n)))) + SelfNet(n) ==
            Worth(n.cfg, ImageOf(n).app, ImageOf(n).exits, ImageOf(n).peers)
  {
    var seeded, recorded := Nets(SeededNode(n).peers), ChannelValues(ChannelsOf(ArtifactOf(n)));
    var own := map[][n.cfg.self := SelfNet(n)];
    forall k | k in n.cfg.mesh
      ensures Weight(Nets(ImageOf(n).peers), k) == Weight(seeded, k) + Weight(recorded, k) + Weight(own, k)
    {
      SeededWeight(n, w, k);
    }
    TotalOfThree(n.cfg.mesh, seeded, recorded, own, Nets(ImageOf(n).peers));
    TotalUpdate(n.cfg.mesh, map[], n.cfg.self, SelfNet(n));
    TotalZero(n.cfg.mesh);
  }

  lemma SeededWeight(n: Node, w: SnapshotId, k: Ip)
    requires Restorable(n, w) && k in n.cfg.mesh
    ensures Weight(Nets(ImageOf(n).peers), k) ==
            Weight(Nets(SeededNode(n).peers), k) + Weight(ChannelValues(ChannelsOf(ArtifactOf(n))), k)
            + Weight(map[n.cfg.self := SelfNet(n)], k)
  {
    SeededNet(n, w, k);
    SeededNodeAt(n, w, k);
  }

  /** The restored member's books are those of its cut, but for what was on its way to itself. */
  lemma RestoredBooks(n: Node, w: SnapshotId)
    requires Restorable(n, w) && SoundNode(n) && SoundGot(n) && PlainChannels(ChannelsOf(ArtifactOf(n)))
    ensures Balance(Restored(n)) == Balance(n) - SelfNet(n) && SoundNode(Restored(n))
  {
    var channels := ChannelsOf(ArtifactOf(n));
    StoredShape(n, w);
    StoredSound(n, w);
    SeededSound(n, w);
    SeededWorth(n, w);
    forall k | k in n.cfg.order ensures k in n.cfg.mesh {
      assert k in SetOf(n.cfg.order);
    }
    ReplayWorth(SeededNode(n), channels, n.cfg.order);
    forall k | k in ChannelValues(channels) ensures k in n.cfg.order && k in n.cfg.mesh {
      assert k in Peers(n.cfg) && k in SetOf(n.cfg.order);
    }
    TotalPermute(n.cfg.order, n.cfg.mesh, ChannelValues(channels));
    RestoredIdle(n);
    IdleBalance(Restored(n));
  }

  lemma RestoredIdle(n: Node)
    requires IsCut(n) && IsDone(n) && PlainChannels(ChannelsOf(ArtifactOf(n)))
    ensures Restored(n).ctrl == IDLE
  {
  }
}
