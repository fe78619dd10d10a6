/** What a wave leaves behind: a consistent, complete cut whose recorded channels are exactly what was in flight. */
module ConsistentCut {
  import opened Wrappers
  import opened Mesh
  import opened Sidecar
  import opened Bookkeeping
  import opened Ledger
  import opened Network
  import opened Conservation
  import opened Wave
  import opened WaveRun

  ghost predicate AllDone(s: System) {
    forall j :: j in s.nodes ==> IsDone(s.nodes[j])
  }

  lemma OtherMember(s: System, i: Ip, j: Ip)
    requires Inv(s) && i in s.nodes && j in s.nodes && i != j
    ensures i in Peers(s.nodes[j].cfg)
  {
    assert MemberInv(s, j) && i in SetOf(s.mesh);
  }

  // ---------- Coordinates ----------

  /** If the marker from `i` was taken in at `j`, both sides of the channel name the same place. */
  lemma CoordinatesAgree(s: System, w: SnapshotId, i: Ip, j: Ip)
    requires Waving(s, w) && i in s.nodes && j in s.nodes && RecvCut(s.nodes[j], i).Some?
    ensures SendCut(s.nodes[i], j) == RecvCut(s.nodes[j], i)
  {
    Ends(s, w, i, j);
    MarkersMeet(Link(s, i, j).sent, SendCut(s.nodes[i], j), Link(s, j, i).got, RecvCut(s.nodes[j], i), w);
  }

  /** What both ends of a channel say of the wave, and of each other. */
  lemma Ends(s: System, w: SnapshotId, i: Ip, j: Ip)
    requires Waving(s, w) && i in s.nodes && j in s.nodes
    ensures WavePart(s.nodes[i], w, j) && PhaseInv(s.nodes[i], w)
    ensures WavePart(s.nodes[j], w, i) && PhaseInv(s.nodes[j], w)
    ensures Link(s, j, i).got <= Link(s, i, j).sent
  {
    assert WaveInv(s.nodes[i], w) && WaveInv(s.nodes[j], w);
    LinkOf(s, i, j);
  }

  lemma MarkersMeet(sent: seq<Message>, s: Option<nat>, got: seq<Message>, r: Option<nat>, w: SnapshotId)
    requires MarkedAt(sent, s, w) && MarkedAt(got, r, w) && got <= sent
    ensures r.Some? ==> s == r
    ensures r.None? && s.Some? ==> |got| < s.value
  {
    if s.Some? && s.value <= |got| {
      assert got[s.value - 1] == sent[s.value - 1];
    }
    if r.Some? {
      assert got[r.value - 1] == sent[r.value - 1];
    }
  }

  /** A member knows its coordinates on every channel once it is cut. */
  lemma CutKnowsSend(s: System, w: SnapshotId, i: Ip, j: Ip)
    requires Waving(s, w) && i in s.nodes && j in s.nodes && i != j && IsCut(s.nodes[i])
    ensures SendCut(s.nodes[i], j).Some?
  {
    var n := s.nodes[i];
    assert MemberInv(s, i) && WaveInv(n, w);
    assert j in SetOf(s.mesh) && j in Peers(n.cfg);
    assert WavePart(n, w, j);
  }

  /** While a member is cut and not done, it waits for some marker; once done, it has them all. */
  lemma DoneKnowsReceive(s: System, w: SnapshotId, i: Ip, j: Ip)
    requires Waving(s, w) && i in s.nodes && j in s.nodes && i != j && IsDone(s.nodes[j])
    ensures RecvCut(s.nodes[j], i).Some?
  {
    var n := s.nodes[j];
    assert MemberInv(s, j) && WaveInv(n, w);
    assert i in SetOf(s.mesh) && i in Peers(n.cfg);
    assert WavePart(n, w, i);
  }

  // ---------- No orphans ----------

  /**
   * No message taken in before the cut of `j` was sent after the cut of `i`. This holds in every state of the wave,
   * for every member that is cut, and on every channel between two members.
   */
  lemma NoOrphans(s: System, w: SnapshotId, i: Ip, j: Ip)
    requires Waving(s, w) && i in s.nodes && j in s.nodes && i != j && IsCut(s.nodes[i])
    ensures IsCut(s.nodes[j]) ==>
              At(ImageOf(s.nodes[j]).peers, i).got <= At(ImageOf(s.nodes[i]).peers, j).sent
    ensures !IsCut(s.nodes[j]) ==> Link(s, j, i).got <= At(ImageOf(s.nodes[i]).peers, j).sent
  {
    var a, b := s.nodes[i], s.nodes[j];
    var sent, got := Link(s, i, j).sent, Link(s, j, i).got;
    Ends(s, w, i, j);
    SendCutIsImage(s, w, i, j);
    MarkersMeet(sent, SendCut(a, j), got, RecvCut(b, i), w);
    if RecvCut(b, i).Some? {
      RecvAfterImage(s, w, i, j);
      TakenBefore(sent, At(ImageOf(a).peers, j).sent, got, At(ImageOf(b).peers, i).got);
    } else {
      // no marker has been taken in, so all that was is before it
      TakenBefore(sent, At(ImageOf(a).peers, j).sent, got, got);
      if IsCut(b) {
        TakenBefore(sent, At(ImageOf(a).peers, j).sent, got, At(ImageOf(b).peers, i).got);
      }
    }
  }

  lemma TakenBefore(sent: seq<Message>, before: seq<Message>, got: seq<Message>, part: seq<Message>)
    requires before <= sent && got <= sent && part <= got && |part| <= |before|
    ensures part <= before
  {
  }

  /** The sending coordinate is right behind what the image had sent, and the marker is what comes next. */
  lemma SendCutIsImage(s: System, w: SnapshotId, i: Ip, j: Ip)
    requires Waving(s, w) && i in s.nodes && j in s.nodes && i != j && IsCut(s.nodes[i])
    ensures var c := At(ImageOf(s.nodes[i]).peers, j);
            SendCut(s.nodes[i], j) == Some(|c.sent| + 1) && c.sent <= Link(s, i, j).sent
  {
    var n := s.nodes[i];
    assert MemberInv(s, i) && WaveInv(n, w);
    assert j in SetOf(s.mesh) && j in Peers(n.cfg);
    assert WavePart(n, w, j) && PartInv(n, j);
    if n.ctrl.active {
      assert ChannelInv(n, j);
    }
  }

  /** The receiving coordinate is behind what the image had taken in. */
  lemma RecvAfterImage(s: System, w: SnapshotId, i: Ip, j: Ip)
    requires Waving(s, w) && i in s.nodes && j in s.nodes && i != j && RecvCut(s.nodes[j], i).Some?
    ensures IsCut(s.nodes[j]) && At(ImageOf(s.nodes[j]).peers, i).got <= Link(s, j, i).got
    ensures |At(ImageOf(s.nodes[j]).peers, i).got| < RecvCut(s.nodes[j], i).value <= |Link(s, j, i).got|
  {
    var n := s.nodes[j];
    assert MemberInv(s, j) && WaveInv(n, w);
    assert i in SetOf(s.mesh) && i in Peers(n.cfg);
    assert WavePart(n, w, i) && PartInv(n, i);
    if n.ctrl.active {
      assert ChannelInv(n, i);
    }
  }

  // ---------- Channel states ----------

  /** The sequence numbers and contents of `ms[lo..hi)`. */
  function Numbered(ms: seq<Message>, lo: nat, hi: nat): seq<Rec>
    requires lo <= hi <= |ms|
  {
    seq(hi - lo, x requires 0 <= x < hi - lo => Rec(lo + x, ms[lo + x]))
  }

  lemma {:induction false} RecordedIsNumbered(ms: seq<Message>, lo: nat, hi: nat)
    requires lo <= hi <= |ms| && forall x :: lo <= x < hi ==> !ms[x].payload.Marker?
    ensures Recorded(ms, lo, hi) == Numbered(ms, lo, hi)
    decreases hi
  {
    if hi > lo {
      RecordedIsNumbered(ms, lo, hi - 1);
      NumberedNext(ms, lo, hi);
    }
  }

  lemma NumberedNext(ms: seq<Message>, lo: nat, hi: nat)
    requires lo < hi <= |ms|
    ensures Numbered(ms, lo, hi) == Numbered(ms, lo, hi - 1) + [Rec(hi - 1, ms[hi - 1])]
  {
  }

  /** The recorded state of the channel from `i`, as stored by `j`. */
  function StoredChannel(s: System, i: Ip, j: Ip): seq<Rec>
    requires j in s.nodes && IsDone(s.nodes[j])
  {
    var a := ArtifactOf(s.nodes[j]);
    if i in a.peers then a.peers[i].channel else []
  }

  /**
   * Both ends done, the recorded channel is exactly the messages `i` had sent and `j` had not taken in when each was
   * cut: contiguous, in order, without duplicates, and without a marker.
   */
  lemma ChannelExact(s: System, w: SnapshotId, i: Ip, j: Ip)
    requires Waving(s, w) && i in s.nodes && j in s.nodes && i != j && IsDone(s.nodes[i]) && IsDone(s.nodes[j])
    ensures IsCut(s.nodes[i]) && IsCut(s.nodes[j])
    ensures var sent, got := At(ImageOf(s.nodes[i]).peers, j).sent, At(ImageOf(s.nodes[j]).peers, i).got;
            && got <= sent
            && StoredChannel(s, i, j) == Numbered(sent, |got|, |sent|)
            && forall r :: r in StoredChannel(s, i, j) ==> !r.msg.payload.Marker?
  {
    var a, b := s.nodes[i], s.nodes[j];
    assert MemberInv(s, j) && WaveInv(a, w) && WaveInv(b, w);
    NoOrphans(s, w, i, j);
    DoneKnowsReceive(s, w, i, j);
    CoordinatesAgree(s, w, i, j);
    SendCutIsImage(s, w, i, j);
    RecvAfterImage(s, w, i, j);
    StoredIsRecorded(s, w, i, j);
    var sent, got, now := At(ImageOf(a).peers, j).sent, At(ImageOf(b).peers, i).got, Link(s, j, i).got;
    RecordedUnmarked(s, w, i, j);
    ExactlyBetween(sent, now, got);
  }

  lemma ExactlyBetween(sent: seq<Message>, now: seq<Message>, got: seq<Message>)
    requires got <= sent <= now && forall x :: |got| <= x < |sent| ==> !sent[x].payload.Marker?
    ensures Recorded(now, |got|, |sent|) == Numbered(sent, |got|, |sent|)
    ensures forall r :: r in Recorded(now, |got|, |sent|) ==> !r.msg.payload.Marker?
  {
    RecordedPrefix(sent, now, |got|, |sent|);
    RecordedIsNumbered(sent, |got|, |sent|);
    RecordedShape(sent, |got|, |sent|);
  }

  lemma StoredIsRecorded(s: System, w: SnapshotId, i: Ip, j: Ip)
    requires Waving(s, w) && i in s.nodes && j in s.nodes && i != j && IsDone(s.nodes[j])
    ensures IsCut(s.nodes[j]) && RecvCut(s.nodes[j], i).Some?
    ensures var r := RecvCut(s.nodes[j], i).value;
            && 0 < r <= |Link(s, j, i).got|
            && StoredChannel(s, i, j) == Recorded(Link(s, j, i).got, |At(ImageOf(s.nodes[j]).peers, i).got|, r - 1)
  {
    var n := s.nodes[j];
    OtherMember(s, i, j);
    assert WaveInv(n, w);
    DoneStored(n, w, i);
    StoredEnd(n, i);
  }

  lemma StoredEnd(n: Node, i: Ip)
    requires IsCut(n) && IsDone(n) && !n.ctrl.active && i in ArtifactOf(n).peers
    requires StoredAt(At(n.peers, i), At(ImageOf(n).peers, i), ArtifactOf(n).peers[i])
    ensures RecvCut(n, i) == ArtifactOf(n).peers[i].recvSeq && RecvCut(n, i).Some?
    ensures var r := RecvCut(n, i).value;
            && 0 < r <= |At(n.peers, i).got|
            && ArtifactOf(n).peers[i].channel == Recorded(At(n.peers, i).got, |At(ImageOf(n).peers, i).got|, r - 1)
  {
  }

  lemma DoneStored(n: Node, w: SnapshotId, i: Ip)
    requires WaveInv(n, w) && IsDone(n) && i in Peers(n.cfg)
    ensures !n.ctrl.active && IsCut(n) && i in ArtifactOf(n).peers
    ensures StoredAt(At(n.peers, i), At(ImageOf(n).peers, i), ArtifactOf(n).peers[i])
  {
    assert WavePart(n, w, i);
  }

  lemma RecordedUnmarked(s: System, w: SnapshotId, i: Ip, j: Ip)
    requires Waving(s, w) && i in s.nodes && j in s.nodes && i != j && IsCut(s.nodes[i]) && RecvCut(s.nodes[j], i).Some?
    ensures var sent := At(ImageOf(s.nodes[i]).peers, j).sent;
            IsCut(s.nodes[j]) && |sent| < |Link(s, j, i).got| && sent <= Link(s, j, i).got
            && forall x :: |At(ImageOf(s.nodes[j]).peers, i).got| <= x < |sent| ==> !sent[x].payload.Marker?
  {
    var b := s.nodes[j];
    assert WaveInv(b, w) && WavePart(b, w, i);
    CoordinatesAgree(s, w, i, j);
    SendCutIsImage(s, w, i, j);
    RecvAfterImage(s, w, i, j);
    LinkOf(s, i, j);
    var sent, now := At(ImageOf(s.nodes[i]).peers, j).sent, Link(s, j, i).got;
    forall x | |At(ImageOf(b).peers, i).got| <= x < |sent| ensures !sent[x].payload.Marker? {
      assert now[x] == sent[x];
    }
  }

  /**
   * A recorded channel is empty if and only if the marker of `i` was the first message `j` took in from it after its cut,
   * as it is when that marker is what cut `j`; and then `j` had taken in all that `i` had sent.
   */
  lemma CutByMarkerIsEmpty(s: System, w: SnapshotId, i: Ip, j: Ip)
    requires Waving(s, w) && i in s.nodes && j in s.nodes && i != j && IsDone(s.nodes[i]) && IsDone(s.nodes[j])
    ensures IsCut(s.nodes[i]) && IsCut(s.nodes[j])
    ensures var sent, got := At(ImageOf(s.nodes[i]).peers, j).sent, At(ImageOf(s.nodes[j]).peers, i).got;
            && (StoredChannel(s, i, j) == [] <==> got == sent)
            && (StoredChannel(s, i, j) == [] <==> RecvCut(s.nodes[j], i) == Some(|got| + 1))
  {
    ChannelExact(s, w, i, j);
    assert |StoredChannel(s, i, j)| == |At(ImageOf(s.nodes[i]).peers, j).sent| - |At(ImageOf(s.nodes[j]).peers, i).got|;
    DoneKnowsReceive(s, w, i, j);
    CoordinatesAgree(s, w, i, j);
    SendCutIsImage(s, w, i, j);
  }

  // ---------- One cut, one marker a channel ----------

  /** Where the wave's marker is on the channel from `i` to `j`: right behind what the image had sent, once `i` is cut. */
  function MarkerPlace(s: System, i: Ip, j: Ip): Option<nat>
    requires i in s.nodes
  {
    if i != j && IsCut(s.nodes[i]) then Some(|At(ImageOf(s.nodes[i]).peers, j).sent| + 1) else None
  }

  /** A member sends the wave's marker once on each channel to another member if it is cut, and otherwise never. */
  lemma OneMarkerPerChannel(s: System, w: SnapshotId, i: Ip, j: Ip)
    requires Waving(s, w) && i in s.nodes && j in s.nodes
    ensures MarkedAt(Link(s, i, j).sent, MarkerPlace(s, i, j), w)
  {
    SentMarked(s, w, i, j);
    KnownCut(s, w, i, j);
  }

  lemma SentMarked(s: System, w: SnapshotId, i: Ip, j: Ip)
    requires Waving(s, w) && i in s.nodes && j in s.nodes
    ensures MarkedAt(Link(s, i, j).sent, SendCut(s.nodes[i], j), w)
  {
    Ends(s, w, i, j);
  }

  lemma KnownCut(s: System, w: SnapshotId, i: Ip, j: Ip)
    requires Waving(s, w) && i in s.nodes && j in s.nodes
    ensures SendCut(s.nodes[i], j) == MarkerPlace(s, i, j)
  {
    if i != j && IsCut(s.nodes[i]) {
      SendCutIsImage(s, w, i, j);
      PlaceIs(s, i, j);
    } else {
      UnsentMarker(s, w, i, j);
      NoPlace(s, i, j);
    }
  }

  lemma PlaceIs(s: System, i: Ip, j: Ip)
    requires i in s.nodes && i != j && IsCut(s.nodes[i])
    ensures MarkerPlace(s, i, j) == Some(|At(ImageOf(s.nodes[i]).peers, j).sent| + 1)
  {
  }

  lemma NoPlace(s: System, i: Ip, j: Ip)
    requires i in s.nodes && (i == j || !IsCut(s.nodes[i]))
    ensures MarkerPlace(s, i, j) == None
  {
  }

  lemma UnsentMarker(s: System, w: SnapshotId, i: Ip, j: Ip)
    requires Waving(s, w) && i in s.nodes && j in s.nodes && (i == j || !IsCut(s.nodes[i]))
    ensures SendCut(s.nodes[i], j) == None
  {
    if i == j {
      SelfUncut(s, w, i);
    } else {
      Ends(s, w, i, j);
      UncutUnmarked(s.nodes[i], w, j);
    }
  }

  lemma SelfUncut(s: System, w: SnapshotId, i: Ip)
    requires Waving(s, w) && i in s.nodes
    ensures SendCut(s.nodes[i], i) == None
  {
    assert MemberInv(s, i) && WaveInv(s.nodes[i], w);
    assert i !in Peers(s.nodes[i].cfg);
    SelfUnmarked(s.nodes[i], w, i);
  }

  lemma UncutUnmarked(n: Node, w: SnapshotId, k: Ip)
    requires PhaseInv(n, w) && !IsCut(n)
    ensures SendCut(n, k) == None && RecvCut(n, k) == None
  {
  }

  /**
   * What the image has debited was emitted, drained and sent before the marker: nothing waits in its app, and what it
   * had sent on each channel is all that precedes the marker there.
   */
  lemma DebitsPrecedeMarker(s: System, w: SnapshotId, i: Ip, j: Ip)
    requires Waving(s, w) && i in s.nodes && j in s.nodes && i != j && IsCut(s.nodes[i])
    ensures var image := ImageOf(s.nodes[i]); var before := At(image.peers, j).sent;
            && image.app.pending == []
            && before <= Link(s, i, j).sent && |before| < |Link(s, i, j).sent|
            && Link(s, i, j).sent[|before|].payload == Marker(w)
  {
    Ends(s, w, i, j);
    SendCutIsImage(s, w, i, j);
    MarkerBehind(Link(s, i, j).sent, At(ImageOf(s.nodes[i]).peers, j).sent, SendCut(s.nodes[i], j), w);
  }

  lemma MarkerBehind(sent: seq<Message>, before: seq<Message>, cut: Option<nat>, w: SnapshotId)
    requires MarkedAt(sent, cut, w) && cut == Some(|before| + 1)
    ensures |before| < |sent| && sent[|before|].payload == Marker(w)
  {
  }

  /** Nothing still on its way to a member that is done is a marker: it is never cut again. */
  lemma NoMarkerLeft(s: System, w: SnapshotId, i: Ip, j: Ip)
    requires Waving(s, w) && i in s.nodes && j in s.nodes && IsDone(s.nodes[j])
    ensures forall x :: |Link(s, j, i).got| <= x < |Link(s, i, j).sent| ==> !Link(s, i, j).sent[x].payload.Marker?
  {
    SentMarked(s, w, i, j);
    if i == j {
      SelfUncut(s, w, i);
    } else {
      DoneKnowsReceive(s, w, i, j);
      CoordinatesAgree(s, w, i, j);
      RecvAfterImage(s, w, i, j);
    }
    MarkerBefore(Link(s, i, j).sent, SendCut(s.nodes[i], j), |Link(s, j, i).got|, w);
  }

  lemma MarkerBefore(sent: seq<Message>, cut: Option<nat>, got: nat, w: SnapshotId)
    requires MarkedAt(sent, cut, w) && OnlyWave(sent, got, w) && (cut.Some? ==> cut.value <= got)
    ensures forall x :: got <= x < |sent| ==> !sent[x].payload.Marker?
  {
  }

  lemma StoresOnce(n: Node, r: Node, w: SnapshotId)
    requires MemberWave(n, w) && MemberWave(r, w) && Keeps(n, r)
    ensures IsCut(n) ==> IsCut(r) && r.host.images == n.host.images
    ensures IsDone(n) ==> IsDone(r) && r.host.artifacts == n.host.artifacts
  {
  }

  lemma ApplyStores(s: System, a: Action, j: Ip)
    requires WellFormed(s) && Enabled(s, a) && j in s.nodes
    ensures Keeps(s.nodes[j], Apply(s, a).nodes[j])
  {
    match a
    case Local(k, e) => PutKeeps(s, k, e, s.net, j);
    case Outside(k, from, m) => PutKeeps(s, k, Arrive(from, Frame.Plain(m)), s.net, j);
    case Deliver(p) => PutKeeps(s, p.dst, Arrive(p.src, p.frame), s.net - multiset{p}, j);
    case Lose(_) =>
    case Repeat(_) =>
  }

  lemma PutKeeps(s: System, k: Ip, e: Event, net: multiset<Packet>, j: Ip)
    requires k in s.nodes && j in s.nodes && PlainChannels(s.nodes[k].ctrl.channels)
    ensures Keeps(s.nodes[j], Put(s, k, React(s.nodes[k], e), net).nodes[j])
  {
  }

  /** Once taken, a cut is never taken again, and once stored, never stored again. */
  lemma {:induction false} CutOnce(s: System, run: seq<Action>, w: SnapshotId, j: Ip)
    requires WaveSys(s, w) && LegalWave(s, run, w) && j in s.nodes
    ensures Legal(s, run) && j in Run(s, run).nodes
    ensures var n, r := s.nodes[j], Run(s, run).nodes[j];
            && (IsCut(n) ==> r.host.images == n.host.images)
            && (IsDone(n) ==> r.host.artifacts == n.host.artifacts)
    decreases |run|
  {
    LegalWaveIsLegal(s, run, w);
    if run != [] {
      var t := Apply(s, run[0]);
      ApplyInWave(s, run[0], w);
      assert MemberWave(s.nodes[j], w) && MemberWave(t.nodes[j], w);
      ApplyStores(s, run[0], j);
      StoresOnce(s.nodes[j], t.nodes[j], w);
      CutOnce(t, run[1..], w, j);
    }
  }

  // ---------- The cut conserves the total ----------

  lemma DoneIsCut(s: System, w: SnapshotId)
    requires WaveSys(s, w) && AllDone(s)
    ensures forall j :: j in s.nodes ==> IsCut(s.nodes[j])
  {
    forall j | j in s.nodes ensures IsCut(s.nodes[j]) {
      assert MemberWave(s.nodes[j], w);
    }
  }

  /** The recorded global state: each member as its image holds it. */
  function CutGlobal(s: System): Global
    requires forall j :: j in s.nodes ==> IsCut(s.nodes[j])
  {
    map j | j in s.nodes ::
      var image := ImageOf(s.nodes[j]);
      Side(image.app, image.exits, image.peers)
  }

  /** The values of the recorded channels. */
  function RecordedGrid(s: System): Grid
    requires AllDone(s)
  {
    map i, j | i in s.nodes && j in s.nodes :: (i, j) := SumRecs(StoredChannel(s, i, j))
  }

  /** What members had sent to themselves and not taken in: no marker cuts that channel, and nobody records it. */
  function SelfGrid(g: Global): Grid {
    map i | i in g :: (i, i) := SumMessages(At(g[i].peers, i).sent) - SumMessages(At(g[i].peers, i).got)
  }

  lemma {:induction false} NumberedValue(ms: seq<Message>, lo: nat, hi: nat)
    requires lo <= hi <= |ms|
    ensures SumRecs(Numbered(ms, lo, hi)) == SumMessages(ms[..hi]) - SumMessages(ms[..lo])
    decreases hi
  {
    if hi == lo {
      assert Numbered(ms, lo, hi) == [];
    } else {
      NumberedValue(ms, lo, hi - 1);
      NumberedNext(ms, lo, hi);
      SumRecsAppend(Numbered(ms, lo, hi - 1), [Rec(hi - 1, ms[hi - 1])]);
      assert ms[..hi][..hi - 1] == ms[..hi - 1];
    }
  }

  /** A recorded channel is worth what its sender's image had sent, less what its receiver's had taken in. */
  lemma RecordedCell(s: System, w: SnapshotId, i: Ip, j: Ip)
    requires WaveSys(s, w) && AllDone(s) && i in s.nodes && j in s.nodes
    requires forall k :: k in s.nodes ==> IsCut(s.nodes[k])
    ensures Cell(SlackGrid(CutGlobal(s)), i, j) == Cell(RecordedGrid(s), i, j) + Cell(SelfGrid(CutGlobal(s)), i, j)
  {
    if i == j {
      SelfNotStored(s, w, i);
    } else {
      RecordedValue(s, w, i, j);
    }
    GridCells(s, i, j);
  }

  lemma GridCells(s: System, i: Ip, j: Ip)
    requires AllDone(s) && i in s.nodes && j in s.nodes && forall k :: k in s.nodes ==> IsCut(s.nodes[k])
    ensures var slack := SumMessages(At(ImageOf(s.nodes[i]).peers, j).sent) - SumMessages(At(ImageOf(s.nodes[j]).peers, i).got);
            && Cell(SlackGrid(CutGlobal(s)), i, j) == slack
            && Cell(SelfGrid(CutGlobal(s)), i, j) == (if i == j then slack else 0)
            && Cell(RecordedGrid(s), i, j) == SumRecs(StoredChannel(s, i, j))
  {
    SideCells(CutGlobal(s), i, j);
    RecordedGridCell(s, i, j);
  }

  lemma SideCells(g: Global, i: Ip, j: Ip)
    requires i in g && j in g
    ensures var slack := SumMessages(At(g[i].peers, j).sent) - SumMessages(At(g[j].peers, i).got);
            Cell(SlackGrid(g), i, j) == slack && Cell(SelfGrid(g), i, j) == if i == j then slack else 0
  {
  }

  lemma RecordedGridCell(s: System, i: Ip, j: Ip)
    requires AllDone(s) && i in s.nodes && j in s.nodes
    ensures Cell(RecordedGrid(s), i, j) == SumRecs(StoredChannel(s, i, j))
  {
  }

  lemma RecordedValue(s: System, w: SnapshotId, i: Ip, j: Ip)
    requires WaveSys(s, w) && i in s.nodes && j in s.nodes && i != j && IsDone(s.nodes[i]) && IsDone(s.nodes[j])
    ensures IsCut(s.nodes[i]) && IsCut(s.nodes[j])
    ensures SumRecs(StoredChannel(s, i, j)) ==
            SumMessages(At(ImageOf(s.nodes[i]).peers, j).sent) - SumMessages(At(ImageOf(s.nodes[j]).peers, i).got)
  {
    ChannelExact(s, w, i, j);
    BetweenValue(At(ImageOf(s.nodes[i]).peers, j).sent, At(ImageOf(s.nodes[j]).peers, i).got);
  }

  lemma BetweenValue(sent: seq<Message>, got: seq<Message>)
    requires got <= sent
    ensures SumRecs(Numbered(sent, |got|, |sent|)) == SumMessages(sent) - SumMessages(got)
  {
    NumberedValue(sent, |got|, |sent|);
    assert sent[..|sent|] == sent && sent[..|got|] == got;
  }

  lemma SelfNotStored(s: System, w: SnapshotId, i: Ip)
    requires WaveSys(s, w) && AllDone(s) && i in s.nodes
    ensures StoredChannel(s, i, i) == []
  {
    assert MemberInv(s, i) && MemberWave(s.nodes[i], w);
    assert i !in Peers(s.nodes[i].cfg);
  }

  lemma {:induction false} CutBooks(s: System, w: SnapshotId, ks: seq<Ip>)
    requires WaveSys(s, w) && (forall k :: k in s.nodes ==> IsCut(s.nodes[k])) && forall k :: k in ks ==> k in s.nodes
    ensures WorthTotal(s.mesh, ks, CutGlobal(s)) == BooksTotal(s, ks)
  {
    if ks != [] {
      assert MemberInv(s, ks[0]) && MemberWave(s.nodes[ks[0]], w);
      CutBooks(s, w, ks[1..]);
    }
  }

  /** Image counters plus credits that had left the mesh. At the cut nothing is waiting to be forwarded. */
  function CutHands(s: System, ks: seq<Ip>): int
    requires (forall k :: k in s.nodes ==> IsCut(s.nodes[k])) && forall k :: k in ks ==> k in s.nodes
  {
    if ks == [] then 0
    else ImageOf(s.nodes[ks[0]]).app.counter + SumDatagrams(ImageOf(s.nodes[ks[0]]).exits) + CutHands(s, ks[1..])
  }

  lemma {:induction false} CutHandsTotal(s: System, w: SnapshotId, ks: seq<Ip>)
    requires WaveSys(s, w) && (forall k :: k in s.nodes ==> IsCut(s.nodes[k])) && forall k :: k in ks ==> k in s.nodes
    ensures CutHands(s, ks) == HandTotal(ks, CutGlobal(s))
  {
    if ks != [] {
      assert MemberWave(s.nodes[ks[0]], w);
      CutHandsTotal(s, w, ks[1..]);
    }
  }

  /** The stored snapshot: image counters, exits, and every credit in a recorded channel. */
  function SnapshotTotal(s: System, w: SnapshotId): int
    requires WaveSys(s, w) && AllDone(s)
  {
    DoneIsCut(s, w);
    LiveConsistent(s);
    CutHands(s, s.mesh) + ByRows(RecordedGrid(s), s.mesh, s.mesh)
  }

  /** What the snapshot misses: the net value of messages on the channels from members to themselves. */
  function SelfTotal(s: System, w: SnapshotId): int
    requires WaveSys(s, w) && AllDone(s)
  {
    DoneIsCut(s, w);
    ByRows(SelfGrid(CutGlobal(s)), s.mesh, s.mesh)
  }

  /**
   * A wave that is done everywhere has stored the live total, except for what was then on its way from a member to
   * itself.
   */
  lemma SnapshotConserves(s: System, w: SnapshotId)
    requires WaveSys(s, w) && AllDone(s)
    ensures SnapshotTotal(s, w) + SelfTotal(s, w) == LiveTotal(s)
  {
    DoneIsCut(s, w);
    LiveConsistent(s);
    var g := CutGlobal(s);
    CutHandsTotal(s, w, s.mesh);
    CutBooks(s, w, s.mesh);
    LiveTotalIsBooks(s);
    WorthIsHandsAndSlack(s.mesh, g);
    forall i, k | i in s.mesh && k in s.mesh
      ensures Cell(SlackGrid(g), i, k) == Cell(RecordedGrid(s), i, k) + Cell(SelfGrid(g), i, k)
    {
      RecordedCell(s, w, i, k);
    }
    ByRowsSum(RecordedGrid(s), SelfGrid(g), SlackGrid(g), s.mesh, s.mesh);
  }

  /**
   * From the start of the wave to the stored snapshot the total is the original one if and only if nothing of value
   * was then on its way from members to themselves.
   */
  lemma SnapshotTotalIsOriginal(s: System, run: seq<Action>, w: SnapshotId) returns (t: System)
    requires WaveSys(s, w) && LegalWave(s, run, w)
    ensures Legal(s, run) && t == Run(s, run) && WaveSys(t, w)
    ensures AllDone(t) ==> (SnapshotTotal(t, w) == LiveTotal(s) <==> SelfTotal(t, w) == 0)
  {
    RunInWave(s, run, w);
    TotalIsConserved(s, run);
    t := Run(s, run);
    SnapshotExact(t, w, LiveTotal(s));
  }

  lemma SnapshotExact(s: System, w: SnapshotId, total: int)
    requires WaveSys(s, w) && LiveTotal(s) == total
    ensures AllDone(s) ==> (SnapshotTotal(s, w) == total <==> SelfTotal(s, w) == 0)
  {
    if AllDone(s) {
      SnapshotConserves(s, w);
    }
  }
}
