/** From start-up through snapshots to a restart and beyond, when no member is told to pay itself: the total never changes. */
module Throughout {
  import opened Mesh
  import opened Sidecar
  import opened Bookkeeping
  import opened Ledger
  import opened Network
  import opened Conservation
  import opened Wave
  import opened WaveRun
  import opened ConsistentCut
  import opened Beginning
  import opened Restoration
  import opened Restart
  import opened Storage
  import opened Selfless

  /** No action of the run brings a member a TRANSFER of value that names this member. */
  ghost predicate NoneSelfPays(run: seq<Action>) {
    forall j :: NeverBids(run, j, false)
  }

  /** Nothing on its way makes any member pay itself. */
  ghost predicate NonePaysItself(s: System) {
    forall j :: AllSpare(s, j, false)
  }

  lemma RunNonePays(s: System, run: seq<Action>)
    requires Inv(s) && Legal(s, run) && NonePaysItself(s) && NoneSelfPays(run)
    ensures NonePaysItself(Run(s, run))
  {
    forall j ensures AllSpare(Run(s, run), j, false) {
      RunSpares(s, run, j, false);
    }
  }

  // ---------- What a spared member has sent to itself ----------

  lemma {:induction false} Worthless(ms: seq<Message>)
    requires forall m :: m in ms ==> Value(m) == 0
    ensures SumMessages(ms) == 0
    decreases |ms|
  {
    if ms != [] {
      Worthless(ms[..|ms| - 1]);
    }
  }

  lemma SelfLogs(s: System, w: SnapshotId, j: Ip)
    requires Waving(s, w) && j in s.nodes && IsCut(s.nodes[j])
    ensures var c := At(ImageOf(s.nodes[j]).peers, j); c.sent <= Link(s, j, j).sent && c.got <= Link(s, j, j).sent
  {
    Ends(s, w, j, j);
    PastOf(At(ImageOf(s.nodes[j]).peers, j), Link(s, j, j));
  }

  lemma PastOf(c: Peer, p: Peer)
    requires SendsPast(c, p) && p.got <= p.sent
    ensures c.sent <= p.sent && c.got <= p.sent
  {
  }

  lemma SparedNet(c: Peer, log: seq<Message>)
    requires c.sent <= log && c.got <= log && forall m :: m in log ==> Value(m) == 0
    ensures Net(c) == 0
  {
    Worthless(c.sent);
    Worthless(c.got);
  }

  lemma SparedSelfNet(s: System, w: SnapshotId, j: Ip)
    requires Waving(s, w) && j in s.nodes && IsCut(s.nodes[j]) && AllSpare(s, j, false)
    ensures SelfNet(s.nodes[j]) == 0
  {
    assert MemberInv(s, j) && Spares(s.nodes[j], j, false);
    SelfLogs(s, w, j);
    SparedNet(At(ImageOf(s.nodes[j]).peers, j), Link(s, j, j).sent);
  }

  lemma {:induction false} SparedNets(s: System, w: SnapshotId, ks: seq<Ip>)
    requires Waving(s, w) && NonePaysItself(s) && forall k :: k in ks ==> k in s.nodes && IsCut(s.nodes[k])
    ensures SelfNets(s, ks) == 0
  {
    if ks != [] {
      SparedSelfNet(s, w, ks[0]);
      SparedNets(s, w, ks[1..]);
    }
  }

  lemma SparedTotal(s: System, w: SnapshotId)
    requires WaveSys(s, w) && AllDone(s) && NonePaysItself(s)
    ensures SelfTotal(s, w) == 0 && SnapshotTotal(s, w) == LiveTotal(s)
  {
    DoneIsRecoverable(s, w);
    LiveConsistent(s);
    SelfTotalIs(s, w);
    SparedNets(s, w, s.mesh);
    SnapshotConserves(s, w);
  }

  // ---------- The whole story ----------

  /** A wave, if no member is told to pay itself: what is stored when all are done is what the mesh had before. */
  lemma SnapshotKeepsTotal(s: System, run: seq<Action>, w: SnapshotId) returns (t: System)
    requires ReadyFor(s, w) && LegalWave(s, run, w) && NonePaysItself(s) && NoneSelfPays(run)
    ensures Legal(s, run) && t == Run(s, run) && WaveSys(t, w) && NonePaysItself(t) && LiveTotal(t) == LiveTotal(s)
    ensures AllDone(t) ==> SnapshotTotal(t, w) == LiveTotal(s)
  {
    ReadyBegins(s, w);
    RunInWave(s, run, w);
    TotalIsConserved(s, run);
    RunNonePays(s, run);
    t := Run(s, run);
    if AllDone(t) {
      SparedTotal(t, w);
    }
  }

  lemma StoredIsClear(s: System, e: map<Ip, Store>)
    requires s.nodes.Keys <= e.Keys && NonePaysItself(AllBehind(s, e))
    ensures NonePaysItself(s)
  {
    forall j ensures AllSpare(s, j, false) {
      SpareBehind(s, e, j);
    }
  }

  lemma SpareBehind(s: System, e: map<Ip, Store>, j: Ip)
    requires s.nodes.Keys <= e.Keys && AllSpare(AllBehind(s, e), j, false)
    ensures AllSpare(s, j, false)
  {
    forall k | k in s.nodes ensures Spares(s.nodes[k], j, false) {
      assert Spares(AllBehind(s, e).nodes[k], j, false);
      SameSpares(AllBehind(s, e).nodes[k], s.nodes[k], j, false);
    }
  }

  lemma BehindTotal(s: System, e: map<Ip, Store>)
    requires Inv(s) && s.nodes.Keys <= e.Keys && Inv(AllBehind(s, e))
    ensures LiveTotal(AllBehind(s, e)) == LiveTotal(s)
  {
    LiveTotalIsBooks(s);
    LiveTotalIsBooks(AllBehind(s, e));
    BooksSame(s, AllBehind(s, e), s.mesh);
  }

  /**
   * The mesh starts with some counters, runs in any way, however often it is snapshotted, and comes to be between waves.
   * It then runs a wave, which `t` is without what was stored earlier. If no member was told to pay itself, then as soon
   * as the wave is done everywhere, what it stored is worth what the mesh started with, and so is the mesh after a
   * restart from it and any run from there.
   */
  lemma StartToRestart(start: System, before: seq<Action>, run: seq<Action>, w: SnapshotId, later: seq<Action>)
    returns (t: System, e: map<Ip, Store>, r: System)
    requires Fresh(start) && WellFormed(start) && Legal(start, before)
    requires ReadyAgain(Run(start, before), w) && LegalNamed(Run(start, before), run, w)
    requires NoneSelfPays(before) && NoneSelfPays(run)
    ensures Legal(Run(start, before), run) && (forall k :: k in start.mesh ==> k in start.nodes)
    ensures t.nodes.Keys <= e.Keys && Run(Run(start, before), run) == AllBehind(t, e) && WaveSys(t, w)
    ensures AllDone(t) ==> SnapshotTotal(t, w) == CounterTotal(start, start.mesh)
    ensures AllDone(t) ==> Recoverable(t) && r == RestoredSystem(t) && Inv(r) && LiveTotal(r) == CounterTotal(start, start.mesh)
    ensures AllDone(t) && Legal(r, later) ==>
              Inv(Run(r, later)) && LiveTotal(Run(r, later)) == CounterTotal(start, start.mesh)
  {
    var s := Run(start, before);
    BeforeTheWave(start, before);
    t, e := TheWave(s, run, w);
    r := t;
    if AllDone(t) {
      r := After(t, w, later);
      RestartConserves(t, w);
    }
  }

  lemma BeforeTheWave(start: System, before: seq<Action>)
    requires Fresh(start) && WellFormed(start) && Legal(start, before) && NoneSelfPays(before)
    ensures var s := Run(start, before);
            && Inv(s) && NonePaysItself(s) && (forall k :: k in start.mesh ==> k in start.nodes)
            && LiveTotal(s) == CounterTotal(start, start.mesh)
  {
    StartingTotal(start, before);
    FreshInv(start);
    forall j ensures AllSpare(start, j, false) {
      FreshSpares(start, j, false);
    }
    RunNonePays(start, before);
  }

  lemma TheWave(s: System, run: seq<Action>, w: SnapshotId) returns (t: System, e: map<Ip, Store>)
    requires ReadyAgain(s, w) && LegalNamed(s, run, w) && NonePaysItself(s) && NoneSelfPays(run)
    ensures Legal(s, run) && t.nodes.Keys <= e.Keys && Run(s, run) == AllBehind(t, e) && WaveSys(t, w)
    ensures AllDone(t) ==> SnapshotTotal(t, w) == LiveTotal(s)
  {
    var q;
    q, e := LaterWavesToo(s, run, w);
    StoredIsClear(q, e);
    BehindTotal(q, e);
    t := SnapshotKeepsTotal(q, run, w);
  }

  // ---------- Again and again ----------

  lemma RestoredSpares(s: System, w: SnapshotId, k: Ip, j: Ip)
    requires WaveSys(s, w) && AllDone(s) && Recoverable(s) && AllSpare(s, j, false) && k in s.nodes
    ensures Spares(RestoredSystem(s).nodes[k], j, false)
  {
    var n := s.nodes[k];
    MemberRestorable(s, w, k);
    StoredShape(n, w);
    SeededSpares(s, w, k, j);
    if k == j {
      ArtifactSpares(s, w, j);
    }
    ReplaySpares(SeededNode(n), ChannelsOf(ArtifactOf(n)), n.cfg.order, j, false);
  }

  lemma SeededSpares(s: System, w: SnapshotId, k: Ip, j: Ip)
    requires WaveSys(s, w) && AllDone(s) && Recoverable(s) && AllSpare(s, j, false) && k in s.nodes
    ensures Spares(SeededNode(s.nodes[k]), j, false)
  {
    var n := s.nodes[k];
    MemberRestorable(s, w, k);
    SeededNodeAt(n, w, j);
    assert Spares(n, j, false);
    if j in Peers(n.cfg) {
      SeededIs(n, w, j);
    } else {
      FreshLink(n, w, j);
    }
  }

  /** Every message of a stored channel is on the log of its sender. */
  lemma StoredWasSent(s: System, w: SnapshotId, j: Ip, k: Ip, m: Message)
    requires WaveSys(s, w) && j in s.nodes && IsDone(s.nodes[j]) && k in ArtifactOf(s.nodes[j]).peers
    requires exists r :: r in ArtifactOf(s.nodes[j]).peers[k].channel && r.msg == m
    ensures k in s.nodes && k != j && m in Link(s, k, j).sent
  {
    var n := s.nodes[j];
    assert MemberInv(s, j) && MemberWave(n, w);
    assert k in Peers(n.cfg) && k in SetOf(s.mesh);
    DoneStored(n, w, k);
    Ahead(s, k, j);
    StoredInLog(At(n.peers, k), At(ImageOf(n).peers, k), ArtifactOf(n).peers[k], Link(s, k, j).sent, m);
  }

  lemma StoredInLog(p: Peer, c: Peer, a: PeerCut, log: seq<Message>, m: Message)
    requires StoredAt(p, c, a) && p.got <= log && exists r :: r in a.channel && r.msg == m
    ensures m in log
  {
    var r :| r in a.channel && r.msg == m;
    RecordedHas(p.got, |c.got|, a.recvSeq.value - 1, r);
    assert log[r.sn] == m;
  }

  lemma ArtifactSpares(s: System, w: SnapshotId, j: Ip)
    requires WaveSys(s, w) && AllDone(s) && Recoverable(s) && AllSpare(s, j, false) && j in s.nodes
    ensures SparesRecorded(ChannelsOf(ArtifactOf(s.nodes[j])), j, false)
  {
    var channels := ChannelsOf(ArtifactOf(s.nodes[j]));
    forall k: Ip, r: Rec | k in channels && r in channels[k] ensures !Names(r.msg, j, false) {
      StoredWasSent(s, w, j, k, r.msg);
      SentIsUnnamed(s, k, j, r.msg);
    }
  }

  lemma SentIsUnnamed(s: System, k: Ip, j: Ip, m: Message)
    requires AllSpare(s, j, false) && k in s.nodes && m in Link(s, k, j).sent
    ensures !Names(m, j, false)
  {
    assert Spares(s.nodes[k], j, false);
  }

  /** The restarted mesh makes no member pay itself either: snapshots and restarts may follow each other. */
  lemma RestartSpares(s: System, w: SnapshotId)
    requires WaveSys(s, w) && AllDone(s) && NonePaysItself(s)
    ensures Recoverable(s) && NonePaysItself(RestoredSystem(s))
  {
    DoneIsRecoverable(s, w);
    forall j ensures AllSpare(RestoredSystem(s), j, false) {
      forall k | k in s.nodes ensures Spares(RestoredSystem(s).nodes[k], j, false) {
        RestoredSpares(s, w, k, j);
      }
    }
  }
}
