/** Restarting all members from one stored wave: the links meet, the total is the snapshot's, and new waves may begin. */
module Restart {
  import opened Mesh
  import opened Counter
  import opened Sidecar
  import opened Bookkeeping
  import opened Sums
  import opened Ledger
  import opened Network
  import opened Conservation
  import opened Wave
  import opened WaveRun
  import opened ConsistentCut
  import opened Beginning
  import opened Restoration

  ghost predicate Recoverable(s: System) {
    forall j :: j in s.nodes ==>
      IsCut(s.nodes[j]) && IsDone(s.nodes[j]) && PlainChannels(ChannelsOf(ArtifactOf(s.nodes[j])))
  }

  /** Everything is stopped and the network is empty; then every member is started from its image and its artifact. */
  function RestoredSystem(s: System): System
    requires Recoverable(s)
  {
    System(s.mesh, map j | j in s.nodes :: Restored(s.nodes[j]), multiset{})
  }

  lemma MemberRestorable(s: System, w: SnapshotId, j: Ip)
    requires WaveSys(s, w) && AllDone(s) && j in s.nodes
    ensures Restorable(s.nodes[j], w) && PlainChannels(ChannelsOf(ArtifactOf(s.nodes[j])))
    ensures s.nodes[j].cfg.self == j && s.nodes[j].cfg.mesh == s.mesh
  {
    assert MemberInv(s, j) && MemberWave(s.nodes[j], w);
    StoredShape(s.nodes[j], w);
  }

  lemma DoneIsRecoverable(s: System, w: SnapshotId)
    requires WaveSys(s, w) && AllDone(s)
    ensures Recoverable(s)
  {
    forall j | j in s.nodes ensures IsCut(s.nodes[j]) && PlainChannels(ChannelsOf(ArtifactOf(s.nodes[j]))) {
      MemberRestorable(s, w, j);
    }
  }

  /** Both sides stand at the same place: as much was taken in as was sent, and nothing is outstanding. */
  ghost predicate Level(a: Peer, b: Peer) {
    b.got == a.sent && b.buffer == map[] && a.acked == Below(|a.sent|)
  }

  lemma RebuiltLevel(p: Peer, c: Peer, s: nat, r: nat, a: Peer, p': Peer, c': Peer, s': nat, r': nat, b: Peer)
    requires Rebuilt(p, c, s, r, a) && Rebuilt(p', c', s', r', b) && s == r' && p'.got <= p.sent
    ensures Level(a, b)
  {
  }

  lemma LinkResumed(s: System, w: SnapshotId, i: Ip, j: Ip)
    requires WaveSys(s, w) && AllDone(s) && i in s.nodes && j in s.nodes && Recoverable(s)
    ensures Link(RestoredSystem(s), i, j) == Resumed(s.nodes[i], j)
  {
    MemberRestorable(s, w, i);
    RestoredAt(s.nodes[i], w, j);
  }

  lemma OthersLevel(s: System, w: SnapshotId, i: Ip, j: Ip)
    requires WaveSys(s, w) && AllDone(s) && i in s.nodes && j in s.nodes && i != j && Recoverable(s)
    ensures Level(Resumed(s.nodes[i], j), Resumed(s.nodes[j], i))
  {
    var a, b := s.nodes[i], s.nodes[j];
    MemberRestorable(s, w, i);
    MemberRestorable(s, w, j);
    OtherMember(s, i, j);
    OtherMember(s, j, i);
    ResumedIs(a, w, j);
    ResumedIs(b, w, i);
    CoordinatesAgree(s, w, i, j);
    Ahead(s, i, j);
    RebuiltLevel(At(a.peers, j), At(ImageOf(a).peers, j), SendCut(a, j).value, RecvCut(a, j).value, Resumed(a, j),
                 At(b.peers, i), At(ImageOf(b).peers, i), SendCut(b, i).value, RecvCut(b, i).value, Resumed(b, i));
  }

  /** After the restart every link is consistent and empty. */
  lemma LinksMeet(s: System, w: SnapshotId, i: Ip, j: Ip)
    requires WaveSys(s, w) && AllDone(s) && i in s.nodes && j in s.nodes && Recoverable(s)
    ensures Level(Link(RestoredSystem(s), i, j), Link(RestoredSystem(s), j, i))
  {
    LinkResumed(s, w, i, j);
    LinkResumed(s, w, j, i);
    if i == j {
      MemberRestorable(s, w, i);
      assert i !in Peers(s.nodes[i].cfg);
      FreshLink(s.nodes[i], w, i);
    } else {
      OthersLevel(s, w, i, j);
    }
  }

  lemma LevelLink(a: Peer, b: Peer)
    requires Level(a, b)
    ensures LinkInv(a, b)
  {
  }

  lemma GotIsSound(s: System, j: Ip)
    requires Inv(s) && j in s.nodes
    ensures SoundGot(s.nodes[j])
  {
    assert MemberInv(s, j);
    forall k, m | k in Peers(s.nodes[j].cfg) && m in At(s.nodes[j].peers, k).got ensures Sound(m) {
      assert k in SetOf(s.mesh);
      assert MemberInv(s, k);
      LinkOf(s, k, j);
      assert m in Link(s, k, j).sent;
    }
  }

  lemma RestoredMember(s: System, w: SnapshotId, j: Ip)
    requires WaveSys(s, w) && AllDone(s) && j in s.nodes && Recoverable(s)
    ensures MemberInv(RestoredSystem(s), j)
    ensures Balance(RestoredSystem(s).nodes[j]) == Balance(s.nodes[j]) - SelfNet(s.nodes[j])
  {
    var n := s.nodes[j];
    assert MemberInv(s, j);
    MemberRestorable(s, w, j);
    GotIsSound(s, j);
    RestoredBooks(n, w);
    RestoredSteady(n, w);
  }

  /** The restarted mesh is in order: whatever holds of every run from an orderly state holds of its runs. */
  lemma RestartIsOrderly(s: System, w: SnapshotId)
    requires WaveSys(s, w) && AllDone(s)
    ensures Recoverable(s) && Inv(RestoredSystem(s))
  {
    DoneIsRecoverable(s, w);
    var r := RestoredSystem(s);
    forall j | j in r.nodes ensures MemberInv(r, j) {
      RestoredMember(s, w, j);
    }
    RestartFormed(s);
    forall i, j | i in r.nodes && j in r.nodes ensures LinkInv(Link(r, i, j), Link(r, j, i)) {
      LinksMeet(s, w, i, j);
      LevelLink(Link(r, i, j), Link(r, j, i));
    }
  }

  lemma RestartFormed(s: System)
    requires WellFormed(s) && Recoverable(s)
    ensures WellFormed(RestoredSystem(s))
  {
    forall j | j in s.nodes ensures Restored(s.nodes[j]).ctrl == IDLE {
      RestoredIdle(s.nodes[j]);
    }
    FormedFromIdle(RestoredSystem(s), s);
  }

  lemma FormedFromIdle(r: System, s: System)
    requires WellFormed(s) && r.mesh == s.mesh && r.nodes.Keys == s.nodes.Keys
    requires forall j :: j in r.nodes ==> r.nodes[j].ctrl == IDLE
    ensures WellFormed(r)
  {
  }

  // ---------- The total ----------

  function SelfNets(s: System, ks: seq<Ip>): int
    requires forall k :: k in ks ==> k in s.nodes && IsCut(s.nodes[k])
  {
    if ks == [] then 0 else SelfNet(s.nodes[ks[0]]) + SelfNets(s, ks[1..])
  }

  lemma {:induction false} RestoredBooksTotal(s: System, w: SnapshotId, ks: seq<Ip>)
    requires WaveSys(s, w) && AllDone(s) && Recoverable(s) && forall k :: k in ks ==> k in s.nodes
    ensures BooksTotal(RestoredSystem(s), ks) == BooksTotal(s, ks) - SelfNets(s, ks)
  {
    if ks != [] {
      RestoredMember(s, w, ks[0]);
      RestoredBooksTotal(s, w, ks[1..]);
    }
  }

  lemma {:induction false} DiagonalRow(g: Global, i: Ip, ks: seq<Ip>)
    requires i in g && Distinct(ks)
    ensures RowTotal(SelfGrid(g), i, ks) == if i in ks then Net(At(g[i].peers, i)) else 0
  {
    if ks != [] {
      assert ks == [ks[0]] + ks[1..];
      DiagonalRow(g, i, ks[1..]);
    }
  }

  lemma {:induction false} DiagonalTotal(s: System, w: SnapshotId, rows: seq<Ip>)
    requires WaveSys(s, w) && Recoverable(s) && forall k :: k in rows ==> k in s.nodes && k in s.mesh
    ensures ByRows(SelfGrid(CutGlobal(s)), rows, s.mesh) == SelfNets(s, rows)
  {
    if rows != [] {
      assert MemberInv(s, rows[0]);
      DiagonalRow(CutGlobal(s), rows[0], s.mesh);
      DiagonalTotal(s, w, rows[1..]);
    }
  }

  /** What is restored is exactly what was stored. */
  lemma RestartConserves(s: System, w: SnapshotId)
    requires WaveSys(s, w) && AllDone(s)
    ensures Recoverable(s) && Inv(RestoredSystem(s))
    ensures LiveTotal(RestoredSystem(s)) == SnapshotTotal(s, w)
  {
    RestartIsOrderly(s, w);
    RestoredTotal(s, w);
    LiveTotalIsBooks(RestoredSystem(s));
    SnapshotConserves(s, w);
  }

  lemma RestoredTotal(s: System, w: SnapshotId)
    requires WaveSys(s, w) && AllDone(s) && Recoverable(s)
    ensures forall k :: k in s.mesh ==> k in s.nodes
    ensures BooksTotal(RestoredSystem(s), s.mesh) == LiveTotal(s) - SelfTotal(s, w)
  {
    LiveTotalIsBooks(s);
    RestoredBooksTotal(s, w, s.mesh);
    SelfTotalIs(s, w);
  }

  lemma SelfTotalIs(s: System, w: SnapshotId)
    requires WaveSys(s, w) && AllDone(s) && Recoverable(s) && forall k :: k in s.mesh ==> k in s.nodes
    ensures SelfTotal(s, w) == SelfNets(s, s.mesh)
  {
    DiagonalTotal(s, w, s.mesh);
  }

  // ---------- Counters alone ----------

  /** What a message makes the app it is delivered to emit: the credit of a transfer. */
  function TransferAmount(m: Message): int {
    if m.dstPort == APP_PORT && m.payload.App? && m.payload.command.Transfer? then m.payload.command.amount else 0
  }

  function SumTransfers(rs: seq<Rec>): int {
    if rs == [] then 0 else TransferAmount(rs[0].msg) + SumTransfers(rs[1..])
  }

  function TransferValues(channels: map<Ip, seq<Rec>>): map<Ip, int> {
    map k | k in channels :: SumTransfers(channels[k])
  }

  /** A sound message makes an app emit exactly the amount it transfers. */
  lemma ReceiveEmits(a: App, from: Ip, m: Message)
    requires Sound(m)
    ensures SumDatagrams(a.Receive(from, m).pending) == SumDatagrams(a.pending) + TransferAmount(m)
  {
    ReceiveConserves(a, from, m);
  }

  lemma {:induction false} DeliverAllEmits(n: Node, from: Ip, rs: seq<Rec>)
    requires !n.ctrl.active && PlainChannels(n.ctrl.channels) && PlainRecords(rs) && forall r :: r in rs ==> Sound(r.msg)
    ensures SumDatagrams(DeliverAll(n, from, rs).app.pending) == SumDatagrams(n.app.pending) + SumTransfers(rs)
    decreases |rs|
  {
    if rs != [] {
      ReplayDelivers(n, from, rs[0].sn, rs[0].msg);
      ReceiveEmits(n.app, from, rs[0].msg);
      DeliverAllEmits(Sidecar.Deliver(n, from, rs[0].sn, rs[0].msg), from, rs[1..]);
    }
  }

  /** Replaying recorded channels makes the app emit exactly what they transfer. */
  lemma {:induction false} ReplayEmits(n: Node, channels: map<Ip, seq<Rec>>, ks: seq<Ip>)
    requires !n.ctrl.active && PlainChannels(n.ctrl.channels) && PlainChannels(channels) && SoundChannels(channels)
    requires forall k :: k in channels ==> Ascending(channels[k])
    ensures SumDatagrams(Replay(n, channels, ks).app.pending) ==
            SumDatagrams(n.app.pending) + Total(ks, TransferValues(channels))
    decreases |ks|
  {
    if ks != [] {
      if ks[0] in channels {
        SortIdentity(channels[ks[0]]);
        DeliverAllEmits(n, ks[0], channels[ks[0]]);
        ReplayEmits(DeliverAll(n, ks[0], SortBySeq(channels[ks[0]])), channels, ks[1..]);
      } else {
        ReplayEmits(n, channels, ks[1..]);
      }
    }
  }

  /** Money that restored apps have emitted while the recording was replayed. */
  function EmittedTotal(s: System, ks: seq<Ip>): int
    requires forall k :: k in ks ==> k in s.nodes
  {
    if ks == [] then 0 else SumDatagrams(s.nodes[ks[0]].app.pending) + EmittedTotal(s, ks[1..])
  }

  /** Money sent to where no member keeps a counter. */
  function ExitTotal(s: System, ks: seq<Ip>): int
    requires forall k :: k in ks ==> k in s.nodes
  {
    if ks == [] then 0 else SumDatagrams(s.nodes[ks[0]].exits) + ExitTotal(s, ks[1..])
  }

  lemma {:induction false} HandsSplit(s: System, ks: seq<Ip>)
    requires forall k :: k in ks ==> k in s.nodes
    ensures HandTotal(ks, Live(s)) == CounterTotal(s, ks) + EmittedTotal(s, ks) + ExitTotal(s, ks)
  {
    if ks != [] {
      HandsSplit(s, ks[1..]);
    }
  }

  /** The amounts of all TRANSFERs in the stored channels. */
  function TransferTotal(s: System, ks: seq<Ip>): int
    requires AllDone(s) && forall k :: k in ks ==> k in s.nodes
  {
    if ks == [] then 0
    else Total(s.mesh, TransferValues(ChannelsOf(ArtifactOf(s.nodes[ks[0]])))) + TransferTotal(s, ks[1..])
  }

  lemma RestoredEmits(n: Node, w: SnapshotId)
    requires Restorable(n, w) && SoundGot(n) && PlainChannels(ChannelsOf(ArtifactOf(n)))
    ensures SumDatagrams(Restored(n).app.pending) == Total(n.cfg.mesh, TransferValues(ChannelsOf(ArtifactOf(n))))
  {
    var channels := ChannelsOf(ArtifactOf(n));
    StoredShape(n, w);
    StoredSound(n, w);
    ReplayEmits(SeededNode(n), channels, n.cfg.order);
    forall k | k in TransferValues(channels) ensures k in n.cfg.order && k in n.cfg.mesh {
      assert k in Peers(n.cfg) && k in SetOf(n.cfg.order);
    }
    TotalPermute(n.cfg.order, n.cfg.mesh, TransferValues(channels));
  }

  lemma {:induction false} RestoredEmitsAll(s: System, w: SnapshotId, ks: seq<Ip>)
    requires WaveSys(s, w) && AllDone(s) && Recoverable(s) && forall k :: k in ks ==> k in s.nodes
    ensures EmittedTotal(RestoredSystem(s), ks) == TransferTotal(s, ks)
  {
    if ks != [] {
      MemberRestorable(s, w, ks[0]);
      GotIsSound(s, ks[0]);
      RestoredEmits(s.nodes[ks[0]], w);
      RestoredEmitsAll(s, w, ks[1..]);
    }
  }

  lemma {:induction false} ZeroRow(g: Grid, i: Ip, ks: seq<Ip>)
    requires forall k :: k in ks ==> Cell(g, i, k) == 0
    ensures RowTotal(g, i, ks) == 0
  {
    if ks != [] {
      ZeroRow(g, i, ks[1..]);
    }
  }

  lemma {:induction false} ZeroGrid(g: Grid, rows: seq<Ip>, ks: seq<Ip>)
    requires forall i, k :: i in rows && k in ks ==> Cell(g, i, k) == 0
    ensures ByRows(g, rows, ks) == 0
  {
    if rows != [] {
      ZeroRow(g, rows[0], ks);
      ZeroGrid(g, rows[1..], ks);
    }
  }

  lemma {:induction false} NothingHeld(s: System, w: SnapshotId, ks: seq<Ip>)
    requires WaveSys(s, w) && AllDone(s) && Recoverable(s) && forall k :: k in ks ==> k in s.nodes
    ensures HeldTotal(RestoredSystem(s), ks) == 0
  {
    if ks != [] {
      RestoredIdle(s.nodes[ks[0]]);
      IdleHolds(Restored(s.nodes[ks[0]]).ctrl, Restored(s.nodes[ks[0]]).cfg.order);
      NothingHeld(s, w, ks[1..]);
    }
  }

  lemma IdleHolds(c: Controller, ks: seq<Ip>)
    requires c == IDLE
    ensures Total(ks, Held(c)) == 0
  {
    assert Held(IDLE) == map[];
    TotalZero(ks);
  }

  lemma LevelChannel(g: Global, i: Ip, j: Ip)
    requires i in g && j in g && Level(At(g[i].peers, j), At(g[j].peers, i))
    ensures Channel(g, i, j) == []
  {
  }

  lemma EmptyChannel(s: System, w: SnapshotId, i: Ip, j: Ip)
    requires WaveSys(s, w) && AllDone(s) && i in s.nodes && j in s.nodes
    ensures Recoverable(s) && Consistent(Live(RestoredSystem(s))) && Channel(Live(RestoredSystem(s)), i, j) == []
  {
    RestartIsOrderly(s, w);
    LiveConsistent(RestoredSystem(s));
    LinksMeet(s, w, i, j);
    LevelChannel(Live(RestoredSystem(s)), i, j);
  }

  lemma EmptyFlight(s: System, w: SnapshotId)
    requires WaveSys(s, w) && AllDone(s)
    ensures Recoverable(s) && Consistent(Live(RestoredSystem(s)))
    ensures ByRows(FlightGrid(Live(RestoredSystem(s))), s.mesh, s.mesh) == 0
  {
    RestartIsOrderly(s, w);
    LiveConsistent(s);
    LiveConsistent(RestoredSystem(s));
    var g := Live(RestoredSystem(s));
    forall i, k | i in s.mesh && k in s.mesh ensures Cell(FlightGrid(g), i, k) == 0 {
      EmptyChannel(s, w, i, k);
    }
    ZeroGrid(FlightGrid(g), s.mesh, s.mesh);
  }

  /**
   * After the restart no money is in a channel or held back: the counters, the credits of replayed transfers, and what
   * had left the mesh, make up the snapshot. So the counters do, with what had left the mesh, if and only if the
   * transfers in the stored channels sum to nothing.
   */
  lemma RestoredCounters(s: System, w: SnapshotId)
    requires WaveSys(s, w) && AllDone(s)
    ensures Recoverable(s) && forall k :: k in s.mesh ==> k in s.nodes
    ensures var r := RestoredSystem(s);
            && EmittedTotal(r, s.mesh) == TransferTotal(s, s.mesh)
            && CounterTotal(r, s.mesh) + ExitTotal(r, s.mesh) + TransferTotal(s, s.mesh) == SnapshotTotal(s, w)
            && (CounterTotal(r, s.mesh) + ExitTotal(r, s.mesh) == SnapshotTotal(s, w) <==> TransferTotal(s, s.mesh) == 0)
  {
    RestartConserves(s, w);
    LiveConsistent(s);
    LiveConsistent(RestoredSystem(s));
    HandsSplit(RestoredSystem(s), s.mesh);
    NothingHeld(s, w, s.mesh);
    EmptyFlight(s, w);
    RestoredEmitsAll(s, w, s.mesh);
  }

  // ---------- Life after the restart ----------

  /** No member has met wave `v` yet. */
  ghost predicate Unmet(s: System, v: SnapshotId) {
    forall i, j :: i in s.nodes ==> Unheard(At(s.nodes[i].peers, j).sent, v) && Unheard(At(s.nodes[i].peers, j).got, v)
  }

  lemma UnheardAfter(n: Node, w: SnapshotId, v: SnapshotId, k: Ip)
    requires Restorable(n, w) && PlainChannels(ChannelsOf(ArtifactOf(n)))
    requires Unheard(At(n.peers, k).sent, v) && Unheard(At(n.peers, k).got, v)
    ensures Unheard(At(Restored(n).peers, k).sent, v) && Unheard(At(Restored(n).peers, k).got, v)
  {
    RestoredAt(n, w, k);
    if k in Peers(n.cfg) {
      ResumedIs(n, w, k);
    } else {
      FreshLink(n, w, k);
    }
  }

  lemma ReadyAfter(s: System, w: SnapshotId, v: SnapshotId, j: Ip)
    requires WaveSys(s, w) && AllDone(s) && Recoverable(s) && Unmet(s, v) && j in s.nodes
    ensures ReadyNode(RestoredSystem(s).nodes[j], v)
  {
    MemberRestorable(s, w, j);
    RestoredSteady(s.nodes[j], w);
    forall k ensures Unheard(At(Restored(s.nodes[j]).peers, k).sent, v) && Unheard(At(Restored(s.nodes[j]).peers, k).got, v) {
      UnheardAfter(s.nodes[j], w, v, k);
    }
  }

  /** The restarted mesh may be snapshotted again, and again restarted. */
  lemma RestartIsReady(s: System, w: SnapshotId, v: SnapshotId)
    requires WaveSys(s, w) && AllDone(s) && Unmet(s, v)
    ensures Recoverable(s) && ReadyFor(RestoredSystem(s), v)
  {
    RestartIsOrderly(s, w);
    var r := RestoredSystem(s);
    forall j | j in r.nodes ensures ReadyNode(r.nodes[j], v) {
      ReadyAfter(s, w, v, j);
    }
    forall i, j | i in r.nodes && j in r.nodes ensures OnlyWave(Link(r, i, j).sent, |Link(r, j, i).got|, v) {
      LinksMeet(s, w, i, j);
    }
  }

  /**
   * From a mesh between waves, through any run of one wave until it is done everywhere, a restart, and any run after
   * it: the total is the original one if and only if nothing of value was on its way from members to themselves when
   * they were cut.
   */
  lemma SnapshotAndRestore(s: System, run: seq<Action>, w: SnapshotId, later: seq<Action>) returns (t: System, r: System)
    requires ReadyFor(s, w) && LegalWave(s, run, w)
    ensures Legal(s, run) && t == Run(s, run) && WaveSys(t, w)
    ensures AllDone(t) ==> Recoverable(t) && r == RestoredSystem(t) && Inv(r)
    ensures AllDone(t) && Legal(r, later) ==>
              Inv(Run(r, later)) && (LiveTotal(Run(r, later)) == LiveTotal(s) <==> SelfTotal(t, w) == 0)
  {
    ReadyBegins(s, w);
    t := SnapshotTotalIsOriginal(s, run, w);
    r := t;
    if AllDone(t) {
      r := After(t, w, later);
    }
  }

  lemma After(t: System, w: SnapshotId, later: seq<Action>) returns (r: System)
    requires WaveSys(t, w) && AllDone(t)
    ensures Recoverable(t) && r == RestoredSystem(t) && Inv(r)
    ensures Legal(r, later) ==> Inv(Run(r, later)) && LiveTotal(Run(r, later)) == SnapshotTotal(t, w)
  {
    RestartConserves(t, w);
    r := RestoredSystem(t);
    if Legal(r, later) {
      TotalIsConserved(r, later);
    }
  }
}
