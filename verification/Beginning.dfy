/** Where runs and waves begin. */
module Beginning {
  import opened Mesh
  import opened Sidecar
  import opened Bookkeeping
  import opened Callbacks
  import opened Sums
  import opened Ledger
  import opened Network
  import opened Conservation
  import opened Wave
  import opened WaveRun

  /** A member that has just started: nothing sent, nothing taken in, and nothing waiting. */
  ghost predicate FreshNode(n: Node) {
    && ValidConfig(n.cfg)
    && n.app.pending == [] && n.peers == map[] && n.ctrl == IDLE && n.tunnel == [] && n.exits == []
  }

  /** The mesh after start-up, with any counters. */
  ghost predicate Fresh(s: System) {
    && Distinct(s.mesh) && s.nodes.Keys == SetOf(s.mesh) && s.net == multiset{}
    && forall j :: j in s.nodes ==> FreshNode(s.nodes[j]) && s.nodes[j].cfg.self == j && s.nodes[j].cfg.mesh == s.mesh
  }

  lemma FreshMember(n: Node)
    requires FreshNode(n)
    ensures Steady(n) && SoundNode(n) && Balance(n) == n.app.counter
  {
    forall k ensures PartInv(n, k) && Unbuffered(At(n.peers, k)) {
      assert At(n.peers, k) == FRESH;
    }
    IdleBalance(n);
    assert Nets(n.peers) == map[];
    TotalZero(n.cfg.mesh);
  }

  lemma FreshInv(s: System)
    requires Fresh(s)
    ensures Inv(s)
  {
    forall j | j in s.nodes ensures MemberInv(s, j) {
      FreshMember(s.nodes[j]);
    }
    forall i, j | i in s.nodes && j in s.nodes ensures LinkInv(Link(s, i, j), Link(s, j, i)) {
      assert Link(s, i, j) == FRESH && Link(s, j, i) == FRESH;
    }
  }

  function CounterTotal(s: System, ks: seq<Ip>): int
    requires forall k :: k in ks ==> k in s.nodes
  {
    if ks == [] then 0 else s.nodes[ks[0]].app.counter + CounterTotal(s, ks[1..])
  }

  lemma {:induction false} FreshBooks(s: System, ks: seq<Ip>)
    requires Fresh(s) && forall k :: k in ks ==> k in s.nodes
    ensures BooksTotal(s, ks) == CounterTotal(s, ks)
  {
    if ks != [] {
      FreshMember(s.nodes[ks[0]]);
      FreshBooks(s, ks[1..]);
    }
  }

  /** In every state reachable from start-up the live total is the sum of the counters the mesh started with. */
  lemma StartingTotal(s: System, run: seq<Action>)
    requires Fresh(s) && WellFormed(s) && Legal(s, run)
    ensures Inv(Run(s, run)) && (forall k :: k in s.mesh ==> k in s.nodes)
    ensures LiveTotal(Run(s, run)) == CounterTotal(s, s.mesh)
  {
    FreshInv(s);
    LiveTotalIsBooks(s);
    FreshBooks(s, s.mesh);
    TotalIsConserved(s, run);
  }

  /** Nothing of wave `w` is in this history. */
  ghost predicate Unheard(ms: seq<Message>, w: SnapshotId) {
    forall m :: m in ms ==> m.payload != Marker(w)
  }

  /** An idle member that has never met `w` and whose host stores what it is sent. */
  ghost predicate ReadyNode(n: Node, w: SnapshotId) {
    && !n.ctrl.active
    && n.host == Host(true, true, [], [])
    && forall k :: Unheard(At(n.peers, k).sent, w) && Unheard(At(n.peers, k).got, w)
  }

  /** Between waves: no marker is on its way, whatever earlier waves left in the histories. */
  ghost predicate ReadyFor(s: System, w: SnapshotId) {
    && Inv(s)
    && (forall j :: j in s.nodes ==> ReadyNode(s.nodes[j], w))
    && (forall i, j :: i in s.nodes && j in s.nodes ==> OnlyWave(Link(s, i, j).sent, |Link(s, j, i).got|, w))
  }

  lemma ReadyMember(n: Node, w: SnapshotId)
    requires NodeInv(n) && ReadyNode(n, w)
    ensures MemberWave(n, w)
  {
    forall k ensures WavePart(n, w, k) {
      assert Unheard(At(n.peers, k).sent, w) && Unheard(At(n.peers, k).got, w);
    }
  }

  /** Every such state may be the first of a wave. */
  lemma ReadyBegins(s: System, w: SnapshotId)
    requires ReadyFor(s, w)
    ensures WaveSys(s, w)
  {
    forall j | j in s.nodes ensures MemberWave(s.nodes[j], w) {
      assert MemberInv(s, j) && ReadyNode(s.nodes[j], w);
      ReadyMember(s.nodes[j], w);
    }
  }

  /** The mesh at start-up is ready for any wave, once its hosts are. */
  lemma FreshIsReady(s: System, w: SnapshotId)
    requires Fresh(s) && forall j :: j in s.nodes ==> s.nodes[j].host == Host(true, true, [], [])
    ensures ReadyFor(s, w)
  {
    FreshInv(s);
    forall j | j in s.nodes ensures ReadyNode(s.nodes[j], w) {
      forall k ensures Unheard(At(s.nodes[j].peers, k).sent, w) && Unheard(At(s.nodes[j].peers, k).got, w) {
        assert At(s.nodes[j].peers, k) == FRESH;
      }
    }
    forall i, j | i in s.nodes && j in s.nodes ensures OnlyWave(Link(s, i, j).sent, |Link(s, j, i).got|, w) {
      assert Link(s, i, j) == FRESH;
    }
  }
}
