/** What a member's tables say in every reachable state, whatever waves overlap, abort or go stale. */
module Bookkeeping {
  import opened Wrappers
  import opened Mesh
  import opened Sidecar

  /** The messages of `got[lo..hi)` that are not markers, with their sequence numbers. */
  function Recorded(got: seq<Message>, lo: nat, hi: nat): seq<Rec>
    requires hi <= |got|
    decreases hi
  {
    if hi <= lo then []
    else
      var init := Recorded(got, lo, hi - 1);
      if got[hi - 1].payload.Marker? then init else init + [Rec(hi - 1, got[hi - 1])]
  }

  lemma {:induction false} RecordedPrefix(got: seq<Message>, more: seq<Message>, lo: nat, hi: nat)
    requires hi <= |got| && got <= more
    ensures Recorded(got, lo, hi) == Recorded(more, lo, hi)
    decreases hi
  {
    if hi > lo {
      RecordedPrefix(got, more, lo, hi - 1);
    }
  }

  lemma {:induction false} RecordedSplit(got: seq<Message>, lo: nat, mid: nat, hi: nat)
    requires lo <= mid <= hi <= |got|
    ensures Recorded(got, lo, hi) == Recorded(got, lo, mid) + Recorded(got, mid, hi)
    decreases hi
  {
    if mid < hi {
      RecordedSplit(got, lo, mid, hi - 1);
    }
  }

  ghost predicate Ascending(rs: seq<Rec>) {
    forall i, j :: 0 <= i < j < |rs| ==> rs[i].sn < rs[j].sn
  }

  lemma {:induction false} RecordedHas(got: seq<Message>, lo: nat, hi: nat, r: Rec)
    requires hi <= |got|
    ensures r in Recorded(got, lo, hi) <==> lo <= r.sn < hi && r.msg == got[r.sn] && !r.msg.payload.Marker?
    decreases hi
  {
    if hi > lo {
      RecordedHas(got, lo, hi - 1, r);
    }
  }

  lemma {:induction false} RecordedAscends(got: seq<Message>, lo: nat, hi: nat)
    requires hi <= |got|
    ensures Ascending(Recorded(got, lo, hi))
    decreases hi
  {
    if hi > lo {
      RecordedAscends(got, lo, hi - 1);
      var init := Recorded(got, lo, hi - 1);
      forall i | 0 <= i < |init| ensures init[i].sn < hi - 1 {
        RecordedHas(got, lo, hi - 1, init[i]);
      }
    }
  }

  /** A record of `got`: ascending, without duplicates or markers, each entry at its own position. */
  lemma RecordedShape(got: seq<Message>, lo: nat, hi: nat)
    requires hi <= |got|
    ensures var rs := Recorded(got, lo, hi);
            && Ascending(rs) && PlainRecords(rs)
            && (forall r :: r in rs <==> lo <= r.sn < hi && r.msg == got[r.sn] && !r.msg.payload.Marker?)
  {
    RecordedAscends(got, lo, hi);
    forall r ensures r in Recorded(got, lo, hi) <==> lo <= r.sn < hi && r.msg == got[r.sn] && !r.msg.payload.Marker? {
      RecordedHas(got, lo, hi, r);
    }
  }

  ghost predicate Sorted(rs: seq<Rec>) {
    forall i, j :: 0 <= i < j < |rs| ==> rs[i].sn <= rs[j].sn
  }

  /** The records of one number, in the order in which they stand. */
  function WithNumber(rs: seq<Rec>, sn: nat): seq<Rec> {
    if rs == [] then [] else (if rs[0].sn == sn then [rs[0]] else []) + WithNumber(rs[1..], sn)
  }

  lemma {:induction false} InsertSorts(r: Rec, rs: seq<Rec>)
    requires Sorted(rs)
    ensures Sorted(Insert(r, rs))
  {
    if rs != [] && r.sn > rs[0].sn {
      var rest := Insert(r, rs[1..]);
      InsertSorts(r, rs[1..]);
      forall x | x in rest ensures rs[0].sn <= x.sn {
        assert x in multiset(rest) && (x == r || x in rs[1..]);
      }
    }
  }

  lemma WithNumberFirst(r: Rec, rs: seq<Rec>, sn: nat)
    ensures WithNumber([r] + rs, sn) == (if r.sn == sn then [r] else []) + WithNumber(rs, sn)
  {
    assert ([r] + rs)[1..] == rs;
  }

  lemma {:induction false} InsertStable(r: Rec, rs: seq<Rec>, sn: nat)
    ensures WithNumber(Insert(r, rs), sn) == WithNumber([r] + rs, sn)
  {
    if rs != [] && r.sn > rs[0].sn {
      InsertStable(r, rs[1..], sn);
      WithNumberFirst(rs[0], Insert(r, rs[1..]), sn);
      WithNumberFirst(r, rs[1..], sn);
      WithNumberFirst(r, rs, sn);
    }
  }

  /** The sort before a flush or a replay orders by number, and is stable. Being a permutation is in its contract. */
  lemma {:induction false} SortOrders(rs: seq<Rec>, sn: nat)
    ensures Sorted(SortBySeq(rs)) && WithNumber(SortBySeq(rs), sn) == WithNumber(rs, sn)
  {
    if rs != [] {
      var rest := SortBySeq(rs[1..]);
      SortOrders(rs[1..], sn);
      InsertSorts(rs[0], rest);
      InsertStable(rs[0], rest, sn);
      WithNumberFirst(rs[0], rest, sn);
    }
  }

  /** The sort before a flush or a replay changes nothing. */
  lemma {:induction false} SortIdentity(rs: seq<Rec>)
    requires Ascending(rs)
    ensures SortBySeq(rs) == rs
  {
    if rs != [] {
      SortIdentity(rs[1..]);
      assert rs == [rs[0]] + rs[1..];
    }
  }

  // ---------- The invariant ----------

  /** Members are distinct, this node is one of them, and sets of the others are iterated in `order`. */
  ghost predicate ValidConfig(c: Config) {
    && Distinct(c.mesh) && c.self in c.mesh && LOCALHOST !in c.mesh
    && Distinct(c.order) && SetOf(c.order) == Peers(c)
  }

  /** The other members. */
  function Peers(c: Config): set<Ip> {
    set k | k in c.mesh && k != c.self
  }

  /** The channel is cut on the sending side by this wave's marker. */
  ghost predicate CutSent(p: Peer, c: Peer, s: nat, id: SnapshotId) {
    c.sent + [MarkerMessage(id)] <= p.sent && s == |c.sent| + 1
  }

  /** No marker of this wave yet: everything since the cut is recorded, nothing of it is delivered. */
  ghost predicate OpenAt(p: Peer, c: Peer, channel: seq<Rec>) {
    && c.got <= p.got
    && channel == Recorded(p.got, |c.got|, |p.got|)
    && p.heard == c.heard
  }

  /** The marker came at r - 1: what preceded it is recorded, what followed it was delivered at once. */
  ghost predicate ClosedAt(p: Peer, c: Peer, channel: seq<Rec>, r: nat, id: SnapshotId) {
    && c.got <= p.got && |c.got| < r <= |p.got|
    && p.got[r - 1].payload == Marker(id)
    && channel == Recorded(p.got, |c.got|, r - 1)
    && p.heard == c.heard + Recorded(p.got, r, |p.got|)
  }

  function ChannelOf(c: Controller, k: Ip): seq<Rec> {
    if k in c.channels then c.channels[k] else []
  }

  ghost predicate ChannelInv(n: Node, k: Ip) {
    var p, c, channel := At(n.peers, k), At(n.ctrl.cut, k), ChannelOf(n.ctrl, k);
    && n.ctrl.id.Some? && k in n.ctrl.sendCut && (k in n.ctrl.recording || k in n.ctrl.recvCut)
    && CutSent(p, c, n.ctrl.sendCut[k], n.ctrl.id.value)
    && if k in n.ctrl.recording then OpenAt(p, c, channel) else ClosedAt(p, c, channel, n.ctrl.recvCut[k], n.ctrl.id.value)
  }

  /** The tables partition the other members while recording, and are empty otherwise. */
  ghost predicate TablesInv(c: Controller, others: set<Ip>) {
    if !c.active then c == IDLE
    else
      && c.id.Some?
      && c.recording != {} && c.recording <= others
      && c.channels.Keys == others && c.sendCut.Keys == others && c.recvCut.Keys == others - c.recording
  }

  /** The app was handed every message that is not a marker, exactly once. */
  ghost predicate HeardAll(p: Peer) {
    multiset(p.heard) == multiset(Recorded(p.got, 0, |p.got|))
  }

  ghost predicate LinkTables(p: Peer) {
    (forall s :: s in p.buffer ==> s >= |p.got|) && (forall s :: s in p.acked ==> s < |p.sent|)
  }

  /** Where delivery on channel `k` is complete: at the cut while the channel is being recorded, else now. */
  function Settled(n: Node, k: Ip): Peer {
    if n.ctrl.active && k in Peers(n.cfg) then At(n.ctrl.cut, k) else At(n.peers, k)
  }

  ghost predicate PartInv(n: Node, k: Ip) {
    && (k in n.ctrl.channels ==> ChannelInv(n, k))
    && HeardAll(Settled(n, k))
    && LinkTables(At(n.peers, k))
  }

  ghost predicate NodeInv(n: Node) {
    && ValidConfig(n.cfg)
    && TablesInv(n.ctrl, Peers(n.cfg))
    && forall k :: PartInv(n, k)
  }

  /** The invariant of channel `k` reads nothing but the entries of `k`. */
  lemma PartSame(n: Node, r: Node, k: Ip)
    requires PartInv(n, k)
    requires n.cfg == r.cfg && n.ctrl.active == r.ctrl.active && n.ctrl.id == r.ctrl.id
    requires At(n.peers, k) == At(r.peers, k) && At(n.ctrl.cut, k) == At(r.ctrl.cut, k)
    requires k in n.ctrl.channels <==> k in r.ctrl.channels
    requires ChannelOf(n.ctrl, k) == ChannelOf(r.ctrl, k)
    requires Lookup(n.ctrl.sendCut, k) == Lookup(r.ctrl.sendCut, k)
    requires Lookup(n.ctrl.recvCut, k) == Lookup(r.ctrl.recvCut, k)
    requires k in n.ctrl.recording <==> k in r.ctrl.recording
    ensures PartInv(r, k)
  {
  }

  lemma ChannelShape(n: Node, k: Ip)
    requires TablesInv(n.ctrl, Peers(n.cfg)) && k in n.ctrl.channels && PartInv(n, k)
    ensures PlainRecords(n.ctrl.channels[k]) && Ascending(n.ctrl.channels[k])
  {
    var p, c := At(n.peers, k), At(n.ctrl.cut, k);
    var hi := if k in n.ctrl.recording then |p.got| else n.ctrl.recvCut[k] - 1;
    RecordedShape(p.got, |c.got|, hi);
  }

  lemma InvShape(n: Node)
    requires NodeInv(n)
    ensures PlainChannels(n.ctrl.channels)
    ensures forall k :: k in n.ctrl.channels ==> Ascending(n.ctrl.channels[k])
  {
    forall k | k in n.ctrl.channels ensures PlainRecords(n.ctrl.channels[k]) && Ascending(n.ctrl.channels[k]) {
      assert PartInv(n, k);
      ChannelShape(n, k);
    }
  }

  // ---------- What the folds do ----------

  ghost predicate SameHeard(p: map<Ip, Peer>, q: map<Ip, Peer>) {
    forall k :: At(p, k).heard == At(q, k).heard
  }

  lemma {:induction false} DrainHeard(n: Node)
    ensures SameHeard(n.peers, Drain(n).peers)
    decreases |n.app.pending|
  {
    if n.app.pending != [] {
      DrainHeard(Forward(Pop(n), n.app.pending[0]));
    }
  }

  /** What a broadcast does to channel `k`: one marker if it is among `ks`, and the cut is right behind it. */
  lemma {:induction false} BroadcastAt(n: Node, ks: seq<Ip>, id: SnapshotId, k: Ip)
    requires Distinct(ks)
    ensures var p, r := At(n.peers, k), Broadcast(n, ks, id);
            && At(r.peers, k) == (if k in ks then p.(sent := p.sent + [MarkerMessage(id)]) else p)
            && Lookup(r.ctrl.sendCut, k) == (if k in ks then Some(|p.sent| + 1) else Lookup(n.ctrl.sendCut, k))
    decreases |ks|
  {
    if ks != [] {
      var n1 := SendData(n, ks[0], MarkerMessage(id));
      var n2 := n1.(ctrl := n1.ctrl.(sendCut := n1.ctrl.sendCut[ks[0] := |At(n1.peers, ks[0]).sent|]));
      assert ks == [ks[0]] + ks[1..];
      BroadcastAt(n2, ks[1..], id, k);
    }
  }

  /** Outside a wave, a message that is not a marker is simply delivered: nothing is recorded and no wave starts. */
  lemma ReplayDelivers(n: Node, remote: Ip, sn: nat, m: Message)
    requires !n.ctrl.active && PlainChannels(n.ctrl.channels) && !m.payload.Marker?
    ensures ProcessAndDeliver(n, remote, sn, m) == Deliver(n, remote, sn, m)
  {
  }

  /** Flushing one channel hands its records over in order and touches no other channel. */
  lemma {:induction false} DeliverAllHeard(n: Node, remote: Ip, rs: seq<Rec>)
    requires !n.ctrl.active && PlainChannels(n.ctrl.channels) && PlainRecords(rs)
    ensures var r := DeliverAll(n, remote, rs);
            && At(r.peers, remote) == At(n.peers, remote).(heard := At(n.peers, remote).heard + rs)
            && (forall k :: k != remote ==> At(r.peers, k) == At(n.peers, k))
    decreases |rs|
  {
    if rs != [] {
      ReplayDelivers(n, remote, rs[0].sn, rs[0].msg);
      DeliverAllHeard(Deliver(n, remote, rs[0].sn, rs[0].msg), remote, rs[1..]);
      assert rs == [rs[0]] + rs[1..];
    }
  }

  function ChannelIn(channels: map<Ip, seq<Rec>>, k: Ip): seq<Rec> {
    if k in channels then channels[k] else []
  }

  lemma {:induction false} ReplayHeard(n: Node, channels: map<Ip, seq<Rec>>, ks: seq<Ip>)
    requires !n.ctrl.active && PlainChannels(n.ctrl.channels) && PlainChannels(channels) && Distinct(ks)
    requires forall k :: k in channels ==> Ascending(channels[k])
    ensures forall k :: At(Replay(n, channels, ks).peers, k) ==
                        At(n.peers, k).(heard := At(n.peers, k).heard + if k in ks then ChannelIn(channels, k) else [])
    decreases |ks|
  {
    if ks != [] {
      assert ks == [ks[0]] + ks[1..];
      if ks[0] in channels {
        SortIdentity(channels[ks[0]]);
        DeliverAllHeard(n, ks[0], SortBySeq(channels[ks[0]]));
        ReplayHeard(DeliverAll(n, ks[0], SortBySeq(channels[ks[0]])), channels, ks[1..]);
      } else {
        ReplayHeard(n, channels, ks[1..]);
      }
    }
  }

  /** A flush hands over exactly what was recorded on each channel, after what was already delivered. */
  lemma FinishHeard(n: Node, status: Status)
    requires ValidConfig(n.cfg) && n.ctrl.channels.Keys <= Peers(n.cfg) && PlainChannels(n.ctrl.channels)
    requires forall k :: k in n.ctrl.channels ==> Ascending(n.ctrl.channels[k])
    ensures forall k :: At(Finish(n, status).peers, k) ==
                        At(n.peers, k).(heard := At(n.peers, k).heard + ChannelOf(n.ctrl, k))
  {
    var n1 := Post(n, BuildArtifact(n.ctrl, status));
    ReplayHeard(n1.(ctrl := IDLE.(channels := n.ctrl.channels)), n.ctrl.channels, n.cfg.order);
    forall k ensures k in n.ctrl.channels ==> k in n.cfg.order {
      assert k in n.ctrl.channels ==> k in Peers(n.cfg) && k in SetOf(n.cfg.order);
    }
  }

  lemma {:induction false} QuietReplay(n: Node, channels: map<Ip, seq<Rec>>, ks: seq<Ip>)
    requires !n.ctrl.active && PlainChannels(n.ctrl.channels) && PlainChannels(channels)
    requires forall k :: k in channels ==> channels[k] == []
    ensures Replay(n, channels, ks) == n
    decreases |ks|
  {
    if ks != [] {
      QuietReplay(n, channels, ks[1..]);
    }
  }

  /** A wave that recorded nothing ends with its artifact, and hands nothing to the app. */
  lemma QuietFinish(n: Node, status: Status)
    requires PlainChannels(n.ctrl.channels) && forall k :: ChannelOf(n.ctrl, k) == []
    ensures Finish(n, status) == Post(n, BuildArtifact(n.ctrl, status)).(ctrl := IDLE)
  {
    var n1 := Post(n, BuildArtifact(n.ctrl, status)).(ctrl := IDLE.(channels := n.ctrl.channels));
    forall k | k in n.ctrl.channels ensures n.ctrl.channels[k] == [] {
      assert ChannelOf(n.ctrl, k) == [];
    }
    QuietReplay(n1, n.ctrl.channels, n.cfg.order);
  }

  // ---------- Every callback keeps the invariant ----------

  lemma HeardMarker(p: Peer, m: Message)
    requires HeardAll(p) && m.payload.Marker?
    ensures HeardAll(p.(got := p.got + [m]))
  {
    RecordedPrefix(p.got, p.got + [m], 0, |p.got|);
  }

  lemma HeardDelivered(p: Peer, m: Message)
    requires HeardAll(p) && !m.payload.Marker?
    ensures HeardAll(p.(got := p.got + [m], heard := p.heard + [Rec(|p.got|, m)]))
  {
    RecordedPrefix(p.got, p.got + [m], 0, |p.got|);
    HeardJoin(p.heard, Recorded(p.got, 0, |p.got|), [Rec(|p.got|, m)]);
  }

  lemma HeardJoin(heard: seq<Rec>, before: seq<Rec>, within: seq<Rec>)
    requires multiset(heard) == multiset(before)
    ensures multiset(heard + within) == multiset(before + within)
  {
  }

  lemma HeardSame(a: Peer, b: Peer)
    requires HeardAll(a) && a.got == b.got && a.heard == b.heard
    ensures HeardAll(b)
  {
  }

  lemma OpenHeard(p: Peer, c: Peer, channel: seq<Rec>)
    requires OpenAt(p, c, channel) && HeardAll(c)
    ensures HeardAll(p.(heard := p.heard + channel))
  {
    RecordedPrefix(c.got, p.got, 0, |c.got|);
    RecordedSplit(p.got, 0, |c.got|, |p.got|);
  }

  lemma ClosedHeard(p: Peer, c: Peer, channel: seq<Rec>, r: nat, id: SnapshotId)
    requires ClosedAt(p, c, channel, r, id) && HeardAll(c)
    ensures HeardAll(p.(heard := p.heard + channel))
  {
    RecordedPrefix(c.got, p.got, 0, |c.got|);
    RecordedSplit(p.got, 0, |c.got|, |p.got|);
    RecordedSplit(p.got, |c.got|, r, |p.got|);
    assert Recorded(p.got, |c.got|, r) == channel;
  }

  lemma OpenTakes(p: Peer, c: Peer, channel: seq<Rec>, m: Message)
    requires OpenAt(p, c, channel)
    ensures OpenAt(p.(got := p.got + [m]), c,
                   if m.payload.Marker? then channel else channel + [Rec(|p.got|, m)])
  {
    RecordedPrefix(p.got, p.got + [m], |c.got|, |p.got|);
  }

  lemma OpenCloses(p: Peer, c: Peer, channel: seq<Rec>, m: Message, id: SnapshotId)
    requires OpenAt(p, c, channel) && m.payload == Marker(id)
    ensures ClosedAt(p.(got := p.got + [m]), c, channel, |p.got| + 1, id)
  {
    RecordedPrefix(p.got, p.got + [m], |c.got|, |p.got|);
  }

  lemma ClosedTakes(p: Peer, c: Peer, channel: seq<Rec>, r: nat, id: SnapshotId, m: Message)
    requires ClosedAt(p, c, channel, r, id)
    ensures ClosedAt(p.(got := p.got + [m], heard := if m.payload.Marker? then p.heard else p.heard + [Rec(|p.got|, m)]),
                     c, channel, r, id)
  {
    RecordedPrefix(p.got, p.got + [m], |c.got|, r - 1);
    RecordedPrefix(p.got, p.got + [m], r, |p.got|);
  }

  /** The links right after the cut: one more message on each channel to another member, the marker. */
  lemma BeginAt(n: Node, remote: Ip, sn: nat, id: SnapshotId, k: Ip)
    requires ValidConfig(n.cfg)
    ensures var r := Begin(n, remote, sn, id); var p, c := At(r.peers, k), At(r.ctrl.cut, k);
            && SendsOn(At(n.peers, k), c) && c.heard == At(n.peers, k).heard
            && p == (if k in Peers(n.cfg) then c.(sent := c.sent + [MarkerMessage(id)]) else c)
            && Lookup(r.ctrl.sendCut, k) == (if k in Peers(n.cfg) then Some(|c.sent| + 1) else None)
  {
    var n1 := Cut(n, remote, id);
    CutAt(n, remote, id, k);
    OthersDistinct(n.cfg.mesh, n.cfg.self);
    BroadcastAt(n1, Others(n.cfg.mesh, n.cfg.self), id, k);
  }

  lemma CutAt(n: Node, remote: Ip, id: SnapshotId, k: Ip)
    ensures var r := Cut(n, remote, id);
            && r.cfg == n.cfg && r.ctrl.cut == r.peers && r.ctrl.sendCut == map[]
            && SendsOn(At(n.peers, k), At(r.peers, k)) && At(r.peers, k).heard == At(n.peers, k).heard
  {
    var recording := SetOf(Others(n.cfg.mesh, n.cfg.self)) - {remote};
    var n0 := n.(ctrl := Controller(true, Some(id), recording, map[], map[], map[], map[]));
    DrainHeard(n0);
    assert SendsOn(At(n0.peers, k), At(Drain(n0).peers, k));
  }

  lemma {:induction false} OthersDistinct(mesh: seq<Ip>, self: Ip)
    requires Distinct(mesh)
    ensures Distinct(Others(mesh, self))
  {
    if mesh != [] {
      OthersDistinct(mesh[1..], self);
    }
  }

  /** The cut itself, as seen by the tables: every channel is quiet, and all but the marker's own is recording. */
  lemma BeginTables(n: Node, remote: Ip, sn: nat, id: SnapshotId)
    requires ValidConfig(n.cfg)
    ensures var r := Begin(n, remote, sn, id);
            && r.ctrl.active && r.ctrl.id == Some(id) && r.ctrl.recording == Peers(n.cfg) - {remote}
            && r.ctrl.channels.Keys == Peers(n.cfg) && r.ctrl.sendCut.Keys == Peers(n.cfg)
            && r.ctrl.recvCut == (if remote in Peers(n.cfg) then map[remote := sn + 1] else map[])
            && forall k :: ChannelOf(r.ctrl, k) == []
  {
    var n1 := Cut(n, remote, id);
    BroadcastKeys(n1, Others(n.cfg.mesh, n.cfg.self), id);
    OpenTables(Broadcast(n1, Others(n.cfg.mesh, n.cfg.self), id), remote, sn);
  }

  lemma OpenTables(n: Node, remote: Ip, sn: nat)
    requires n.ctrl.recording == Peers(n.cfg) - {remote}
    ensures var r := OpenChannels(n, remote, sn);
            && r.ctrl.channels.Keys == Peers(n.cfg)
            && r.ctrl.recvCut == (if remote in Peers(n.cfg) then map[remote := sn + 1] else map[])
            && forall k :: ChannelOf(r.ctrl, k) == []
  {
  }

  lemma {:induction false} BroadcastKeys(n: Node, ks: seq<Ip>, id: SnapshotId)
    ensures Broadcast(n, ks, id).ctrl.sendCut.Keys == n.ctrl.sendCut.Keys + SetOf(ks)
    decreases |ks|
  {
    if ks != [] {
      var n1 := SendData(n, ks[0], MarkerMessage(id));
      var n2 := n1.(ctrl := n1.ctrl.(sendCut := n1.ctrl.sendCut[ks[0] := |At(n1.peers, ks[0]).sent|]));
      assert ks == [ks[0]] + ks[1..];
      BroadcastKeys(n2, ks[1..], id);
    }
  }

  ghost predicate Unbuffered(p: Peer) {
    |p.got| !in p.buffer
  }

  /** What is left of a marker on a recording channel: it is closed there. */
  function Close(c: Controller, i: Ip, sn: nat): Controller {
    c.(recvCut := c.recvCut[i := sn + 1], recording := c.recording - {i})
  }

  /** What is left of any message that neither starts a wave nor closes a channel. */
  function Keep(n: Node, i: Ip, m: Message): Node {
    var sn := |At(n.peers, i).got|;
    if m.payload.Marker? then n
    else if n.ctrl.active && i in n.ctrl.recording then
      n.(ctrl := n.ctrl.(channels := n.ctrl.channels[i := ChannelOf(n.ctrl, i) + [Rec(sn, m)]]))
    else
      Deliver(n, i, sn, m)
  }

  ghost predicate Stays(n: Node, i: Ip, m: Message) {
    m.payload.Marker? ==> n.ctrl.active && (n.ctrl.id != Some(m.payload.id) || i !in n.ctrl.recording)
  }

  function Append(n: Node, i: Ip, m: Message): Node {
    var p := At(n.peers, i);
    n.(peers := n.peers[i := p.(got := p.got + [m])])
  }

  /** The four things taking in a message can do. */
  lemma TakeCases(n: Node, i: Ip, m: Message)
    requires PlainChannels(n.ctrl.channels)
    ensures var sn := |At(n.peers, i).got|;
            Take(n, i, m) == Append(
              if Stays(n, i, m) then Keep(n, i, m)
              else if !n.ctrl.active then Initiate(n, i, sn, m.payload.id)
              else if n.ctrl.recording == {i} then Finish(n.(ctrl := Close(n.ctrl, i, sn)), Complete)
              else n.(ctrl := Close(n.ctrl, i, sn)),
              i, m)
  {
    var sn := |At(n.peers, i).got|;
    var n1 := ProcessMessage(n, i, sn, m);
    if Stays(n, i, m) {
      assert Keep(n, i, m) == if Consumes(n, i, m) then n1 else Deliver(n1, i, sn, m);
    } else if n.ctrl.active {
      assert n.ctrl.recording - {i} == {} <==> n.ctrl.recording == {i};
    }
  }

  /** The channel a message is taken from moves on, whatever the wave is doing. */
  lemma KeepPart(n: Node, i: Ip, m: Message)
    requires NodeInv(n) && Unbuffered(At(n.peers, i)) && Stays(n, i, m)
    ensures PartInv(Append(Keep(n, i, m), i, m), i)
  {
    var p, c, r := At(n.peers, i), At(n.ctrl.cut, i), Append(Keep(n, i, m), i, m);
    var heard := if Consumes(n, i, m) then p.heard else p.heard + [Rec(|p.got|, m)];
    assert PartInv(n, i);
    assert At(r.peers, i) == p.(got := p.got + [m], heard := heard);
    assert LinkTables(At(r.peers, i));
    if n.ctrl.active && i in Peers(n.cfg) {
      assert Settled(r, i) == Settled(n, i);
      assert CutSent(At(r.peers, i), c, r.ctrl.sendCut[i], r.ctrl.id.value);
      if i in n.ctrl.recording {
        OpenTakes(p, c, n.ctrl.channels[i], m);
        assert ChannelOf(r.ctrl, i) == if m.payload.Marker? then n.ctrl.channels[i] else n.ctrl.channels[i] + [Rec(|p.got|, m)];
      } else {
        ClosedTakes(p, c, n.ctrl.channels[i], n.ctrl.recvCut[i], n.ctrl.id.value, m);
      }
    } else {
      assert Settled(r, i) == At(r.peers, i);
      if m.payload.Marker? {
        HeardMarker(p, m);
      } else {
        HeardDelivered(p, m);
      }
    }
  }

  lemma KeepTables(n: Node, i: Ip, m: Message)
    requires NodeInv(n)
    ensures var r := Append(Keep(n, i, m), i, m); r.cfg == n.cfg && TablesInv(r.ctrl, Peers(n.cfg))
  {
  }

  lemma KeepInv(n: Node, i: Ip, m: Message)
    requires NodeInv(n) && Unbuffered(At(n.peers, i)) && Stays(n, i, m)
    ensures NodeInv(Append(Keep(n, i, m), i, m))
  {
    var r := Append(Keep(n, i, m), i, m);
    KeepTables(n, i, m);
    forall k ensures PartInv(r, k) {
      if k == i {
        KeepPart(n, i, m);
      } else {
        KeepElsewhere(n, i, m, k);
      }
    }
  }

  lemma KeepElsewhere(n: Node, i: Ip, m: Message, k: Ip)
    requires NodeInv(n) && k != i
    ensures PartInv(Append(Keep(n, i, m), i, m), k)
  {
    assert PartInv(n, k);
    KeepAside(n, i, m, k);
    PartSame(n, Append(Keep(n, i, m), i, m), k);
  }

  lemma KeepAside(n: Node, i: Ip, m: Message, k: Ip)
    requires k != i
    ensures var r := Append(Keep(n, i, m), i, m);
            && r.cfg == n.cfg && r.ctrl == n.ctrl.(channels := r.ctrl.channels)
            && At(r.peers, k) == At(n.peers, k)
            && (k in r.ctrl.channels <==> k in n.ctrl.channels) && ChannelOf(r.ctrl, k) == ChannelOf(n.ctrl, k)
  {
  }

  lemma CloseTables(n: Node, i: Ip, sn: nat)
    requires NodeInv(n) && n.ctrl.active && i in n.ctrl.recording && n.ctrl.recording != {i}
    ensures TablesInv(Close(n.ctrl, i, sn), Peers(n.cfg))
  {
    assert n.ctrl.recording - {i} != {};
  }

  lemma ClosePart(n: Node, i: Ip, m: Message)
    requires NodeInv(n) && Unbuffered(At(n.peers, i)) && !Stays(n, i, m) && n.ctrl.active
    ensures PartInv(Append(n.(ctrl := Close(n.ctrl, i, |At(n.peers, i).got|)), i, m), i)
  {
    var p, c := At(n.peers, i), At(n.ctrl.cut, i);
    var r := Append(n.(ctrl := Close(n.ctrl, i, |p.got|)), i, m);
    assert PartInv(n, i);
    assert At(r.peers, i) == p.(got := p.got + [m]) && ChannelOf(r.ctrl, i) == n.ctrl.channels[i];
    MarkerTaken(p, c, n.ctrl.channels[i], n.ctrl.sendCut[i], m, n.ctrl.id.value);
    assert Settled(r, i) == Settled(n, i);
  }

  /** Both ends of a channel as its marker is taken in. */
  lemma MarkerTaken(p: Peer, c: Peer, channel: seq<Rec>, s: nat, m: Message, id: SnapshotId)
    requires OpenAt(p, c, channel) && CutSent(p, c, s, id) && LinkTables(p) && Unbuffered(p) && m.payload == Marker(id)
    ensures var q := p.(got := p.got + [m]);
            ClosedAt(q, c, channel, |p.got| + 1, id) && CutSent(q, c, s, id) && LinkTables(q)
  {
    OpenCloses(p, c, channel, m, id);
  }

  /** A marker that closes one channel of the current wave and leaves others open. */
  lemma CloseInv(n: Node, i: Ip, m: Message)
    requires NodeInv(n) && Unbuffered(At(n.peers, i)) && !Stays(n, i, m)
    requires n.ctrl.active && n.ctrl.recording != {i}
    ensures NodeInv(Append(n.(ctrl := Close(n.ctrl, i, |At(n.peers, i).got|)), i, m))
  {
    var sn := |At(n.peers, i).got|;
    var r := Append(n.(ctrl := Close(n.ctrl, i, sn)), i, m);
    CloseTables(n, i, sn);
    forall k ensures PartInv(r, k) {
      assert PartInv(n, k);
      if k == i {
        ClosePart(n, i, m);
      } else {
        PartSame(n, r, k);
      }
    }
  }

  /** After a flush every message taken in has been delivered, on channels still open as well. */
  lemma FlushedHeard(n: Node, k: Ip)
    requires NodeInv(n) && n.ctrl.active
    ensures var p := At(n.peers, k); HeardAll(p.(heard := p.heard + ChannelOf(n.ctrl, k))) && LinkTables(p)
  {
    var p, c := At(n.peers, k), At(n.ctrl.cut, k);
    assert PartInv(n, k);
    if k in n.ctrl.channels {
      if k in n.ctrl.recording {
        OpenHeard(p, c, n.ctrl.channels[k]);
      } else {
        ClosedHeard(p, c, n.ctrl.channels[k], n.ctrl.recvCut[k], n.ctrl.id.value);
      }
    } else {
      assert p.heard + ChannelOf(n.ctrl, k) == p.heard;
    }
  }

  /** An aborted wave, or one whose last open channel has just been closed. */
  lemma FinishInv(n: Node, ctrl: Controller, status: Status)
    requires NodeInv(n) && n.ctrl.active && ctrl.channels == n.ctrl.channels && PlainChannels(ctrl.channels)
    ensures NodeInv(Finish(n.(ctrl := ctrl), status))
  {
    var r := Finish(n.(ctrl := ctrl), status);
    InvShape(n);
    FinishHeard(n.(ctrl := ctrl), status);
    forall k ensures PartInv(r, k) {
      FlushedHeard(n, k);
      assert ChannelOf(ctrl, k) == ChannelOf(n.ctrl, k);
    }
  }

  /** A marker that the controller is done with leaves only its place in the history. */
  lemma AppendMarkerInv(n: Node, i: Ip, m: Message)
    requires NodeInv(n) && Unbuffered(At(n.peers, i)) && !n.ctrl.active && m.payload.Marker?
    ensures NodeInv(Append(n, i, m))
  {
    var r := Append(n, i, m);
    forall k ensures PartInv(r, k) {
      assert PartInv(n, k);
      HeardMarker(At(n.peers, k), m);
      if k != i {
        PartSame(n, r, k);
      }
    }
  }

  /** `b` is `n` just after a cut: the links stand as at the cut, plus one marker to every other member. */
  ghost predicate Begun(n: Node, b: Node, remote: Ip, sn: nat, id: SnapshotId) {
    && b.cfg == n.cfg
    && b.ctrl.active && b.ctrl.id == Some(id) && b.ctrl.recording == Peers(n.cfg) - {remote}
    && b.ctrl.channels.Keys == Peers(n.cfg) && b.ctrl.sendCut.Keys == Peers(n.cfg)
    && b.ctrl.recvCut == (if remote in Peers(n.cfg) then map[remote := sn + 1] else map[])
    && (forall k :: ChannelOf(b.ctrl, k) == [])
    && (forall k :: BegunAt(n, b, k, id))
  }

  ghost predicate BegunAt(n: Node, b: Node, k: Ip, id: SnapshotId) {
    var p, c := At(b.peers, k), At(b.ctrl.cut, k);
    && SendsOn(At(n.peers, k), c) && c.heard == At(n.peers, k).heard
    && p == (if k in Peers(n.cfg) then c.(sent := c.sent + [MarkerMessage(id)]) else c)
    && Lookup(b.ctrl.sendCut, k) == (if k in Peers(n.cfg) then Some(|c.sent| + 1) else None)
  }

  lemma BeginBegun(n: Node, remote: Ip, sn: nat, id: SnapshotId)
    requires ValidConfig(n.cfg)
    ensures Begun(n, Begin(n, remote, sn, id), remote, sn, id)
  {
    BeginTables(n, remote, sn, id);
    forall k ensures BegunAt(n, Begin(n, remote, sn, id), k, id) {
      BeginAt(n, remote, sn, id, k);
    }
  }

  lemma BegunPart(n: Node, b: Node, remote: Ip, sn: nat, id: SnapshotId, k: Ip)
    requires NodeInv(n) && !n.ctrl.active && Begun(n, b, remote, sn, id)
    requires k != remote || remote !in Peers(n.cfg)
    ensures PartInv(b, k) && PartInv(b.(ctrl := IDLE), k)
  {
    assert PartInv(n, k) && BegunAt(n, b, k, id) && ChannelOf(b.ctrl, k) == [];
  }

  /** A cut made on a local request. */
  lemma BegunInv(n: Node, b: Node, remote: Ip, sn: nat, id: SnapshotId)
    requires NodeInv(n) && !n.ctrl.active && remote !in Peers(n.cfg) && Begun(n, b, remote, sn, id)
    ensures b.ctrl.recording != {} ==> NodeInv(b)
    ensures NodeInv(b.(ctrl := IDLE))
  {
    forall k ensures PartInv(b, k) && PartInv(b.(ctrl := IDLE), k) {
      BegunPart(n, b, remote, sn, id, k);
    }
  }

  lemma BegunTakesAt(n: Node, b: Node, i: Ip, m: Message)
    requires NodeInv(n) && !n.ctrl.active && m.payload.Marker? && Unbuffered(At(n.peers, i))
    requires Begun(n, b, i, |At(n.peers, i).got|, m.payload.id)
    ensures PartInv(Append(b, i, m), i) && PartInv(Append(b, i, m).(ctrl := IDLE), i)
  {
    var p, c, q, id := At(b.peers, i), At(b.ctrl.cut, i), At(Append(b, i, m).peers, i), m.payload.id;
    assert PartInv(n, i) && BegunAt(n, b, i, id) && ChannelOf(b.ctrl, i) == [];
    MarkerFirst(At(n.peers, i), c, p, m, q);
    if i in Peers(n.cfg) {
      QuietlyClosed(c, m, q);
      assert CutSent(q, c, b.ctrl.sendCut[i], id);
    }
  }

  /** The link the first marker comes on: `c` at the cut, `p` with its own marker sent, `q` with the other taken in. */
  lemma MarkerFirst(a: Peer, c: Peer, p: Peer, m: Message, q: Peer)
    requires HeardAll(a) && LinkTables(a) && Unbuffered(a) && SendsOn(a, c) && c.heard == a.heard && m.payload.Marker?
    requires c.sent <= p.sent && p == c.(sent := p.sent) && q == p.(got := p.got + [m])
    ensures LinkTables(q) && HeardAll(c) && HeardAll(q)
  {
    HeardSame(a, c);
    HeardMarker(c, m);
    HeardSame(c.(got := c.got + [m]), q);
  }

  /** The channel the first marker comes on has recorded nothing. */
  lemma QuietlyClosed(c: Peer, m: Message, q: Peer)
    requires m.payload.Marker? && q.got == c.got + [m] && q.heard == c.heard
    ensures ClosedAt(q, c, [], |c.got| + 1, m.payload.id)
  {
  }

  /** A cut made on the first marker, once that marker is taken in. */
  lemma BegunTakes(n: Node, b: Node, i: Ip, m: Message)
    requires NodeInv(n) && !n.ctrl.active && m.payload.Marker? && Unbuffered(At(n.peers, i))
    requires Begun(n, b, i, |At(n.peers, i).got|, m.payload.id)
    ensures b.ctrl.recording != {} ==> NodeInv(Append(b, i, m))
    ensures NodeInv(Append(b, i, m).(ctrl := IDLE))
  {
    var r := Append(b, i, m);
    forall k ensures PartInv(r, k) && PartInv(r.(ctrl := IDLE), k) {
      if k == i {
        BegunTakesAt(n, b, i, m);
      } else {
        BegunPart(n, b, i, |At(n.peers, i).got|, m.payload.id, k);
        PartSame(b, r, k);
        PartSame(b.(ctrl := IDLE), r.(ctrl := IDLE), k);
      }
    }
  }

  /** `r` is `b` after its controller went idle, and with every recorded message delivered. */
  ghost predicate Flushed(b: Node, r: Node) {
    && r.cfg == b.cfg && r.ctrl == IDLE
    && forall k :: At(r.peers, k) == At(b.peers, k).(heard := At(b.peers, k).heard + ChannelOf(b.ctrl, k))
  }

  lemma FinishFlushed(n: Node, status: Status)
    requires ValidConfig(n.cfg) && n.ctrl.channels.Keys <= Peers(n.cfg)
    requires forall k :: k in n.ctrl.channels ==> PlainRecords(n.ctrl.channels[k]) && Ascending(n.ctrl.channels[k])
    ensures PlainChannels(n.ctrl.channels) && Flushed(n, Finish(n, status))
  {
    FinishHeard(n, status);
  }

  /** A wave that recorded nothing has nothing to flush. */
  lemma QuietFlush(b: Node, r: Node)
    requires NodeInv(b.(ctrl := IDLE)) && Flushed(b, r) && forall k :: ChannelOf(b.ctrl, k) == []
    ensures NodeInv(r)
  {
    forall k ensures PartInv(r, k) {
      assert PartInv(b.(ctrl := IDLE), k) && ChannelOf(b.ctrl, k) == [];
      assert At(b.peers, k).heard + [] == At(b.peers, k).heard;
      PartSame(b.(ctrl := IDLE), r, k);
    }
  }

  lemma TakeFirst(n: Node, i: Ip, m: Message)
    requires NodeInv(n) && Unbuffered(At(n.peers, i)) && !n.ctrl.active && m.payload.Marker?
    ensures NodeInv(Append(Initiate(n, i, |At(n.peers, i).got|, m.payload.id), i, m))
  {
    var sn := |At(n.peers, i).got|;
    var b := Begin(n, i, sn, m.payload.id);
    BeginBegun(n, i, sn, m.payload.id);
    BegunTakes(n, b, i, m);
    if b.ctrl.recording == {} {
      AllQuiet(b.ctrl);
      FinishFlushed(b, Complete);
      FlushedAppend(b, Finish(b, Complete), i, m);
      QuietFlush(Append(b, i, m), Append(Finish(b, Complete), i, m));
    }
  }

  /** A wave started by a local request. */
  lemma InitiateInv(n: Node, remote: Ip, id: SnapshotId)
    requires NodeInv(n) && !n.ctrl.active && remote !in Peers(n.cfg)
    ensures NodeInv(Initiate(n, remote, 0, id))
  {
    var b := Begin(n, remote, 0, id);
    BeginBegun(n, remote, 0, id);
    BegunInv(n, b, remote, 0, id);
    if b.ctrl.recording == {} {
      AllQuiet(b.ctrl);
      FinishFlushed(b, Complete);
      QuietFlush(b, Finish(b, Complete));
    }
  }

  lemma AllQuiet(c: Controller)
    requires forall k :: ChannelOf(c, k) == []
    ensures forall k :: k in c.channels ==> PlainRecords(c.channels[k]) && Ascending(c.channels[k])
  {
    forall k | k in c.channels ensures PlainRecords(c.channels[k]) && Ascending(c.channels[k]) {
      assert ChannelOf(c, k) == [];
    }
  }

  lemma FlushedAppend(b: Node, r: Node, i: Ip, m: Message)
    requires Flushed(b, r)
    ensures Flushed(Append(b, i, m), Append(r, i, m))
  {
    forall k
      ensures var p := At(Append(b, i, m).peers, k);
              At(Append(r, i, m).peers, k) == p.(heard := p.heard + ChannelOf(b.ctrl, k))
    {
      assert At(r.peers, k) == At(b.peers, k).(heard := At(b.peers, k).heard + ChannelOf(b.ctrl, k));
    }
  }

  /** Taking in the next expected message keeps the invariant, whatever the message is. */
  lemma TakeInv(n: Node, i: Ip, m: Message)
    requires NodeInv(n) && PlainChannels(n.ctrl.channels) && Unbuffered(At(n.peers, i))
    ensures NodeInv(Take(n, i, m))
  {
    TakeCases(n, i, m);
    var sn := |At(n.peers, i).got|;
    if Stays(n, i, m) {
      KeepInv(n, i, m);
    } else if !n.ctrl.active {
      TakeFirst(n, i, m);
    } else if n.ctrl.recording == {i} {
      TakeLast(n, i, m);
    } else {
      CloseInv(n, i, m);
    }
  }

  lemma TakeLast(n: Node, i: Ip, m: Message)
    requires NodeInv(n) && PlainChannels(n.ctrl.channels) && Unbuffered(At(n.peers, i)) && m.payload.Marker? &&
             n.ctrl.active
    ensures NodeInv(Append(Finish(n.(ctrl := Close(n.ctrl, i, |At(n.peers, i).got|)), Complete), i, m))
  {
    var n1 := n.(ctrl := Close(n.ctrl, i, |At(n.peers, i).got|));
    var r := Finish(n1, Complete);
    FinishInv(n, n1.ctrl, Complete);
    assert SendsOn(At(n.peers, i), At(r.peers, i));
    AppendMarkerInv(r, i, m);
  }

  lemma InitiateIs(n: Node, remote: Ip, sn: nat, id: SnapshotId)
    ensures var b := Begin(n, remote, sn, id);
            Initiate(n, remote, sn, id) == if b.ctrl.recording == {} then Finish(b, Complete) else b
  {
  }

  /** The tables of a wave that has just begun at a member, seen with what it has put on its links. */
  ghost predicate TablesOpen(r: Node, remote: Ip, sn: nat, id: SnapshotId) {
    var others, t := Peers(r.cfg), r.ctrl;
    && t.active && t.id == Some(id) && t.recording == others - {remote}
    && t.channels == (map k | k in others :: [])
    && t.recvCut == (if remote in others then map[remote := sn + 1] else map[])
    && t.sendCut == (map k | k in others :: |At(r.peers, k).sent|)
  }

  lemma BegunFull(n: Node, b: Node, remote: Ip, sn: nat, id: SnapshotId)
    requires Begun(n, b, remote, sn, id)
    ensures TablesOpen(b, remote, sn, id)
  {
    forall k | k in Peers(n.cfg) ensures b.ctrl.channels[k] == [] && b.ctrl.sendCut[k] == |At(b.peers, k).sent| {
      assert BegunAt(n, b, k, id) && ChannelOf(b.ctrl, k) == [];
    }
  }

  /**
   * The tables after any message: a message of an open channel is recorded and any other leaves them; a marker opens the
   * tables of its wave at an idle member, closes its channel in its own wave, and leaves those of any other wave.
   */
  lemma TakeSteers(n: Node, i: Ip, m: Message)
    requires NodeInv(n) && PlainChannels(n.ctrl.channels)
    ensures var c, r, sn := n.ctrl, Take(n, i, m), |At(n.peers, i).got|;
            if !m.payload.Marker? then
              r.ctrl == if i in c.recording then c.(channels := c.channels[i := c.channels[i] + [Rec(sn, m)]]) else c
            else if !c.active then
              if Peers(n.cfg) <= {i} then r.ctrl == IDLE else r.cfg == n.cfg && TablesOpen(r, i, sn, m.payload.id)
            else
              r.ctrl == if c.id != Some(m.payload.id) || i !in c.recording then c
                        else if c.recording == {i} then IDLE
                        else c.(recording := c.recording - {i}, recvCut := c.recvCut[i := sn + 1])
  {
    TakeCases(n, i, m);
    var sn := |At(n.peers, i).got|;
    if !Stays(n, i, m) && !n.ctrl.active {
      FirstSteers(n, i, sn, m);
    }
  }

  lemma FirstSteers(n: Node, i: Ip, sn: nat, m: Message)
    requires NodeInv(n) && m.payload.Marker?
    ensures var r := Append(Initiate(n, i, sn, m.payload.id), i, m);
            if Peers(n.cfg) <= {i} then r.ctrl == IDLE else r.cfg == n.cfg && TablesOpen(r, i, sn, m.payload.id)
  {
    var b := Begin(n, i, sn, m.payload.id);
    BeginBegun(n, i, sn, m.payload.id);
    BegunFull(n, b, i, sn, m.payload.id);
    InitiateIs(n, i, sn, m.payload.id);
    if !(Peers(n.cfg) <= {i}) {
      assert b.ctrl.recording != {};
      AppendTables(b, i, sn, m);
    }
  }

  lemma AppendTables(b: Node, i: Ip, sn: nat, m: Message)
    requires m.payload.Marker? && TablesOpen(b, i, sn, m.payload.id)
    ensures TablesOpen(Append(b, i, m), i, sn, m.payload.id)
  {
    assert forall k :: At(Append(b, i, m).peers, k).sent == At(b.peers, k).sent;
  }
}
