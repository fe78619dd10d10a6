/** The order in which an app hears a channel that was recorded, and when that is not the order of sending. */
module Order {
  import opened Mesh
  import opened Sidecar
  import opened Bookkeeping

  /** The app heard everything that is not a marker in the order it was sent. */
  ghost predicate InOrder(p: Peer) {
    p.heard == Recorded(p.got, 0, |p.got|)
  }

  /**
   * What a flush makes the app hear from `k`, complete or aborted: first what it had heard at the cut, then what came
   * after the marker, and only then what was recorded before it.
   */
  lemma FlushDisplaces(n: Node, status: Status, k: Ip)
    requires NodeInv(n) && n.ctrl.active && k in Peers(n.cfg) && PlainChannels(n.ctrl.channels)
    requires k in n.ctrl.channels && (k in n.ctrl.recording || k in n.ctrl.recvCut)
    ensures var p, c := At(n.peers, k), At(n.ctrl.cut, k);
            && c.got <= p.got && (k !in n.ctrl.recording ==> |c.got| < n.ctrl.recvCut[k] <= |p.got|)
            && At(Finish(n, status).peers, k).heard ==
               if k in n.ctrl.recording then c.heard + Recorded(p.got, |c.got|, |p.got|)
               else c.heard + Recorded(p.got, n.ctrl.recvCut[k], |p.got|) + Recorded(p.got, |c.got|, n.ctrl.recvCut[k] - 1)
  {
    InvShape(n);
    FinishHeard(n, status);
    assert PartInv(n, k) && ChannelInv(n, k);
  }

  /**
   * A channel heard in order up to the cut is heard in order after the flush if and only if nothing was recorded on it,
   * or nothing that is not a marker came behind its marker before the flush. Channels still open stay in order.
   */
  lemma FlushKeepsOrder(n: Node, status: Status, k: Ip)
    requires NodeInv(n) && n.ctrl.active && k in Peers(n.cfg) && PlainChannels(n.ctrl.channels)
    requires k in n.ctrl.channels && (k in n.ctrl.recording || k in n.ctrl.recvCut)
    requires InOrder(At(n.ctrl.cut, k))
    ensures k !in n.ctrl.recording ==> n.ctrl.recvCut[k] <= |At(n.peers, k).got|
    ensures InOrder(At(Finish(n, status).peers, k)) <==>
            k in n.ctrl.recording || n.ctrl.channels[k] == [] ||
            Recorded(At(n.peers, k).got, n.ctrl.recvCut[k], |At(n.peers, k).got|) == []
  {
    var p, c, q := At(n.peers, k), At(n.ctrl.cut, k), At(Finish(n, status).peers, k);
    FlushDisplaces(n, status, k);
    assert SendsOn(p, q);
    assert PartInv(n, k) && ChannelInv(n, k);
    if k in n.ctrl.recording {
      RecordedPrefix(c.got, p.got, 0, |c.got|);
      RecordedSplit(p.got, 0, |c.got|, |p.got|);
    } else {
      ClosedOrder(p, c, n.ctrl.channels[k], n.ctrl.recvCut[k], n.ctrl.id.value, q);
    }
  }

  lemma ClosedOrder(p: Peer, c: Peer, channel: seq<Rec>, r: nat, id: SnapshotId, q: Peer)
    requires ClosedAt(p, c, channel, r, id) && InOrder(c)
    requires q.got == p.got && q.heard == c.heard + Recorded(p.got, r, |p.got|) + channel
    ensures InOrder(q) <==> channel == [] || Recorded(p.got, r, |p.got|) == []
  {
    var after := Recorded(p.got, r, |p.got|);
    RecordedPrefix(c.got, p.got, 0, |c.got|);
    RecordedSplit(p.got, 0, |c.got|, |p.got|);
    RecordedSplit(p.got, |c.got|, r, |p.got|);
    assert Recorded(p.got, |c.got|, r) == channel;
    RecordedShape(p.got, |c.got|, r - 1);
    RecordedShape(p.got, r, |p.got|);
    SwapMatters(c.heard, channel, after, r);
  }

  /** Two blocks of records commute only if one of them is empty. */
  lemma SwapMatters(heard: seq<Rec>, before: seq<Rec>, after: seq<Rec>, cut: nat)
    requires (forall r :: r in before ==> r.sn < cut) && (forall r :: r in after ==> r.sn >= cut)
    ensures heard + after + before == heard + (before + after) <==> before == [] || after == []
  {
    var x, y := heard + after + before, heard + (before + after);
    if before == [] || after == [] {
      assert x == y;
    } else {
      assert before[0] in before && after[0] in after;
      assert x[|heard|] == after[0] && y[|heard|] == before[0];
    }
  }
}
