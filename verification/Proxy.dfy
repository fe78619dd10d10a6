/**
 * The sidecar as its objects: link states, controller and proxy, updated in place. `Abs` is the member of `Sidecar` a
 * proxy stands for; every method is proved to take it where the function of the same name does.
 */
module Proxy {
  import opened Wrappers
  import opened Mesh
  import opened Counter
  import opened Recency
  import opened Sidecar
  import opened Bookkeeping
  import opened Callbacks
  import Deeds
  import opened Loops

  // Seconds. A message is sent again when its last sending is longer ago, and a wave is given up after the other.
  const RETRY_TIMEOUT: real := 0.5
  const SNAPSHOT_TIMEOUT: real := 30.0

  /** Sequence numbers and buffers for one remote. `link` is the link they stand for, with its history. */
  class PeerState {
    var sendSeq: nat
    var unacked: map<nat, Message>
    var sentAt: map<nat, real>
    var recvSeq: nat
    var recvBuffer: map<nat, Message>
    ghost const remote: Ip
    ghost var link: Peer

    constructor (ghost remote: Ip)
      ensures this.remote == remote && link == FRESH && sentAt == map[] && Valid()
    {
      this.remote := remote;
      sendSeq, unacked, sentAt, recvSeq, recvBuffer := 0, map[], map[], 0, map[];
      link := FRESH;
    }

    /**
     * The counters are the lengths of the histories, and what is kept, with the time of its last sending, is what was
     * sent and not yet acknowledged.
     */
    ghost predicate Valid()
      reads this
    {
      && sendSeq == |link.sent| && recvSeq == |link.got|
      && recvBuffer == link.buffer
      && unacked == link.Unacked() && sentAt.Keys == unacked.Keys
      && (forall s :: s in link.acked ==> s < |link.sent|)
    }

    /** The message is numbered, and kept until it is acknowledged. */
    method Keep(m: Message, now: real)
      requires Valid()
      modifies this`unacked, this`sentAt, this`sendSeq, this`link
      ensures Valid() && link == old(link).(sent := old(link).sent + [m])
      ensures sentAt == old(sentAt)[|old(link).sent| := now]
    {
      unacked := unacked[sendSeq := m];
      sentAt := sentAt[sendSeq := now];
      sendSeq := sendSeq + 1;
      link := link.(sent := link.sent + [m]);
      assert unacked == link.Unacked();
    }

    /** The expected message is taken in. */
    method Advance(ghost m: Message)
      requires Valid()
      modifies this`recvSeq, this`link
      ensures Valid() && link == old(link).(got := old(link).got + [m])
    {
      recvSeq := recvSeq + 1;
      link := link.(got := link.got + [m]);
      assert link.Unacked() == old(link).Unacked();
    }

    /** The next message, if it is already here. */
    method PopNext() returns (m: Message)
      requires Valid() && recvSeq in recvBuffer
      modifies this`recvBuffer, this`link
      ensures Valid() && m == old(link).buffer[|old(link).got|]
      ensures link == old(link).(buffer := old(link).buffer - {|old(link).got|})
    {
      m := recvBuffer[recvSeq];
      recvBuffer := recvBuffer - {recvSeq};
      link := link.(buffer := recvBuffer);
      assert link.Unacked() == old(link).Unacked();
    }

    method HoldBack(sn: nat, m: Message)
      requires Valid()
      modifies this`recvBuffer, this`link
      ensures Valid() && link == old(link).(buffer := old(link).buffer[sn := m])
    {
      recvBuffer := recvBuffer[sn := m];
      link := link.(buffer := recvBuffer);
      assert link.Unacked() == old(link).Unacked();
    }

    /** The other side has it: it is not sent again. */
    method Acknowledged(sn: nat)
      requires Valid()
      modifies this`unacked, this`sentAt, this`link
      ensures Valid() && sentAt == old(sentAt) - {sn}
      ensures link == if sn in old(link).Unacked() then old(link).(acked := old(link).acked + {sn}) else old(link)
    {
      if sn in unacked {
        unacked := unacked - {sn};
        sentAt := sentAt - {sn};
        link := link.(acked := link.acked + {sn});
        assert unacked == link.Unacked();
      }
    }

    /** Resume at the stored coordinates. The history below them is `past`'s. */
    method Resume(a: PeerCut, ghost past: Peer)
      requires Valid() && link.Unacked() == map[]
      requires a.sendSeq.Some? ==> a.sendSeq.value == |past.sent|
      requires a.recvSeq.Some? ==> a.recvSeq.value == |past.got|
      modifies this`sendSeq, this`recvSeq, this`link
      ensures Valid() && link.Unacked() == map[] && link == SeedPeer(old(link), a, past)
    {
      if a.sendSeq.Some? {
        sendSeq := a.sendSeq.value;
      }
      if a.recvSeq.Some? {
        recvSeq := a.recvSeq.value;
      }
      link := SeedPeer(link, a, past);
      assert a.sendSeq.None? ==> link.Unacked() == old(link).Unacked();
    }

    /** History: the app was handed this. */
    method Note(r: Rec)
      requires Valid()
      modifies this`link
      ensures Valid() && link == old(link).(heard := old(link).heard + [r])
    {
      link := link.(heard := link.heard + [r]);
      assert link.Unacked() == old(link).Unacked();
    }
  }

  /** The tables of the snapshot in progress. `cut` is history: the links as they stood at the checkpoint. */
  class SnapshotController {
    var isSnapshotting: bool
    var currentId: Option<SnapshotId>
    var recordingChannels: set<Ip>
    var channelStates: map<Ip, seq<Rec>>
    var recordedSendSeq: map<Ip, nat>
    var recordedRecvSeq: map<Ip, nat>
    var deadline: Option<real>
    ghost var cut: map<Ip, Peer>

    constructor ()
      ensures Abs() == IDLE && deadline == None
    {
      isSnapshotting, currentId, recordingChannels, deadline := false, None, {}, None;
      channelStates, recordedSendSeq, recordedRecvSeq, cut := map[], map[], map[], map[];
    }

    ghost function Abs(): Controller
      reads this
    {
      Controller(isSnapshotting, currentId, recordingChannels, channelStates, recordedSendSeq, recordedRecvSeq, cut)
    }

    /** The recorded cut as it is posted. */
    method BuildArtifact(status: Status) returns (a: Artifact)
      ensures a == Sidecar.BuildArtifact(Abs(), status)
      ensures forall k :: k in a.peers <==> k in recordedSendSeq || k in recordedRecvSeq || k in channelStates
      ensures forall k :: k in a.peers ==> (a.peers[k].sendSeq.None? <==> k !in recordedSendSeq)
      ensures forall k :: k in a.peers ==> (a.peers[k].recvSeq.None? <==> k !in recordedRecvSeq)
      ensures forall k :: k in channelStates ==> k in a.peers && a.peers[k].channel == channelStates[k]
    {
      a := Artifact(currentId, status,
        map k | k in recordedSendSeq.Keys + recordedRecvSeq.Keys + channelStates.Keys ::
          PeerCut(Lookup(recordedSendSeq, k), Lookup(recordedRecvSeq, k), if k in channelStates then channelStates[k] else []));
    }
  }

  /** Stored coordinates and the history below them. */
  ghost predicate StandsAt(a: PeerCut, past: Peer) {
    && (a.sendSeq.Some? ==> a.sendSeq.value == |past.sent|)
    && (a.recvSeq.Some? ==> a.recvSeq.value == |past.got|)
  }

  /** Nothing awaits acknowledgement on any link. */
  ghost predicate Unsent(logs: map<Ip, Peer>) {
    forall k :: At(logs, k).Unacked() == map[]
  }

  /** Restoring opens a link to every remote of the artifact. */
  lemma {:induction false} SeedReaches(n: Node, a: Artifact, past: map<Ip, Peer>, ks: seq<Ip>)
    ensures forall k :: k in n.peers || (k in ks && k in a.peers) ==> k in Seed(n, a, past, ks).peers
    decreases |ks|
  {
    if ks != [] {
      assert ks == [ks[0]] + ks[1..];
      if ks[0] in a.peers {
        var p := SeedPeer(At(n.peers, ks[0]), a.peers[ks[0]], At(past, ks[0]));
        SeedReaches(n.(peers := n.peers[ks[0] := p]), a, past, ks[1..]);
      } else {
        SeedReaches(n, a, past, ks[1..]);
      }
    }
  }

  lemma NothingUnsent(logs: map<Ip, Peer>)
    requires forall k :: k !in logs
    ensures Unsent(logs)
  {
    assert FRESH.Unacked() == map[];
  }

  /** Taking in the message that is next and going on is emptying the buffer; there is then less in it. */
  lemma UnbufferNext(n: Node, i: Ip)
    requires PlainChannels(n.ctrl.channels) && |At(n.peers, i).got| in At(n.peers, i).buffer
    ensures var p := At(n.peers, i); var r := Sidecar.Take(PopBuffer(n, i), i, p.buffer[|p.got|]);
            Sidecar.Unbuffer(r, i) == Sidecar.Unbuffer(n, i) && |At(r.peers, i).buffer| < |p.buffer|
  {
    TakeLinks(PopBuffer(n, i), i, At(n.peers, i).buffer[|At(n.peers, i).got|]);
  }

  /** Looking up the link first changes nothing. */
  lemma ReceiveKnown(n: Node, src: Ip, frame: Frame<Payload>)
    requires PlainChannels(n.ctrl.channels)
    ensures Receive(Sidecar.GetPeer(n, src), src, frame) == Receive(n, src, frame)
  {
    var n0 := Sidecar.GetPeer(n, src);
    assert Sidecar.GetPeer(n0, src) == n0 && At(n0.peers, src) == At(n.peers, src);
  }

  /** The clock of the host. It does not move while a callback runs. */
  class Clock {
    var now: real

    constructor (now: real)
      ensures this.now == now
    {
      this.now := now;
    }
  }

  ghost predicate IsLate(now: real, sentAt: real) {
    now - sentAt > RETRY_TIMEOUT
  }

  ghost predicate AllDifferent(ks: seq<Ip>) {
    forall x, y :: 0 <= x < y < |ks| ==> ks[x] != ks[y]
  }

  /** Of the messages last sent at `was`, exactly the late ones are due, and no others. */
  ghost predicate AreLate(was: map<nat, real>, now: real, k: Ip, due: seq<(Ip, nat)>) {
    && (forall d :: d in due ==> d.0 == k)
    && (forall sn: nat :: (k, sn) in due <==> sn in was && IsLate(now, was[sn]))
  }

  ghost predicate LateBelow(was: map<nat, real>, now: real, k: Ip, due: seq<(Ip, nat)>, below: nat) {
    && (forall d :: d in due ==> d.0 == k)
    && (forall sn: nat :: (k, sn) in due <==> sn < below && sn in was && IsLate(now, was[sn]))
  }

  ghost predicate AllLate(times: map<Ip, map<nat, real>>, now: real, due: seq<(Ip, nat)>) {
    forall k, sn :: (k, sn) in due <==> k in times && sn in times[k] && IsLate(now, times[k][sn])
  }

  ghost predicate LateAmong(times: map<Ip, map<nat, real>>, now: real, ks: seq<Ip>, due: seq<(Ip, nat)>) {
    forall k, sn :: (k, sn) in due <==> k in ks && k in times && sn in times[k] && IsLate(now, times[k][sn])
  }

  /** What is due is sent now, and the rest was last sent when it was. */
  ghost function Renewed(was: map<nat, real>, k: Ip, due: seq<(Ip, nat)>, now: real): map<nat, real> {
    map sn | sn in was :: if (k, sn) in due then now else was[sn]
  }

  function Stamped(was: map<nat, real>, sn: nat, now: real): map<nat, real> {
    was[sn := now]
  }

  ghost function Refreshed(times: map<Ip, map<nat, real>>, due: seq<(Ip, nat)>, now: real): map<Ip, map<nat, real>> {
    map k | k in times :: Renewed(times[k], k, due, now)
  }

  lemma OneMoreLate(was: map<nat, real>, now: real, k: Ip, due: seq<(Ip, nat)>, sn: nat)
    requires LateBelow(was, now, k, due, sn) && sn in was && IsLate(now, was[sn])
    ensures LateBelow(was, now, k, due + [(k, sn)], sn + 1)
    ensures Renewed(was, k, due + [(k, sn)], now) == Stamped(Renewed(was, k, due, now), sn, now)
  {
  }

  lemma OneMoreCopy(n: Node, tunnel: seq<Outgoing>, due: seq<(Ip, nat)>, k: Ip, sn: nat)
    ensures Sidecar.Retransmit(n.(tunnel := tunnel + Copies(n.peers, due)), k, sn) ==
            n.(tunnel := tunnel + Copies(n.peers, due + [(k, sn)]))
  {
    assert [(k, sn)][1..] == [];
    MoreCopies(n.peers, due, [(k, sn)]);
  }

  /** The loop over the numbers of one link, between `n` and `r`: the late ones below `sn` are sent again. */
  ghost predicate ResentBelow(n: Node, r: Node, was: map<Ip, map<nat, real>>, times: map<Ip, map<nat, real>>, now: real,
                              k: Ip, due: seq<(Ip, nat)>, sn: nat)
  {
    && k in was && LateBelow(was[k], now, k, due, sn)
    && r == n.(tunnel := n.tunnel + Copies(n.peers, due))
    && times == was[k := Renewed(was[k], k, due, now)]
  }

  lemma ResentOneMore(n: Node, was: map<Ip, map<nat, real>>, now: real, k: Ip, due: seq<(Ip, nat)>, sn: nat)
    requires k in was && LateBelow(was[k], now, k, due, sn)
    ensures var r := n.(tunnel := n.tunnel + Copies(n.peers, due)); var times := was[k := Renewed(was[k], k, due, now)];
            if sn in was[k] && IsLate(now, was[k][sn]) then
              ResentBelow(n, Sidecar.Retransmit(r, k, sn), was, times[k := Stamped(times[k], sn, now)], now,
                          k, due + [(k, sn)], sn + 1)
            else
              ResentBelow(n, r, was, times, now, k, due, sn + 1)
    ensures sn in Renewed(was[k], k, due, now) <==> sn in was[k]
    ensures sn in was[k] ==> Renewed(was[k], k, due, now)[sn] == was[k][sn]
  {
    if sn in was[k] && IsLate(now, was[k][sn]) {
      OneMoreLate(was[k], now, k, due, sn);
      OneMoreCopy(n, n.tunnel, due, k, sn);
    }
  }

  lemma NotYetRenewed(times: map<Ip, map<nat, real>>, now: real, ks: seq<Ip>, due: seq<(Ip, nat)>, k: Ip)
    requires LateAmong(times, now, ks, due) && k !in ks && k in times
    ensures Renewed(times[k], k, due, now) == times[k]
  {
    forall d | d in due ensures d.0 != k {
      assert (d.0, d.1) in due;
    }
    NoneRenewed(times[k], k, due, now);
  }

  lemma NoneRenewed(was: map<nat, real>, k: Ip, due: seq<(Ip, nat)>, now: real)
    requires forall d :: d in due ==> d.0 != k
    ensures Renewed(was, k, due, now) == was
  {
  }

  lemma NoneRefreshed(times: map<Ip, map<nat, real>>, now: real)
    ensures Refreshed(times, [], now) == times
  {
    forall k | k in times ensures Renewed(times[k], k, [], now) == times[k] {
      NoneRenewed(times[k], k, [], now);
    }
  }

  lemma RefreshedOne(was: map<Ip, map<nat, real>>, due: seq<(Ip, nat)>, now: real, k: Ip)
    requires k in was && forall d :: d in due ==> d.0 == k
    ensures Refreshed(was, due, now) == was[k := Renewed(was[k], k, due, now)]
  {
    forall i | i in was && i != k ensures Renewed(was[i], i, due, now) == was[i] {
      NoneRenewed(was[i], i, due, now);
    }
  }

  /** What is due on another link as well, after what is due on those of `ks`. */
  lemma MoreLate(was: map<Ip, map<nat, real>>, now: real, ks: seq<Ip>, due: seq<(Ip, nat)>, k: Ip, more: seq<(Ip, nat)>)
    requires LateAmong(was, now, ks, due) && k !in ks && LateAmong(Refreshed(was, due, now), now, [k], more)
    ensures LateAmong(was, now, ks + [k], due + more)
  {
    if k in was {
      NotYetRenewed(was, now, ks, due, k);
    }
  }

  lemma MoreRefreshed(was: map<Ip, map<nat, real>>, now: real, due: seq<(Ip, nat)>, more: seq<(Ip, nat)>)
    ensures Refreshed(Refreshed(was, due, now), more, now) == Refreshed(was, due + more, now)
  {
    forall i | i in was ensures Renewed(Renewed(was[i], i, due, now), i, more, now) == Renewed(was[i], i, due + more, now) {
      assert forall sn: nat :: (i, sn) in due + more <==> (i, sn) in due || (i, sn) in more;
    }
  }

  /** The loop over links, between `n` and `r`: the late ones on the links of `ks` are sent again. */
  ghost predicate ResentAmong(n: Node, r: Node, was: map<Ip, map<nat, real>>, times: map<Ip, map<nat, real>>, now: real,
                              ks: seq<Ip>, due: seq<(Ip, nat)>)
  {
    && LateAmong(was, now, ks, due)
    && r == n.(tunnel := n.tunnel + Copies(n.peers, due))
    && times == Refreshed(was, due, now)
  }

  lemma ResentMore(n: Node, was: map<Ip, map<nat, real>>, now: real, ks: seq<Ip>, due: seq<(Ip, nat)>, k: Ip,
                   more: seq<(Ip, nat)>)
    requires LateAmong(was, now, ks, due) && k !in ks && LateAmong(Refreshed(was, due, now), now, [k], more)
    ensures ResentAmong(n, n.(tunnel := n.tunnel + Copies(n.peers, due) + Copies(n.peers, more)),
                        was, Refreshed(Refreshed(was, due, now), more, now), now, ks + [k], due + more)
  {
    MoreCopies(n.peers, due, more);
    Deeds.Regroup(n.tunnel, Copies(n.peers, due), Copies(n.peers, more));
    MoreRefreshed(was, now, due, more);
    MoreLate(was, now, ks, due, k, more);
  }

  /** One marker sent, and its coordinate noted. */
  ghost function Marked(n: Node, k: Ip, id: SnapshotId): Node {
    var n1 := Sidecar.SendData(n, k, MarkerMessage(id));
    n1.(ctrl := n1.ctrl.(sendCut := n1.ctrl.sendCut[k := |At(n1.peers, k).sent|]))
  }

  /** A broadcast opens a link to every member it reaches. */
  lemma {:induction false} BroadcastReaches(n: Node, ks: seq<Ip>, id: SnapshotId)
    ensures forall k :: k in n.peers || k in ks ==> k in Broadcast(n, ks, id).peers
    decreases |ks|
  {
    if ks != [] {
      BroadcastReaches(Marked(n, ks[0], id), ks[1..], id);
      assert ks == [ks[0]] + ks[1..];
    }
  }

  /**
   * The proxy, with the app and the host behind its sockets, what it has put on them, and the clock of the host. Of the ghost
   * fields, `links` holds the link states it owns, `logs` the links with their histories, `times` when each of their
   * unacknowledged messages was last sent, and the others are histories too.
   */
  class MeshProxy {
    const cfg: Config
    const ctrl: SnapshotController
    const time: Clock
    var peers: map<Ip, PeerState>
    var spoof: seq<Address>
    var app: App
    var tunnel: seq<Outgoing>
    var exits: seq<Datagram>
    var artifacts: seq<Artifact>
    var checkpointUp: bool
    var storeUp: bool
    ghost var links: set<PeerState>
    ghost var logs: map<Ip, Peer>
    ghost var times: map<Ip, map<nat, real>>
    ghost var images: seq<Image>

    constructor (cfg: Config, app: App, time: Clock)
      ensures this.time == time && Timed()
      ensures Valid() && fresh(this.ctrl) && fresh(links)
      ensures Abs() == Node(cfg, app, map[], IDLE, Host(true, true, [], []), [], [], [])
    {
      this.cfg, this.app, this.time := cfg, app, time;
      ctrl := new SnapshotController();
      peers, spoof, tunnel, exits, artifacts := map[], [], [], [], [];
      checkpointUp, storeUp := true, true;
      links, logs, times, images := {}, map[], map[], [];
    }

    /** The member this proxy is. */
    ghost function Abs(): Node
      reads this, ctrl
    {
      Node(cfg, app, logs, ctrl.Abs(), Host(checkpointUp, storeUp, images, artifacts), tunnel, exits, spoof)
    }

    /** The link states are this proxy's own, none serves two remotes, and each stands for its link. */
    ghost predicate LinkMatches(k: Ip)
      reads this`peers, this`links, this`logs, this`times, links
    {
      if k in peers then
        && peers[k] in links && peers[k].remote == k && peers[k].Valid()
        && k in logs && peers[k].link == logs[k]
        && k in times && peers[k].sentAt == times[k]
      else
        k !in logs && k !in times
    }

    /** Every recorded channel has a link, and nothing recorded is a marker. */
    ghost predicate ChannelsMatch()
      reads this`peers, ctrl`channelStates
    {
      ctrl.channelStates.Keys <= peers.Keys && PlainChannels(ctrl.channelStates)
    }

    ghost predicate Valid()
      reads this, ctrl, links
    {
      (forall k :: LinkMatches(k)) && ChannelsMatch()
    }

    /** A wave in progress has its time. */
    predicate Timed()
      reads ctrl
    {
      ctrl.isSnapshotting ==> ctrl.deadline.Some?
    }

    /** Link states are created and never replaced. */
    twostate predicate Grown()
      reads this`peers, this`links
    {
      && (forall k :: k in old(peers) ==> k in peers && peers[k] == old(peers[k]))
      && old(links) <= links && fresh(links - old(links))
    }

    /** No link is created, and nothing is sent on any. */
    twostate predicate Undisturbed()
      reads this
    {
      peers == old(peers) && times == old(times)
    }

    // ---------- Links ----------

    method GetPeer(k: Ip) returns (p: PeerState)
      requires Valid()
      modifies this`peers, this`links, this`logs, this`times
      ensures Valid() && Grown() && k in peers && p == peers[k] && p in links
      ensures Abs() == Sidecar.GetPeer(old(Abs()), k)
    {
      assert LinkMatches(k);
      if k !in peers {
        Open(k);
      }
      p := peers[k];
      assert LinkMatches(k);
      assert logs == old(logs)[k := At(old(logs), k)];
    }

    /** A link to a remote that has none. */
    method Open(k: Ip)
      requires Valid() && k !in peers
      modifies this`peers, this`links, this`logs, this`times
      ensures Valid() && Grown() && k in peers && logs == old(logs)[k := FRESH]
    {
      var p := new PeerState(k);
      links := links + {p};
      peers, logs, times := peers[k := p], logs[k := FRESH], times[k := map[]];
      assert forall i :: old(LinkMatches(i)) ==> LinkMatches(i);
      assert LinkMatches(k);
    }

    /** Number a message, send it, and keep it for retransmission. */
    method SendData(k: Ip, p: PeerState, m: Message)
      requires Valid() && k in peers && peers[k] == p
      modifies this`tunnel, this`logs, this`times, p
      ensures Valid() && Abs() == Sidecar.SendData(old(Abs()), k, m)
      ensures k in times && times[k] == p.sentAt && times == old(times)[k := times[k]]
    {
      assert LinkMatches(k);
      tunnel := tunnel + [Outgoing(k, Data(p.sendSeq, m))];
      p.Keep(m, time.now);
      logs, times := logs[k := p.link], times[k := p.sentAt];
      assert forall i :: old(LinkMatches(i)) ==> LinkMatches(i);
    }

    /** The cached socket for an address, made most recently used; the oldest makes room for a new one. */
    method GetSpoofSock(key: Address)
      modifies this`spoof
      ensures spoof == Touch(old(spoof), key)
    {
      if key in spoof {
        spoof := Without(spoof, key) + [key];
      } else {
        if |spoof| >= MAX_SPOOF_SOCKETS {
          spoof := spoof[1..];
        }
        spoof := spoof + [key];
      }
    }

    /** Route one intercepted datagram. */
    method ForwardIntercepted(d: Datagram)
      requires Valid()
      modifies this, links
      ensures Valid() && Grown() && Abs() == Sidecar.Forward(old(Abs()), d)
    {
      if d.dst.Some? && d.dst.value.port != 0 {
        var ip := d.dst.value.ip;
        if InMesh(ip) {
          if cfg.self in cfg.mesh && ip in cfg.mesh {
            var p := GetPeer(ip);
            SendData(ip, p, MessageOf(d));
          } else {
            tunnel := tunnel + [Outgoing(ip, Plain(MessageOf(d)))];
            exits := exits + [d];
          }
        } else {
          GetSpoofSock(d.src);
          exits := exits + [d];
        }
      }
    }

    /** Forward everything that is pending on the intercept socket. */
    method DrainIntercept()
      requires Valid()
      modifies this, links
      ensures Valid() && Grown() && Abs() == Sidecar.Drain(old(Abs()))
    {
      while app.pending != []
        invariant Valid() && Grown()
        invariant Sidecar.Drain(Abs()) == Sidecar.Drain(old(Abs()))
        decreases |app.pending|
      {
        ghost var before := Abs();
        var d := app.pending[0];
        app := app.(pending := app.pending[1..]);
        assert Abs() == Pop(before);
        ForwardIntercepted(d);
      }
    }

    // ---------- Delivery ----------

    /** Hand a message to the app through a socket that spoofs its origin. */
    method Deliver(remote: Ip, sn: nat, m: Message)
      requires Valid() && remote in peers
      modifies this`spoof, this`app, this`logs, links
      ensures Valid() && Abs() == Sidecar.Deliver(old(Abs()), remote, sn, m)
    {
      assert LinkMatches(remote);
      GetSpoofSock(Address(remote, m.srcPort));
      app := app.Receive(remote, m);
      peers[remote].Note(Rec(sn, m));
      logs := logs[remote := peers[remote].link];
      assert forall i :: old(LinkMatches(i)) ==> LinkMatches(i);
    }

    method ProcessAndDeliver(remote: Ip, sn: nat, m: Message)
      requires Valid() && remote in peers
      modifies this, ctrl, links
      ensures Valid() && Grown() && Abs() == Sidecar.ProcessAndDeliver(old(Abs()), remote, sn, m)
      ensures old(Timed()) ==> Timed()
      ensures !m.payload.Marker? ==> Undisturbed()
      decreases Rank(m), 4
    {
      var consumed := ProcessMessage(remote, sn, m);
      if !consumed {
        Deliver(remote, sn, m);
      }
    }

    // ---------- The snapshot controller at work ----------

    /** Whether the message is a marker, or recorded; if not, it is still to be delivered. */
    method ProcessMessage(remote: Ip, sn: nat, m: Message) returns (consumed: bool)
      requires Valid() && (m.payload.Marker? || remote in peers)
      modifies this, ctrl, links
      ensures Valid() && Grown() && Abs() == Sidecar.ProcessMessage(old(Abs()), remote, sn, m)
      ensures consumed <==> Consumes(old(Abs()), remote, m)
      ensures old(Timed()) ==> Timed()
      ensures !m.payload.Marker? ==> Undisturbed()
      decreases Rank(m), 3
    {
      if m.payload.Marker? {
        if !ctrl.isSnapshotting {
          Initiate(remote, sn, m.payload.id);
        } else if ctrl.currentId == Some(m.payload.id) && remote in ctrl.recordingChannels {
          ctrl.recordedRecvSeq := ctrl.recordedRecvSeq[remote := sn + 1];
          ctrl.recordingChannels := ctrl.recordingChannels - {remote};
          if ctrl.recordingChannels == {} {
            FinishSnapshot(Complete);
          }
        }
        return true;
      }
      if ctrl.isSnapshotting && remote in ctrl.recordingChannels {
        Record(remote, Rec(sn, m));
        return true;
      }
      return false;
    }

    method Record(remote: Ip, r: Rec)
      requires Valid() && remote in peers && !r.msg.payload.Marker?
      modifies ctrl`channelStates
      ensures Valid()
      ensures ctrl.channelStates == old(ctrl.channelStates)[remote :=
                (if remote in old(ctrl.channelStates) then old(ctrl.channelStates)[remote] else []) + [r]]
    {
      var channel := if remote in ctrl.channelStates then ctrl.channelStates[remote] else [];
      ctrl.channelStates := ctrl.channelStates[remote := channel + [r]];
    }

    /** The first marker of a wave. */
    method Initiate(remote: Ip, sn: nat, id: SnapshotId)
      requires Valid()
      modifies this, ctrl, links
      ensures Valid() && Grown() && Abs() == Sidecar.Initiate(old(Abs()), remote, sn, id)
      ensures Timed()
      decreases 1, 2
    {
      Begin(remote, sn, id);
      if ctrl.recordingChannels == {} {
        FinishSnapshot(Complete);
      }
    }

    /** Cut the app, put a marker on every channel, and start recording. */
    method Begin(remote: Ip, sn: nat, id: SnapshotId)
      requires Valid()
      modifies this, ctrl, links
      ensures Valid() && Grown() && Abs() == Sidecar.Begin(old(Abs()), remote, sn, id)
      ensures ctrl.deadline == Some(time.now + SNAPSHOT_TIMEOUT)
    {
      var members := Others(cfg.mesh, cfg.self);
      Cut(remote, id);
      BroadcastReaches(Abs(), members, id);
      Broadcast(members, id);
      assert forall k :: k in members ==> LinkMatches(k);
      OpenChannels(members, remote, sn);
    }

    method Cut(remote: Ip, id: SnapshotId)
      requires Valid()
      modifies this, ctrl, links
      ensures Valid() && Grown() && Abs() == Sidecar.Cut(old(Abs()), remote, id)
    {
      ctrl.isSnapshotting, ctrl.currentId := true, Some(id);
      ctrl.channelStates, ctrl.recordedSendSeq, ctrl.recordedRecvSeq := map[], map[], map[];
      ctrl.recordingChannels := SetOf(Others(cfg.mesh, cfg.self)) - {remote};
      ctrl.cut := map[];
      DrainIntercept();
      Checkpoint(id);
    }

    /** The checkpoint of the app, if the host takes the request. */
    method Checkpoint(id: SnapshotId)
      requires Valid()
      modifies this`images, ctrl`cut
      ensures Valid()
      ensures var n := old(Abs()); Abs() == Sidecar.Checkpoint(n.(ctrl := n.ctrl.(cut := n.peers)), id)
    {
      ctrl.cut := logs;
      if checkpointUp {
        images := images + [Image(id, app, exits, logs)];
      }
      assert forall k :: old(LinkMatches(k)) ==> LinkMatches(k);
    }

    /** A marker on the channel to each of `members`, and the coordinate right behind it. */
    method Broadcast(members: seq<Ip>, id: SnapshotId)
      requires Valid()
      modifies this, ctrl`recordedSendSeq, links
      ensures Valid() && Grown() && Abs() == Sidecar.Broadcast(old(Abs()), members, id)
    {
      var i := 0;
      while i < |members|
        invariant 0 <= i <= |members|
        invariant Valid() && Grown()
        invariant Sidecar.Broadcast(Abs(), members[i..], id) == Sidecar.Broadcast(old(Abs()), members, id)
      {
        SendMarker(members[i], id);
        i := i + 1;
      }
    }

    method SendMarker(k: Ip, id: SnapshotId)
      requires Valid()
      modifies this, ctrl`recordedSendSeq, links
      ensures Valid() && Grown() && Abs() == Marked(old(Abs()), k, id)
    {
      var p := GetPeer(k);
      SendData(k, p, MarkerMessage(id));
      NoteSent(k, p);
    }

    /** The coordinate of channel `k` is right behind what was last sent on it. */
    method NoteSent(k: Ip, p: PeerState)
      requires Valid() && k in peers && peers[k] == p
      modifies ctrl`recordedSendSeq
      ensures Valid()
      ensures var n := old(Abs()); Abs() == n.(ctrl := n.ctrl.(sendCut := n.ctrl.sendCut[k := |At(n.peers, k).sent|]))
    {
      assert LinkMatches(k);
      ctrl.recordedSendSeq := ctrl.recordedSendSeq[k := p.sendSeq];
      assert forall i :: old(LinkMatches(i)) ==> LinkMatches(i);
    }

    method OpenChannels(members: seq<Ip>, remote: Ip, sn: nat)
      requires Valid() && members == Others(cfg.mesh, cfg.self) && forall k :: k in members ==> k in peers
      requires ctrl.recordingChannels <= SetOf(members)
      modifies ctrl`channelStates, ctrl`recordedRecvSeq, ctrl`deadline
      ensures Valid() && Abs() == Sidecar.OpenChannels(old(Abs()), remote, sn)
      ensures ctrl.deadline == Some(time.now + SNAPSHOT_TIMEOUT)
    {
      var quiet := map k | k in ctrl.recordingChannels :: [];
      ctrl.channelStates := if remote in members then quiet[remote := []] else quiet;
      ctrl.recordedRecvSeq := if remote in members then map[remote := sn + 1] else map[];
      ctrl.deadline := Some(time.now + SNAPSHOT_TIMEOUT);
      assert forall k :: old(LinkMatches(k)) ==> LinkMatches(k);
    }

    /** One artifact more, of this wave and status, at a host that accepts it. */
    twostate predicate Posts(id: Option<SnapshotId>, status: Status)
      reads this
    {
      if old(storeUp) then
        && |artifacts| == |old(artifacts)| + 1 && old(artifacts) <= artifacts
        && artifacts[|old(artifacts)|].id == id && artifacts[|old(artifacts)|].status == status
      else
        artifacts == old(artifacts)
    }

    /** The end of a wave, complete or aborted: post the artifact, then flush. */
    method FinishSnapshot(status: Status)
      requires Valid()
      modifies this, ctrl, links
      ensures Valid() && Grown() && Undisturbed() && Abs() == Sidecar.Finish(old(Abs()), status)
      ensures Posts(old(ctrl.currentId), status)
      ensures Timed()
      decreases 1, 1
    {
      var a := ctrl.BuildArtifact(status);
      if storeUp {
        artifacts := artifacts + [a];
      }
      FlushAndReset();
    }

    method FlushAndReset()
      requires Valid()
      modifies this, ctrl, links
      ensures Valid() && Grown() && Undisturbed() && Abs() == Sidecar.Flush(old(Abs())) && artifacts == old(artifacts)
      ensures Timed()
      decreases 1, 0
    {
      ctrl.isSnapshotting, ctrl.currentId, ctrl.deadline, ctrl.recordingChannels := false, None, None, {};
      ctrl.recordedSendSeq, ctrl.recordedRecvSeq, ctrl.cut := map[], map[], map[];
      ReplayChannels(ctrl.channelStates, cfg.order);
      ctrl.channelStates := map[];
    }

    /** Deliver recorded channels one after another, each in ascending order. */
    method ReplayChannels(channels: map<Ip, seq<Rec>>, remotes: seq<Ip>)
      requires Valid() && !ctrl.isSnapshotting && PlainChannels(channels)
      requires forall k :: k in channels ==> k in peers
      modifies this, ctrl, links
      ensures Valid() && Grown() && Undisturbed() && Abs() == Sidecar.Replay(old(Abs()), channels, remotes)
      decreases 0, 6
    {
      var i := 0;
      while i < |remotes|
        invariant 0 <= i <= |remotes|
        invariant Valid() && Grown() && Undisturbed() && !ctrl.isSnapshotting
        invariant Sidecar.Replay(Abs(), channels, remotes[i..]) == Sidecar.Replay(old(Abs()), channels, remotes)
      {
        if remotes[i] in channels {
          DeliverRecorded(remotes[i], SortBySeq(channels[remotes[i]]));
        }
        i := i + 1;
      }
    }

    method DeliverRecorded(remote: Ip, records: seq<Rec>)
      requires Valid() && !ctrl.isSnapshotting && PlainRecords(records) && remote in peers
      modifies this, ctrl, links
      ensures Valid() && Grown() && Undisturbed() && !ctrl.isSnapshotting
      ensures Abs() == Sidecar.DeliverAll(old(Abs()), remote, records)
      decreases 0, 5
    {
      var i := 0;
      while i < |records|
        invariant 0 <= i <= |records|
        invariant Valid() && Grown() && Undisturbed() && !ctrl.isSnapshotting && remote in peers
        invariant Sidecar.DeliverAll(Abs(), remote, records[i..]) == Sidecar.DeliverAll(old(Abs()), remote, records)
      {
        assert records[i] in records;
        ProcessAndDeliver(remote, records[i].sn, records[i].msg);
        i := i + 1;
      }
    }

    // ---------- Callbacks ----------

    /** Taking in the next expected message. */
    method Take(src: Ip, peer: PeerState, m: Message)
      requires Valid() && src in peers && peers[src] == peer
      modifies this, ctrl, links
      ensures Valid() && Grown() && Abs() == Sidecar.Take(old(Abs()), src, m)
      ensures old(Timed()) ==> Timed()
    {
      assert LinkMatches(src);
      ProcessAndDeliver(src, peer.recvSeq, m);
      assert LinkMatches(src);
      MoveOn(src, peer, m);
    }

    method MoveOn(src: Ip, peer: PeerState, ghost m: Message)
      requires Valid() && src in peers && peers[src] == peer
      modifies this`logs, peer
      ensures Valid() && Abs() == Append(old(Abs()), src, m)
    {
      assert LinkMatches(src);
      peer.Advance(m);
      logs := logs[src := peer.link];
      assert forall i :: old(LinkMatches(i)) ==> LinkMatches(i);
    }

    method TakeBuffered(src: Ip, peer: PeerState)
      requires Valid() && src in peers && peers[src] == peer && peer.recvSeq in peer.recvBuffer
      modifies this, ctrl, links
      ensures Valid() && Grown()
      ensures old(Timed()) ==> Timed()
      ensures Sidecar.Unbuffer(Abs(), src) == Sidecar.Unbuffer(old(Abs()), src)
      ensures src in peers && peers[src] == peer && |peer.recvBuffer| < |old(peer.recvBuffer)|
    {
      assert LinkMatches(src);
      ghost var n := Abs();
      var m := peer.PopNext();
      logs := logs[src := peer.link];
      assert forall i :: old(LinkMatches(i)) ==> LinkMatches(i);
      Take(src, peer, m);
      UnbufferNext(n, src);
      assert LinkMatches(src);
    }

    /** Everything that was waiting for the message just taken in. */
    method TakeWaiting(src: Ip, peer: PeerState)
      requires Valid() && src in peers && peers[src] == peer
      modifies this, ctrl, links
      ensures Valid() && Grown() && Abs() == Sidecar.Unbuffer(old(Abs()), src)
      ensures old(Timed()) ==> Timed()
    {
      assert LinkMatches(src);
      while peer.recvSeq in peer.recvBuffer
        invariant Valid() && Grown() && src in peers && peers[src] == peer
        invariant old(Timed()) ==> Timed()
        invariant Sidecar.Unbuffer(Abs(), src) == Sidecar.Unbuffer(old(Abs()), src)
        decreases |peer.recvBuffer|
      {
        TakeBuffered(src, peer);
      }
      assert LinkMatches(src);
    }

    method TakeInOrder(src: Ip, peer: PeerState, m: Message)
      requires Valid() && src in peers && peers[src] == peer
      modifies this, ctrl, links
      ensures Valid() && Grown() && Abs() == Sidecar.Unbuffer(Sidecar.Take(old(Abs()), src, m), src)
      ensures old(Timed()) ==> Timed()
    {
      Take(src, peer, m);
      TakeWaiting(src, peer);
    }

    /** A data frame is acknowledged, and then taken in, kept for its turn, or dropped. */
    method DataReceived(src: Ip, peer: PeerState, sn: nat, m: Message)
      requires Valid() && src in peers && peers[src] == peer
      modifies this, ctrl, links
      ensures Valid() && Grown() && Abs() == Sidecar.Receive(old(Abs()), src, Data(sn, m))
      ensures old(Timed()) ==> Timed()
    {
      assert LinkMatches(src);
      assert logs[src := At(logs, src)] == logs;
      tunnel := tunnel + [Outgoing(src, Frame.Ack(sn))];
      if sn == peer.recvSeq {
        TakeInOrder(src, peer, m);
      } else if sn > peer.recvSeq {
        HoldBack(src, peer, sn, m);
      }
    }

    /** A frame from the tunnel. */
    method DatagramReceived(src: Ip, frame: Frame<Payload>)
      requires Valid()
      modifies this, ctrl, links
      ensures Valid() && Grown() && Abs() == Sidecar.Receive(old(Abs()), src, frame)
      ensures old(Timed()) ==> Timed()
    {
      var peer := GetPeer(src);
      assert LinkMatches(src);
      match frame
      case Data(sn, m) =>
        ReceiveKnown(old(Abs()), src, frame);
        DataReceived(src, peer, sn, m);
      case Ack(sn) =>
        Acknowledged(src, peer, sn);
      case Plain(m) =>
        PlainReceived(src, m);
    }

    /** An outsider's datagram is handed to the app at once. */
    method PlainReceived(src: Ip, m: Message)
      requires Valid()
      modifies this`spoof, this`app
      ensures Valid() && Abs() == ToApp(old(Abs()), src, m)
    {
      GetSpoofSock(Address(src, m.srcPort));
      app := app.Receive(src, m);
      assert forall i :: old(LinkMatches(i)) ==> LinkMatches(i);
    }

    method HoldBack(src: Ip, peer: PeerState, sn: nat, m: Message)
      requires Valid() && src in peers && peers[src] == peer
      modifies this`logs, peer
      ensures Valid()
      ensures var n := old(Abs()); var p := At(n.peers, src);
              Abs() == n.(peers := n.peers[src := p.(buffer := p.buffer[sn := m])])
    {
      assert LinkMatches(src);
      peer.HoldBack(sn, m);
      logs := logs[src := peer.link];
      assert forall i :: old(LinkMatches(i)) ==> LinkMatches(i);
    }

    method Acknowledged(src: Ip, peer: PeerState, sn: nat)
      requires Valid() && src in peers && peers[src] == peer
      modifies this`logs, this`times, peer
      ensures Valid() && src in old(times) && times == old(times)[src := old(times)[src] - {sn}]
      ensures var n := old(Abs()); var p := At(n.peers, src);
              Abs() == n.(peers := n.peers[src := if sn in p.Unacked() then p.(acked := p.acked + {sn}) else p])
    {
      assert LinkMatches(src);
      peer.Acknowledged(sn);
      logs, times := logs[src := peer.link], times[src := peer.sentAt];
      assert forall i :: old(LinkMatches(i)) ==> LinkMatches(i);
    }

    /** One datagram from the intercept socket: a snapshot request, or app traffic. */
    method InterceptOne()
      requires Valid() && app.pending != []
      modifies this, ctrl, links
      ensures Valid() && Grown() && Abs() == Sidecar.Intercept(old(Abs()))
      ensures old(Timed()) ==> Timed()
    {
      var d := app.pending[0];
      ghost var n := Abs();
      app := app.(pending := app.pending[1..]);
      assert Abs() == Pop(n);
      if d.payload.Start? {
        var _ := ProcessMessage(LOCALHOST, 0, Msg(Marker(d.payload.id), 0, 0, LOCALHOST));
      } else {
        ForwardIntercepted(d);
      }
    }

    /** Everything pending on the intercept socket, until it would block. */
    method HandleLocalIntercept()
      requires Valid() && LOCALHOST !in ctrl.recordingChannels
      modifies this, ctrl, links
      ensures Valid() && Grown() && app.pending == []
      ensures Abs() == Reacted(old(Abs()), Intercepts(|old(app.pending)|))
      ensures old(Timed()) ==> Timed()
    {
      while app.pending != []
        invariant Valid() && Grown() && HostUnrecorded(Abs())
        invariant old(Timed()) ==> Timed()
        invariant Reacted(Abs(), Intercepts(|app.pending|)) == Reacted(old(Abs()), Intercepts(|old(app.pending)|))
        decreases |app.pending|
      {
        InterceptNext();
      }
    }

    /** One turn of that loop; what is left to do is what was left before, without this turn. */
    method InterceptNext()
      requires Valid() && HostUnrecorded(Abs()) && app.pending != []
      modifies this, ctrl, links
      ensures Valid() && Grown() && HostUnrecorded(Abs()) && |app.pending| < |old(app.pending)|
      ensures old(Timed()) ==> Timed()
      ensures Reacted(Abs(), Intercepts(|app.pending|)) == Reacted(old(Abs()), Intercepts(|old(app.pending)|))
    {
      InterceptShrinks(Abs());
      InterceptsNext(Abs(), |app.pending|);
      InterceptOne();
      InterceptsEnough(Abs(), |old(app.pending)| - 1);
    }

    /** The wave is given up: what was recorded is stored as aborted, and delivered. */
    method Abort()
      requires Valid()
      modifies this, ctrl, links
      ensures Valid() && Grown() && Undisturbed() && Abs() == Sidecar.Timeout(old(Abs()))
      ensures old(ctrl.isSnapshotting) ==> Posts(old(ctrl.currentId), Aborted) && !ctrl.isSnapshotting
      ensures old(Timed()) ==> Timed()
    {
      if ctrl.isSnapshotting {
        FinishSnapshot(Aborted);
      }
    }

    /** A wave is in progress, and its time is over. */
    ghost predicate Overdue()
      reads time, ctrl
    {
      ctrl.isSnapshotting && ctrl.deadline.Some? && time.now > ctrl.deadline.value
    }

    method CheckTimeout()
      requires Valid()
      modifies this, ctrl, links
      ensures Valid() && Grown() && Undisturbed()
      ensures Abs() == if old(Overdue()) then Sidecar.Timeout(old(Abs())) else old(Abs())
      ensures old(Overdue()) ==> Posts(old(ctrl.currentId), Aborted) && !ctrl.isSnapshotting
      ensures old(Timed()) ==> Timed()
    {
      if ctrl.isSnapshotting && ctrl.deadline.Some? && time.now > ctrl.deadline.value {
        Abort();
      }
    }

    /** Send a message again with its original number and content, unless it was acknowledged. */
    method Retransmit(k: Ip, sn: nat)
      requires Valid()
      modifies this`tunnel, this`times, links
      ensures Valid() && Abs() == Sidecar.Retransmit(old(Abs()), k, sn)
      ensures times == if k in old(times) && sn in old(times)[k]
                       then old(times)[k := Stamped(old(times)[k], sn, time.now)]
                       else old(times)
    {
      assert LinkMatches(k);
      if k in peers && sn in peers[k].unacked {
        tunnel := tunnel + [Outgoing(k, Data(sn, peers[k].unacked[sn]))];
        Stamp(k, peers[k], sn);
      }
    }

    /** The message has been sent now. */
    method Stamp(k: Ip, p: PeerState, sn: nat)
      requires Valid() && k in peers && peers[k] == p && sn in p.unacked
      modifies this`times, p`sentAt
      ensures Valid() && k in old(times) && times == old(times)[k := Stamped(old(times)[k], sn, time.now)]
    {
      assert LinkMatches(k);
      p.sentAt := p.sentAt[sn := time.now];
      times := times[k := p.sentAt];
      assert forall i :: old(LinkMatches(i)) ==> LinkMatches(i);
    }

    /** All messages of one link that were last sent too long ago, in the order of their numbers. */
    method ResendLate(k: Ip) returns (ghost due: seq<(Ip, nat)>)
      requires Valid() && k in peers
      modifies this`tunnel, this`times, links
      ensures Valid() && k in old(times) && AreLate(old(times)[k], time.now, k, due)
      ensures Abs() == old(Abs()).(tunnel := old(tunnel) + Copies(logs, due))
      ensures times == old(times)[k := Renewed(old(times)[k], k, due, time.now)]
    {
      assert LinkMatches(k);
      ghost var was := times[k];
      due := [];
      NoneRenewed(was, k, [], time.now);
      var sn := 0;
      while sn < peers[k].sendSeq
        invariant 0 <= sn <= peers[k].sendSeq == |At(logs, k).sent|
        invariant Valid() && ResentBelow(old(Abs()), Abs(), old(times), times, time.now, k, due, sn)
      {
        var late := RetransmitLate(k, sn);
        ResentOneMore(old(Abs()), old(times), time.now, k, due, sn);
        due := if late then due + [(k, sn)] else due;
        sn := sn + 1;
        assert LinkMatches(k);
      }
      assert LinkMatches(k);
    }

    /** Whether the message awaits its acknowledgement for too long; then it is sent again. */
    method RetransmitLate(k: Ip, sn: nat) returns (late: bool)
      requires Valid() && k in peers
      modifies this`tunnel, this`times, links
      ensures Valid() && k in old(times)
      ensures late <==> sn in old(times)[k] && time.now - old(times)[k][sn] > RETRY_TIMEOUT
      ensures Abs() == if late then Sidecar.Retransmit(old(Abs()), k, sn) else old(Abs())
      ensures times == if late then old(times)[k := Stamped(old(times)[k], sn, time.now)] else old(times)
    {
      assert LinkMatches(k);
      late := sn in peers[k].unacked && time.now - peers[k].sentAt[sn] > RETRY_TIMEOUT;
      if late {
        Retransmit(k, sn);
      }
    }

    /** The same, for a remote that may have no link. */
    method ResendTo(k: Ip) returns (ghost due: seq<(Ip, nat)>)
      requires Valid()
      modifies this`tunnel, this`times, links
      ensures Valid() && LateAmong(old(times), time.now, [k], due)
      ensures Abs() == old(Abs()).(tunnel := old(tunnel) + Copies(logs, due))
      ensures times == Refreshed(old(times), due, time.now)
    {
      assert LinkMatches(k);
      due := [];
      NoneRefreshed(times, time.now);
      if k in peers {
        due := ResendLate(k);
        RefreshedOne(old(times), due, time.now, k);
      }
    }

    /** All links, in the order `remotes`. */
    method ResendAll(remotes: seq<Ip>) returns (ghost due: seq<(Ip, nat)>)
      requires Valid() && AllDifferent(remotes) && forall k :: k in times ==> k in remotes
      modifies this`tunnel, this`times, links
      ensures Valid() && AllLate(old(times), time.now, due)
      ensures Abs() == old(Abs()).(tunnel := old(tunnel) + Copies(logs, due))
      ensures times == Refreshed(old(times), due, time.now)
    {
      due := [];
      NoneRefreshed(times, time.now);
      var i := 0;
      while i < |remotes|
        invariant 0 <= i <= |remotes|
        invariant Valid() && ResentAmong(old(Abs()), Abs(), old(times), times, time.now, remotes[..i], due)
      {
        assert remotes[..i + 1] == remotes[..i] + [remotes[i]];
        ghost var more := ResendTo(remotes[i]);
        ResentMore(old(Abs()), old(times), time.now, remotes[..i], due, remotes[i], more);
        due := due + more;
        i := i + 1;
      }
      assert remotes[..i] == remotes;
    }

    /**
     * One round of the retransmission loop, over links in the order `remotes`: what was last sent more than the timeout
     * ago, and only that, is sent again as it was, and has now been sent last.
     */
    method RetransmitRound(remotes: seq<Ip>) returns (ghost due: seq<(Ip, nat)>)
      requires Valid() && AllDifferent(remotes) && forall k :: k in peers ==> k in remotes
      modifies this, ctrl, links
      ensures Valid() && Grown()
      ensures AllLate(old(times), time.now, due) && times == Refreshed(old(times), due, time.now)
      ensures tunnel == old(tunnel) + Copies(old(logs), due)
      ensures Abs() == Reacted(old(Abs()), Round(old(Overdue()), due))
      ensures old(Timed()) ==> Timed()
    {
      ghost var n := Abs();
      assert forall k :: LinkMatches(k) && k in times ==> k in remotes;
      CheckTimeout();
      due := ResendAll(remotes);
      RoundCopies(n, old(Overdue()), due);
    }

    /**
     * Load a stored artifact, whose entries are those of `remotes`, into a sidecar that has just been started: first all
     * coordinates, then all recorded messages.
     */
    method RestoreFromArtifact(a: Artifact, remotes: seq<Ip>, ghost past: map<Ip, Peer>)
      requires Valid() && Abs().ctrl == IDLE && peers == map[] && PlainChannels(ChannelsOf(a))
      requires forall k :: k in a.peers ==> k in remotes && StandsAt(a.peers[k], At(past, k))
      modifies this, ctrl, links
      ensures Valid() && Grown() && Abs() == Sidecar.Restore(old(Abs()), a, remotes, past)
    {
      assert forall k :: LinkMatches(k) ==> k !in logs;
      NothingUnsent(logs);
      SeedReaches(Abs(), a, past, remotes);
      ResumeLinks(a, remotes, past);
      assert forall k :: k in a.peers ==> LinkMatches(k);
      ReplayArtifact(a, remotes);
    }

    method ReplayArtifact(a: Artifact, remotes: seq<Ip>)
      requires Valid() && !ctrl.isSnapshotting && PlainChannels(ChannelsOf(a)) && forall k :: k in a.peers ==>
               k in peers
      modifies this, ctrl, links
      ensures Valid() && Grown() && Abs() == Sidecar.Replay(old(Abs()), ChannelsOf(a), remotes)
    {
      ReplayChannels(ChannelsOf(a), remotes);
    }

    method ResumeLinks(a: Artifact, remotes: seq<Ip>, ghost past: map<Ip, Peer>)
      requires Valid() && Unsent(logs)
      requires forall k :: k in a.peers ==> k in remotes && StandsAt(a.peers[k], At(past, k))
      modifies this`peers, this`links, this`logs, this`times, links
      ensures Valid() && Grown() && Abs() == Seed(old(Abs()), a, past, remotes)
    {
      var i := 0;
      while i < |remotes|
        invariant 0 <= i <= |remotes|
        invariant Valid() && Grown() && Unsent(logs)
        invariant Seed(Abs(), a, past, remotes[i..]) == Seed(old(Abs()), a, past, remotes)
      {
        if remotes[i] in a.peers {
          ResumeLink(remotes[i], a.peers[remotes[i]], At(past, remotes[i]));
        }
        i := i + 1;
      }
    }

    method ResumeLink(k: Ip, c: PeerCut, ghost past: Peer)
      requires Valid() && Unsent(logs) && StandsAt(c, past)
      modifies this`peers, this`links, this`logs, this`times, links
      ensures Valid() && Unsent(logs) && Grown() && k in peers
      ensures Abs() == old(Abs()).(peers := old(logs)[k := SeedPeer(At(old(logs), k), c, past)])
    {
      assert At(logs, k).Unacked() == map[];
      var peer := GetPeer(k);
      assert LinkMatches(k);
      SeedLink(k, peer, c, past);
      forall i ensures At(logs, i).Unacked() == map[] {
        assert At(old(logs), i).Unacked() == map[];
      }
    }

    method SeedLink(k: Ip, peer: PeerState, c: PeerCut, ghost past: Peer)
      requires Valid() && k in peers && peers[k] == peer && StandsAt(c, past) && At(logs, k).Unacked() == map[]
      modifies this`logs, peer
      ensures Valid() && logs == old(logs)[k := SeedPeer(At(old(logs), k), c, past)] && At(logs, k).Unacked() == map[]
    {
      assert LinkMatches(k);
      peer.Resume(c, past);
      logs := logs[k := peer.link];
      assert forall i :: old(LinkMatches(i)) ==> LinkMatches(i);
    }

    /** Whatever happens at this member. */
    method React(e: Event)
      requires Valid()
      modifies this, ctrl, links
      ensures Valid() && Grown() && Abs() == Sidecar.React(old(Abs()), e)
      ensures old(Timed()) ==> Timed()
    {
      match e
      case Arrive(src, frame) => DatagramReceived(src, frame);
      case Intercepted =>
        if app.pending != [] {
          InterceptOne();
        }
      case TimedOut => Abort();
      case Resend(k, sn) => Retransmit(k, sn);
      case LocalSend(_) => LocalChange(e);
      case HostChange(_, _) => LocalChange(e);
    }

    /** A local process has sent a datagram, or the host has changed what it accepts. */
    method LocalChange(e: Event)
      requires Valid() && (e.LocalSend? || e.HostChange?)
      modifies this`app, this`checkpointUp, this`storeUp
      ensures Valid() && Abs() == Sidecar.React(old(Abs()), e)
    {
      if e.LocalSend? {
        app := app.(pending := app.pending + [e.datagram]);
      } else {
        checkpointUp, storeUp := e.checkpointUp, e.storeUp;
      }
      assert forall i :: old(LinkMatches(i)) ==> LinkMatches(i);
    }
  }
}
