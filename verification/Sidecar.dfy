/**
 * One mesh member as a value: its app, its links, its snapshot controller, and what it hands to the outside.
 * Every callback of the sidecar runs to completion, so each is one function from state to state.
 */
module Sidecar {
  import opened Wrappers
  import opened Mesh
  import opened Counter
  import opened Recency

  /** A delivered or recorded message and the sequence number it arrived under. */
  datatype Rec = Rec(sn: nat, msg: Message)

  /**
   * The link to and from one remote. The next number to send is |sent| and the next one expected is |got|:
   * `sent` and `got` are the histories of what was sent and of what was taken in order, `acked` the numbers
   * whose acknowledgement came back, and `heard` what the app was handed from this remote.
   */
  datatype Peer = Peer(
    sent: seq<Message>,
    acked: set<nat>,
    got: seq<Message>,
    buffer: map<nat, Message>,
    heard: seq<Rec>)
  {
    /** The messages kept for retransmission. */
    function Unacked(): map<nat, Message> {
      map s | 0 <= s < |sent| && s !in acked :: sent[s]
    }
  }

  /** The link may have sent and delivered more; its intake is untouched. */
  ghost predicate SendsOn(a: Peer, b: Peer) {
    a.sent <= b.sent && b.acked == a.acked && b.got == a.got && b.buffer == a.buffer && a.heard <= b.heard
  }

  ghost predicate AllSendOn(p: map<Ip, Peer>, q: map<Ip, Peer>) {
    forall k :: SendsOn(At(p, k), At(q, k))
  }

  const FRESH: Peer := Peer([], {}, [], map[], [])

  /** The state of the link to `k`; an unknown remote has a fresh one. */
  function At(peers: map<Ip, Peer>, k: Ip): Peer {
    if k in peers then peers[k] else FRESH
  }

  /** `cut` is history: the links as they stood when the app was checkpointed. */
  datatype Controller = Controller(
    active: bool,
    id: Option<SnapshotId>,
    recording: set<Ip>,
    channels: map<Ip, seq<Rec>>,
    sendCut: map<Ip, nat>,
    recvCut: map<Ip, nat>,
    cut: map<Ip, Peer>)

  const IDLE: Controller := Controller(false, None, {}, map[], map[], map[], map[])

  datatype Status = Complete | Aborted

  datatype PeerCut = PeerCut(sendSeq: Option<nat>, recvSeq: Option<nat>, channel: seq<Rec>)

  datatype Artifact = Artifact(id: Option<SnapshotId>, status: Status, peers: map<Ip, PeerCut>)

  /** A checkpoint of the app. `exits` and `peers` are history: what had left the mesh, and the links, at that instant. */
  datatype Image = Image(id: SnapshotId, app: App, exits: seq<Datagram>, peers: map<Ip, Peer>)

  /** The host that stores checkpoints and artifacts, and whether each kind of request succeeds just now. */
  datatype Host = Host(checkpointUp: bool, storeUp: bool, images: seq<Image>, artifacts: seq<Artifact>)

  /** `mesh` is MESH_MEMBERS; `order` is the order in which the node iterates over sets of other members. */
  datatype Config = Config(self: Ip, mesh: seq<Ip>, order: seq<Ip>)

  datatype Outgoing = Outgoing(dst: Ip, frame: Frame<Payload>)

  /** `tunnel` is what was put on the tunnel socket, `exits` the app datagrams that left the reliable mesh. */
  datatype Node = Node(
    cfg: Config,
    app: App,
    peers: map<Ip, Peer>,
    ctrl: Controller,
    host: Host,
    tunnel: seq<Outgoing>,
    exits: seq<Datagram>,
    spoof: seq<Address>)

  /** A frame this node may have originated: a numbered message of its own log, or plain traffic to an outsider. */
  ghost predicate Genuine(n: Node, o: Outgoing) {
    match o.frame
    case Data(sn, m) => sn < |At(n.peers, o.dst).sent| && At(n.peers, o.dst).sent[sn] == m
    case Ack(_) => false
    case Plain(_) => n.cfg.self in n.cfg.mesh ==> o.dst !in n.cfg.mesh
  }

  /** Nothing stored at the host is lost or changed. */
  ghost predicate Keeps(n: Node, r: Node) {
    n.host.images <= r.host.images && n.host.artifacts <= r.host.artifacts
  }

  /** What every part of a callback does to a node: links only send on, and new frames are genuine. */
  ghost predicate Progress(n: Node, r: Node) {
    && r.cfg == n.cfg
    && Keeps(n, r)
    && AllSendOn(n.peers, r.peers)
    && (forall o :: o in r.tunnel ==> o in n.tunnel || Genuine(r, o))
  }

  lemma ProgressTransitive(n: Node, q: Node, r: Node)
    requires Progress(n, q) && Progress(q, r)
    ensures Progress(n, r)
  {
    forall k ensures SendsOn(At(n.peers, k), At(r.peers, k)) {
      assert SendsOn(At(n.peers, k), At(q.peers, k)) && SendsOn(At(q.peers, k), At(r.peers, k));
    }
    forall o | o in r.tunnel ensures o in n.tunnel || Genuine(r, o) {
      if o in q.tunnel && o !in n.tunnel {
        assert Genuine(q, o) && SendsOn(At(q.peers, o.dst), At(r.peers, o.dst));
      }
    }
  }

  function SetOf(s: seq<Ip>): set<Ip> {
    set x | x in s
  }

  predicate Distinct(s: seq<Ip>) {
    s == [] || (s[0] !in s[1..] && Distinct(s[1..]))
  }

  /** The members other than `self`, in membership order. */
  function Others(mesh: seq<Ip>, self: Ip): (r: seq<Ip>)
    ensures forall x :: x in r <==> x in mesh && x != self
    ensures Distinct(mesh) ==> Distinct(r)
  {
    if mesh == [] then []
    else if mesh[0] == self then Others(mesh[1..], self)
    else [mesh[0]] + Others(mesh[1..], self)
  }

  // ---------- Links ----------

  function GetPeer(n: Node, k: Ip): Node {
    n.(peers := n.peers[k := At(n.peers, k)])
  }

  function SendData(n: Node, k: Ip, m: Message): (r: Node)
    ensures Progress(n, r)
  {
    var p := At(n.peers, k);
    n.(peers := n.peers[k := p.(sent := p.sent + [m])],
       tunnel := n.tunnel + [Outgoing(k, Data(|p.sent|, m))])
  }

  /** Reliable framing is used only between members. */
  predicate UseRudp(n: Node, k: Ip) {
    n.cfg.self in n.cfg.mesh && k in n.cfg.mesh
  }

  function Forward(n: Node, d: Datagram): (r: Node)
    ensures Progress(n, r)
  {
    if d.dst.None? || d.dst.value.port == 0 then
      n
    else
      var ip := d.dst.value.ip;
      if InMesh(ip) then
        if UseRudp(n, ip) then
          SendData(n, ip, MessageOf(d))
        else
          n.(tunnel := n.tunnel + [Outgoing(ip, Plain(MessageOf(d)))], exits := n.exits + [d])
      else
        n.(spoof := Touch(n.spoof, d.src), exits := n.exits + [d])
  }

  function Pop(n: Node): Node
    requires n.app.pending != []
  {
    n.(app := n.app.(pending := n.app.pending[1..]))
  }

  /** Forward everything the app has emitted, in order. */
  function Drain(n: Node): (r: Node)
    ensures r == n.(app := n.app.(pending := []), peers := r.peers, tunnel := r.tunnel, exits := r.exits, spoof := r.spoof)
    ensures Progress(n, r)
    decreases |n.app.pending|
  {
    if n.app.pending == [] then n
    else
      var n1 := Forward(Pop(n), n.app.pending[0]);
      assert n1.app.pending == n.app.pending[1..];
      var r := Drain(n1);
      ProgressTransitive(n, n1, r);
      r
  }

  /** Hand a message to the app through a socket that spoofs its origin. */
  function ToApp(n: Node, from: Ip, m: Message): Node {
    n.(spoof := Touch(n.spoof, Address(from, m.srcPort)), app := n.app.Receive(from, m))
  }

  function Deliver(n: Node, from: Ip, sn: nat, m: Message): (r: Node)
    ensures Progress(n, r)
  {
    var p := At(n.peers, from);
    ToApp(n, from, m).(peers := n.peers[from := p.(heard := p.heard + [Rec(sn, m)])])
  }

  // ---------- Snapshot controller ----------

  /** No recorded message is a marker. */
  predicate PlainRecords(rs: seq<Rec>) {
    forall r :: r in rs ==> !r.msg.payload.Marker?
  }

  predicate PlainChannels(channels: map<Ip, seq<Rec>>) {
    forall k :: k in channels ==> PlainRecords(channels[k])
  }

  function Insert(r: Rec, rs: seq<Rec>): (out: seq<Rec>)
    ensures multiset(out) == multiset{r} + multiset(rs)
  {
    if rs == [] || r.sn <= rs[0].sn then
      [r] + rs
    else
      assert rs == [rs[0]] + rs[1..];
      [rs[0]] + Insert(r, rs[1..])
  }

  /** A stable sort by sequence number. */
  function SortBySeq(rs: seq<Rec>): (out: seq<Rec>)
    ensures multiset(out) == multiset(rs)
    ensures PlainRecords(rs) ==> PlainRecords(out)
  {
    if rs == [] then []
    else
      var out := Insert(rs[0], SortBySeq(rs[1..]));
      assert rs == [rs[0]] + rs[1..];
      assert forall r :: r in out ==> r in multiset(out);
      out
  }

  /** Whether `ProcessMessage` keeps the message from being delivered. */
  predicate Consumes(n: Node, remote: Ip, m: Message) {
    m.payload.Marker? || (n.ctrl.active && remote in n.ctrl.recording)
  }

  function Rank(m: Message): nat {
    if m.payload.Marker? then 1 else 0
  }

  function ProcessMessage(n: Node, remote: Ip, sn: nat, m: Message): (r: Node)
    requires PlainChannels(n.ctrl.channels)
    ensures Progress(n, r) && PlainChannels(r.ctrl.channels)
    decreases Rank(m), 3
  {
    var c := n.ctrl;
    if m.payload.Marker? then
      if !c.active then
        Initiate(n, remote, sn, m.payload.id)
      else if c.id != Some(m.payload.id) then
        n
      else if remote in c.recording then
        var n1 := n.(ctrl := c.(recvCut := c.recvCut[remote := sn + 1], recording := c.recording - {remote}));
        if n1.ctrl.recording == {} then Finish(n1, Complete) else n1
      else
        n
    else if c.active && remote in c.recording then
      var channel := if remote in c.channels then c.channels[remote] else [];
      n.(ctrl := c.(channels := c.channels[remote := channel + [Rec(sn, m)]]))
    else
      n
  }

  function ProcessAndDeliver(n: Node, remote: Ip, sn: nat, m: Message): (r: Node)
    requires PlainChannels(n.ctrl.channels)
    ensures !m.payload.Marker? && !n.ctrl.active ==> r == n.(app := r.app, peers := r.peers, spoof := r.spoof)
    ensures Progress(n, r) && PlainChannels(r.ctrl.channels)
    decreases Rank(m), 4
  {
    var n1 := ProcessMessage(n, remote, sn, m);
    if Consumes(n, remote, m) then n1 else Deliver(n1, remote, sn, m)
  }

  /** The checkpoint of the app, stored when the host takes the request. */
  function Checkpoint(n: Node, id: SnapshotId): Node {
    if n.host.checkpointUp
    then n.(host := n.host.(images := n.host.images + [Image(id, n.app, n.exits, n.peers)]))
    else n
  }

  /** Put a marker on the channel to each of `ks`, and note where each channel is cut. */
  function Broadcast(n: Node, ks: seq<Ip>, id: SnapshotId): (r: Node)
    ensures r == n.(peers := r.peers, tunnel := r.tunnel, ctrl := n.ctrl.(sendCut := r.ctrl.sendCut))
    ensures Progress(n, r)
    decreases |ks|
  {
    if ks == [] then n
    else
      var n1 := SendData(n, ks[0], MarkerMessage(id));
      var n2 := n1.(ctrl := n1.ctrl.(sendCut := n1.ctrl.sendCut[ks[0] := |At(n1.peers, ks[0]).sent|]));
      var r := Broadcast(n2, ks[1..], id);
      ProgressTransitive(n, n1, r);
      r
  }

  /** The cut of the app: what it has emitted is sent first, so that it lies before the marker. */
  function Cut(n: Node, remote: Ip, id: SnapshotId): (r: Node)
    ensures Progress(n, r)
  {
    var recording := SetOf(Others(n.cfg.mesh, n.cfg.self)) - {remote};
    var n1 := Drain(n.(ctrl := Controller(true, Some(id), recording, map[], map[], map[], map[])));
    Checkpoint(n1.(ctrl := n1.ctrl.(cut := n1.peers)), id)
  }

  /** Every channel starts with nothing recorded; the first marker's own channel is closed by that marker. */
  function OpenChannels(n: Node, remote: Ip, sn: nat): Node {
    var others := Others(n.cfg.mesh, n.cfg.self);
    var quiet := map k | k in n.ctrl.recording :: [];
    n.(ctrl := n.ctrl.(
      channels := if remote in others then quiet[remote := []] else quiet,
      recvCut := if remote in others then map[remote := sn + 1] else map[]))
  }

  /** Cut the app, put a marker on every channel, and start recording. */
  function Begin(n: Node, remote: Ip, sn: nat, id: SnapshotId): (r: Node)
    ensures Progress(n, r) && PlainChannels(r.ctrl.channels)
  {
    var n1 := Cut(n, remote, id);
    var n2 := Broadcast(n1, Others(n.cfg.mesh, n.cfg.self), id);
    ProgressTransitive(n, n1, n2);
    OpenChannels(n2, remote, sn)
  }

  /** The first marker of a wave. With no channel left to record, the wave ends here at once. */
  function Initiate(n: Node, remote: Ip, sn: nat, id: SnapshotId): (r: Node)
    ensures Progress(n, r) && PlainChannels(r.ctrl.channels)
    decreases 1, 2
  {
    var n1 := Begin(n, remote, sn, id);
    if n1.ctrl.recording == {} then
      var r := Finish(n1, Complete);
      ProgressTransitive(n, n1, r);
      r
    else
      n1
  }

  function Lookup(m: map<Ip, nat>, k: Ip): Option<nat> {
    if k in m then Some(m[k]) else None
  }

  function BuildArtifact(c: Controller, status: Status): Artifact {
    Artifact(c.id, status,
      map k | k in c.sendCut.Keys + c.recvCut.Keys + c.channels.Keys ::
        PeerCut(Lookup(c.sendCut, k), Lookup(c.recvCut, k), if k in c.channels then c.channels[k] else []))
  }

  function Post(n: Node, a: Artifact): Node {
    if n.host.storeUp then n.(host := n.host.(artifacts := n.host.artifacts + [a])) else n
  }

  /** The end of a wave at this node, complete or aborted: store the artifact, then flush. */
  function Finish(n: Node, status: Status): (r: Node)
    requires PlainChannels(n.ctrl.channels)
    ensures Progress(n, r) && r.ctrl == IDLE && r.host == Post(n, BuildArtifact(n.ctrl, status)).host
    decreases 1, 1
  {
    Flush(Post(n, BuildArtifact(n.ctrl, status)))
  }

  /** Deliver recorded messages of one channel, in the given order. */
  function DeliverAll(n: Node, remote: Ip, rs: seq<Rec>): (r: Node)
    requires !n.ctrl.active && PlainChannels(n.ctrl.channels) && PlainRecords(rs)
    ensures r == n.(app := r.app, peers := r.peers, spoof := r.spoof) && Progress(n, r)
    decreases 0, 5, |rs|
  {
    if rs == [] then n
    else
      var n1 := ProcessAndDeliver(n, remote, rs[0].sn, rs[0].msg);
      var r := DeliverAll(n1, remote, rs[1..]);
      ProgressTransitive(n, n1, r);
      r
  }

  /** Deliver recorded channels one after another, each in ascending order. */
  function Replay(n: Node, channels: map<Ip, seq<Rec>>, ks: seq<Ip>): (r: Node)
    requires !n.ctrl.active && PlainChannels(n.ctrl.channels) && PlainChannels(channels)
    ensures r == n.(app := r.app, peers := r.peers, spoof := r.spoof) && Progress(n, r)
    decreases 0, 6, |ks|
  {
    if ks == [] then n
    else if ks[0] in channels then
      var n1 := DeliverAll(n, ks[0], SortBySeq(channels[ks[0]]));
      var r := Replay(n1, channels, ks[1..]);
      ProgressTransitive(n, n1, r);
      r
    else
      Replay(n, channels, ks[1..])
  }

  /** Reset the controller, and deliver what was recorded. */
  function Flush(n: Node): (r: Node)
    requires PlainChannels(n.ctrl.channels)
    ensures Progress(n, r) && r.ctrl == IDLE && r.host == n.host
    decreases 1, 0
  {
    var n1 := n.(ctrl := IDLE.(channels := n.ctrl.channels));
    Replay(n1, n.ctrl.channels, n.cfg.order).(ctrl := IDLE)
  }

  // ---------- Restore ----------

  function Below(k: nat): (r: set<nat>)
    ensures forall x: nat :: x in r <==> x < k
  {
    if k == 0 then {} else Below(k - 1) + {k - 1}
  }

  /**
   * A restored link starts at the stored coordinates, with nothing to retransmit and nothing buffered. `past` is
   * history: the messages that carried the numbers below the coordinates, and what of them the app has heard.
   */
  function SeedPeer(p: Peer, a: PeerCut, past: Peer): Peer {
    Peer(if a.sendSeq.Some? then past.sent else p.sent,
         if a.sendSeq.Some? then Below(|past.sent|) else p.acked,
         if a.recvSeq.Some? then past.got else p.got,
         p.buffer,
         past.heard)
  }

  function Seed(n: Node, a: Artifact, past: map<Ip, Peer>, ks: seq<Ip>): (r: Node)
    ensures r == n.(peers := r.peers)
    decreases |ks|
  {
    if ks == [] then n
    else if ks[0] in a.peers then
      var n1 := n.(peers := n.peers[ks[0] := SeedPeer(At(n.peers, ks[0]), a.peers[ks[0]], At(past, ks[0]))]);
      Seed(n1, a, past, ks[1..])
    else
      Seed(n, a, past, ks[1..])
  }

  function ChannelsOf(a: Artifact): map<Ip, seq<Rec>> {
    map k | k in a.peers :: a.peers[k].channel
  }

  /**
   * Load this node's artifact, whose entries come in the order `ks`, into a fresh sidecar: all coordinates first, then
   * all recorded messages.
   */
  function Restore(n: Node, a: Artifact, ks: seq<Ip>, past: map<Ip, Peer>): Node
    requires n.ctrl == IDLE && PlainChannels(ChannelsOf(a))
  {
    Replay(Seed(n, a, past, ks), ChannelsOf(a), ks)
  }

  // ---------- Callbacks ----------

  /** The next expected message on the channel from `i` is taken in. */
  function Take(n: Node, i: Ip, m: Message): (r: Node)
    requires PlainChannels(n.ctrl.channels)
    ensures r.cfg == n.cfg && Keeps(n, r) && PlainChannels(r.ctrl.channels)
  {
    var n1 := ProcessAndDeliver(n, i, |At(n.peers, i).got|, m);
    var p := At(n1.peers, i);
    n1.(peers := n1.peers[i := p.(got := p.got + [m])])
  }

  /** One datagram from the intercept socket: a snapshot request, or app traffic. */
  function Intercept(n: Node): (r: Node)
    requires n.app.pending != [] && PlainChannels(n.ctrl.channels)
    ensures r.cfg == n.cfg && Keeps(n, r) && PlainChannels(r.ctrl.channels)
  {
    var d := n.app.pending[0];
    if d.payload.Start?
    then ProcessMessage(Pop(n), LOCALHOST, 0, Msg(Marker(d.payload.id), 0, 0, LOCALHOST))
    else Forward(Pop(n), d)
  }

  function Timeout(n: Node): (r: Node)
    requires PlainChannels(n.ctrl.channels)
    ensures r.cfg == n.cfg && Keeps(n, r) && PlainChannels(r.ctrl.channels)
  {
    if n.ctrl.active then Finish(n, Aborted) else n
  }

  /** The messages buffered ahead of their turn that are now next. */
  function Unbuffer(n: Node, i: Ip): (r: Node)
    requires PlainChannels(n.ctrl.channels)
    ensures r.cfg == n.cfg && Keeps(n, r) && PlainChannels(r.ctrl.channels)
    decreases |At(n.peers, i).buffer|
  {
    var p := At(n.peers, i);
    if |p.got| in p.buffer then
      var n1 := n.(peers := n.peers[i := p.(buffer := p.buffer - {|p.got|})]);
      Unbuffer(Take(n1, i, p.buffer[|p.got|]), i)
    else
      n
  }

  /** A frame from the tunnel. */
  function Receive(n: Node, src: Ip, frame: Frame<Payload>): (r: Node)
    requires PlainChannels(n.ctrl.channels)
    ensures r.cfg == n.cfg && Keeps(n, r) && PlainChannels(r.ctrl.channels)
  {
    var n0 := GetPeer(n, src);
    var p := At(n.peers, src);
    match frame
    case Data(sn, m) =>
      var n1 := n0.(tunnel := n.tunnel + [Outgoing(src, Frame.Ack(sn))]);
      if sn == |p.got| then Unbuffer(Take(n1, src, m), src)
      else if sn > |p.got| then n1.(peers := n1.peers[src := p.(buffer := p.buffer[sn := m])])
      else n1
    case Ack(sn) =>
      n0.(peers := n0.peers[src := if sn in p.Unacked() then p.(acked := p.acked + {sn}) else p])
    case Plain(m) =>
      ToApp(n0, src, m)
  }

  function Retransmit(n: Node, k: Ip, sn: nat): Node {
    var p := At(n.peers, k);
    if sn in p.Unacked() then n.(tunnel := n.tunnel + [Outgoing(k, Data(sn, p.Unacked()[sn]))]) else n
  }

  /** What can happen at a node: a tunnel frame, an intercepted datagram, a due timeout or retransmission,
      a local process sending a datagram, and a change of what the host accepts. */
  datatype Event =
    | Arrive(src: Ip, frame: Frame<Payload>)
    | Intercepted
    | TimedOut
    | Resend(peer: Ip, sn: nat)
    | LocalSend(datagram: Datagram)
    | HostChange(checkpointUp: bool, storeUp: bool)

  function React(n: Node, e: Event): (r: Node)
    requires PlainChannels(n.ctrl.channels)
    ensures r.cfg == n.cfg && Keeps(n, r) && PlainChannels(r.ctrl.channels)
  {
    match e
    case Arrive(src, frame) => Receive(n, src, frame)
    case Intercepted => if n.app.pending == [] then n else Intercept(n)
    case TimedOut => Timeout(n)
    case Resend(k, sn) => Retransmit(n, k, sn)
    case LocalSend(d) => n.(app := n.app.(pending := n.app.pending + [d]))
    case HostChange(c, s) => n.(host := n.host.(checkpointUp := c, storeUp := s))
  }

  /** One event after another. */
  function Reacted(n: Node, es: seq<Event>): (r: Node)
    requires PlainChannels(n.ctrl.channels)
    ensures r.cfg == n.cfg && Keeps(n, r) && PlainChannels(r.ctrl.channels)
    decreases |es|
  {
    if es == [] then n else Reacted(React(n, es[0]), es[1..])
  }
}
