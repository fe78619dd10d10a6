/**
 * What each callback does that others can see, to the last datagram: what the app is handed and in which order, what is
 * taken off the intercept socket, and every frame put on the tunnel.
 */
module Deeds {
  import opened Wrappers
  import opened Mesh
  import opened Counter
  import opened Recency
  import opened Sidecar
  import opened Bookkeeping
  import opened Callbacks
  import opened Plain

  /**
   * The app is handed a message of a link or an outsider's datagram; a local process speaks; the first pending datagram
   * is routed, or taken as a request; a marker is sent.
   */
  datatype Deed =
    | Handed(from: Ip, rec: Rec)
    | Overheard(from: Ip, msg: Message)
    | Spoken(datagram: Datagram)
    | Routed(datagram: Datagram)
    | Requested(datagram: Datagram)
    | Marking(dst: Ip, id: SnapshotId)

  // ---------- What a list of deeds amounts to ----------

  /** What is taken off the socket is what was emitted first. */
  predicate InTurn(a: App, d: Deed) {
    d.Routed? || d.Requested? ==> a.pending != [] && a.pending[0] == d.datagram
  }

  function AppAfter(a: App, d: Deed): App
    requires InTurn(a, d)
  {
    match d
    case Handed(from, rec) => a.Receive(from, rec.msg)
    case Overheard(from, m) => a.Receive(from, m)
    case Spoken(g) => a.(pending := a.pending + [g])
    case Routed(_) | Requested(_) => a.(pending := a.pending[1..])
    case Marking(_, _) => a
  }

  /** The app goes from `a` to `b` by these deeds. */
  ghost predicate Lives(a: App, deeds: seq<Deed>, b: App)
    decreases |deeds|
  {
    if deeds == [] then a == b else InTurn(a, deeds[0]) && Lives(AppAfter(a, deeds[0]), deeds[1..], b)
  }

  /** The records handed over from `k`, in order. */
  function HeardIn(deeds: seq<Deed>, k: Ip): seq<Rec> {
    if deeds == [] then []
    else (if deeds[0].Handed? && deeds[0].from == k then [deeds[0].rec] else []) + HeardIn(deeds[1..], k)
  }

  function SentBy(cfg: Config, d: Deed, k: Ip): seq<Message> {
    if d.Routed? && ToMember(cfg.mesh, cfg.self, d.datagram) && d.datagram.dst.value.ip == k then [MessageOf(d.datagram)]
    else if d.Marking? && d.dst == k then [MarkerMessage(d.id)]
    else []
  }

  /** The messages put on the link to `k`, in order: what was routed there, and markers. */
  function SentIn(cfg: Config, deeds: seq<Deed>, k: Ip): seq<Message> {
    if deeds == [] then [] else SentBy(cfg, deeds[0], k) + SentIn(cfg, deeds[1..], k)
  }

  /** A routed datagram that leaves the reliable mesh. */
  predicate Exits(cfg: Config, d: Deed) {
    d.Routed? && Leaves(cfg.mesh, cfg.self, d.datagram)
  }

  function ExitsIn(cfg: Config, deeds: seq<Deed>): seq<Datagram> {
    if deeds == [] then []
    else (if Exits(cfg, deeds[0]) then [deeds[0].datagram] else []) + ExitsIn(cfg, deeds[1..])
  }

  /** The sockets used: the origin of what the app is handed, and the source of what is sent outside the mesh. */
  function LookupsBy(cfg: Config, d: Deed): seq<Address> {
    match d
    case Handed(from, rec) => [Address(from, rec.msg.srcPort)]
    case Overheard(from, m) => [Address(from, m.srcPort)]
    case Routed(g) => if Exits(cfg, d) && !InMesh(g.dst.value.ip) then [g.src] else []
    case _ => []
  }

  function LookupsIn(cfg: Config, deeds: seq<Deed>): seq<Address> {
    if deeds == [] then [] else LookupsBy(cfg, deeds[0]) + LookupsIn(cfg, deeds[1..])
  }

  /** The cache after these lookups. */
  function Touches(keys: seq<Address>, lookups: seq<Address>): seq<Address>
    decreases |lookups|
  {
    if lookups == [] then keys else Touches(Touch(keys, lookups[0]), lookups[1..])
  }

  /** The frame of a deed: numbered to a member, without number to any other mesh address, and none otherwise. */
  function FrameOf(cfg: Config, sent: nat, d: Deed): seq<Outgoing> {
    match d
    case Routed(g) =>
      if ToMember(cfg.mesh, cfg.self, g) then [Outgoing(g.dst.value.ip, Data(sent, MessageOf(g)))]
      else if Leaves(cfg.mesh, cfg.self, g) && InMesh(g.dst.value.ip) then
        [Outgoing(g.dst.value.ip, Frame.Plain(MessageOf(g)))]
      else []
    case Marking(k, id) => [Outgoing(k, Data(sent, MarkerMessage(id)))]
    case _ => []
  }

  /** Where the frame of a deed goes, when it is a numbered one. */
  function Toward(d: Deed): Ip {
    match d
    case Routed(g) => if g.dst.Some? then g.dst.value.ip else 0
    case Marking(k, _) => k
    case _ => 0
  }

  /** The number of the next message to `k`: what the link had sent before, and what the deeds since then have. */
  function NumberAfter(cfg: Config, peers: map<Ip, Peer>, done: seq<Deed>, k: Ip): nat {
    |At(peers, k).sent| + |SentIn(cfg, done, k)|
  }

  /** The frames of all deeds that follow `done`, in order. */
  function FramesIn(cfg: Config, peers: map<Ip, Peer>, done: seq<Deed>, deeds: seq<Deed>): seq<Outgoing>
    decreases |deeds|
  {
    if deeds == [] then []
    else
      FrameOf(cfg, NumberAfter(cfg, peers, done, Toward(deeds[0])), deeds[0]) +
      FramesIn(cfg, peers, done + [deeds[0]], deeds[1..])
  }

  /** `n` has become `r` by these deeds, as far as its app, its outgoing links and its outputs go. */
  ghost predicate Conducts(n: Node, deeds: seq<Deed>, r: Node) {
    && r.cfg == n.cfg
    && Lives(n.app, deeds, r.app)
    && (forall k :: ConductsLink(n, deeds, r, k))
    && r.exits == n.exits + ExitsIn(n.cfg, deeds)
    && r.spoof == Touches(n.spoof, LookupsIn(n.cfg, deeds))
  }

  ghost predicate ConductsLink(n: Node, deeds: seq<Deed>, r: Node, k: Ip) {
    && At(r.peers, k).sent == At(n.peers, k).sent + SentIn(n.cfg, deeds, k)
    && At(r.peers, k).heard == At(n.peers, k).heard + HeardIn(deeds, k)
  }

  /** And these deeds are all that was put on the tunnel, in order. */
  ghost predicate Does(n: Node, deeds: seq<Deed>, r: Node) {
    Conducts(n, deeds, r) && r.tunnel == n.tunnel + FramesIn(n.cfg, n.peers, [], deeds)
  }

  // ---------- One list of deeds after another ----------

  lemma {:induction false} LivesOn(a: App, deeds: seq<Deed>, b: App, more: seq<Deed>, c: App)
    requires Lives(a, deeds, b) && Lives(b, more, c)
    ensures Lives(a, deeds + more, c)
    decreases |deeds|
  {
    if deeds == [] {
      assert deeds + more == more;
    } else {
      assert (deeds + more)[1..] == deeds[1..] + more;
      LivesOn(AppAfter(a, deeds[0]), deeds[1..], b, more, c);
    }
  }

  lemma {:induction false} HeardInAppend(deeds: seq<Deed>, more: seq<Deed>, k: Ip)
    ensures HeardIn(deeds + more, k) == HeardIn(deeds, k) + HeardIn(more, k)
    decreases |deeds|
  {
    if deeds == [] {
      assert deeds + more == more;
    } else {
      assert (deeds + more)[1..] == deeds[1..] + more;
      HeardInAppend(deeds[1..], more, k);
    }
  }

  lemma {:induction false} SentInAppend(cfg: Config, deeds: seq<Deed>, more: seq<Deed>, k: Ip)
    ensures SentIn(cfg, deeds + more, k) == SentIn(cfg, deeds, k) + SentIn(cfg, more, k)
    decreases |deeds|
  {
    if deeds == [] {
      assert deeds + more == more;
    } else {
      assert (deeds + more)[1..] == deeds[1..] + more;
      SentInAppend(cfg, deeds[1..], more, k);
    }
  }

  lemma {:induction false} ExitsInAppend(cfg: Config, deeds: seq<Deed>, more: seq<Deed>)
    ensures ExitsIn(cfg, deeds + more) == ExitsIn(cfg, deeds) + ExitsIn(cfg, more)
    decreases |deeds|
  {
    if deeds == [] {
      assert deeds + more == more;
    } else {
      assert (deeds + more)[1..] == deeds[1..] + more;
      ExitsInAppend(cfg, deeds[1..], more);
    }
  }

  lemma {:induction false} LookupsInAppend(cfg: Config, deeds: seq<Deed>, more: seq<Deed>)
    ensures LookupsIn(cfg, deeds + more) == LookupsIn(cfg, deeds) + LookupsIn(cfg, more)
    decreases |deeds|
  {
    if deeds == [] {
      assert deeds + more == more;
    } else {
      assert (deeds + more)[1..] == deeds[1..] + more;
      LookupsInAppend(cfg, deeds[1..], more);
    }
  }

  lemma {:induction false} TouchesAppend(keys: seq<Address>, lookups: seq<Address>, more: seq<Address>)
    ensures Touches(keys, lookups + more) == Touches(Touches(keys, lookups), more)
    decreases |lookups|
  {
    if lookups == [] {
      assert lookups + more == more;
    } else {
      assert (lookups + more)[1..] == lookups[1..] + more;
      TouchesAppend(Touch(keys, lookups[0]), lookups[1..], more);
    }
  }

  lemma Regroup<T>(x: seq<T>, y: seq<T>, z: seq<T>)
    ensures x + y + z == x + (y + z)
  {
  }

  /** Numbering goes on where it stopped. */
  lemma {:induction false} FramesInAppend(cfg: Config, peers: map<Ip, Peer>, done: seq<Deed>, deeds: seq<Deed>,
                                          more: seq<Deed>)
    ensures FramesIn(cfg, peers, done, deeds + more) ==
            FramesIn(cfg, peers, done, deeds) + FramesIn(cfg, peers, done + deeds, more)
    decreases |deeds|
  {
    if deeds == [] {
      assert deeds + more == more && done + deeds == done;
    } else {
      var rest := deeds[1..];
      var first := FrameOf(cfg, NumberAfter(cfg, peers, done, Toward(deeds[0])), deeds[0]);
      assert (deeds + more)[1..] == rest + more;
      FramesInAppend(cfg, peers, done + [deeds[0]], rest, more);
      assert done + [deeds[0]] + rest == done + deeds;
      Regroup(first, FramesIn(cfg, peers, done + [deeds[0]], rest), FramesIn(cfg, peers, done + deeds, more));
    }
  }

  lemma NumberAfterOne(cfg: Config, peers: map<Ip, Peer>, done: seq<Deed>, d: Deed, k: Ip)
    ensures NumberAfter(cfg, peers, done + [d], k) == NumberAfter(cfg, peers, done, k) + |SentBy(cfg, d, k)|
  {
    SentInAppend(cfg, done, [d], k);
    assert SentIn(cfg, [d], k) == SentBy(cfg, d, k) + SentIn(cfg, [d][1..], k);
  }

  /** It does not matter whether what was sent before is in the links or among the deeds. */
  lemma {:induction false} FramesSame(cfg: Config, p: map<Ip, Peer>, a: seq<Deed>, q: map<Ip, Peer>, b: seq<Deed>,
                                      deeds: seq<Deed>)
    requires forall k :: NumberAfter(cfg, p, a, k) == NumberAfter(cfg, q, b, k)
    ensures FramesIn(cfg, p, a, deeds) == FramesIn(cfg, q, b, deeds)
    decreases |deeds|
  {
    if deeds != [] {
      forall k ensures NumberAfter(cfg, p, a + [deeds[0]], k) == NumberAfter(cfg, q, b + [deeds[0]], k) {
        NumberAfterOne(cfg, p, a, deeds[0], k);
        NumberAfterOne(cfg, q, b, deeds[0], k);
      }
      FramesSame(cfg, p, a + [deeds[0]], q, b + [deeds[0]], deeds[1..]);
    }
  }

  lemma LinkOn(n: Node, a: seq<Deed>, q: Node, b: seq<Deed>, r: Node, k: Ip)
    requires ConductsLink(n, a, q, k) && ConductsLink(q, b, r, k) && q.cfg == n.cfg
    ensures ConductsLink(n, a + b, r, k)
  {
    SentInAppend(n.cfg, a, b, k);
    HeardInAppend(a, b, k);
    Regroup(At(n.peers, k).sent, SentIn(n.cfg, a, k), SentIn(n.cfg, b, k));
    Regroup(At(n.peers, k).heard, HeardIn(a, k), HeardIn(b, k));
  }

  lemma OutputsOn(cfg: Config, exits: seq<Datagram>, spoof: seq<Address>, a: seq<Deed>, b: seq<Deed>)
    ensures exits + ExitsIn(cfg, a + b) == exits + ExitsIn(cfg, a) + ExitsIn(cfg, b)
    ensures Touches(spoof, LookupsIn(cfg, a + b)) == Touches(Touches(spoof, LookupsIn(cfg, a)), LookupsIn(cfg, b))
  {
    ExitsInAppend(cfg, a, b);
    LookupsInAppend(cfg, a, b);
    TouchesAppend(spoof, LookupsIn(cfg, a), LookupsIn(cfg, b));
    Regroup(exits, ExitsIn(cfg, a), ExitsIn(cfg, b));
  }

  lemma ConductsOn(n: Node, a: seq<Deed>, q: Node, b: seq<Deed>, r: Node)
    requires Conducts(n, a, q) && Conducts(q, b, r)
    ensures Conducts(n, a + b, r)
  {
    forall k ensures ConductsLink(n, a + b, r, k) {
      assert ConductsLink(n, a, q, k) && ConductsLink(q, b, r, k);
      LinkOn(n, a, q, b, r, k);
    }
    LivesOn(n.app, a, q.app, b, r.app);
    OutputsOn(n.cfg, n.exits, n.spoof, a, b);
  }

  lemma FramesOn(cfg: Config, p: map<Ip, Peer>, a: seq<Deed>, q: map<Ip, Peer>, b: seq<Deed>)
    requires forall k :: At(q, k).sent == At(p, k).sent + SentIn(cfg, a, k)
    ensures FramesIn(cfg, p, [], a + b) == FramesIn(cfg, p, [], a) + FramesIn(cfg, q, [], b)
  {
    FramesInAppend(cfg, p, [], a, b);
    assert [] + a == a;
    FramesSame(cfg, p, a, q, [], b);
  }

  lemma DoesOn(n: Node, a: seq<Deed>, q: Node, b: seq<Deed>, r: Node)
    requires Does(n, a, q) && Does(q, b, r)
    ensures Does(n, a + b, r)
  {
    ConductsOn(n, a, q, b, r);
    SentOn(n, a, q);
    FramesOn(n.cfg, n.peers, a, q.peers, b);
    TunnelOn(n, q, r, FramesIn(n.cfg, n.peers, [], a), FramesIn(n.cfg, q.peers, [], b));
  }

  lemma SentOn(n: Node, deeds: seq<Deed>, q: Node)
    requires Conducts(n, deeds, q)
    ensures forall k :: At(q.peers, k).sent == At(n.peers, k).sent + SentIn(n.cfg, deeds, k)
  {
    forall k ensures At(q.peers, k).sent == At(n.peers, k).sent + SentIn(n.cfg, deeds, k) {
      assert ConductsLink(n, deeds, q, k);
    }
  }

  lemma TunnelOn(n: Node, q: Node, r: Node, x: seq<Outgoing>, y: seq<Outgoing>)
    requires q.tunnel == n.tunnel + x && r.tunnel == q.tunnel + y
    ensures r.tunnel == n.tunnel + (x + y)
  {
  }

  lemma Nothing(n: Node, r: Node)
    requires r.cfg == n.cfg && r.app == n.app && r.exits == n.exits && r.spoof == n.spoof && r.tunnel == n.tunnel
    requires forall k :: At(r.peers, k).sent == At(n.peers, k).sent && At(r.peers, k).heard == At(n.peers, k).heard
    ensures Does(n, [], r)
  {
    forall k ensures ConductsLink(n, [], r, k) {
    }
  }

  /** A step that is not visible may be left out. */
  lemma DoesBetween(n: Node, q: Node, deeds: seq<Deed>, t: Node, r: Node)
    requires Does(n, [], q) && Does(q, deeds, t) && Does(t, [], r)
    ensures Does(n, deeds, r)
  {
    DoesOn(n, [], q, deeds, t);
    DoesOn(n, [] + deeds, t, [], r);
    assert [] + deeds + [] == deeds;
  }

  lemma One(cfg: Config, peers: map<Ip, Peer>, spoof: seq<Address>, a: App, d: Deed, b: App)
    requires InTurn(a, d) && AppAfter(a, d) == b
    ensures Lives(a, [d], b)
    ensures forall k :: HeardIn([d], k) == if d.Handed? && d.from == k then [d.rec] else []
    ensures forall k :: SentIn(cfg, [d], k) == SentBy(cfg, d, k)
    ensures ExitsIn(cfg, [d]) == if Exits(cfg, d) then [d.datagram] else []
    ensures Touches(spoof, LookupsIn(cfg, [d])) == if LookupsBy(cfg, d) ==
            [] then spoof else Touch(spoof, LookupsBy(cfg, d)[0])
    ensures FramesIn(cfg, peers, [], [d]) == FrameOf(cfg, |At(peers, Toward(d)).sent|, d)
  {
    assert [d][1..] == [];
    assert LookupsIn(cfg, [d]) == LookupsBy(cfg, d);
    assert LookupsBy(cfg, d) != [] ==> LookupsBy(cfg, d)[1..] == [];
  }

  lemma OneDoes(n: Node, d: Deed, r: Node)
    requires r.cfg == n.cfg && InTurn(n.app, d) && r.app == AppAfter(n.app, d)
    requires forall k :: At(r.peers, k).sent == At(n.peers, k).sent + SentBy(n.cfg, d, k)
    requires forall k :: At(r.peers, k).heard == At(n.peers, k).heard + if d.Handed? && d.from == k then [d.rec] else []
    requires r.exits == n.exits + if Exits(n.cfg, d) then [d.datagram] else []
    requires r.spoof == if LookupsBy(n.cfg, d) == [] then n.spoof else Touch(n.spoof, LookupsBy(n.cfg, d)[0])
    requires r.tunnel == n.tunnel + FrameOf(n.cfg, |At(n.peers, Toward(d)).sent|, d)
    ensures Does(n, [d], r)
  {
    One(n.cfg, n.peers, n.spoof, n.app, d, r.app);
    forall k ensures ConductsLink(n, [d], r, k) {
    }
  }

  // ---------- Sending ----------

  /**
   * Routing what was emitted first: to a member it goes reliably, under the next number of its link; to any other address
   * of the mesh as a plain frame, once; outside the mesh from a socket of its own source; without destination nowhere.
   */
  lemma ForwardDoes(n: Node)
    requires n.app.pending != []
    ensures Does(n, [Routed(n.app.pending[0])], Forward(Pop(n), n.app.pending[0]))
  {
    OneDoes(n, Routed(n.app.pending[0]), Forward(Pop(n), n.app.pending[0]));
  }

  function AllRouted(ds: seq<Datagram>): (deeds: seq<Deed>)
    ensures |deeds| == |ds| && forall x :: 0 <= x < |ds| ==> deeds[x] == Routed(ds[x])
  {
    if ds == [] then [] else [Routed(ds[0])] + AllRouted(ds[1..])
  }

  /** A drain routes all that is pending, in order. */
  lemma {:induction false} DrainDoes(n: Node)
    ensures Does(n, AllRouted(n.app.pending), Drain(n)) && Drain(n).app.pending == []
    decreases |n.app.pending|
  {
    if n.app.pending == [] {
      Nothing(n, n);
    } else {
      var n1 := Forward(Pop(n), n.app.pending[0]);
      ForwardDoes(n);
      assert n1.app.pending == n.app.pending[1..];
      DrainDoes(n1);
      DoesOn(n, [Routed(n.app.pending[0])], n1, AllRouted(n1.app.pending), Drain(n1));
    }
  }

  lemma MarkerDoes(n: Node, k: Ip, id: SnapshotId, r: Node)
    requires r == SendData(n, k, MarkerMessage(id)).(ctrl := r.ctrl)
    ensures Does(n, [Marking(k, id)], r)
  {
    OneDoes(n, Marking(k, id), r);
  }

  function AllMarking(ks: seq<Ip>, id: SnapshotId): (deeds: seq<Deed>)
    ensures |deeds| == |ks| && forall x :: 0 <= x < |ks| ==> deeds[x] == Marking(ks[x], id)
  {
    if ks == [] then [] else [Marking(ks[0], id)] + AllMarking(ks[1..], id)
  }

  lemma {:induction false} BroadcastDoes(n: Node, ks: seq<Ip>, id: SnapshotId)
    ensures Does(n, AllMarking(ks, id), Broadcast(n, ks, id))
    decreases |ks|
  {
    if ks == [] {
      Nothing(n, n);
    } else {
      var n1 := SendData(n, ks[0], MarkerMessage(id));
      var n2 := n1.(ctrl := n1.ctrl.(sendCut := n1.ctrl.sendCut[ks[0] := |At(n1.peers, ks[0]).sent|]));
      MarkerDoes(n, ks[0], id, n2);
      BroadcastDoes(n2, ks[1..], id);
      DoesOn(n, [Marking(ks[0], id)], n2, AllMarking(ks[1..], id), Broadcast(n2, ks[1..], id));
    }
  }

  // ---------- Delivering ----------

  lemma DeliverDoes(n: Node, from: Ip, sn: nat, m: Message)
    ensures Does(n, [Handed(from, Rec(sn, m))], Deliver(n, from, sn, m))
  {
    OneDoes(n, Handed(from, Rec(sn, m)), Deliver(n, from, sn, m));
  }

  function AllHanded(from: Ip, rs: seq<Rec>): (deeds: seq<Deed>)
    ensures |deeds| == |rs| && forall x :: 0 <= x < |rs| ==> deeds[x] == Handed(from, rs[x])
  {
    if rs == [] then [] else [Handed(from, rs[0])] + AllHanded(from, rs[1..])
  }

  lemma {:induction false} DeliverAllDoes(n: Node, from: Ip, rs: seq<Rec>)
    requires !n.ctrl.active && PlainChannels(n.ctrl.channels) && PlainRecords(rs)
    ensures Does(n, AllHanded(from, rs), DeliverAll(n, from, rs))
    decreases |rs|
  {
    if rs == [] {
      Nothing(n, n);
    } else {
      var n1 := Deliver(n, from, rs[0].sn, rs[0].msg);
      ReplayDelivers(n, from, rs[0].sn, rs[0].msg);
      DeliverDoes(n, from, rs[0].sn, rs[0].msg);
      DeliverAllDoes(n1, from, rs[1..]);
      DoesOn(n, [Handed(from, rs[0])], n1, AllHanded(from, rs[1..]), DeliverAll(n1, from, rs[1..]));
    }
  }

  /** Each channel's records, channel by channel. */
  function AllFlushed(channels: map<Ip, seq<Rec>>, ks: seq<Ip>): seq<Deed> {
    if ks == [] then [] else AllHanded(ks[0], SortBySeq(ChannelIn(channels, ks[0]))) + AllFlushed(channels, ks[1..])
  }

  lemma {:induction false} ReplayDoes(n: Node, channels: map<Ip, seq<Rec>>, ks: seq<Ip>)
    requires !n.ctrl.active && PlainChannels(n.ctrl.channels) && PlainChannels(channels)
    ensures Does(n, AllFlushed(channels, ks), Replay(n, channels, ks))
    decreases |ks|
  {
    if ks == [] {
      Nothing(n, n);
    } else {
      var rs := SortBySeq(ChannelIn(channels, ks[0]));
      var n1 := DeliverAll(n, ks[0], rs);
      DeliverAllDoes(n, ks[0], rs);
      ReplayDoes(n1, channels, ks[1..]);
      DoesOn(n, AllHanded(ks[0], rs), n1, AllFlushed(channels, ks[1..]), Replay(n1, channels, ks[1..]));
    }
  }

  lemma FinishIs(n: Node, status: Status)
    requires PlainChannels(n.ctrl.channels)
    ensures var n1 := Post(n, BuildArtifact(n.ctrl, status)).(ctrl := IDLE.(channels := n.ctrl.channels));
            Finish(n, status) == Replay(n1, n.ctrl.channels, n.cfg.order).(ctrl := IDLE)
  {
  }

  lemma FinishDoes(n: Node, status: Status)
    requires PlainChannels(n.ctrl.channels)
    ensures Does(n, AllFlushed(n.ctrl.channels, n.cfg.order), Finish(n, status))
  {
    var n1 := Post(n, BuildArtifact(n.ctrl, status)).(ctrl := IDLE.(channels := n.ctrl.channels));
    ReplayDoes(n1, n.ctrl.channels, n.cfg.order);
    FinishIs(n, status);
    Nothing(n, n1);
    TablesAside(n, n1, AllFlushed(n.ctrl.channels, n.cfg.order), Replay(n1, n.ctrl.channels, n.cfg.order), IDLE);
  }

  /** Resetting the tables is nothing that others can see. */
  lemma TablesAside(n: Node, n1: Node, deeds: seq<Deed>, r: Node, c: Controller)
    requires Does(n, [], n1) && Does(n1, deeds, r)
    ensures Does(n, deeds, r.(ctrl := c))
  {
    Nothing(r, r.(ctrl := c));
    DoesBetween(n, n1, deeds, r, r.(ctrl := c));
  }

  // ---------- Taking in ----------

  function AllBegun(n: Node, id: SnapshotId): seq<Deed> {
    AllRouted(n.app.pending) + AllMarking(Others(n.cfg.mesh, n.cfg.self), id)
  }

  lemma CutDoes(n: Node, remote: Ip, id: SnapshotId)
    ensures Does(n, AllRouted(n.app.pending), Cut(n, remote, id)) && Cut(n, remote, id).cfg == n.cfg
  {
    var recording := SetOf(Others(n.cfg.mesh, n.cfg.self)) - {remote};
    var n0 := n.(ctrl := Controller(true, Some(id), recording, map[], map[], map[], map[]));
    DrainDoes(n0);
    Nothing(n, n0);
    Nothing(Drain(n0), Cut(n, remote, id));
    DoesBetween(n, n0, AllRouted(n.app.pending), Drain(n0), Cut(n, remote, id));
  }

  /** A cut routes all that is pending, and then sends a marker to every other member. */
  lemma BeginDoes(n: Node, remote: Ip, sn: nat, id: SnapshotId)
    ensures Does(n, AllBegun(n, id), Begin(n, remote, sn, id))
  {
    var others := Others(n.cfg.mesh, n.cfg.self);
    var c := Cut(n, remote, id);
    var b := Broadcast(c, others, id);
    CutDoes(n, remote, id);
    BroadcastDoes(c, others, id);
    DoesOn(n, AllRouted(n.app.pending), c, AllMarking(others, id), b);
    OpenDoes(n, AllBegun(n, id), b, remote, sn);
  }

  lemma OpenDoes(n: Node, deeds: seq<Deed>, b: Node, remote: Ip, sn: nat)
    requires Does(n, deeds, b)
    ensures Does(n, deeds, OpenChannels(b, remote, sn))
  {
    Nothing(b, OpenChannels(b, remote, sn));
    DoesOn(n, deeds, b, [], OpenChannels(b, remote, sn));
    assert deeds + [] == deeds;
  }

  lemma InitiateDoes(n: Node, remote: Ip, sn: nat, id: SnapshotId)
    ensures Does(n, AllBegun(n, id), Initiate(n, remote, sn, id))
  {
    var b := Begin(n, remote, sn, id);
    BeginDoes(n, remote, sn, id);
    OpensNone(n, remote, sn, id);
    if b.ctrl.recording == {} {
      QuietDoes(b, Complete);
      DoesOn(n, AllBegun(n, id), b, [], Finish(b, Complete));
      assert AllBegun(n, id) + [] == AllBegun(n, id);
    }
  }

  /** A wave that is over as soon as it has begun flushes nothing. */
  lemma QuietDoes(b: Node, status: Status)
    requires PlainChannels(b.ctrl.channels) && forall k :: ChannelOf(b.ctrl, k) == []
    ensures Does(b, [], Finish(b, status))
  {
    QuietFinish(b, status);
    Nothing(b, Finish(b, status));
  }

  lemma OpensNone(n: Node, remote: Ip, sn: nat, id: SnapshotId)
    ensures forall k :: ChannelOf(Begin(n, remote, sn, id).ctrl, k) == []
  {
  }

  /** What taking in the next message of a link does outwardly. */
  function TakeDeeds(n: Node, i: Ip, m: Message): seq<Deed> {
    if !m.payload.Marker? then
      if n.ctrl.active && i in n.ctrl.recording then [] else [Handed(i, Rec(|At(n.peers, i).got|, m))]
    else if !n.ctrl.active then AllBegun(n, m.payload.id)
    else if n.ctrl.id == Some(m.payload.id) && n.ctrl.recording == {i} then AllFlushed(n.ctrl.channels, n.cfg.order)
    else []
  }

  /**
   * A message is handed to the app, or recorded and handed to nobody; a marker starts a wave, or closes the last channel
   * of the one in progress, or does nothing that others can see.
   */
  lemma TakeDoes(n: Node, i: Ip, m: Message)
    requires PlainChannels(n.ctrl.channels)
    ensures Does(n, TakeDeeds(n, i, m), Take(n, i, m))
  {
    TakeCases(n, i, m);
    var sn := |At(n.peers, i).got|;
    if Stays(n, i, m) {
      KeepDoes(n, i, m);
      AppendDoes(n, TakeDeeds(n, i, m), Keep(n, i, m), i, m);
    } else if !n.ctrl.active {
      InitiateDoes(n, i, sn, m.payload.id);
      AppendDoes(n, TakeDeeds(n, i, m), Initiate(n, i, sn, m.payload.id), i, m);
    } else {
      CloseDoes(n, i, sn);
      var n1 := n.(ctrl := Close(n.ctrl, i, sn));
      AppendDoes(n, TakeDeeds(n, i, m), if n.ctrl.recording == {i} then Finish(n1, Complete) else n1, i, m);
    }
  }

  lemma CloseDoes(n: Node, i: Ip, sn: nat)
    requires PlainChannels(n.ctrl.channels)
    ensures var n1 := n.(ctrl := Close(n.ctrl, i, sn));
            Does(n, [], n1) && Does(n, AllFlushed(n.ctrl.channels, n.cfg.order), Finish(n1, Complete))
  {
    var n1 := n.(ctrl := Close(n.ctrl, i, sn));
    var flushed := AllFlushed(n.ctrl.channels, n.cfg.order);
    Nothing(n, n1);
    FinishDoes(n1, Complete);
    DoesOn(n, [], n1, flushed, Finish(n1, Complete));
    assert [] + flushed == flushed;
  }

  lemma KeepDoes(n: Node, i: Ip, m: Message)
    requires Stays(n, i, m)
    ensures Does(n, TakeDeeds(n, i, m), Keep(n, i, m))
  {
    if !m.payload.Marker? && !(n.ctrl.active && i in n.ctrl.recording) {
      DeliverDoes(n, i, |At(n.peers, i).got|, m);
    } else {
      assert TakeDeeds(n, i, m) == [];
      Nothing(n, Keep(n, i, m));
    }
  }

  lemma AppendDoes(n: Node, deeds: seq<Deed>, q: Node, i: Ip, m: Message)
    requires Does(n, deeds, q)
    ensures Does(n, deeds, Append(q, i, m))
  {
    Nothing(q, Append(q, i, m));
    DoesOn(n, deeds, q, [], Append(q, i, m));
    assert deeds + [] == deeds;
  }

  // ---------- Whole callbacks ----------

  /** What taking in all that was waiting for its turn does outwardly. */
  function UnbufferDeeds(n: Node, i: Ip): seq<Deed>
    requires PlainChannels(n.ctrl.channels)
    decreases |At(n.peers, i).buffer|
  {
    var p := At(n.peers, i);
    if |p.got| in p.buffer then
      var m := p.buffer[|p.got|];
      TakeDeeds(PopBuffer(n, i), i, m) + UnbufferDeeds(Take(PopBuffer(n, i), i, m), i)
    else
      []
  }

  lemma {:induction false} UnbufferDoes(n: Node, i: Ip)
    requires PlainChannels(n.ctrl.channels)
    ensures Does(n, UnbufferDeeds(n, i), Unbuffer(n, i))
    decreases |At(n.peers, i).buffer|
  {
    var p := At(n.peers, i);
    if |p.got| in p.buffer {
      var m := p.buffer[|p.got|];
      var n2 := Take(PopBuffer(n, i), i, m);
      PopDoes(n, i, m);
      TakeLinks(PopBuffer(n, i), i, m);
      UnbufferDoes(n2, i);
      DoesOn(n, TakeDeeds(PopBuffer(n, i), i, m), n2, UnbufferDeeds(n2, i), Unbuffer(n2, i));
    } else {
      Nothing(n, n);
    }
  }

  lemma PopDoes(n: Node, i: Ip, m: Message)
    requires PlainChannels(n.ctrl.channels)
    ensures Does(n, TakeDeeds(PopBuffer(n, i), i, m), Take(PopBuffer(n, i), i, m))
  {
    var n1 := PopBuffer(n, i);
    Nothing(n, n1);
    TakeDoes(n1, i, m);
    DoesOn(n, [], n1, TakeDeeds(n1, i, m), Take(n1, i, m));
    assert [] + TakeDeeds(n1, i, m) == TakeDeeds(n1, i, m);
  }

  /** A data frame in its turn is taken in, and all that waited for it; any other does nothing but be acknowledged. */
  function DataDeeds(n: Node, src: Ip, sn: nat, m: Message): seq<Deed>
    requires PlainChannels(n.ctrl.channels)
  {
    var n1 := Acknowledge(n, src, sn);
    if sn == |At(n.peers, src).got| then TakeDeeds(n1, src, m) + UnbufferDeeds(Take(n1, src, m), src) else []
  }

  /** A start request begins a wave unless one is in progress; any other datagram is routed. */
  function InterceptDeeds(n: Node): seq<Deed>
    requires n.app.pending != []
  {
    var d := n.app.pending[0];
    if d.payload.Start? then [Requested(d)] + (if n.ctrl.active then [] else AllBegun(Pop(n), d.payload.id))
    else [Routed(d)]
  }

  /** The deeds of each event, in order. */
  function DeedsOf(n: Node, e: Event): seq<Deed>
    requires PlainChannels(n.ctrl.channels)
  {
    match e
    case Arrive(src, Data(sn, m)) => DataDeeds(n, src, sn, m)
    case Arrive(_, Ack(_)) => []
    case Arrive(from, Plain(m)) => [Overheard(from, m)]
    case Intercepted => if n.app.pending == [] then [] else InterceptDeeds(n)
    case TimedOut => if n.ctrl.active then AllFlushed(n.ctrl.channels, n.cfg.order) else []
    case LocalSend(d) => [Spoken(d)]
    case Resend(_, _) | HostChange(_, _) => []
  }

  /** A copy of a message sent before, unless it was acknowledged. */
  function CopyOf(peers: map<Ip, Peer>, k: Ip, sn: nat): seq<Outgoing> {
    var p := At(peers, k);
    if sn < |p.sent| && sn !in p.acked then [Outgoing(k, Data(sn, p.sent[sn]))] else []
  }

  /** What an event sends besides the frames of its deeds, and before them. */
  function RepliesOf(n: Node, e: Event): seq<Outgoing> {
    match e
    case Arrive(src, Data(sn, _)) => [Outgoing(src, Frame.Ack(sn))]
    case Resend(k, sn) => CopyOf(n.peers, k, sn)
    case _ => []
  }

  /** `n` has become `r`, sending first these replies and then the frames of the deeds. */
  ghost predicate Responds(n: Node, replies: seq<Outgoing>, deeds: seq<Deed>, r: Node) {
    Conducts(n, deeds, r) && r.tunnel == n.tunnel + replies + FramesIn(n.cfg, n.peers, [], deeds)
  }

  lemma DoesResponds(n: Node, q: Node, replies: seq<Outgoing>, deeds: seq<Deed>, r: Node)
    requires Conducts(n, [], q) && q.tunnel == n.tunnel + replies && Does(q, deeds, r)
    ensures Responds(n, replies, deeds, r)
  {
    ConductsOn(n, [], q, deeds, r);
    assert [] + deeds == deeds;
    SentOn(n, [], q);
    assert FramesIn(n.cfg, n.peers, [], deeds) == [] + FramesIn(n.cfg, q.peers, [], deeds) by {
      FramesOn(n.cfg, n.peers, [], q.peers, deeds);
    }
    TunnelAfter(n.tunnel, q.tunnel, replies, FramesIn(n.cfg, n.peers, [], deeds), FramesIn(n.cfg, q.peers, [], deeds), r.tunnel);
  }

  lemma TunnelAfter<T>(a: seq<T>, b: seq<T>, x: seq<T>, y: seq<T>, z: seq<T>, c: seq<T>)
    requires b == a + x && c == b + z && y == [] + z
    ensures c == a + x + y
  {
  }

  lemma NoReplies(n: Node, deeds: seq<Deed>, r: Node)
    requires Does(n, deeds, r)
    ensures Responds(n, [], deeds, r)
  {
    assert n.tunnel + [] == n.tunnel;
  }

  /** Every data frame is acknowledged, before anything else and whatever becomes of it. */
  lemma DataResponds(n: Node, src: Ip, sn: nat, m: Message)
    requires PlainChannels(n.ctrl.channels)
    ensures Responds(n, [Outgoing(src, Frame.Ack(sn))], DataDeeds(n, src, sn, m), Receive(n, src, Data(sn, m)))
  {
    var n1, r := Acknowledge(n, src, sn), Receive(n, src, Data(sn, m));
    Nothing(n, n1.(tunnel := n.tunnel));
    if sn == |At(n.peers, src).got| {
      TakeDoes(n1, src, m);
      UnbufferDoes(Take(n1, src, m), src);
      DoesOn(n1, TakeDeeds(n1, src, m), Take(n1, src, m), UnbufferDeeds(Take(n1, src, m), src), r);
    } else {
      DataWaits(n, src, sn, m);
      Nothing(n1, r);
    }
    DoesResponds(n, n1, [Outgoing(src, Frame.Ack(sn))], DataDeeds(n, src, sn, m), r);
  }

  lemma AckDoes(n: Node, src: Ip, sn: nat)
    requires PlainChannels(n.ctrl.channels)
    ensures Does(n, [], Receive(n, src, Frame.Ack(sn)))
  {
    Nothing(n, Receive(n, src, Frame.Ack(sn)));
  }

  lemma PlainDoes(n: Node, from: Ip, m: Message)
    requires PlainChannels(n.ctrl.channels)
    ensures Does(n, [Overheard(from, m)], Receive(n, from, Frame.Plain(m)))
  {
    OneDoes(n, Overheard(from, m), Receive(n, from, Frame.Plain(m)));
  }

  lemma InterceptDoes(n: Node)
    requires PlainChannels(n.ctrl.channels) && LOCALHOST !in n.ctrl.recording && n.app.pending != []
    ensures Does(n, InterceptDeeds(n), Intercept(n))
  {
    var d := n.app.pending[0];
    if d.payload.Start? {
      OneDoes(n, Requested(d), Pop(n));
      RequestDoes(Pop(n), d.payload.id);
      DoesOn(n, [Requested(d)], Pop(n), if n.ctrl.active then [] else AllBegun(Pop(n), d.payload.id), Intercept(n));
    } else {
      ForwardDoes(n);
    }
  }

  lemma RequestDoes(n: Node, id: SnapshotId)
    requires PlainChannels(n.ctrl.channels) && LOCALHOST !in n.ctrl.recording
    ensures Does(n, if n.ctrl.active then [] else AllBegun(n, id),
                 ProcessMessage(n, LOCALHOST, 0, Msg(Marker(id), 0, 0, LOCALHOST)))
  {
    if n.ctrl.active {
      Nothing(n, n);
    } else {
      InitiateDoes(n, LOCALHOST, 0, id);
    }
  }

  lemma ResendResponds(n: Node, k: Ip, sn: nat)
    ensures Responds(n, CopyOf(n.peers, k, sn), [], Retransmit(n, k, sn)) &&
            Retransmit(n, k, sn).(tunnel := n.tunnel) == n
  {
    var r := Retransmit(n, k, sn);
    Nothing(n, n);
    Nothing(r, r);
    assert Conducts(n, [], r);
    DoesResponds(n, r, CopyOf(n.peers, k, sn), [], r);
  }

  lemma FrameResponds(n: Node, src: Ip, frame: Frame<Payload>)
    requires PlainChannels(n.ctrl.channels)
    ensures Responds(n, RepliesOf(n, Arrive(src, frame)), DeedsOf(n, Arrive(src, frame)), Receive(n, src, frame))
  {
    match frame
    case Data(sn, m) =>
      DataResponds(n, src, sn, m);
    case Ack(sn) =>
      AckDoes(n, src, sn);
      NoReplies(n, [], Receive(n, src, frame));
    case Plain(m) =>
      PlainDoes(n, src, m);
      NoReplies(n, [Overheard(src, m)], Receive(n, src, frame));
  }

  lemma LocalDoes(n: Node, e: Event)
    requires PlainChannels(n.ctrl.channels) && LOCALHOST !in n.ctrl.recording && !e.Arrive? && !e.Resend?
    ensures Does(n, DeedsOf(n, e), React(n, e))
  {
    if e.Intercepted? && n.app.pending != [] {
      InterceptDoes(n);
    } else if e.TimedOut? && n.ctrl.active {
      FinishDoes(n, Aborted);
    } else if e.LocalSend? {
      OneDoes(n, Spoken(e.datagram), React(n, e));
    } else {
      Nothing(n, React(n, e));
    }
  }

  /** Whatever happens at a member: exactly this is handed to its app, taken off its socket, and put on the tunnel. */
  lemma ReactResponds(n: Node, e: Event)
    requires PlainChannels(n.ctrl.channels) && LOCALHOST !in n.ctrl.recording
    ensures Responds(n, RepliesOf(n, e), DeedsOf(n, e), React(n, e))
  {
    if e.Arrive? {
      FrameResponds(n, e.src, e.frame);
    } else if e.Resend? {
      ResendResponds(n, e.peer, e.sn);
    } else {
      LocalDoes(n, e);
      NoReplies(n, DeedsOf(n, e), React(n, e));
    }
  }

  // ---------- Restoring ----------

  /** A link after loading any artifact: at the stored numbers, where there are any, with nothing to be sent again. */
  ghost predicate LinkResumed(p: Peer, a: PeerCut, past: Peer, q: Peer) {
    && q.sent == (if a.sendSeq.Some? then past.sent else p.sent)
    && q.got == (if a.recvSeq.Some? then past.got else p.got)
    && q.buffer == p.buffer
    && (a.sendSeq.Some? || p.Unacked() == map[] ==> q.Unacked() == map[])
    && q.heard == past.heard + SortBySeq(a.channel)
  }

  lemma {:induction false} SeedsLink(n: Node, a: Artifact, past: map<Ip, Peer>, ks: seq<Ip>, k: Ip)
    requires Distinct(ks)
    ensures At(Seed(n, a, past, ks).peers, k) ==
            if k in ks && k in a.peers then SeedPeer(At(n.peers, k), a.peers[k], At(past, k)) else At(n.peers, k)
    decreases |ks|
  {
    if ks != [] {
      assert ks == [ks[0]] + ks[1..];
      if ks[0] in a.peers {
        var p := SeedPeer(At(n.peers, ks[0]), a.peers[ks[0]], At(past, ks[0]));
        SeedsLink(n.(peers := n.peers[ks[0] := p]), a, past, ks[1..], k);
      } else {
        SeedsLink(n, a, past, ks[1..], k);
      }
    }
  }

  lemma {:induction false} FlushedFrom(channels: map<Ip, seq<Rec>>, ks: seq<Ip>, k: Ip)
    requires Distinct(ks)
    ensures HeardIn(AllFlushed(channels, ks), k) == if k in ks then SortBySeq(ChannelIn(channels, k)) else []
    decreases |ks|
  {
    if ks != [] {
      var rs := SortBySeq(ChannelIn(channels, ks[0]));
      assert ks == [ks[0]] + ks[1..];
      HeardInAppend(AllHanded(ks[0], rs), AllFlushed(channels, ks[1..]), k);
      HandedFrom(ks[0], rs, k);
      FlushedFrom(channels, ks[1..], k);
    }
  }

  lemma {:induction false} HandedFrom(from: Ip, rs: seq<Rec>, k: Ip)
    ensures HeardIn(AllHanded(from, rs), k) == if k == from then rs else []
    decreases |rs|
  {
    if rs != [] {
      assert AllHanded(from, rs)[1..] == AllHanded(from, rs[1..]);
      HandedFrom(from, rs[1..], k);
    }
  }

  /** Below the stored number everything counts as acknowledged. */
  lemma SeededUnacked(p: Peer, a: PeerCut, past: Peer)
    ensures a.sendSeq.Some? || p.Unacked() == map[] ==> SeedPeer(p, a, past).Unacked() == map[]
  {
    var q := SeedPeer(p, a, past);
    if a.sendSeq.Some? {
      assert forall x: nat :: x < |q.sent| ==> x in q.acked;
    } else {
      assert q.Unacked() == p.Unacked();
    }
  }

  lemma {:induction false} NothingSent(cfg: Config, channels: map<Ip, seq<Rec>>, ks: seq<Ip>)
    ensures forall k :: SentIn(cfg, AllFlushed(channels, ks), k) == []
    decreases |ks|
  {
    if ks != [] {
      var rs := SortBySeq(ChannelIn(channels, ks[0]));
      NothingSent(cfg, channels, ks[1..]);
      forall k ensures SentIn(cfg, AllFlushed(channels, ks), k) == [] {
        SentInAppend(cfg, AllHanded(ks[0], rs), AllFlushed(channels, ks[1..]), k);
        HandedSent(cfg, ks[0], rs, k);
      }
    }
  }

  lemma {:induction false} HandedSent(cfg: Config, from: Ip, rs: seq<Rec>, k: Ip)
    ensures SentIn(cfg, AllHanded(from, rs), k) == []
    decreases |rs|
  {
    if rs != [] {
      assert AllHanded(from, rs)[1..] == AllHanded(from, rs[1..]);
      HandedSent(cfg, from, rs[1..], k);
    }
  }

  /** What a replay does to one link and to the app. */
  lemma ReplayAt(n: Node, channels: map<Ip, seq<Rec>>, ks: seq<Ip>, k: Ip)
    requires !n.ctrl.active && PlainChannels(n.ctrl.channels) && PlainChannels(channels) && Distinct(ks) && k in ks
    ensures var p, r := At(n.peers, k), Replay(n, channels, ks);
            && Lives(n.app, AllFlushed(channels, ks), r.app) && r.tunnel == n.tunnel
            && At(r.peers, k) == p.(heard := p.heard + SortBySeq(ChannelIn(channels, k)))
  {
    var deeds, r := AllFlushed(channels, ks), Replay(n, channels, ks);
    ReplayDoes(n, channels, ks);
    FlushedFrom(channels, ks, k);
    NothingSent(n.cfg, channels, ks);
    assert ConductsLink(n, deeds, r, k) && SendsOn(At(n.peers, k), At(r.peers, k));
  }

  /**
   * Loading any artifact, complete or not: first every link stands at its stored numbers, then the app is handed every
   * recording once, each in the order of its numbers, and nothing is sent.
   */
  lemma RestoreDoes(n: Node, a: Artifact, ks: seq<Ip>, past: map<Ip, Peer>, k: Ip)
    requires n.ctrl == IDLE && PlainChannels(ChannelsOf(a)) && Distinct(ks) && k in ks && k in a.peers
    ensures var r := Restore(n, a, ks, past);
            && Lives(n.app, AllFlushed(ChannelsOf(a), ks), r.app) && r.tunnel == n.tunnel
            && LinkResumed(At(n.peers, k), a.peers[k], At(past, k), At(r.peers, k))
  {
    SeedsLink(n, a, past, ks, k);
    ReplayAt(Seed(n, a, past, ks), ChannelsOf(a), ks, k);
    SeededUnacked(At(n.peers, k), a.peers[k], At(past, k));
    HeardUnacked(SeedPeer(At(n.peers, k), a.peers[k], At(past, k)), SortBySeq(a.peers[k].channel));
  }

  lemma HeardUnacked(p: Peer, rs: seq<Rec>)
    ensures p.(heard := p.heard + rs).Unacked() == p.Unacked()
  {
  }
}
