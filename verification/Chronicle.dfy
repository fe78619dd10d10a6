/** What the deeds of single callbacks add up to: over runs of the mesh, in the network, and in the loops of the sidecar. */
module Chronicle {
  import opened Wrappers
  import opened Mesh
  import opened Recency
  import opened Sidecar
  import opened Bookkeeping
  import opened Callbacks
  import opened Network
  import opened Beginning
  import opened Deeds
  import opened Loops

  // ---------- One action, seen from one member ----------

  /** What an action is to member `j`, if anything. */
  function EventAt(a: Action, j: Ip): Option<Event> {
    match a
    case Local(i, e) => if i == j then Some(e) else None
    case Outside(i, from, m) => if i == j then Some(Arrive(from, Frame.Plain(m))) else None
    case Deliver(p) => if p.dst == j then Some(Arrive(p.src, p.frame)) else None
    case Lose(_) | Repeat(_) => None
  }

  lemma ApplyAt(s: System, a: Action, j: Ip)
    requires WellFormed(s) && Enabled(s, a) && j in s.nodes
    ensures var t, e := Apply(s, a), EventAt(a, j);
            && j in t.nodes
            && (e.None? ==> t.nodes[j] == s.nodes[j])
            && (e.Some? ==> t.nodes[j] == React(s.nodes[j], e.value).(tunnel := []))
            && (e.Some? ==> Packets(j, React(s.nodes[j], e.value).tunnel) <= t.net)
  {
  }

  lemma HostAside(s: System, j: Ip)
    requires Inv(s) && j in s.nodes
    ensures LOCALHOST !in s.nodes[j].ctrl.recording && s.nodes[j].tunnel == []
  {
    assert MemberInv(s, j);
  }

  // ---------- What is sent is in the network ----------

  /** The numbered frames to `k`, in order. */
  function DataTo(outs: seq<Outgoing>, k: Ip): seq<Rec> {
    if outs == [] then []
    else
      (if outs[0].dst == k && outs[0].frame.Data? then [Rec(outs[0].frame.sn, outs[0].frame.msg)] else []) +
      DataTo(outs[1..], k)
  }

  lemma {:induction false} DataToAppend(outs: seq<Outgoing>, more: seq<Outgoing>, k: Ip)
    ensures DataTo(outs + more, k) == DataTo(outs, k) + DataTo(more, k)
    decreases |outs|
  {
    if outs == [] {
      assert outs + more == more;
    } else {
      assert (outs + more)[1..] == outs[1..] + more;
      DataToAppend(outs[1..], more, k);
    }
  }

  lemma {:induction false} DataToHas(outs: seq<Outgoing>, k: Ip, r: Rec)
    requires r in DataTo(outs, k)
    ensures Outgoing(k, Data(r.sn, r.msg)) in outs
    decreases |outs|
  {
    if !(outs[0].dst == k && outs[0].frame == Data(r.sn, r.msg)) {
      DataToHas(outs[1..], k, r);
    }
  }

  /** These messages under consecutive numbers. */
  function From(first: nat, ms: seq<Message>): seq<Rec>
    decreases |ms|
  {
    if ms == [] then [] else [Rec(first, ms[0])] + From(first + 1, ms[1..])
  }

  lemma {:induction false} FromAppend(first: nat, ms: seq<Message>, more: seq<Message>)
    ensures From(first, ms + more) == From(first, ms) + From(first + |ms|, more)
    decreases |ms|
  {
    if ms == [] {
      assert ms + more == more;
    } else {
      assert (ms + more)[1..] == ms[1..] + more;
      FromAppend(first + 1, ms[1..], more);
    }
  }

  lemma {:induction false} FromHas(first: nat, ms: seq<Message>, x: nat)
    requires x < |ms|
    ensures Rec(first + x, ms[x]) in From(first, ms)
    decreases |ms|
  {
    if x > 0 {
      FromHas(first + 1, ms[1..], x - 1);
    }
  }

  /** The numbered frames of the deeds are exactly the messages they send, under the next numbers of each link. */
  lemma {:induction false} DataInFrames(cfg: Config, peers: map<Ip, Peer>, done: seq<Deed>, deeds: seq<Deed>, k: Ip)
    ensures DataTo(FramesIn(cfg, peers, done, deeds), k) ==
            From(NumberAfter(cfg, peers, done, k), SentIn(cfg, deeds, k))
    decreases |deeds|
  {
    if deeds != [] {
      var d, next := deeds[0], NumberAfter(cfg, peers, done, k);
      var rest := FramesIn(cfg, peers, done + [d], deeds[1..]);
      DataInFrames(cfg, peers, done + [d], deeds[1..], k);
      DataInFrame(cfg, peers, done, d, k);
      NumberAfterOne(cfg, peers, done, d, k);
      DataToAppend(FrameOf(cfg, NumberAfter(cfg, peers, done, Toward(d)), d), rest, k);
      FromAppend(next, SentBy(cfg, d, k), SentIn(cfg, deeds[1..], k));
    }
  }

  lemma DataInFrame(cfg: Config, peers: map<Ip, Peer>, done: seq<Deed>, d: Deed, k: Ip)
    ensures DataTo(FrameOf(cfg, NumberAfter(cfg, peers, done, Toward(d)), d), k) ==
            From(NumberAfter(cfg, peers, done, k), SentBy(cfg, d, k))
  {
    var first := FrameOf(cfg, NumberAfter(cfg, peers, done, Toward(d)), d);
    if first != [] {
      assert first[1..] == [];
    }
    if SentBy(cfg, d, k) != [] {
      assert SentBy(cfg, d, k)[1..] == [];
    }
  }

  lemma FramesHave(frames: seq<Outgoing>, first: nat, ms: seq<Message>, k: Ip, x: nat)
    requires DataTo(frames, k) == From(first, ms) && x < |ms|
    ensures Outgoing(k, Data(first + x, ms[x])) in frames
  {
    FromHas(first, ms, x);
    DataToHas(frames, k, Rec(first + x, ms[x]));
  }

  /** A callback puts everything it adds to a log on the tunnel, as it is, under its number. */
  lemma ReactFlies(n: Node, e: Event, k: Ip, x: nat)
    requires PlainChannels(n.ctrl.channels) && LOCALHOST !in n.ctrl.recording
    requires |At(n.peers, k).sent| <= x < |At(React(n, e).peers, k).sent|
    ensures Outgoing(k, Data(x, At(React(n, e).peers, k).sent[x])) in React(n, e).tunnel
  {
    ReactResponds(n, e);
    RespondsHave(n, RepliesOf(n, e), DeedsOf(n, e), React(n, e), k, x);
  }

  lemma RespondsHave(n: Node, replies: seq<Outgoing>, deeds: seq<Deed>, r: Node, k: Ip, x: nat)
    requires Responds(n, replies, deeds, r) && |At(n.peers, k).sent| <= x < |At(r.peers, k).sent|
    ensures Outgoing(k, Data(x, At(r.peers, k).sent[x])) in r.tunnel
  {
    var frames, ms, first := FramesIn(n.cfg, n.peers, [], deeds), SentIn(n.cfg, deeds, k), |At(n.peers, k).sent|;
    assert At(r.peers, k).sent == At(n.peers, k).sent + ms by {
      assert ConductsLink(n, deeds, r, k);
    }
    assert DataTo(frames, k) == From(first, ms) by {
      DataInFrames(n.cfg, n.peers, [], deeds, k);
    }
    FramesHave(frames, first, ms, k, x - first);
    InLast(n.tunnel, replies, frames, Outgoing(k, Data(x, ms[x - first])));
  }

  lemma InLast<T>(a: seq<T>, b: seq<T>, c: seq<T>, o: T)
    requires o in c
    ensures o in a + b + c
  {
  }

  /** In every step of the mesh, every message newly sent is in the network, as it was sent. */
  lemma NewMessagesFly(s: System, a: Action, j: Ip, k: Ip, x: nat)
    requires Inv(s) && Enabled(s, a) && j in s.nodes && |Link(s, j, k).sent| <= x
    ensures j in Apply(s, a).nodes
    ensures x < |Link(Apply(s, a), j, k).sent| ==>
            Packet(j, k, Data(x, Link(Apply(s, a), j, k).sent[x])) in Apply(s, a).net
  {
    ApplyAt(s, a, j);
    HostAside(s, j);
    if x < |Link(Apply(s, a), j, k).sent| {
      ReactFlies(s.nodes[j], EventAt(a, j).value, k, x);
    }
  }

  /** Whenever a data frame arrives, its acknowledgement is in the network. */
  lemma AcknowledgementFlies(s: System, p: Packet)
    requires Inv(s) && Enabled(s, Deliver(p)) && p.frame.Data?
    ensures Packet(p.dst, p.src, Frame.Ack(p.frame.sn)) in Apply(s, Deliver(p)).net
  {
    var ack := Outgoing(p.src, Frame.Ack(p.frame.sn));
    ApplyAt(s, Deliver(p), p.dst);
    DataAcknowledged(s.nodes[p.dst], p.src, p.frame.sn, p.frame.msg);
    var tunnel := React(s.nodes[p.dst], Arrive(p.src, p.frame)).tunnel;
    assert tunnel[|s.nodes[p.dst].tunnel|] == ack;
    assert Packet(p.dst, p.src, ack.frame) in Packets(p.dst, tunnel);
  }

  // ---------- Whole runs ----------

  /** All that member `j` does in a run, in order. */
  function RunDeeds(s: System, run: seq<Action>, j: Ip): seq<Deed>
    requires WellFormed(s) && Legal(s, run)
    decreases |run|
  {
    if run == [] then []
    else
      var e := EventAt(run[0], j);
      (if e.Some? && j in s.nodes then DeedsOf(s.nodes[j], e.value) else []) + RunDeeds(Apply(s, run[0]), run[1..], j)
  }

  lemma ConductsSilently(n: Node, deeds: seq<Deed>, r: Node)
    requires Conducts(n, deeds, r)
    ensures Conducts(n, deeds, r.(tunnel := []))
  {
    forall k ensures ConductsLink(n, deeds, r.(tunnel := []), k) {
      assert ConductsLink(n, deeds, r, k);
    }
  }

  lemma ApplyConducts(s: System, a: Action, j: Ip)
    requires Inv(s) && Enabled(s, a) && j in s.nodes
    ensures var e := EventAt(a, j);
            && j in Apply(s, a).nodes
            && Conducts(s.nodes[j], if e.Some? then DeedsOf(s.nodes[j], e.value) else [], Apply(s, a).nodes[j])
  {
    var e, n := EventAt(a, j), s.nodes[j];
    ApplyAt(s, a, j);
    HostAside(s, j);
    if e.Some? {
      ReactResponds(n, e.value);
      ConductsSilently(n, DeedsOf(n, e.value), React(n, e.value));
    } else {
      Nothing(n, n);
    }
  }

  /**
   * In every run, each app has lived through exactly what its links and outsiders handed it and local processes said, in
   * order; what it emitted was routed in order or is pending; and every log, exit and socket is accounted for.
   */
  lemma {:induction false} RunConducts(s: System, run: seq<Action>, j: Ip)
    requires Inv(s) && Legal(s, run) && j in s.nodes
    ensures j in Run(s, run).nodes && Conducts(s.nodes[j], RunDeeds(s, run, j), Run(s, run).nodes[j])
    decreases |run|
  {
    if run == [] {
      Nothing(s.nodes[j], s.nodes[j]);
    } else {
      var t := Apply(s, run[0]);
      var e := EventAt(run[0], j);
      ApplyKeeps(s, run[0]);
      ApplyConducts(s, run[0], j);
      RunConducts(t, run[1..], j);
      ConductsOn(s.nodes[j], if e.Some? then DeedsOf(s.nodes[j], e.value) else [], t.nodes[j],
                 RunDeeds(t, run[1..], j), Run(t, run[1..]).nodes[j]);
    }
  }

  lemma {:induction false} CachedTouches(trace: seq<Address>, lookups: seq<Address>)
    ensures Touches(Cached(trace), lookups) == Cached(trace + lookups)
    decreases |lookups|
  {
    if lookups == [] {
      assert trace + lookups == trace;
    } else {
      var next := trace + [lookups[0]];
      assert next[..|next| - 1] == trace && next + lookups[1..] == trace + lookups;
      CachedTouches(next, lookups[1..]);
    }
  }

  /** From start-up: what was heard and sent on each link is all there ever was, and the cache is that of all lookups. */
  lemma FromStartUp(s: System, run: seq<Action>, j: Ip)
    requires Fresh(s) && WellFormed(s) && Legal(s, run) && j in s.nodes && s.nodes[j].spoof == []
    ensures j in Run(s, run).nodes && ByDeeds(s.nodes[j], RunDeeds(s, run, j), Run(s, run).nodes[j])
  {
    FreshInv(s);
    RunConducts(s, run, j);
    FreshByDeeds(s.nodes[j], RunDeeds(s, run, j), Run(s, run).nodes[j]);
  }

  /** All there is at `n` is by these deeds, since it was `first`. */
  ghost predicate ByDeeds(first: Node, deeds: seq<Deed>, n: Node) {
    && n.cfg == first.cfg && Lives(first.app, deeds, n.app)
    && (forall k :: At(n.peers, k).sent == SentIn(n.cfg, deeds, k) && At(n.peers, k).heard == HeardIn(deeds, k))
    && n.exits == ExitsIn(n.cfg, deeds) && n.spoof == Cached(LookupsIn(n.cfg, deeds))
  }

  lemma FreshByDeeds(first: Node, deeds: seq<Deed>, n: Node)
    requires FreshNode(first) && first.spoof == [] && Conducts(first, deeds, n)
    ensures ByDeeds(first, deeds, n)
  {
    forall k ensures At(n.peers, k).sent == SentIn(n.cfg, deeds, k) && At(n.peers, k).heard == HeardIn(deeds, k) {
      assert ConductsLink(first, deeds, n, k) && At(first.peers, k) == FRESH;
    }
    CachedTouches([], LookupsIn(n.cfg, deeds));
    assert [] + LookupsIn(n.cfg, deeds) == LookupsIn(n.cfg, deeds);
    assert [] + ExitsIn(n.cfg, deeds) == ExitsIn(n.cfg, deeds);
  }

  // ---------- The tunnel is only written to ----------

  /** The same with `t` already on the tunnel. */
  function Louder(n: Node, t: seq<Outgoing>): Node {
    n.(tunnel := t + n.tunnel)
  }

  lemma SendLouder(n: Node, t: seq<Outgoing>, k: Ip, m: Message)
    ensures SendData(Louder(n, t), k, m) == Louder(SendData(n, k, m), t)
  {
    Regroup(t, n.tunnel, [Outgoing(k, Data(|At(n.peers, k).sent|, m))]);
  }

  lemma ForwardLouder(n: Node, t: seq<Outgoing>, d: Datagram)
    ensures Forward(Louder(n, t), d) == Louder(Forward(n, d), t)
  {
    if d.dst.Some? {
      SendLouder(n, t, d.dst.value.ip, MessageOf(d));
      Regroup(t, n.tunnel, [Outgoing(d.dst.value.ip, Frame.Plain(MessageOf(d)))]);
    }
  }

  lemma {:induction false} DrainLouder(n: Node, t: seq<Outgoing>)
    ensures Drain(Louder(n, t)) == Louder(Drain(n), t)
    decreases |n.app.pending|
  {
    if n.app.pending != [] {
      ForwardLouder(Pop(n), t, n.app.pending[0]);
      DrainLouder(Forward(Pop(n), n.app.pending[0]), t);
    }
  }

  lemma {:induction false} BroadcastLouder(n: Node, t: seq<Outgoing>, ks: seq<Ip>, id: SnapshotId)
    ensures Broadcast(Louder(n, t), ks, id) == Louder(Broadcast(n, ks, id), t)
    decreases |ks|
  {
    if ks != [] {
      var n1 := SendData(n, ks[0], MarkerMessage(id));
      SendLouder(n, t, ks[0], MarkerMessage(id));
      BroadcastLouder(n1.(ctrl := n1.ctrl.(sendCut := n1.ctrl.sendCut[ks[0] := |At(n1.peers, ks[0]).sent|])), t, ks[1..], id);
    }
  }

  lemma {:induction false} DeliverAllLouder(n: Node, t: seq<Outgoing>, from: Ip, rs: seq<Rec>)
    requires !n.ctrl.active && PlainChannels(n.ctrl.channels) && PlainRecords(rs)
    ensures DeliverAll(Louder(n, t), from, rs) == Louder(DeliverAll(n, from, rs), t)
    decreases |rs|
  {
    if rs != [] {
      ReplayDelivers(n, from, rs[0].sn, rs[0].msg);
      ReplayDelivers(Louder(n, t), from, rs[0].sn, rs[0].msg);
      DeliverAllLouder(Sidecar.Deliver(n, from, rs[0].sn, rs[0].msg), t, from, rs[1..]);
    }
  }

  lemma {:induction false} ReplayLouder(n: Node, t: seq<Outgoing>, channels: map<Ip, seq<Rec>>, ks: seq<Ip>)
    requires !n.ctrl.active && PlainChannels(n.ctrl.channels) && PlainChannels(channels)
    ensures Replay(Louder(n, t), channels, ks) == Louder(Replay(n, channels, ks), t)
    decreases |ks|
  {
    if ks != [] {
      if ks[0] in channels {
        DeliverAllLouder(n, t, ks[0], SortBySeq(channels[ks[0]]));
        ReplayLouder(DeliverAll(n, ks[0], SortBySeq(channels[ks[0]])), t, channels, ks[1..]);
      } else {
        ReplayLouder(n, t, channels, ks[1..]);
      }
    }
  }

  lemma FinishLouder(n: Node, t: seq<Outgoing>, status: Status)
    requires PlainChannels(n.ctrl.channels)
    ensures Finish(Louder(n, t), status) == Louder(Finish(n, status), t)
  {
    var n1 := Post(n, BuildArtifact(n.ctrl, status)).(ctrl := IDLE.(channels := n.ctrl.channels));
    FinishIs(n, status);
    FinishIs(Louder(n, t), status);
    ReplayLouder(n1, t, n.ctrl.channels, n.cfg.order);
    PostLouder(n, t, status);
  }

  lemma PostLouder(n: Node, t: seq<Outgoing>, status: Status)
    ensures var c := IDLE.(channels := n.ctrl.channels);
            Post(Louder(n, t), BuildArtifact(n.ctrl, status)).(ctrl := c) ==
            Louder(Post(n, BuildArtifact(n.ctrl, status)).(ctrl := c), t)
  {
  }

  lemma BeginLouder(n: Node, t: seq<Outgoing>, remote: Ip, sn: nat, id: SnapshotId)
    ensures Begin(Louder(n, t), remote, sn, id) == Louder(Begin(n, remote, sn, id), t)
  {
    var others := Others(n.cfg.mesh, n.cfg.self);
    var c := Cut(n, remote, id);
    CutLouder(n, t, remote, id);
    BroadcastLouder(c, t, others, id);
    OpenLouder(Broadcast(c, others, id), t, remote, sn);
  }

  lemma CutLouder(n: Node, t: seq<Outgoing>, remote: Ip, id: SnapshotId)
    ensures Cut(Louder(n, t), remote, id) == Louder(Cut(n, remote, id), t) && Cut(n, remote, id).cfg == n.cfg
  {
    var recording := SetOf(Others(n.cfg.mesh, n.cfg.self)) - {remote};
    DrainLouder(n.(ctrl := Controller(true, Some(id), recording, map[], map[], map[], map[])), t);
  }

  lemma OpenLouder(n: Node, t: seq<Outgoing>, remote: Ip, sn: nat)
    ensures OpenChannels(Louder(n, t), remote, sn) == Louder(OpenChannels(n, remote, sn), t)
  {
  }

  lemma InitiateLouder(n: Node, t: seq<Outgoing>, remote: Ip, sn: nat, id: SnapshotId)
    ensures Initiate(Louder(n, t), remote, sn, id) == Louder(Initiate(n, remote, sn, id), t)
  {
    BeginLouder(n, t, remote, sn, id);
    InitiateIs(n, remote, sn, id);
    InitiateIs(Louder(n, t), remote, sn, id);
    FinishLouder(Begin(n, remote, sn, id), t, Complete);
  }

  lemma InterceptLouder(n: Node, t: seq<Outgoing>)
    requires PlainChannels(n.ctrl.channels) && HostUnrecorded(n) && n.app.pending != []
    ensures Intercept(Louder(n, t)) == Louder(Intercept(n), t)
  {
    var d := n.app.pending[0];
    if d.payload.Start? {
      RequestCases(Pop(n), d.payload.id);
      RequestCases(Pop(Louder(n, t)), d.payload.id);
      InitiateLouder(Pop(n), t, LOCALHOST, 0, d.payload.id);
    } else {
      ForwardLouder(Pop(n), t, d);
    }
  }

  /** What a local event does does not depend on what is on the tunnel already. */
  lemma LocalLouder(n: Node, t: seq<Outgoing>, e: Event)
    requires PlainChannels(n.ctrl.channels) && HostUnrecorded(n) && !e.Arrive?
    ensures React(Louder(n, t), e) == Louder(React(n, e), t)
  {
    match e
    case Intercepted =>
      if n.app.pending != [] {
        InterceptLouder(n, t);
      }
    case TimedOut =>
      if n.ctrl.active {
        FinishLouder(n, t, Aborted);
      }
    case Resend(k, sn) =>
      ResendLouder(n, t, k, sn);
    case LocalSend(_) =>
    case HostChange(_, _) =>
    case Arrive(_, _) =>
  }

  lemma ResendLouder(n: Node, t: seq<Outgoing>, k: Ip, sn: nat)
    ensures Retransmit(Louder(n, t), k, sn) == Louder(Retransmit(n, k, sn), t)
  {
    var p := At(n.peers, k);
    if sn in p.Unacked() {
      Regroup(t, n.tunnel, [Outgoing(k, Data(sn, p.Unacked()[sn]))]);
    }
  }

  // ---------- The loops are runs ----------

  lemma LocalUnrecorded(n: Node, e: Event)
    requires PlainChannels(n.ctrl.channels) && HostUnrecorded(n) && !e.Arrive?
    ensures HostUnrecorded(React(n, e))
  {
    if e.Intercepted? && n.app.pending != [] {
      InterceptShrinks(n);
    }
  }

  lemma {:induction false} ReactedLouder(n: Node, t: seq<Outgoing>, es: seq<Event>)
    requires PlainChannels(n.ctrl.channels) && HostUnrecorded(n) && forall e :: e in es ==> !e.Arrive?
    ensures Reacted(Louder(n, t), es) == Louder(Reacted(n, es), t)
    decreases |es|
  {
    if es != [] {
      LocalLouder(n, t, es[0]);
      LocalUnrecorded(n, es[0]);
      ReactedLouder(React(n, es[0]), t, es[1..]);
    }
  }

  function Locals(j: Ip, es: seq<Event>): (run: seq<Action>)
    ensures |run| == |es| && forall x :: 0 <= x < |es| ==> run[x] == Local(j, es[x])
  {
    if es == [] then [] else [Local(j, es[0])] + Locals(j, es[1..])
  }

  lemma {:induction false} PacketsAppend(j: Ip, outs: seq<Outgoing>, more: seq<Outgoing>)
    ensures Packets(j, outs + more) == Packets(j, outs) + Packets(j, more)
    decreases |outs|
  {
    if outs == [] {
      assert outs + more == more;
    } else {
      assert (outs + more)[1..] == outs[1..] + more;
      PacketsAppend(j, outs[1..], more);
    }
  }

  /**
   * A loop over local events in one callback is a run of the mesh: it leaves the member where the run does, and puts in
   * the network what the run does. So all that is proved of runs holds of the loops.
   */
  lemma {:induction false} LoopIsRun(s: System, j: Ip, es: seq<Event>)
    requires WellFormed(s) && j in s.nodes && s.nodes[j].tunnel == [] && HostUnrecorded(s.nodes[j])
    requires forall e :: e in es ==> Enabled(s, Local(j, e))
    ensures Legal(s, Locals(j, es))
    ensures Run(s, Locals(j, es)) == Put(s, j, Reacted(s.nodes[j], es), s.net)
    decreases |es|
  {
    if es == [] {
      PutBackEmpty(s, j);
    } else {
      var r, t := React(s.nodes[j], es[0]), Apply(s, Local(j, es[0]));
      assert es[0] in es;
      LocalUnrecorded(s.nodes[j], es[0]);
      forall e | e in es[1..] ensures Enabled(t, Local(j, e)) {
        assert e in es;
      }
      LoopIsRun(t, j, es[1..]);
      assert Locals(j, es)[1..] == Locals(j, es[1..]);
      RestLouder(r, es[1..]);
      PutTwice(s, j, r, Reacted(r.(tunnel := []), es[1..]));
    }
  }

  lemma RestLouder(r: Node, es: seq<Event>)
    requires PlainChannels(r.ctrl.channels) && HostUnrecorded(r) && forall e :: e in es ==> !e.Arrive?
    ensures Reacted(r, es) == Louder(Reacted(r.(tunnel := []), es), r.tunnel)
  {
    assert Louder(r.(tunnel := []), r.tunnel) == r;
    ReactedLouder(r.(tunnel := []), r.tunnel, es);
  }

  lemma PutBackEmpty(s: System, j: Ip)
    requires j in s.nodes && s.nodes[j].tunnel == []
    ensures Put(s, j, s.nodes[j], s.net) == s
  {
    assert s.nodes[j := s.nodes[j]] == s.nodes;
    assert s.net + Packets(j, []) == s.net;
  }

  lemma PutTwice(s: System, j: Ip, r: Node, q: Node)
    requires j in s.nodes
    ensures Put(Put(s, j, r, s.net), j, q, Put(s, j, r, s.net).net) == Put(s, j, Louder(q, r.tunnel), s.net)
  {
    PacketsAppend(j, r.tunnel, q.tunnel);
    SentTwice(s.net, Packets(j, r.tunnel), Packets(j, q.tunnel));
    LastStays(s.nodes, j, r.(tunnel := []), q.(tunnel := []));
  }

  lemma SentTwice(net: multiset<Packet>, a: multiset<Packet>, b: multiset<Packet>)
    ensures net + a + b == net + (a + b)
  {
  }

  lemma LastStays(nodes: map<Ip, Node>, j: Ip, r: Node, q: Node)
    ensures nodes[j := r][j := q] == nodes[j := q]
  {
  }

  /** The intercept loop is a run of interceptions. */
  lemma InterceptLoopIsRun(s: System, j: Ip, k: nat)
    requires Inv(s) && j in s.nodes
    ensures Legal(s, Locals(j, Intercepts(k)))
    ensures Run(s, Locals(j, Intercepts(k))) == Put(s, j, Reacted(s.nodes[j], Intercepts(k)), s.net)
  {
    HostAside(s, j);
    LoopIsRun(s, j, Intercepts(k));
  }

  /** A round of retransmissions is a run of resendings, after an abort if the time of a wave is over. */
  lemma RoundIsRun(s: System, j: Ip, expired: bool, due: seq<(Ip, nat)>)
    requires Inv(s) && j in s.nodes
    ensures Legal(s, Locals(j, Round(expired, due)))
    ensures Run(s, Locals(j, Round(expired, due))) == Put(s, j, Reacted(s.nodes[j], Round(expired, due)), s.net)
  {
    HostAside(s, j);
    LoopIsRun(s, j, Round(expired, due));
  }
}
