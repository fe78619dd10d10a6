/** What the cut makes of a member: the plain member that does what this one does until its cut, and then stops. */
module Shadow {
  import opened Wrappers
  import opened Mesh
  import opened Counter
  import opened Sidecar
  import opened Bookkeeping
  import opened Callbacks
  import opened Ledger
  import opened Wave
  import opened WaveRun
  import opened Plain

  /** The messages that are not markers. */
  function Unmarked(ms: seq<Message>): seq<Message> {
    if ms == [] then []
    else
      var init := Unmarked(ms[..|ms| - 1]);
      if ms[|ms| - 1].payload.Marker? then init else init + [ms[|ms| - 1]]
  }

  lemma {:induction false} UnmarkedAppend(ms: seq<Message>, ns: seq<Message>)
    ensures Unmarked(ms + ns) == Unmarked(ms) + Unmarked(ns)
  {
    if ns == [] {
      assert ms + ns == ms;
    } else {
      assert (ms + ns)[..|ms + ns| - 1] == ms + ns[..|ns| - 1];
      UnmarkedAppend(ms, ns[..|ns| - 1]);
    }
  }

  lemma UnmarkedPrefix(ms: seq<Message>, ns: seq<Message>)
    requires ms <= ns
    ensures Unmarked(ms) <= Unmarked(ns)
  {
    assert ns == ms + ns[|ms|..];
    UnmarkedAppend(ms, ns[|ms|..]);
  }

  lemma UnmarkedOne(ms: seq<Message>, m: Message)
    ensures Unmarked(ms + [m]) == if m.payload.Marker? then Unmarked(ms) else Unmarked(ms) + [m]
  {
    assert (ms + [m])[..|ms + [m]| - 1] == ms;
  }

  function SentLogs(mesh: seq<Ip>, peers: map<Ip, Peer>): map<Ip, seq<Message>> {
    map k | k in SetOf(mesh) :: Unmarked(At(peers, k).sent)
  }

  function GotLogs(mesh: seq<Ip>, peers: map<Ip, Peer>): map<Ip, seq<Message>> {
    map k | k in SetOf(mesh) :: Unmarked(At(peers, k).got)
  }

  function View(mesh: seq<Ip>, app: App, exits: seq<Datagram>, peers: map<Ip, Peer>): Member {
    Member(app, exits, SentLogs(mesh, peers), GotLogs(mesh, peers))
  }

  lemma SentLogsSame(mesh: seq<Ip>, p: map<Ip, Peer>, q: map<Ip, Peer>)
    requires forall k :: At(q, k).sent == At(p, k).sent
    ensures SentLogs(mesh, q) == SentLogs(mesh, p)
  {
  }

  lemma GotLogsSame(mesh: seq<Ip>, p: map<Ip, Peer>, q: map<Ip, Peer>)
    requires forall k :: At(q, k).got == At(p, k).got
    ensures GotLogs(mesh, q) == GotLogs(mesh, p)
  {
  }

  lemma SentLogsMove(mesh: seq<Ip>, p: map<Ip, Peer>, q: map<Ip, Peer>, i: Ip, m: Message)
    requires i in mesh && !m.payload.Marker?
    requires At(q, i).sent == At(p, i).sent + [m] && forall k :: k != i ==> At(q, k).sent == At(p, k).sent
    ensures SentLogs(mesh, q) == SentLogs(mesh, p)[i := SentLogs(mesh, p)[i] + [m]]
  {
    UnmarkedOne(At(p, i).sent, m);
    LogsMove(SentLogs(mesh, p), SentLogs(mesh, q), i, m);
  }

  lemma GotLogsMove(mesh: seq<Ip>, p: map<Ip, Peer>, q: map<Ip, Peer>, i: Ip, m: Message)
    requires i in mesh && !m.payload.Marker?
    requires At(q, i).got == At(p, i).got + [m] && forall k :: k != i ==> At(q, k).got == At(p, k).got
    ensures GotLogs(mesh, q) == GotLogs(mesh, p)[i := GotLogs(mesh, p)[i] + [m]]
  {
    UnmarkedOne(At(p, i).got, m);
    LogsMove(GotLogs(mesh, p), GotLogs(mesh, q), i, m);
  }

  lemma LogsMove(a: map<Ip, seq<Message>>, b: map<Ip, seq<Message>>, i: Ip, m: Message)
    requires a.Keys == b.Keys && i in a && b[i] == a[i] + [m] && forall k :: k in a && k != i ==> b[k] == a[k]
    ensures b == a[i := a[i] + [m]]
  {
  }

  function ViewOf(n: Node): Member {
    View(n.cfg.mesh, n.app, n.exits, n.peers)
  }

  /** The member as it is until its cut, and as its image holds it from then on. */
  function ShadowOf(n: Node): Member {
    if IsCut(n) then View(n.cfg.mesh, ImageOf(n).app, ImageOf(n).exits, ImageOf(n).peers) else ViewOf(n)
  }

  /** `steps` take the plain member from `v` to `r`. */
  ghost predicate Leads(n: Node, v: Member, steps: seq<Step>, r: Member) {
    CanAll(n.cfg.mesh, n.cfg.self, v, steps) && DoAll(n.cfg.mesh, n.cfg.self, v, steps) == r
  }

  lemma LeadsOn(n: Node, v: Member, steps: seq<Step>, q: Member, more: seq<Step>, r: Member)
    requires Leads(n, v, steps, q) && Leads(n, q, more, r)
    ensures Leads(n, v, steps + more, r)
  {
    DoAllAppend(n.cfg.mesh, n.cfg.self, v, steps, more);
  }

  lemma OneLeads(n: Node, v: Member, step: Step, r: Member)
    requires Can(n.cfg.mesh, v, step) && Do(n.cfg.mesh, n.cfg.self, v, step) == r
    ensures Leads(n, v, [step], r)
  {
    assert [step][1..] == [];
    assert CanAll(n.cfg.mesh, n.cfg.self, r, []);
  }

  lemma SameView(n: Node, r: Node)
    requires r.cfg == n.cfg && r.app == n.app && r.exits == n.exits
    requires forall k :: At(r.peers, k).sent == At(n.peers, k).sent && At(r.peers, k).got == At(n.peers, k).got
    ensures ViewOf(r) == ViewOf(n)
  {
    SentLogsSame(n.cfg.mesh, n.peers, r.peers);
    GotLogsSame(n.cfg.mesh, n.peers, r.peers);
  }

  // ---------- Sending ----------

  /** Forwarding to a member puts the message on its channel and does nothing else. */
  lemma SendView(n: Node, k: Ip, m: Message)
    requires k in n.cfg.mesh && !m.payload.Marker?
    ensures var v := ViewOf(n); ViewOf(SendData(n, k, m)) == v.(sent := v.sent[k := v.sent[k] + [m]])
  {
    var r := SendData(n, k, m);
    assert At(r.peers, k).sent == At(n.peers, k).sent + [m];
    SentLogsMove(n.cfg.mesh, n.peers, r.peers, k, m);
    GotLogsSame(n.cfg.mesh, n.peers, r.peers);
  }

  lemma ForwardView(n: Node, d: Datagram)
    requires SoundDatagram(d)
    ensures var v, r := ViewOf(n), ViewOf(Forward(n, d));
            r == if ToMember(n.cfg.mesh, n.cfg.self, d)
                 then v.(sent := v.sent[d.dst.value.ip := v.sent[d.dst.value.ip] + [MessageOf(d)]])
                 else if Leaves(n.cfg.mesh, n.cfg.self, d) then v.(exits := v.exits + [d]) else v
  {
    if ToMember(n.cfg.mesh, n.cfg.self, d) {
      SendView(n, d.dst.value.ip, MessageOf(d));
    }
  }

  /** Forwarding what the app emitted first is one plain step. */
  lemma PickLeads(n: Node)
    requires n.app.pending != [] && SoundNode(n)
    ensures Leads(n, ViewOf(n), [Pick], ViewOf(Forward(Pop(n), n.app.pending[0])))
  {
    var d := n.app.pending[0];
    PopWorth(n);
    ForwardView(Pop(n), d);
    assert ViewOf(Pop(n)) == ViewOf(n).(app := Pop(n).app);
    OneLeads(n, ViewOf(n), Pick, ViewOf(Forward(Pop(n), d)));
  }

  function Picks(k: nat): (r: seq<Step>)
    ensures |r| == k
  {
    if k == 0 then [] else [Pick] + Picks(k - 1)
  }

  lemma {:induction false} DrainLeads(n: Node)
    requires SoundNode(n)
    ensures Leads(n, ViewOf(n), Picks(|n.app.pending|), ViewOf(Drain(n)))
    decreases |n.app.pending|
  {
    if n.app.pending != [] {
      var n1 := Forward(Pop(n), n.app.pending[0]);
      PickLeads(n);
      PopWorth(n);
      ForwardSound(Pop(n), n.app.pending[0]);
      DrainLeads(n1);
      assert n1.cfg == n.cfg;
      LeadsOn(n, ViewOf(n), [Pick], ViewOf(n1), Picks(|n1.app.pending|), ViewOf(Drain(n1)));
    }
  }

  // ---------- Hearing ----------

  lemma DeliverView(n: Node, i: Ip, m: Message)
    requires !m.payload.Marker? && i in n.cfg.mesh
    ensures var v := ViewOf(n);
            ViewOf(Append(Deliver(n, i, |At(n.peers, i).got|, m), i, m)) ==
            v.(app := n.app.Receive(i, m), got := v.got[i := v.got[i] + [m]])
  {
    var r := Append(Deliver(n, i, |At(n.peers, i).got|, m), i, m);
    DeliverLogs(n, i, m);
    SentLogsSame(n.cfg.mesh, n.peers, r.peers);
    GotLogsMove(n.cfg.mesh, n.peers, r.peers, i, m);
  }

  lemma DeliverLogs(n: Node, i: Ip, m: Message)
    ensures var r := Append(Deliver(n, i, |At(n.peers, i).got|, m), i, m);
            && r.cfg == n.cfg && r.exits == n.exits && r.app == n.app.Receive(i, m)
            && At(r.peers, i).got == At(n.peers, i).got + [m]
            && (forall k :: At(r.peers, k).sent == At(n.peers, k).sent)
            && (forall k :: k != i ==> At(r.peers, k).got == At(n.peers, k).got)
  {
  }

  /** Taking in a message at an idle member is one plain step. */
  lemma HandLeads(n: Node, i: Ip, m: Message)
    requires !n.ctrl.active && !m.payload.Marker? && i in n.cfg.mesh && PlainChannels(n.ctrl.channels)
    ensures Take(n, i, m).ctrl == n.ctrl && Take(n, i, m).host == n.host
    ensures Leads(n, ViewOf(n), [Hand(i, m)], ViewOf(Take(n, i, m)))
  {
    TakeCases(n, i, m);
    DeliverView(n, i, m);
    OneLeads(n, ViewOf(n), Hand(i, m), ViewOf(Take(n, i, m)));
  }

  /** The cut itself: everything pending is sent, and that is the image. */
  lemma CutLeads(n: Node, remote: Ip, w: SnapshotId)
    requires ValidConfig(n.cfg) && SoundNode(n) && n.host.checkpointUp && n.host.images == []
    ensures var c := Cut(n, remote, w);
            IsCut(c) && Leads(n, ViewOf(n), Picks(|n.app.pending|), ShadowOf(c))
  {
    var recording := SetOf(Others(n.cfg.mesh, n.cfg.self)) - {remote};
    var n0 := n.(ctrl := Controller(true, Some(w), recording, map[], map[], map[], map[]));
    DrainLeads(n0);
    SameView(n0, n);
    CutWave(n, remote, w, 0);
    assert ShadowOf(Cut(n, remote, w)) == ViewOf(Drain(n0));
  }

  /** Only the image counts once a member is cut. */
  lemma ShadowSame(n: Node, r: Node)
    requires IsCut(n) && r.cfg == n.cfg && r.host.images == n.host.images
    ensures ShadowOf(r) == ShadowOf(n)
  {
  }

  lemma InitiateLeads(n: Node, remote: Ip, sn: nat, w: SnapshotId)
    requires ValidConfig(n.cfg) && SoundNode(n) && n.host.checkpointUp && n.host.images == []
    ensures var r := Initiate(n, remote, sn, w);
            IsCut(r) && Leads(n, ViewOf(n), Picks(|n.app.pending|), ShadowOf(r))
  {
    var c, b, r := Cut(n, remote, w), Begin(n, remote, sn, w), Initiate(n, remote, sn, w);
    CutLeads(n, remote, w);
    assert b.host == c.host && b.cfg == c.cfg && r.cfg == c.cfg;
    assert r.host.images == b.host.images;
    ShadowSame(c, r);
  }

  /** Taking in a message, whatever it is, at a member not cut before. */
  lemma TakeLeads(n: Node, i: Ip, m: Message, w: SnapshotId) returns (steps: seq<Step>)
    requires NodeInv(n) && WaveInv(n, w) && SoundNode(n) && !IsCut(n) && i in n.cfg.mesh
    requires PlainChannels(n.ctrl.channels) && Timely(n, i, m, w)
    ensures Leads(n, ShadowOf(n), steps, ShadowOf(Take(n, i, m)))
  {
    if m.payload.Marker? {
      TakeCases(n, i, m);
      InitiateLeads(n, i, |At(n.peers, i).got|, w);
      var r := Initiate(n, i, |At(n.peers, i).got|, w);
      ShadowSame(r, Append(r, i, m));
      steps := Picks(|n.app.pending|);
    } else {
      HandLeads(n, i, m);
      steps := [Hand(i, m)];
    }
  }

  /** A member that is cut stands still. */
  lemma CutLeadsNowhere(n: Node, r: Node, w: SnapshotId)
    requires WaveInv(n, w) && WaveInv(r, w) && IsCut(n) && r.cfg == n.cfg && Keeps(n, r)
    ensures Leads(n, ShadowOf(n), [], ShadowOf(r))
  {
    ShadowSame(n, r);
  }

  lemma {:induction false} UnbufferLeads(n: Node, i: Ip, log: seq<Message>, o: Option<nat>, w: SnapshotId)
    returns (steps: seq<Step>)
    requires NodeInv(n) && WaveInv(n, w) && Accounted(n) && SoundNode(n) && UnbufferedElsewhere(n, i)
    requires PlainChannels(n.ctrl.channels) && i in n.cfg.mesh
    requires Fed(At(n.peers, i), log) && WaveLog(n, i, log, o, w) && OnlyWave(log, |At(n.peers, i).got|, w)
    ensures Leads(n, ShadowOf(n), steps, ShadowOf(Unbuffer(n, i)))
    decreases |At(n.peers, i).buffer|
  {
    var p := At(n.peers, i);
    steps := [];
    if IsCut(n) {
      UnbufferWave(n, i, log, o, w);
      CutLeadsNowhere(n, Unbuffer(n, i), w);
    } else if |p.got| in p.buffer {
      var n1 := PopBuffer(n, i);
      var m := p.buffer[|p.got|];
      var n2 := Take(n1, i, m);
      PopBufferInv(n, i);
      PopBufferWave(n, i, w);
      SameView(n, n1);
      assert m in log && log[|p.got|] == m;
      NextIsTimely(n1, i, log, o, w);
      TakeInv(n1, i, m);
      TakeBalance(n1, i, m);
      TakeWave(n1, i, m, w);
      TakeLinks(n1, i, m);
      PopElsewhere(n, i);
      TakeElsewhere(n1, i, m);
      PopTakeMoves(n, i, log);
      var first := TakeLeads(n1, i, m, w);
      var rest := UnbufferLeads(n2, i, log, o, w);
      steps := first + rest;
      LeadsOn(n, ShadowOf(n), first, ShadowOf(n2), rest, ShadowOf(Unbuffer(n2, i)));
    }
  }

  // ---------- Whole callbacks ----------

  lemma NoStep(n: Node, v: Member)
    ensures Leads(n, v, [], v)
  {
  }

  lemma StartLeads(n: Node, w: SnapshotId) returns (steps: seq<Step>)
    requires Steady(n) && WaveInv(n, w) && SoundNode(n) && !IsCut(n) && PlainChannels(n.ctrl.channels)
    requires n.app.pending != [] && n.app.pending[0].payload == Start(w)
    ensures Leads(n, ShadowOf(n), steps, ShadowOf(Intercept(n)))
  {
    var n1 := Pop(n);
    PopWorth(n);
    AsideSteady(n, n1);
    StartCases(n1, w);
    InitiateLeads(n1, LOCALHOST, 0, w);
    OneLeads(n, ViewOf(n), Skip, ViewOf(n1));
    LeadsOn(n, ViewOf(n), [Skip], ViewOf(n1), Picks(|n1.app.pending|), ShadowOf(Intercept(n)));
    steps := [Skip] + Picks(|n1.app.pending|);
  }

  lemma ForwardShadow(n: Node)
    requires n.app.pending != [] && SoundNode(n) && !IsCut(n) && PlainChannels(n.ctrl.channels)
    requires !n.app.pending[0].payload.Start?
    ensures Leads(n, ShadowOf(n), [Pick], ShadowOf(Intercept(n)))
  {
    PickLeads(n);
    assert !IsCut(Intercept(n));
  }

  /** A local event at a member not cut before. */
  lemma LocalLeads(n: Node, e: Event, w: SnapshotId) returns (steps: seq<Step>)
    requires Steady(n) && WaveInv(n, w) && SoundNode(n) && !IsCut(n) && PlainChannels(n.ctrl.channels) && !e.Arrive?
    requires e.LocalSend? ==> SoundDatagram(e.datagram) && DatagramValue(e.datagram) == 0
    requires e.Intercepted? && n.app.pending != [] && n.app.pending[0].payload.Start? ==> n.app.pending[0].payload.id == w
    ensures Leads(n, ShadowOf(n), steps, ShadowOf(React(n, e)))
  {
    steps := [];
    if e.Intercepted? && n.app.pending != [] {
      if n.app.pending[0].payload.Start? {
        steps := StartLeads(n, w);
      } else {
        ForwardShadow(n);
        steps := [Pick];
      }
    } else if e.LocalSend? {
      steps := [Say(e.datagram)];
      OneLeads(n, ViewOf(n), Say(e.datagram), ViewOf(React(n, e)));
    } else {
      SameView(n, React(n, e));
      NoStep(n, ShadowOf(n));
    }
  }

  lemma {:induction false} DataLeads(n: Node, src: Ip, sn: nat, m: Message, log: seq<Message>, o: Option<nat>, w: SnapshotId)
    returns (steps: seq<Step>)
    requires Steady(n) && MemberWave(n, w) && SoundNode(n) && !IsCut(n) && PlainChannels(n.ctrl.channels) && src in n.cfg.mesh
    requires Fed(At(n.peers, src), log) && WaveLog(n, src, log, o, w) && OnlyWave(log, |At(n.peers, src).got|, w)
    requires sn < |log| && log[sn] == m
    ensures Leads(n, ShadowOf(n), steps, ShadowOf(Receive(n, src, Data(sn, m))))
  {
    if sn == |At(n.peers, src).got| {
      var n1 := Acknowledge(n, src, sn);
      AcknowledgedWave(n, src, sn, w);
      SameView(n, n1);
      steps := InOrderLeads(n1, src, m, log, o, w);
    } else {
      DataWaits(n, src, sn, m);
      SameView(n, Receive(n, src, Data(sn, m)));
      steps := [];
      NoStep(n, ShadowOf(n));
    }
  }

  lemma InOrderLeads(n: Node, src: Ip, m: Message, log: seq<Message>, o: Option<nat>, w: SnapshotId) returns (steps: seq<Step>)
    requires Steady(n) && MemberWave(n, w) && SoundNode(n) && !IsCut(n) && PlainChannels(n.ctrl.channels) && src in n.cfg.mesh
    requires Fed(At(n.peers, src), log) && WaveLog(n, src, log, o, w) && OnlyWave(log, |At(n.peers, src).got|, w)
    requires |At(n.peers, src).got| < |log| && log[|At(n.peers, src).got|] == m
    ensures Leads(n, ShadowOf(n), steps, ShadowOf(Unbuffer(Take(n, src, m), src)))
  {
    var n2 := Take(n, src, m);
    FirstTaken(n, src, m, log, o, w);
    var first := TakeLeads(n, src, m, w);
    var rest := UnbufferLeads(n2, src, log, o, w);
    steps := first + rest;
    LeadsOn(n, ShadowOf(n), first, ShadowOf(n2), rest, ShadowOf(Unbuffer(n2, src)));
  }

  lemma AckLeads(n: Node, src: Ip, sn: nat)
    requires Steady(n) && !IsCut(n) && PlainChannels(n.ctrl.channels)
    ensures Leads(n, ShadowOf(n), [], ShadowOf(Receive(n, src, Frame.Ack(sn))))
  {
    AckHeeds(n, src, sn);
    AckFrame(n, src, sn);
    SameView(n, Receive(n, src, Frame.Ack(sn)));
    NoStep(n, ShadowOf(n));
  }

  lemma OutsideLeads(n: Node, from: Ip, m: Message)
    requires !IsCut(n) && PlainChannels(n.ctrl.channels) && from !in n.cfg.mesh && Sound(m) && Value(m) == 0
    ensures Leads(n, ShadowOf(n), [Hear(from, m)], ShadowOf(Receive(n, from, Frame.Plain(m))))
  {
    var r := Receive(n, from, Frame.Plain(m));
    SameView(n, r.(app := n.app));
    OneLeads(n, ViewOf(n), Hear(from, m), ViewOf(r));
  }
}
