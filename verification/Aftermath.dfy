/** A member after its cut, as its app lives it: what is delivered, whenever it was taken in, is heard once, in some order. */
module Aftermath {
  import opened Wrappers
  import opened Mesh
  import opened Counter
  import opened Sidecar
  import opened Bookkeeping
  import opened Callbacks
  import opened Ledger
  import opened Wave
  import opened WaveRun
  import opened Plain
  import opened Shadow

  function MessagesIn(rs: seq<Rec>): seq<Message> {
    seq(|rs|, x requires 0 <= x < |rs| => rs[x].msg)
  }

  function HeardLogs(mesh: seq<Ip>, peers: map<Ip, Peer>): map<Ip, seq<Message>> {
    map k | k in SetOf(mesh) :: MessagesIn(At(peers, k).heard)
  }

  /** What an app has done and heard, and what was sent for it. */
  function Outlook(mesh: seq<Ip>, app: App, exits: seq<Datagram>, peers: map<Ip, Peer>): Member {
    Member(app, exits, SentLogs(mesh, peers), HeardLogs(mesh, peers))
  }

  function OutlookOf(n: Node): Member {
    Outlook(n.cfg.mesh, n.app, n.exits, n.peers)
  }

  /** The same at the cut. */
  function OutlookThen(n: Node): Member
    requires IsCut(n)
  {
    Outlook(n.cfg.mesh, ImageOf(n).app, ImageOf(n).exits, ImageOf(n).peers)
  }

  lemma HeardLogsSame(mesh: seq<Ip>, p: map<Ip, Peer>, q: map<Ip, Peer>)
    requires forall k :: At(q, k).heard == At(p, k).heard
    ensures HeardLogs(mesh, q) == HeardLogs(mesh, p)
  {
  }

  lemma MarkersUnseen(mesh: seq<Ip>, p: map<Ip, Peer>, q: map<Ip, Peer>)
    requires forall k :: Unmarked(At(q, k).sent) == Unmarked(At(p, k).sent)
    ensures SentLogs(mesh, q) == SentLogs(mesh, p)
  {
  }

  lemma HeardLogsMove(mesh: seq<Ip>, p: map<Ip, Peer>, q: map<Ip, Peer>, i: Ip, r: Rec)
    requires i in mesh
    requires At(q, i).heard == At(p, i).heard + [r] && forall k :: k != i ==> At(q, k).heard == At(p, k).heard
    ensures HeardLogs(mesh, q) == HeardLogs(mesh, p)[i := HeardLogs(mesh, p)[i] + [r.msg]]
  {
    assert MessagesIn(At(q, i).heard) == MessagesIn(At(p, i).heard) + [r.msg];
    LogsMove(HeardLogs(mesh, p), HeardLogs(mesh, q), i, r.msg);
  }

  lemma SameOutlook(n: Node, r: Node)
    requires r.cfg == n.cfg && r.app == n.app && r.exits == n.exits
    requires forall k :: At(r.peers, k).sent == At(n.peers, k).sent && At(r.peers, k).heard == At(n.peers, k).heard
    ensures OutlookOf(r) == OutlookOf(n)
  {
    SentLogsSame(n.cfg.mesh, n.peers, r.peers);
    HeardLogsSame(n.cfg.mesh, n.peers, r.peers);
  }

  // ---------- Sending ----------

  lemma SendOutlook(n: Node, k: Ip, m: Message)
    requires k in n.cfg.mesh && !m.payload.Marker?
    ensures var v := OutlookOf(n); OutlookOf(SendData(n, k, m)) == v.(sent := v.sent[k := v.sent[k] + [m]])
  {
    var r := SendData(n, k, m);
    assert At(r.peers, k).sent == At(n.peers, k).sent + [m];
    SentLogsMove(n.cfg.mesh, n.peers, r.peers, k, m);
    HeardLogsSame(n.cfg.mesh, n.peers, r.peers);
  }

  lemma ForwardOutlook(n: Node, d: Datagram)
    requires SoundDatagram(d)
    ensures var v, r := OutlookOf(n), OutlookOf(Forward(n, d));
            r == if ToMember(n.cfg.mesh, n.cfg.self, d)
                 then v.(sent := v.sent[d.dst.value.ip := v.sent[d.dst.value.ip] + [MessageOf(d)]])
                 else if Leaves(n.cfg.mesh, n.cfg.self, d) then v.(exits := v.exits + [d]) else v
  {
    if ToMember(n.cfg.mesh, n.cfg.self, d) {
      SendOutlook(n, d.dst.value.ip, MessageOf(d));
    }
  }

  lemma PickGoes(n: Node)
    requires n.app.pending != [] && SoundNode(n)
    ensures Leads(n, OutlookOf(n), [Pick], OutlookOf(Forward(Pop(n), n.app.pending[0])))
  {
    var d := n.app.pending[0];
    PopWorth(n);
    ForwardOutlook(Pop(n), d);
    assert OutlookOf(Pop(n)) == OutlookOf(n).(app := Pop(n).app);
    OneLeads(n, OutlookOf(n), Pick, OutlookOf(Forward(Pop(n), d)));
  }

  // ---------- Hearing ----------

  /** A delivery is one plain step, and none of the message's number. */
  lemma DeliverGoes(n: Node, from: Ip, sn: nat, m: Message)
    requires from in n.cfg.mesh
    ensures Leads(n, OutlookOf(n), [Hand(from, m)], OutlookOf(Sidecar.Deliver(n, from, sn, m)))
  {
    var v, r := OutlookOf(n), Sidecar.Deliver(n, from, sn, m);
    SentLogsSame(n.cfg.mesh, n.peers, r.peers);
    HeardLogsMove(n.cfg.mesh, n.peers, r.peers, from, Rec(sn, m));
    OneLeads(n, v, Hand(from, m), OutlookOf(r));
  }

  lemma NothingGoes(n: Node, r: Node)
    requires OutlookOf(r) == OutlookOf(n)
    ensures Leads(n, OutlookOf(n), [], OutlookOf(r))
  {
  }

  function Hands(from: Ip, rs: seq<Rec>): seq<Step> {
    if rs == [] then [] else [Hand(from, rs[0].msg)] + Hands(from, rs[1..])
  }

  lemma {:induction false} DeliverAllGoes(n: Node, from: Ip, rs: seq<Rec>)
    requires from in n.cfg.mesh && !n.ctrl.active && PlainChannels(n.ctrl.channels) && PlainRecords(rs)
    ensures Leads(n, OutlookOf(n), Hands(from, rs), OutlookOf(DeliverAll(n, from, rs)))
    decreases |rs|
  {
    if rs == [] {
      NothingGoes(n, n);
    } else {
      var q := Sidecar.Deliver(n, from, rs[0].sn, rs[0].msg);
      ReplayDelivers(n, from, rs[0].sn, rs[0].msg);
      DeliverGoes(n, from, rs[0].sn, rs[0].msg);
      DeliverAllGoes(q, from, rs[1..]);
      LeadsOn(n, OutlookOf(n), [Hand(from, rs[0].msg)], OutlookOf(q), Hands(from, rs[1..]), OutlookOf(DeliverAll(q, from, rs[1..])));
    }
  }

  /** A flush is one plain delivery for each recorded message. */
  lemma {:induction false} ReplayGoes(n: Node, channels: map<Ip, seq<Rec>>, ks: seq<Ip>) returns (steps: seq<Step>)
    requires !n.ctrl.active && PlainChannels(n.ctrl.channels) && PlainChannels(channels)
    requires forall k :: k in ks ==> k in n.cfg.mesh
    ensures Leads(n, OutlookOf(n), steps, OutlookOf(Replay(n, channels, ks)))
    decreases |ks|
  {
    steps := [];
    if ks == [] {
      NothingGoes(n, n);
    } else if ks[0] in channels {
      var rs := SortBySeq(channels[ks[0]]);
      var q := DeliverAll(n, ks[0], rs);
      DeliverAllGoes(n, ks[0], rs);
      var rest := ReplayGoes(q, channels, ks[1..]);
      steps := Hands(ks[0], rs) + rest;
      LeadsOn(n, OutlookOf(n), Hands(ks[0], rs), OutlookOf(q), rest, OutlookOf(Replay(q, channels, ks[1..])));
    } else {
      steps := ReplayGoes(n, channels, ks[1..]);
    }
  }

  lemma FinishGoes(n: Node, status: Status) returns (steps: seq<Step>)
    requires ValidConfig(n.cfg) && PlainChannels(n.ctrl.channels)
    ensures Leads(n, OutlookOf(n), steps, OutlookOf(Finish(n, status)))
  {
    var n1 := Post(n, BuildArtifact(n.ctrl, status)).(ctrl := IDLE.(channels := n.ctrl.channels));
    forall k | k in n.cfg.order ensures k in n.cfg.mesh {
      assert k in SetOf(n.cfg.order);
    }
    steps := ReplayGoes(n1, n.ctrl.channels, n.cfg.order);
    var r := Replay(n1, n.ctrl.channels, n.cfg.order);
    assert Finish(n, status) == r.(ctrl := IDLE);
    SameOutlook(n, n1);
    SameOutlook(r, r.(ctrl := IDLE));
  }

  lemma AppendOutlook(n: Node, i: Ip, m: Message)
    ensures OutlookOf(Append(n, i, m)) == OutlookOf(n)
  {
    SameOutlook(n, Append(n, i, m));
  }

  lemma KeepGoes(n: Node, i: Ip, m: Message) returns (steps: seq<Step>)
    requires i in n.cfg.mesh
    ensures Leads(n, OutlookOf(n), steps, OutlookOf(Keep(n, i, m)))
  {
    steps := [];
    if m.payload.Marker? || (n.ctrl.active && i in n.ctrl.recording) {
      SameOutlook(n, Keep(n, i, m));
      NothingGoes(n, Keep(n, i, m));
    } else {
      DeliverGoes(n, i, |At(n.peers, i).got|, m);
      steps := [Hand(i, m)];
    }
  }

  /** Taking in a message that does not cut the app. */
  lemma TakeGoes(n: Node, i: Ip, m: Message) returns (steps: seq<Step>)
    requires ValidConfig(n.cfg) && PlainChannels(n.ctrl.channels) && i in n.cfg.mesh
    requires m.payload.Marker? ==> n.ctrl.active
    ensures Leads(n, OutlookOf(n), steps, OutlookOf(Take(n, i, m)))
  {
    TakeCases(n, i, m);
    if Stays(n, i, m) {
      steps := KeepGoes(n, i, m);
      AppendOutlook(Keep(n, i, m), i, m);
    } else {
      var n1 := n.(ctrl := Close(n.ctrl, i, |At(n.peers, i).got|));
      SameOutlook(n, n1);
      if n.ctrl.recording == {i} {
        steps := FinishGoes(n1, Complete);
        AppendOutlook(Finish(n1, Complete), i, m);
      } else {
        steps := [];
        NothingGoes(n, n1);
        AppendOutlook(n1, i, m);
      }
    }
  }

  // ---------- The cut ----------

  /** Right after the cut the app stands where its image does: what was broadcast is only markers. */
  lemma BeginOutlook(n: Node, remote: Ip, sn: nat, w: SnapshotId)
    requires ValidConfig(n.cfg) && SoundNode(n) && n.host.checkpointUp && n.host.images == []
    ensures var b := Begin(n, remote, sn, w);
            && IsCut(b) && OutlookOf(b) == OutlookThen(b) && b.cfg == n.cfg
            && (forall k :: ChannelOf(b.ctrl, k) == [])
            && (forall k :: At(n.peers, k).sent <= At(ImageOf(b).peers, k).sent)
  {
    var b := Begin(n, remote, sn, w);
    BeginBegun(n, remote, sn, w);
    BeginOpened(n, remote, sn, w);
    forall k
      ensures Unmarked(At(b.peers, k).sent) == Unmarked(At(b.ctrl.cut, k).sent)
      ensures At(b.peers, k).heard == At(b.ctrl.cut, k).heard
      ensures At(n.peers, k).sent <= At(b.ctrl.cut, k).sent
    {
      assert BegunAt(n, b, k, w);
      UnmarkedOne(At(b.ctrl.cut, k).sent, MarkerMessage(w));
    }
    MarkersUnseen(n.cfg.mesh, b.ctrl.cut, b.peers);
    HeardLogsSame(n.cfg.mesh, b.ctrl.cut, b.peers);
  }

  lemma InitiateOutlook(n: Node, remote: Ip, sn: nat, w: SnapshotId)
    requires ValidConfig(n.cfg) && SoundNode(n) && n.host.checkpointUp && n.host.images == []
    ensures var r := Initiate(n, remote, sn, w);
            && IsCut(r) && OutlookOf(r) == OutlookThen(r)
            && (forall k :: At(n.peers, k).sent <= At(ImageOf(r).peers, k).sent)
  {
    var b, r := Begin(n, remote, sn, w), Initiate(n, remote, sn, w);
    BeginOutlook(n, remote, sn, w);
    if b.ctrl.recording == {} {
      AllQuiet(b.ctrl);
      QuietFinish(b, Complete);
      SameOutlook(b, r);
    }
  }

  // ---------- Callbacks ----------

  /** Where a member stands at the start of a callback that ends in `r`: where its image does, if it is cut only then. */
  function Before(n: Node, r: Node): Member
    requires IsCut(n) || IsCut(r)
  {
    if IsCut(n) then OutlookOf(n) else OutlookThen(r)
  }

  /** A member that is cut in the end has gone there from where it stood, and its image has everything sent before. */
  ghost predicate Goes(n: Node, steps: seq<Step>, r: Node) {
    && r.cfg == n.cfg
    && (IsCut(n) ==> IsCut(r) && OutlookThen(r) == OutlookThen(n))
    && (IsCut(r) ==> Leads(n, Before(n, r), steps, OutlookOf(r)))
    && (IsCut(r) && !IsCut(n) ==> forall k :: At(n.peers, k).sent <= At(ImageOf(r).peers, k).sent)
  }

  lemma GoesOnFrom(n: Node, a: seq<Step>, q: Node, b: seq<Step>, r: Node) returns (steps: seq<Step>)
    requires Goes(n, a, q) && Goes(q, b, r) && forall k :: At(n.peers, k).sent <= At(q.peers, k).sent
    requires IsCut(q) && !IsCut(n) ==> ImageOf(r).peers == ImageOf(q).peers
    ensures Goes(n, steps, r)
  {
    steps := b;
    if IsCut(q) {
      steps := a + b;
      LeadsOn(n, Before(n, q), a, OutlookOf(q), b, OutlookOf(r));
    }
  }

  lemma TakeGoesOn(n: Node, i: Ip, m: Message, w: SnapshotId) returns (steps: seq<Step>)
    requires NodeInv(n) && WaveInv(n, w) && SoundNode(n) && i in n.cfg.mesh && PlainChannels(n.ctrl.channels)
    requires Timely(n, i, m, w) && WaveInv(Take(n, i, m), w)
    ensures Goes(n, steps, Take(n, i, m))
  {
    var r := Take(n, i, m);
    TimelyStays(n, i, m, w);
    steps := [];
    if m.payload.Marker? && !n.ctrl.active {
      TakeCases(n, i, m);
      InitiateOutlook(n, i, |At(n.peers, i).got|, w);
      AppendOutlook(Initiate(n, i, |At(n.peers, i).got|, w), i, m);
      NothingGoes(n, n);
    } else {
      if IsCut(n) {
        SameImages(n, r, w);
      } else {
        StaysUncut(n, i, m, w);
      }
      steps := TakeGoes(n, i, m);
    }
  }

  /** The checkpoint of the wave is the only one, so it stays. */
  lemma SameImages(n: Node, r: Node, w: SnapshotId)
    requires WaveInv(n, w) && WaveInv(r, w) && Keeps(n, r) && IsCut(n)
    ensures r.host.images == n.host.images
  {
  }

  lemma StaysUncut(n: Node, i: Ip, m: Message, w: SnapshotId)
    requires PhaseInv(n, w) && !IsCut(n) && !m.payload.Marker? && PlainChannels(n.ctrl.channels)
    ensures !IsCut(Take(n, i, m))
  {
    TakeCases(n, i, m);
  }

  /** The start of a callback may be described by any state that looks the same. */
  lemma GoesFrom(n: Node, q: Node, steps: seq<Step>, r: Node)
    requires Goes(q, steps, r) && q.cfg == n.cfg && q.host.images == n.host.images && OutlookOf(q) == OutlookOf(n)
    requires forall k :: At(q.peers, k).sent == At(n.peers, k).sent
    ensures Goes(n, steps, r)
  {
  }

  lemma TakeSends(n: Node, i: Ip, m: Message)
    requires PlainChannels(n.ctrl.channels)
    ensures forall k :: At(n.peers, k).sent <= At(Take(n, i, m).peers, k).sent
  {
    TakeLinks(n, i, m);
    forall k ensures At(n.peers, k).sent <= At(Take(n, i, m).peers, k).sent {
      assert k != i ==> SendsOn(At(n.peers, k), At(Take(n, i, m).peers, k));
    }
  }

  /** What the wave needs to know while a member empties its buffer. */
  ghost predicate Emptying(n: Node, i: Ip, log: seq<Message>, o: Option<nat>, w: SnapshotId) {
    && NodeInv(n) && WaveInv(n, w) && Accounted(n) && SoundNode(n) && UnbufferedElsewhere(n, i)
    && PlainChannels(n.ctrl.channels) && i in n.cfg.mesh
    && Fed(At(n.peers, i), log) && WaveLog(n, i, log, o, w) && OnlyWave(log, |At(n.peers, i).got|, w)
  }

  lemma Popped(n: Node, i: Ip, log: seq<Message>, o: Option<nat>, w: SnapshotId)
    requires Emptying(n, i, log, o, w) && !Unbuffered(At(n.peers, i))
    ensures var n1 := PopBuffer(n, i); var m := At(n.peers, i).buffer[|At(n.peers, i).got|];
            && NodeInv(n1) && WaveInv(n1, w) && Accounted(n1) && SoundNode(n1) && Unbuffered(At(n1.peers, i))
            && PlainChannels(n1.ctrl.channels) && Timely(n1, i, m, w) && Sound(m)
  {
    var p := At(n.peers, i);
    PopBufferInv(n, i);
    PopBufferWave(n, i, w);
    assert p.buffer[|p.got|] in log && log[|p.got|] == p.buffer[|p.got|];
    NextIsTimely(PopBuffer(n, i), i, log, o, w);
  }

  lemma Emptied(n: Node, i: Ip, log: seq<Message>, o: Option<nat>, w: SnapshotId)
    requires Emptying(n, i, log, o, w) && !Unbuffered(At(n.peers, i))
    ensures var m := At(n.peers, i).buffer[|At(n.peers, i).got|]; var n2 := Take(PopBuffer(n, i), i, m);
            && Emptying(n2, i, log, o, w) && |At(n2.peers, i).buffer| < |At(n.peers, i).buffer|
  {
    var n1 := PopBuffer(n, i);
    var m := At(n.peers, i).buffer[|At(n.peers, i).got|];
    Popped(n, i, log, o, w);
    TakeInv(n1, i, m);
    TakeBalance(n1, i, m);
    TakeWave(n1, i, m, w);
    TakeLinks(n1, i, m);
    PopElsewhere(n, i);
    TakeElsewhere(n1, i, m);
    PopTakeMoves(n, i, log);
  }

  lemma {:induction false} UnbufferGoes(n: Node, i: Ip, log: seq<Message>, o: Option<nat>, w: SnapshotId)
    returns (steps: seq<Step>)
    requires Emptying(n, i, log, o, w)
    ensures Goes(n, steps, Unbuffer(n, i))
    decreases |At(n.peers, i).buffer|
  {
    var p := At(n.peers, i);
    steps := [];
    if |p.got| in p.buffer {
      var n2 := Take(PopBuffer(n, i), i, p.buffer[|p.got|]);
      Emptied(n, i, log, o, w);
      var first := PopGoes(n, i, log, o, w);
      var rest := UnbufferGoes(n2, i, log, o, w);
      CutKept(n2, i, log, o, w);
      steps := GoesOnFrom(n, first, n2, rest, Unbuffer(n2, i));
    } else {
      NothingGoes(n, n);
    }
  }

  lemma PopGoes(n: Node, i: Ip, log: seq<Message>, o: Option<nat>, w: SnapshotId) returns (steps: seq<Step>)
    requires Emptying(n, i, log, o, w) && !Unbuffered(At(n.peers, i))
    ensures var n2 := Take(PopBuffer(n, i), i, At(n.peers, i).buffer[|At(n.peers, i).got|]);
            Goes(n, steps, n2) && forall k :: At(n.peers, k).sent <= At(n2.peers, k).sent
  {
    var n1 := PopBuffer(n, i);
    var m := At(n.peers, i).buffer[|At(n.peers, i).got|];
    Popped(n, i, log, o, w);
    Emptied(n, i, log, o, w);
    SameOutlook(n, n1);
    steps := TakeGoesOn(n1, i, m, w);
    TakeSends(n1, i, m);
    GoesFrom(n, n1, steps, Take(n1, i, m));
  }

  lemma CutKept(n: Node, i: Ip, log: seq<Message>, o: Option<nat>, w: SnapshotId)
    requires Emptying(n, i, log, o, w)
    ensures IsCut(n) ==> Unbuffer(n, i).host.images == n.host.images
  {
    UnbufferWave(n, i, log, o, w);
    if IsCut(n) {
      SameImages(n, Unbuffer(n, i), w);
    }
  }

  lemma InOrderGoes(n: Node, src: Ip, m: Message, log: seq<Message>, o: Option<nat>, w: SnapshotId) returns (steps: seq<Step>)
    requires Steady(n) && MemberWave(n, w) && SoundNode(n) && PlainChannels(n.ctrl.channels) && src in n.cfg.mesh
    requires Fed(At(n.peers, src), log) && WaveLog(n, src, log, o, w) && OnlyWave(log, |At(n.peers, src).got|, w)
    requires |At(n.peers, src).got| < |log| && log[|At(n.peers, src).got|] == m
    ensures Goes(n, steps, Unbuffer(Take(n, src, m), src))
  {
    var n2 := Take(n, src, m);
    WaveRun.FirstTaken(n, src, m, log, o, w);
    var first := TakeGoesOn(n, src, m, w);
    var rest := UnbufferGoes(n2, src, log, o, w);
    CutKept(n2, src, log, o, w);
    TakeSends(n, src, m);
    steps := GoesOnFrom(n, first, n2, rest, Unbuffer(n2, src));
  }

  /** A callback that changes neither the outlook nor what is stored. */
  lemma AsideGoes(n: Node, r: Node)
    requires r.cfg == n.cfg && r.host.images == n.host.images && OutlookOf(r) == OutlookOf(n)
    ensures Goes(n, [], r)
  {
    NothingGoes(n, r);
  }

  lemma DataGoes(n: Node, src: Ip, sn: nat, m: Message, log: seq<Message>, o: Option<nat>, w: SnapshotId)
    returns (steps: seq<Step>)
    requires Steady(n) && MemberWave(n, w) && SoundNode(n) && PlainChannels(n.ctrl.channels) && src in n.cfg.mesh
    requires Fed(At(n.peers, src), log) && WaveLog(n, src, log, o, w) && OnlyWave(log, |At(n.peers, src).got|, w)
    requires sn < |log| && log[sn] == m
    ensures Goes(n, steps, Receive(n, src, Data(sn, m)))
  {
    steps := [];
    if sn == |At(n.peers, src).got| {
      var n1 := Acknowledge(n, src, sn);
      AcknowledgedWave(n, src, sn, w);
      SameOutlook(n, n1);
      steps := InOrderGoes(n1, src, m, log, o, w);
      GoesFrom(n, n1, steps, Receive(n, src, Data(sn, m)));
    } else {
      DataWaits(n, src, sn, m);
      SameOutlook(n, Receive(n, src, Data(sn, m)));
      AsideGoes(n, Receive(n, src, Data(sn, m)));
    }
  }

  lemma AckGoes(n: Node, src: Ip, sn: nat)
    requires Steady(n) && PlainChannels(n.ctrl.channels)
    ensures Goes(n, [], Receive(n, src, Frame.Ack(sn)))
  {
    AckHeeds(n, src, sn);
    AckFrame(n, src, sn);
    SameOutlook(n, Receive(n, src, Frame.Ack(sn)));
    AsideGoes(n, Receive(n, src, Frame.Ack(sn)));
  }

  lemma OutsideGoes(n: Node, from: Ip, m: Message)
    requires PlainChannels(n.ctrl.channels) && from !in n.cfg.mesh && Sound(m) && Value(m) == 0
    ensures Goes(n, [Hear(from, m)], Receive(n, from, Frame.Plain(m)))
  {
    var r := Receive(n, from, Frame.Plain(m));
    SameOutlook(n, r.(app := n.app));
    OneLeads(n, OutlookOf(n), Hear(from, m), OutlookOf(r));
  }

  lemma RequestGoes(n: Node, w: SnapshotId) returns (steps: seq<Step>)
    requires Steady(n) && WaveInv(n, w) && SoundNode(n) && PlainChannels(n.ctrl.channels) && n.app.pending != []
    requires n.app.pending[0].payload == Start(w) && (n.ctrl.active || !IsCut(n))
    ensures Goes(n, steps, Intercept(n))
  {
    var q := Pop(n);
    PopWorth(n);
    AsideSteady(n, q);
    StartCases(q, w);
    steps := [];
    if n.ctrl.active {
      OneLeads(n, OutlookOf(n), Skip, OutlookOf(q));
      steps := [Skip];
    } else {
      InitiateOutlook(q, LOCALHOST, 0, w);
      NothingGoes(n, n);
    }
  }

  lemma ForwardGoes(n: Node)
    requires SoundNode(n) && PlainChannels(n.ctrl.channels) && n.app.pending != [] && !n.app.pending[0].payload.Start?
    ensures Goes(n, [Pick], Intercept(n))
  {
    PickGoes(n);
  }

  /** A local event. */
  lemma LocalGoes(n: Node, e: Event, w: SnapshotId) returns (steps: seq<Step>)
    requires Steady(n) && WaveInv(n, w) && SoundNode(n) && PlainChannels(n.ctrl.channels) && !e.Arrive?
    requires e.LocalSend? ==> SoundDatagram(e.datagram) && DatagramValue(e.datagram) == 0
    requires e.TimedOut? ==> !n.ctrl.active
    requires e.Intercepted? && n.app.pending != [] && n.app.pending[0].payload.Start? ==>
               n.app.pending[0].payload.id == w && (n.ctrl.active || !IsCut(n))
    ensures Goes(n, steps, React(n, e))
  {
    steps := [];
    if e.Intercepted? && n.app.pending != [] {
      if n.app.pending[0].payload.Start? {
        steps := RequestGoes(n, w);
      } else {
        ForwardGoes(n);
        steps := [Pick];
      }
    } else if e.LocalSend? {
      steps := [Say(e.datagram)];
      OneLeads(n, OutlookOf(n), Say(e.datagram), OutlookOf(React(n, e)));
    } else {
      SameOutlook(n, React(n, e));
      AsideGoes(n, React(n, e));
    }
  }
}
