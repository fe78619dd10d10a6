/** The recorded global state could have happened: a plain run, without any snapshot, leads to exactly it. */
module Reachable {
  import opened Mesh
  import opened Sidecar
  import opened Callbacks
  import opened Network
  import opened Conservation
  import opened Wave
  import opened WaveRun
  import opened ConsistentCut
  import opened Beginning
  import opened Plain
  import opened Shadow
  import opened Aftermath
  import opened Selfless
  import opened Throughout

  /** Every member that is cut stands where its image does; the others go on. */
  function ShadowWorld(s: System): World {
    World(s.mesh, map j | j in s.nodes :: ShadowOf(s.nodes[j]))
  }

  /** A plain run leads from `g` to `h`. */
  ghost predicate Plays(g: World, moves: seq<Move>, h: World) {
    AllPossible(g, moves) && Play(g, moves) == h
  }

  lemma PlaysOn(g: World, moves: seq<Move>, h: World, more: seq<Move>, k: World)
    requires Plays(g, moves, h) && Plays(h, more, k)
    ensures Plays(g, moves + more, k)
  {
    PlayAppend(g, moves, more);
  }

  // ---------- What a member has heard was sent, in the shadow as well ----------

  function ShadowSent(n: Node, k: Ip): seq<Message> {
    if IsCut(n) then At(ImageOf(n).peers, k).sent else At(n.peers, k).sent
  }

  function ShadowGot(n: Node, k: Ip): seq<Message> {
    if IsCut(n) then At(ImageOf(n).peers, k).got else At(n.peers, k).got
  }

  lemma ShadowAhead(s: System, w: SnapshotId, i: Ip, j: Ip)
    requires WaveSys(s, w) && i in s.nodes && j in s.nodes && i != j
    ensures ShadowGot(s.nodes[j], i) <= ShadowSent(s.nodes[i], j)
  {
    ShadowGotIsPast(s, w, i, j);
    if IsCut(s.nodes[i]) {
      NoOrphans(s, w, i, j);
    } else {
      Ahead(s, i, j);
    }
  }

  lemma ShadowGotIsPast(s: System, w: SnapshotId, i: Ip, j: Ip)
    requires WaveSys(s, w) && i in s.nodes && j in s.nodes
    ensures ShadowGot(s.nodes[j], i) <= Link(s, j, i).got
  {
    assert MemberWave(s.nodes[j], w) && WavePart(s.nodes[j], w, i);
  }

  /** From `s` to `t` only member `j` has changed, and it has taken in nothing from itself that it had not sent before. */
  ghost predicate OneMoved(s: System, t: System, j: Ip) {
    && t.mesh == s.mesh && j in s.nodes && j in t.nodes
    && (forall i :: i in s.nodes && i != j ==> i in t.nodes && t.nodes[i] == s.nodes[i])
    && Link(t, j, j).got <= Link(s, j, j).sent
  }

  lemma BackedOne(s: System, w: SnapshotId, t: System, j: Ip, i: Ip)
    requires WaveSys(s, w) && WaveSys(t, w) && OneMoved(s, t, j) && i in s.nodes && !IsCut(s.nodes[j])
    ensures ShadowGot(t.nodes[j], i) <= ShadowSent(s.nodes[i], j)
  {
    if i == j {
      ShadowGotIsPast(t, w, j, j);
    } else {
      ShadowAhead(t, w, i, j);
    }
  }

  lemma ShadowEntry(n: Node, k: Ip)
    requires k in n.cfg.mesh
    ensures var v := ShadowOf(n);
            && k in v.sent && v.sent[k] == Unmarked(ShadowSent(n, k))
            && k in v.got && v.got[k] == Unmarked(ShadowGot(n, k))
  {
    assert k in SetOf(n.cfg.mesh);
  }

  lemma BackedEntry(s: System, w: SnapshotId, t: System, j: Ip, i: Ip)
    requires WaveSys(s, w) && WaveSys(t, w) && OneMoved(s, t, j) && i in s.mesh && !IsCut(s.nodes[j])
    ensures i in s.nodes && i in ShadowOf(t.nodes[j]).got && j in ShadowOf(s.nodes[i]).sent
    ensures ShadowOf(t.nodes[j]).got[i] <= ShadowOf(s.nodes[i]).sent[j]
  {
    assert i in SetOf(s.mesh) && j in SetOf(s.mesh);
    assert MemberInv(s, i) && MemberInv(t, j);
    BackedOne(s, w, t, j, i);
    UnmarkedPrefix(ShadowGot(t.nodes[j], i), ShadowSent(s.nodes[i], j));
    ShadowEntry(t.nodes[j], i);
    ShadowEntry(s.nodes[i], j);
  }

  lemma ShadowKeys(n: Node, i: Ip)
    requires i in ShadowOf(n).got
    ensures i in n.cfg.mesh
  {
  }

  lemma ShadowBacked(s: System, w: SnapshotId, t: System, j: Ip, r: Member)
    requires WaveSys(s, w) && WaveSys(t, w) && OneMoved(s, t, j) && !IsCut(s.nodes[j])
    requires t.nodes[j].cfg.mesh == s.mesh && r == ShadowOf(t.nodes[j])
    ensures Backed(ShadowWorld(s), j, r)
  {
    var g := ShadowWorld(s);
    forall i | i in r.got ensures i in g.members && j in g.members[i].sent && r.got[i] <= g.members[i].sent[j] {
      ShadowKeys(t.nodes[j], i);
      BackedEntry(s, w, t, j, i);
    }
  }

  // ---------- Every action of the wave is a plain run of its shadow ----------

  lemma ShadowMoved(s: System, t: System, j: Ip, v: Member)
    requires t.mesh == s.mesh && j in s.nodes && t.nodes.Keys == s.nodes.Keys && ShadowOf(t.nodes[j]) == v
    requires forall i :: i in s.nodes && i != j ==> t.nodes[i] == s.nodes[i]
    ensures ShadowWorld(t) == ShadowWorld(s).(members := ShadowWorld(s).members[j := v])
  {
    assert ShadowWorld(t).members == ShadowWorld(s).members[j := v];
  }

  lemma LiftShadow(s: System, j: Ip, steps: seq<Step>, v: Member) returns (moves: seq<Move>)
    requires j in s.nodes && s.nodes[j].cfg.self == j && s.nodes[j].cfg.mesh == s.mesh
    requires Leads(s.nodes[j], ShadowOf(s.nodes[j]), steps, v) && Backed(ShadowWorld(s), j, v)
    ensures Plays(ShadowWorld(s), moves, ShadowWorld(s).(members := ShadowWorld(s).members[j := v]))
  {
    Lift(ShadowWorld(s), j, steps);
    moves := MovesOf(j, steps);
  }

  lemma PutShadow(s: System, j: Ip, r: Node, net: multiset<Packet>)
    requires j in s.nodes && At(r.peers, j).got <= Link(s, j, j).sent
    ensures var t := Put(s, j, r, net);
            && OneMoved(s, t, j) && t.nodes.Keys == s.nodes.Keys
            && t.nodes[j] == r.(tunnel := []) && ShadowOf(t.nodes[j]) == ShadowOf(r)
  {
  }

  lemma MemberPlays(s: System, w: SnapshotId, j: Ip, r: Node, net: multiset<Packet>, steps: seq<Step>)
    returns (moves: seq<Move>)
    requires WaveSys(s, w) && j in s.nodes && !IsCut(s.nodes[j]) && r.cfg == s.nodes[j].cfg
    requires WaveSys(Put(s, j, r, net), w)
    requires Leads(s.nodes[j], ShadowOf(s.nodes[j]), steps, ShadowOf(r))
    requires At(r.peers, j).got <= Link(s, j, j).sent
    ensures Plays(ShadowWorld(s), moves, ShadowWorld(Put(s, j, r, net)))
  {
    assert MemberInv(s, j);
    PutShadow(s, j, r, net);
    moves := MovedPlays(s, w, j, Put(s, j, r, net), steps);
  }

  lemma MovedPlays(s: System, w: SnapshotId, j: Ip, t: System, steps: seq<Step>) returns (moves: seq<Move>)
    requires WaveSys(s, w) && WaveSys(t, w) && OneMoved(s, t, j) && t.nodes.Keys == s.nodes.Keys && !IsCut(s.nodes[j])
    requires s.nodes[j].cfg.self == j && s.nodes[j].cfg.mesh == s.mesh && t.nodes[j].cfg == s.nodes[j].cfg
    requires Leads(s.nodes[j], ShadowOf(s.nodes[j]), steps, ShadowOf(t.nodes[j]))
    ensures Plays(ShadowWorld(s), moves, ShadowWorld(t))
  {
    ShadowBacked(s, w, t, j, ShadowOf(t.nodes[j]));
    moves := LiftShadow(s, j, steps, ShadowOf(t.nodes[j]));
    ShadowMoved(s, t, j, ShadowOf(t.nodes[j]));
  }

  /** A member that is cut moves nothing in the shadow. */
  lemma CutPlays(s: System, w: SnapshotId, j: Ip, r: Node, net: multiset<Packet>)
    requires WaveSys(s, w) && j in s.nodes && IsCut(s.nodes[j]) && r.cfg == s.nodes[j].cfg && Keeps(s.nodes[j], r)
    requires WaveSys(Put(s, j, r, net), w)
    ensures Plays(ShadowWorld(s), [], ShadowWorld(Put(s, j, r, net)))
  {
    var t := Put(s, j, r, net);
    assert MemberWave(s.nodes[j], w) && MemberWave(t.nodes[j], w);
    StandsStill(s, w, j, t);
  }

  lemma StandsStill(s: System, w: SnapshotId, j: Ip, t: System)
    requires t.mesh == s.mesh && j in s.nodes && t.nodes.Keys == s.nodes.Keys
    requires forall i :: i in s.nodes && i != j ==> t.nodes[i] == s.nodes[i]
    requires MemberWave(s.nodes[j], w) && MemberWave(t.nodes[j], w) && IsCut(s.nodes[j])
    requires t.nodes[j].cfg == s.nodes[j].cfg && Keeps(s.nodes[j], t.nodes[j])
    ensures Plays(ShadowWorld(s), [], ShadowWorld(t))
  {
    StoresOnce(s.nodes[j], t.nodes[j], w);
    ShadowSame(s.nodes[j], t.nodes[j]);
    ShadowMoved(s, t, j, ShadowOf(s.nodes[j]));
    assert ShadowWorld(s).members[j := ShadowOf(s.nodes[j])] == ShadowWorld(s).members;
  }

  lemma LocalPlays(s: System, j: Ip, e: Event, w: SnapshotId) returns (moves: seq<Move>)
    requires WaveSys(s, w) && Enabled(s, Local(j, e)) && InWave(s, Local(j, e), w)
    ensures Plays(ShadowWorld(s), moves, ShadowWorld(Apply(s, Local(j, e))))
  {
    var n, r := s.nodes[j], React(s.nodes[j], e);
    LocalInWave(s, j, e, w);
    moves := [];
    if IsCut(n) {
      CutPlays(s, w, j, r, s.net);
    } else {
      assert MemberInv(s, j) && MemberWave(n, w);
      LocalReacts(n, e);
      assert SendsOn(At(n.peers, j), At(r.peers, j));
      Ahead(s, j, j);
      var steps := LocalLeads(n, e, w);
      moves := MemberPlays(s, w, j, r, s.net, steps);
    }
  }

  lemma OutsidePlays(s: System, j: Ip, from: Ip, m: Message, w: SnapshotId) returns (moves: seq<Move>)
    requires WaveSys(s, w) && Enabled(s, Outside(j, from, m))
    ensures Plays(ShadowWorld(s), moves, ShadowWorld(Apply(s, Outside(j, from, m))))
  {
    var n, r := s.nodes[j], React(s.nodes[j], Arrive(from, Frame.Plain(m)));
    OutsideInWave(s, j, from, m, w);
    moves := [];
    if IsCut(n) {
      CutPlays(s, w, j, r, s.net);
    } else {
      assert MemberInv(s, j) && MemberWave(n, w);
      OutsideReacts(n, from, m);
      assert SendsOn(At(n.peers, j), At(r.peers, j));
      Ahead(s, j, j);
      OutsideLeads(n, from, m);
      moves := MemberPlays(s, w, j, r, s.net, [Hear(from, m)]);
    }
  }

  lemma DataPlays(s: System, p: Packet, w: SnapshotId) returns (moves: seq<Move>)
    requires WaveSys(s, w) && Enabled(s, Action.Deliver(p)) && p.frame.Data?
    ensures Plays(ShadowWorld(s), moves, ShadowWorld(Apply(s, Action.Deliver(p))))
  {
    var j, src := p.dst, p.src;
    var n, r := s.nodes[j], React(s.nodes[j], Arrive(src, p.frame));
    DataInWave(s, p, w);
    moves := [];
    if IsCut(n) {
      CutPlays(s, w, j, r, s.net - multiset{p});
    } else {
      var steps := DataSteps(s, p, w);
      moves := MemberPlays(s, w, j, r, s.net - multiset{p}, steps);
    }
  }

  lemma DataSteps(s: System, p: Packet, w: SnapshotId) returns (steps: seq<Step>)
    requires WaveSys(s, w) && Enabled(s, Action.Deliver(p)) && p.frame.Data? && !IsCut(s.nodes[p.dst])
    ensures var n, r := s.nodes[p.dst], React(s.nodes[p.dst], Arrive(p.src, p.frame));
            && r.cfg == n.cfg && Leads(n, ShadowOf(n), steps, ShadowOf(r))
            && At(r.peers, p.dst).got <= Link(s, p.dst, p.dst).sent
  {
    var j, src := p.dst, p.src;
    var n, r := s.nodes[j], React(s.nodes[j], Arrive(src, p.frame));
    assert PacketInv(s, p) && MemberInv(s, j) && MemberWave(n, w);
    DataKeeps(s, p);
    LinkOf(s, src, j);
    LogOf(s, src, j, w);
    Ahead(s, j, j);
    assert j != src ==> SendsOn(At(n.peers, j), At(r.peers, j));
    assert src in SetOf(s.mesh);
    assert OnlyWave(Link(s, src, j).sent, |Link(s, j, src).got|, w);
    steps := DataLeads(n, src, p.frame.sn, p.frame.msg, Link(s, src, j).sent, SendCut(s.nodes[src], j), w);
  }

  lemma AckPlays(s: System, p: Packet, w: SnapshotId) returns (moves: seq<Move>)
    requires WaveSys(s, w) && Enabled(s, Action.Deliver(p)) && p.frame.Ack?
    ensures Plays(ShadowWorld(s), moves, ShadowWorld(Apply(s, Action.Deliver(p))))
  {
    var j := p.dst;
    var n, r := s.nodes[j], React(s.nodes[j], Arrive(p.src, p.frame));
    AckInWave(s, p, w);
    moves := [];
    if IsCut(n) {
      CutPlays(s, w, j, r, s.net - multiset{p});
    } else {
      AckSteps(s, p);
      moves := MemberPlays(s, w, j, r, s.net - multiset{p}, []);
    }
  }

  lemma AckSteps(s: System, p: Packet)
    requires Inv(s) && Enabled(s, Action.Deliver(p)) && p.frame.Ack? && !IsCut(s.nodes[p.dst])
    ensures var n, r := s.nodes[p.dst], React(s.nodes[p.dst], Arrive(p.src, p.frame));
            && r.cfg == n.cfg && Leads(n, ShadowOf(n), [], ShadowOf(r))
            && At(r.peers, p.dst).got <= Link(s, p.dst, p.dst).sent
  {
    assert MemberInv(s, p.dst);
    AckHeeds(s.nodes[p.dst], p.src, p.frame.sn);
    Ahead(s, p.dst, p.dst);
    AckLeads(s.nodes[p.dst], p.src, p.frame.sn);
  }

  lemma ApplyPlays(s: System, a: Action, w: SnapshotId) returns (moves: seq<Move>)
    requires WaveSys(s, w) && Enabled(s, a) && InWave(s, a, w)
    ensures Plays(ShadowWorld(s), moves, ShadowWorld(Apply(s, a)))
  {
    match a
    case Local(j, e) => moves := LocalPlays(s, j, e, w);
    case Outside(j, from, m) => moves := OutsidePlays(s, j, from, m, w);
    case Deliver(p) =>
      assert PacketInv(s, p);
      if p.frame.Data? {
        moves := DataPlays(s, p, w);
      } else {
        moves := AckPlays(s, p, w);
      }
    case Lose(p) =>
      moves := [];
      assert ShadowWorld(Apply(s, a)) == ShadowWorld(s);
    case Repeat(p) =>
      moves := [];
      assert ShadowWorld(Apply(s, a)) == ShadowWorld(s);
  }

  /** Every run of the wave, seen through its cut, is a run of the plain mesh. */
  lemma {:induction false} RunPlays(s: System, run: seq<Action>, w: SnapshotId) returns (t: System, moves: seq<Move>)
    requires WaveSys(s, w) && LegalWave(s, run, w)
    ensures Legal(s, run) && t == Run(s, run) && WaveSys(t, w)
    ensures Plays(ShadowWorld(s), moves, ShadowWorld(t))
    decreases |run|
  {
    LegalWaveIsLegal(s, run, w);
    RunInWave(s, run, w);
    t := Run(s, run);
    moves := [];
    if run != [] {
      var s1 := Apply(s, run[0]);
      var first := ApplyPlays(s, run[0], w);
      ApplyInWave(s, run[0], w);
      var t1, rest := RunPlays(s1, run[1..], w);
      moves := first + rest;
      PlaysOn(ShadowWorld(s), first, ShadowWorld(s1), rest, ShadowWorld(t1));
    }
  }

  // ---------- Where the plain run starts and ends ----------

  lemma {:induction false} UnmarkedIdentity(ms: seq<Message>)
    requires forall m :: m in ms ==> !m.payload.Marker?
    ensures Unmarked(ms) == ms
    decreases |ms|
  {
    if ms != [] {
      UnmarkedIdentity(ms[..|ms| - 1]);
    }
  }

  /** The plain mesh that has the live apps, and the live channels without their markers. */
  ghost predicate IsLive(g: World, s: System) {
    && g.mesh == s.mesh && g.members.Keys == s.nodes.Keys
    && forall j :: j in s.nodes ==> g.members[j] == ViewOf(s.nodes[j])
  }

  /** What the image had sent to its own member, and that had not taken in; a channel to oneself is not recorded. */
  function SelfRest(n: Node): seq<Message>
    requires IsCut(n)
  {
    var c := At(ImageOf(n).peers, n.cfg.self);
    var sent, got := Unmarked(c.sent), Unmarked(c.got);
    if got <= sent then sent[|got|..] else []
  }

  /**
   * The plain mesh whose apps are the images, and whose channels hold what was recorded; that of a member to itself
   * holds what is on its way there.
   */
  ghost predicate IsRecorded(g: World, s: System)
    requires FullyRecorded(s)
  {
    && g.mesh == s.mesh && g.members.Keys == s.nodes.Keys
    && (forall j :: j in s.nodes ==>
          g.members[j].app == ImageOf(s.nodes[j]).app && g.members[j].exits == ImageOf(s.nodes[j]).exits)
    && (forall i, j :: i in s.nodes && j in s.nodes && i != j ==> Carries(g, i, j, MessagesIn(StoredChannel(s, i, j))))
    && (forall i :: i in s.nodes ==> Carries(g, i, i, SelfRest(s.nodes[i])))
  }

  /** The plain mesh that is stored: its apps are the images, and each of its channels, to whomever, is the stored one. */
  ghost predicate IsStored(g: World, s: System)
    requires FullyRecorded(s)
  {
    && IsRecorded(g, s)
    && (forall i, j :: i in s.nodes && j in s.nodes ==> Carries(g, i, j, MessagesIn(StoredChannel(s, i, j))))
  }

  /** The recorded mesh is the stored one if and only if nothing was on its way from a member to itself. */
  lemma RecordedIsStored(g: World, s: System, w: SnapshotId)
    requires WaveSys(s, w) && AllDone(s) && FullyRecorded(s) && IsRecorded(g, s)
    ensures IsStored(g, s) <==> forall i :: i in s.nodes ==> SelfRest(s.nodes[i]) == []
  {
    forall i | i in s.nodes
      ensures Carries(g, i, i, MessagesIn(StoredChannel(s, i, i))) <==> SelfRest(s.nodes[i]) == []
    {
      SelfStored(g, s, w, i);
    }
    SelfAndOthers(g, s);
  }

  lemma SelfStored(g: World, s: System, w: SnapshotId, i: Ip)
    requires WaveSys(s, w) && AllDone(s) && i in s.nodes && IsCut(s.nodes[i]) && Carries(g, i, i, SelfRest(s.nodes[i]))
    ensures Carries(g, i, i, MessagesIn(StoredChannel(s, i, i))) <==> SelfRest(s.nodes[i]) == []
  {
    SelfNotStored(s, w, i);
    CarriesNothing(g, i, SelfRest(s.nodes[i]));
  }

  lemma CarriesNothing(g: World, i: Ip, ms: seq<Message>)
    requires Carries(g, i, i, ms)
    ensures Carries(g, i, i, MessagesIn([])) <==> ms == []
  {
    assert MessagesIn([]) == [];
    assert g.members[i].got[i] + [] == g.members[i].got[i];
    assert |g.members[i].sent[i]| == |g.members[i].got[i]| + |ms|;
  }

  lemma SelfAndOthers(g: World, s: System)
    requires FullyRecorded(s) && IsRecorded(g, s)
    ensures IsStored(g, s) <==> forall i :: i in s.nodes ==> Carries(g, i, i, MessagesIn(StoredChannel(s, i, i)))
  {
  }

  ghost predicate FullyRecorded(s: System) {
    forall j :: j in s.nodes ==> IsCut(s.nodes[j]) && IsDone(s.nodes[j])
  }

  /** The channel from `i` to `j` holds exactly `ms`. */
  ghost predicate Carries(g: World, i: Ip, j: Ip, ms: seq<Message>) {
    && i in g.members && j in g.members && j in g.members[i].sent && i in g.members[j].got
    && g.members[i].sent[j] == g.members[j].got[i] + ms
  }

  lemma ReadyIsUncut(n: Node, w: SnapshotId)
    requires ReadyNode(n, w)
    ensures !IsCut(n)
  {
  }

  lemma UncutIsLive(s: System)
    requires forall j :: j in s.nodes ==> !IsCut(s.nodes[j])
    ensures IsLive(ShadowWorld(s), s)
  {
  }

  lemma ReadyIsLive(s: System, w: SnapshotId)
    requires forall j :: j in s.nodes ==> ReadyNode(s.nodes[j], w)
    ensures IsLive(ShadowWorld(s), s)
  {
    forall j | j in s.nodes ensures !IsCut(s.nodes[j]) {
      ReadyIsUncut(s.nodes[j], w);
    }
    UncutIsLive(s);
  }

  lemma DoneCarries(s: System, w: SnapshotId, i: Ip, j: Ip)
    requires WaveSys(s, w) && AllDone(s) && i in s.nodes && j in s.nodes && i != j
    ensures Carries(ShadowWorld(s), i, j, MessagesIn(StoredChannel(s, i, j)))
  {
    ChannelExact(s, w, i, j);
    assert MemberInv(s, i) && MemberInv(s, j) && i in SetOf(s.mesh) && j in SetOf(s.mesh);
    ShadowEntry(s.nodes[i], j);
    ShadowEntry(s.nodes[j], i);
    var sent, got := ShadowSent(s.nodes[i], j), ShadowGot(s.nodes[j], i);
    NumberedCarries(sent, got, StoredChannel(s, i, j));
  }

  lemma NumberedCarries(sent: seq<Message>, got: seq<Message>, rs: seq<Rec>)
    requires got <= sent && rs == Numbered(sent, |got|, |sent|) && forall r :: r in rs ==> !r.msg.payload.Marker?
    ensures Unmarked(sent) == Unmarked(got) + MessagesIn(rs)
  {
    var rest := sent[|got|..];
    assert sent == got + rest;
    UnmarkedAppend(got, rest);
    assert MessagesIn(rs) == rest;
    forall m | m in rest ensures !m.payload.Marker? {
      var x :| 0 <= x < |rest| && rest[x] == m;
      assert rs[x] in rs && rs[x].msg == m;
    }
    UnmarkedIdentity(rest);
  }

  lemma ShadowApps(s: System)
    requires FullyRecorded(s)
    ensures var g := ShadowWorld(s);
            && g.mesh == s.mesh && g.members.Keys == s.nodes.Keys
            && forall j :: j in s.nodes ==>
                 g.members[j].app == ImageOf(s.nodes[j]).app && g.members[j].exits == ImageOf(s.nodes[j]).exits
  {
  }

  lemma SelfCarries(s: System, w: SnapshotId, i: Ip)
    requires WaveSys(s, w) && i in s.nodes && IsCut(s.nodes[i]) && Sensible(ShadowWorld(s))
    ensures Carries(ShadowWorld(s), i, i, SelfRest(s.nodes[i]))
  {
    assert MemberInv(s, i) && i in SetOf(s.mesh);
    RestCarried(ShadowWorld(s), s.nodes[i]);
  }

  lemma RestCarried(g: World, n: Node)
    requires n.cfg.self in n.cfg.mesh && IsCut(n) && n.cfg.self in g.members && g.members[n.cfg.self] == ShadowOf(n)
    requires Queue(g, n.cfg.self, n.cfg.self)
    ensures Carries(g, n.cfg.self, n.cfg.self, SelfRest(n))
  {
    ShadowEntry(n, n.cfg.self);
    SplitQueue(Unmarked(ShadowSent(n, n.cfg.self)), Unmarked(ShadowGot(n, n.cfg.self)));
  }

  lemma SplitQueue(sent: seq<Message>, got: seq<Message>)
    requires got <= sent
    ensures sent == got + sent[|got|..]
  {
  }

  lemma DoneIsRecorded(s: System, w: SnapshotId)
    requires WaveSys(s, w) && AllDone(s) && Sensible(ShadowWorld(s))
    ensures FullyRecorded(s) && IsRecorded(ShadowWorld(s), s)
  {
    DoneIsCut(s, w);
    ShadowApps(s);
    forall i, j | i in s.nodes && j in s.nodes && i != j
      ensures Carries(ShadowWorld(s), i, j, MessagesIn(StoredChannel(s, i, j)))
    {
      DoneCarries(s, w, i, j);
    }
    forall i | i in s.nodes ensures Carries(ShadowWorld(s), i, i, SelfRest(s.nodes[i])) {
      SelfCarries(s, w, i);
    }
  }

  /** A mesh between waves is a plain mesh in order. */
  lemma LiveSensible(s: System)
    requires Inv(s) && forall j :: j in s.nodes ==> !IsCut(s.nodes[j])
    ensures Sensible(ShadowWorld(s))
  {
    forall i, j | i in s.nodes && j in s.nodes ensures Queue(ShadowWorld(s), i, j) {
      LiveQueue(s, i, j);
    }
  }

  lemma LiveQueue(s: System, i: Ip, j: Ip)
    requires Inv(s) && i in s.nodes && j in s.nodes && !IsCut(s.nodes[i]) && !IsCut(s.nodes[j])
    ensures Queue(ShadowWorld(s), i, j)
  {
    assert MemberInv(s, i) && MemberInv(s, j) && i in SetOf(s.mesh) && j in SetOf(s.mesh);
    ShadowEntry(s.nodes[i], j);
    ShadowEntry(s.nodes[j], i);
    Ahead(s, i, j);
    UnmarkedPrefix(ShadowGot(s.nodes[j], i), ShadowSent(s.nodes[i], j));
  }

  /**
   * From a mesh between waves, whatever the network did to its datagrams, a wave that is done everywhere has recorded a
   * state that the plain mesh reaches, by `moves`, from the very state the run began in. What is stored is that state if
   * and only if nothing was on its way from a member to itself.
   */
  lemma RecordedIsReachable(s: System, run: seq<Action>, w: SnapshotId)
    returns (t: System, g: World, moves: seq<Move>, h: World)
    requires ReadyFor(s, w) && LegalWave(s, run, w)
    ensures Legal(s, run) && t == Run(s, run) && WaveSys(t, w)
    ensures IsLive(g, s) && Plays(g, moves, h)
    ensures AllDone(t) ==> FullyRecorded(t) && IsRecorded(h, t)
    ensures AllDone(t) ==> (IsStored(h, t) <==> forall i :: i in t.nodes ==> SelfRest(t.nodes[i]) == [])
  {
    ReadyBegins(s, w);
    ReadyIsLive(s, w);
    ReadySensible(s, w);
    t, moves := RunPlays(s, run, w);
    g, h := ShadowWorld(s), ShadowWorld(t);
    PlaySensible(g, moves);
    if AllDone(t) {
      DoneIsRecorded(t, w);
      RecordedIsStored(h, t, w);
    }
  }

  lemma ReadySensible(s: System, w: SnapshotId)
    requires ReadyFor(s, w)
    ensures Sensible(ShadowWorld(s))
  {
    forall j | j in s.nodes ensures !IsCut(s.nodes[j]) {
      ReadyIsUncut(s.nodes[j], w);
    }
    LiveSensible(s);
  }

  // ---------- When no member addresses itself ----------

  lemma NothingToSelf(s: System, w: SnapshotId, i: Ip)
    requires WaveSys(s, w) && i in s.nodes && IsCut(s.nodes[i]) && AllSpare(s, i, true)
    ensures SelfRest(s.nodes[i]) == []
  {
    assert MemberInv(s, i) && Spares(s.nodes[i], i, true);
    SelfLogs(s, w, i);
    EmptyLog(Link(s, i, i).sent, i);
  }

  lemma EmptyLog(ms: seq<Message>, i: Ip)
    requires forall m :: m in ms ==> Allowed(m, i, i, true)
    ensures ms == []
  {
    var first := if ms == [] then MarkerMessage([]) else ms[0];
    assert !Allowed(first, i, i, true);
  }

  /**
   * If no process at a member addresses that member, and no TRANSFER names the member it is sent to, then what is stored
   * is outright a state that the plain mesh reaches.
   */
  lemma StoredIsReachable(s: System, run: seq<Action>, w: SnapshotId)
    returns (t: System, g: World, moves: seq<Move>, h: World)
    requires ReadyFor(s, w) && LegalWave(s, run, w)
    requires forall j :: AllSpare(s, j, true) && NeverBids(run, j, true)
    ensures Legal(s, run) && t == Run(s, run) && WaveSys(t, w)
    ensures IsLive(g, s) && Plays(g, moves, h)
    ensures AllDone(t) ==> FullyRecorded(t) && IsStored(h, t)
  {
    t, g, moves, h := RecordedIsReachable(s, run, w);
    if AllDone(t) {
      forall i | i in t.nodes ensures SelfRest(t.nodes[i]) == [] {
        RunSpares(s, run, i, true);
        NothingToSelf(t, w, i);
      }
    }
  }
}
