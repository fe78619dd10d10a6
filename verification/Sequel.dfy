/**
 * The other half of the snapshot theorem: from the recorded state the plain mesh can go on to the state the live mesh is
 * in when the wave is done, if its channels are bags. Over queues it cannot always, since a flush may change the order.
 */
module Sequel {
  import opened Wrappers
  import opened Mesh
  import opened Sidecar
  import opened Bookkeeping
  import opened Callbacks
  import opened Network
  import opened Conservation
  import opened Wave
  import opened WaveRun
  import opened ConsistentCut
  import opened Completion
  import opened Beginning
  import opened Plain
  import opened Bags
  import opened Shadow
  import opened Aftermath
  import opened Reachable

  // ---------- What an app has heard was taken in ----------

  lemma {:induction false} RecordedMessages(got: seq<Message>, hi: nat)
    requires hi <= |got|
    ensures MessagesIn(Recorded(got, 0, hi)) == Unmarked(got[..hi])
    decreases hi
  {
    if hi > 0 {
      RecordedMessages(got, hi - 1);
      assert got[..hi][..hi - 1] == got[..hi - 1];
      MessagesAppend(Recorded(got, 0, hi - 1), Rec(hi - 1, got[hi - 1]));
    }
  }

  lemma MessagesAppend(rs: seq<Rec>, r: Rec)
    ensures MessagesIn(rs + [r]) == MessagesIn(rs) + [r.msg]
  {
  }

  lemma MessagesWithout(qs: seq<Rec>, x: nat)
    requires x < |qs|
    ensures multiset(qs) == multiset(qs[..x] + qs[x + 1..]) + multiset{qs[x]}
    ensures multiset(MessagesIn(qs)) == multiset(MessagesIn(qs[..x] + qs[x + 1..])) + multiset{qs[x].msg}
  {
    var rest, ms := qs[..x] + qs[x + 1..], MessagesIn(qs);
    assert qs == qs[..x] + [qs[x]] + qs[x + 1..];
    assert ms == ms[..x] + [ms[x]] + ms[x + 1..];
    assert MessagesIn(rest) == ms[..x] + ms[x + 1..];
  }

  lemma WithoutBoth(a: multiset<Rec>, b: multiset<Rec>, r: Rec)
    requires a + multiset{r} <= b + multiset{r}
    ensures a <= b
  {
    forall x ensures a[x] <= b[x] {
      assert (a + multiset{r})[x] <= (b + multiset{r})[x];
    }
  }

  lemma {:induction false} FewerMessages(rs: seq<Rec>, qs: seq<Rec>)
    requires multiset(rs) <= multiset(qs)
    ensures multiset(MessagesIn(rs)) <= multiset(MessagesIn(qs))
    decreases |rs|
  {
    if rs != [] {
      var init, last := rs[..|rs| - 1], rs[|rs| - 1];
      assert rs == init + [last];
      assert last in multiset(qs);
      var x :| 0 <= x < |qs| && qs[x] == last;
      MessagesWithout(qs, x);
      WithoutBoth(multiset(init), multiset(qs[..x] + qs[x + 1..]), last);
      FewerMessages(init, qs[..x] + qs[x + 1..]);
      MessagesAppend(init, last);
    }
  }

  lemma SameMessages(rs: seq<Rec>, qs: seq<Rec>)
    requires multiset(rs) == multiset(qs)
    ensures multiset(MessagesIn(rs)) == multiset(MessagesIn(qs))
  {
    FewerMessages(rs, qs);
    FewerMessages(qs, rs);
  }

  lemma OpenFewer(p: Peer, c: Peer, channel: seq<Rec>)
    requires OpenAt(p, c, channel) && HeardAll(c)
    ensures multiset(p.heard) <= multiset(Recorded(p.got, 0, |p.got|))
  {
    RecordedPrefix(c.got, p.got, 0, |c.got|);
    RecordedSplit(p.got, 0, |c.got|, |p.got|);
  }

  lemma ClosedFewer(p: Peer, c: Peer, channel: seq<Rec>, r: nat, id: SnapshotId)
    requires ClosedAt(p, c, channel, r, id) && HeardAll(c)
    ensures multiset(p.heard) <= multiset(Recorded(p.got, 0, |p.got|))
  {
    RecordedPrefix(c.got, p.got, 0, |c.got|);
    RecordedSplit(p.got, 0, |c.got|, |p.got|);
    RecordedSplit(p.got, |c.got|, r, |p.got|);
  }

  lemma HeardFewer(n: Node, k: Ip)
    requires NodeInv(n)
    ensures var p := At(n.peers, k); multiset(p.heard) <= multiset(Recorded(p.got, 0, |p.got|))
  {
    var p, c := At(n.peers, k), At(n.ctrl.cut, k);
    assert PartInv(n, k);
    if n.ctrl.active && k in Peers(n.cfg) {
      if k in n.ctrl.recording {
        OpenFewer(p, c, n.ctrl.channels[k]);
      } else {
        ClosedFewer(p, c, n.ctrl.channels[k], n.ctrl.recvCut[k], n.ctrl.id.value);
      }
    }
  }

  /** What the app has heard from `k` are messages that were taken in from there, each at most as often. */
  lemma HeardWasTaken(n: Node, k: Ip)
    requires NodeInv(n)
    ensures multiset(MessagesIn(At(n.peers, k).heard)) <= multiset(Unmarked(At(n.peers, k).got))
  {
    var p := At(n.peers, k);
    HeardFewer(n, k);
    FewerMessages(p.heard, Recorded(p.got, 0, |p.got|));
    RecordedMessages(p.got, |p.got|);
    assert p.got[..|p.got|] == p.got;
  }

  // ---------- The mesh after the cut ----------

  /** `t` is where the wave ends, with everyone cut; members not cut in `s` stand where their images will. */
  function AfterWorld(s: System, t: System): World
    requires s.nodes.Keys == t.nodes.Keys && forall j :: j in t.nodes ==> IsCut(t.nodes[j])
  {
    World(s.mesh, map j | j in s.nodes :: AfterOf(s.nodes[j], t.nodes[j]))
  }

  function AfterOf(n: Node, end: Node): Member
    requires IsCut(end)
  {
    if IsCut(n) then OutlookOf(n) else OutlookThen(end)
  }

  /** The wave may get from `s` to `t`: cuts taken are kept, and logs only grow. */
  ghost predicate Towards(s: System, t: System) {
    && s.nodes.Keys == t.nodes.Keys && s.mesh == t.mesh
    && (forall j :: j in t.nodes ==> IsCut(t.nodes[j]))
    && (forall j :: j in s.nodes && IsCut(s.nodes[j]) ==> t.nodes[j].host.images == s.nodes[j].host.images)
    && (forall i, j :: i in s.nodes && j in s.nodes ==> Link(s, i, j).sent <= Link(t, i, j).sent)
  }

  lemma MarkerBounds(sent: seq<Message>, more: seq<Message>, before: seq<Message>, m: nat, w: SnapshotId)
    requires sent <= more && before <= more && MarkedAt(sent, None, w) && MarkedAt(more, Some(m), w) && m == |before| + 1
    ensures sent <= before
  {
    MarkersMeet(more, Some(m), sent, None, w);
  }

  /** The log from `i` to `j` has the marker right behind what the image had sent. */
  ghost predicate MarksImage(t: System, i: Ip, j: Ip, w: SnapshotId)
    requires i in t.nodes && IsCut(t.nodes[i])
  {
    var c := At(ImageOf(t.nodes[i]).peers, j);
    c.sent <= Link(t, i, j).sent && MarkedAt(Link(t, i, j).sent, Some(|c.sent| + 1), w)
  }

  /** What has to be known of the end of the wave. */
  ghost predicate Ended(t: System, w: SnapshotId) {
    && (forall j :: j in t.nodes ==> IsCut(t.nodes[j]) && t.nodes[j].cfg.mesh == t.mesh)
    && (forall i, j :: i in t.nodes && j in t.nodes && i != j ==> MarksImage(t, i, j, w))
  }

  lemma DoneHasEnded(t: System, w: SnapshotId)
    requires WaveSys(t, w) && AllDone(t)
    ensures Ended(t, w)
  {
    DoneIsCut(t, w);
    forall j | j in t.nodes ensures t.nodes[j].cfg.mesh == t.mesh {
      assert MemberInv(t, j);
    }
    forall i, j | i in t.nodes && j in t.nodes && i != j ensures MarksImage(t, i, j, w) {
      SentMarked(t, w, i, j);
      SendCutIsImage(t, w, i, j);
    }
  }

  /** Before its cut a member has sent nothing that its image will not hold as sent. */
  lemma UncutSent(s: System, t: System, w: SnapshotId, i: Ip, j: Ip)
    requires WaveSys(s, w) && Ended(t, w) && Towards(s, t)
    requires i in s.nodes && j in s.nodes && i != j && !IsCut(s.nodes[i])
    ensures Link(s, i, j).sent <= At(ImageOf(t.nodes[i]).peers, j).sent
  {
    SentMarked(s, w, i, j);
    UnsentMarker(s, w, i, j);
    assert MarksImage(t, i, j, w);
    MarkerBounds(Link(s, i, j).sent, Link(t, i, j).sent, At(ImageOf(t.nodes[i]).peers, j).sent,
                 |At(ImageOf(t.nodes[i]).peers, j).sent| + 1, w);
  }

  function AfterSent(n: Node, end: Node, k: Ip): seq<Message>
    requires IsCut(end)
  {
    if IsCut(n) then At(n.peers, k).sent else At(ImageOf(end).peers, k).sent
  }

  lemma AfterEntry(n: Node, end: Node, k: Ip)
    requires IsCut(end) && end.cfg.mesh == n.cfg.mesh && k in n.cfg.mesh
    ensures k in AfterOf(n, end).sent && AfterOf(n, end).sent[k] == Unmarked(AfterSent(n, end, k))
  {
    assert k in SetOf(n.cfg.mesh);
  }

  lemma HeardEntry(n: Node, k: Ip)
    requires k in OutlookOf(n).got
    ensures k in n.cfg.mesh && OutlookOf(n).got[k] == MessagesIn(At(n.peers, k).heard)
  {
  }

  /** In `s` member `j` takes one callback, after which it is `r`. */
  ghost predicate MovedOnly(s: System, s1: System, j: Ip, r: Node) {
    && s1.mesh == s.mesh && j in s.nodes && s1.nodes.Keys == s.nodes.Keys && s1.nodes[j] == r.(tunnel := [])
    && (forall i :: i in s.nodes && i != j ==> s1.nodes[i] == s.nodes[i])
    && At(r.peers, j).got <= Link(s, j, j).sent
  }

  /** What `r` has from `i`, in histories and in what was heard, is backed by what `i` has sent in the world after the cut. */
  ghost predicate Backs(s: System, t: System, j: Ip, r: Node, i: Ip) {
    && i in s.nodes && i in t.nodes && IsCut(t.nodes[i]) && t.nodes[i].cfg.mesh == s.nodes[i].cfg.mesh
    && j in s.nodes[i].cfg.mesh
    && At(r.peers, i).got <= AfterSent(s.nodes[i], t.nodes[i], j)
    && multiset(MessagesIn(At(r.peers, i).heard)) <= multiset(Unmarked(At(r.peers, i).got))
  }

  lemma GotFromOther(s: System, w: SnapshotId, s1: System, t: System, j: Ip, r: Node, i: Ip)
    requires WaveSys(s, w) && Inv(s1) && Ended(t, w) && Towards(s, t)
    requires MovedOnly(s, s1, j, r) && i in s.nodes && i != j
    ensures At(r.peers, i).got <= AfterSent(s.nodes[i], t.nodes[i], j)
  {
    Ahead(s1, i, j);
    OtherSent(s, t, w, i, j);
  }

  lemma SelfWasSent(n: Node, end: Node, r: Node, steps: seq<Step>, j: Ip)
    requires Goes(n, steps, r) && IsCut(r) && IsCut(end) && end.host.images == r.host.images
    requires At(r.peers, j).got <= At(n.peers, j).sent
    ensures At(r.peers, j).got <= AfterSent(n, end, j)
  {
    if !IsCut(n) {
      assert At(n.peers, j).sent <= At(ImageOf(r).peers, j).sent;
    }
  }

  lemma OtherSent(s: System, t: System, w: SnapshotId, i: Ip, j: Ip)
    requires WaveSys(s, w) && Ended(t, w) && Towards(s, t) && i in s.nodes && j in s.nodes && i != j
    ensures Link(s, i, j).sent <= AfterSent(s.nodes[i], t.nodes[i], j)
  {
    if !IsCut(s.nodes[i]) {
      UncutSent(s, t, w, i, j);
    }
  }

  lemma BagOf(a: seq<Message>, got: seq<Message>, sent: seq<Message>)
    requires multiset(a) <= multiset(Unmarked(got)) && got <= sent
    ensures multiset(a) <= multiset(Unmarked(sent))
  {
    UnmarkedPrefix(got, sent);
    PrefixBag(Unmarked(got), Unmarked(sent));
  }

  lemma MembersOf(s: System, s1: System, t: System, w: SnapshotId, j: Ip, i: Ip)
    requires WaveSys(s, w) && WaveSys(s1, w) && Ended(t, w) && Towards(s, t) && s1.nodes.Keys == s.nodes.Keys
    requires s1.mesh == s.mesh && j in s.nodes && i in s1.nodes[j].cfg.mesh
    ensures i in s.nodes && j in s.nodes[i].cfg.mesh && t.nodes[i].cfg.mesh == s.nodes[i].cfg.mesh && NodeInv(s1.nodes[j])
  {
    assert MemberInv(s1, j);
    assert i in SetOf(s.mesh) && j in SetOf(s.mesh);
    assert MemberInv(s, i);
  }

  lemma BacksAll(s: System, w: SnapshotId, s1: System, t: System, j: Ip, r: Node, steps: seq<Step>, i: Ip)
    requires WaveSys(s, w) && WaveSys(s1, w) && Ended(t, w) && Towards(s, t) && Towards(s1, t)
    requires MovedOnly(s, s1, j, r) && Goes(s.nodes[j], steps, r) && IsCut(r) && i in r.cfg.mesh
    ensures Backs(s, t, j, r, i)
  {
    MembersOf(s, s1, t, w, j, i);
    HeardWasTaken(s1.nodes[j], i);
    if i == j {
      GotFromSelf(s, s1, t, j, r, steps);
    } else {
      GotFromOther(s, w, s1, t, j, r, i);
    }
    BacksOf(s, t, j, r, s1.nodes[j], i);
  }

  lemma BacksOf(s: System, t: System, j: Ip, r: Node, q: Node, i: Ip)
    requires i in s.nodes && i in t.nodes && IsCut(t.nodes[i]) && t.nodes[i].cfg.mesh == s.nodes[i].cfg.mesh
    requires j in s.nodes[i].cfg.mesh && At(r.peers, i).got <= AfterSent(s.nodes[i], t.nodes[i], j) && q.peers == r.peers
    requires multiset(MessagesIn(At(q.peers, i).heard)) <= multiset(Unmarked(At(q.peers, i).got))
    ensures Backs(s, t, j, r, i)
  {
  }

  lemma GotFromSelf(s: System, s1: System, t: System, j: Ip, r: Node, steps: seq<Step>)
    requires Towards(s1, t) && MovedOnly(s, s1, j, r) && Goes(s.nodes[j], steps, r) && IsCut(r)
    ensures At(r.peers, j).got <= AfterSent(s.nodes[j], t.nodes[j], j)
  {
    SelfWasSent(s.nodes[j], t.nodes[j], r, steps, j);
  }

  lemma EntryCovered(s: System, t: System, j: Ip, r: Node, i: Ip)
    requires s.nodes.Keys == t.nodes.Keys && forall k :: k in t.nodes ==> IsCut(t.nodes[k])
    requires i in OutlookOf(r).got && Backs(s, t, j, r, i)
    ensures CoveredBy(AfterWorld(s, t), j, OutlookOf(r), i)
  {
    HeardEntry(r, i);
    AfterEntry(s.nodes[i], t.nodes[i], j);
    BagOf(OutlookOf(r).got[i], At(r.peers, i).got, AfterSent(s.nodes[i], t.nodes[i], j));
  }

  lemma AllCovered(s: System, t: System, j: Ip, r: Node)
    requires s.nodes.Keys == t.nodes.Keys && forall k :: k in t.nodes ==> IsCut(t.nodes[k])
    requires forall i :: i in r.cfg.mesh ==> Backs(s, t, j, r, i)
    ensures Covered(AfterWorld(s, t), j, OutlookOf(r))
  {
    forall i | i in OutlookOf(r).got ensures CoveredBy(AfterWorld(s, t), j, OutlookOf(r), i) {
      HeardEntry(r, i);
      EntryCovered(s, t, j, r, i);
    }
  }

  // ---------- Every action is a plain run over bags ----------

  lemma AfterQuiet(r: Node, end: Node)
    requires IsCut(end)
    ensures AfterOf(r.(tunnel := []), end) == AfterOf(r, end)
  {
    SameOutlook(r, r.(tunnel := []));
  }

  lemma AfterMoved(s: System, s1: System, t: System, j: Ip, v: Member)
    requires s1.mesh == s.mesh && j in s.nodes && s1.nodes.Keys == s.nodes.Keys
    requires forall i :: i in s.nodes && i != j ==> s1.nodes[i] == s.nodes[i]
    requires s.nodes.Keys == t.nodes.Keys && forall k :: k in t.nodes ==> IsCut(t.nodes[k])
    requires AfterOf(s1.nodes[j], t.nodes[j]) == v
    ensures AfterWorld(s1, t) == AfterWorld(s, t).(members := AfterWorld(s, t).members[j := v])
  {
    assert AfterWorld(s1, t).members == AfterWorld(s, t).members[j := v];
  }

  lemma MemberAfter(s: System, w: SnapshotId, s1: System, t: System, j: Ip, r: Node, steps: seq<Step>)
    returns (moves: seq<Move>)
    requires WaveSys(s, w) && WaveSys(s1, w) && Ended(t, w) && Towards(s, t) && Towards(s1, t)
    requires MovedOnly(s, s1, j, r) && Goes(s.nodes[j], steps, r)
    ensures Reaches(AfterWorld(s, t), moves, AfterWorld(s1, t))
  {
    if IsCut(r) {
      forall i | i in r.cfg.mesh ensures Backs(s, t, j, r, i) {
        BacksAll(s, w, s1, t, j, r, steps, i);
      }
      EndOf(s1, t, w, j);
      moves := CutAfter(s, s1, t, j, r, steps);
    } else {
      moves := [];
      UncutAfter(s, s1, t, j, r, steps);
    }
  }

  lemma EndOf(s: System, t: System, w: SnapshotId, j: Ip)
    requires WaveSys(s, w) && Ended(t, w) && Towards(s, t) && j in s.nodes
    ensures t.nodes[j].cfg.mesh == s.nodes[j].cfg.mesh == s.mesh && s.nodes[j].cfg.self == j
  {
    assert MemberInv(s, j);
  }

  lemma UncutAfter(s: System, s1: System, t: System, j: Ip, r: Node, steps: seq<Step>)
    requires s.nodes.Keys == t.nodes.Keys && forall k :: k in t.nodes ==> IsCut(t.nodes[k])
    requires MovedOnly(s, s1, j, r) && Goes(s.nodes[j], steps, r) && !IsCut(r)
    ensures Reaches(AfterWorld(s, t), [], AfterWorld(s1, t))
  {
    AfterMoved(s, s1, t, j, AfterOf(s.nodes[j], t.nodes[j]));
    assert AfterWorld(s, t).members[j := AfterOf(s.nodes[j], t.nodes[j])] == AfterWorld(s, t).members;
  }

  lemma CutAfter(s: System, s1: System, t: System, j: Ip, r: Node, steps: seq<Step>) returns (moves: seq<Move>)
    requires s.nodes.Keys == t.nodes.Keys && forall k :: k in t.nodes ==> IsCut(t.nodes[k])
    requires MovedOnly(s, s1, j, r) && Goes(s.nodes[j], steps, r) && IsCut(r)
    requires t.nodes[j].host.images == r.host.images && t.nodes[j].cfg.mesh == r.cfg.mesh == s.mesh && r.cfg.self == j
    requires forall i :: i in r.cfg.mesh ==> Backs(s, t, j, r, i)
    ensures Reaches(AfterWorld(s, t), moves, AfterWorld(s1, t))
  {
    StandsBefore(s.nodes[j], t.nodes[j], r);
    AllCovered(s, t, j, r);
    LiftBags(AfterWorld(s, t), j, steps);
    moves := MovesOf(j, steps);
    AfterQuiet(r, t.nodes[j]);
    AfterMoved(s, s1, t, j, OutlookOf(r));
  }

  lemma StandsBefore(n: Node, end: Node, r: Node)
    requires IsCut(r) && IsCut(end) && end.host.images == r.host.images && end.cfg.mesh == r.cfg.mesh
    ensures AfterOf(n, end) == Before(n, r)
  {
  }

  lemma PutOnly(s: System, j: Ip, r: Node, net: multiset<Packet>)
    requires j in s.nodes && At(r.peers, j).got <= Link(s, j, j).sent
    ensures MovedOnly(s, Put(s, j, r, net), j, r)
  {
  }

  lemma LocalAfter(s: System, j: Ip, e: Event, t: System, w: SnapshotId) returns (moves: seq<Move>)
    requires WaveSys(s, w) && Enabled(s, Local(j, e)) && InWave(s, Local(j, e), w) && Ended(t, w) && Towards(s, t)
    requires Towards(Apply(s, Local(j, e)), t)
    ensures Reaches(AfterWorld(s, t), moves, AfterWorld(Apply(s, Local(j, e)), t))
  {
    var r := React(s.nodes[j], e);
    LocalInWave(s, j, e, w);
    var steps := LocalSteps(s, j, e, w);
    PutOnly(s, j, r, s.net);
    moves := MemberAfter(s, w, Apply(s, Local(j, e)), t, j, r, steps);
  }

  lemma LocalSteps(s: System, j: Ip, e: Event, w: SnapshotId) returns (steps: seq<Step>)
    requires WaveSys(s, w) && Enabled(s, Local(j, e)) && InWave(s, Local(j, e), w)
    ensures Goes(s.nodes[j], steps, React(s.nodes[j], e))
    ensures At(React(s.nodes[j], e).peers, j).got <= Link(s, j, j).sent
  {
    var n := s.nodes[j];
    assert MemberInv(s, j) && MemberWave(n, w);
    LocalReacts(n, e);
    assert SendsOn(At(n.peers, j), At(React(n, e).peers, j));
    Ahead(s, j, j);
    steps := LocalGoes(n, e, w);
  }

  lemma OutsideAfter(s: System, j: Ip, from: Ip, m: Message, t: System, w: SnapshotId) returns (moves: seq<Move>)
    requires WaveSys(s, w) && Enabled(s, Outside(j, from, m)) && Ended(t, w) && Towards(s, t)
    requires Towards(Apply(s, Outside(j, from, m)), t)
    ensures Reaches(AfterWorld(s, t), moves, AfterWorld(Apply(s, Outside(j, from, m)), t))
  {
    var r := React(s.nodes[j], Arrive(from, Frame.Plain(m)));
    OutsideInWave(s, j, from, m, w);
    OutsideSteps(s, j, from, m, w);
    PutOnly(s, j, r, s.net);
    moves := MemberAfter(s, w, Apply(s, Outside(j, from, m)), t, j, r, [Hear(from, m)]);
  }

  lemma OutsideSteps(s: System, j: Ip, from: Ip, m: Message, w: SnapshotId)
    requires WaveSys(s, w) && Enabled(s, Outside(j, from, m))
    ensures var r := React(s.nodes[j], Arrive(from, Frame.Plain(m)));
            Goes(s.nodes[j], [Hear(from, m)], r) && At(r.peers, j).got <= Link(s, j, j).sent
  {
    var n := s.nodes[j];
    assert MemberInv(s, j);
    OutsideReacts(n, from, m);
    assert SendsOn(At(n.peers, j), At(React(n, Arrive(from, Frame.Plain(m))).peers, j));
    Ahead(s, j, j);
    OutsideGoes(n, from, m);
  }

  lemma DataDelivered(s: System, p: Packet, w: SnapshotId) returns (steps: seq<Step>)
    requires WaveSys(s, w) && Enabled(s, Action.Deliver(p)) && p.frame.Data?
    ensures var n, r := s.nodes[p.dst], React(s.nodes[p.dst], Arrive(p.src, p.frame));
            Goes(n, steps, r) && At(r.peers, p.dst).got <= Link(s, p.dst, p.dst).sent
  {
    var j, src := p.dst, p.src;
    var n, r := s.nodes[j], React(s.nodes[j], Arrive(src, p.frame));
    assert PacketInv(s, p) && MemberInv(s, j) && MemberWave(n, w);
    DataKeeps(s, p);
    LinkOf(s, src, j);
    LogOf(s, src, j, w);
    Ahead(s, j, j);
    assert j != src ==> SendsOn(At(n.peers, j), At(r.peers, j));
    assert src in SetOf(s.mesh);
    assert OnlyWave(Link(s, src, j).sent, |Link(s, j, src).got|, w);
    steps := DataGoes(n, src, p.frame.sn, p.frame.msg, Link(s, src, j).sent, SendCut(s.nodes[src], j), w);
  }

  lemma AckDelivered(s: System, p: Packet)
    requires Inv(s) && Enabled(s, Action.Deliver(p)) && p.frame.Ack?
    ensures var n, r := s.nodes[p.dst], React(s.nodes[p.dst], Arrive(p.src, p.frame));
            Goes(n, [], r) && At(r.peers, p.dst).got <= Link(s, p.dst, p.dst).sent
  {
    assert MemberInv(s, p.dst);
    AckHeeds(s.nodes[p.dst], p.src, p.frame.sn);
    Ahead(s, p.dst, p.dst);
    AckGoes(s.nodes[p.dst], p.src, p.frame.sn);
  }

  lemma DeliverAfter(s: System, p: Packet, t: System, w: SnapshotId) returns (moves: seq<Move>)
    requires WaveSys(s, w) && Enabled(s, Action.Deliver(p)) && Ended(t, w) && Towards(s, t)
    requires Towards(Apply(s, Action.Deliver(p)), t)
    ensures Reaches(AfterWorld(s, t), moves, AfterWorld(Apply(s, Action.Deliver(p)), t))
  {
    var r := React(s.nodes[p.dst], Arrive(p.src, p.frame));
    var steps := [];
    DeliverInWave(s, p, w);
    assert PacketInv(s, p);
    if p.frame.Data? {
      steps := DataDelivered(s, p, w);
    } else {
      AckDelivered(s, p);
    }
    PutOnly(s, p.dst, r, s.net - multiset{p});
    moves := MemberAfter(s, w, Apply(s, Action.Deliver(p)), t, p.dst, r, steps);
  }

  lemma NetAfter(s: System, net: multiset<Packet>, t: System)
    requires s.nodes.Keys == t.nodes.Keys && forall j :: j in t.nodes ==> IsCut(t.nodes[j])
    ensures Reaches(AfterWorld(s, t), [], AfterWorld(s.(net := net), t))
  {
  }

  lemma ActionAfter(s: System, a: Action, s1: System, t: System, w: SnapshotId) returns (moves: seq<Move>)
    requires WaveSys(s, w) && Enabled(s, a) && InWave(s, a, w) && Ended(t, w) && Towards(s, t)
    requires s1 == Apply(s, a) && Towards(s1, t)
    ensures Reaches(AfterWorld(s, t), moves, AfterWorld(s1, t))
  {
    match a
    case Local(j, e) => moves := LocalAfter(s, j, e, t, w);
    case Outside(j, from, m) => moves := OutsideAfter(s, j, from, m, t, w);
    case Deliver(p) => moves := DeliverAfter(s, p, t, w);
    case Lose(p) => moves := NetActionAfter(s, a, p, t);
    case Repeat(p) => moves := NetActionAfter(s, a, p, t);
  }

  lemma NetActionAfter(s: System, a: Action, p: Packet, t: System) returns (moves: seq<Move>)
    requires WellFormed(s) && Enabled(s, a) && (a == Lose(p) || a == Repeat(p))
    requires s.nodes.Keys == t.nodes.Keys && Apply(s, a).nodes.Keys == t.nodes.Keys && forall j :: j in t.nodes ==> IsCut(t.nodes[j])
    ensures Reaches(AfterWorld(s, t), moves, AfterWorld(Apply(s, a), t))
  {
    moves := [];
    NetAfter(s, if a.Lose? then s.net - multiset{p} else s.net + multiset{p}, t);
  }

  // ---------- Runs ----------

  lemma RunTowards(s: System, run: seq<Action>, t: System, w: SnapshotId)
    requires WaveSys(s, w) && LegalWave(s, run, w) && Legal(s, run) && t == Run(s, run) && WaveSys(t, w) && AllDone(t)
    ensures Towards(s, t)
  {
    DoneIsCut(t, w);
    assert t.nodes.Keys == SetOf(s.mesh) == s.nodes.Keys;
    forall j | j in s.nodes && IsCut(s.nodes[j]) ensures t.nodes[j].host.images == s.nodes[j].host.images {
      CutOnce(s, run, w, j);
    }
    forall i, j | i in s.nodes && j in s.nodes ensures Link(s, i, j).sent <= Link(t, i, j).sent {
      RunGrows(s, run, j, i);
    }
  }

  /** A run of the wave to its end, seen from the cuts on, is a run of the plain mesh over bags. */
  lemma {:induction false} RunAfter(s: System, run: seq<Action>, t: System, w: SnapshotId) returns (moves: seq<Move>)
    requires WaveSys(s, w) && LegalWave(s, run, w) && Legal(s, run) && t == Run(s, run) && WaveSys(t, w) && AllDone(t)
    ensures Towards(s, t) && Reaches(AfterWorld(s, t), moves, AfterWorld(t, t))
    decreases |run|
  {
    RunTowards(s, run, t, w);
    DoneHasEnded(t, w);
    moves := [];
    if run != [] {
      var s1 := Apply(s, run[0]);
      ApplyInWave(s, run[0], w);
      var rest := RunAfter(s1, run[1..], t, w);
      var first := ActionAfter(s, run[0], s1, t, w);
      moves := first + rest;
      ReachesOn(AfterWorld(s, t), first, AfterWorld(s1, t), rest, AfterWorld(t, t));
    }
  }

  // ---------- Where it starts and ends ----------

  /** The channel from `i` to `j`, as a bag, holds exactly `ms`. */
  ghost predicate HoldsBag(g: World, i: Ip, j: Ip, ms: seq<Message>) {
    && i in g.members && j in g.members && j in g.members[i].sent && i in g.members[j].got
    && multiset(g.members[i].sent[j]) == multiset(g.members[j].got[i]) + multiset(ms)
  }

  /** The plain mesh whose apps are the images, and whose channels, as bags, hold what was recorded. */
  ghost predicate IsRecordedInBags(g: World, s: System)
    requires FullyRecorded(s)
  {
    && g.mesh == s.mesh && g.members.Keys == s.nodes.Keys
    && (forall j :: j in s.nodes ==>
          g.members[j].app == ImageOf(s.nodes[j]).app && g.members[j].exits == ImageOf(s.nodes[j]).exits)
    && (forall i, j :: i in s.nodes && j in s.nodes && i != j ==> HoldsBag(g, i, j, MessagesIn(StoredChannel(s, i, j))))
  }

  /** The plain mesh that has the live apps, what they have sent, and what they have heard. */
  ghost predicate IsHeard(g: World, s: System) {
    && g.mesh == s.mesh && g.members.Keys == s.nodes.Keys
    && forall j :: j in s.nodes ==> g.members[j] == OutlookOf(s.nodes[j])
  }

  lemma ImageHeard(n: Node, w: SnapshotId, k: Ip)
    requires WaveInv(n, w) && IsCut(n)
    ensures var c := At(ImageOf(n).peers, k); multiset(MessagesIn(c.heard)) == multiset(Unmarked(c.got))
  {
    var c := At(ImageOf(n).peers, k);
    assert WavePart(n, w, k);
    SameMessages(c.heard, Recorded(c.got, 0, |c.got|));
    RecordedMessages(c.got, |c.got|);
    assert c.got[..|c.got|] == c.got;
  }

  lemma ThenEntry(n: Node, k: Ip)
    requires IsCut(n) && k in n.cfg.mesh
    ensures var v, c := OutlookThen(n), At(ImageOf(n).peers, k);
            && k in v.sent && v.sent[k] == Unmarked(c.sent) && k in v.got && v.got[k] == MessagesIn(c.heard)
  {
    assert k in SetOf(n.cfg.mesh);
  }

  lemma RecordedBags(s: System, t: System, w: SnapshotId, i: Ip, j: Ip)
    requires WaveSys(t, w) && AllDone(t) && i in t.nodes && j in t.nodes && i != j
    requires s.nodes.Keys == t.nodes.Keys && forall k :: k in t.nodes ==> IsCut(t.nodes[k])
    requires !IsCut(s.nodes[i]) && !IsCut(s.nodes[j])
    ensures HoldsBag(AfterWorld(s, t), i, j, MessagesIn(StoredChannel(t, i, j)))
  {
    ChannelExact(t, w, i, j);
    assert MemberInv(t, i) && MemberInv(t, j) && i in SetOf(t.mesh) && j in SetOf(t.mesh);
    assert MemberWave(t.nodes[j], w);
    ThenEntry(t.nodes[i], j);
    ThenEntry(t.nodes[j], i);
    ImageHeard(t.nodes[j], w, i);
    NumberedCarries(At(ImageOf(t.nodes[i]).peers, j).sent, At(ImageOf(t.nodes[j]).peers, i).got, StoredChannel(t, i, j));
  }

  lemma AfterApps(s: System, t: System)
    requires s.nodes.Keys == t.nodes.Keys && s.mesh == t.mesh && FullyRecorded(t)
    requires forall k :: k in s.nodes ==> !IsCut(s.nodes[k])
    ensures var g := AfterWorld(s, t);
            && g.mesh == t.mesh && g.members.Keys == t.nodes.Keys
            && forall j :: j in t.nodes ==>
                 g.members[j].app == ImageOf(t.nodes[j]).app && g.members[j].exits == ImageOf(t.nodes[j]).exits
  {
  }

  lemma StartsRecorded(s: System, t: System, w: SnapshotId)
    requires WaveSys(t, w) && AllDone(t) && FullyRecorded(t) && s.mesh == t.mesh && s.nodes.Keys == t.nodes.Keys
    requires forall k :: k in s.nodes ==> !IsCut(s.nodes[k])
    ensures IsRecordedInBags(AfterWorld(s, t), t)
  {
    AfterApps(s, t);
    forall i, j | i in t.nodes && j in t.nodes && i != j
      ensures HoldsBag(AfterWorld(s, t), i, j, MessagesIn(StoredChannel(t, i, j)))
    {
      RecordedBags(s, t, w, i, j);
    }
  }

  lemma EndsLive(t: System)
    requires forall k :: k in t.nodes ==> IsCut(t.nodes[k])
    ensures IsHeard(AfterWorld(t, t), t)
  {
  }

  lemma ReadyUncut(s: System, w: SnapshotId)
    requires ReadyFor(s, w)
    ensures forall k :: k in s.nodes ==> !IsCut(s.nodes[k])
  {
    forall k | k in s.nodes ensures !IsCut(s.nodes[k]) {
      assert ReadyNode(s.nodes[k], w);
      ReadyIsUncut(s.nodes[k], w);
    }
  }

  /**
   * From the recorded state the plain mesh reaches, over bags and by `moves`, the very state in which the live mesh is
   * when the wave is done everywhere: the same apps, with the same messages sent and heard.
   */
  lemma LiveIsReachable(s: System, run: seq<Action>, w: SnapshotId)
    returns (t: System, g: World, moves: seq<Move>, h: World)
    requires ReadyFor(s, w) && LegalWave(s, run, w)
    ensures Legal(s, run) && t == Run(s, run) && WaveSys(t, w)
    ensures AllDone(t) ==> FullyRecorded(t) && IsRecordedInBags(g, t) && Reaches(g, moves, h) && IsHeard(h, t)
  {
    ReadyBegins(s, w);
    RunInWave(s, run, w);
    t := Run(s, run);
    g, moves, h := World([], map[]), [], World([], map[]);
    if AllDone(t) {
      DoneIsCut(t, w);
      moves := RunAfter(s, run, t, w);
      g, h := AfterWorld(s, t), AfterWorld(t, t);
      ReadyUncut(s, w);
      StartsRecorded(s, t, w);
      EndsLive(t);
    }
  }
}
