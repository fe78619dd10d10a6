/** A wave is never stuck: as long as some member is cut and some is not done, a marker is on its way and can be brought. */
module Completion {
  import opened Wrappers
  import opened Mesh
  import opened Sidecar
  import opened Bookkeeping
  import opened Callbacks
  import opened Network
  import opened Wave
  import opened WaveRun
  import opened ConsistentCut
  import opened Links

  // ---------- Links only grow ----------

  ghost predicate Grows(a: Peer, b: Peer) {
    a.sent <= b.sent && a.got <= b.got
  }

  lemma ProgressGrows(n: Node, r: Node, k: Ip)
    requires Progress(n, r)
    ensures Grows(At(n.peers, k), At(r.peers, k))
  {
    assert SendsOn(At(n.peers, k), At(r.peers, k));
  }

  lemma LocalGrows(s: System, k: Ip, e: Event, i: Ip, j: Ip)
    requires Inv(s) && Enabled(s, Local(k, e)) && j in s.nodes
    ensures Grows(Link(s, j, i), Link(Apply(s, Local(k, e)), j, i))
  {
    assert MemberInv(s, k);
    LocalReacts(s.nodes[k], e);
    ProgressGrows(s.nodes[k], React(s.nodes[k], e), i);
    PutLinks(s, k, React(s.nodes[k], e), s.net, i, j);
  }

  lemma OutsideGrows(s: System, k: Ip, from: Ip, m: Message, i: Ip, j: Ip)
    requires Inv(s) && Enabled(s, Outside(k, from, m)) && j in s.nodes
    ensures Grows(Link(s, j, i), Link(Apply(s, Outside(k, from, m)), j, i))
  {
    var r := React(s.nodes[k], Arrive(from, Frame.Plain(m)));
    assert MemberInv(s, k);
    OutsideReacts(s.nodes[k], from, m);
    ProgressGrows(s.nodes[k], r, i);
    PutLinks(s, k, r, s.net, i, j);
  }

  lemma FrameGrows(s: System, p: Packet, i: Ip)
    requires Inv(s) && Enabled(s, Deliver(p))
    ensures Grows(Link(s, p.dst, i), At(React(s.nodes[p.dst], Arrive(p.src, p.frame)).peers, i))
  {
    assert PacketInv(s, p) && MemberInv(s, p.dst);
    if p.frame.Data? {
      DataKeeps(s, p);
      assert i != p.src ==> SendsOn(Link(s, p.dst, i), At(React(s.nodes[p.dst], Arrive(p.src, p.frame)).peers, i));
    } else {
      AckHeeds(s.nodes[p.dst], p.src, p.frame.sn);
    }
  }

  lemma ApplyGrows(s: System, a: Action, i: Ip, j: Ip)
    requires Inv(s) && Enabled(s, a) && j in s.nodes
    ensures Grows(Link(s, j, i), Link(Apply(s, a), j, i))
  {
    match a
    case Local(k, e) => LocalGrows(s, k, e, i, j);
    case Outside(k, from, m) => OutsideGrows(s, k, from, m, i, j);
    case Deliver(p) =>
      FrameGrows(s, p, i);
      PutLinks(s, p.dst, React(s.nodes[p.dst], Arrive(p.src, p.frame)), s.net - multiset{p}, i, j);
    case Lose(_) =>
    case Repeat(_) =>
  }

  lemma {:induction false} RunGrows(s: System, run: seq<Action>, i: Ip, j: Ip)
    requires Inv(s) && Legal(s, run) && j in s.nodes
    ensures j in Run(s, run).nodes && Grows(Link(s, j, i), Link(Run(s, run), j, i))
    decreases |run|
  {
    if run != [] {
      ApplyKeeps(s, run[0]);
      ApplyGrows(s, run[0], i, j);
      RunGrows(Apply(s, run[0]), run[1..], i, j);
    }
  }

  /** Coordinates, once known, stay what they are. */
  lemma CutStays(s: System, t: System, w: SnapshotId, i: Ip, j: Ip)
    requires WaveSys(s, w) && WaveSys(t, w) && j in s.nodes && j in t.nodes && Grows(Link(s, j, i), Link(t, j, i))
    ensures RecvCut(s.nodes[j], i).Some? ==> RecvCut(t.nodes[j], i) == RecvCut(s.nodes[j], i)
    ensures SendCut(s.nodes[j], i).Some? ==> SendCut(t.nodes[j], i) == SendCut(s.nodes[j], i)
  {
    var a, b := s.nodes[j], t.nodes[j];
    assert MemberWave(a, w) && MemberWave(b, w) && WavePart(a, w, i) && WavePart(b, w, i);
    if RecvCut(a, i).Some? {
      assert Link(t, j, i).got[RecvCut(a, i).value - 1].payload == Marker(w);
    }
    if SendCut(a, i).Some? {
      assert Link(t, j, i).sent[SendCut(a, i).value - 1].payload == Marker(w);
    }
  }

  // ---------- A marker is always on its way ----------

  /** The channel from `i` to `j` carries the wave's marker, and `j` has not taken it in. */
  ghost predicate OwesMarker(s: System, i: Ip, j: Ip) {
    i in s.nodes && j in s.nodes && i != j && IsCut(s.nodes[i]) && RecvCut(s.nodes[j], i) == None
  }

  lemma MarkerAhead(sent: seq<Message>, got: seq<Message>, m: nat, w: SnapshotId)
    requires MarkedAt(sent, Some(m), w) && MarkedAt(got, None, w) && got <= sent
    ensures |got| < m && sent[m - 1].payload == Marker(w)
  {
    assert sent[m - 1].payload == Marker(w);
  }

  lemma OwedMarker(s: System, w: SnapshotId, i: Ip, j: Ip)
    requires WaveSys(s, w) && OwesMarker(s, i, j)
    ensures SendCut(s.nodes[i], j).Some?
    ensures var m := SendCut(s.nodes[i], j).value;
            |Link(s, j, i).got| < m <= |Link(s, i, j).sent| && Link(s, i, j).sent[m - 1].payload == Marker(w)
  {
    CutKnowsSend(s, w, i, j);
    assert MemberWave(s.nodes[i], w) && WavePart(s.nodes[i], w, j);
    assert MemberWave(s.nodes[j], w) && WavePart(s.nodes[j], w, i);
    LinkOf(s, i, j);
    MarkerAhead(Link(s, i, j).sent, Link(s, j, i).got, SendCut(s.nodes[i], j).value, w);
  }

  /** While some member is cut and some member is not done, some channel carries a marker. */
  lemma SomeChannelOwes(s: System, w: SnapshotId, first: Ip) returns (i: Ip, j: Ip)
    requires WaveSys(s, w) && first in s.nodes && IsCut(s.nodes[first]) && !AllDone(s)
    ensures OwesMarker(s, i, j)
  {
    var late: Ip :| late in s.nodes && !IsDone(s.nodes[late]);
    assert MemberWave(s.nodes[late], w) && MemberInv(s, late);
    if !IsCut(s.nodes[late]) {
      return first, late;
    }
    var open: Ip :| open in s.nodes[late].ctrl.recording;
    assert open in s.nodes by {
      assert open in Peers(s.nodes[late].cfg) && open in s.mesh && open in SetOf(s.mesh);
    }
    if IsCut(s.nodes[open]) {
      return open, late;
    }
    assert MemberWave(s.nodes[open], w);
    return first, open;
  }

  /** When every link is drained, a wave that began anywhere is done everywhere. */
  lemma DrainedIsDone(s: System, w: SnapshotId, first: Ip)
    requires WaveSys(s, w) && first in s.nodes && IsCut(s.nodes[first])
    requires forall i, j :: i in s.nodes && j in s.nodes && i != j ==> |Link(s, j, i).got| == |Link(s, i, j).sent|
    ensures AllDone(s)
  {
    if !AllDone(s) {
      var i, j := SomeChannelOwes(s, w, first);
      OwedMarker(s, w, i, j);
    }
  }

  // ---------- The wave can always be completed ----------

  ghost predicate Steps(s: System, a: Action, t: System, w: SnapshotId) {
    WellFormed(s) && Enabled(s, a) && InWave(s, a, w) && Apply(s, a) == t
  }

  /** `path` lists the states of the run. */
  ghost predicate Path(path: seq<System>, run: seq<Action>, w: SnapshotId) {
    && |path| == |run| + 1
    && forall x :: 0 <= x < |run| ==> Steps(path[x], run[x], path[x + 1], w)
  }

  /** The run keeps to the wave and leads from `s` to `t`. */
  ghost predicate LeadsTo(s: System, run: seq<Action>, t: System, w: SnapshotId) {
    exists path :: Path(path, run, w) && path[0] == s && path[|run|] == t
  }

  lemma {:induction false} PathRuns(path: seq<System>, run: seq<Action>, w: SnapshotId)
    requires Path(path, run, w) && WaveSys(path[0], w)
    ensures LegalWave(path[0], run, w) && Legal(path[0], run) && Run(path[0], run) == path[|run|] && WaveSys(path[|run|], w)
    decreases |run|
  {
    if run != [] {
      assert Steps(path[0], run[0], path[1], w);
      ApplyInWave(path[0], run[0], w);
      PathTail(path, run, w);
      PathRuns(path[1..], run[1..], w);
    }
  }

  lemma PathTail(path: seq<System>, run: seq<Action>, w: SnapshotId)
    requires Path(path, run, w) && run != []
    ensures Path(path[1..], run[1..], w)
  {
    forall x | 0 <= x < |run| - 1 ensures Steps(path[1..][x], run[1..][x], path[1..][x + 1], w) {
      assert Steps(path[x + 1], run[x + 1], path[x + 2], w);
    }
  }

  lemma LeadsRuns(s: System, run: seq<Action>, t: System, w: SnapshotId)
    requires WaveSys(s, w) && LeadsTo(s, run, t, w)
    ensures LegalWave(s, run, w) && Legal(s, run) && Run(s, run) == t && WaveSys(t, w)
  {
    var path :| Path(path, run, w) && path[0] == s && path[|run|] == t;
    PathRuns(path, run, w);
  }

  lemma Joined<S, A>(p: seq<S>, a: seq<A>, q: seq<S>, b: seq<A>, x: nat)
    requires |p| == |a| + 1 && |q| == |b| + 1 && p[|a|] == q[0] && x < |a + b|
    ensures var path := p + q[1..];
            && |path| == |a + b| + 1
            && (x < |a| ==> path[x] == p[x] && (a + b)[x] == a[x] && path[x + 1] == p[x + 1])
            && (x >= |a| ==> path[x] == q[x - |a|] && (a + b)[x] == b[x - |a|] && path[x + 1] == q[x - |a| + 1])
  {
  }

  lemma JoinedStep(p: seq<System>, a: seq<Action>, q: seq<System>, b: seq<Action>, w: SnapshotId, x: nat)
    requires Path(p, a, w) && Path(q, b, w) && p[|a|] == q[0] && x < |a + b|
    ensures |p + q[1..]| == |a + b| + 1 && Steps((p + q[1..])[x], (a + b)[x], (p + q[1..])[x + 1], w)
  {
    Joined(p, a, q, b, x);
    if x < |a| {
      assert Steps(p[x], a[x], p[x + 1], w);
    } else {
      assert Steps(q[x - |a|], b[x - |a|], q[x - |a| + 1], w);
    }
  }

  lemma PathJoin(p: seq<System>, a: seq<Action>, q: seq<System>, b: seq<Action>, w: SnapshotId)
    requires Path(p, a, w) && Path(q, b, w) && p[|a|] == q[0]
    ensures Path(p + q[1..], a + b, w)
  {
    forall x | 0 <= x < |a + b| ensures Steps((p + q[1..])[x], (a + b)[x], (p + q[1..])[x + 1], w) {
      JoinedStep(p, a, q, b, w, x);
    }
  }

  lemma LeadsCompose(s: System, a: seq<Action>, t: System, b: seq<Action>, u: System, w: SnapshotId)
    requires LeadsTo(s, a, t, w) && LeadsTo(t, b, u, w)
    ensures LeadsTo(s, a + b, u, w)
  {
    var p :| Path(p, a, w) && p[0] == s && p[|a|] == t;
    var q :| Path(q, b, w) && q[0] == t && q[|b|] == u;
    PathJoin(p, a, q, b, w);
    assert (p + q[1..])[0] == s && (p + q[1..])[|a + b|] == u;
  }

  lemma OneAction(s: System, a: Action, w: SnapshotId) returns (t: System)
    requires WaveSys(s, w) && Enabled(s, a) && InWave(s, a, w)
    ensures t == Apply(s, a) && WaveSys(t, w) && LeadsTo(s, [a], t, w)
  {
    t := Apply(s, a);
    ApplyInWave(s, a, w);
    SingleLeads(s, a, w);
  }

  lemma SingleLeads(s: System, a: Action, w: SnapshotId)
    requires WellFormed(s) && Enabled(s, a) && InWave(s, a, w)
    ensures LeadsTo(s, [a], Apply(s, a), w)
  {
    assert Path([s, Apply(s, a)], [a], w);
  }

  /** Nothing but retransmissions and arrivals. */
  predicate Benign(run: seq<Action>) {
    forall x :: 0 <= x < |run| ==> run[x].Deliver? || (run[x].Local? && run[x].event.Resend?)
  }

  lemma BenignConcat(a: seq<Action>, b: seq<Action>)
    requires Benign(a) && Benign(b)
    ensures Benign(a + b)
  {
  }

  /** Resend and deliver the frame `j` waits for from `i`. */
  lemma Nudge(s: System, w: SnapshotId, i: Ip, j: Ip) returns (run: seq<Action>, t: System)
    requires WaveSys(s, w) && i in s.nodes && j in s.nodes && |Link(s, j, i).got| < |Link(s, i, j).sent|
    ensures LeadsTo(s, run, t, w) && Benign(run)
    ensures WaveSys(t, w) && j in t.nodes && |Link(s, j, i).got| < |Link(t, j, i).got|
  {
    var q := ResendExpected(s, w, i, j);
    t := ArriveExpected(q, w, i, j);
    run := ResendThenArrive(s, i, j, |Link(s, j, i).got|, q, Expected(s, i, j), t, w);
  }

  lemma ResendThenArrive(s: System, i: Ip, j: Ip, sn: nat, q: System, p: Packet, t: System, w: SnapshotId)
    returns (run: seq<Action>)
    requires LeadsTo(s, [Local(i, Resend(j, sn))], q, w) && LeadsTo(q, [Deliver(p)], t, w)
    ensures LeadsTo(s, run, t, w) && Benign(run)
  {
    run := [Local(i, Resend(j, sn))] + [Deliver(p)];
    LeadsCompose(s, [Local(i, Resend(j, sn))], q, [Deliver(p)], t, w);
  }

  lemma ResendExpected(s: System, w: SnapshotId, i: Ip, j: Ip) returns (q: System)
    requires WaveSys(s, w) && i in s.nodes && j in s.nodes && |Link(s, j, i).got| < |Link(s, i, j).sent|
    ensures LeadsTo(s, [Local(i, Resend(j, |Link(s, j, i).got|))], q, w)
    ensures WaveSys(q, w) && q == s.(net := s.net + multiset{Expected(s, i, j)})
  {
    ExpectedIsResent(s, i, j);
    q := OneAction(s, Local(i, Resend(j, |Link(s, j, i).got|)), w);
  }

  lemma ArriveExpected(s: System, w: SnapshotId, i: Ip, j: Ip) returns (t: System)
    requires WaveSys(s, w) && i in s.nodes && j in s.nodes && |Link(s, j, i).got| < |Link(s, i, j).sent|
    requires Expected(s, i, j) in s.net
    ensures LeadsTo(s, [Deliver(Expected(s, i, j))], t, w)
    ensures WaveSys(t, w) && j in t.nodes && |Link(s, j, i).got| < |Link(t, j, i).got|
  {
    ExpectedMovesOn(s, i, j);
    t := OneAction(s, Deliver(Expected(s, i, j)), w);
  }

  lemma StillOwes(s: System, step: seq<Action>, t: System, w: SnapshotId, i: Ip, j: Ip)
    requires WaveSys(s, w) && OwesMarker(s, i, j) && LeadsTo(s, step, t, w) && j in t.nodes && RecvCut(t.nodes[j], i) == None
    ensures WaveSys(t, w) && OwesMarker(t, i, j)
    ensures SendCut(s.nodes[i], j).Some? && SendCut(t.nodes[i], j) == SendCut(s.nodes[i], j)
    ensures |Link(t, j, i).got| < SendCut(s.nodes[i], j).value
  {
    LeadsRuns(s, step, t, w);
    OwedMarker(s, w, i, j);
    RunGrows(s, step, j, i);
    CutStays(s, t, w, j, i);
    CutOnce(s, step, w, i);
    OwedMarker(t, w, i, j);
  }

  /** Nudging the channel often enough brings its marker. */
  lemma {:induction false} BringMarker(s: System, w: SnapshotId, i: Ip, j: Ip, m: nat) returns (run: seq<Action>, t: System)
    requires WaveSys(s, w) && OwesMarker(s, i, j) && SendCut(s.nodes[i], j) == Some(m) && |Link(s, j, i).got| < m
    ensures LeadsTo(s, run, t, w) && Benign(run) && WaveSys(t, w)
    ensures j in t.nodes && RecvCut(t.nodes[j], i).Some?
    decreases m - |Link(s, j, i).got|
  {
    OwedMarker(s, w, i, j);
    run, t := Nudge(s, w, i, j);
    if RecvCut(t.nodes[j], i) == None {
      StillOwes(s, run, t, w, i, j);
      var rest, u := BringMarker(t, w, i, j, m);
      LeadsCompose(s, run, t, rest, u, w);
      BenignConcat(run, rest);
      run, t := run + rest, u;
    }
  }

  /** The markers still to be taken in. */
  function Outstanding(s: System): set<(Ip, Ip)> {
    set i, j | i in s.nodes && j in s.nodes && i != j && RecvCut(s.nodes[j], i) == None :: (i, j)
  }

  /** No action of a wave makes a marker outstanding again. */
  lemma OutstandingShrinks(s: System, run: seq<Action>, w: SnapshotId)
    requires WaveSys(s, w) && LegalWave(s, run, w)
    ensures Legal(s, run) && WaveSys(Run(s, run), w) && Outstanding(Run(s, run)) <= Outstanding(s)
  {
    RunInWave(s, run, w);
    OutstandingLess(s, run, Run(s, run), w);
  }

  lemma OutstandingLess(s: System, run: seq<Action>, t: System, w: SnapshotId)
    requires WaveSys(s, w) && WaveSys(t, w) && Legal(s, run) && Run(s, run) == t
    ensures Outstanding(t) <= Outstanding(s)
  {
    assert t.nodes.Keys == SetOf(s.mesh) == s.nodes.Keys;
    forall i, j | i in t.nodes && j in t.nodes && i != j && RecvCut(t.nodes[j], i) == None
      ensures RecvCut(s.nodes[j], i) == None
    {
      RunGrows(s, run, i, j);
      CutStays(s, t, w, i, j);
    }
  }

  /**
   * From every state of a wave in which some member is cut there is a continuation, of retransmissions and arrivals
   * alone, after which every member is done.
   */
  lemma {:induction false} CanComplete(s: System, w: SnapshotId, first: Ip) returns (run: seq<Action>, t: System)
    requires WaveSys(s, w) && first in s.nodes && IsCut(s.nodes[first])
    ensures LegalWave(s, run, w) && Legal(s, run) && Run(s, run) == t && Benign(run)
    ensures WaveSys(t, w) && AllDone(t)
  {
    run, t := Complete(s, w, first);
    LeadsRuns(s, run, t, w);
  }

  lemma {:induction false} Complete(s: System, w: SnapshotId, first: Ip) returns (run: seq<Action>, t: System)
    requires WaveSys(s, w) && first in s.nodes && IsCut(s.nodes[first])
    ensures LeadsTo(s, run, t, w) && Benign(run) && AllDone(t)
    decreases |Outstanding(s)|
  {
    run, t := [], s;
    assert Path([s], [], w);
    if !AllDone(s) {
      var i, j := SomeChannelOwes(s, w, first);
      run, t := BringOne(s, w, first, i, j);
      var rest, u := Complete(t, w, first);
      LeadsCompose(s, run, t, rest, u, w);
      BenignConcat(run, rest);
      run, t := run + rest, u;
    }
  }

  lemma BringOne(s: System, w: SnapshotId, first: Ip, i: Ip, j: Ip) returns (run: seq<Action>, t: System)
    requires WaveSys(s, w) && first in s.nodes && IsCut(s.nodes[first]) && OwesMarker(s, i, j)
    ensures LeadsTo(s, run, t, w) && Benign(run) && WaveSys(t, w)
    ensures first in t.nodes && IsCut(t.nodes[first]) && |Outstanding(t)| < |Outstanding(s)|
  {
    OwedMarker(s, w, i, j);
    run, t := BringMarker(s, w, i, j, SendCut(s.nodes[i], j).value);
    LeadsRuns(s, run, t, w);
    OutstandingLess(s, run, t, w);
    FewerMarkers(s, t, i, j);
    CutOnce(s, run, w, first);
  }

  lemma FewerMarkers(s: System, t: System, i: Ip, j: Ip)
    requires OwesMarker(s, i, j) && j in t.nodes && RecvCut(t.nodes[j], i).Some? && Outstanding(t) <= Outstanding(s)
    ensures |Outstanding(t)| < |Outstanding(s)|
  {
    assert (i, j) in Outstanding(s) && (i, j) !in Outstanding(t);
    FewerOutstanding(Outstanding(t), Outstanding(s), (i, j));
  }

  lemma FewerOutstanding(a: set<(Ip, Ip)>, b: set<(Ip, Ip)>, x: (Ip, Ip))
    requires a <= b && x in b && x !in a
    ensures |a| < |b|
  {
    var c := b - {x};
    assert a <= c && b == c + {x};
    SubsetSize(a, c);
  }

  lemma {:induction false} SubsetSize(a: set<(Ip, Ip)>, b: set<(Ip, Ip)>)
    requires a <= b
    ensures |a| <= |b|
    decreases |a|
  {
    if a != {} {
      var x :| x in a;
      SubsetSize(a - {x}, b - {x});
    }
  }
}
