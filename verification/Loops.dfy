/** The two loops of the sidecar that go through many events in one callback: the intercept loop and the retransmissions. */
module Loops {
  import opened Mesh
  import opened Counter
  import opened Sidecar
  import opened Bookkeeping
  import opened Callbacks
  import opened Plain
  import opened Deeds

  // ---------- The intercept loop ----------

  function Intercepts(k: nat): (es: seq<Event>)
    ensures |es| == k && forall x :: 0 <= x < k ==> es[x] == Intercepted
  {
    if k == 0 then [] else [Intercepted] + Intercepts(k - 1)
  }

  /** No channel from the host itself is recorded, so no local request closes one. */
  predicate HostUnrecorded(n: Node) {
    LOCALHOST !in n.ctrl.recording
  }

  lemma InitiateEmpties(n: Node, remote: Ip, id: SnapshotId)
    ensures Initiate(n, remote, 0, id).app.pending == []
    ensures remote !in Initiate(n, remote, 0, id).ctrl.recording
  {
    var c, b := Cut(n, remote, id), Begin(n, remote, 0, id);
    var sent := Broadcast(c, Others(n.cfg.mesh, n.cfg.self), id);
    assert c.app.pending == [] && remote !in c.ctrl.recording;
    OpensNone(n, remote, 0, id);
    if b.ctrl.recording == {} {
      QuietFinish(b, Complete);
    }
  }

  lemma RequestCases(n: Node, id: SnapshotId)
    requires PlainChannels(n.ctrl.channels) && HostUnrecorded(n)
    ensures ProcessMessage(n, LOCALHOST, 0, Msg(Marker(id), 0, 0, LOCALHOST)) ==
            if n.ctrl.active then n else Initiate(n, LOCALHOST, 0, id)
  {
  }

  /** Handling a datagram leaves fewer to handle: a wave that ends at once flushes nothing to the app. */
  lemma InterceptShrinks(n: Node)
    requires PlainChannels(n.ctrl.channels) && HostUnrecorded(n) && n.app.pending != []
    ensures |Intercept(n).app.pending| < |n.app.pending| && HostUnrecorded(Intercept(n))
  {
    var d := n.app.pending[0];
    if d.payload.Start? {
      RequestCases(Pop(n), d.payload.id);
      if !n.ctrl.active {
        InitiateEmpties(Pop(n), LOCALHOST, d.payload.id);
      }
    }
  }

  /** Once nothing is pending, nothing more happens. */
  lemma {:induction false} InterceptsIdle(n: Node, k: nat)
    requires PlainChannels(n.ctrl.channels) && n.app.pending == []
    ensures Reacted(n, Intercepts(k)) == n
  {
    if k > 0 {
      assert Intercepts(k)[1..] == Intercepts(k - 1);
      InterceptsIdle(n, k - 1);
    }
  }

  lemma InterceptsNext(n: Node, k: nat)
    requires PlainChannels(n.ctrl.channels) && n.app.pending != [] && k > 0
    ensures Reacted(n, Intercepts(k)) == Reacted(Intercept(n), Intercepts(k - 1))
  {
    assert Intercepts(k)[1..] == Intercepts(k - 1);
  }

  /** As many turns as there are datagrams are enough, and more make no difference. */
  lemma {:induction false} InterceptsEnough(n: Node, k: nat)
    requires PlainChannels(n.ctrl.channels) && HostUnrecorded(n) && k >= |n.app.pending|
    ensures Reacted(n, Intercepts(k)).app.pending == []
    ensures Reacted(n, Intercepts(k)) == Reacted(n, Intercepts(|n.app.pending|))
    decreases k
  {
    if n.app.pending == [] {
      InterceptsIdle(n, k);
    } else {
      var r, p := Intercept(n), |n.app.pending|;
      InterceptShrinks(n);
      InterceptsEnough(r, k - 1);
      InterceptsEnough(r, p - 1);
      InterceptsNext(n, k);
      InterceptsNext(n, p);
    }
  }

  /** What the loop does outwardly, datagram by datagram. */
  function LoopDeeds(n: Node, k: nat): seq<Deed>
    requires PlainChannels(n.ctrl.channels)
    decreases k
  {
    if k == 0 then [] else DeedsOf(n, Intercepted) + LoopDeeds(React(n, Intercepted), k - 1)
  }

  lemma {:induction false} LoopDoes(n: Node, k: nat)
    requires PlainChannels(n.ctrl.channels) && HostUnrecorded(n)
    ensures Does(n, LoopDeeds(n, k), Reacted(n, Intercepts(k)))
    decreases k
  {
    if k == 0 {
      Nothing(n, n);
    } else {
      var r := React(n, Intercepted);
      LocalDoes(n, Intercepted);
      if n.app.pending != [] {
        InterceptShrinks(n);
      }
      LoopDoes(r, k - 1);
      assert Intercepts(k)[1..] == Intercepts(k - 1);
      DoesOn(n, DeedsOf(n, Intercepted), r, LoopDeeds(r, k - 1), Reacted(r, Intercepts(k - 1)));
    }
  }

  /** What of these datagrams goes to the member `k`, in order. */
  function RoutedTo(cfg: Config, ds: seq<Datagram>, k: Ip): seq<Message> {
    if ds == [] then []
    else
      (if ToMember(cfg.mesh, cfg.self, ds[0]) && ds[0].dst.value.ip == k then [MessageOf(ds[0])] else []) +
      RoutedTo(cfg, ds[1..], k)
  }

  /** What of them leaves the reliable mesh, in order. */
  function Leaving(cfg: Config, ds: seq<Datagram>): seq<Datagram> {
    if ds == [] then [] else (if Leaves(cfg.mesh, cfg.self, ds[0]) then [ds[0]] else []) + Leaving(cfg, ds[1..])
  }

  /** `n` has become `r` by routing `ds`: each log has grown by exactly those for its member, and the others have left. */
  ghost predicate Routes(n: Node, ds: seq<Datagram>, r: Node) {
    && r.cfg == n.cfg && r.ctrl == n.ctrl && r.host == n.host
    && (forall k :: RoutesLink(n, ds, r, k))
    && r.exits == n.exits + Leaving(n.cfg, ds)
  }

  ghost predicate RoutesLink(n: Node, ds: seq<Datagram>, r: Node, k: Ip) {
    At(r.peers, k) == At(n.peers, k).(sent := At(n.peers, k).sent + RoutedTo(n.cfg, ds, k))
  }

  lemma RouteOne(n: Node)
    requires PlainChannels(n.ctrl.channels) && n.app.pending != [] && !n.app.pending[0].payload.Start?
    ensures Routes(n, [n.app.pending[0]], Intercept(n)) && Intercept(n).app == n.app.(pending := n.app.pending[1..])
  {
    var d, r := n.app.pending[0], Intercept(n);
    assert [d][1..] == [];
    forall k ensures RoutesLink(n, [d], r, k) {
    }
  }

  lemma RoutedFirst(cfg: Config, d: Datagram, ds: seq<Datagram>, k: Ip)
    ensures RoutedTo(cfg, [d] + ds, k) == RoutedTo(cfg, [d], k) + RoutedTo(cfg, ds, k)
    ensures Leaving(cfg, [d] + ds) == Leaving(cfg, [d]) + Leaving(cfg, ds)
  {
    assert ([d] + ds)[1..] == ds && [d][1..] == [];
    assert Leaving(cfg, [d]) == if Leaves(cfg.mesh, cfg.self, d) then [d] else [];
  }

  lemma RoutesOn(n: Node, d: Datagram, q: Node, ds: seq<Datagram>, r: Node)
    requires Routes(n, [d], q) && Routes(q, ds, r)
    ensures Routes(n, [d] + ds, r)
  {
    RoutedFirst(n.cfg, d, ds, 0);
    Regroup(n.exits, Leaving(n.cfg, [d]), Leaving(n.cfg, ds));
    forall k ensures RoutesLink(n, [d] + ds, r, k) {
      assert RoutesLink(n, [d], q, k) && RoutesLink(q, ds, r, k);
      RoutedFirst(n.cfg, d, ds, k);
      Regroup(At(n.peers, k).sent, RoutedTo(n.cfg, [d], k), RoutedTo(n.cfg, ds, k));
    }
  }

  /** With no request among them, the loop routes every pending datagram, in order, and does nothing else. */
  lemma {:induction false} LoopRoutes(n: Node)
    requires PlainChannels(n.ctrl.channels) && forall d :: d in n.app.pending ==> !d.payload.Start?
    ensures var r := Reacted(n, Intercepts(|n.app.pending|));
            Routes(n, n.app.pending, r) && r.app == n.app.(pending := [])
    decreases |n.app.pending|
  {
    var ds := n.app.pending;
    if ds == [] {
      forall k ensures RoutesLink(n, [], n, k) {
      }
    } else {
      var n1 := Intercept(n);
      RouteOne(n);
      LoopRoutes(n1);
      assert Intercepts(|ds|)[1..] == Intercepts(|ds[1..]|) && ds == [ds[0]] + ds[1..];
      RoutesOn(n, ds[0], n1, ds[1..], Reacted(n1, Intercepts(|ds[1..]|)));
    }
  }

  /** And so it ends where the drain of a cut does. */
  lemma {:induction false} LoopDrains(n: Node)
    requires PlainChannels(n.ctrl.channels) && forall d :: d in n.app.pending ==> !d.payload.Start?
    ensures Reacted(n, Intercepts(|n.app.pending|)) == Drain(n)
    decreases |n.app.pending|
  {
    if n.app.pending != [] {
      InterceptsNext(n, |n.app.pending|);
      assert Intercept(n) == Forward(Pop(n), n.app.pending[0]);
      LoopDrains(Intercept(n));
    }
  }

  lemma {:induction false} RoutedAppend(ds: seq<Datagram>, d: Datagram)
    ensures AllRouted(ds + [d]) == AllRouted(ds) + [Routed(d)]
    decreases |ds|
  {
    if ds != [] {
      assert (ds + [d])[1..] == ds[1..] + [d];
      RoutedAppend(ds[1..], d);
    }
  }

  /** What is routed last and leaves the members is the last frame, and is sent as a plain one. */
  lemma LastRouted(n: Node, ds: seq<Datagram>, d: Datagram, r: Node)
    requires Does(n, AllRouted(ds + [d]), r)
    requires Leaves(n.cfg.mesh, n.cfg.self, d) && InMesh(d.dst.value.ip)
    ensures r.tunnel != [] && r.tunnel[|r.tunnel| - 1] == Outgoing(d.dst.value.ip, Frame.Plain(MessageOf(d)))
  {
    var frames := FramesIn(n.cfg, n.peers, [], AllRouted(ds));
    RoutedAppend(ds, d);
    FramesInAppend(n.cfg, n.peers, [], AllRouted(ds), [Routed(d)]);
    var last := FramesIn(n.cfg, n.peers, [] + AllRouted(ds), [Routed(d)]);
    assert last == [Outgoing(d.dst.value.ip, Frame.Plain(MessageOf(d)))] +
                   FramesIn(n.cfg, n.peers, [] + AllRouted(ds) + [Routed(d)], []);
  }

  /** A client's poll: once everything pending is routed, the last frame sent is the counter as it stands, to that client. */
  lemma PollIsAnswered(n: Node, client: Ip, m: Message)
    requires PlainChannels(n.ctrl.channels) && forall d :: d in n.app.pending ==> !d.payload.Start?
    requires m.dstPort == APP_PORT && m.payload == Payload.App(State) && m.srcPort != 0
    requires InMesh(client) && client !in n.cfg.mesh
    ensures var q := React(n, Arrive(client, Frame.Plain(m))); var r := Reacted(q, Intercepts(|q.app.pending|));
            && r.app == n.app.(pending := [])
            && r.tunnel != [] && r.tunnel[|r.tunnel| - 1] ==
               Outgoing(client, Frame.Plain(
                 Msg(Payload.App(StateIs(n.app.name, n.app.counter)), APP_PORT, m.srcPort, client)))
  {
    var q := React(n, Arrive(client, Frame.Plain(m)));
    var answer := Reply(n.app.ip, Address(client, m.srcPort), StateIs(n.app.name, n.app.counter));
    PollPends(n, client, m);
    LoopDrains(q);
    LoopRoutes(q);
    DrainDoes(q);
    LastRouted(q, n.app.pending, answer, Drain(q));
  }

  lemma PollPends(n: Node, client: Ip, m: Message)
    requires PlainChannels(n.ctrl.channels) && m.dstPort == APP_PORT && m.payload == Payload.App(State)
    ensures var q := React(n, Arrive(client, Frame.Plain(m)));
            && q.cfg == n.cfg && q.ctrl == n.ctrl && q.app == n.app.(pending := q.app.pending)
            && q.app.pending ==
               n.app.pending + [Reply(n.app.ip, Address(client, m.srcPort), StateIs(n.app.name, n.app.counter))]
  {
    ReceiveAnswers(n.app, client, m);
  }

  // ---------- Retransmissions ----------

  function Resends(due: seq<(Ip, nat)>): (es: seq<Event>)
    ensures |es| == |due| && forall x :: 0 <= x < |due| ==> es[x] == Resend(due[x].0, due[x].1)
  {
    if due == [] then [] else [Resend(due[0].0, due[0].1)] + Resends(due[1..])
  }

  /** One round of the retransmission loop: an abort if the time of a wave is over, and what is due is sent again. */
  function Round(expired: bool, due: seq<(Ip, nat)>): (es: seq<Event>)
    ensures forall e :: e in es ==> e.TimedOut? || e.Resend?
  {
    (if expired then [TimedOut] else []) + Resends(due)
  }

  /** A copy of each message that is due and not acknowledged, in order. */
  function Copies(peers: map<Ip, Peer>, due: seq<(Ip, nat)>): seq<Outgoing> {
    if due == [] then [] else CopyOf(peers, due[0].0, due[0].1) + Copies(peers, due[1..])
  }

  lemma {:induction false} MoreCopies(peers: map<Ip, Peer>, due: seq<(Ip, nat)>, more: seq<(Ip, nat)>)
    ensures Copies(peers, due + more) == Copies(peers, due) + Copies(peers, more)
    decreases |due|
  {
    if due == [] {
      assert due + more == more;
    } else {
      assert (due + more)[1..] == due[1..] + more;
      MoreCopies(peers, due[1..], more);
    }
  }

  /** A round sends copies as they were sent first, and changes nothing else. */
  lemma {:induction false} ResendsCopy(n: Node, due: seq<(Ip, nat)>)
    requires PlainChannels(n.ctrl.channels)
    ensures Reacted(n, Resends(due)) == n.(tunnel := n.tunnel + Copies(n.peers, due))
    decreases |due|
  {
    if due == [] {
      assert n.tunnel + [] == n.tunnel;
    } else {
      var r := Retransmit(n, due[0].0, due[0].1);
      ResendResponds(n, due[0].0, due[0].1);
      assert r.tunnel == n.tunnel + CopyOf(n.peers, due[0].0, due[0].1);
      assert Resends(due)[1..] == Resends(due[1..]);
      ResendsCopy(r, due[1..]);
      Regroup(n.tunnel, CopyOf(n.peers, due[0].0, due[0].1), Copies(n.peers, due[1..]));
    }
  }

  /** The copy of a message that was sent. */
  ghost predicate IsCopy(peers: map<Ip, Peer>, k: Ip, sn: nat, o: Outgoing) {
    sn < |At(peers, k).sent| && o == Outgoing(k, Data(sn, At(peers, k).sent[sn]))
  }

  /** When only messages are due that await acknowledgement, there is exactly one copy for each. */
  lemma {:induction false} CopiesAre(peers: map<Ip, Peer>, due: seq<(Ip, nat)>)
    requires forall x :: 0 <= x < |due| ==> due[x].1 in At(peers, due[x].0).Unacked()
    ensures |Copies(peers, due)| == |due|
    ensures forall x :: 0 <= x < |due| ==> IsCopy(peers, due[x].0, due[x].1, Copies(peers, due)[x])
    decreases |due|
  {
    if due != [] {
      var first, rest := CopyOf(peers, due[0].0, due[0].1), Copies(peers, due[1..]);
      CopiesAre(peers, due[1..]);
      assert due[0].1 in At(peers, due[0].0).Unacked();
      assert |first| == 1 && Copies(peers, due) == first + rest;
      forall x | 0 < x < |due| ensures IsCopy(peers, due[x].0, due[x].1, Copies(peers, due)[x]) {
        assert due[x] == due[1..][x - 1] && Copies(peers, due)[x] == rest[x - 1];
      }
    }
  }

  /** A whole round: the abort, if there is one, and one copy of what is due. */
  lemma RoundCopies(n: Node, expired: bool, due: seq<(Ip, nat)>)
    requires PlainChannels(n.ctrl.channels)
    ensures var r := if expired then Timeout(n) else n;
            && r.tunnel == n.tunnel && Copies(r.peers, due) == Copies(n.peers, due)
            && Reacted(n, Round(expired, due)) == r.(tunnel := n.tunnel + Copies(n.peers, due))
  {
    var r := if expired then Timeout(n) else n;
    TimeoutCopies(n, due);
    ResendsCopy(r, due);
    if expired {
      assert Round(true, due)[1..] == Resends(due);
    } else {
      assert Round(false, due) == Resends(due);
    }
  }

  /** An abort sends nothing and acknowledges nothing, so what is due stays so. */
  lemma TimeoutCopies(n: Node, due: seq<(Ip, nat)>)
    requires PlainChannels(n.ctrl.channels)
    ensures Timeout(n).tunnel == n.tunnel && Copies(Timeout(n).peers, due) == Copies(n.peers, due)
  {
    LocalTimeout(n);
    SameCopies(n.peers, Timeout(n).peers, due);
  }

  lemma LocalTimeout(n: Node)
    requires PlainChannels(n.ctrl.channels)
    ensures Timeout(n).tunnel == n.tunnel
    ensures forall k :: SendsNothing(At(n.peers, k), At(Timeout(n).peers, k))
  {
    if n.ctrl.active {
      FinishSays(n, Aborted);
      FinishDoes(n, Aborted);
      NothingSent(n.cfg, n.ctrl.channels, n.cfg.order);
      forall k ensures SendsNothing(At(n.peers, k), At(Timeout(n).peers, k)) {
        assert ConductsLink(n, AllFlushed(n.ctrl.channels, n.cfg.order), Timeout(n), k);
        assert SendsOn(At(n.peers, k), At(Finish(n, Aborted).peers, k));
      }
    }
  }

  ghost predicate SendsNothing(p: Peer, q: Peer) {
    q.sent == p.sent && q.acked == p.acked
  }

  lemma {:induction false} SameCopies(p: map<Ip, Peer>, q: map<Ip, Peer>, due: seq<(Ip, nat)>)
    requires forall k :: SendsNothing(At(p, k), At(q, k))
    ensures Copies(q, due) == Copies(p, due)
    decreases |due|
  {
    if due != [] {
      assert SendsNothing(At(p, due[0].0), At(q, due[0].0));
      SameCopies(p, q, due[1..]);
    }
  }
}
