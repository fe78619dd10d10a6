/** The mesh as its apps are meant to see it: counters over first-in-first-out channels, with no sidecar and no snapshot. */
module Plain {
  import opened Wrappers
  import opened Mesh
  import opened Counter
  import opened Sidecar

  /** An app, what has left the mesh, and what was sent to and heard from each member, in order. */
  datatype Member = Member(app: App, exits: seq<Datagram>, sent: map<Ip, seq<Message>>, got: map<Ip, seq<Message>>)

  /** What a member can do: its local processes speak, what it emitted travels, and it hears a member or an outsider. */
  datatype Step =
    | Say(datagram: Datagram)
    | Pick
    | Skip
    | Hand(from: Ip, msg: Message)
    | Hear(outsider: Ip, msg: Message)

  /** A datagram the mesh routes to the channel of a member. */
  predicate ToMember(mesh: seq<Ip>, self: Ip, d: Datagram) {
    d.dst.Some? && d.dst.value.port != 0 && InMesh(d.dst.value.ip) && self in mesh && d.dst.value.ip in mesh
  }

  predicate Leaves(mesh: seq<Ip>, self: Ip, d: Datagram) {
    d.dst.Some? && d.dst.value.port != 0 && !ToMember(mesh, self, d)
  }

  ghost predicate Can(mesh: seq<Ip>, v: Member, step: Step) {
    match step
    case Say(d) => SoundDatagram(d) && DatagramValue(d) == 0
    case Pick => v.app.pending != [] && forall k :: k in mesh ==> k in v.sent
    case Skip => v.app.pending != [] && v.app.pending[0].payload.Start?
    case Hand(i, m) => i in v.got
    case Hear(from, m) => from !in mesh && Sound(m) && Value(m) == 0
  }

  function Do(mesh: seq<Ip>, self: Ip, v: Member, step: Step): Member
    requires Can(mesh, v, step)
  {
    match step
    case Say(d) => v.(app := v.app.(pending := v.app.pending + [d]))
    case Pick =>
      var d := v.app.pending[0];
      var popped := v.(app := v.app.(pending := v.app.pending[1..]));
      if ToMember(mesh, self, d) then popped.(sent := v.sent[d.dst.value.ip := v.sent[d.dst.value.ip] + [MessageOf(d)]])
      else if Leaves(mesh, self, d) then popped.(exits := v.exits + [d])
      else popped
    case Skip => v.(app := v.app.(pending := v.app.pending[1..]))
    case Hand(i, m) => v.(app := v.app.Receive(i, m), got := v.got[i := v.got[i] + [m]])
    case Hear(from, m) => v.(app := v.app.Receive(from, m))
  }

  ghost predicate CanAll(mesh: seq<Ip>, self: Ip, v: Member, steps: seq<Step>)
    decreases |steps|
  {
    steps == [] || (Can(mesh, v, steps[0]) && CanAll(mesh, self, Do(mesh, self, v, steps[0]), steps[1..]))
  }

  function DoAll(mesh: seq<Ip>, self: Ip, v: Member, steps: seq<Step>): Member
    requires CanAll(mesh, self, v, steps)
    decreases |steps|
  {
    if steps == [] then v else DoAll(mesh, self, Do(mesh, self, v, steps[0]), steps[1..])
  }

  lemma {:induction false} DoAllAppend(mesh: seq<Ip>, self: Ip, v: Member, steps: seq<Step>, more: seq<Step>)
    requires CanAll(mesh, self, v, steps) && CanAll(mesh, self, DoAll(mesh, self, v, steps), more)
    ensures CanAll(mesh, self, v, steps + more)
    ensures DoAll(mesh, self, v, steps + more) == DoAll(mesh, self, DoAll(mesh, self, v, steps), more)
    decreases |steps|
  {
    if steps == [] {
      assert steps + more == more;
    } else {
      assert (steps + more)[1..] == steps[1..] + more;
      DoAllAppend(mesh, self, Do(mesh, self, v, steps[0]), steps[1..], more);
    }
  }

  // ---------- All members ----------

  datatype World = World(mesh: seq<Ip>, members: map<Ip, Member>)

  datatype Move = Move(member: Ip, step: Step)

  /** A member hears another only the next message of the channel between them. */
  ghost predicate Possible(g: World, a: Move) {
    && a.member in g.members && Can(g.mesh, g.members[a.member], a.step)
    && (a.step.Hand? ==>
          && a.step.from in g.members && a.member in g.members[a.step.from].sent
          && g.members[a.member].got[a.step.from] + [a.step.msg] <= g.members[a.step.from].sent[a.member])
  }

  function Make(g: World, a: Move): World
    requires Possible(g, a)
  {
    g.(members := g.members[a.member := Do(g.mesh, a.member, g.members[a.member], a.step)])
  }

  ghost predicate AllPossible(g: World, moves: seq<Move>)
    decreases |moves|
  {
    moves == [] || (Possible(g, moves[0]) && AllPossible(Make(g, moves[0]), moves[1..]))
  }

  function Play(g: World, moves: seq<Move>): World
    requires AllPossible(g, moves)
    decreases |moves|
  {
    if moves == [] then g else Play(Make(g, moves[0]), moves[1..])
  }

  lemma {:induction false} PlayAppend(g: World, moves: seq<Move>, more: seq<Move>)
    requires AllPossible(g, moves) && AllPossible(Play(g, moves), more)
    ensures AllPossible(g, moves + more) && Play(g, moves + more) == Play(Play(g, moves), more)
    decreases |moves|
  {
    if moves == [] {
      assert moves + more == more;
    } else {
      assert (moves + more)[1..] == moves[1..] + more;
      PlayAppend(Make(g, moves[0]), moves[1..], more);
    }
  }

  /** Nobody has heard what was not sent to it, channel by channel and in order. */
  ghost predicate Sensible(g: World) {
    forall i, j :: i in g.members && j in g.members ==> Queue(g, i, j)
  }

  ghost predicate Queue(g: World, i: Ip, j: Ip)
    requires i in g.members && j in g.members
  {
    j in g.members[i].sent && i in g.members[j].got && g.members[j].got[i] <= g.members[i].sent[j]
  }

  lemma MakeQueue(g: World, a: Move, i: Ip, j: Ip)
    requires Possible(g, a) && i in g.members && j in g.members && Queue(g, i, j)
    ensures Queue(Make(g, a), i, j)
  {
  }

  /** A plain run keeps every channel a queue. */
  lemma {:induction false} PlaySensible(g: World, moves: seq<Move>)
    requires Sensible(g) && AllPossible(g, moves)
    ensures Sensible(Play(g, moves))
    decreases |moves|
  {
    if moves != [] {
      forall i, j | i in g.members && j in g.members ensures Queue(Make(g, moves[0]), i, j) {
        MakeQueue(g, moves[0], i, j);
      }
      PlaySensible(Make(g, moves[0]), moves[1..]);
    }
  }

  function MovesOf(j: Ip, steps: seq<Step>): (moves: seq<Move>)
    ensures |moves| == |steps|
  {
    if steps == [] then [] else [Move(j, steps[0])] + MovesOf(j, steps[1..])
  }

  /** What was heard from `i`, and the histories of sending, only grow. */
  lemma {:induction false} DoAllGrows(mesh: seq<Ip>, self: Ip, v: Member, steps: seq<Step>, i: Ip)
    requires CanAll(mesh, self, v, steps)
    ensures var r := DoAll(mesh, self, v, steps);
            && (i in v.got ==> i in r.got && v.got[i] <= r.got[i])
            && (i in v.sent ==> i in r.sent && v.sent[i] <= r.sent[i])
    decreases |steps|
  {
    if steps != [] {
      DoAllGrows(mesh, self, Do(mesh, self, v, steps[0]), steps[1..], i);
    }
  }

  /** All that member `j` ends up having heard had been sent before it started. */
  ghost predicate Backed(g: World, j: Ip, r: Member) {
    forall i :: i in r.got ==> i in g.members && j in g.members[i].sent && r.got[i] <= g.members[i].sent[j]
  }

  /** What one member can do on its own the mesh can do, when all it hears was sent before. */
  lemma {:induction false} Lift(g: World, j: Ip, steps: seq<Step>)
    requires j in g.members && CanAll(g.mesh, j, g.members[j], steps)
    requires Backed(g, j, DoAll(g.mesh, j, g.members[j], steps))
    ensures AllPossible(g, MovesOf(j, steps))
    ensures Play(g, MovesOf(j, steps)) == g.(members := g.members[j := DoAll(g.mesh, j, g.members[j], steps)])
    decreases |steps|
  {
    var v := g.members[j];
    if steps == [] {
      assert g.members[j := v] == g.members;
    } else {
      var v1 := Do(g.mesh, j, v, steps[0]);
      LiftOne(g, j, steps);
      var g1 := Make(g, Move(j, steps[0]));
      LiftBacked(g, j, steps);
      Lift(g1, j, steps[1..]);
      assert MovesOf(j, steps)[1..] == MovesOf(j, steps[1..]);
      assert g.members[j := v1][j := DoAll(g.mesh, j, v1, steps[1..])] == g.members[j := DoAll(g.mesh, j, v, steps)];
    }
  }

  lemma LiftOne(g: World, j: Ip, steps: seq<Step>)
    requires j in g.members && CanAll(g.mesh, j, g.members[j], steps) && steps != []
    requires Backed(g, j, DoAll(g.mesh, j, g.members[j], steps))
    ensures Possible(g, Move(j, steps[0]))
  {
    if steps[0].Hand? {
      DoAllGrows(g.mesh, j, Do(g.mesh, j, g.members[j], steps[0]), steps[1..], steps[0].from);
    }
  }

  lemma LiftBacked(g: World, j: Ip, steps: seq<Step>)
    requires j in g.members && CanAll(g.mesh, j, g.members[j], steps) && steps != []
    requires Backed(g, j, DoAll(g.mesh, j, g.members[j], steps)) && Possible(g, Move(j, steps[0]))
    ensures Backed(Make(g, Move(j, steps[0])), j, DoAll(g.mesh, j, g.members[j], steps))
  {
    var r, g1 := DoAll(g.mesh, j, g.members[j], steps), Make(g, Move(j, steps[0]));
    forall i | i in r.got ensures i in g1.members && j in g1.members[i].sent && r.got[i] <= g1.members[i].sent[j] {
      DoAllGrows(g.mesh, j, g.members[j], [steps[0]], j);
    }
  }
}
