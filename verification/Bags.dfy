/** The plain mesh over channels that are bags: what was sent may be heard in any order, but once. */
module Bags {
  import opened Mesh
  import opened Plain

  /** A member hears another only a message sent to it and not heard yet. */
  ghost predicate Allows(g: World, a: Move) {
    && a.member in g.members && Can(g.mesh, g.members[a.member], a.step)
    && (a.step.Hand? ==>
          && a.step.from in g.members && a.member in g.members[a.step.from].sent
          && multiset(g.members[a.member].got[a.step.from] + [a.step.msg]) <= multiset(g.members[a.step.from].sent[a.member]))
  }

  function Perform(g: World, a: Move): World
    requires Allows(g, a)
  {
    g.(members := g.members[a.member := Do(g.mesh, a.member, g.members[a.member], a.step)])
  }

  ghost predicate AllowsAll(g: World, moves: seq<Move>)
    decreases |moves|
  {
    moves == [] || (Allows(g, moves[0]) && AllowsAll(Perform(g, moves[0]), moves[1..]))
  }

  function PerformAll(g: World, moves: seq<Move>): World
    requires AllowsAll(g, moves)
    decreases |moves|
  {
    if moves == [] then g else PerformAll(Perform(g, moves[0]), moves[1..])
  }

  /** A run over bags leads from `g` to `h`. */
  ghost predicate Reaches(g: World, moves: seq<Move>, h: World) {
    AllowsAll(g, moves) && PerformAll(g, moves) == h
  }

  lemma {:induction false} ReachesOn(g: World, moves: seq<Move>, h: World, more: seq<Move>, k: World)
    requires Reaches(g, moves, h) && Reaches(h, more, k)
    ensures Reaches(g, moves + more, k)
    decreases |moves|
  {
    if moves == [] {
      assert moves + more == more;
    } else {
      assert (moves + more)[1..] == moves[1..] + more;
      ReachesOn(Perform(g, moves[0]), moves[1..], h, more, k);
    }
  }

  /** All that member `j` ends up having heard had been sent before it started, as often as it was heard. */
  ghost predicate Covered(g: World, j: Ip, r: Member) {
    forall i :: i in r.got ==> CoveredBy(g, j, r, i)
  }

  ghost predicate CoveredBy(g: World, j: Ip, r: Member, i: Ip)
    requires i in r.got
  {
    i in g.members && j in g.members[i].sent && multiset(r.got[i]) <= multiset(g.members[i].sent[j])
  }

  lemma PrefixBag(a: seq<Message>, b: seq<Message>)
    requires a <= b
    ensures multiset(a) <= multiset(b)
  {
    assert b == a + b[|a|..];
  }

  lemma LiftAllows(g: World, j: Ip, steps: seq<Step>)
    requires j in g.members && CanAll(g.mesh, j, g.members[j], steps) && steps != []
    requires Covered(g, j, DoAll(g.mesh, j, g.members[j], steps))
    ensures Allows(g, Move(j, steps[0]))
  {
    if steps[0].Hand? {
      var v, i := g.members[j], steps[0].from;
      var r := DoAll(g.mesh, j, v, steps);
      DoAllGrows(g.mesh, j, Do(g.mesh, j, v, steps[0]), steps[1..], i);
      PrefixBag(v.got[i] + [steps[0].msg], r.got[i]);
      assert CoveredBy(g, j, r, i);
    }
  }

  lemma LiftCovered(g: World, j: Ip, step: Step, r: Member)
    requires Allows(g, Move(j, step)) && Covered(g, j, r)
    ensures Covered(Perform(g, Move(j, step)), j, r)
  {
    var g1 := Perform(g, Move(j, step));
    forall i | i in r.got ensures CoveredBy(g1, j, r, i) {
      assert CoveredBy(g, j, r, i);
      if i == j {
        var a, b := g.members[j].sent[j], g1.members[j].sent[j];
        assert a <= b;
        PrefixBag(a, b);
      }
    }
  }

  /** What one member can do on its own the mesh can do, when all it hears was sent before. */
  lemma {:induction false} LiftBags(g: World, j: Ip, steps: seq<Step>)
    requires j in g.members && CanAll(g.mesh, j, g.members[j], steps)
    requires Covered(g, j, DoAll(g.mesh, j, g.members[j], steps))
    ensures Reaches(g, MovesOf(j, steps), g.(members := g.members[j := DoAll(g.mesh, j, g.members[j], steps)]))
    decreases |steps|
  {
    var v := g.members[j];
    if steps == [] {
      assert g.members[j := v] == g.members;
    } else {
      var r := DoAll(g.mesh, j, v, steps);
      LiftAllows(g, j, steps);
      LiftCovered(g, j, steps[0], r);
      var g1 := Perform(g, Move(j, steps[0]));
      LiftBags(g1, j, steps[1..]);
      assert MovesOf(j, steps)[1..] == MovesOf(j, steps[1..]);
      assert g1.members[j := r] == g.members[j := r];
    }
  }
}
