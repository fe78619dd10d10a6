/** The total of the mesh: what members hold, plus what is between them, is what their books say. */
module Conservation {
  import opened Mesh
  import opened Counter
  import opened Sidecar
  import opened Sums
  import opened Ledger
  import opened Network

  // ---------- Sums over ordered pairs ----------

  type Grid = map<(Ip, Ip), int>

  function Cell(g: Grid, i: Ip, k: Ip): int {
    if (i, k) in g then g[(i, k)] else 0
  }

  function RowTotal(g: Grid, i: Ip, ks: seq<Ip>): int {
    if ks == [] then 0 else Cell(g, i, ks[0]) + RowTotal(g, i, ks[1..])
  }

  function ColumnTotal(g: Grid, rows: seq<Ip>, k: Ip): int {
    if rows == [] then 0 else Cell(g, rows[0], k) + ColumnTotal(g, rows[1..], k)
  }

  function ByRows(g: Grid, rows: seq<Ip>, ks: seq<Ip>): int {
    if rows == [] then 0 else RowTotal(g, rows[0], ks) + ByRows(g, rows[1..], ks)
  }

  function ByColumns(g: Grid, rows: seq<Ip>, ks: seq<Ip>): int {
    if ks == [] then 0 else ColumnTotal(g, rows, ks[0]) + ByColumns(g, rows, ks[1..])
  }

  lemma {:induction false} ByColumnsSplit(g: Grid, rows: seq<Ip>, ks: seq<Ip>)
    requires rows != []
    ensures ByColumns(g, rows, ks) == RowTotal(g, rows[0], ks) + ByColumns(g, rows[1..], ks)
  {
    if ks != [] {
      ByColumnsSplit(g, rows, ks[1..]);
    }
  }

  lemma {:induction false} NoRows(g: Grid, ks: seq<Ip>)
    ensures ByColumns(g, [], ks) == 0
  {
    if ks != [] {
      NoRows(g, ks[1..]);
    }
  }

  lemma {:induction false} RowsAreColumns(g: Grid, rows: seq<Ip>, ks: seq<Ip>)
    ensures ByRows(g, rows, ks) == ByColumns(g, rows, ks)
  {
    if rows == [] {
      NoRows(g, ks);
    } else {
      ByColumnsSplit(g, rows, ks);
      RowsAreColumns(g, rows[1..], ks);
    }
  }

  lemma {:induction false} RowTotalSum(u: Grid, v: Grid, w: Grid, i: Ip, ks: seq<Ip>)
    requires forall k :: k in ks ==> Cell(w, i, k) == Cell(u, i, k) + Cell(v, i, k)
    ensures RowTotal(w, i, ks) == RowTotal(u, i, ks) + RowTotal(v, i, ks)
  {
    if ks != [] {
      RowTotalSum(u, v, w, i, ks[1..]);
    }
  }

  lemma {:induction false} ByRowsSum(u: Grid, v: Grid, w: Grid, rows: seq<Ip>, ks: seq<Ip>)
    requires forall i, k :: i in rows && k in ks ==> Cell(w, i, k) == Cell(u, i, k) + Cell(v, i, k)
    ensures ByRows(w, rows, ks) == ByRows(u, rows, ks) + ByRows(v, rows, ks)
  {
    if rows != [] {
      RowTotalSum(u, v, w, rows[0], ks);
      ByRowsSum(u, v, w, rows[1..], ks);
    }
  }

  // ---------- A global state: one side of the links at each member ----------

  datatype Side = Side(app: App, exits: seq<Datagram>, peers: map<Ip, Peer>)

  function SideWorth(mesh: seq<Ip>, v: Side): int {
    v.app.Worth() + SumDatagrams(v.exits) + Total(mesh, Nets(v.peers))
  }

  /** What the member itself holds: its counter, credits not yet forwarded, and credits that left the mesh. */
  function OnHand(v: Side): int {
    v.app.Worth() + SumDatagrams(v.exits)
  }

  type Global = map<Ip, Side>

  /** The messages sent from `i` to `j` that `j` has not taken in. */
  function Channel(g: Global, i: Ip, j: Ip): seq<Message>
    requires i in g && j in g && At(g[j].peers, i).got <= At(g[i].peers, j).sent
  {
    At(g[i].peers, j).sent[|At(g[j].peers, i).got|..]
  }

  /** No member has taken in what was never sent to it. */
  ghost predicate Consistent(g: Global) {
    forall i, j :: i in g && j in g ==> At(g[j].peers, i).got <= At(g[i].peers, j).sent
  }

  function SentGrid(g: Global): Grid {
    map i, j | i in g && j in g :: (i, j) := SumMessages(At(g[i].peers, j).sent)
  }

  function GotGrid(g: Global): Grid {
    map i, j | i in g && j in g :: (i, j) := SumMessages(At(g[j].peers, i).got)
  }

  function FlightGrid(g: Global): Grid
    requires Consistent(g)
  {
    map i, j | i in g && j in g :: (i, j) := SumMessages(Channel(g, i, j))
  }

  function HandTotal(ks: seq<Ip>, g: Global): int
    requires forall k :: k in ks ==> k in g
  {
    if ks == [] then 0 else OnHand(g[ks[0]]) + HandTotal(ks[1..], g)
  }

  function WorthTotal(mesh: seq<Ip>, ks: seq<Ip>, g: Global): int
    requires forall k :: k in ks ==> k in g
  {
    if ks == [] then 0 else SideWorth(mesh, g[ks[0]]) + WorthTotal(mesh, ks[1..], g)
  }

  lemma {:induction false} NetsAreGrids(g: Global, j: Ip, ks: seq<Ip>)
    requires j in g && forall k :: k in ks ==> k in g
    ensures Total(ks, Nets(g[j].peers)) == RowTotal(SentGrid(g), j, ks) - ColumnTotal(GotGrid(g), ks, j)
  {
    if ks != [] {
      NetsAreGrids(g, j, ks[1..]);
    }
  }

  lemma {:induction false} WorthIsGrids(mesh: seq<Ip>, ks: seq<Ip>, g: Global)
    requires (forall k :: k in mesh ==> k in g) && (forall k :: k in ks ==> k in g)
    ensures WorthTotal(mesh, ks, g) == HandTotal(ks, g) + ByRows(SentGrid(g), ks, mesh) - ByColumns(GotGrid(g), mesh, ks)
  {
    if ks != [] {
      NetsAreGrids(g, ks[0], mesh);
      WorthIsGrids(mesh, ks[1..], g);
    }
  }

  /** What has been sent on a channel and not taken in, by value alone. */
  function SlackGrid(g: Global): Grid {
    map i, j | i in g && j in g :: (i, j) := SumMessages(At(g[i].peers, j).sent) - SumMessages(At(g[j].peers, i).got)
  }

  /** In every global state, what the members hold plus what they have sent and not taken in is the sum of their books. */
  lemma WorthIsHandsAndSlack(mesh: seq<Ip>, g: Global)
    requires forall k :: k in mesh ==> k in g
    ensures WorthTotal(mesh, mesh, g) == HandTotal(mesh, g) + ByRows(SlackGrid(g), mesh, mesh)
  {
    WorthIsGrids(mesh, mesh, g);
    RowsAreColumns(GotGrid(g), mesh, mesh);
    ByRowsSum(GotGrid(g), SlackGrid(g), SentGrid(g), mesh, mesh);
  }

  lemma {:induction false} RowTotalSame(u: Grid, v: Grid, i: Ip, ks: seq<Ip>)
    requires forall k :: k in ks ==> Cell(u, i, k) == Cell(v, i, k)
    ensures RowTotal(u, i, ks) == RowTotal(v, i, ks)
  {
    if ks != [] {
      RowTotalSame(u, v, i, ks[1..]);
    }
  }

  lemma {:induction false} ByRowsSame(u: Grid, v: Grid, rows: seq<Ip>, ks: seq<Ip>)
    requires forall i, k :: i in rows && k in ks ==> Cell(u, i, k) == Cell(v, i, k)
    ensures ByRows(u, rows, ks) == ByRows(v, rows, ks)
  {
    if rows != [] {
      RowTotalSame(u, v, rows[0], ks);
      ByRowsSame(u, v, rows[1..], ks);
    }
  }

  lemma SlackIsFlight(g: Global, i: Ip, k: Ip)
    requires Consistent(g) && i in g && k in g
    ensures Cell(SlackGrid(g), i, k) == Cell(FlightGrid(g), i, k)
  {
    SlackCell(g, i, k);
    FlightCell(g, i, k);
    RestValue(At(g[k].peers, i).got, At(g[i].peers, k).sent);
  }

  lemma SlackCell(g: Global, i: Ip, k: Ip)
    requires i in g && k in g
    ensures Cell(SlackGrid(g), i, k) == SumMessages(At(g[i].peers, k).sent) - SumMessages(At(g[k].peers, i).got)
  {
  }

  lemma FlightCell(g: Global, i: Ip, k: Ip)
    requires Consistent(g) && i in g && k in g
    ensures At(g[k].peers, i).got <= At(g[i].peers, k).sent
    ensures Cell(FlightGrid(g), i, k) == SumMessages(At(g[i].peers, k).sent[|At(g[k].peers, i).got|..])
  {
  }

  lemma RestValue(got: seq<Message>, sent: seq<Message>)
    requires got <= sent
    ensures SumMessages(sent[|got|..]) == SumMessages(sent) - SumMessages(got)
  {
    assert sent == got + sent[|got|..];
    SumMessagesAppend(got, sent[|got|..]);
  }

  /** When no member is ahead of its senders, that is the value of the messages in the channels. */
  lemma WorthIsHandsAndChannels(mesh: seq<Ip>, g: Global)
    requires Consistent(g) && forall k :: k in mesh ==> k in g
    ensures WorthTotal(mesh, mesh, g) == HandTotal(mesh, g) + ByRows(FlightGrid(g), mesh, mesh)
  {
    WorthIsHandsAndSlack(mesh, g);
    var slack, flight := SlackGrid(g), FlightGrid(g);
    forall i, k | i in mesh && k in mesh ensures Cell(slack, i, k) == Cell(flight, i, k) {
      SlackIsFlight(g, i, k);
    }
    ByRowsSame(slack, flight, mesh, mesh);
  }

  // ---------- Live conservation ----------

  function Live(s: System): Global {
    map j | j in s.nodes :: Side(s.nodes[j].app, s.nodes[j].exits, s.nodes[j].peers)
  }

  function BooksTotal(s: System, ks: seq<Ip>): int
    requires forall k :: k in ks ==> k in s.nodes
  {
    if ks == [] then 0 else Balance(s.nodes[ks[0]]) + BooksTotal(s, ks[1..])
  }

  function HeldTotal(s: System, ks: seq<Ip>): int
    requires forall k :: k in ks ==> k in s.nodes
  {
    if ks == [] then 0
    else Total(s.nodes[ks[0]].cfg.order, Held(s.nodes[ks[0]].ctrl)) + HeldTotal(s, ks[1..])
  }

  lemma {:induction false} BooksAreWorths(s: System, ks: seq<Ip>)
    requires forall k :: k in ks ==> k in s.nodes && s.nodes[k].cfg.mesh == s.mesh
    ensures BooksTotal(s, ks) == WorthTotal(s.mesh, ks, Live(s)) + HeldTotal(s, ks)
  {
    if ks != [] {
      BooksAreWorths(s, ks[1..]);
    }
  }

  lemma {:induction false} BooksSame(s: System, r: System, ks: seq<Ip>)
    requires SameBooks(s, r) && forall k :: k in ks ==> k in s.nodes
    ensures (forall k :: k in ks ==> k in r.nodes) && BooksTotal(r, ks) == BooksTotal(s, ks)
  {
    if ks != [] {
      BooksSame(s, r, ks[1..]);
    }
  }

  /** Counters, credits waiting to be forwarded or gone outside, credits held by controllers, and credits in channels. */
  function LiveTotal(s: System): int
    requires Inv(s)
  {
    LiveConsistent(s);
    HandTotal(s.mesh, Live(s)) + HeldTotal(s, s.mesh) + ByRows(FlightGrid(Live(s)), s.mesh, s.mesh)
  }

  lemma LiveConsistent(s: System)
    requires Inv(s)
    ensures Consistent(Live(s)) && forall k :: k in s.mesh ==> k in s.nodes && k in Live(s)
  {
    forall k | k in s.mesh ensures k in s.nodes {
      assert k in SetOf(s.mesh);
    }
    var g := Live(s);
    forall i, j | i in g && j in g ensures At(g[j].peers, i).got <= At(g[i].peers, j).sent {
      Ahead(s, i, j);
    }
  }

  lemma Ahead(s: System, i: Ip, j: Ip)
    requires Inv(s) && i in s.nodes && j in s.nodes
    ensures Link(s, j, i).got <= Link(s, i, j).sent
  {
    LinkOf(s, i, j);
  }

  lemma LiveTotalIsBooks(s: System)
    requires Inv(s)
    ensures (forall k :: k in s.mesh ==> k in s.nodes) && LiveTotal(s) == BooksTotal(s, s.mesh)
  {
    LiveConsistent(s);
    forall k | k in s.mesh ensures s.nodes[k].cfg.mesh == s.mesh {
      assert MemberInv(s, k);
    }
    BooksAreWorths(s, s.mesh);
    WorthIsHandsAndChannels(s.mesh, Live(s));
  }

  /**
   * The total is the same in every reachable state: whatever is lost, repeated, reordered or retransmitted,
   * whichever waves overlap, go stale, time out or fail to be stored.
   */
  lemma TotalIsConserved(s: System, run: seq<Action>)
    requires Inv(s) && Legal(s, run)
    ensures Inv(Run(s, run)) && LiveTotal(Run(s, run)) == LiveTotal(s)
  {
    RunKeeps(s, run);
    LiveTotalIsBooks(s);
    LiveTotalIsBooks(Run(s, run));
    BooksSame(s, Run(s, run), s.mesh);
  }
}
