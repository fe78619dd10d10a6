/** The counter app: one node's receive loop, one datagram at a time. */
module Counter {
  import opened Wrappers
  import opened Mesh

  /** The app of one mesh member. `pending` is what it has emitted and the sidecar has not yet picked up. */
  datatype App = App(ip: Ip, name: string, counter: int, pending: seq<Datagram>) {

    function Emit(srcPort: nat, dst: Address, command: Command): App {
      this.(pending := pending + [Datagram(Address(ip, srcPort), Some(dst), Payload.App(command))])
    }

    /** One round of the receive loop: handle `command`, sent from `origin`. */
    function Handle(origin: Address, command: Command): App {
      match command
      case State | StateIs(_, _) =>
        Emit(APP_PORT, origin, StateIs(name, counter))
      case Credit(txid, _, amount) =>
        this.(counter := counter + amount).Emit(APP_PORT, origin, Done("CREDIT", txid))
      case Transfer(txid, host, port, amount) =>
        var debited := this.(counter := counter - amount);
        var credited := if host.Some?
          then debited.Emit(EPHEMERAL_PORT, Address(host.value, port), Credit(txid, name, amount))
          else debited;
        credited.Emit(APP_PORT, origin, Done("TRANSFER", txid))
      case Reset(amount) =>
        this.(counter := amount).Emit(APP_PORT, origin, Done("RESET", ""))
      case Malformed =>
        this
      case Done(_, _) | Unknown =>
        Emit(APP_PORT, origin, Unknown)
    }

    /** A message handed to the app's host: only its own port reaches the app. */
    function Receive(from: Ip, m: Message): App {
      if m.dstPort != APP_PORT then
        this
      else
        var command := if m.payload.App? then m.payload.command else Unknown;
        Handle(Address(from, m.srcPort), command)
    }

    /** What the app accounts for: its counter, and the credits it has emitted. */
    function Worth(): int {
      counter + SumDatagrams(pending)
    }
  }

  /** Commands that neither overwrite a counter nor send money nowhere. */
  predicate Sound(m: Message) {
    m.dstPort == APP_PORT && m.payload.App? ==>
      match m.payload.command
      case Reset(_) => false
      case Transfer(_, host, port, amount) => amount == 0 || (host.Some? && port == APP_PORT)
      case _ => true
  }

  /** A datagram the sidecar may be asked to forward: never a marker. */
  predicate SoundDatagram(d: Datagram) {
    !d.payload.Marker? && (d.dst.Some? ==> Sound(MessageOf(d)))
  }

  lemma EmitWorth(a: App, srcPort: nat, dst: Address, command: Command)
    ensures a.Emit(srcPort, dst, command).Worth() ==
            a.Worth() + Value(Msg(Payload.App(command), srcPort, dst.port, dst.ip))
  {
    var d := Datagram(Address(a.ip, srcPort), Some(dst), Payload.App(command));
    SumDatagramsAppend(a.pending, [d]);
    assert SumDatagrams([d]) == DatagramValue(d);
  }

  /**
   * Receiving a message moves exactly its value into the app, whatever the counter was,
   * if and only if the message is sound or resets the counter to what it already was.
   */
  lemma ReceiveConserves(a: App, from: Ip, m: Message)
    ensures a.Receive(from, m).Worth() == a.Worth() + Value(m) <==>
            Sound(m) || (m.payload.App? && m.payload.command == Reset(a.counter))
  {
    if m.dstPort == APP_PORT {
      var command := if m.payload.App? then m.payload.command else Unknown;
      var origin := Address(from, m.srcPort);
      match command
      case State | StateIs(_, _) =>
        EmitWorth(a, APP_PORT, origin, StateIs(a.name, a.counter));
      case Credit(txid, _, amount) =>
        EmitWorth(a.(counter := a.counter + amount), APP_PORT, origin, Done("CREDIT", txid));
      case Transfer(txid, host, port, amount) =>
        var debited := a.(counter := a.counter - amount);
        if host.Some? {
          var credit := Credit(txid, a.name, amount);
          EmitWorth(debited, EPHEMERAL_PORT, Address(host.value, port), credit);
          EmitWorth(debited.Emit(EPHEMERAL_PORT, Address(host.value, port), credit),
                    APP_PORT, origin, Done("TRANSFER", txid));
        } else {
          EmitWorth(debited, APP_PORT, origin, Done("TRANSFER", txid));
        }
      case Reset(amount) =>
        EmitWorth(a.(counter := amount), APP_PORT, origin, Done("RESET", ""));
      case Malformed =>
      case Done(_, _) | Unknown =>
        EmitWorth(a, APP_PORT, origin, Unknown);
    }
  }

  /** What the app emits on receipt is itself sound, and the app keeps its identity. */
  lemma ReceiveEmitsSound(a: App, from: Ip, m: Message)
    requires forall d :: d in a.pending ==> SoundDatagram(d)
    ensures var b := a.Receive(from, m);
            && (forall d :: d in b.pending ==> SoundDatagram(d))
            && a.pending <= b.pending && b.ip == a.ip && b.name == a.name
  {
  }

  // ---------- The receive loop ----------

  /** A message that reached the host of the app, and where it came from. */
  datatype Arrival = Arrival(from: Ip, msg: Message)

  function Served(a: App, inbox: seq<Arrival>): App {
    if inbox == [] then a
    else Served(a, inbox[..|inbox| - 1]).Receive(inbox[|inbox| - 1].from, inbox[|inbox| - 1].msg)
  }

  function Reply(ip: Ip, origin: Address, command: Command): Datagram {
    Datagram(Address(ip, APP_PORT), Some(origin), Payload.App(command))
  }

  /** What a message that is not a RESET adds to the counter: a credit adds, a transfer takes away. */
  function Moved(m: Message): int {
    if m.dstPort != APP_PORT || !m.payload.App? then 0
    else match m.payload.command
      case Credit(_, _, amount) => amount
      case Transfer(_, _, _, amount) => -amount
      case _ => 0
  }

  function AllMoved(inbox: seq<Arrival>): int {
    if inbox == [] then 0 else AllMoved(inbox[..|inbox| - 1]) + Moved(inbox[|inbox| - 1].msg)
  }

  predicate IsReset(m: Message) {
    m.dstPort == APP_PORT && m.payload.App? && m.payload.command.Reset?
  }

  /** The position of the last RESET before datagram `k`; -1 if there is none. */
  function LastReset(inbox: seq<Arrival>, k: nat): (r: int)
    requires k <= |inbox|
    ensures -1 <= r < k
    ensures r >= 0 ==> IsReset(inbox[r].msg)
    ensures forall x :: r < x < k ==> !IsReset(inbox[x].msg)
  {
    if k == 0 then -1 else if IsReset(inbox[k - 1].msg) then k - 1 else LastReset(inbox, k - 1)
  }

  /** The counter before datagram `k`: the initial value, or what the last RESET set, moved by all that came since. */
  function CounterAt(init: int, inbox: seq<Arrival>, k: nat): int
    requires k <= |inbox|
  {
    var r := LastReset(inbox, k);
    if r < 0 then init + AllMoved(inbox[..k]) else inbox[r].msg.payload.command.amount + AllMoved(inbox[r + 1..k])
  }

  lemma CounterNext(init: int, inbox: seq<Arrival>, k: nat)
    requires k < |inbox|
    ensures CounterAt(init, inbox, 0) == init
    ensures CounterAt(init, inbox, k + 1) ==
            if IsReset(inbox[k].msg) then inbox[k].msg.payload.command.amount
            else CounterAt(init, inbox, k) + Moved(inbox[k].msg)
  {
    var r := LastReset(inbox, k);
    var since := if r < 0 then inbox[..k] else inbox[r + 1..k];
    if IsReset(inbox[k].msg) {
      assert inbox[k + 1..k + 1] == [];
    } else {
      assert (if r < 0 then inbox[..k + 1] else inbox[r + 1..k + 1]) == since + [inbox[k]];
      assert (since + [inbox[k]])[..|since|] == since;
    }
  }

  /** A datagram that is answered at all: it came to the node's own port and can be read. */
  predicate Answerable(m: Message) {
    m.dstPort == APP_PORT && !(m.payload.App? && m.payload.command.Malformed?)
  }

  /** The answer of a node of this name and counter, each kind of command having its own. */
  function AnswerTo(name: string, counter: int, m: Message): Command {
    if !m.payload.App? then Unknown
    else match m.payload.command
      case State | StateIs(_, _) => StateIs(name, counter)
      case Credit(txid, _, _) => Done("CREDIT", txid)
      case Transfer(txid, _, _, _) => Done("TRANSFER", txid)
      case Reset(_) => Done("RESET", "")
      case _ => Unknown
  }

  /** A TRANSFER to a host that can be resolved. */
  predicate Pays(m: Message) {
    Answerable(m) && m.payload.App? && m.payload.command.Transfer? && m.payload.command.host.Some?
  }

  /** What a TRANSFER makes the node emit: the amount in its own name, to the host and port it names. */
  predicate IsPayment(ip: Ip, name: string, m: Message, d: Datagram)
    requires Pays(m)
  {
    var t := m.payload.command;
    && d.payload == Payload.App(Credit(t.txid, name, t.amount)) && d.dst == Some(Address(t.host.value, t.port))
    && d.src.ip == ip && d.src.port != APP_PORT
  }

  /**
   * `out` is all that a node of this name and counter sends on this datagram: nothing unless it is answerable; else the
   * answer, from the node's port to where the datagram came from, and before it one payment if it is a TRANSFER.
   */
  predicate IsAnswer(ip: Ip, name: string, counter: int, a: Arrival, out: seq<Datagram>) {
    var m := a.msg;
    && |out| == (if Answerable(m) then 1 else 0) + (if Pays(m) then 1 else 0)
    && (Answerable(m) ==>
          && out[|out| - 1].src == Address(ip, APP_PORT) && out[|out| - 1].dst == Some(Address(a.from, m.srcPort))
          && out[|out| - 1].payload == Payload.App(AnswerTo(name, counter, m)))
    && (Pays(m) ==> IsPayment(ip, name, m, out[0]))
  }

  /** `emitted` falls into one part for each datagram, each the full answer to it at the counter it met. */
  ghost predicate AllAnswered(ip: Ip, name: string, init: int, inbox: seq<Arrival>, emitted: seq<Datagram>,
                              ends: seq<nat>) {
    && |ends| == |inbox| + 1 && ends[0] == 0 && ends[|inbox|] == |emitted|
    && forall k :: 0 <= k < |inbox| ==> AnsweredAt(ip, name, init, inbox, emitted, ends, k)
  }

  ghost predicate AnsweredAt(ip: Ip, name: string, init: int, inbox: seq<Arrival>, emitted: seq<Datagram>,
                             ends: seq<nat>, k: nat)
    requires k < |inbox| && |ends| == |inbox| + 1
  {
    ends[k] <= ends[k + 1] <= |emitted| &&
    IsAnswer(ip, name, CounterAt(init, inbox, k), inbox[k], emitted[ends[k]..ends[k + 1]])
  }

  /** One datagram: the answer to it, and the counter after it. */
  lemma ReceiveAnswers(a: App, from: Ip, m: Message)
    ensures var b := a.Receive(from, m);
            && b.ip == a.ip && b.name == a.name && a.pending <= b.pending
            && IsAnswer(a.ip, a.name, a.counter, Arrival(from, m), b.pending[|a.pending|..])
            && b.counter == if IsReset(m) then m.payload.command.amount else a.counter + Moved(m)
  {
  }

  lemma CounterPrefix(init: int, inbox: seq<Arrival>, more: seq<Arrival>, k: nat)
    requires k <= |inbox| && inbox <= more
    ensures CounterAt(init, inbox, k) == CounterAt(init, more, k)
  {
    assert LastReset(inbox, k) == LastReset(more, k);
    assert inbox[..k] == more[..k];
    assert forall x: nat :: x <= k ==> inbox[x..k] == more[x..k];
  }

  /** The parts found so far, and one more. */
  lemma OneMoreAnswered(ip: Ip, name: string, init: int, inbox: seq<Arrival>, a: Arrival, emitted: seq<Datagram>,
                        ends: seq<nat>, out: seq<Datagram>)
    requires AllAnswered(ip, name, init, inbox, emitted, ends)
    requires IsAnswer(ip, name, CounterAt(init, inbox, |inbox|), a, out)
    ensures AllAnswered(ip, name, init, inbox + [a], emitted + out, ends + [|emitted + out|])
  {
    var inbox', emitted', ends' := inbox + [a], emitted + out, ends + [|emitted + out|];
    forall k | 0 <= k < |inbox'| ensures AnsweredAt(ip, name, init, inbox', emitted', ends', k) {
      if k < |inbox| {
        assert AnsweredAt(ip, name, init, inbox, emitted, ends, k);
        CounterPrefix(init, inbox, inbox', k);
        assert emitted'[ends'[k]..ends'[k + 1]] == emitted[ends[k]..ends[k + 1]];
      } else {
        CounterPrefix(init, inbox, inbox', k);
        assert emitted'[ends'[k]..ends'[k + 1]] == out;
      }
    }
  }

  /**
   * The loop itself, for as long as there is something to receive. Every datagram is answered as it should be, at the
   * counter that the datagrams before it make up.
   */
  method Serve(ip: Ip, name: string, init: int, inbox: seq<Arrival>)
    returns (counter: int, emitted: seq<Datagram>, ghost ends: seq<nat>)
    ensures App.App(ip, name, counter, emitted) == Served(App.App(ip, name, init, []), inbox)
    ensures counter == CounterAt(init, inbox, |inbox|)
    ensures AllAnswered(ip, name, init, inbox, emitted, ends)
  {
    counter, emitted, ends := init, [], [0];
    for i := 0 to |inbox|
      invariant App.App(ip, name, counter, emitted) == Served(App.App(ip, name, init, []), inbox[..i])
      invariant counter == CounterAt(init, inbox, i)
      invariant AllAnswered(ip, name, init, inbox[..i], emitted, ends)
    {
      assert inbox[..i + 1][..i] == inbox[..i];
      ghost var before := App.App(ip, name, counter, emitted);
      var m := inbox[i].msg;
      if m.dstPort == APP_PORT {
        var origin := Address(inbox[i].from, m.srcPort);
        match m.payload
        case App(State) | App(StateIs(_, _)) =>
          emitted := emitted + [Reply(ip, origin, StateIs(name, counter))];
        case App(Credit(txid, _, amount)) =>
          counter := counter + amount;
          emitted := emitted + [Reply(ip, origin, Done("CREDIT", txid))];
        case App(Transfer(txid, host, port, amount)) =>
          counter := counter - amount;
          if host.Some? {
            emitted := emitted + [Datagram(Address(ip, EPHEMERAL_PORT), Some(Address(host.value, port)),
                                           Payload.App(Credit(txid, name, amount)))];
          }
          emitted := emitted + [Reply(ip, origin, Done("TRANSFER", txid))];
        case App(Reset(amount)) =>
          counter := amount;
          emitted := emitted + [Reply(ip, origin, Done("RESET", ""))];
        case App(Malformed) =>
        case App(Done(_, _)) | App(Unknown) | Marker(_) | Start(_) =>
          emitted := emitted + [Reply(ip, origin, Unknown)];
      }
      assert App.App(ip, name, counter, emitted) == before.Receive(inbox[i].from, m);
      Answering(before, init, inbox, i, ends);
      ends := ends + [|emitted|];
    }
    assert inbox[..|inbox|] == inbox;
  }

  /** One round of the loop, as the parts of what was emitted see it. */
  lemma Answering(a: App, init: int, inbox: seq<Arrival>, i: nat, ends: seq<nat>)
    requires i < |inbox| && a.counter == CounterAt(init, inbox, i)
    requires AllAnswered(a.ip, a.name, init, inbox[..i], a.pending, ends)
    ensures var b := a.Receive(inbox[i].from, inbox[i].msg);
            && AllAnswered(a.ip, a.name, init, inbox[..i + 1], b.pending, ends + [|b.pending|])
            && b.counter == CounterAt(init, inbox, i + 1)
  {
    var b := a.Receive(inbox[i].from, inbox[i].msg);
    ReceiveAnswers(a, inbox[i].from, inbox[i].msg);
    CounterPrefix(init, inbox[..i], inbox, i);
    CounterNext(init, inbox, i);
    OneMoreAnswered(a.ip, a.name, init, inbox[..i], inbox[i], a.pending, ends, b.pending[|a.pending|..]);
    assert a.pending + b.pending[|a.pending|..] == b.pending;
    assert inbox[..i] + [inbox[i]] == inbox[..i + 1];
  }

  lemma {:induction false} NoReset(a: App, inbox: seq<Arrival>)
    requires forall x :: 0 <= x < |inbox| ==> !IsReset(inbox[x].msg)
    ensures Served(a, inbox).counter == a.counter + AllMoved(inbox)
    decreases |inbox|
  {
    if inbox != [] {
      NoReset(a, inbox[..|inbox| - 1]);
    }
  }

  lemma {:induction false} ServedAppend(a: App, inbox: seq<Arrival>, more: seq<Arrival>)
    ensures Served(a, inbox + more) == Served(Served(a, inbox), more)
    decreases |more|
  {
    if more == [] {
      assert inbox + more == inbox;
    } else {
      assert (inbox + more)[..|inbox + more| - 1] == inbox + more[..|more| - 1];
      ServedAppend(a, inbox, more[..|more| - 1]);
    }
  }

  /** The counter is what the last RESET set, or the initial value without one, moved by every credit and transfer since. */
  lemma CounterSinceReset(a: App, before: seq<Arrival>, reset: Arrival, since: seq<Arrival>)
    requires IsReset(reset.msg) && forall x :: 0 <= x < |since| ==> !IsReset(since[x].msg)
    ensures Served(a, since).counter == a.counter + AllMoved(since)
    ensures Served(a, before + [reset] + since).counter == reset.msg.payload.command.amount + AllMoved(since)
  {
    NoReset(a, since);
    ServedAppend(a, before + [reset], since);
    ServedAppend(a, before, [reset]);
    NoReset(Served(a, before + [reset]), since);
    assert [reset][..0] == [];
  }

  function AllValues(inbox: seq<Arrival>): int {
    if inbox == [] then 0 else AllValues(inbox[..|inbox| - 1]) + Value(inbox[|inbox| - 1].msg)
  }

  /** A node never makes or loses money: its counter and what it emitted are what it began with and was credited. */
  lemma {:induction false} ServedConserves(a: App, inbox: seq<Arrival>)
    requires forall x :: 0 <= x < |inbox| ==> Sound(inbox[x].msg)
    ensures Served(a, inbox).Worth() == a.Worth() + AllValues(inbox)
    decreases |inbox|
  {
    if inbox != [] {
      var last := inbox[|inbox| - 1];
      ServedConserves(a, inbox[..|inbox| - 1]);
      ReceiveConserves(Served(a, inbox[..|inbox| - 1]), last.from, last.msg);
    }
  }
}
