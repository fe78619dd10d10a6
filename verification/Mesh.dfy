/** What travels between the parties of the mesh: addresses, app datagrams, payloads and tunnel frames. */
module Mesh {
  import opened Wrappers

  // An IPv4 address is its 32-bit value.
  type Ip = nat

  // The port the counter node is started on.
  const APP_PORT: nat := 5000
  // Stands for whatever port the kernel gives a short-lived client socket; it is never APP_PORT.
  const EPHEMERAL_PORT: nat := 49152
  // 127.0.0.1: the origin named by a locally started snapshot.
  const LOCALHOST: Ip := 0x7F00_0001
  // 10.24.24.0/24, as the upper 24 bits of an address.
  const MESH_SUBNET: nat := 0x0A_1818
  const SUBNET_SIZE: nat := 256
  const MAX_SPOOF_SOCKETS: nat := 512

  datatype Address = Address(ip: Ip, port: nat)

  type Byte = x: int | 0 <= x < 0x100

  // A snapshot id is whatever bytes a request names.
  type SnapshotId = seq<Byte>

  /** The datagrams a counter node understands, and the ones it answers with. */
  datatype Command =
    | State
    | StateIs(name: string, counter: int)
    | Credit(txid: string, origin: string, amount: int)
    | Transfer(txid: string, host: Option<Ip>, port: nat, amount: int)
    | Reset(amount: int)
    | Malformed
    | Done(verb: string, txid: string)
    | Unknown

  /** A payload is a marker, a start-snapshot request, or a datagram meant for the app. */
  datatype Payload =
    | Marker(id: SnapshotId)
    | Start(id: SnapshotId)
    | App(command: Command)

  /** What a data frame carries besides its sequence number. */
  datatype Msg<+P> = Msg(payload: P, srcPort: nat, dstPort: nat, target: Ip)

  type Message = Msg<Payload>

  datatype Frame<+P> =
    | Data(sn: nat, msg: Msg<P>)
    | Ack(sn: nat)
    | Plain(msg: Msg<P>)

  /** An app datagram caught by the intercept socket, with its original destination when the kernel reports one. */
  datatype Datagram = Datagram(src: Address, dst: Option<Address>, payload: Payload)

  function MarkerMessage(id: SnapshotId): Message {
    Msg(Marker(id), 0, 0, 0)
  }

  predicate InMesh(ip: Ip) {
    ip / SUBNET_SIZE == MESH_SUBNET
  }

  /** The amount a message adds to the counter of the app it is delivered to. */
  function Value(m: Message): int {
    match m.payload
    case App(Credit(_, _, amount)) => if m.dstPort == APP_PORT then amount else 0
    case _ => 0
  }

  /** The message an intercepted datagram becomes when it is framed. */
  function MessageOf(d: Datagram): Message
    requires d.dst.Some?
  {
    Msg(d.payload, d.src.port, d.dst.value.port, d.dst.value.ip)
  }

  function DatagramValue(d: Datagram): int {
    if d.dst.Some? then Value(MessageOf(d)) else 0
  }

  function SumMessages(ms: seq<Message>): int {
    if ms == [] then 0 else SumMessages(ms[..|ms| - 1]) + Value(ms[|ms| - 1])
  }

  function SumDatagrams(ds: seq<Datagram>): int {
    if ds == [] then 0 else DatagramValue(ds[0]) + SumDatagrams(ds[1..])
  }

  lemma {:induction false} SumMessagesAppend(ms: seq<Message>, ns: seq<Message>)
    ensures SumMessages(ms + ns) == SumMessages(ms) + SumMessages(ns)
  {
    if ns == [] {
      assert ms + ns == ms;
    } else {
      assert (ms + ns)[..|ms + ns| - 1] == ms + ns[..|ns| - 1];
      SumMessagesAppend(ms, ns[..|ns| - 1]);
    }
  }

  lemma {:induction false} SumDatagramsAppend(ds: seq<Datagram>, es: seq<Datagram>)
    ensures SumDatagrams(ds + es) == SumDatagrams(ds) + SumDatagrams(es)
  {
    if ds == [] {
      assert ds + es == es;
    } else {
      assert (ds + es)[1..] == ds[1..] + es;
      SumDatagramsAppend(ds[1..], es);
    }
  }
}
