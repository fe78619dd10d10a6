# A verified model of the snapshot mesh

The repository runs a Chandy-Lamport global snapshot (Chandy and Lamport, "Distributed Snapshots: Determining Global
States of Distributed Systems", ACM TOCS 3(1), 1985) over a reliable-UDP mesh that it builds itself. Each member is a
counter app behind a sidecar. This project models the sidecar, the app, the network and the restart as one system of any
number of members, and proves what the repository is for: the network may lose, repeat and reorder every datagram, and
still no counter total changes, neither live, nor in a stored snapshot, nor after a restart from one.

## How it is built

| file | what it holds |
|---|---|
| `Mesh`, `Counter`, `Recency`, `Wire` | datagrams and messages; the counter app and its receive loop; the socket cache; the frame bytes |
| `Sidecar` | one member as a value, and each callback of the sidecar as a function on it |
| `Proxy` | the same callbacks as the classes `PeerState`, `SnapshotController` and `MeshProxy`, updated in place, with the times of sending and the deadline of a wave; each method is proved to do what the function of `Sidecar` does |
| `Bookkeeping`, `Callbacks`, `Artifacts`, `Order` | the invariant of one member over all callbacks; what it stores; what its app hears, and in which order |
| `Deeds`, `Loops`, `Chronicle` | what each callback does that others can see: what the app is handed, what is taken off its socket, every frame sent; the loops over many events; the same over whole runs |
| `Sums`, `Ledger` | the accounts of one member |
| `Network`, `Links`, `Conservation`, `Beginning` | all members over the network, runs of any actions; the link as a queue; the live total; where runs begin |
| `Wave`, `WaveRun`, `ConsistentCut`, `Completion` | one snapshot wave: its invariant, the cut it leaves, and that it can always be completed |
| `Plain`, `Shadow`, `Reachable` | counters over plain queues, and that the recorded state is one they reach |
| `Bags`, `Aftermath`, `Sequel` | counters over plain bags, and that they get from the recorded state to the live one |
| `Restoration`, `Restart` | restarting one member, and all of them |
| `Storage` | that earlier stored waves do not matter to later ones |
| `Selfless`, `Throughout` | members that are never told to pay themselves; from start-up through any number of waves to a restart and beyond |
| `Episodes`, `SelfTransfer`, `ReplayedTransfer`, `Displacement` | concrete runs of two or three members that have just started |

A member keeps histories that the program does not: what was sent and taken in on each link, what the app heard, and the
links as they stood at the cut. The sequence numbers of the program are the lengths of those histories; in `Proxy` the
histories are ghost state and the counters and tables are the real fields.

An action of the system is an event at one member (a tunnel frame, an intercepted datagram, a retransmission, a timeout,
a datagram of a local process, a change of what the host accepts), a datagram from outside, or the loss, repetition or
arrival of a datagram. Every callback of the program runs to completion, so each is one step. In the system,
retransmissions and timeouts may happen at any moment; in `Proxy` they happen when the clock says so.

## What is assumed

- Datagrams are neither forged nor corrupted. All members share one list of distinct members, each is on it, and
  127.0.0.1 is not.
- Local processes and outsiders send no CREDIT of value, no RESET, and no TRANSFER of value to anything but a counter's
  port; app payloads are never markers. `Counter.ReceiveConserves` says exactly which messages a counter conserves.
- Draining the intercept socket and checkpointing the app is one atomic cut of the app, and what is delivered to the app
  is handled in the same step.
- Only the results about a stored wave (`Wave` and what builds on it): one snapshot id is in progress, possibly with
  several initiators, each asked before it has finished; no timeout fires; the host accepts checkpoints and artifacts.
  Live conservation, the links and the bookkeeping need none of this.
- A restart first stops everything and so empties the network; coordinates are restored and recordings replayed before
  any other traffic.

## What turned out otherwise

- A member's credit to itself is on a channel that no marker cuts. In a run of two members that have just started, a
  client's order to transfer to oneself makes the stored total short by its amount (`SelfTransfer.SelfTransferIsMissed`).
  If no member is ever brought a TRANSFER of value that names this member, the total is kept outright, from start-up to
  after a restart (`Throughout.StartToRestart`). Of any single run, `ConsistentCut.SnapshotTotalIsOriginal` says it
  exactly: the total is kept if and only if the net value of messages then on their way to their own sender is zero.
- The stored state leaves out the same messages: it is the reachable one if and only if there were none
  (`Reachable.RecordedIsReachable`), and always if no member addresses itself (`Reachable.StoredIsReachable`).
- The app does not always hear a channel in the order of sending: what came behind the marker before the flush is heard
  first. `Displacement.OrderIsNotKept` is a run of three members, and `Order.FlushKeepsOrder` says exactly when.
- A TRANSFER among the recorded messages is executed by the replay, so right after a restart that money is in a credit
  just emitted (`ReplayedTransfer.CountersAloneAreShort`). The counters, with what had left the mesh, make up the snapshot
  if and only if the stored channels transfer nothing in sum (`Restart.RestoredCounters`).
- A marker that comes after an abort starts the wave again, so a cut is unique only without timeouts
  (`Artifacts.LateMarkerCutsAgain`).
- `trigger_snapshot.sh:9` and `RUNBOOK.md:181` say that markers go to lazily discovered peers. The code uses the static
  membership (`proxy/snapshot_handler.py:92-96`), and so does the model.
- A start request that is pending when another wave cuts the app is forwarded by the drain like app traffic
  (`proxy/mesh_proxy.py:324-337`), not treated as a request.

## Model

| member | source | states |
|---|---|---|
| Reachable.RecordedIsReachable | proxy/snapshot_handler.py:82-142 | Whatever the network did, a wave that is done everywhere has recorded a state that counters over plain first-in-first-out channels reach, by a run given explicitly, from the very state in which the run began: the apps are the images, each channel between two members holds exactly its recorded messages, and that of a member to itself what was on its way there. What is stored, with those last channels empty, is that state if and only if they were. |
| Reachable.StoredIsReachable | proxy/snapshot_handler.py:82-142 | If no process at a member addresses that member and no TRANSFER names the member it is sent to, the stored state, every channel included, is outright such a state. |
| Sequel.LiveIsReachable | proxy/snapshot_handler.py:152-179 | From the recorded state, counters over channels that are bags reach the state the live mesh is in when the wave is done everywhere: the same apps, with the same messages sent and heard. |
| Sequel.RunAfter | proxy/snapshot_handler.py:434-450 | Every run of a wave to its end, seen from the cuts on and by what the apps hear, is a run of the plain mesh over bags. |
| Aftermath.ReplayGoes | proxy/snapshot_handler.py:434-449 | A flush is one plain delivery for each recorded message. |
| Reachable.RunPlays | proxy/snapshot_handler.py:79-179 | Every run of a wave, seen with each member frozen at its cut, is a run of the plain mesh. |
| Reachable.DoneIsRecorded | proxy/snapshot_handler.py:359-407 | Once all are done, the frozen view has the image apps, channels between members whose undelivered part is the recorded channel, message by message, and channels to oneself whose undelivered part is what the image had not taken in. |
| Reachable.RecordedIsStored | proxy/snapshot_handler.py:126-135 | That view is the stored state, in which nobody has a channel to itself, if and only if no image had anything on its way to itself. |
| Shadow.TakeLeads | proxy/mesh_proxy.py:198-206 | Taking in any message at an uncut member is one plain delivery, or, for the first marker, the plain sending of all that is pending, ending at the image. |
| Shadow.CutLeads | proxy/snapshot_handler.py:100-107 | The checkpoint holds the state after forwarding everything that was pending, one plain step each. |
| Plain.Lift | proxy/mesh_proxy.py:46-101 | What one member can do on its own the plain mesh can do, provided that all it ends up having heard had been sent to it. |
| Throughout.StartToRestart | proxy/snapshot_handler.py:264-291 | From start-up with any counters, through any run with any number of waves, then a wave from any state between waves until it is done everywhere, a restart from it, and any run after that: if no action brings a member a TRANSFER of value that names this member, the stored total, the restarted total and the total ever after are the sum of the counters at start-up. |
| Throughout.SnapshotKeepsTotal | proxy/snapshot_handler.py:79-179 | The same for one wave from any state in which no member is about to pay itself: the stored total is the total before. |
| Throughout.RestartSpares | proxy/snapshot_handler.py:264-291 | A restart makes no member pay itself, so snapshots and restarts may be repeated. |
| Selfless.RunSpares | src/counter.py:65-77 | In every run that never bids a member pay itself, nothing pending, sent, recorded or in a channel makes it do so, and what it has sent itself is worthless; in the strict reading, it has sent itself nothing. |
| Restart.SnapshotAndRestore | proxy/snapshot_handler.py:264-291 | Of any run of a wave, a restart when it is done, and any run after that: the total is the original one if and only if, in that run, the net value on its way from members to themselves at their cuts was zero. |
| Restart.RestartConserves | proxy/snapshot_handler.py:219-291 | The restarted mesh satisfies the invariant of all runs, and its live total is the total of the stored snapshot. |
| Restart.RestartIsOrderly | proxy/snapshot_handler.py:232-234 | Restoring only coordinates, with nothing to retransmit and nothing buffered, re-establishes the whole invariant at every member and link. |
| Restart.LinksMeet | proxy/snapshot_handler.py:266-273 | After the restart both sides of every link stand at the same number with the same history, and nothing is outstanding. |
| Restart.RestoredCounters | proxy/snapshot_handler.py:275-291 | After the replay no money is in a channel or held back, and what restored apps have emitted is exactly what the stored channels transfer; so the counters, with what had left the mesh, are the snapshot if and only if the stored TRANSFERs sum to zero. |
| Restart.ReplayEmits | src/counter.py:65-77 | Replaying recorded channels makes an app emit exactly the amounts of the TRANSFERs in them. |
| ReplayedTransfer.CountersAloneAreShort | proxy/snapshot_handler.py:281-291 | A concrete run from start-up that records a TRANSFER of any amount; after the restart the counters are short of the snapshot by that amount. |
| Restart.RestartIsReady | proxy/snapshot_handler.py:219-234 | The restarted mesh may begin any wave it has not met, so snapshot and restart can be repeated. |
| Restoration.ResumedIs | proxy/snapshot_handler.py:264-291 | A restored link is the old one cut back to its stored coordinates, and its app has heard what the image had and then the recording. |
| Restoration.RestoredBooks | proxy/snapshot_handler.py:275-291 | A restored member's accounts are those of its cut less what was on its way to itself. |
| ConsistentCut.SnapshotTotalIsOriginal | proxy/snapshot_handler.py:79-179 | Of every run of a wave that is done everywhere: image counters plus recorded credits plus what left the mesh equal the total before the wave if and only if the net value then on self-channels is zero. |
| ConsistentCut.SnapshotConserves | proxy/snapshot_handler.py:79-179 | The stored total plus what was on its way from members to themselves is the live total. |
| ConsistentCut.NoOrphans | proxy/snapshot_handler.py:109-124 | In every state of a wave, no message taken in before a member's cut was sent after its sender's cut. |
| ConsistentCut.CoordinatesAgree | proxy/snapshot_handler.py:133-135 | The recorded receive coordinate of a channel is the recorded send coordinate of its sender. |
| ConsistentCut.ChannelExact | proxy/snapshot_handler.py:126-179 | A recorded channel is exactly the messages its sender had sent and its receiver had not taken in at their cuts: contiguous, in order, numbered, without duplicates or markers. |
| ConsistentCut.CutByMarkerIsEmpty | proxy/snapshot_handler.py:129-135 | A recorded channel is empty exactly if its marker was the first message taken in after the cut, and exactly if all that was sent had been taken in. |
| ConsistentCut.OneMarkerPerChannel | proxy/snapshot_handler.py:109-124 | A member sends the wave's marker to every other member exactly once if it is cut, right behind what its image had sent, and otherwise never; never to itself. |
| ConsistentCut.CutOnce | proxy/snapshot_handler.py:82-88 | Over every further run of the wave the checkpoint and the artifact of a member stay the ones it has. |
| ConsistentCut.NoMarkerLeft | proxy/snapshot_handler.py:144-164 | No message still on its way to a member that is done is a marker. |
| ConsistentCut.DebitsPrecedeMarker | proxy/snapshot_handler.py:100-124 | At the cut nothing waits to be forwarded, and what the image had sent on a channel is all that precedes the marker there. |
| ConsistentCut.DoneKnowsReceive | proxy/snapshot_handler.py:156-162 | A member that is done has a receive coordinate for every other member. |
| ConsistentCut.SendCutIsImage | proxy/snapshot_handler.py:120-124 | The send coordinate of a channel is right behind the marker, and the marker right behind what the image had sent. |
| SelfTransfer.SelfTransferIsMissed | proxy/snapshot_handler.py:94-96 | A concrete run of two members from start-up, in which a client orders a transfer of any amount from a member to itself, whose stored total is short by that amount. |
| Completion.DrainedIsDone | proxy/snapshot_handler.py:141-164 | In a wave, when some member is cut and every link is drained, every member is done. |
| Completion.CanComplete | proxy/snapshot_handler.py:97-164 | From every state of a wave with some member cut there is a continuation of retransmissions and arrivals alone after which every member is done. |
| Completion.OutstandingShrinks | proxy/snapshot_handler.py:159-162 | No run of the wave makes a marker outstanding again. |
| WaveRun.RunInWave | proxy/snapshot_handler.py:79-179 | The wave's invariant, with exact accounts of every image, holds after every run of the wave, whoever starts it. |
| Wave.TakeWave | proxy/snapshot_handler.py:71-164 | Taking in any message carries a member's wave on: markers where the coordinates say, artifacts as stored, image worth what the accounts say. |
| Wave.StoredWave | proxy/snapshot_handler.py:311-328 | When the last channel closes, what is stored is the whole cut, with every coordinate and every channel exact. |
| Conservation.TotalIsConserved | proxy/snapshot_handler.py:409-450 | In every reachable state, with overlapping, stale, timed-out and unstored waves: counters, credits pending or gone outside, credits in channels and credits held back have one constant sum. |
| Conservation.WorthIsHandsAndChannels | proxy/mesh_proxy.py:208-214 | In every consistent global state the members' accounts sum to what they hold plus the value of the messages in the channels. |
| Beginning.StartingTotal | src/counter.py:42-44 | In every state reachable from start-up the live total is the sum of the initial counters. |
| Storage.LaterWavesToo | proxy/snapshot_handler.py:330-353 | A wave in a mesh whose hosts have stored others, requested at a member only while in progress there or before a checkpoint of its id is stored, is a run of a wave on empty hosts, with what it stores behind what was there: all results about a wave hold of every later one. |
| Storage.ReadyBehind | proxy/snapshot_handler.py:330-353 | Readiness for a wave does not depend on what other waves have stored, so waves may follow each other without end. |
| Storage.RunBehind | proxy/snapshot_handler.py:181-217 | Any run is possible behind earlier storage if and only if it is without, and ends in the same apps, links, controllers and network. |
| Storage.DoneIsReadyAgain | proxy/snapshot_handler.py:426-450 | A mesh in which a wave is done everywhere may begin any wave it has not met, without a restart. |
| Beginning.ReadyBegins | proxy/snapshot_handler.py:82-98 | Every mesh with no marker on its way may be the first state of a wave, whatever earlier waves left. |
| Beginning.FreshIsReady | proxy/mesh_proxy.py:151-165 | The mesh at start-up is such a state. |
| Network.RunKeeps | proxy/mesh_proxy.py:46-147 | The invariant of all links, tables and datagrams holds after every run, and no member's accounts change. |
| Network.ApplyKeeps | proxy/mesh_proxy.py:46-147 | One action of any kind keeps it. |
| Links.LinkIsQueue | proxy/mesh_proxy.py:73-111 | In every reachable state the receiver has taken in exactly the messages sent below its expected number, in order; that number is the least never received; its buffer is exactly the received messages above, unchanged. |
| Links.ReceivedIsBrought | proxy/mesh_proxy.py:57-117 | Over a run, what was received is exactly what the network brought: nothing is forgotten, nothing invented. |
| Links.NothingIsLost | proxy/mesh_proxy.py:139-147 | Every message sent is kept for retransmission with its original content, or has been received. |
| Links.ExpectedIsResent | proxy/mesh_proxy.py:339-349 | While a link is not drained, the message its receiver waits for can be sent again as it was. |
| Links.ExpectedMovesOn | proxy/mesh_proxy.py:74-101 | Its arrival moves the expected number strictly on. |
| Links.DeliveredOnce | proxy/mesh_proxy.py:198-206 | Outside a recording the app has heard every message taken in that is not a marker exactly once. |
| Bookkeeping.TakeInv | proxy/snapshot_handler.py:71-179 | Taking in the next message keeps the invariant of tables and channels, whatever the message and the wave. |
| Bookkeeping.TakeSteers | proxy/snapshot_handler.py:71-179 | The controller's tables after any message, case by case: recorded on open channels; opened by a first marker; closed by a marker of the same wave; untouched by any other marker. |
| Bookkeeping.FinishInv | proxy/snapshot_handler.py:426-450 | Finishing or aborting delivers on every channel exactly what had been held back. |
| Bookkeeping.ReplayDelivers | proxy/snapshot_handler.py:438-449 | A flushed or replayed message is delivered: it starts no wave and is not recorded again. |
| Bookkeeping.ReplayHeard | proxy/snapshot_handler.py:434-449 | A flush or replay hands over each recorded message once, channel by channel in order, and changes no link otherwise. |
| Bookkeeping.RecordedShape | proxy/snapshot_handler.py:166-177 | A recording is ascending, without markers, and holds each message of its interval under its own number. |
| Bookkeeping.SortOrders | proxy/snapshot_handler.py:278-280 | The sort orders any recording by number and is stable. |
| Bookkeeping.SortIdentity | proxy/snapshot_handler.py:439 | The sort before a flush or a replay leaves such a recording as it is. |
| Callbacks.DataAcknowledged | proxy/mesh_proxy.py:69-71 | Every data frame, in its turn or not, is acknowledged under its number before anything that it leads to is sent. |
| Callbacks.DataInOrder | proxy/mesh_proxy.py:69-101 | The expected frame is acknowledged first, whatever is buffered; it is taken in with all that waited for it, and keeps the member's invariant. |
| Callbacks.DataOutOfOrder | proxy/mesh_proxy.py:103-117 | A frame ahead is held back and one behind is dropped; for both, the acknowledgement is all that is sent. |
| Callbacks.AckHeeds | proxy/mesh_proxy.py:139-147 | An acknowledgement ends the retransmission of its own number and changes nothing else. |
| Callbacks.InterceptSteady | proxy/mesh_proxy.py:302-322 | Handling an intercepted datagram keeps the invariant and only sends on. |
| Callbacks.TimeoutSteady | proxy/snapshot_handler.py:302-309 | So does a timeout. |
| Deeds.ReactResponds | proxy/mesh_proxy.py:46-350 | Of every event, to the last frame and in order: what the app is handed, what is taken off the intercept socket, what each link sends, what leaves the mesh, which sockets are used, and every frame put on the tunnel. |
| Deeds.TakeDoes | proxy/snapshot_handler.py:79-179 | Taking in a message hands it to the app or, on an open channel, does nothing outwardly; a marker routes all that is pending and is passed on to every other member, or flushes the recordings, or does nothing. |
| Deeds.ForwardDoes | proxy/mesh_proxy.py:267-300 | A datagram for a member goes under the next number of that link, one for another mesh address as a plain frame with its fields, one for outside from a socket of its source and not on the tunnel, one without destination nowhere. |
| Deeds.DrainDoes | proxy/mesh_proxy.py:324-337 | A drain does this with everything pending, in order, until nothing is. |
| Deeds.RestoreDoes | proxy/snapshot_handler.py:264-291 | Loading any artifact, complete or not: each link stands at its stored numbers, where there are any, with nothing to be sent again; the app is handed every recording once; nothing is sent. |
| Loops.LoopRoutes | proxy/mesh_proxy.py:302-322 | With no start request pending, the intercept loop makes each log grow by exactly the pending messages for its member, in order; what leaves the mesh leaves in order; nothing else changes. |
| Loops.LoopDoes | proxy/mesh_proxy.py:302-322 | With requests among them too: exactly what the loop sends and takes off the socket, datagram by datagram. |
| Loops.PollIsAnswered | src/counter.py:52-54 | A client's STATE, once everything pending is routed, has put a plain frame to that client on the tunnel that says the node's name and counter. |
| Loops.ResendsCopy | proxy/mesh_proxy.py:343-349 | Sending again what is due puts copies on the tunnel and changes nothing else. |
| Loops.CopiesAre | proxy/mesh_proxy.py:343-349 | Of messages that await acknowledgement there is exactly one copy each, in the order in which they are due, with its number and content. |
| Chronicle.RunConducts | proxy/mesh_proxy.py:46-350 | Over every run, each app has lived through exactly what its links and outsiders handed it and local processes said, in order; what it emitted was routed in order or is pending; all logs and exits are accounted for. |
| Chronicle.FromStartUp | proxy/mesh_proxy.py:172-206 | From start-up, that is all that was ever sent and heard, and the socket cache is the one of all its lookups. |
| Chronicle.NewMessagesFly | proxy/mesh_proxy.py:208-214 | In every step of the mesh, every message newly sent on a link is in the network, as it was sent. |
| Chronicle.AcknowledgementFlies | proxy/mesh_proxy.py:69-71 | Whenever a data frame arrives, its acknowledgement is in the network. |
| Chronicle.InterceptLoopIsRun | proxy/mesh_proxy.py:302-322 | The intercept loop of one callback is a run of the mesh, so all results about runs hold of it. |
| Chronicle.RoundIsRun | proxy/mesh_proxy.py:339-350 | So is a round of retransmissions. |
| Artifacts.TimeoutStores | proxy/snapshot_handler.py:409-424 | A due timeout stores one aborted artifact, if the host accepts it, with the id, the send coordinates and the recordings of the wave, and receive coordinates missing for exactly the open channels; without a wave it does nothing. |
| Artifacts.TakeStoresOne | proxy/snapshot_handler.py:141-164 | Taking in a message stores an artifact if and only if it is the marker that completes the wave here, and then one complete artifact that says what the tables say. |
| Artifacts.RunStoresWell | proxy/snapshot_handler.py:359-407 | In every run, every stored artifact has one entry for each other member with its send coordinate, and is complete if and only if no receive coordinate is missing. |
| Artifacts.ArtifactNow | proxy/snapshot_handler.py:370-406 | While recording, the receive coordinates missing are exactly those of the open channels. |
| Artifacts.TakeCuts | proxy/snapshot_handler.py:82-107 | Taking in a message checkpoints the app if and only if it is a marker, no wave is in progress here and the host accepts. |
| Artifacts.LateMarkerCutsAgain | proxy/snapshot_handler.py:409-432 | After an abort a late marker of the same wave cuts the app again. |
| Order.FlushDisplaces | proxy/snapshot_handler.py:152-179 | The exact sequence the app has heard from a channel after a flush: up to the cut, then behind the marker, then what was recorded. |
| Order.FlushKeepsOrder | proxy/snapshot_handler.py:434-450 | That is the order of sending if and only if the channel was still open, or nothing was recorded, or nothing came behind the marker. |
| Displacement.OrderIsNotKept | proxy/snapshot_handler.py:434-450 | A concrete run of three members from start-up at whose end an app has heard two messages of one sender in the other order. |
| Ledger.TakeBalance | proxy/snapshot_handler.py:71-179 | Taking in any message leaves a member's accounts unchanged. |
| Ledger.FinishBalance | proxy/snapshot_handler.py:426-450 | A flush turns exactly what was held back into what was delivered. |
| Ledger.CutWorth | proxy/snapshot_handler.py:100-107 | The cut empties the intercept queue, costs nothing, and the checkpoint holds the app as it then is. |
| Counter.ReceiveConserves | src/counter.py:55-82 | A message moves exactly its value into an app if and only if it is sound, or resets the counter to what it was. |
| Counter.Serve | src/counter.py:42-91 | What the receive loop emits falls into one part per datagram: nothing for one it cannot read; else the answer of its own kind, from the node's port to the sender's address and port, a STATE being answered with the name and the counter that the datagrams before it make up; and before the answer to a TRANSFER one CREDIT of its amount, in the node's name, to the host and port it names. |
| Counter.ReceiveAnswers | src/counter.py:52-90 | The same of one datagram handed to the app of a member, and the counter after it. |
| Counter.CounterSinceReset | src/counter.py:55-82 | The counter is the initial value, or what the last RESET set, moved by every credit and transfer since. |
| Counter.ServedConserves | src/counter.py:55-77 | Counter and emitted credits are what the node began with plus what it was credited. |
| Recency.CacheIsTheMostRecent | proxy/mesh_proxy.py:172-196 | After any lookups a list of keys is the cache if and only if it holds the most recently used keys in order of last use, at most 512 and all of them if they fit. |
| Wire.RoundTrip | proxy/mesh_proxy.py:57-67 | Every frame whose fields fit is parsed back as it was sent, and no other frame can be sent. |
| Wire.ParsedIsEncoded | proxy/mesh_proxy.py:46-147 | What is accepted is in range, and is byte for byte what its content is sent as, except exactly for bytes behind an acknowledgement and the unused number of plain frames. |
| Wire.FrameBytes | proxy/mesh_proxy.py:14-19 | Every byte of a frame: kind, number, ports and target at their places, each with its most significant byte first, then the payload. |
| Wire.Unambiguous | proxy/mesh_proxy.py:17-18 | Frames equal on the wire are equal: data, plain and acknowledgement are never confused. |
| Wire.MarkerCarriesId | proxy/snapshot_handler.py:79-80 | A marker yields the id it was made from, whatever bytes that holds, and is no start request. |
| Wire.MarkersAreTheirIds | proxy/snapshot_handler.py:79-80 | A payload is a marker if and only if it is the marker of the id read from it. |
| Proxy.MeshProxy.DatagramReceived | proxy/mesh_proxy.py:46-147 | A tunnel frame takes the proxy where `Sidecar.Receive` does: acknowledgement, in-order delivery with its loop over the buffer, buffering, dropping. |
| Proxy.MeshProxy.TakeWaiting | proxy/mesh_proxy.py:87-101 | The loop over the buffer hands over everything that was waiting, in turn. |
| Proxy.MeshProxy.SendData | proxy/mesh_proxy.py:208-214 | A message is sent under the next number and kept for retransmission. |
| Proxy.MeshProxy.GetPeer | proxy/mesh_proxy.py:167-170 | A link state is created once and never replaced. |
| Proxy.MeshProxy.GetSpoofSock | proxy/mesh_proxy.py:172-196 | The cache moves as `Recency.Touch`, whose traces are characterised above. |
| Proxy.MeshProxy.ForwardIntercepted | proxy/mesh_proxy.py:267-300 | Routing by destination: reliable between members, plain to other mesh addresses, direct outside, dropped without destination. |
| Proxy.MeshProxy.DrainIntercept | proxy/mesh_proxy.py:324-337 | Everything pending is forwarded in order. |
| Proxy.MeshProxy.HandleLocalIntercept | proxy/mesh_proxy.py:302-322 | The loop ends, with nothing pending, where one event of the system for each pending datagram takes the member, as long as 127.0.0.1 is not a recorded channel. |
| Proxy.MeshProxy.ProcessAndDeliver | proxy/mesh_proxy.py:198-206 | A message goes to the controller, and to the app unless consumed. |
| Proxy.MeshProxy.ProcessMessage | proxy/snapshot_handler.py:71-179 | The controller takes the new state of `Sidecar.ProcessMessage`, and consumes exactly markers and messages on recording channels. |
| Proxy.MeshProxy.Begin | proxy/snapshot_handler.py:88-135 | Cut, broadcast and opening of the channels, in that order. |
| Proxy.MeshProxy.Broadcast | proxy/snapshot_handler.py:109-124 | One marker to each other member, and the coordinate right behind it. |
| Proxy.MeshProxy.FinishSnapshot | proxy/snapshot_handler.py:311-328 | The artifact is built before the flush, and one of this wave and status is stored if and only if the host accepts. |
| Proxy.MeshProxy.FlushAndReset | proxy/snapshot_handler.py:426-450 | The loops deliver every recorded message and leave the tables empty. |
| Proxy.MeshProxy.CheckTimeout | proxy/snapshot_handler.py:302-309 | If and only if the deadline of a wave in progress is over, the wave is aborted and its aborted artifact stored. |
| Proxy.MeshProxy.RetransmitRound | proxy/mesh_proxy.py:339-350 | Due are exactly the unacknowledged messages last sent more than half a second ago; the round puts one copy of each on the tunnel, notes the time of their sending, and is a sequence of the system's resendings. |
| Proxy.MeshProxy.RestoreFromArtifact | proxy/snapshot_handler.py:264-291 | Whatever remotes the artifact names: all coordinates are restored first, then all recordings are replayed. |
| Proxy.MeshProxy.React | proxy/mesh_proxy.py:46-350 | Every event takes the proxy where the event of the system takes the member, so all results about runs are about these objects. |
| Proxy.PeerState.Resume | proxy/snapshot_handler.py:270-273 | Missing coordinates are skipped, and nothing awaits acknowledgement afterwards. |

## Left out

- HTTP, CRIU, podman, sockets, TPROXY, the detection of the own address, JSON and base64: the checkpoint copies the app,
  the artifact is stored as a value, and the host accepts or refuses each kind of request as it likes.
- Real time in the system: there, retransmissions and timeouts are nondeterministic. In `Proxy` the clock stands still while
  a callback runs.
- Wrap-around of sequence numbers: links count without bound, while a frame holds 64 bits; `Wire` has the exact range.
- Text of app commands, UTF-8 and the 512-byte buffer: commands are typed; one the node cannot read is `Malformed`.
- Byte payloads in `Proxy` and `Network`: frames carry typed payloads there, and `Wire` relates frames and bytes.
- Iteration order of sets and dictionaries: each member has one arbitrary order of the other members, the same for every
  flush and replay.
- Callbacks of the controller on its proxy: `SnapshotController` holds the tables, and the methods that reach both sides
  are methods of `MeshProxy`.
- Counter.Serve: the loop of the program never ends; here it ends with the datagrams it is given.
- Proxy.MeshProxy.HandleLocalIntercept: what the app emits later is for a later callback.
- Proxy.MeshProxy.RetransmitRound: the dictionary order of the links is a parameter.
- Proxy.MeshProxy.RestoreFromArtifact: starts from a sidecar without links, as a restored one is; a stored marker, which
  no sidecar records, is excluded.
- The order of a flush across channels of different remotes: proved channel by channel.
- Members that are not on their own list, and snapshots that start at a non-member: plain traffic of such nodes is
  outside the reliable mesh.
- Two sidecars disagreeing on the member list, repeated entries in it, and restarts from aborted artifacts: outside the
  assumptions above.
- Sequel.LiveIsReachable: over bags, not over queues, since a flush may displace recorded messages; that the queues suffice
  when every flush keeps its order (`Order.FlushKeepsOrder`) is not proved.
- The polling client verbs, the C version of the counter, the chat and script tools and the shell scripts.
