# librudp, modelled and verified

librudp carries packets between two peers over UDP. Reliable packets arrive exactly once
and in order; unreliable ones arrive at most once and never out of order. A peer numbers
reliable packets with 16 bits, numbers the unreliable packets that follow a reliable one
with 16 more, acknowledges cumulatively in whatever it sends next, and keeps unacknowledged
packets in a queue whose head it retransmits.

The project has three layers.

* **The code, in place.** `RudpList` (the circular list on the heap), `Pool` (the packet
  chain pool), `Peer` (a class with the fields of `struct rudp_peer`) and `Server` (the
  peer table) follow the source function by function. The methods of class `Peer` are
  proved to compute the functions of `PeerSpec` in 16-bit arithmetic, and to leave every
  packet chain in exactly one place.
* **The peer as a function of its inputs.** `PeerSpec` takes the arithmetic as a
  parameter: `Wrapped` is the C code's uint16_t and int16_t, `Unbounded` is the same
  protocol on integers. A peer state also carries four histories: packets numbered
  (`enq`), packets put on the wire (`sent`), packets accepted (`acc`), and calls to the
  handler (`up`).
* **Two peers and a network.** `Session` joins two peers: whatever one ever sent may be
  delivered to the other at any time, any number of times, in any order, or never.
  Invariants are proved on unbounded numbers (`Invariants`, `Transmission`, `Session`,
  `Handshake`), `Refinement` shows that the 16-bit machine is their wrapped image, and
  `Delivery`, `Guarantees`, `Applications`, `Answer`, `Progress` and `Draining` state the
  results, most of them about the 16-bit machine over every run that starts from two reset
  peers. `Exactness` and `Timing` hold for a single peer whatever it receives. `Duties` says
  what a peer owes the other by itself, field by field: acknowledgements, PINGs and PONGs,
  the request, its answer, the CLOSE.

`dafny verify dfyconfig.toml` checks the whole project.

## Assumptions of the run theorems

The library enforces none of them; they are the predicates `Usable` and `Admissible`.

* A peer has fewer than 2^15 reliable numbers outstanding, and a packet delivered is less
  than 2^15 numbers old (`Window`, `YoungPacket`). `ReliableDecisionExact` and
  `UnreliableDecisionExact` say for every packet exactly when the 16-bit decision is right;
  `OldPacketTakenForNew` and `OldUnreliableTakenForNew` are packets that break exactly-once
  delivery otherwise.
* The random initial numbers leave the handshake possible: reset puts 0xFFFF in
  `in_seq_reliable`, so that a CONN_REQ numbered 0 or 0xFFFF, or a CONN_RSP carrying
  0xFFFF, looks like a packet already received or next (`ServerRunsIff` and
  `ClientRunsIff` give every case).
* While the client is connecting nobody sends reliable data, pings or closes (`Held`).
  `EarlyReliableMisacked` says exactly which packets make the client acknowledge 0xFFFF, a
  number it never received, otherwise.
* Applications use commands from `RUDP_CMD_APP` to 255.

`HandshakeCompletes` shows that runs which meet them exist for all usable numbers. The
handshake does not survive the loss of its answer: `LostAnswerIsFinal`.

## Where code and documentation disagree

* `include/rudp/server.h:128-130` promises that the peer given to `peer_new` has
  established a connection. The code announces it whenever the first packet is not
  rejected (`src/server.c:206-215`); `AnnouncedEstablishedIff` says exactly when the
  announced peer is running.
* `include/rudp/peer.h:80-82` says that after `dropped` the peer is left in its
  initialized state, so that what is sent next uses reset numbers. Neither way to a drop
  resets anything: `TimeoutKeepsNumbers` and `CloseKeepsNumbers` say what is left, and
  exactly when the outgoing numbers happen to be as after reset; `NeverNumberedAfresh` says
  that in a session they are not, once anything has been numbered.
* The delay before a retransmission is the time already elapsed plus the time-out
  (`src/peer.c:273`), modelled as written; `LaterCallPostpones` says what it does.

## Model

| member | source | states |
|---|---|---|
| Delivery.InOrderDelivery | src/peer.c:331-452 | in every admissible run from reset, in both directions: the accepted packets are a strictly increasing selection of those enqueued, so none twice and none out of order; the reliable ones accepted are a prefix of those enqueued; and when any packet was accepted, all reliable packets enqueued before it had been |
| Applications.ApplicationDelivery | src/peer.c:331-452 | from application to application, on 16-bit numbers, in every admissible run from reset and both directions: what handle_packet is given is a selection, in order and without repetition, of the sends and replies the far application made, with their reliability, command and payload, and the reliable ones among it are the first reliable ones asked for |
| Applications.NumberedAsRequested | src/server.c:227-251 | in any run from reset, in either arithmetic, the application packets a peer numbers are exactly the sends and replies of its application, in order, with the reliability, command and payload asked for; nothing a peer sends of itself is an application packet |
| Delivery.RunRefines | src/peer.c:151-194 | over any number of wraps, every run of the 16-bit machine is the wrapped image of the run on unbounded numbers, and the session invariant holds throughout |
| Delivery.BaselineSteps | src/peer.c:155-168 | once a peer runs, no packet moves in_seq_reliable except by one, for a reliable packet |
| Guarantees.NothingForgotten | src/peer.c:478-502 | once both peers run, every reliable packet either of them enqueued is still in its queue or was accepted by the other side, in enqueueing order |
| Guarantees.BaselinesAgree | src/peer.c:364-383 | after any run from reset under loss, duplication and reordering, the server counts from the CONN_REQ's number and the client from the CONN_RSP's, one per reliable packet accepted; the client runs only if the server does |
| Guarantees.HandshakeCompletes | src/peer.c:607-617 | without loss, request and answer leave both peers running with the agreed baselines, for every usable pair of initial numbers and whatever the clock reads at each of the four steps, if each peer is served before its first deadline |
| Answer.AnswersAtMostOnce | src/peer.c:366-371 | whatever a peer receives between two resets, it transmits at most one CONN_RSP |
| Answer.RunsIffAnswered | src/peer.c:372-377 | in every run from reset the client has left the handshake if and only if a CONN_RSP of the server was delivered to it |
| Answer.LostAnswerIsFinal | src/peer.c:675-679 | once the server has transmitted its answer, if that packet is lost no continuation at all makes the client run; on 16-bit and on unbounded numbers, with no assumption but that applications use application commands |
| Guarantees.CloseCannotOvertake | src/peer.c:619-638 | in every run and either direction, when a CLOSE is accepted exactly the reliable packets enqueued before it have been; if the closer enqueues nothing reliable after it (it may repeat the CLOSE and acknowledge), the receiver has every reliable packet it ever enqueued |
| Duties.CloseIsHeard | src/peer.c:619-638 | after any run from reset, on 16-bit numbers and in either direction, a CLOSE sent and delivered at once makes the receiver dead with exactly one drop call if and only if the receiver has accepted every reliable packet of the sender; if not, its state and calls are unchanged |
| Guarantees.FaithfulUpcalls | src/peer.c:390-441 | the handler gets exactly the application packets accepted before a CLOSE, in order; the PONGs enqueued are exactly the answers, with the same payload, to PINGs accepted in their first transmission; a peer is dead exactly after a CLOSE |
| Guarantees.FlagsOnWire | src/peer.c:667-675 | on the wire, a reliable packet carries RETRANSMITTED if and only if it went out before |
| Guarantees.WireAcksCurrent | src/peer.c:649-665 | whatever step follows whatever run, each acknowledgement it puts on the wire is the sender's current in_seq_reliable |
| Guarantees.HonestNeverRejected | src/peer.c:344-354 | no packet delivered in a run is rejected for a broken acknowledgement |
| Guarantees.NumbersOrdered | src/peer.c:459-502 | once both peers run, in both directions: acknowledged <= accepted <= transmitted <= issued, in unbounded numbers |
| Guarantees.QueuesShaped | src/peer.c:554-593 | in every run the send queue is a prefix of transmitted reliable packets, all marked and consecutively numbered, then packets never transmitted, none marked; numbers strictly increase and the reliable ones run through out_seq_reliable |
| Guarantees.QueueIsTail | src/peer.c:475-502 | the queue's reliable packets are exactly the last ones enqueued, those above the larger of the acknowledged number and the base |
| Session.StepKeeps | src/peer.c:331-452 | every step of either peer keeps the invariant that ties queue, wire, acceptances and acknowledgements together |
| Session.IncomingLinked | src/peer.c:331-354 | no acknowledgement of an honest peer is broken, and handling any packet it ever sent keeps the invariant |
| Invariants.AcceptedExtend | src/peer.c:155-168 | accepting the next reliable packet, or a later unreliable one of the current number, extends the accepted sequence in enqueueing order without a gap |
| Invariants.DropAckedExact | src/peer.c:478-502 | a valid acknowledgement removes exactly the reliable packets numbered at or below it, the head of the queue, and keeps the rest |
| Transmission.SendQueueEffect | src/peer.c:642-681 | one run of the queue either retransmits the marked head alone with a back-off, or transmits everything once and keeps the reliable packets marked |
| Transmission.SendQueueSide | src/peer.c:642-681 | a run of the queue keeps the sender's invariant and never lowers the highest number transmitted |
| Handshake.ConnectorReceives | src/peer.c:372-377 | the client leaves the handshake with a CONN_RSP, with its number as baseline and the session invariant established; nothing else moves it |
| Handshake.ListenerReceives | src/peer.c:366-371 | the server leaves PEER_NEW with a CONN_REQ and with nothing else, its baseline the request's number |
| Refinement.ClassifyCommutes | src/peer.c:155-191 | for a recent packet, SEQUENCED, RETRANSMITTED and UNSEQUENCED by 16-bit comparison are the decisions on the true numbers |
| Refinement.HandleAckCommutes | src/peer.c:461-502 | likewise for past, broken and unqueueing decisions on an acknowledgement |
| Refinement.IncomingCommutes | src/peer.c:331-452 | likewise for the whole handling of a packet |
| Refinement.ServiceCommutes | src/peer.c:695-717 | serving a peer commutes with wrapping its numbers, always |
| Progress.ExchangeProgress | src/peer.c:642-681 | one loss-free exchange (service, delivery in order, service, delivery back) of an established session without a CLOSE queued strictly lowers the number of reliable packets in the sender's queue; every step reads its own clock, each peer is served before its own deadline, and the receiving application may send anything from inside handle_packet |
| Progress.Drains | src/peer.c:475-502 | a queue holding n reliable packets is drained by at most n such exchanges, each in time by the deadlines as they stand then, renewed ones included |
| Progress.ServedInTime | src/peer.c:386-391 | the second service of an exchange is in time if it comes before the receiver's old deadline and within 10000 ms of each arrival |
| Draining.ExchangeProgress16 | src/peer.c:642-681 | the same strict decrease on the 16-bit machine, for the queue of the client and of the server alike, with a clock reading for every step |
| Draining.DrainsFromReset | src/peer.c:642-681 | after any run from reset that left both peers running, the n reliable packets in the queue of either peer are acknowledged on 16-bit numbers by at most n such exchanges; that no CLOSE is queued is proved, not assumed |
| Exactness.AcksConfluent | src/peer.c:459-502 | on 16-bit numbers, any sequence of acknowledgements of numbers issued, with fewer than 2^15 outstanding, leaves the state the largest alone would leave |
| Exactness.AcksAnyOrder | src/peer.c:459-502 | so their order and repetition do not matter to the 16-bit peer |
| Exactness.OwedAckEmitted | src/peer.c:529-549 | after any reliable packet that is no accepted CLOSE and not rejected, a service in time sends at least one packet and each packet it sends acknowledges in_seq_reliable |
| Duties.AcknowledgedBy | src/peer.c:529-549 | a reliable packet that nothing else answers, in sequence or not, leaves the queue as its acknowledgement field left it if that is not empty, and otherwise with exactly one unreliable NOOP under the next unreliable number; an unreliable packet queues nothing |
| Duties.PingAnswered | src/peer.c:219-245 | an accepted PING in its first transmission adds exactly one unreliable PONG with its payload to the queue of a running peer |
| Duties.PingExact | src/peer.c:703-712 | in any life of a peer from reset, a service in time with an empty queue transmits one PING with the clock reading if and only if the peer transmitted nothing for more than 5000 ms, and otherwise transmits nothing |
| Duties.PongMeasures | src/peer.c:247-258 | an accepted PONG moves the estimates by the time since the clock reading it carries |
| Duties.RoundTripMeasured | src/peer.c:106-112 | after any run from reset that left both peers running and idle, PING, delivery, service and delivery of the PONG, at any times by the two clocks, bring exactly the time from the first step to the last into the estimates; on 16-bit numbers, either peer pinging |
| Duties.FirstRequest | src/peer.c:607-617 | the first service of a connecting client puts exactly one packet on the wire, a reliable CONN_REQ under the number after its random one |
| Duties.RequestAnswered | src/peer.c:303-323 | such a request, numbered neither 0 nor 0xFFFF, sets a new server peer running with its number as baseline and queues exactly one CONN_RSP that accepts, due in 1 ms |
| Exactness.AckDecisionExact | src/peer.c:459-473 | an acknowledgement is past exactly in the half circle behind the last one taken, broken exactly if not past and in the half circle ahead of the last number issued |
| Exactness.ReliableDecisionExact | src/peer.c:155-165 | the reliable decision is right if and only if the packet is not a whole number of wraps away from the two numbers expected |
| Exactness.UnreliableDecisionExact | src/peer.c:183-191 | for every unreliable packet, the decision is right if and only if, when its reliable number looks current modulo 2^16, the 16-bit difference is forward just when the true numbers say current and later |
| Exactness.OldPacketTakenForNew | src/peer.c:158-168 | a reliable packet delayed by a full wrap is accepted as new |
| Exactness.OldUnreliableTakenForNew | src/peer.c:183-191 | so is an unreliable packet whose reliable number is a full wrap old |
| Exactness.ServerRunsIff | src/peer.c:366-371 | a fresh server peer completes on a CONN_REQ, reliable or not, if and only if its numbers look neither received nor next to a peer just reset |
| Exactness.ClientRunsIff | src/peer.c:372-377 | likewise a connecting client on a CONN_RSP, reliable or not |
| Exactness.EarlyReliableMisacked | src/peer.c:443-447 | a connecting client that owes nothing acknowledges 0xFFFF in its next service if and only if it was sent a reliable packet not numbered 0 that does not complete the handshake; it has accepted nothing then |
| Exactness.TimeoutKeepsNumbers | src/peer.c:699-702 | a time-out drop changes nothing but the timer, so the outgoing numbers are as after reset if and only if they were before |
| Exactness.CloseKeepsNumbers | src/peer.c:395-400 | an accepted CLOSE leaves the outgoing numbers and the queue, but for what it acknowledges itself; they are as after reset if and only if nothing unreliable was numbered since the last reliable number, the number below that one is the one acknowledged, and the queue is empty or all of it is acknowledged by the CLOSE |
| Guarantees.NeverNumberedAfresh | src/peer.c:67-69 | after any run from reset, drops included, the client's outgoing numbers are never again as reset left them, nor the server's once it has numbered anything |
| Timing.TimeoutExact | src/peer.c:699-702 | for any life of a peer from reset, a service drops it if and only if more than 10000 ms passed since a packet was classified SEQUENCED or RETRANSMITTED (or since reset) |
| Timing.DeadlineIsLastHeard | src/peer.c:386-391 | the deadline is always 10000 ms after such a packet, whatever else happened |
| Timing.DropsOnTime | src/peer.c:260-301 | timer firings alone, each on time, reach the drop exactly 1 ms after the deadline |
| Timing.SilentPeerDropped | src/peer.c:79-96 | a peer nobody answers is dropped 10001 ms after its initialisation |
| Timing.NextRetransmission | src/peer.c:263-288 | a service that leaves reliable packets unacknowledged has just transmitted, and comes back after rto, cut to the deadline and at least 1 |
| Timing.TimerAfter | src/peer.c:260-301 | after any event that reaches the end of its function, whatever was received, sent or served: an empty queue sets the timer 5000 ms ahead, cut to the deadline and at least 1; a head never transmitted 1 ms ahead; a transmitted head by elapsed time and rto, cut likewise |
| Timing.DueAtOnce | src/peer.c:274-288 | what an event leaves queued behind no transmitted packet is all on the wire, in order, after the service 1 ms later, if the deadline allows that service |
| Timing.ClockIsLastSent | src/peer.c:595-605 | last_out_time is when the peer last put anything on the wire, whatever else happened |
| Timing.LaterCallPostpones | src/peer.c:271-273 | setting the timer again later puts the retransmission off by twice the time elapsed; it is due at last_out_time + rto if and only if none has |
| Timing.TimersBounded | src/peer.c:106-128 | in any life of a peer from reset in which the PONGs it accepts while running give samples in [0, n], whatever else it receives, sends and serves, srtt and rttvar stay in [0, max(100, n)] and rto in [0, 3000] |
| Timing.SampleWeights | src/peer.c:106-112 | a sample enters srtt with weight 1/8 and its deviation enters rttvar with weight 1/4, both rounded down; rto is srtt up to 3000; nothing else changes |
| Timing.SrttConverges | src/peer.c:109 | under a constant sample srtt falls to the sample itself from above and rises to seven below it from farther below, within as many steps as the distance |
| Timing.SrttFixedPoint | src/peer.c:109 | srtt rests if and only if it is the sample or up to seven below it |
| Timing.BackoffsExact | src/peer.c:119-123 | k back-offs give min(3000, rto * 2^k) |
| Timing.BackoffLimit | src/peer.c:119-123 | twelve back-offs reach 3000 from any positive rto, and 0 stays 0 |
| SeqNum.SignedExact | src/peer.c:461-462 | the int16_t difference of two numbers is the true difference if and only if that lies in the half window |
| SeqNum.DeltaIsSerialOrder | src/peer.c:461-465 | past and advance are the serial number order of section 3.2 of RFC 1982, plus "past" for the pair it leaves undefined |
| Peer.Peer.constructor | src/peer.c:79-96 | a new peer is in the reset state (srtt 100, rttvar 50, rto 3000, 10000 ms to the deadline), its timer set, its queue empty |
| Peer.Peer.Reset | src/peer.c:51-77 | the peer ends in the reset state, every chain of its queue is back in the pool or released, no other chain is touched |
| Peer.Peer.UpdateRtt | src/peer.c:106-112 | the estimator step, with C's truncating division |
| Peer.Peer.RtoBackoff | src/peer.c:119-123 | rto doubles up to the cap, nothing else changes |
| Peer.Peer.ServiceSchedule | src/peer.c:260-301 | only the timer changes: 5000 ms ahead for an empty queue, by elapsed time and rto for a transmitted head, both cut to the deadline and at least 1, and 1 ms ahead for a head never transmitted |
| Peer.Peer.AnalyseReliable | src/peer.c:151-169 | the class by 16-bit equality, and the numbers move for SEQUENCED only |
| Peer.Peer.AnalyseUnreliable | src/peer.c:172-194 | the class by equality and signed 16-bit difference, and the number moves for SEQUENCED only |
| Peer.Peer.SendUnreliable | src/peer.c:554-572 | the chain passes from its holder to the end of the queue with the next unreliable number, and the timer is set |
| Peer.Peer.SendReliable | src/peer.c:574-593 | likewise with the next reliable number, the unreliable count starting over |
| Peer.Peer.SendConnect | src/peer.c:607-617 | the peer is connecting and a reliable CONN_REQ is queued |
| Peer.Peer.SendCloseNoqueue | src/peer.c:619-638 | the wire grows by exactly one packet, an unreliable CLOSE under the next unreliable number, and the queue is left alone |
| Peer.Peer.HandleAck | src/peer.c:459-520 | past acknowledgements change nothing, broken ones are reported and change nothing, others set out_seq_acked and free the acknowledged prefix of the queue |
| Peer.Peer.PostAck | src/peer.c:529-549 | an acknowledgement is owed; an empty queue gets exactly one unreliable NOOP under the next unreliable number, any other queue is left as it is |
| Peer.Peer.HandlePing | src/peer.c:219-245 | an unmarked PING queues a PONG with its payload, a marked one nothing |
| Peer.Peer.IncomingPacket | src/peer.c:331-452 | the whole handling of a packet computes the specified state, reports rejection and drop, and neither leaks nor steals a chain |
| Peer.Peer.SendQueue | src/peer.c:642-681 | the loop over the queue transmits, marks, unlinks and frees as specified |
| Peer.Peer.Service | src/peer.c:695-717 | the timer handler computes the specified state and reports a drop if and only if the deadline has passed |
| RudpList.Insert | src/rudp_list.h:46-53 | the ring of a sequence becomes the ring of the sequence with the element in front, writing only the links that change |
| RudpList.Append | src/rudp_list.h:55-62 | likewise at the end |
| RudpList.Remove | src/rudp_list.h:64-69 | likewise without the element, wherever it is |
| RudpList.Length | src/rudp_list.h:71-85 | the loop ends with the length of the sequence |
| RudpList.Empty | src/rudp_list.h:87-91 | true if and only if the sequence is empty |
| RudpList.RingUnique | src/rudp_list.h:39-44 | the links determine the sequence |
| RudpList.MoveAll | src/rudp_list.h:26-32 | the safe loop visits every original element once, in order, while its body moves each to the front of another list: the first ends empty, the second with the elements reversed in front |
| RudpList.Move | src/packet.c:49-75 | moving a link from any place of one list to the front or the end of another keeps the whole family of lists rings, no link lost and none in two of them |
| RudpList.OneRing | src/rudp_list.h:39-69 | in such a family a link is at one place of one list |
| Pool.Rudp.Alloc | src/packet.c:37-68 | a chain nobody holds, from the free list if the default size is enough, else new, with the length asked for |
| Pool.Rudp.Free | src/packet.c:70-89 | the chain leaves its holder for the free list, or for the system if it is oversized or the pool is full; the free list never exceeds 10 chains |
| Pool.Rudp.Counter | src/packet.c:60-87 | allocated_packets is the number of live chains modulo 2^16, exact if and only if fewer than 2^16 are live |
| Server.Differ | src/address.c:250-282 | two addresses match if and only if family, port and address bytes agree |
| Server.KeyExact | src/address.c:250-282 | the key under which the table is read as a map tells exactly the addresses apart that differ in family, port or address bytes |
| Server.Server.Lookup | src/server.c:98-109 | the peer found has the family, port and address bytes asked for, none is found only if no listed peer has, and the list search agrees with the table read as a map from address to peer |
| Server.Server.NewPeer | src/server.c:151-172 | a peer in the reset state goes to the front of the list, for an address that was not listed |
| Server.Server.Forget | src/server.c:62-68 | exactly that peer leaves the list and its chains go back to the pool |
| Server.Server.HandleEndpointPacket | src/server.c:186-219 | a packet from a listed address reaches that peer and no other, which is dropped and announced so if and only if the packet is an accepted CLOSE; from an unknown address it is ignored unless it is a CONN_REQ, 12 bytes long, that is not rejected, and then makes exactly one announced peer; the list stays the peers announced and since neither dropped nor closed |
| Server.Server.Meet | src/server.c:186-219 | what a new client first puts on the wire, delivered from an unlisted address, makes exactly one more announced peer, in front of the list, running, with the request's number as baseline and its answer queued; for every number the client may draw but the two that put 0 or 0xFFFF on the request |
| Server.Server.ServicePeer | src/server.c:133-143 | a fired timer drops and forgets the peer if and only if its deadline has passed, and leaves every other peer alone |
| Server.Server.ClientClose | src/server.c:70-76 | the closed peer leaves the list |
| Server.Server.Send | src/server.c:227-251 | a command past 239 is refused and changes nothing; otherwise exactly that peer queues one packet more, with the reliability asked for, the command plus 16, the payload and the next number of its kind, and the table and its chains stay well formed |
| Server.Server.Close | src/server.c:78-89 | every listed peer is reported dropped once, in list order, the list ends empty, and every chain is back with the pool or outside |
| Server.Server.ChainsConserved | src/packet.c:37-89 | while the table is well formed every live chain is in exactly one place: the free list, somebody's hands, or one queue of one listed peer |
| Server.SamePeerUntilForgotten | src/server.c:98-109 | whatever happens to other peers, an announced peer is the one its address finds until it is dropped or closed |
| Server.AnnouncedEstablishedIff | src/server.c:206-215 | an announced peer is running if and only if its connection request does not look received or next to a peer just reset |
| Server.FirstPacketRejectedIff | src/server.c:210-214 | a first packet is rejected if and only if it acknowledges a number in the half circle after the random base |
| Server.DropReported | src/peer.c:395-402 | among the handler calls made during a packet there is a drop if and only if the packet is an accepted CLOSE |

## Left out

- Sockets, name resolution, address text and the libela loop: sending appends to a history, the timer is one optional wake time, and each step reads the clock once.
- The result of sending (`sendto_err`): it is stored and returned, and no decision depends on it.
- Random numbers: parameters of the methods that draw them.
- The length of a packet: it reaches the server as a parameter next to the packet, and the histories do not record it.
- Logging, setters, user data and byte order: headers are records of numbers.
- Allocation failure: several callers do not check for it, so allocation always succeeds.
- Header bytes a recycled chain keeps from its last use: the fields nothing has written count as zero.
- A PONG whose payload is not a time stamp of this peer's PING: ignored instead of read as a number.
- Overflow of 64-bit milliseconds: times are unbounded.
- Handlers that free the peer or re-enter the server from inside a call; they may send, as `replies`.
- The send queue of `Peer` and the free list of `Pool` are sequences of chain objects, not links: that each chain is in one place is proved of the objects (`ChainsConserved`), that lists of links keep each link in one ring is proved of the links (`RudpList.Move`), and the two are not joined.
- `rudp_server_send_all` and the client wrapper: they call the send of each peer; the client's `connected` callback fires on any accepted packet and is no evidence of a handshake.
- Negative application commands, which the documented range excludes.
- Guarantees.FlagsOnWire: "the same packet" is told by its unbounded number, which the 16-bit wire does not show.
- Reconnection of a peer object after reset: a session runs from one reset to the next.
- A claim that idle peers never time out: with exact timers the strict comparison at `src/peer.c:710` and the clamped delays do not support it.
