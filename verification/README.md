# dperf endpoint verification

dperf is a load generator: thousands of sockets of its own TCP, UDP and HTTP run
to completion on each worker thread. This project models that endpoint and the
bookkeeping around it in Dafny and proves what it keeps.

`dafny verify dfyconfig.toml` checks everything.

## How it is built

The C code changes sockets, rings and counters in place. It is modelled twice.
`Tcp.dfy` and `Udp.dfy` give each handler as a function from the state it touches
(socket, rings, counters, segments sent, packets the pool will still grant) to the
new state; the theorems are about runs of these functions. `TimerRing.dfy`,
`Endpoint.dfy`, `UdpEndpoint.dfy` and the loop in `Expiry.dfy` give the same
handlers as methods on heap objects, with linked rings and fields overwritten and
restored, each proved to compute its function.

| file | subject |
|---|---|
| `Rings`, `TimerRing` | the three timer rings: as sequences, and as linked lists in memory |
| `Tcp`, `Udp` | every handler as a function |
| `Endpoint`, `UdpEndpoint` | every handler as a method on socket objects |
| `Invariants`, `Sites`, `Worker`, `Concurrency`, `Retransmission` | what handlers keep; whole runs of a worker; the connection cap; bounded retransmission |
| `Protocol`, `Connection`, `Progress`, `Recovery` | a client and a server socket over a network that loses, repeats and reorders |
| `Handshake`, `Requests`, `Closing` | how such a pair opens, asks again and again, and closes; SYN floods |
| `Counts` | what the request and response counters count |
| `Expiry` | the timer loop on a server |
| `Window`, `Payload` | the windowed sender in 32-bit sequence numbers, and the sizes it is configured with |
| `Delivery` | windowed responses on their way to a client over such a network |
| `Pace` | the beat of the keepalive timer, the growth of the window, the server's timeout |
| `UdpRuns` | runs of a UDP worker |
| `HttpHeader`, `HttpParse`, `HttpBody`, `HttpCut` | header lines, the resumable response parser, whole responses, and header blocks that arrive in pieces |
| `HttpClient` | the HTTP client socket together with its parser |
| `SocketTable` | the socket pool, its index and its lookup |
| `TxQueue`, `IpList`, `Checksum` | transmit queue, address lists, incremental checksums |
| `Settings` | which keepalive settings the configuration accepts |
| `Network`, `Options`, `Verdicts`, `Radix`, `RoundRobin` | small pieces that several modules share |

Clock readings, segments, answers of the packet pool and what the device accepts are
arguments or free choices, so every theorem holds for all of them. The TCP handlers take
what the HTTP parser answers as an argument too. Fields are in host byte order.

## Where the code falls short of what it is for

- The inner TCP checksum under VXLAN accounts for `snd_nxt` while the header carries
  `snd_una` (src/tcp.c:143-147 against 166). It is right exactly when they agree modulo
  0xffff (`Checksum.VxlanExact`): right for bare ACKs, wrong for every SYN, FIN and data
  segment sent with nothing outstanding and no wrap-around (`Checksum.VxlanPacket`).
- A worker with no share of `cc` but a share of `cps` launches without any cap. All workers
  together can exceed cc if and only if cc is below both the number of workers and cps
  (`Concurrency.CapOfFile`); pools of one socket each are enough. (`Concurrency.CapExact` says
  it of any settings, flood without keepalive included, which the configuration check refuses
  together with a target.)
- If no packet can be allocated for the first request at the SYN-ACK, the socket stays
  on the retransmit ring with nothing outstanding (`Invariants.SynAckNeedsPacket`, a run
  into it in `Worker.RingMeaningFails`). On a stop-and-wait worker
  without flood nothing else breaks the meaning of the rings (`Worker.RingMeaning`).
- On a windowed server whose mss is below the 85 bytes of the HTTP header, the prepared
  packets are longer than a segment. The window invariant then holds after a request only
  if the rounded size is below 85 or 85 divides it (`Payload.RequestOpensIff`); with mss 80
  and size 150 it does not (`Payload.ShortSegmentsFail`). With any larger mss it always holds.
- With a keepalive interval of zero a client that takes a response after the run is over
  sends its FIN while it still handles the response, and the bare ACK that follows overwrites
  the flags kept for repeating it. If the FIN is then lost, the timer sends an empty segment
  once and the socket stays in FIN_WAIT_2 with its FIN outstanding on no ring: no timer of the
  client repeats or closes it (`Recovery.NotRepeated`, a run into it, and every way on from
  there over a network that lost the FIN, in `Recovery.Stranded`). With the settings the
  configuration accepts this is the only way to lose anything (`Recovery.LosesIffLate`,
  `Settings.FileIsAccepted`): at every point of every run until its FIN whatever a client has
  outstanding would be repeated in full, at any interval (`Recovery.OutstandingIsArmed`), and
  a request under way can be completed after any loss (`Recovery.RecoversFromLoss`). The code
  would also overwrite the flags of the last request allowed, or of a client that acknowledges
  at once (`Recovery.OverwrittenIff`), but at interval zero the configuration admits neither.
- An HTTP client whose request is acknowledged before the response comes is on no ring until the
  response has ended: no timer of its own watches a server that then falls silent
  (`HttpClient.AcknowledgedSleeps`; `HttpClient.IdleWaits` says exactly when it is on a ring).
- With client_hop the cursor moves 65536 sockets at a time and then starts over at the first, so
  all sockets in between are never opened (`RoundRobin.HopPicksFew`).
- With a pipeline, a launch of several UDP sockets sends the whole pipeline for the first one
  only, because the count is not set back between sockets (`UdpRuns.LaunchesSend`).
- Lookup agrees with the plain map exactly when client addresses differ in their low 16
  bits (`SocketTable.LookupIsTheMap`), which the configuration check ensures
  (`SocketTable.CheckClientAddr`).
- How a response is cut into segments can matter at its end. Bytes behind it in the same
  segment are an error with a content length and dropped with chunked coding
  (`HttpBody.SurplusInSegment`); in a later segment they are read as a new header block,
  because the client has reset the parser (`HttpParse.Parser.Receive`). For a counted body
  `HttpBody.CountedSegmentation` says exactly when the cut matters; up to the end of a
  chunked body it never does (`HttpBody.AnySegmentation`).
- A header block is meant to arrive in one segment. The parser goes on to the body at the end
  of every segment, so a cut behind `Content-Length: 0` ends the response early and one behind
  the chunked coding fails (`HttpCut.CutVerdict`); the two halves of a cut line are never put
  together, so a cut framing line is lost and the response is not seen to end
  (`HttpCut.CutLineIsLost`, `HttpCut.CutResponseGoesOn`), and the rest of another line can
  become one (`HttpCut.RestBecomesLength`). `HttpCut.CutAnywhere` says of any byte whether a cut
  there makes a difference.
- The parser knows a header name by its length, first and last letter, chunked by a letter k, and
  keep-alive by its length; `HttpHeader.FramingIff` says exactly what a block comes to under
  these rules.

## Model

| member | source | states |
|---|---|---|
| `Protocol.NoSimultaneousClose` | src/tcp.c:535-541 | In every state of the stop-and-wait conversation no segment in flight to either side meets the guard of the simultaneous-close branch (FIN_WAIT_1, an empty FIN at rcv_nxt that acknowledges snd_una and not snd_nxt). |
| `Protocol.OnlyResponse` | src/tcp.c:511-533 | A segment that an established client accepts is the one response to its outstanding request: it carries data and starts at the server's snd_una. |
| `Protocol.OnlyRequest` | src/tcp.c:511-533 | A data segment that the server accepts is the client's outstanding request, which the server had not taken before. |
| `Protocol.CTakeKeeps` | src/tcp.c:845-905 | Taking the response keeps the whole two-party invariant (cursors, contents of the network, order of requests and responses). |
| `Protocol.SServeKeeps` | src/tcp.c:695-766 | Taking a request and sending its response keeps the whole two-party invariant. |
| `Protocol.CResendKeeps` | src/tcp.c:380-429 | Sending the outstanding segment of the client again, any number of times, keeps the two-party invariant. |
| `Protocol.SResendKeeps` | src/tcp.c:380-429 | The same for the server. |
| `Protocol.CLateKeeps` | src/tcp.c:621-666 | What the client takes after its own FIN (waits on, closes with an acknowledgement, or closes without a word, as its state and the FIN bit decide) keeps the two-party invariant, which includes that the segments that bring the connection to its end stay on the network. |
| `Protocol.SLateKeeps` | src/tcp.c:621-666 | The same for the server after its own FIN, and for the acknowledgement that closes it. |
| `Connection.ReplyIs` | src/tcp.c:219-264 | One reply of a stop-and-wait endpoint sends exactly one segment from snd_una, moves snd_nxt only when nothing is outstanding, and puts the socket on the keepalive ring never by itself. |
| `Connection.ClientSegment` | src/tcp.c:954-1000 | Whatever segment of the server's the network delivers to the client (old, repeated, out of order), the client's handler keeps the two-party invariant. |
| `Connection.ServerSegment` | src/tcp.c:907-952 | Whatever segment of the client's the network delivers to the server, the server's handler keeps the two-party invariant. |
| `Connection.StepKeeps` | src/tcp.c:380-1023 | Every event (launch, delivery, retransmission, keepalive, timeout) keeps the two-party invariant of a pair of real sockets. |
| `Connection.Agreement` | src/tcp.c:124-168 | In every run over a network that loses, duplicates and reorders: after the handshake each side's rcv_nxt is the other's snd_una or snd_nxt, and a segment in flight from snd_una on starts at snd_una and is empty or exactly snd_nxt - snd_una long. |
| `Connection.ExactlyOnce` | src/tcp.c:498-533 | In every run: responses accepted <= requests accepted <= requests issued <= responses accepted + 1; the accepted requests are a prefix of the issued ones and the received responses a prefix of the sent ones, none twice. |
| `Connection.NeverClosing` | src/tcp.c:535-541 | In every run neither socket enters CLOSING and no segment on the network could take it there. |
| `Connection.LogsCount` | src/tcp.c:124-168 | In every run the two logs of issued requests and sent responses that ExactlyOnce compares list, without repetition, exactly the data segments ever put on the wire. |
| `Progress.NeverStuck` | src/tcp.c:498-533 | From every reachable state with a request under way that the server has taken or can still take, delivering at most two segments already on the network completes the exchange: the response is accepted. |
| `Progress.CanOpen` | src/tcp.c:431-496 | From the start three events (launch, SYN to the server, SYN-ACK to the client) lead to a request under way, for any configuration the two-party model admits. |
| `Closing.FinCloses` | src/tcp.c:635-659 | A socket in FIN_WAIT_1 or FIN_WAIT_2 that accepts a segment with FIN is closed after Server or Client, off every ring, one connection fewer open and no error; it sends exactly one segment, which acknowledges the whole of the one it took. |
| `Closing.LastAckCloses` | src/tcp.c:650-652 | A socket in LAST_ACK that accepts a segment is closed in the same way, without sending anything. |
| `Closing.FinIsAnswered` | src/tcp.c:626-629 | A bare FIN that an established socket accepts is answered with its own FIN and an acknowledgement of the other in one segment, in LAST_ACK. |
| `Closing.FinsCross` | src/tcp.c:535-541 | A FIN that crosses the socket's own, from any peer: it is taken, the socket's FIN leaves once more with the acknowledgement of the other, in LAST_ACK, and the acknowledgement of it closes the socket without an error. |
| `Closing.ResetCloses` | src/tcp.c:934-952 | Any segment with RST closes an open socket of either side, one connection fewer, and changes nothing of a closed one. |
| `Closing.CanClose` | src/tcp.c:621-766 | From every reachable state in which a FIN of either side has been sent and neither side has given up, delivering at most three segments that are on the network leaves both sockets closed, with no error counted, and each past the other's FIN (or, with fast close, the server closed by the client's reset). |
| `Closing.ClosesWithoutError` | src/tcp.c:375-429 | In every run from the start in which no error is counted: once a FIN of either side has been sent, delivering at most three segments that are on the network closes both sockets, still without an error. |
| `Requests.IdleWaits` | src/tcp.c:870-884 | In every run of a client with an interval: whenever it is established with keepalive and nothing outstanding, it is on the keepalive ring. |
| `Requests.ExpiryAsks` | src/tcp.c:1002-1023 | The expiry of such a client inside the duration makes the issued requests longer by exactly the new one, which is outstanding and on the network; after the duration it puts the FIN on the network instead. |
| `Requests.TakingAsks` | src/tcp.c:870-884 | With interval zero the response that is taken inside the duration makes the issued requests longer by exactly the next one, outstanding and on the network; after the duration it puts the FIN on the network. |
| `Requests.ReachesAll` | src/tcp.c:829-843 | At every keepalive interval, for every number of responses the settings allow (any at all without a limit of requests, one more than the limit with one) some run from the start takes exactly that many. |
| `Requests.NoMoreThanAllowed` | src/tcp.c:829-843 | No run issues more requests than that. |
| `Handshake.SynAcksAreSpaced` | src/tcp.c:431-458 | Whatever number of SYNs comes to a stop-and-wait server in SYN_RECEIVED and whenever: its answers are copies of one SYN-ACK, more than a second apart, and at no point has a SYN come more than a second after the last answer without getting one. |
| `Handshake.SynOpensOrDrops` | src/tcp.c:431-458 | A SYN to a closed socket opens it with a number of its own and counts one connection; one to a socket past SYN_RECEIVED changes nothing. |
| `Handshake.SynAckTwice` | src/tcp.c:460-496 | A waiting client is opened by a SYN-ACK if and only if it acknowledges the SYN. The same SYN-ACK once more is answered by a bare acknowledgement exactly where the pool had no packet for the request, and otherwise by nothing. |
| `Handshake.OpensAfterLoss` | src/tcp.c:380-429 | After every run that has brought the client to wait for its SYN-ACK, if the network loses everything it carries and a retransmission is left to the side whose turn it is, one expiry and its deliveries bring the client to its first request. |
| `Handshake.FloodSends` | src/tcp.c:1002-1050 | A launch in flood mode sends one SYN; with keepalive each expiry inside the duration sends the next with the next number, nothing else being counted or sent, and the first expiry after it closes the socket; without keepalive the launch itself closes it. |
| `Counts.SegmentsAreCounted` | src/tcp.c:219-247 | Over any run of one socket, whatever arrives and expires: the request counter of a client and the response counter of a stop-and-wait server grow by the number of data segments sent, repeats included; with a send window the response counter grows by the number of requests. |
| `Settings.FileIsAccepted` | src/config.c:297-326 | Whatever lines the configuration file has: if it passes, a client with a keepalive interval of zero has no limit of requests, no flood with keepalive, and a positive timeout; the timeout is at least two seconds; and a client with a target of connections has keepalive. |
| `Settings.AcceptedPasses` | src/config.c:2480-2529 | A client file with any interval, number of requests, timeout, target and flood is refused if and only if the interval is zero and there is a limit of requests or flood. |
| `Recovery.OutstandingIsArmed` | src/tcp.c:249-261 | In every run, at every keepalive interval: whatever an open server has outstanding is on the retransmit ring and would be repeated in full. With accepted settings the same holds of the client at every point of a run if and only if it does not take a response after the run is over at interval zero, and so at every point of every run in which it has not sent its FIN. With any settings it holds exactly as long as no step overwrites the flags, which with an interval none does. |
| `Recovery.ArmedIffNoneLoses` | src/tcp.c:829-843 | From any reachable pair, run by run: the client stays armed throughout if and only if no step loses. |
| `Recovery.LosesDisarms` | src/tcp.c:895-899 | Every step that loses leaves the client open, with something outstanding that is not armed. |
| `Recovery.RecoversFromLoss` | src/tcp.c:380-429 | With accepted settings, after every run, with a request under way and a retransmission left: if the network loses everything it carries, one expiry of the retransmit timer puts a fresh copy on the wire whose delivery completes the exchange. |
| `Recovery.RecoversUnlessLost` | src/tcp.c:380-429 | The same with any settings, after a run in which no step overwrites the flags. |
| `Recovery.LosesIffLate` | src/tcp.c:829-898 | With accepted settings a step overwrites the flags of what the client has just sent if and only if a client with keepalive and interval zero takes a response after the run is over. |
| `Recovery.ClosesLateIs` | src/tcp.c:838-898 | Such a step leaves the FIN outstanding with bare ACK flags, in FIN_WAIT_2. |
| `Recovery.OverwrittenIff` | src/tcp.c:829-843 | With a zero interval, the flags a client keeps for repeating the request (or FIN) it just sent are overwritten if and only if the response carried a FIN or the run is over, or (which accepted settings exclude) that was the last request allowed or the client acknowledges at once; for accepted settings the contract says so as an if-and-only-if of its own. |
| `Recovery.NotRepeated` | src/tcp.c:250-260 | With flags so overwritten the next expiry sends nothing that is outstanding and leaves the socket open, with data outstanding, on no ring. |
| `Recovery.Stranded` | src/tcp.c:895-899 | A run from every start with a zero interval (accepted settings included): the last response is taken after the run is over, and the FIN sent for it is lost. Whatever happens from there on, the client stays in FIN_WAIT_2 with its FIN outstanding, on no ring. |
| `Retransmission.OneAttempt` | src/tcp.c:380-429 | One call with data outstanding: below three repeats it sends the outstanding segment again (if a packet is granted) and counts; at three it closes the socket and counts one error, sending nothing. |
| `Retransmission.ActCounts` | src/tcp.c:511-595 | Every handler call on a socket with data outstanding that does not accept a segment: a retransmission, by timer or by a stale segment, counts one and repeats the outstanding segment, the fourth closes with one error, and nothing else changes the count. |
| `Retransmission.OnlyAcceptanceResets` | src/tcp.c:386 | The count of an open socket goes down only when a segment is accepted or with nothing outstanding. |
| `Retransmission.AcceptanceResets` | src/tcp.c:511-512 | A segment with both expected numbers sets the count to zero, on the server and on the client. |
| `Retransmission.BoundedRetransmission` | src/tcp.c:380-429 | In every run of a worker from any reachable state, between two accepted segments, whatever else arrives or expires: tcp_do_retransmit is called for the socket at most 4 - retrans times, each call but the last counts one, and the socket is given up with one error if and only if that last call is made. |
| `Invariants.FollowsFits` | src/socket.h:143-153 | A handler that moves only its own socket leaves the rings well formed and every other socket on the ring it was on. |
| `Invariants.SynAckNeedsPacket` | src/tcp.c:475-479 | At the SYN-ACK a client keeps the meaning of its ring if and only if a packet was granted; without one it sits on the retransmit ring with nothing outstanding. |
| `Invariants.ServerKeeps` | src/tcp.c:907-952 | The server's TCP handler, for any segment and state: counters, rings, retransmission bound, no TIME_WAIT, and the ring meaning. |
| `Invariants.ClientKeeps` | src/tcp.c:954-1000 | The client's TCP handler, for any segment and state, keeps the same. |
| `Invariants.DoRetransmitKeeps` | src/tcp.c:380-429 | Retransmission keeps the same, in stop-and-wait and windowed mode. |
| `Invariants.KeepaliveExpiryKeeps` | src/tcp.c:1002-1023 | The keepalive expiry keeps the same, flood mode included. |
| `Invariants.LaunchKeeps` | src/tcp.c:1025-1050 | A TCP launch keeps the same, flood mode included. |
| `Invariants.UdpKeepaliveExpiryKeeps` | src/udp.c:166-190 | The UDP keepalive handler keeps the same for a socket taken off its ring. |
| `Invariants.UdpClientKeeps` | src/udp.c:192-224 | The UDP client handler keeps the same. |
| `Invariants.UdpLaunchKeeps` | src/udp.c:249-280 | A UDP launch keeps the same, in keepalive, flood and plain mode. |
| `Worker.Conservation` | src/net_stats.h:115-116 | In every run of a TCP or UDP worker, whatever arrives and however often packets are refused: socket_open - socket_close == socket_current == number of sockets not closed, no socket is ever in TIME_WAIT, the rings are duplicate-free and disjoint, a closed socket is on none, and an open one has retrans <= 3. |
| `Worker.RingMeaning` | src/socket_timer.h:117-146 | In every run of a stop-and-wait TCP worker: a socket on the retransmit ring has data outstanding and one on the keepalive ring has none, at every point of the run, if and only if no socket that opens (a SYN-ACK with the expected acknowledgement, taken in SYN_SENT on the retransmit ring) is refused the packet of its first request. |
| `Worker.RingMeaningFails` | src/tcp.c:475-479 | From every start a launch, and a SYN-ACK at which no packet is granted, leave a socket on the retransmit ring with nothing outstanding. |
| `Worker.LaunchNumIsGreatest` | src/work_space.h:207-238 | The launch number is the greatest that is due, fits one batch and does not pass the cap. |
| `Worker.ClientLaunch.Num` | src/work_space.h:207-238 | Returns the greatest number that may be launched now: nothing before it is due, at most one batch, never past the cap; launch_next moves one interval when it is due and not otherwise. |
| `Concurrency.ShareBound` | src/client.c:40-46 | The truncated floating-point division is the integer one, and the shares of the others leave worker 0 at least as much. |
| `Concurrency.SharesSum` | src/client.c:30-50 | The shares of all workers add up to the configured target, for any target and number of workers. |
| `Concurrency.RunStaysUnder` | src/work_space.h:207-238 | A client worker with cc > 0 never has socket_current > cc, in any run of launches, segments and timers. |
| `Concurrency.ClientInit` | src/client.c:52-99 | A worker without a launch share stays idle; otherwise it gets its share of cc, a batch of launch_num (by default the least of 4 to 10 that divides its share) but no larger than its share, and the interval for one or for share / batch batches in a second. |
| `Concurrency.RateIsMet` | src/client.c:87-93 | A batch that divides the share, launched at that interval (cps share / batch at most the clock rate), meets the share in every second, although the interval is rounded down twice. |
| `Concurrency.CapHolds` | src/client.c:52-99 | If cc is at least the number of workers or at least cps, all workers together never exceed cc in any runs. |
| `Concurrency.CapFails` | src/client.c:52-99 | With 0 < cc < workers, cc < cps and launched connections that stay (no flood, or keepalive): pools with one socket each are enough for a run of the workers, TCP or UDP, in which all together exceed cc. |
| `Concurrency.CapExact` | src/client.c:52-99 | For any number of workers with non-empty pools, cc > 0 and any cps: some run of the workers exceeds cc if and only if cc < workers, cc < cps and launched connections stay. |
| `Concurrency.CapOfFile` | src/config.c:2485-2488 | Of a configuration file that passes, where a target requires keepalive: exactly when cc < workers and cc < cps. |
| `Concurrency.UncappedAlone` | src/work_space.h:207-238 | Where there are more workers than cc and more launches than cc, one worker without a cap exceeds cc alone, if its pool has room for more than cc + 1 batches and neither client_hop nor flood is set. |
| `Rings.PlaceKeeps` | src/socket_timer.h:46-87 | Moving a socket to a ring keeps all three rings duplicate-free and disjoint, puts it on exactly that ring, and moves nobody else. |
| `TimerRing.Bridged` | src/socket.h:143-153 | Unlinking a node of a circular list leaves the circle of the others in their order. |
| `TimerRing.Appended` | src/socket_timer.h:52-64 | Linking an unlinked node before the head appends it to the circle. |
| `TimerRing.Timers.SelfLinkedIffOff` | src/socket.h:146-148 | A node is its own neighbour if and only if it is on no ring. |
| `TimerRing.Timers.Del` | src/socket_timer.h:46-50 | In memory: the node leaves whichever ring holds it, the other rings and the order stay, and a node on none is left alone. |
| `TimerRing.Timers.Push` | src/socket_timer.h:52-64 | In memory: a node on no ring becomes the last of the given ring. |
| `TimerRing.Timers.First` | src/socket_timer.h:66-75 | Finds the first of the ring, or nothing when it is empty. |
| `TimerRing.Timers.Add` | src/socket_timer.h:82-87 | In memory: the node leaves its ring and becomes the last of the given one. |
| `Endpoint.Socket.NewPacket` | src/tcp.c:89-187 | In memory: the segment, snd_nxt and the packet pool are those of Tcp.NewPacket. |
| `Endpoint.Socket.Reply` | src/tcp.c:219-264 | In memory: the whole new state (socket, rings, counters, segments sent) is that of Tcp.Reply. |
| `Endpoint.Socket.DoRetransmit` | src/tcp.c:380-429 | In memory: the whole new state is that of Tcp.DoRetransmit, snd_nxt overwritten and put back. |
| `Endpoint.Socket.ServerSyn` | src/tcp.c:431-458 | In memory: the whole new state is that of Tcp.ServerSyn. |
| `Endpoint.Socket.ClientSynAck` | src/tcp.c:460-496 | In memory: the whole new state is that of Tcp.ClientSynAck. |
| `Endpoint.Socket.CheckSequence` | src/tcp.c:498-596 | In memory: the whole new state and the verdict are those of Tcp.CheckSequence. |
| `Endpoint.Socket.ProcessFin` | src/tcp.c:621-666 | In memory: the new state and the flags to send are those of Tcp.ProcessFin. |
| `Endpoint.Socket.ReplyMore` | src/tcp.c:669-693 | In memory: the burst loop that moves snd_una along and puts it back computes Tcp.ReplyMore. |
| `Endpoint.Socket.ServerData` | src/tcp.c:695-766 | In memory: the whole new state is that of Tcp.ServerData. |
| `Endpoint.Socket.HttpData` | src/tcp.c:784-826 | In memory: the whole new state and the flags are those of Tcp.HttpData. |
| `Endpoint.Socket.SendKeepaliveRequest` | src/tcp.c:829-843 | In memory: the whole new state is that of Tcp.SendKeepaliveRequest. |
| `Endpoint.Socket.ClientData` | src/tcp.c:845-905 | In memory: the whole new state is that of Tcp.ClientData. |
| `Endpoint.Socket.Server` | src/tcp.c:907-952 | In memory: the whole server handler computes Tcp.Server. |
| `Endpoint.Socket.Client` | src/tcp.c:954-1000 | In memory: the whole client handler computes Tcp.Client. |
| `Endpoint.Socket.DoKeepalive` | src/tcp.c:1002-1023 | In memory: the whole new state is that of Tcp.DoKeepalive. |
| `Endpoint.Socket.Launch` | src/tcp.c:1025-1050 | In memory: the whole new state is that of Tcp.Launch. |
| `Endpoint.Socket.AckDelayed` | src/tcp.c:1161-1175 | In memory: the whole new state is that of Tcp.AckDelayed. |
| `Endpoint.Socket.ServerOpen` | src/socket.h:344-363 | In memory: the whole new state is that of Tcp.ServerOpen. |
| `Endpoint.Socket.ClientOpen` | src/socket.h:365-388 | In memory: the whole new state is that of Tcp.ClientOpen. |
| `Endpoint.Socket.Close` | src/socket.h:310-318 | In memory: the whole new state is that of Tcp.Close; closing twice is closing once. |
| `UdpEndpoint.RetransmitDue` | src/udp.c:149-157 | In memory: the expiry takes the socket off its ring and closes it, as Udp.UdpRetransmitExpiry does. |
| `UdpEndpoint.KeepaliveDue` | src/udp.c:166-190 | In memory: off the ring, then the handler with its pipeline loop, which together compute Udp.UdpKeepaliveExpiry. |
| `UdpEndpoint.Client` | src/udp.c:192-224 | In memory: the whole new state is that of Udp.UdpClient. |
| `UdpEndpoint.Launch` | src/udp.c:249-280 | In memory: the whole new state is that of Udp.UdpLaunch. |
| `UdpRuns.OpenSocketsWait` | src/udp.c:149-280 | In every run of a UDP worker whose keepalive expiries lie inside its duration, whatever arrives and however often packets are refused: every open socket with keepalive and an interval is on the keepalive ring, every open one without keepalive on the retransmit ring, and one with keepalive at interval zero on neither. |
| `UdpRuns.ExpirySends` | src/udp.c:166-190 | An expiry inside the duration adds the pipeline, at least one, to the datagram counter, as far as packets are granted; outside nothing. |
| `UdpRuns.ReplySends` | src/udp.c:206-216 | A reply to an open socket with keepalive at interval zero adds one datagram unless the worker is stopped, and any other adds none. |
| `UdpRuns.LaunchSends` | src/udp.c:256-266 | A launch adds the datagrams it is given, as far as packets are granted. |
| `UdpRuns.LaunchesSend` | src/udp.c:249-280 | A launch of any number of sockets adds one datagram for each that opens, and the rest of the pipeline for the first of them only. |
| `Expiry.HandlerKeepsSorted` | src/socket_timer.h:82-93 | On a server every handler leaves the retransmit and timeout rings sorted by timer_tsc. |
| `Expiry.ExpiryExact` | src/socket_timer.h:148-163 | On a sorted ring the loop handles exactly the expired sockets and leaves no expired one behind, although handlers put sockets back on the rings. |
| `Expiry.ServerExpiryExact` | src/tcp.c:1065-1074 | After any server run with a clock that does not run back, both expiry loops are exact. |
| `Expiry.RunTimerLoop` | src/socket_timer.h:148-163 | In memory: the loop that looks at the first socket of the ring again and again ends, and has handled one by one the sockets that were due at its start. |
| `Window.AckInFlight` | src/tcp.c:550-565 | With 32-bit wrap-around, an acknowledgement that passes the two signed tests lies in (snd_una, snd_nxt]. |
| `Window.CheckWindow` | src/tcp.c:550-580 | The sequence check keeps the window invariant for any segment: acknowledgement or data, in range, duplicate or stray. |
| `Window.ReplyMoreWindow` | src/tcp.c:669-693 | The burst keeps the window invariant and never moves snd_una back, although it overwrites snd_una for each packet. |
| `Window.RetransmitWindow` | src/tcp.c:401-411 | The windowed retransmission keeps the window invariant, although it overwrites snd_nxt. |
| `Window.StepWindow` | src/tcp.c:550-692 | No handler call moves snd_una back or past snd_nxt, nor moves snd_max, also in the call that ends the response. |
| `Window.AnyStepWindow` | src/tcp.c:695-766 | For any segment or expiry, a request or FIN in the middle of a response included, where responses are whole packets: while established the window invariant holds, and snd_una moves only forward and only up to the old snd_nxt. |
| `Window.WindowKept` | src/tcp.c:550-766 | Under any sequence of segments (acknowledgements, requests, FINs, with any numbers) and expiries, while established: snd_una <= snd_nxt <= snd_max, snd_max - snd_nxt a multiple of the packet size, 1 <= snd_window <= 16, bytes in flight under send_window plus one packet, at most send_window when acknowledgements are packet-aligned; and while no request comes in snd_una has only come closer to a fixed snd_max; all in 32-bit wrap-around. |
| `Window.FirstRequestOpens` | src/tcp.c:719-732 | The first request of a connection, also with older bytes in flight, establishes that invariant if and only if the payload is a multiple of the packet length, and not empty if a packet is sent for it. |
| `Window.NextRequestOpens` | src/tcp.c:719-732 | Every later request, also one in the middle of a response, establishes it if and only if the payload is a multiple of the packet length. |
| `Delivery.StepKeeps` | src/tcp.c:498-766 | Windowed responses over a network that loses, repeats and reorders, with requests in between: every delivery, request, acknowledgement and expiry keeps all packets sent or on the wire whole and within what was asked for, and what the client has taken between what the server has acknowledged and what it has sent. |
| `Delivery.InOrderExactlyOnce` | src/tcp.c:669-766 | In every run of any number of responses on a connection, from any idle point of it with any older traffic still on the network, or from its first request: a client that takes only the packet it expects has taken the packets of all responses in order, each once and none beyond what the server was asked for; it has taken all that the server holds acknowledged and nothing unsent; and when the server has everything acknowledged, or has sent its FIN, every response whole. |
| `Delivery.CompletesAfterLoss` | src/tcp.c:401-411 | After every such run, if the network loses everything it carries while the server is established (and has a retransmission left, where the client has nothing new to acknowledge), further events bring the client every response it has asked for, whole. |
| `Delivery.ResponseEnds` | src/tcp.c:683-691 | In every run: a server with keepalive never enters FIN_WAIT_1 and, with everything acknowledged, is on the timeout ring; one without, with everything acknowledged, is in FIN_WAIT_1 with its FIN on the wire right behind the last response, or closed. |
| `Delivery.ServesEveryNumber` | src/tcp.c:669-766 | With keepalive, for every n some run takes exactly n whole responses and acknowledges them all, with the server established and on the timeout ring. |
| `Delivery.EndsWithFin` | src/tcp.c:686-689 | Without keepalive some run takes the whole of the one response, and it ends in FIN_WAIT_1 with the FIN behind it on the wire. |
| `Delivery.ConnectionBegins` | src/tcp.c:719-732 | Whatever an earlier connection left in the socket: a SYN and the first request behind it send exactly one packet and leave a window of two, and what follows is a run of the kind above from its beginning. |
| `Pace.AckWidens` | src/tcp.c:523-560 | An acknowledgement of something new makes the window one packet wider, up to sixteen, moves snd_una to it and resets the count of duplicates. |
| `Pace.WindowGrows` | src/tcp.c:523-560 | After any n such acknowledgements in a row the window is n packets wider, up to sixteen. |
| `Pace.AckFills` | src/tcp.c:669-691 | The same acknowledgement lets out packets one after the other from snd_nxt, as many as the widened window holds unless the send window is full or the response at its end before that. |
| `Pace.ThirdDuplicate` | src/tcp.c:561-575 | Of three acknowledgements of the same byte in flight the first two change nothing but the count; the third sends the packet at that byte and shuts the window to one. |
| `Pace.AccurateIs` | src/socket_timer.h:94-109 | The stamp is never in the future, never older than one interval, and a whole number of intervals (at most two) after the old one unless the call is more than three intervals late. |
| `Pace.BeatIsKept` | src/socket_timer.h:94-109 | After n expiries that are due and less than three intervals late the stamp is a whole number of intervals, between n and 2 n, behind the first. |
| `Pace.RequestOnBeat` | src/tcp.c:249-261 | The request of an idle client carries the next stamp of that beat, and taking its response keeps it. |
| `Pace.LaunchOnTime` | src/tcp.c:1025-1050 | A launch stamps the socket with the clock, whatever the last connection left in it. |
| `Pace.OpenServerIsWatched` | src/tcp.c:761-763 | Whatever segments arrive, in every run of a stop-and-wait server: while it is open with nothing outstanding it is on the timeout ring, and that expiry closes it with exactly one error. |
| `HttpClient.Arrival` | src/tcp.c:784-905 | What every answer of the parser comes to: a response that goes on leaves a delayed acknowledgement pending and sends nothing, unless it carries a FIN, which is answered; one that ends on a living connection sends nothing and is on the keepalive ring; anything else sends exactly one FIN, or one reset with fast close. |
| `HttpClient.FlushIs` | src/tcp.c:1161-1182 | The flush sends exactly one acknowledgement for a pending socket that is established, none otherwise, and clears what is pending. |
| `HttpClient.IdleWaits` | src/tcp.c:784-905 | In every run of an HTTP client, whatever segments arrive with whatever data: established with keepalive, it has nothing outstanding and is on the keepalive ring if no response is due; with nothing outstanding and a response due it is on no ring. |
| `HttpClient.AcknowledgedSleeps` | src/tcp.c:518-522 | A bare acknowledgement of the request leaves the client on no ring; whatever expires from then on, only a segment changes anything. |
| `HttpClient.RequestForResponse` | src/tcp.c:784-905 | Any number of valid responses that keep the connection, cut behind their header blocks in any way, each followed by the keepalive expiry: the client counts each once and sends exactly one request for each, and no FIN. |
| `Delivery.OwnClientTakes` | src/tcp.c:511-533 | A stop-and-wait client socket of this program in the place of that client takes, of all packets the network may hold, exactly the one it expects. |
| `Payload.RoundedIs` | src/config.c:2274-2282 | A size over one segment becomes the least number of whole segments that holds it. |
| `Payload.CheckPayloadSize` | src/config.c:2264-2295 | On a TCP server all sizes are rounded in place and there is a send window if and only if some size exceeded one segment; anywhere else a size over one packet is refused and there is no window. |
| `Payload.CheckPayloadSizeNum` | src/config.c:2324-2352 | Accepts a size for every worker or one for all; then no worker has size 0 beside one that has not. |
| `Payload.CheckPayload` | src/config.c:2386-2402 | A send window is only ever configured with a size greater than 0, rounded, for every worker. |
| `Payload.WholePackets` | src/http.c:108-139 | A configured size is a whole number of the packets prepared for it if and only if a segment holds the 85-byte header, or the size is below it, or 85 divides the size. |
| `Payload.RequestOpensIff` | src/tcp.c:719-732 | For every configured size with a send window, a request (first or later, whatever older response bytes are in flight) establishes the window invariant if and only if that condition holds. |
| `Payload.ShortSegmentsFail` | src/http.c:124-134 | A configuration where it fails: mss 80 and size 150 give 160 bytes in packets of 85, and no request establishes the invariant. |
| `HttpParse.EatSplit` | src/http_parse.c:148-269 | The one-byte machine: eating a then b is eating a + b, unless a already ended or failed. |
| `HttpParse.EatData` | src/http_parse.c:196-214 | Chunk data skipped as a block is chunk data eaten byte by byte. |
| `HttpParse.Parser.ParseHeaderLine` | src/http_parse.c:55-93 | For any line: a name is known by its length, first and last letter; the length is read by atol and refused when negative; the chunked coding is known by a k; either is refused beside the other; a connection option too short for keep-alive clears keepalive. |
| `HttpParse.Parser.ParseHeaders` | src/http_parse.c:98-143 | For any segment the byte loop reads what the line-by-line reference reads: the fields it leaves, the bytes it consumes, and whether it fails. |
| `HttpHeader.BlockIs` | src/http_parse.c:98-143 | A printed header block is read to its last byte and no further, whatever follows, and leaves what its lines say one after another; with neither length, coding nor close the response ends with the connection. |
| `HttpHeader.FramingIff` | src/http_parse.c:55-93 | For any list of lines: they are refused if and only if one gives a negative length, or one a length and one the chunked coding; otherwise each flag is set if and only if some line says so, keepalive is lost if and only if some line closes, and the length is that of the last line giving one. |
| `HttpParse.Parser.ParseChunk` | src/http_parse.c:148-269 | For any segment and any state the batch parser, with its gotos, has the verdict, state and remaining length of the one-byte machine; outside the chunk states it fails. |
| `HttpParse.Parser.ParseTrailer` | src/http_parse.c:226-265 | The same from the trailer labels. |
| `HttpParse.Parser.ParseBody` | src/http_parse.c:271-290 | Content length wins over chunked coding; each is its own reference (counting, the byte machine), chunked coding fails outside its states, and without framing nothing changes. |
| `HttpParse.Parser.ParseRun` | src/http_parse.c:292-316 | For any segment in any state: header lines are read line by line by the reference, what follows the block in its segment is parsed as body at once, later segments as body only. |
| `HttpBody.AnySegmentation` | src/http_parse.c:148-269 | However a body is cut into segments, the outcome is that of the whole. |
| `HttpBody.ParseSegments` | src/http_parse.c:292-316 | The parser object fed with any segments, from any state, computes the outcome of the segment-by-segment reference. |
| `HttpBody.CountedOutcome` | src/http_parse.c:271-290 | A body with content length, in any list of segments: goes on while they fall short, ends if some segment ends where the body does, and fails otherwise. |
| `HttpBody.CountedSegmentation` | src/http_parse.c:271-290 | So cutting it makes no difference if and only if the segments do not pass the end, or none of them ends there. |
| `HttpBody.SurplusInSegment` | src/http_parse.c:257-282 | Bytes behind the end in the same segment are an error for a counted body and dropped for a chunked one. |
| `HttpBody.SurplusAfterEnd` | src/http_parse.c:266-282 | In a later segment they would be an error for both, if the parser were not reset. |
| `HttpParse.Parser.Receive` | src/tcp.c:784-826 | The client resets the parser when a body ends or fails, so the next segment is read as a header block; its first segment counts a response. |
| `HttpBody.RoundTrip` | src/http_parse.c:155-265 | Every chunked body of section 4.1 of RFC 7230 (lower-case sizes, extensions, trailers): the parser continues on every proper prefix and ends exactly at the final LF. |
| `HttpBody.ResponseIs` | src/http_parse.c:292-316 | A response whose header block is in its first segment, cut behind it in any way, has the outcome of its block: an error, the counted body, the chunked body, or none. |
| `HttpBody.ResponseEnds` | src/http_parse.c:292-316 | A valid response (counted, or chunked with extensions and trailers), cut behind its header block into any non-empty segments: the parser goes on up to the last segment and ends exactly with it. |
| `HttpBody.EachResponseOnce` | src/tcp.c:784-826 | Any number of valid responses on a connection, each beginning in a segment of its own: the client counts each once and no error. |
| `HttpCut.CutVerdict` | src/http_parse.c:292-316 | A segment that ends inside the header block: the parser goes on if and only if no line so far is refused, gives the chunked coding or leaves the length 0; a length of 0 ends the response there, the chunked coding fails. |
| `HttpCut.CutBetweenLines` | src/http_parse.c:98-143 | Where it goes on, a cut between two lines makes no difference. |
| `HttpCut.CutAnywhere` | src/http_parse.c:98-143 | A cut at any byte of a header block makes no difference, whatever follows, if and only if: a line before it was refused anyway; or the parser goes on at the cut and the rest of the cut line, read as a line of its own, says what the whole line says; or the chunked coding fails at the cut and the line itself is refused. |
| `HttpCut.RestBecomesLength` | src/http_parse.c:55-72 | A cut in front of the rest of a line that reads as a content length always makes a difference where no length was given before it. |
| `HttpCut.CutLineIsLost` | src/http_parse.c:98-143 | A content length or transfer coding line cut anywhere inside is lost: what follows is read as if the line had not been there. |
| `HttpCut.CutResponseGoesOn` | src/http_parse.c:95-143 | So a valid response whose one framing line is cut never ends by itself, whatever segments follow, although in one segment it does. |
| `SocketTable.TotalSocketNum` | src/config.c:2864-2898 | The configured socket count is the number of client addresses times the box of ports and server addresses. |
| `SocketTable.TupleAtIndex` | src/socket.h:203-211 | Distinct tuples of an address have distinct positions: the layout has no overlap. |
| `SocketTable.IndexOfTupleAt` | src/socket.h:203-211 | Every position belongs to a tuple: the layout has no gap. |
| `SocketTable.Table.constructor` | src/socket.c:158-202 | After initialisation every position of the pool holds the tuple of the mixed radix layout, the hash table points to the last address of each low half, and the cursor is at 0. |
| `SocketTable.Table.NewPortTable` | src/socket.c:108-133 | The nested loops fill exactly the next block of positions. |
| `SocketTable.Table.InitRange` | src/socket.c:135-148 | A range of addresses fills its blocks and its entries of the hash table, leaving the earlier ones. |
| `SocketTable.ConfiguredIsHeld` | src/socket.c:119-132 | A tuple is held by some socket if and only if it is configured. |
| `SocketTable.HeldOnce` | src/socket.c:119-132 | With distinct low halves no two sockets hold the same tuple. |
| `SocketTable.LookupExact` | src/socket.h:213-230 | On either side, with distinct low halves, lookup with its address check returns exactly the socket whose local end is the packet's destination and whose remote end is its source. |
| `SocketTable.LookupIsTheMap` | src/socket.h:275-308 | Lookup is the plain map from packets to sockets, for packets of any addresses and ports, if and only if the client addresses differ in their low 16 bits. |
| `SocketTable.CheckClientAddr` | src/config.c:1937-1970 | The configuration check accepts exactly the groups whose addresses differ in their low 16 bits. |
| `SocketTable.Table.GetSocket` | src/socket.h:178-201 | Hands out the socket at the cursor and moves the cursor round. |
| `RoundRobin.EverySocketOnce` | src/socket.h:178-201 | Any num picks in a row return every socket exactly once, from any cursor (no rss, no client_hop). |
| `RoundRobin.HopPicksFew` | src/socket.h:193-198 | With client_hop, from the first socket on: a socket is ever picked if and only if its position is a multiple of 65536, unless exactly one socket lies behind the last such step; and in a pool of any size only if it is one of those or the one before. |
| `TxQueue.Queue.Send` | src/work_space.h:170-185 | After every send head <= tail < 4096, the packet has joined the queue, every packet is sent, dropped or waiting exactly once and in arrival order, nothing sent earlier is touched, and nothing is dropped unless the buffer was about to be full. |
| `TxQueue.Queue.Flush` | src/work_space.h:131-168 | With room left one burst is offered and nothing dropped; a full buffer is offered at most eight times and is then empty, the refused rest dropped. |
| `TxQueue.Balance` | src/work_space.h:131-185 | Packets counted in = transmitted + tx_drop + (tail - head), for any device. |
| `IpList.List.Add` | src/ip_list.c:22-46 | Appends exactly when the family is known and that of the list and there is room; otherwise nothing changes. |
| `IpList.List.Split` | src/ip_list.c:53-70 | The sub-list is every step-th address from start on, in order; bad arguments change nothing. |
| `IpList.SplitPartitions` | src/work_space.c:157-174 | For any list length and number of workers each position is dealt to exactly one place of exactly one worker. |
| `IpList.CycleReadsAll` | src/ip_list.h:36-52 | One cycle of get-next reads the whole list, beginning at the cursor. |
| `IpList.List.GetNext` | src/ip_list.h:36-52 | Returns the address at the cursor and moves the cursor round. |
| `Checksum.AcceptedIs` | src/csum.h:27-64 | A receiver accepts exactly the checksums that complement the sum modulo 0xffff, both zero excepted. |
| `Checksum.UpdateU16Correct` | src/csum.h:55-64 | Changing any part of a word: the updated checksum equals the one from scratch modulo 0xffff, and is accepted if and only if not all words became zero (or there was nothing to fold), as section 3 of RFC 1624 warns. |
| `Checksum.UpdateU32Correct` | src/csum.h:27-40 | Filling two zeroed 32-bit fields with any values, the updated checksum equals the one from scratch modulo 0xffff and is accepted. |
| `Checksum.VxlanExact` | src/tcp.c:143-147 | The inner checksum of a segment is accepted if and only if snd_nxt and snd_una agree modulo 0xffff. |
| `Checksum.VxlanPacket` | src/tcp.c:89-168 | With nothing outstanding before it, the inner checksum of a bare ACK is accepted and that of a SYN, a FIN or data is not. |

## Left out

- Connection.ExactlyOnce: unbounded sequence numbers, one incarnation (a closed endpoint stays closed), packet allocation succeeding, payloads not empty, no flood mode, no HTTP client mode and keepalive of the client implying keepalive of the server are assumed in the two-party model; a network that replays arbitrarily old segments makes any 32-bit numbering ambiguous.
- Worker.Conservation: rss, where two workers write each other's sockets without synchronisation, is not covered; nor is it in `RoundRobin.EverySocketOnce`.
- Expiry.ServerExpiryExact: says nothing about the keepalive ring, whose accurate timestamps can make a re-queued socket due at the same clock reading; the loop is not shown to end there.
- Retransmission.BoundedRetransmission: sockets without a local address, which only rss produces, and windowed mode are outside it.
- Recovery.RecoversFromLoss: a retransmission is assumed to be left; the bound on them is `Retransmission.BoundedRetransmission`. The FIN of a client is outside it.
- Payload.CheckPayload: payload files, because the check at src/config.c:1022-1025 refuses every path that is set, so none is ever configured; and the text of the HTTP header beyond its length.
- Window.WindowKept: it follows the connection while it is established, and a request in it must find responses that are whole packets.
- HttpParse.Parser.ParseHeaderLine: atol reads up to the end of the segment, where the code would read on in the buffer, and neither it nor chunk sizes overflow 64 bits; upper-case digits end a chunk size as in the code.
- HttpCut.CutLineIsLost: a line with another colon behind its name, whose second half may be taken for a field of its own, is outside it.
- HttpBody.EachResponseOnce: what the TCP side makes of keepalive and of segments it does not accept is not part of it; the handlers are in `Tcp`.
- Delivery.InOrderExactlyOnce: unbounded sequence numbers and packet allocation succeeding are assumed; the client is one that takes the packet it expects and acknowledges at any time, which `Delivery.OwnClientTakes` compares with a client socket of this program; when that client asks and acknowledges is free, what its HTTP parser makes of the packets is in `HttpBody`; the server is followed up to its FIN.
- Delivery.CompletesAfterLoss: a packet the client lacks and cannot acknowledge around needs a retransmission left (at most three without progress).
- HttpCut.CutAnywhere: the line the cut falls into has to end in the second segment, and a content length that the line or its rest gives has to have its number in it.
- Settings.FileIsAccepted: the lines are given with their numbers parsed; a clock of at least a million ticks a second and no 64-bit overflow of the interval are assumed.
- TimerRing.Timers.Del: nodes are indices into arrays of links instead of pointers.
- Endpoint.Socket.NewPacket: addresses, ports, the IP id, checksum fields and VXLAN headers of the packet are not fields of the modelled segment; checksums are in `Checksum`.
- Endpoint.Socket.HttpData: what the parser answers (verdict, keepalive cleared, response opened) is an argument; the parser itself is in `HttpParse`.
- Endpoint.Socket.AckDelayed: the flush of the whole delayed-ACK list, also when the list is full, is modelled as one event for each socket.
- Endpoint.Socket.CheckSequence: the last branch (src/tcp.c:587-593) has no counterpart, because the test before it covers its guard.
- TxQueue.Queue.Flush: the device is a free choice of how many packets it takes from the front; mbuf contents, VLAN tags and offload flags are not modelled.
- SocketTable.Table.constructor: 32-bit overflow of the socket count, per-socket checksum templates and random initial sequence numbers are not modelled.
- Destination rewriting of checksums (src/tcp.c:53-87, src/udp.c:49-83) and the IPv6 variant of the update.
- NIC setup, ARP, ICMP, neighbour discovery, KNI, bonding, flow rules, statistics printing, logging, the control thread and the rest of the configuration parsing.
- Concurrency.ShareBound: the division on doubles is a division of real numbers, which is exact for targets below 2^53.
- Changing the launch interval while running (src/work_space.c:401-424) and the start time of the first launch.
- UdpEndpoint.Launch: one turn of the launch loop, which carries the pipeline count from socket to socket.
- Endpoint.Socket.Launch: one turn of the launch loop; the loop over the pool is modelled on values, in `Worker.LaunchMany`.
- Closing.CanClose: the network keeps what it was given, and the assumptions of `Connection.ExactlyOnce` hold; a side that gave up earlier, with an error counted, is outside it.
- Requests.ReachesAll: a limit of requests that fits the 15-bit counter is assumed.
- Handshake.SynAcksAreSpaced: a server with a send window does not stamp the socket when it answers, so it answers every SYN that comes more than a second after the old stamp; and packets are granted.
- Counts.SegmentsAreCounted: packets are granted, and no request with a FIN comes to a server with a send window, which would be answered without counting a response.
- Pace.BeatIsKept: an expiry exactly one interval after the stamp, which the timer loop also handles, keeps the stamp.
- HttpClient.IdleWaits: unbounded sequence numbers and packet allocation succeeding are assumed; the response parser starts anew with each connection.
- UdpRuns.OpenSocketsWait: a keepalive expiry after the duration takes the socket off its ring, open, as in the code.
