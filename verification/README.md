# PPAASS: multiplexers, pools, caches and codecs, verified

PPAASS agents carry many UDP and TCP flows over a few authenticated connections to a proxy. This project models the
parts of the system that keep tables consistent, share connections between concurrent callers, cache, frame, encrypt
and route, and proves what they are for. `dafny verify dfyconfig.toml` checks everything.

How the model is built:

- Objects that the code updates in place are classes whose methods are proved against pure functions or relations on
  a value view; loops are loops.
- Protocols that run concurrently are state machines over their steps. A step is what happens between two awaits or
  lock operations; every interleaving, cancellation and answer of the other side is a run, and a run is a
  `Trace` of events. Main results hold for every run.
- Time is a natural number passed to each call. Randomness, sockets and the scheduler are parameters or events.
- Foreign code (AEAD ciphers, the serialiser, compressors, modular exponentiation, text-to-address parsing, Unicode
  lower-casing) is a function-valued parameter with its laws written out in a predicate.
- Machine integers are modelled where their width matters: 16-bit DNS ids, 64-bit flow ids, sequence numbers and
  counters with wrap-around, masks and shifts bit by bit (`Bits`).

Files, by area:

- Encrypted UDP transport: `ReplayWindow`, `UdpHeader`, `Reassembly`, `UdpTransport`, `UdpDelivery`, `UdpSurvival`
- Native UDP client session: `UdpSession`, `Streams`
- Session pools: `UdpSlots`, `YamuxPool`, `YamuxPermits`
- TUN: `DnsCache`, `DnsProxy`, `DomainCache`, `UdpRelay`, `DirectEgress`
- Routing: `Cidr`, `Text`, `DirectAccess`, `UdpRouting`
- Wire formats: `BigEndian`, `MessageCodec`, `RsaWrap`, `Socks5Udp`

Properties one would expect that are false of the code. Each is given by a run or by inputs that break it and by the
exact condition under which it holds:

- Nothing follows the proxy's own Close of a flow: the stream's later shutdown is still announced
  (`CloseFollowsProxyClose`; exactly when, `OnlyCloseFollowsRemoval`).
- No flow id is drawn twice: the counter wraps, and the closing of the session at the last id does not hold back callers
  already past the check (`IdsCanRepeat`; exactly when, `FlowIdsDistinct`).
- Every message that encodes can be decoded: a payload over 4 MiB that compresses below the frame limit cannot, nor can
  one with a stale compression flag (`StaleFlagIsLost`; exactly when, `MessageRoundTrip`).
- Every wrapped key unwraps: empty data does not (`WrapRoundTrip`).
- Every packet that the SOCKS5 handler builds is one it would accept: short domain packets fall under its length guard
  (`PacketRoundTrip`).
- A lookup in the IP-to-domain cache never loses a recording: its check and its removal are two steps
  (`RemovalLosesFreshRecording`).
- A family is not probed twice within the cooldown: a cancelled probe does not count (`CancelledProbeIsRepeated`;
  exactly when, `ProbesUnlessOneCompleted`).
- Announced capacity is enough for a non-blocking connect: others may take it first (`AnnouncedThenRefused`; exactly
  when, `TryNeverWaits`).
- A session's handler always takes the route it was made for: a cached name may be gone by then
  (`ExpiredNameIsProxied`; exactly when, `HandlerAgreesIff`).
- Every domain rule matches something: one written with a trailing dot does not (`DomainRuleIsLiveIff`).
- The relay always finds a flow id: its search does not end once all are taken (`ExhaustedSearchNeverEnds`; exactly
  when, `FreeIdExists`).

## Model

| member | source | states |
|---|---|---|
| `ReplayProtection.ReplayWindow.constructor` | protocol/src/udp_transport/replay.rs:24-29 | a new window has accepted nothing |
| `ReplayProtection.ReplayWindow.MayAccept` | protocol/src/udp_transport/replay.rs:35-48 | true exactly for numbers never accepted before and less than 4096 behind every accepted one |
| `ReplayProtection.ReplayWindow.SetBit` | protocol/src/udp_transport/replay.rs:83-87 | sets one remembered distance and leaves the 4095 others as they were |
| `ReplayProtection.ReplayWindow.ShiftOlder` | protocol/src/udp_transport/replay.rs:89-110 | the word and bit shifts move every remembered number exactly `distance` places and drop those pushed out |
| `ReplayProtection.ReplayWindow.Commit` | protocol/src/udp_transport/replay.rs:52-75 | accepts exactly the fresh numbers and afterwards remembers exactly them, in 64 words of 64 bits |
| `ReplayProtection.CommitAll` | protocol/src/udp_transport/replay.rs:52-75 | over any run of numbers, each verdict is the window's definition applied to the set of numbers accepted before it |
| `ReplayProtection.AcceptedAtMostOnce` | protocol/src/udp_transport/replay.rs:50-75 | no sequence number is accepted twice in a run, however the two are spaced |
| `UdpHeaders.LayoutFields` | protocol/src/udp_transport/header.rs:126-139 | the layout is 46 bytes and every field reads back from its offset |
| `UdpHeaders.WireFormat` | protocol/src/udp_transport/header.rs:126-139 | the wire format byte by byte: magic, version, kind 1, 2 or 3, session, then the five numbers at their offsets, most significant byte first |
| `UdpHeaders.HeaderRoundTrip` | protocol/src/udp_transport/header.rs:126-160 | decoding an encoded header, with anything behind it, returns that header |
| `UdpHeaders.DecodedHeaderIsItsEncoding` | protocol/src/udp_transport/header.rs:141-160 | accepted bytes are the encoding of the header they decode to: there is no second spelling |
| `UdpHeaders.ValidIffSomeMessageHasIt` | protocol/src/udp_transport/header.rs:64-124 | the header of an encrypted fragment is valid if and only if some message within the limits can be cut so that this is one of its fragments |
| `UdpHeaders.AuthHeaderValidIff` | protocol/src/udp_transport/header.rs:64-124 | the header of an authentication packet is valid if and only if it is unnumbered, unfragmented and fits a datagram; no other magic or version is accepted |
| `Reassembly.NewReassembler` | protocol/src/udp_transport/reassembly.rs:61-78 | a reassembler is made exactly for positive limits and timeout, and starts empty |
| `Reassembly.FragmentReassembler.constructor` | protocol/src/udp_transport/reassembly.rs:80-86 | a new reassembler is empty and consistent |
| `Reassembly.FragmentReassembler.CleanupExpired` | protocol/src/udp_transport/reassembly.rs:264-281 | drops exactly the expired entries, gives their bytes back and counts them |
| `Reassembly.FragmentReassembler.EvictOldestExcept` | protocol/src/udp_transport/reassembly.rs:241-262 | removes a least recently updated entry other than the excepted one, and none only when there is no other |
| `Reassembly.FragmentReassembler.Push` | protocol/src/udp_transport/reassembly.rs:96-239 | does what the push relation says for every fragment; the inconsistent-state errors are unreachable |
| `Reassembly.FragmentReassembler.MakeRoom` | protocol/src/udp_transport/reassembly.rs:96-239 | evicts oldest entries one at a time until the fragment fits, never the message being completed, and always ends |
| `Reassembly.PushKeepsBookkeeping` | protocol/src/udp_transport/reassembly.rs:96-281 | after any push the byte counter is the sum over entries, every entry's counters match its slots, and both limits hold |
| `Reassembly.ConflictsAndRepeats` | protocol/src/udp_transport/reassembly.rs:96-187 | a further fragment of a live message conflicts if and only if it declares another size or number or brings other bytes for a filled place; repeats are welcome; neither changes anything, not even the message's age |
| `Reassembly.HandedUpAsDeclared` | protocol/src/udp_transport/reassembly.rs:96-239 | whatever fragments come, forged ones included, what is handed up is as long as they declared |
| `Reassembly.StalePiecesAreDropped` | protocol/src/udp_transport/reassembly.rs:96-281 | pieces older than the timeout are never used: the next fragment of any message of several drops them, and one of the same message starts it afresh |
| `UdpTransport.FlattenCut` | protocol/src/udp_transport/crypto.rs:204-271 | cutting a message into fragments and joining them is the identity |
| `UdpTransport.UdpSender.EncodeMessage` | protocol/src/udp_transport/crypto.rs:204-271 | each fragment is sealed under its own sequence number with its header as associated data, at most 1351 bytes; errors in the code's order change nothing; exhaustion is at 2^64 |
| `UdpTransport.DatagramIsSealed` | protocol/src/udp_transport/crypto.rs:204-271 | a datagram is its header followed by its slice sealed under the nonce of its own sequence number, with the header as associated data |
| `UdpTransport.OpensWhatWasSealed` | protocol/src/udp_transport/crypto.rs:274-327 | a datagram that the sender seals is opened by the receiver to exactly its fragment, if its sequence number is fresh |
| `UdpTransport.GenuineIsOpenedIffFresh` | protocol/src/udp_transport/crypto.rs:204-327 | in every run every datagram of every message sent opens to its fragment if its sequence number is fresh, and is refused as a replay if it is not |
| `UdpTransport.OpenedIsGenuine` | protocol/src/udp_transport/crypto.rs:274-327 | what opens is fresh and is a fragment of the message whose id its header carries |
| `UdpTransport.PushedEntries` | protocol/src/udp_transport/reassembly.rs:96-239 | pushing a genuine fragment keeps only genuine pieces and completes only whole messages |
| `UdpTransport.DeliversIntactAndAtMostOnce` | protocol/src/udp_transport/crypto.rs:204-425 | in every run over a network that drops, repeats, reorders and invents datagrams, each message handed up is the one sent under its id, none is handed up twice, and the reassembly limits hold |
| `UdpTransport.OnlyItsOwnFragmentUsesANumber` | protocol/src/udp_transport/crypto.rs:274-327 | in every run a sequence number is taken as seen only after a datagram with the header of the fragment sealed under it has been received; no other datagram can close the window for it |
| `UdpTransport.NonceInjective` | protocol/src/udp_transport/crypto.rs:330-335 | different sequence numbers give different nonces |
| `UdpTransport.NoncesNeverRepeat` | protocol/src/udp_transport/crypto.rs:204-271 | in every run any two different datagrams of a session are sealed, as they stand on the wire, under different nonces, up to and including the last sequence number |
| `UdpDelivery.OwnPiece` | protocol/src/udp_transport/reassembly.rs:96-239 | one more piece of a partly held message is stored; the last one returns the message |
| `UdpDelivery.OtherPiece` | protocol/src/udp_transport/reassembly.rs:96-239 | a fragment of another message changes what is held of this one in no way but evicting it |
| `UdpDelivery.DeliversInAnyOrder` | protocol/src/udp_transport/reassembly.rs:96-239 | pieces in any order, mixed with any other traffic, yield nothing until the last and then exactly the message, as long as its entry survives |
| `UdpSurvival.PushSpares` | protocol/src/udp_transport/reassembly.rs:96-239 | a push within the limits changes no entry of another message that has not expired, and buffers no more than it brings |
| `UdpSurvival.DeliversWithinBounds` | protocol/src/udp_transport/reassembly.rs:96-281 | pieces in any order, mixed with any other traffic, yield nothing until the last and then exactly the message, if what is buffered and what arrives fits the limits and nothing comes a timeout after the latest piece |
| `UdpSurvival.PushEvictsOldest` | protocol/src/udp_transport/reassembly.rs:96-262 | whatever the reason, entries or bytes, an unexpired message in progress is dropped for another's fragment only if no other message kept was updated before it |
| `UdpSurvival.MessageGetsThrough` | protocol/src/udp_transport/crypto.rs:204-425 | end to end: from any reachable state, the datagrams of a message sent, received each once in any order within the bounds, hand up nothing until the last and then exactly the message |
| `UdpSurvival.SingleGetsThrough` | protocol/src/udp_transport/crypto.rs:204-425 | a message of one fragment is handed up by its one datagram, whatever is buffered, and the buffer stays as it was |
| `UdpSession.SessionDriver.HandleCommand` | common/src/client_connection/udp.rs:353-378 | the driver's answer to a command: data only for registered flows, Close always, registration as a set |
| `UdpSession.SessionDriver.HandleIncoming` | common/src/client_connection/udp.rs:398-425 | refusals, closes and dead inbound queues deregister exactly that flow; a ping is answered with its token; full queues and unexpected messages change nothing |
| `UdpSession.ProxyOnlyDeregisters` | common/src/client_connection/udp.rs:398-425 | a flow stays registered through a proxy message if and only if the message is not its refusal, its close or data for a stream that is gone; only pings are answered |
| `UdpSession.SessionDriver.HandleTick` | common/src/client_connection/udp.rs:427-436 | pings carry consecutive tokens modulo 2^64 |
| `UdpSession.StreamWriter.constructor` | common/src/client_connection/udp.rs:155-167 | a new stream is to open its own address and has not closed |
| `UdpSession.StreamWriter.PollWrite` | common/src/client_connection/udp.rs:542-576 | a datagram is queued whole or not at all, as OpenData exactly the first time; empty writes succeed and queue nothing |
| `UdpSession.StreamWriter.PollShutdown` | common/src/client_connection/udp.rs:584-605 | at most one Close is queued; a full queue leaves the stream open, a lost one ends it |
| `UdpSession.StreamWriter.Drop` | common/src/client_connection/udp.rs:609-618 | dropping queues a Close exactly when none was sent and there is room |
| `UdpSession.FlowIdsDistinct` | common/src/client_connection/udp.rs:120-143 | in every run the ids drawn are pairwise distinct unless more callers than the first id were between the check that the session is open and their draw when the last id was drawn; once it is drawn, a continuation repeats an id if and only if that was so |
| `UdpSession.IdsCanRepeat` | common/src/client_connection/udp.rs:131-143 | a run in which an id is drawn twice |
| `UdpSession.SpeaksInOrder` | common/src/client_connection/udp.rs:331-439 | in every run without such a race for the last ids, what is emitted for a flow is an optional OpenData-Data* exchange and at most one final Close, to the flow's own target; its payloads are a prefix of the stream's accepted datagrams, and with the queued ones are all of them while the flow is registered |
| `UdpSession.RemovedForever` | common/src/client_connection/udp.rs:349-425 | a flow once deregistered is never registered or served again in any continuation |
| `UdpSession.OnlyCloseFollowsRemoval` | common/src/client_connection/udp.rs:349-425 | after a flow is removed nothing more is emitted for it, except its Close exactly when a queued Close is taken afterwards |
| `UdpSession.ShutdownIsAnnounced` | common/src/client_connection/udp.rs:368-371 | from any state with a removed flow whose stream is open and an empty queue, shutting down emits a Close |
| `UdpSession.EndIsAnnounced` | common/src/client_connection/udp.rs:584-618 | in every run, a stream that was not closed and is shut down or dropped while the queue has room is announced, whatever is queued before: when the driver has taken what is queued, its last message is the flow's Close and the flow is not registered |
| `UdpSession.WritesReachProxy` | common/src/client_connection/udp.rs:331-439 | in every run, for a stream that neither side has ended, once the driver has taken what is queued the proxy has been told exactly the datagrams that the stream's writes handed over, in order |
| `UdpSession.ClosedIffShut` | common/src/client_connection/udp.rs:584-605 | in every run a stream is marked closed if and only if it was shut down with room in the queue or with the queue gone; a shutdown that met a full queue is still to be done |
| `UdpSession.CloseFollowsProxyClose` | common/src/client_connection/udp.rs:368-371 | a concrete run in which a Close is emitted after the proxy closed the flow |
| `Streams.ClientStream.PollRead` | common/src/client_connection/stream.rs:49-98 | one read is the reading function: leftover first, then the next packet with data |
| `Streams.ReadConserves` | common/src/client_connection/stream.rs:49-98 | a read takes bytes off the front of what is unread and nothing else; zero bytes to a non-empty buffer only at an empty end packet or the reader's end |
| `Streams.DeliveredIsPrefix` | common/src/client_connection/stream.rs:49-98 | whatever the read sizes, what is delivered is a prefix of the packets' payloads |
| `Streams.EnoughReadsDeliverAll` | common/src/client_connection/stream.rs:49-98 | whatever their sizes, as many reads with room as there are bytes and packets left deliver everything |
| `Streams.ReadOn` | common/src/client_connection/stream.rs:49-98 | a loop of reads with buffers of any sizes returns exactly the delivered bytes of the reading function |
| `Streams.ClientWriter.PollWrite` | common/src/client_connection/stream.rs:105-131 | a packet with all of the data is sent when the writer is ready; an empty write succeeds and sends nothing |
| `Streams.ClientWriter.PollShutdown` | common/src/client_connection/stream.rs:141-169 | sends the end packet once, when the writer is ready, and reports whether it has been sent by now |
| `Streams.WritesAreCarried` | common/src/client_connection/stream.rs:105-169 | the packets sent carry exactly the accepted bytes in order, and there is exactly one end packet if the stream was ever shut down with the writer ready, and none otherwise |
| `Streams.BytesCrossIntact` | common/src/client_connection/stream.rs:49-169 | through both adapters, any reads see a prefix of the accepted writes, and enough of them see all |
| `Streams.UdpClientStream.PollRead` | common/src/client_connection/udp.rs:487-530 | the next non-empty datagram comes whole; a short buffer is refused and loses nothing; end of input only when closed and drained |
| `Streams.DatagramsInOrder` | common/src/client_connection/udp.rs:487-530 | after any reads at all, refused ones included, one large enough read for each datagram not delivered yet completes the delivery, in order |
| `Streams.DatagramsArePrefix` | common/src/client_connection/udp.rs:487-530 | any sequence of reads delivers an initial part of the datagrams |
| `Streams.ReceiveOn` | common/src/client_connection/udp.rs:487-530 | a loop of reads with buffers of any sizes returns exactly the datagrams that they can take |
| `UdpSlots.OneLiveSessionPerSlot` | android-agent/native/src/yamux_session.rs:193-265 | in every run an open session is the one its slot offers, so none is evicted and no slot has two; a slot falls back only in automatic mode after its own timeout |
| `UdpSlots.FallbackIsSticky` | android-agent/native/src/yamux_session.rs:144-167 | a fallback flag changes only from false to true, by a caller that saw that slot time out, and changes no other; a caller that finds it set goes to Yamux and touches no slot |
| `UdpSlots.TimeoutFallsBack` | android-agent/native/src/yamux_session.rs:144-167 | in every run a caller told of a timeout in automatic mode has not failed: short of cancellation all it can do is hand its slot over, which raises the slot's flag and sends it to Yamux; in the other mode it has failed and no flag is ever up |
| `UdpSlots.OutcomesMean` | android-agent/native/src/yamux_session.rs:144-265 | in every run a caller has a native stream if and only if its session let it open one, is at Yamux only by a flag found up or raised by itself, and has failed only after a failed dial or opening |
| `UdpSlots.SlotsTakeTurns` | android-agent/native/src/yamux_session.rs:144-148 | in every run the caller that arrives after k others is given slot k mod n, by a 64-bit count, and is sent to Yamux at once if and only if that slot has fallen back in automatic mode |
| `UdpSlots.RemovesItsOwn` | android-agent/native/src/yamux_session.rs:193-265 | a caller whose session failed it takes that session out of its slot and leaves there what another has put in its place |
| `UdpSlots.StaysWithSlot` | android-agent/native/src/yamux_session.rs:193-265 | no step moves a caller to another slot |
| `UdpSlots.RebuildsAndRetriesIff` | android-agent/native/src/yamux_session.rs:193-265 | in every run a slot's session is replaced if and only if none of the slot's sessions works any more, and a caller whose session failed it goes back if and only if that session has closed and it has not been back before |
| `UdpSlots.HeldLockIsReleased` | android-agent/native/src/yamux_session.rs:193-265 | a slot's lock is held only by a caller that can go on, and checking, dialing or cancelling frees it; cancelling keeps the slot's session |
| `UdpSlots.FallbackStopsDialing` | android-agent/native/src/yamux_session.rs:144-265 | once a slot has fallen back, the native sessions still made there in any continuation are at most the dials its callers in flight had left, two each |
| `YamuxPool.SessionList.PruneClosed` | android-agent/native/src/yamux_session.rs:550-574 | in-place removal keeps exactly the open sessions and returns exactly the closed ones, both in order |
| `YamuxPool.SessionList.Next` | android-agent/native/src/yamux_session.rs:503-534 | finds a wanted session exactly when there is one, the first going round from the rotating index |
| `YamuxPool.SessionList.Remove` | android-agent/native/src/yamux_session.rs:536-548 | removes the session with that id if it is there and keeps the rest in order |
| `YamuxPool.KeepMembers` | android-agent/native/src/yamux_session.rs:550-574 | exactly the sessions not removed remain |
| `YamuxPool.DropMembers` | android-agent/native/src/yamux_session.rs:550-574 | exactly the closed sessions are returned, and kept and returned ones add up |
| `YamuxPool.PoolStaysBounded` | android-agent/native/src/yamux_session.rs:315-574 | in every run of concurrent calls, with their refills, prunes and removals, deaths of sessions and cancellations, the pool stays within its maximum without duplicates, the refill's full-pool branch is never taken, and every session that entered is still there or closed |
| `YamuxPool.TripsAreBounded` | android-agent/native/src/yamux_session.rs:315-387 | in every run each call's trips round its loop are at most the sessions it has itself put into the pool plus max(3, maximum), and it gives up for want of capacity or working sessions after exactly that many attempts |
| `YamuxPool.OutcomesMean` | android-agent/native/src/yamux_session.rs:315-387 | in every run a call has its stream if and only if its last attempt was accepted, reports the target's refusal if and only if that was refused, and gives up only after a full or broken session and max(3, maximum) failed attempts |
| `YamuxPool.WorkingSessionsStay` | android-agent/native/src/yamux_session.rs:315-574 | in every run the sessions that entered are exactly those whose connection succeeded, and one that did not die is closed or gone only if a stream could not be opened on it because it was broken |
| `YamuxPool.RemovesTheBroken` | android-agent/native/src/yamux_session.rs:315-574 | in every run a call removes from the pool exactly the session on which its last attempt found it broken, and fails outright only when no session in the pool is open |
| `YamuxPool.PrunesTheClosed` | android-agent/native/src/yamux_session.rs:315-574 | a trip, and a refill that has something to do, begins by removing exactly the closed sessions |
| `YamuxPool.UsesWhatItFound` | android-agent/native/src/yamux_session.rs:315-534 | in every run a caller opens its stream on the session its latest search found, and refills after the start only if that search found none or the session found was full |
| `YamuxPermits.RunConserves` | common/src/client_connection/yamux.rs:160-298 | on every path of every run, waiting or not, half-way refusals and cancellations included, free plus held permits of both semaphores are constant |
| `YamuxPermits.PermitsBoundStreams` | common/src/client_connection/yamux.rs:120-298 | streams open or opening never exceed the limit, concurrent opens never exceed min(limit, 16), and all permits are back when all callers are gone |
| `YamuxPermits.RunIsTold` | common/src/client_connection/yamux.rs:160-298 | in every run how far a caller is follows from its own last event: a live stream if and only if that is a negotiation that succeeded, nothing held after leaving or failing; the session is closed if and only if it was closed or an open failed |
| `YamuxPermits.ClosedIsSeenAgain` | common/src/client_connection/yamux.rs:160-298 | a caller with both permits goes on if and only if the session has not been closed meanwhile; otherwise both permits are back |
| `YamuxPermits.EventsBoundStreams` | common/src/client_connection/yamux.rs:120-298 | the bounds by the callers' own last events: at most the limit have a stream or are opening one, and at most 16 are opening one |
| `YamuxPermits.NoCyclicWait` | common/src/client_connection/yamux.rs:160-298 | while some caller has not been refused, one can take its permit or is past all waiting, if and only if the limit is not zero or somebody is only trying |
| `YamuxPermits.TryNeverWaits` | common/src/client_connection/yamux.rs:179-214 | whatever the others do, a non-blocking connect can take its next step, and it is refused exactly when every permit of the semaphore it tries is held at that moment |
| `YamuxPermits.TryIsOvertakenOnly` | common/src/client_connection/yamux.rs:179-220 | with a and b permits free at some point, a caller still trying later is not refused while fewer than a and b attempts on the two semaphores have come in between |
| `YamuxPermits.TryMatchesCapacity` | common/src/client_connection/yamux.rs:179-220 | undisturbed, a non-blocking connect gets both permits exactly when capacity is announced, that is, when the session is open and neither bound is reached |
| `YamuxPermits.AnnouncedThenRefused` | common/src/client_connection/yamux.rs:179-220 | a run in which a caller is refused although capacity was announced |
| `DnsCache.WrittenId` | desktop-agent-be/src/tun_handler/dns_proxy.rs:537-546 | writing an id changes only the first two bytes, and reading gives it back |
| `DnsCache.DnsResponseCache.CleanupExpired` | desktop-agent-be/src/tun_handler/dns_proxy.rs:133-136 | exactly the unexpired entries stay |
| `DnsCache.DnsResponseCache.EvictOne` | desktop-agent-be/src/tun_handler/dns_proxy.rs:138-147 | removes an entry with the soonest expiry |
| `DnsCache.DnsResponseCache.Insert` | desktop-agent-be/src/tun_handler/dns_proxy.rs:98-131 | stores only successful answers with a positive TTL, for at most 300 s, evicting a soonest entry at capacity |
| `DnsCache.DnsResponseCache.Get` | desktop-agent-be/src/tun_handler/dns_proxy.rs:84-96 | returns the live entry of the key under the asker's id; which questions share a key is `KeyMeans` |
| `DnsCache.CacheFollowsHistory` | desktop-agent-be/src/tun_handler/dns_proxy.rs:83-155 | in every run each entry is the last cacheable response of its key and there are at most 4096 |
| `DnsCache.HitIsLastCacheable` | desktop-agent-be/src/tun_handler/dns_proxy.rs:84-131 | a hit is the most recent cacheable response for the key, within its lifetime, unchanged but for the id |
| `DnsCache.HitIff` | desktop-agent-be/src/tun_handler/dns_proxy.rs:84-147 | while fewer than 4096 different questions have been answered, a question is answered from the cache if and only if its last cacheable response is within its lifetime |
| `DnsCache.KeyMeans` | desktop-agent-be/src/tun_handler/dns_proxy.rs:150-155 | two questions share an entry if and only if their names agree up to spaces, trailing dots and ASCII case, and their types up to ASCII case |
| `DnsCache.CacheableMeans` | desktop-agent-be/src/tun_handler/dns_proxy.rs:98-131 | cached are exactly successful, non-empty answers with a positive smallest TTL, for that time and at most five minutes |
| `Text.NormalizeMeans` | desktop-agent-be/src/tun_handler/dns_proxy.rs:150-155 | normalising identifies two names exactly when what is left of them without outer spaces and trailing dots differs in ASCII case only |
| `DnsProxy.DnsForwarder.AllocateDnsId` | desktop-agent-be/src/tun_handler/dns_proxy.rs:526-535 | succeeds exactly while fewer than 65536 are outstanding, with the first free id in rotation |
| `DnsProxy.DnsForwarder.CleanupPendingDns` | desktop-agent-be/src/tun_handler/dns_proxy.rs:502-524 | exactly the unexpired requests stay |
| `DnsProxy.DnsForwarder.SendDnsRequest` | desktop-agent-be/src/tun_handler/dns_proxy.rs:402-452 | records the request under a free id and forwards it with that id; a failed write leaves no record |
| `DnsProxy.DnsForwarder.HandleDnsResponse` | desktop-agent-be/src/tun_handler/dns_proxy.rs:454-500 | takes exactly the matching request off the table and restores its id, or drops the response |
| `DnsProxy.AnswersGoHome` | desktop-agent-be/src/tun_handler/dns_proxy.rs:248-500 | in every run each upstream reply heard goes to the client and server of a request asked in that run and recorded for its id, with the original id and no other byte changed, and no request is answered twice |
| `DnsProxy.CachedAnswersAreCurrent` | desktop-agent-be/src/tun_handler/dns_proxy.rs:356-400 | in every run a cached answer goes to the client that asked then, under its id, and repeats an upstream answer heard earlier in that run to a request whose own question has the same name and type: the last successful one before it, within its lifetime, unchanged but for the id |
| `DnsProxy.AnsweredFromCacheIff` | desktop-agent-be/src/tun_handler/dns_proxy.rs:356-400 | in every run, while fewer than 4096 different questions have been answered, a request is answered from the cache, and not sent on, if and only if its question parses and the last successful answer to that question is within its lifetime |
| `DnsProxy.AskIsSentOn` | desktop-agent-be/src/tun_handler/dns_proxy.rs:402-452 | a request that the cache does not answer is sent on, once, if and only if it has an id and fewer than 65536 unexpired requests are outstanding |
| `DnsProxy.QueriesGoOut` | desktop-agent-be/src/tun_handler/dns_proxy.rs:402-452 | in every run what is sent upstream is a query that was asked, with only its id replaced, by the upstream id |
| `DnsProxy.OutstandingForTenSeconds` | desktop-agent-be/src/tun_handler/dns_proxy.rs:402-524 | in every run a request that the connection took is outstanding for 10 s, and a reply to its id is passed on once as its answer to its client, unless it was answered or the connection replaced; a cleanup after that drops it |
| `DnsProxy.ReconnectForgets` | desktop-agent-be/src/tun_handler/dns_proxy.rs:240-260 | a new connection starts with nothing outstanding: no reply on it is credited to a request of an earlier one |
| `DnsProxy.IdsRotate` | desktop-agent-be/src/tun_handler/dns_proxy.rs:526-535 | in every run two requests share an upstream id only if the counter passed all other ids in between |
| `DnsProxy.ReplyCreditedToWhom` | desktop-agent-be/src/tun_handler/dns_proxy.rs:454-500 | a late reply is dropped or credited to a request a full rotation younger; a timely one always to its own request |
| `DomainCache.DirectDomainCache.RecordResolution` | desktop-agent-be/src/tun_handler/direct_domain_cache.rs:24-52 | each parsed answer gets the domain once and a new shared expiry; expired domains of that IP are dropped |
| `DomainCache.DirectDomainCache.MatchingDomainForIp` | desktop-agent-be/src/tun_handler/direct_domain_cache.rs:68-83 | returns the first visible domain that satisfies the predicate and forgets exactly an expired entry |
| `DomainCache.CacheRefinesHistory` | desktop-agent-be/src/tun_handler/direct_domain_cache.rs:24-83 | after any run a domain is visible for an IP exactly when it was recorded and every later gap, up to now, is shorter than the ttl; without duplicates |
| `DomainCache.LookupsAreInvisible` | desktop-agent-be/src/tun_handler/direct_domain_cache.rs:68-83 | deleting an expired entry changes no later answer |
| `DomainCache.RemovalLosesFreshRecording` | desktop-agent-be/src/tun_handler/direct_domain_cache.rs:68-83 | whatever resolutions and lookups fall between a lookup's check and its removal, the removal changes later answers if and only if the IP was recorded in between and its last recording is younger than the ttl |
| `UdpRelay.UdpRelayState.FlowId` | desktop-agent-be/src/tun_handler/udp_relay.rs:141-153 | a known flow keeps its id; a new one gets the first free id in rotation; the tables stay inverse |
| `UdpRelay.UdpRelayState.NextAvailableFlowId` | desktop-agent-be/src/tun_handler/udp_relay.rs:167-175 | the search ends, skips 0 across the wrap, and returns the first free id |
| `UdpRelay.UdpRelayState.CleanupExpired` | desktop-agent-be/src/tun_handler/udp_relay.rs:177-191 | removes exactly the flows not seen for 300 s from all three tables |
| `UdpRelay.UdpRelayState.Flow` | desktop-agent-be/src/tun_handler/udp_relay.rs:155-157 | a reply id finds a flow exactly when some flow holds it, and that flow |
| `UdpRelay.FreeIdExists` | desktop-agent-be/src/tun_handler/udp_relay.rs:167-175 | an id in 1 to 2^64 - 1 is free if and only if fewer flows than that are live |
| `UdpRelay.ExhaustedSearchNeverEnds` | desktop-agent-be/src/tun_handler/udp_relay.rs:167-175 | with every id taken no probe ever finds a free one |
| `UdpRelay.RunKeepsConsistent` | desktop-agent-be/src/tun_handler/udp_relay.rs:131-191 | in every run key-to-id and id-to-key are inverse, last-seen has the same ids, and 0 is unused |
| `UdpRelay.SeenFlowKeepsItsId` | desktop-agent-be/src/tun_handler/udp_relay.rs:131-191 | in every run a flow seen within 300 s keeps its id, and no other flow has it |
| `UdpRelay.FlowsAreTheRecentlyUsed` | desktop-agent-be/src/tun_handler/udp_relay.rs:131-191 | in every run from the start a flow has an id if and only if no cleanup has come 300 s or more after its last use, and its id was last seen at that use |
| `DirectEgress.TunDirectEgress.constructor` | desktop-agent-be/src/tun_handler.rs:113-133 | each family starts with its usable default route, else the usable given interface, else none |
| `DirectEgress.TunDirectEgress.BindInterface` | desktop-agent-be/src/tun_handler.rs:135-142 | returns the binding of the target's family |
| `DirectEgress.TunDirectEgress.UpdateBindInterface` | desktop-agent-be/src/tun_handler.rs:265-277 | changes the binding of that family only |
| `DirectEgress.TunDirectEgress.RefreshDefaultRouteInterface` | desktop-agent-be/src/tun_handler.rs:246-263 | binds the family to a usable default route or keeps the old binding, and returns what is bound |
| `DirectEgress.TunDirectEgress.RefreshLocked` | desktop-agent-be/src/tun_handler.rs:173-230 | the probe's outcome in every branch; it returns what is then bound for the family |
| `DirectEgress.RefreshKeepsBindings` | desktop-agent-be/src/tun_handler.rs:173-277 | a probe stores only usable interfaces, prefers a suitable route, then the default, then the old binding, leaves the other family alone, and tells the proxy sessions of exactly the usable routes outside the TUN |
| `DirectEgress.ProbesAreSpaced` | desktop-agent-be/src/tun_handler.rs:144-171 | in every run, over all probes started, none begins before the last has ended, each begins 2 s after every completed one of its family, and two starts of one family are closer than that only if the earlier was cancelled |
| `DirectEgress.ProbesUnlessOneCompleted` | desktop-agent-be/src/tun_handler.rs:144-171 | in every run a caller that gets the lock probes if and only if every completed probe of its family ended at least 2 s ago |
| `DirectEgress.BindingIsNeverLost` | desktop-agent-be/src/tun_handler.rs:173-277 | in every run a family that had an interface has one |
| `DirectEgress.CancelledProbeIsRepeated` | desktop-agent-be/src/tun_handler.rs:144-171 | a run in which two connections fail, the first prober is cancelled, and the second probes at the same instant |
| `Cidr.CidrIsLeadingBits` | desktop-agent-be/src/tun_handler/network.rs:127-149 | the mask test holds if and only if the addresses agree on their leading prefix bits, for every prefix from 0 to full |
| `Cidr.ContainsIsLeadingBits` | desktop-agent-be/src/tun_handler/network.rs:23-31 | an address is in the TUN's networks exactly when it agrees with the one of its family on the prefix |
| `Cidr.HostPart` | desktop-agent-be/src/tun_handler/network.rs:33-45 | network plus any host number lies in the network, and the broadcast is the last of them |
| `Cidr.LowestUsable` | desktop-agent-be/src/tun_handler/device.rs:17-37 | one of three candidates is always usable, and the one chosen is the lowest usable address of the network |
| `Cidr.TunIpv4Peer` | desktop-agent-be/src/tun_handler/device.rs:6-38 | a peer exists exactly for prefixes up to 30; it is in the network and is neither the local, the network nor the broadcast address |
| `DirectAccess.Ipv4CidrMeans` | desktop-agent-be/src/direct_access.rs:115-133 | an IPv4 CIDR rule matches exactly the IPv4 addresses agreeing on the prefix; prefixes over 32 make no rule |
| `DirectAccess.Ipv6CidrMeans` | desktop-agent-be/src/direct_access.rs:135-153 | the same for IPv6 and 128; other text makes no rule |
| `DirectAccess.WildcardParses` | desktop-agent-be/src/direct_access.rs:156-169 | text beginning with a star and a dot is a wildcard rule, never an address |
| `DirectAccess.WildcardMeans` | desktop-agent-be/src/direct_access.rs:262-273 | a wildcard matches exactly the proper subdomains, not the domain itself |
| `DirectAccess.DomainRuleIsLiveIff` | desktop-agent-be/src/direct_access.rs:155-173 | a domain rule matches some host, however that is written, if and only if it was not written with a trailing dot |
| `DirectAccess.LiveRuleMatchesItself` | desktop-agent-be/src/direct_access.rs:262-277 | a rule without a trailing dot matches its own text |
| `DirectAccess.ForceProxiedIsNeverDirect` | desktop-agent-be/src/direct_access.rs:198-256 | in rules mode no rule list makes a force-proxied name direct, by either entry point |
| `DirectAccess.EntryPointsAgree` | desktop-agent-be/src/direct_access.rs:178-256 | the two entry points agree on names, and a name that is IP text is judged like that IP |
| `DirectAccess.DirectMeans` | desktop-agent-be/src/direct_access.rs:84-256 | from the rule texts, for each mode and kind of address: an IP is direct if and only if some text is that IP or a network it lies in, a host written as an IP is judged as that IP, any other name is direct if and only if it is not force-proxied and some text is that name or a wildcard of which it is a proper subdomain |
| `DirectAccess.ForceProxyMeans` | desktop-agent-be/src/direct_access.rs:279-283 | a name is force-proxied if and only if it is a listed one or a subdomain of one |
| `DirectAccess.NoDomainRulesNoDirectDomain` | desktop-agent-be/src/direct_access.rs:219-228 | without domain rules no name is direct on its own account |
| `UdpRouting.ShortcutsChangeNothing` | desktop-agent-be/src/tun_handler/tasks.rs:277-403 | skipping the domain cache, for either reason, never changes the route from the one that always consulting it gives |
| `UdpRouting.DispatchMeans` | desktop-agent-be/src/tun_handler/tasks.rs:225-403 | if and only if for every outcome: DNS proxy for queries when DNS is proxied; dropped for the TUN's own networks and broadcast, whatever the source; a session's own; and only the rest is routed, as intended |
| `UdpRouting.HandlerAgreesIff` | desktop-agent-be/src/tun_handler/udp.rs:83-146 | the session handler goes direct for a flow dispatched as direct if and only if UDP is forced direct, its IP is direct or the cache still has a direct name; it never drops or blocks it |
| `UdpRouting.ExpiredNameIsProxied` | desktop-agent-be/src/tun_handler/udp.rs:105-146 | a flow that hung on a cached name is proxied when the name is gone |
| `UdpRouting.ProxyHasRelay` | desktop-agent-be/src/tun_handler/tasks.rs:376-399 | the relay is started exactly when some datagram can be routed to the proxy |
| `UdpRouting.ForceProxiedStaysProxied` | desktop-agent-be/src/tun_handler/tasks.rs:277-403 | in rules mode an address without an IP rule whose names are all force-proxied goes direct only when plain UDP is not proxied |
| `UdpRouting.UdpDispatcher.Arrive` | desktop-agent-be/src/tun_handler/tasks.rs:225-345 | the dispatch loop's decision, and a session is recorded exactly for new direct flows |
| `UdpRouting.OnlyAllowedLeaves` | desktop-agent-be/src/tun_handler/tasks.rs:225-370 | in every run of the dispatcher and the sessions it starts, nothing addressed to the TUN's networks or broadcast leaves, by relay, session or a session's own stream; no UDP/443 leaves when QUIC is blocked; no handler drops or blocks what it was started for; nothing is relayed without a relay |
| `UdpRouting.DatagramsAreConserved` | desktop-agent-be/src/tun_handler/tasks.rs:225-370 | in every run and for every flow, what left by any way and what waits in its session never exceeds what arrived, is exactly that if the flow may leave and nothing dropped a datagram of it, and is nothing if it may not leave |
| `MessageCodec.FrameDecoder.Receive` | protocol/src/codec/message_codec.rs:54-58 | received bytes are appended to what is unread |
| `MessageCodec.FrameDecoder.Decode` | protocol/src/codec/message_codec.rs:54-58 | yields the next frame, asks for more, or refuses an oversized length, whether or not the head was consumed earlier |
| `MessageCodec.FrameDecoder.Drain` | protocol/src/codec/message_codec.rs:54-58 | decodes all complete frames and keeps the rest |
| `MessageCodec.MessageEncoder.Encode` | protocol/src/codec/message_codec.rs:86-111 | appends exactly the message's frame, or nothing when it exceeds 4 MiB |
| `MessageCodec.OnTheWire` | protocol/src/codec/message_codec.rs:86-111 | with a key the serialised payload is the nonce and the cipher's output over the body; the body is the compressed payload if and only if that is at least 64 bytes long, the mode is available and compressing shortens it, and the flag then names the mode |
| `MessageCodec.FlagsAreFixed` | protocol/src/compression.rs:27-45 | flags 1, 2 and 3 are Zstd, LZ4 and Gzip, every other means none |
| `MessageCodec.FrameFormat` | protocol/src/codec/message_codec.rs:22-32 | a frame is its length in four bytes, most significant first, and its data |
| `MessageCodec.ChunksDoNotMatter` | protocol/src/codec/message_codec.rs:22-32 | the frames of a stream do not depend on where it is cut |
| `MessageCodec.FramesOfWire` | protocol/src/codec/message_codec.rs:22-32 | framed data come out as they went in, whatever follows |
| `MessageCodec.ExpandsShrunk` | protocol/src/compression.rs:72-166 | a receiver undoes a sender's compression if and only if it was applied to at most 4 MiB in a format the receiver has, or was not applied and the message's own flag is none or leaves the payload unchanged |
| `MessageCodec.MessageRoundTrip` | protocol/src/codec/message_codec.rs:54-111 | any message, whatever flag it was built with and whatever mode the receiver has, survives encoding and decoding under the same key under exactly that condition |
| `MessageCodec.StaleFlagIsLost` | protocol/src/message/envelope.rs:25-32 | inputs that fail it: an LZ4 flag set by hand on a payload under four bytes |
| `MessageCodec.ConnectionDelivers` | protocol/src/codec/message_codec.rs:54-111 | however a connection's bytes are cut and wherever they stop, the receiver has exactly the first messages sent, in order, and all of them at the end |
| `RsaWrap.EncryptWithPrivateKey` | protocol/src/crypto/rsa_key_pair.rs:89-122 | fails exactly for data over k - 11 bytes; otherwise k bytes whose value is the private operation on the padded block |
| `RsaWrap.Pad` | protocol/src/crypto/rsa_key_pair.rs:94-110 | the block of k bytes: 0, 1, at least eight bytes 255, 0, the data |
| `RsaWrap.DecryptWithPublicKey` | protocol/src/crypto/utils.rs:59-101 | returns exactly what follows the first zero byte after the two leading bytes, when there are at least 11 bytes and that is not empty |
| `RsaWrap.PaddedBelowModulus` | protocol/src/crypto/rsa_key_pair.rs:94-110 | the padded block is below every k-byte modulus |
| `RsaWrap.WrapRoundTrip` | protocol/src/crypto/utils.rs:59-101 | unwrapping a wrapped value returns the data, through the lost leading zero and the zero padding, if and only if it is not empty |
| `RsaWrap.WrapAndUnwrap` | protocol/src/crypto/rsa_key_pair.rs:89-122 | the two in sequence return the data exactly for lengths 1 to k - 11 |
| `Socks5Udp.CreateUdpPacket` | desktop-agent-be/src/socks5_handler/udp_associate.rs:284-321 | three zero bytes, the header and the payload, or nothing |
| `Socks5Udp.WhichAddressesHavePackets` | desktop-agent-be/src/socks5_handler/udp_associate.rs:284-321 | packets exist exactly for IPs and for names up to 255 bytes |
| `Socks5Udp.HeaderRoundTrip` | desktop-agent-be/src/socks5_handler/udp_associate.rs:234-282 | whatever follows it, a header parses back to its address and its own length |
| `Socks5Udp.ParsedIsItsHeader` | desktop-agent-be/src/socks5_handler/udp_associate.rs:234-282 | a parsed header is the one its address is given, for valid host text |
| `Socks5Udp.PacketRoundTrip` | desktop-agent-be/src/socks5_handler/udp_associate.rs:114-133 | a built packet is read back as its address and payload, except exactly names with fewer than three bytes of name and payload |
| `Socks5Udp.RequestIff` | desktop-agent-be/src/socks5_handler/udp_associate.rs:114-321 | a datagram is taken as a request for an address with a payload if and only if it is the packet the handler would make of them and is at least ten bytes long, for valid host text |
| `Socks5Udp.HeaderFormat` | desktop-agent-be/src/socks5_handler/udp_associate.rs:284-321 | what stands where in a header: kind 1, 3 or 4, the address or the length and the name, the port with its high byte first |
| `Socks5Udp.PanicsExactlyOn` | desktop-agent-be/src/socks5_handler/udp_associate.rs:114-282 | the parser indexes out of range on exactly one input, and nothing that passes the guard does |

## Left out

- `UdpSession.SpeaksInOrder`: excludes runs in which more callers than the first id raced for the last ids; in those an id can repeat, as `FlowIdsDistinct` states.
- `UdpSession.SessionDriver.HandleTick`: whether the health timeout has passed is an event, not computed from clocks.
- `UdpTransport.DeliversIntactAndAtMostOnce`: authentication is ideal, that is, what opens under the session key was sealed by the peer.
- `UdpDelivery.DeliversInAnyOrder`: requires that the message's entry is neither expired nor evicted between its pieces; `DeliversWithinBounds` gives limits on the traffic under which that follows.
- `UdpSurvival.MessageGetsThrough`: only the message's own datagrams arrive in between; `DeliversWithinBounds` allows other traffic, on the level of fragments.
- `DnsCache.HitIff`: beyond 4096 different questions an entry may have been evicted; what a hit then is, `HitIsLastCacheable` states.
- `DnsProxy.AnsweredFromCacheIff`: the same bound.
- `Streams.ClientWriter.PollShutdown`: flushing is not modelled, and a writer that reports an error is like one that is not ready: nothing is sent.
- `UdpSlots.OneLiveSessionPerSlot`: slots and callers are values updated by steps, not objects; session ids and the pool's counters of ids do not wrap.
- `YamuxPool.PoolStaysBounded`: the pool in the concurrent model is a value updated by steps; session ids do not wrap.
- `YamuxPool.TripsAreBounded`: bounds trips by sessions created; that every call ends is not claimed, since sessions may be created and lost for ever. How a connection attempt ends, and which sessions have room, are events.
- `YamuxPermits.NoCyclicWait`: says that some caller can proceed, not that each one eventually does.
- `DirectEgress.ProbesAreSpaced`: route detection and interface tests are inputs, and the two locks' contents are one value.
- `Socks5Udp.RequestIff`: host bytes that are not valid UTF-8 are excluded, as in `ParsedIsItsHeader`.
- `Socks5Udp.ParsedIsItsHeader`: host bytes that are not valid UTF-8 are replaced by the decoder and do not come back.
- Transport-mode routing of the Android manager and its error classifiers: single expressions.
- The SOCKS5 relay's own flow table: the TUN relay's allocator without expiry.
- The TUN UDP session's relay loops, statistics and TCP path: plumbing around the modelled decisions.
- The Android copy of the direct-access checker: the same rules again.
- Authentication handshake, key derivation, RSA signing, OAEP and PEM handling: foreign cryptography.
- Keepalive timing, reconnect backoff and connection establishment: they depend on the scheduler and the network.
- HTTP and SOCKS5 TCP handlers, the proxy server, TUN devices, route and DNS guards, JNI and the user interface.
