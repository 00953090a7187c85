# mosschat-net, verified

A Dafny model of the parts of mosschat that decide things: the doorbell two
houses run to move a visit from the relay onto a direct path, the shaper that
paces relayed datagrams, the porch socket that sorts what arrives, local
discovery, liveness and the address cache, the event bodies, a house's visit
slots and the spike's ticket. The attempt table, a peer's liveness, the limiters,
the caches and the discovery machine own no socket and no timer: the caller passes
the clock reading in, so their timing policy is arithmetic over runs, and that is how
it is stated here. The doorbell's loop and the porch socket do own such things; of
those the decisions are modelled, and time and arrivals are steps that may come in
any order.

Read it in this order.

- `Addresses`, `AddressRanges`, `Path`, `PathTable`, `Congestion`: addresses in one
  spelling and the ranges their classes are, one peer's path with its epoch, the table
  that shares it, and the congestion controller that starts over when the epoch has moved.
- `Doorbell` is the two-house protocol as a state machine over two FIFO streams
  and two bounded queues, with every rerun and every error return as steps.
  `DoorbellSafety` proves one invariant of all interleavings and draws the theorems
  from it. `DoorbellTraces` records every round trip sample and every address won beside
  such a run. `DoorbellModes` says who probes and who may not, which phase follows which,
  what each move tells and writes, and what ends a visit.
- `Attempt` is one attempt's candidate table; `AttemptRuns` keeps a history of
  every ping beside it, and `AttemptSafety` proves what any run of any calls at any
  clock readings guarantees. `AttemptWire` records the packets handed to the socket and
  shows them to be that history; `AttemptAnswers` says from the packets which pongs count.
- `Shaper`, `ShaperRuns`, `ShaperLink`: the queue with its token bucket, whole runs
  of it, and a house's shaper feeding a gate's.
- `Admission` is the theory of a fixed window beside a bounded memory, written once.
  `PongLimiter` and `Discovery` are its two instances; `DiscoveryRuns`,
  `DiscoveryFlood`, `DiscoveryGap` and `DiscoveryReplay` settle when an announce can be
  admitted twice, when the per-key gap holds, and how many keys a replay takes;
  `DiscoveryAnswers` records every answer and says what each rests on. `Announces` is the
  frame they carry.
- `PorchFilter`, `ProbePacket`, `ProbeQueues`, `ProbeDeliveries`, `Leases`, `Porch`: the
  socket's data structures, a ledger of what the doorbell is handed, and one batch of
  received buffers through all of them.
- `Liveness`, `LivenessRuns`, `LivenessSends`, `AddressCache`, `AddressCacheRuns`.
- `Cbor`, `EventBody`, `EventBodyProofs`, `EventBodyLoops`: the event bodies, after
  sections 3 and 4.2.1 of RFC 8949.
- `VisitSlots`; `Numerals`, `Base32` (section 6 of RFC 4648) and `Ticket`.
- `WireVectors`: the octets of each format, so that two directions that agree also agree
  with the wire.

State that the source updates in place is a class whose methods are proved equal to
a function of the state before; the theorems over runs are about those functions.

## Where the code and its documentation part

Each of these is a theorem below, stated for exactly the inputs it holds of.

- `PongLimiter` and `ReceiveLimiter` document a ceiling over any one second. Their
  windows are fixed, so a second that straddles two of them can hold twice as many, and
  no more: 128 answers and 100 packets (`Admission.CeilingIsTwiceTheLimit`,
  `PongLimiter.OneSecondHoldsTwoWindows`, `DiscoveryRuns.OneSecondHoldsTwoWindows`).
- The replay guard documents that a captured announce is never admitted again. The
  timestamp window has two sides and the memory holds 4096, so an announce stamped
  20 to 60 seconds ahead of the receiver can come back, and no other can
  (`DiscoveryFlood.AtMostOnceIffNotFarAhead`). It takes a crowd: with at most 333 keys
  announcing nothing ever comes back, and with 334 something can
  (`DiscoveryReplay.AtMostOnceIffFewKeys`). A 30 person community is far below that.
- A second announce from one key inside 10 seconds is said to be dropped, and 512
  remembered keys to be more than the packet ceiling lets in. That holds as long as no
  more than 512 keys announce. A key is evicted in the order keys were first met,
  however recently it spoke, and 513 of them can be heard in time
  (`DiscoveryGap.GapHoldsIffFewKeys`).
- A shaping house is said never to overflow the gate's queue. That is so exactly as
  long as the gate's drain is less late than a stated limit
  (`ShaperLink.DropsIffTooLate`).
- `poll_room` says its caller is woken by the next drain pass. Asked, on an empty open
  queue, for more than the whole depth, it parks a caller that no run wakes until
  somebody else's datagram is accepted or the queue is closed; otherwise a drain that
  comes late enough does (`ShaperRuns.PollStrandsIff`). The one caller in the repository
  asks for as many datagrams as one GSO transmit holds
  (crates/mosschat-net/src/sock.rs:1246), and nothing in it shows that to exceed the
  depth of 100; the input is one the function's signature allows.
- The path's round trip estimate is documented as reset on every switch and seeded by
  the new path's own first sample. A pong of the direct path that arrives in the stale
  grace, after the switch back, is folded into the relay's estimate, and that is the
  only thing that ever is (`DoorbellTraces.LatePongIsKept`,
  `DoorbellTraces.RelayEstimateIffStalePong`).
- A held visit is said to rerun, on the same stream, when its path dies. The exchange of
  that rerun takes every frame but `Candidates` for a breach of the protocol, so a
  `PathUp` or `PathDown` the responder had still to say about the old attempt ends the
  visit. In every reachable world the exchange survives a frame exactly if it is
  `Candidates`, and thirteen steps in which nobody leaves and nothing fails end a held
  visit (`DoorbellModes.ExchangeSurvivesIff`, `DoorbellModes.CrossingEndsAHeldVisit`).
- Base32 decoding compares the lowest octet of a character only, and ignores the bits
  that do not fill an octet, so some texts decode that no encoder writes
  (`Base32.SomeTextsAreNobodys`, `Base32.ReencodesIffCanonical`).

## Model

| member | source | states |
|---|---|---|
| DoorbellSafety.ReachableKeeps | crates/mosschat-net/src/punch.rs:1988-2144 | every interleaving of two houses and their readers, over any number of reruns, keeps one invariant: what the two stages say about every frame still unread between them, and each path against its phase and its events |
| DoorbellSafety.HousesAgree | crates/mosschat-net/src/punch.rs:1988-2072 | once the initiator is past the exchange of an attempt, the responder is in that attempt, both derive the same probe key whatever the hash, and both skip probing or neither does |
| DoorbellSafety.OneUnanswered | crates/mosschat-net/src/punch.rs:2729-2749 | at most one `Candidates` frame is unread, counting both directions |
| DoorbellSafety.NoFrameIsDropped | crates/mosschat-net/src/punch.rs:1798-1821 | the 16 frame queue never fills: at most 6 frames wait for the initiator and 3 for the responder, so the reader drops none |
| DoorbellSafety.DirectOnlyWhileWatched | crates/mosschat-net/src/punch.rs:2322-2420 | a house still in the visit is on a direct path exactly while it watches one whose liveness is live |
| DoorbellSafety.SwitchesAreTold | crates/mosschat-net/src/punch.rs:2608-2670 | the epoch equals the number of events that report a path switch; those alternate up and down; the first up is `Upgraded`, every later one `Recovered` |
| DoorbellSafety.InitiatorNeverAdopts | crates/mosschat-net/src/punch.rs:2729-2749 | the branch that joins a peer's attempt is never taken by the initiator |
| DoorbellSafety.RerunFindsRelay | crates/mosschat-net/src/punch.rs:2729-2749 | a rerun always finds the responder already off its direct path, which the branch itself does not check |
| DoorbellModes.NoPunchStaysOnRelay | crates/mosschat-net/src/punch.rs:2111-2144 | in every reachable world, if either house was told not to punch, both paths are as new, no switch was ever told, and a house past the exchange watches the relay: it neither waits for a start signal nor probes |
| DoorbellModes.ExchangeLeadsTo | crates/mosschat-net/src/punch.rs:2110-2178 | whatever step comes next, a house that comes out of an exchange, the first or a rerun's, waits for the start signal if neither house was told not to punch, and is on the relay if either was |
| DoorbellModes.OneShotEndsWithItsPath | crates/mosschat-net/src/punch.rs:2386-2391 | in every reachable world a visit that is not held is still waiting, probing or on a live direct path, or, told not to punch, on a relay that is not dead: it never outlives its path or its chance of one |
| DoorbellModes.MovesAreOnTheMap | crates/mosschat-net/src/punch.rs:2264-2545 | in every reachable world a house that goes on in its attempt moves along one map of phases, with exactly the events and frames of that move, and every action but reading a frame or a pong moves it |
| DoorbellModes.LeavingTells | crates/mosschat-net/src/punch.rs:2861-2890 | in every reachable world a house that leaves an attempt for another tells of the path it watched and of nothing else: fallen back if it was still direct, and dead, once |
| DoorbellModes.VisitEndsIff | crates/mosschat-net/src/punch.rs:2187-2262 | a visit ends at a turn exactly if it says goodbye, hears one, fails, reads the wrong frame in an exchange, or is not held and loses its path or its chance of one; and only a goodbye is said by writing one |
| DoorbellModes.WaitsForTheStart | crates/mosschat-net/src/punch.rs:2171-2216 | while a house waits for the start signal every other step leaves the world as it is, whatever is queued |
| DoorbellModes.ExchangeSurvivesIff | crates/mosschat-net/src/punch.rs:3117-3156 | in every reachable world the initiator's exchange survives the next frame if and only if that is `Candidates`, and the responder's wait never reads anything else |
| DoorbellModes.CrossingEndsAHeldVisit | crates/mosschat-net/src/punch.rs:2400-2416 | a thirteen step run of two held houses, with no goodbye and no failure in it, after which the initiator's visit is over in the exchange of a rerun |
| DoorbellTraces.DirectIsTheLastWin | crates/mosschat-net/src/punch.rs:2608-2620 | in every reachable world a direct path leads to the address its house won last |
| DoorbellTraces.RelayEstimateIffStalePong | crates/mosschat-net/src/punch.rs:2526-2545 | in every reachable world a relayed path has an estimate if and only if a pong of the direct path it replaced was heard since the switch, and a direct path's estimate holds none |
| DoorbellTraces.EstimateIsSinceLastSwitch | crates/mosschat-net/src/path.rs:199-247 | in every reachable world a path's estimate is the smoothing, in order, of exactly the samples its house heard since its last switch |
| DoorbellTraces.LatePongIsKept | crates/mosschat-net/src/punch.rs:2526-2545 | a nine step run of two houses after which the initiator is on the relay with the round trip of the path it has left |
| DoorbellTraces.TraceIsARun | crates/mosschat-net/src/punch.rs:1988-2144 | recording the samples beside a run changes nothing of the run |
| DoorbellSafety.InitiatorActs | crates/mosschat-net/src/punch.rs:2222-2420 | each step of the initiator keeps the agreement between the houses, with what it wrote appended to its stream |
| DoorbellSafety.ResponderTakes | crates/mosschat-net/src/punch.rs:2687-2818 | each frame the responder takes keeps it, and a named attempt is joined only from the relay |
| Path.Entry.UpgradeTo | crates/mosschat-net/src/path.rs:199-211 | a real switch bumps the epoch once and clears the estimate; upgrading to the address in use changes nothing |
| Path.Entry.FallBackToRelay | crates/mosschat-net/src/path.rs:222-236 | likewise back to the relay, returning the address dropped if there was one |
| Common.EstimateStaysInRange | crates/mosschat-net/src/punch.rs:711-725 | the smoothed estimate of any round trips, seeded by the first and moved by an eighth by each later one, stays within their range |
| PathTables.PathTable.InsertRelay | crates/mosschat-net/src/path.rs:773-783 | adopts the entry already under the address, or makes a fresh one on the relay; both indexes then hold that one object |
| PathTables.PathTable.EnsureBySynthetic | crates/mosschat-net/src/path.rs:791-796 | the entry under an address is made once and never replaced |
| PathTables.PathTable.UpgradePeer | crates/mosschat-net/src/path.rs:747-757 | a switch made through the peer's key is what the send path reads under its address, and no other address sees it |
| PathTables.PathTable.SyntheticForDirect | crates/mosschat-net/src/path.rs:819-823 | finds a peer on that direct path if and only if there is one |
| Congestion.NothingCarriesOver | crates/mosschat-net/src/path.rs:885-899 | after a switch and one call, the controller in use does not depend on anything that happened on the path before, only on the MTU |
| Congestion.SwitchWaitsForACall | crates/mosschat-net/src/path.rs:893-899 | switches alone leave the old controller answering; the next call builds one afresh, once, however many switches there were |
| Congestion.CallsSinceSwitchOnly | crates/mosschat-net/src/path.rs:902-942 | from the first call after a switch the controller in use is one built at that call and given exactly the calls since, as if there were no epoch |
| Congestion.NeverAhead | crates/mosschat-net/src/path.rs:893-899 | the epoch is never behind what the controller observed, so no switch is missed |
| Congestion.MtuIsTheLast | crates/mosschat-net/src/path.rs:893-950 | whatever controller is built, across any switches, is built for the MTU last told of |
| AttemptSafety.RunKeeps | crates/mosschat-net/src/punch.rs:795-1186 | over any calls at any clock readings the table stays what the recorded history of every ping says it is |
| AttemptSafety.StreaksAreTrue | crates/mosschat-net/src/punch.rs:1008-1059 | at most one ping is in flight to a candidate; its streak is the unbroken run of answers at the end of its history, and its last min(3, streak) round trips are the ones kept, and its estimate smooths all of them in order |
| AttemptSafety.WinnersAnsweredThreeInARow | crates/mosschat-net/src/punch.rs:1117-1161 | whenever there is a winner, some candidate of that address answered its last three settled pings, and the winner's round trip is their mean |
| AttemptSafety.BestIsLeast | crates/mosschat-net/src/punch.rs:1136-1161 | no candidate with three answers has a lower mean, or the same mean and an earlier address, than the one chosen |
| AttemptSafety.BestIgnoresTableOrder | crates/mosschat-net/src/punch.rs:1136-1161 | two tables with the same candidates choose the same winner |
| AttemptSafety.ProbesAreBudgeted | crates/mosschat-net/src/punch.rs:49-62 | after one start signal no candidate is sent more than 37 pings and an attempt at most 592, each at or after the firing time and less than ten seconds after it |
| AttemptSafety.AllAreSent | crates/mosschat-net/src/punch.rs:1008-1059 | from a new attempt, a peer that names any addresses a stranger may name, a start signal and a caller that polls on every interval: each candidate that never answers is sent exactly 37 |
| AttemptSafety.BudgetIsReached | crates/mosschat-net/src/punch.rs:49-62 | with 16 such candidates the run sends the whole 592 |
| AttemptSafety.PeersCannotWiden | crates/mosschat-net/src/punch.rs:835-945 | at most 16 candidates, distinct, unmapped, probeable, at most four discovered; the vouched addresses are exactly what the gate reflected and this house heard, whatever a peer lists; every peer-reported candidate outside the routable range is one of them |
| AttemptSafety.RoundIsExact | crates/mosschat-net/src/punch.rs:1030-1058 | one round pings every candidate that is due and touches no other |
| AttemptWire.RoundSends | crates/mosschat-net/src/punch.rs:1030-1058 | what a round hands the socket is one ping a due candidate, in table order, to that candidate's own address, under the tx id drawn for it and recorded as outstanding for it, and nothing else |
| AttemptWire.PacketsAreThePings | crates/mosschat-net/src/punch.rs:1008-1059 | in every run the packets to a candidate's address are, one for one and at the same readings, the pings in its history, none goes anywhere else, no address is handed more than 37 and no attempt more than 592 |
| AttemptAnswers.PongsCountIff | crates/mosschat-net/src/punch.rs:1108-1134 | in every run a pong counts if and only if nothing has won, it is a pong of this attempt from a candidate's own address, and it carries the tx id of the last packet sent there, unanswered; it is worth the time since that packet left, and changes nothing else |
| AttemptAnswers.WonOnce | crates/mosschat-net/src/punch.rs:1142-1163 | a decision is told exactly when nothing had won and some candidate has three in a row; what is told is what is kept, and it is told once |
| AttemptAnswers.TakenIff | crates/mosschat-net/src/punch.rs:835-926 | in every run a peer's address is taken if and only if it is fit and routable or vouched for, an overheard one if and only if it is fit and fewer than four such are in the table, and taking adds that candidate at the end and nothing else |
| AttemptAnswers.TakenAreCounted | crates/mosschat-net/src/punch.rs:939-945 | the number returned for a peer's list is the number of candidates it added |
| AttemptAnswers.FiresOnTheSignal | crates/mosschat-net/src/punch.rs:971-975 | in every run an attempt fires 200 ms after its first start signal and at no other time |
| AttemptAnswers.GivingUpIsFinal | crates/mosschat-net/src/punch.rs:1019-1029 | after one poll ten seconds or more after firing with nothing won, no candidate then in the table is ever sent anything more, whatever calls and readings follow |
| AttemptRuns.StepAdmits | crates/mosschat-net/src/punch.rs:835-945 | each call keeps the table within its caps and every candidate vetted |
| AttemptRuns.AnswerTells | crates/mosschat-net/src/punch.rs:1117-1134 | a counted pong lengthens the true streak by the ping it answers |
| AttemptRuns.PingInWindow | crates/mosschat-net/src/punch.rs:1019-1045 | a ping sent when due stays within the budget earned by that time, in either phase and across the two |
| AttemptSafety.AddedOnlyOnce | crates/mosschat-net/src/punch.rs:835-870 | what was added is refused from then on, in either spelling and whoever names it, and the refusal changes nothing |
| AttemptSafety.SpellingsAreOne | crates/mosschat-net/src/punch.rs:835-870 | an IPv4 address and its mapped spelling get one verdict and one entry, from a peer, from discovery or when vouched for |
| AttemptSafety.DiscoveredMayBeNamed | crates/mosschat-net/src/punch.rs:874-926 | after discovery hears an address, slot or no slot, only a full table, an unprobeable address or a duplicate refuses it from the peer |
| Attempt.Table.AddPeerCandidates | crates/mosschat-net/src/punch.rs:939-945 | adds each listed address in order and counts those taken |
| Attempt.Table.ProbesDue | crates/mosschat-net/src/punch.rs:1008-1059 | the loop sends the round its specification gives, with tx ids drawn in order |
| Attempt.Table.PongArrives | crates/mosschat-net/src/punch.rs:1117-1134 | a pong changes the candidates it answers and no others, and counts if and only if it answered one |
| Attempt.Table.TakeDecision | crates/mosschat-net/src/punch.rs:1142-1163 | the scan chooses the specified best, once |
| Shaper.RelayShaper.TryEnqueueAll | crates/mosschat-net/src/path.rs:523-548 | a transmit is queued whole and in order, or not at all |
| Shaper.RelayShaper.DrainPass | crates/mosschat-net/src/path.rs:630-691 | one pass hands over the oldest datagrams the tokens and the burst allow and wakes everyone parked |
| ShaperRuns.RunKeeps | crates/mosschat-net/src/path.rs:465-582 | in every run of a new shaper what was drained followed by what is queued is what was accepted, in order; the length stays within the depth, the tokens within the cap, and the counters equal what happened |
| ShaperRuns.RateHolds | crates/mosschat-net/src/path.rs:630-712 | any window of any run drains at most the cap plus the rate times its length |
| ShaperRuns.PollStrandsIff | crates/mosschat-net/src/path.rs:601-616 | one poll leaves its caller parked so that no run wakes it before a datagram is accepted or the queue closed, if and only if it asks an empty open queue for more than its depth |
| ShaperRuns.WakersStayReachable | crates/mosschat-net/src/path.rs:601-616 | in any run whose polls fit the depth, parked wakers imply an open queue with something in it |
| ShaperRuns.ParkedAreWoken | crates/mosschat-net/src/path.rs:673-726 | and then any pass made once a token is due wakes every one of them, and so does a close |
| ShaperRuns.RoomIsKept | crates/mosschat-net/src/path.rs:601-616 | room promised for n is still there for a transmit of at most n after any drains and polls |
| ShaperRuns.SleepIsExact | crates/mosschat-net/src/path.rs:667-712 | a pass that sleeps is told exactly the time until the next pass can hand something over: any pass from then on does, any earlier one sleeps again |
| ShaperRuns.AnswersAgree | crates/mosschat-net/src/path.rs:523-616 | room is promised exactly when a transmit of that size would not be refused as full; one datagram is answered as a transmit of one is; a transmit of nothing is accepted, closed or not |
| ShaperRuns.ClosedIsEmpty | crates/mosschat-net/src/path.rs:715-726 | in every run a closed queue holds nothing and parks nobody, and nobody is parked twice |
| ShaperLink.DropsIffTooLate | crates/mosschat-net/src/path.rs:269-296 | a house's shaper feeding a gate's makes the gate drop in some run if and only if the gate's drain may be at least 89/22000 s late, or 99/22000 s for a gate made no later or with the budget to match; the same of runs of two new shapers |
| ShaperLink.EverythingArrives | crates/mosschat-net/src/path.rs:333-336 | below that limit every datagram the house accepted is delivered, in the gate's queue or in the house's, in order and once |
| ShaperLink.PunctualBacklog | crates/mosschat-net/src/path.rs:449-463 | a gate drained as soon as it has a token never holds more than 16 of its 24 |
| ShaperLink.WorstRunDrops | crates/mosschat-net/src/path.rs:561-582 | the run that overflows, from two new shapers: idle time, one offer of 25, two bursts and a drain that sleeps through the next nine datagrams |
| ShaperLink.OlderGateIsWarm | crates/mosschat-net/src/path.rs:465-495 | a gate shaper made no later than the house's has the head start the wider limit asks for |
| Admission.RemembersLast | crates/mosschat-net/src/discovery.rs:363-380 | a bounded memory that evicts its oldest holds exactly the last `cap` admissions |
| Admission.StaysFar | crates/mosschat-net/src/discovery.rs:363-380 | so two admissions of one thing are more than `cap` admissions apart |
| Admission.FarInCountIsFarInTime | crates/mosschat-net/src/discovery.rs:457-467 | k full windows of admissions apart is at least k - 1 whole seconds apart |
| PongLimiter.Limiter.Answer | crates/mosschat-net/src/punch.rs:1231-1251 | the ceiling is looked at before the tx id is remembered, as a window and a memory of that theory |
| PongLimiter.NoReplayWithin63Seconds | crates/mosschat-net/src/punch.rs:1201-1206 | a tx id is never answered twice within 63 seconds |
| PongLimiter.AnsweredIff | crates/mosschat-net/src/punch.rs:1231-1251 | in every run a ping is answered if and only if fewer than 64 were answered in its window and its tx id is not among the last 4096 answered |
| Admission.CeilingIsTwiceTheLimit | crates/mosschat-net/src/discovery.rs:457-467 | for every limit, n is a ceiling over any one second of every run of a fixed window if and only if it is at least twice the limit |
| PongLimiter.OneSecondHoldsTwoWindows | crates/mosschat-net/src/punch.rs:1229-1235 | a ceiling of n answers over every one second of every run holds if and only if n is at least 128, twice the constant |
| Announces.ParseOfEncode | crates/mosschat-net/src/discovery.rs:205-295 | what is encoded parses to itself, or is refused for its community or its key, whichever applies first; the signature covers the first 80 bytes |
| Announces.SignatureFixesEverything | crates/mosschat-net/src/discovery.rs:205-240 | two announces that sign the same bytes are the same announce |
| Announces.ParsesIffLaidOut | crates/mosschat-net/src/discovery.rs:247-288 | bytes are read as an announce if and only if they are 144, the first 80 lay it out, and it is of this community and of a key read at all; malformed is exactly a wrong length or header |
| Announces.SignedIffVerified | crates/mosschat-net/src/discovery.rs:290-330 | a frame counts as signed exactly when the scheme verifies its signature over `mosschat-discovery-v1` and its first 80 bytes |
| Discovery.Machine.OnBytes | crates/mosschat-net/src/discovery.rs:664-740 | the checks run in the source's order and each refusal leaves exactly the state that far |
| DiscoveryAnswers.SourceDecides | crates/mosschat-net/src/discovery.rs:703-705 | a datagram that passes every earlier check is refused for its source if and only if that is not local, and is discovered otherwise; no other datagram is either |
| DiscoveryAnswers.AddressesAreTheAnnouncers | crates/mosschat-net/src/discovery.rs:664-740 | in every run an address is discovered only as the announcer's own: the kernel's source, local, with the announced port, unmapped; the reply goes to where it spoke from exactly when its key is discovered for the first time; and every cached address is local and was so discovered for that key |
| DiscoveryAnswers.RefusalsMean | crates/mosschat-net/src/discovery.rs:672-702 | a refusal names the first check that failed: exactly when it is for its form, community, key, signature, for being this house's own, or for coming too soon |
| DiscoveryAnswers.GuardRefusalsMean | crates/mosschat-net/src/discovery.rs:363-380 | and exactly when it is for its timestamp or as a replay |
| DiscoveryAnswers.CountersCountAnswers | crates/mosschat-net/src/discovery.rs:766-808 | in every run each of the ten counters is the number of answers of its kind |
| AddressRanges.LocalV4 | crates/mosschat-net/src/discovery.rs:747-764 | an IPv4 source is local exactly in 10/8, 172.16/12, 192.168/16 and 169.254/16 |
| AddressRanges.LocalMeans | crates/mosschat-net/src/discovery.rs:726-746 | a local source is one that is not routable and is not loopback, unspecified, multicast or broadcast |
| AddressRanges.RoutableV4 | crates/mosschat-net/src/punch.rs:648-661 | an IPv4 address is routable exactly outside every range set aside |
| Discovery.ReplayGuard.Admit | crates/mosschat-net/src/discovery.rs:363-380 | outside the timestamp window or seen before is refused; otherwise remembered, evicting the oldest |
| Discovery.ReceiveLimiter.AdmitQuietKey | crates/mosschat-net/src/discovery.rs:470-486 | a key heard less than ten seconds ago is refused; a new one may evict the first met |
| DiscoveryRuns.OnlyFarAheadRepeats | crates/mosschat-net/src/discovery.rs:363-380 | in every run of datagrams with both clocks in step, an announce admitted twice was stamped 20 to 60 seconds ahead of the receiver when first admitted |
| DiscoveryRuns.EveryDatagramIsCounted | crates/mosschat-net/src/discovery.rs:769-784 | every datagram heard is in exactly one counter |
| DiscoveryRuns.OneSecondHoldsTwoWindows | crates/mosschat-net/src/discovery.rs:457-467 | for every house, a ceiling of n packets over every one second of every run of datagrams holds if and only if n is at least 100, twice the constant |
| DiscoveryRuns.PacketsAreMetered | crates/mosschat-net/src/discovery.rs:672-674 | which packets pass depends on the clock alone, whatever is in them |
| DiscoveryRuns.DiscoveredStayBounded | crates/mosschat-net/src/discovery.rs:705-710 | in every run each key's discovered addresses stay distinct, unmapped and at most 8 |
| DiscoveryFlood.AtMostOnceIffNotFarAhead | crates/mosschat-net/src/discovery.rs:79-100 | some run admits twice an announce first admitted `ahead` seconds early if and only if 20 <= ahead <= 60 |
| DiscoveryReplay.AtMostOnceIffFewKeys | crates/mosschat-net/src/discovery.rs:363-380 | in every run of every house in which at most n keys announce nothing is admitted twice, however far ahead it is stamped, if and only if n <= 333 |
| DiscoveryReplay.MarchRepeats | crates/mosschat-net/src/discovery.rs:457-486 | the run that does it with 334: 4106 datagrams in 120.5 seconds, each past the ceiling and the gap and admitted, the last of them the first again |
| DiscoveryReplay.SlotsHold | crates/mosschat-net/src/discovery.rs:470-486 | under the gap, n keys are admitted at most n times in every ten seconds of any run |
| DiscoveryGap.GapHoldsIffFewKeys | crates/mosschat-net/src/discovery.rs:470-486 | in every run of datagrams of every house in which at most n keys announce, any two admissions of one key are ten seconds apart, if and only if n <= 512 |
| DiscoveryGap.CrowdBreaksTheGap | crates/mosschat-net/src/discovery.rs:102-109 | the run that breaks it, under the packet ceiling: 512 greetings over eleven windows, then in the eleventh the first key again, a newcomer, and the first key at once once more |
| AddressCache.RunKeeps | crates/mosschat-net/src/live.rs:559-700 | over any remembering, answering, expiring and failing dials, every peer's list stays distinct, unmapped, at most 8 and not empty |
| AddressCache.RememberKeeps | crates/mosschat-net/src/live.rs:572-605 | a peer's entries stay distinct and at most 8; what is lost answered no later than anything kept, and a newest address is always kept |
| AddressCache.TrimDropsOldest | crates/mosschat-net/src/live.rs:585-605 | over the cap exactly one entry goes, the one that answered longest ago |
| AddressCacheRuns.EntriesAreAsLastSeen | crates/mosschat-net/src/live.rs:572-650 | over any operations every entry holds when its address was last remembered or answered, and from whom it was last remembered |
| AddressCacheRuns.ExpiryIsExact | crates/mosschat-net/src/live.rs:653-664 | in every run an expiry pass drops exactly the entries not seen for 300 s if overheard and 600 s otherwise, and a peer left with none is unknown |
| AddressCache.Cache.Expire | crates/mosschat-net/src/live.rs:653-664 | keeps exactly the entries within their time, and no peer without one |
| AddressCache.Cache.DialFailed | crates/mosschat-net/src/live.rs:671-700 | removes exactly that address of that peer, in either spelling |
| Addresses.UnmapMapped | crates/mosschat-net/src/sock.rs:75-83 | an address has one spelling after unmapping, and none is lost |
| PorchFilter.FilterProbes | crates/mosschat-net/src/sock.rs:910-950 | for every buffer, length and stride: the non-probe segments packed at the front in order, the probes returned in order, kept + 81 per probe = length, and nothing past the length touched |
| PorchFilter.ResplitsTheSame | crates/mosschat-net/src/sock.rs:900-909 | the kept prefix splits at the same stride into exactly the segments kept |
| PorchFilter.BytesAreConserved | crates/mosschat-net/src/sock.rs:910-950 | the segments concatenate to the buffer and none is counted twice |
| PorchFilter.SortingIsInOrder | crates/mosschat-net/src/sock.rs:910-950 | each segment goes one way, probe or not, and both lists keep the order of arrival |
| PorchFilter.KeepSegment | crates/mosschat-net/src/sock.rs:932-938 | moving a segment down overwrites no byte not yet read, though the two stretches may overlap |
| ProbePacket.DecodesIffEncoded | crates/mosschat-net/src/punch.rs:140-204 | 81 bytes decode to a probe under a key if and only if they are its encoding under that key, for any keyed hash |
| ProbePacket.AddrRoundTrips | crates/mosschat-net/src/punch.rs:211-236 | the 19 byte address layout is read back both ways round |
| ProbeQueues.RunKeeps | crates/mosschat-net/src/sock.rs:964-1009 | in every run of a new book every queue belongs to an armed attempt, stays within its cap and holds only probes that name it and verified under a key armed for it since it was last disarmed; segments in = queued + dropped + unauthenticated |
| ProbeDeliveries.NothingIsLostOrRepeated | crates/mosschat-net/src/sock.rs:861-869 | in every run, for every attempt since it was last disarmed: what its doorbell was handed, followed by what is queued, is exactly what was let in for it, in order; it is told there is nothing if and only if nothing waits; and dropped and unauthenticated each count exactly that |
| ProbeQueues.QueuedUnderItsOwnKey | crates/mosschat-net/src/sock.rs:638-648 | when no armed attempt is armed again, every queued probe verified under the very key its attempt is armed with |
| ProbeQueues.ArriveIsExact | crates/mosschat-net/src/sock.rs:964-1009 | a batch adds to a queue exactly the segments that verify as probes of its attempt, in order, until it is full |
| ProbeQueues.QueuesAreIsolated | crates/mosschat-net/src/sock.rs:638-648 | another attempt's arming, disarming and receiving, and any batch with no segment that verifies as a probe of this one, change neither its queue nor its key |
| ProbeQueues.ClaimsAreNotEnough | crates/mosschat-net/src/sock.rs:952-963 | a segment that names the attempt under any other key is such a batch |
| ProbeQueues.Book.Search | crates/mosschat-net/src/sock.rs:964-1009 | trying every key in any order finds what a direct lookup by the attempt field finds |
| ProbeQueues.Book.QueueProbes | crates/mosschat-net/src/sock.rs:964-1009 | the loop over segments queues, drops and counts as specified |
| Leases.AllowedSources.Contains | crates/mosschat-net/src/sock.rs:138-141 | an address is allowed if and only if some live lease holds it |
| Leases.AllowedSources.Forget | crates/mosschat-net/src/sock.rs:123-136 | withdraws exactly that lease, does nothing the second time, and its subtraction never meets a zero |
| Leases.AllowedSources.Allow | crates/mosschat-net/src/sock.rs:116-121 | adds one place to one lease and one to its count |
| Porch.PorchSocket.ClassifySource | crates/mosschat-net/src/sock.rs:1022-1059 | allowed as it is, rewritten to a peer's synthetic address, or dropped, each if and only if the tables say so |
| Porch.PorchSocket.Demultiplex | crates/mosschat-net/src/sock.rs:1074-1117 | over a whole batch each slot is shown as classified, no other slot or buffer changes, the count is of slots left non-empty, and the probes of all slots are queued in order |
| Porch.ArmedShowsOnlyKnownSources | crates/mosschat-net/src/sock.rs:1022-1117 | once armed, a slot left non-empty came from a leased address or one a peer proved, and shows exactly its non-probe datagrams |
| LivenessRuns.NoFalseAlarm | crates/mosschat-net/src/live.rs:389-438 | in every run on a monotone clock: stale at most once and never within 1.5 s of an answer; dead at most once, and by timeout never within 4 srtt + 5 s of going stale |
| LivenessRuns.LivesOnlyAdvance | crates/mosschat-net/src/live.rs:352-382 | whatever happens next no state is taken back and no report withdrawn; an answer does not restore a stale path |
| LivenessRuns.LastSeenTellsWhy | crates/mosschat-net/src/live.rs:185-193 | last seen is set exactly when dead: the goodbye's arrival, or the last answer before a timeout |
| LivenessRuns.StaleAfterExactly1500 | crates/mosschat-net/src/live.rs:63-66 | the 1.5 s is reached |
| LivenessRuns.SilenceIsNoticed | crates/mosschat-net/src/live.rs:315-334 | driven at least every gap through a visit with no answer, the path is stale no later than 3 (500 ms + max(4 srtt, 500 ms) + 2 gap) after the last one |
| LivenessRuns.SilenceIsDeath | crates/mosschat-net/src/live.rs:389-438 | and dead once its grace has passed after that |
| LivenessRuns.AnswersStartOver | crates/mosschat-net/src/live.rs:352-382 | in every run an answer heard on a live visit starts those bounds over, and a new path starts in that position |
| LivenessSends.SendsIff | crates/mosschat-net/src/live.rs:299-334 | in every run a probe goes out if and only if the peer is not dead and none went out less than the gap in force ago: a second once stale, half a second in a visit, otherwise eight round trips kept between 5 and 15 s; the round trip smooths every one heard, in order |
| LivenessSends.LookIsExact | crates/mosschat-net/src/live.rs:389-438 | in every run a look charges a loss exactly when the timed probe is silent for half a second and four round trips; the third makes a live peer stale; a stale one is dead exactly five seconds and four round trips after it was reported |
| LivenessSends.OnlySentIsCharged | crates/mosschat-net/src/live.rs:315-352 | in every run only a probe that was sent, not withdrawn since and not overtaken by an answer is being timed |
| LivenessSends.UnsentLeavesNoTrace | crates/mosschat-net/src/live.rs:336-352 | a probe this house could not send leaves what was being timed as it was |
| Liveness.PeerLiveness.ProbeIsDue | crates/mosschat-net/src/live.rs:315-334 | a probe sent while one is outstanding does not restart the loss clock, a sent one is always being timed, and a refusal or a dead peer changes nothing |
| Liveness.PeerLiveness.Advance | crates/mosschat-net/src/live.rs:389-438 | one poll counts at most one loss; it reports a change exactly when the state moved, and the state moves only from live to stale or from stale to dead |
| EventBodyProofs.RoundTrip | crates/mosschat-core/src/event/body.rs:235-305 | decoding what was encoded gives back every valid body, with every combination of optional keys |
| EventBodyProofs.AcceptedIffCanonical | crates/mosschat-core/src/event/body.rs:264-305 | bytes decode to a body if and only if the body is valid and the bytes are its own encoding; an unknown type keeps its bytes |
| EventBodyProofs.AcceptedIsWithinLimits | crates/mosschat-core/src/event/body.rs:19-37 | what decodes is within every limit of its type, number by number, and every body of a known type within them is decoded from its own encoding |
| EventBodyProofs.EncodingIsInjective | crates/mosschat-core/src/event/body.rs:235-255 | two valid bodies with one encoding are one body |
| EventBodyProofs.SkippingNeverMatters | crates/mosschat-core/src/event/body.rs:457-864 | how the decoder skips the value of a key it does not know has no effect on what is accepted |
| EventBodyLoops.EncodeKnown | crates/mosschat-core/src/event/body.rs:325-447 | appending head and fields one at a time, with the map's count given up front, writes the specified encoding |
| EventBodyLoops.DecodeMap | crates/mosschat-core/src/event/body.rs:457-864 | the cursor loop over strictly ascending keys reads what the recursive reader reads |
| Cbor.HeadReadsBack | crates/mosschat-core/src/event/body.rs:219-227 | a shortest head reads back, whatever follows it |
| WireVectors.WideHeads | crates/mosschat-core/src/event/body.rs:219-227 | the heads of 1000000 and 1000000000000 are those of appendix A of RFC 8949 |
| WireVectors.Messages | crates/mosschat-core/src/event/body.rs:332-343 | the octets of every short message, alone and in reply: map, ascending keys, type tag first |
| WireVectors.Reactions | crates/mosschat-core/src/event/body.rs:344-357 | the octets of a reaction's removal |
| WireVectors.Attachments | crates/mosschat-core/src/event/body.rs:358-373 | the octets of an attachment with all its keys |
| WireVectors.Devices | crates/mosschat-core/src/event/body.rs:400-424 | the octets of a device added and of one revoked |
| WireVectors.AnnounceLayout | crates/mosschat-net/src/discovery.rs:205-240 | the 80 signed octets of an announce, high octets first |
| WireVectors.AddressLayouts | crates/mosschat-net/src/punch.rs:211-236 | the octets of one address in a probe and in a ticket, for either family |
| VisitSlots.SlotsAreTrue | crates/mosschat-net/src/house.rs:307-345 | over every interleaving of the accept loop and visit tasks, one lock at a time: the controls are the live visits and at most 8; a peer's count is the visits holding one of its slots, at most 2, and an entry exists only while some visit does |
| VisitSlots.IdleKeepsNothing | crates/mosschat-net/src/house.rs:410-442 | a house whose visits are all over has no control and no entry left |
| VisitSlots.GivingBackIsExact | crates/mosschat-net/src/house.rs:433-441 | giving a slot back never saturates and touches no other peer |
| VisitSlots.RefusedIffTwoHold | crates/mosschat-net/src/house.rs:444-467 | a proven key is refused if and only if two other visits hold its slots, and then nothing is charged |
| VisitSlots.AdmittedIffRoom | crates/mosschat-net/src/house.rs:307-345 | over every interleaving the accept loop admits exactly when fewer than 8 visits are live, as the newest, and changes no other |
| VisitSlots.House.ProveKey | crates/mosschat-net/src/house.rs:446-469 | charges one slot or refuses, under one lock |
| Base32.RoundTrip | crates/mosschat-net/examples/spike.rs:608-648 | decoding an encoding gives back every byte string |
| WireVectors.Foobar | crates/mosschat-net/examples/spike.rs:608-628 | "f" and "fo" encode as section 10 of RFC 4648 has them |
| Base32.Encode | crates/mosschat-net/examples/spike.rs:608-628 | the loop over a 32 bit accumulator that loses its high bits writes the octets as one number in base 32, padded with zero bits |
| Base32.Decode | crates/mosschat-net/examples/spike.rs:630-648 | the loop reads the number back in base 256, or refuses at the first character outside the alphabet |
| Base32.ReencodesIffCanonical | crates/mosschat-net/examples/spike.rs:630-648 | a text that decodes is what its octets encode to if and only if it is in the alphabet, has no character to spare and no bit set in its padding |
| Base32.SomeTextsAreNobodys | crates/mosschat-net/examples/spike.rs:630-648 | a text failing each of the three ways decodes all the same, and is no byte string's encoding |
| Ticket.RoundTrip | crates/mosschat-net/examples/spike.rs:539-599 | every 32 byte key, IPv4 or IPv6 address and port comes back from its ticket |
| Ticket.ParsesIffLaidOut | crates/mosschat-net/examples/spike.rs:559-599 | octets parse to a key and an address if and only if they start with that key's and address's layout |
| Ticket.TicketsDiffer | crates/mosschat-net/examples/spike.rs:539-556 | two tickets read alike only if they name one key and one address |
| Ticket.EncodeTicket | crates/mosschat-net/examples/spike.rs:539-556 | appending the parts writes that layout, behind the prefix |

## Left out

- BLAKE3, the keyed hash and ed25519 are functions the theorems are parametric in; nothing is claimed of their strength.
- QUIC, TLS, endpoints, the reactor and every real socket; SQLite storage; the diagnostics recorder and its JSON.
- The gate's own server and client. Its limits are constants, and the start signal is a step of the environment.
- `gather` and the encoding of porch frames; a `Candidates` frame carries its attempt, half and refusal to probe, not its address list, which `AttemptSafety` takes as any list.
- `run_doorbell` is modelled on values: the locals its loop updates are the fields of a house, and each turn between two awaits is one step. What two turns in one task could share by aliasing is not captured.
- The eight `decode_*` functions are one loop over a table of keys and kinds per type, and error messages are one refusal.
- `Addr::to_socket_addr`: a peer's list is the addresses of it that decode.
- `RelayWatch` below the doorbell's own steps for it, `RttSamples` and the shaper's delay statistics.
- The path entry of a visit is taken to exist, as the accept path inserts it before the doorbell runs.
- Floating point: tokens are reals and ceilings are exact.
- Widths of counters and durations: epochs, counters and `Duration` do not saturate or wrap. The base32 accumulator does.
- The source also says `Recovered` when a relay that had gone dead answers again (crates/mosschat-net/src/punch.rs:2580-2585). The model calls that event `RelayAnswersAgain`, since no path is switched; the alternation is over path switches only.
- Await points: a drain is the sequence of its passes, and a waker is a name.
- The order of two addresses with one mean is the order of their text forms, taken as any strict total order.
- Scope ids and flow labels of IPv6 socket addresses.
- Shutdown of a house, and a visit task aborted by it.
- LivenessRuns.SilenceIsNoticed: is about probes that leave the machine, because a send that fails is not charged to the peer and so delays the verdict.
- DoorbellSafety.ReachableKeeps: makes no claim that a rerun succeeds, because its exchange ends the visit on any frame other than `Candidates` (`DoorbellModes.ExchangeSurvivesIff` says when).
