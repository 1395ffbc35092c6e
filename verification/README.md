# snmpio, verified

A Dafny model of the SNMP client library snmpio, with proofs of what its protocol code promises. It follows the
library's three layers.

**The Client** (`Client*.dfy`, `Walk*.dfy`). The Client is a step machine: one step is what runs on its strand between
two suspensions, and everything else is an event: a datagram arriving, a send completing, a timer firing, a
cancellation signal, Stopping, the clock. `ClientModel.dfy` holds the state: the table of outstanding exchanges, the
Engine cache with its endpoint index, the requests and the discoveries. `ClientSteps.dfy` gives every step as a
function from state to state, and `Client.dfy` is the object itself, whose methods change its fields in place and are
proved to take exactly those steps. The theorems are about every run from a fresh Client, against any peer:
`ClientLives.dfy` and `ClientWaits.dfy` (each operation and each exchange by itself, as an automaton of its own),
`ClientExchanges.dfy` (sends, waits and the reason given), `ClientVerdicts.dfy` (what becomes of a reply),
`ClientTrust.dfy` (where an accepted reply comes from), `ClientClocks.dfy` (which clocks are trusted, and when one may
go back), `ClientAges.dfy` (from when each counts), `ClientIndex.dfy` (which Engine is believed to answer at an
endpoint), `ClientIds.dfy` (identifiers and the table), `ClientOps.dfy` (rounds, discoveries, waiters),
`ClientIsolation.dfy` (cancelling one waiter), `ClientGuards.dfy` (which keys are ever asked for),
`ClientStopping.dfy` (Stopping), `ClientResults.dfy` (end to end). They hold for any decoder, digest and cipher;
`ClientCodecs.dfy` puts the library's own in their place. `ClientWitnesses.dfy` and `ClientForgetting.dfy` are
concrete runs, event by event. `ClientFrames.dfy` and `ClientRuns.dfy` say what a step may change. `Walk.dfy` is the
Walk against any Agent, and `WalkRuns.dfy` is the Walk whose requests are those of a run of the Client, and
`WalkAgents.dfy` puts an Agent that answers PDUs at the other end.

**The v3 message layer** (`Usm.dfy`, `UsmReference.dfy`, `V3Message.dfy`, `V3Decoding.dfy`, `MessageWire.dfy`,
`MessageRefusals.dfy`). A digest is written into a finished buffer at an offset carried through three wrappings, and
found again through a nested reader. Hash, HMAC and cipher are parameters: a hash has its width, and decryption undoes
encryption under the same key and initialisation vector.

**The BER codec** (`Octets.dfy`, `Oids.dfy`, `Errors.dfy`, `BerGrammar.dfy`, `BerIntegers.dfy`, `BerOids.dfy`,
`BerRoundTrip.dfy`, `BerStability.dfy`, `BerWire.dfy`, `BerRefusals.dfy`, `BerWriter.dfy`, `BerReader.dfy`,
`Pdu.dfy`). `BerGrammar.dfy` is the recursive definition: what each value's octets are, and what a window of octets
parses to. `Writer` and `Reader` are the in-place code (a placeholder length widened when a scope closes, a cursor
with nested bounds and a sticky error), proved to compute exactly that.

A definition that both an encoder and a decoder use, or that both a step and its theorem use, is also held against a
statement that does not use it. `BerWire.dfy` and `MessageWire.dfy` give the octets of values and messages as
relations with every tag, version and flag in literals; `UsmReference.dfy` gives keys, vectors and digests in the
words of their RFCs; `ClientVerdicts.dfy`, `ClientAges.dfy`, `ClientLives.dfy` and `ClientWaits.dfy` do the same for
the Client.

## Main results

- What a caller gets is what one datagram said, from the Target asked, and where authentication was asked for, signed
  with the caller's own key (`ClientResults.CallerGetsOneDatagram`); and what is sent is what was asked, at the level
  asked (`ClientResults.SentAsAsked`).
- Every clock the Client trusts was carried by a datagram whose digest verified under the key of the exchange it
  answered (`ClientClocks.TrustedClocksAreSigned`, `ClientCodecs.ClockHasDigest`); no unsigned reply moves one
  (`ClientClocks.UnsignedTouchesNoClock`); and one goes back in exactly one case, a time-sync baseline behind it
  (`ClientClocks.ClockGoesBackOnlyAtBaseline`).
- Whatever else the Client is doing, each request and each discovery goes from state to state as a small automaton for
  that one operation says (`ClientLives.RunLives`), and so does each exchange (`ClientWaits.StepExchange`).
- Every verdict on a reply has its exact condition (`ClientVerdicts.VerdictExact`), and the reason an exchange gives
  is that of the last reply that met one (`ClientExchanges.ReasonIsLastDrop`).
- A cached clock and the instant it counts from are those of the last step that wrote it
  (`ClientAges.PairIsLastWriting`), and every request carries it moved on from that instant (`ClientLives.ClockSent`).
- An exchange that gives up made every send, after each of them waited its whole deadline, and names the last reply it
  refused (`ClientExchanges.GivesUpOnlyWhenExhausted`).
- An answer's payload, security parameters and verdict are one datagram's (`ClientTrust.AnswersAreOneDatagram`), and a
  genuine reply is accepted if and only if it counts for the exchange (`ClientCodecs.GenuineReplyAccepted`).
- The table is exactly the exchanges in their loop (`ClientIds.TableIsExact`); a request runs at most two exchanges
  (`ClientOps.AtMostTwoExchanges`); one discovery serves an endpoint at a time (`ClientOps.OneDiscoveryPerEndpoint`).
- Cancelling a waiter changes no other operation, now or in any continuation
  (`ClientIsolation.CancellingWaiterIsLocal`).
- No run looks up a privacy key without a privacy protocol (`ClientGuards.GuardHolds`), so the shared key cache gives
  the keys derived afresh (`Usm.LookUpAll`).
- An endpoint's Engine is the one last named for it (`ClientIndex.IndexIsLastWrite`), and it is lost in exactly one
  kind of step (`ClientIndex.EngineLostOnlyToReport`).
- After Stopping nothing begins, and nothing is left waiting, in every continuation
  (`ClientStopping.NothingBeginsOnceStopping`, `ClientStopping.StoppingLeavesNothingWaiting`).
- A Walk ends against any Agent (`Walks.Walk`), succeeds exactly on a terminator in the last Response it asked for
  (`Walks.WalkSafe`), and against a compliant Agent delivers exactly the Subtree, whatever the mode
  (`Walks.WalkExact`, `Walks.ModesAgree`). As requests of the Client, in every run, its rows ascend within the Subtree
  and it succeeds only on a terminator (`WalkRuns.WalkOverClient`), and it hands over no batch once a Stop has
  happened (`WalkRuns.NoBatchAfterStop`). Each request asks for exactly its iteration's rows, so that an Agent
  answering PDUs as RFC 3416 says gives the whole Subtree (`WalkAgents.WalkOfAgent`).
- The decoders accept exactly the octets the RFCs give a message, and the encoders write them
  (`MessageWire.V2cDecodes`, `MessageWire.V3Decodes`, `MessageWire.V3Encodes`, `BerWire.ValueReads`).
- Keys, initialisation vectors and digests are what their RFCs and drafts say (`UsmReference.AuthKeyIs`,
  `UsmReference.PrivKeyIs`, `UsmReference.IvMeans`, `UsmReference.VerifiesMeans`).
- What the v3 encoder writes, the decoder reads back, the digest verifies and the ciphertext opens
  (`V3Decoding.V3RoundTrip`).
- Decoding undoes encoding (`BerRoundTrip.VarbindListRoundTrip`, `Pdus.V2cRoundTrip`), and whatever is accepted
  re-encodes to something that decodes the same, if and only if its content fits the decoder's length field
  (`Pdus.AcceptedV2cIsStable`); OID contents and encodable OIDs are in bijection (`BerOids.OidBijection`).

Two places where the code and its own words differ, and the model follows the code:

- The note at src/Client.cpp:970-971 says nothing on the strand forgets an Engine between its discovery finishing and
  a waiter running. A Report to another request does, where it is worth asking again about and is unsigned, or is
  signed and names unknownEngineIDs. There are two windows. One is after the discovery finished, while the waiter is
  queued (`ClientForgetting.ForgottenWhileQueued`). The other is the whole of the time-sync phase, whose end does not
  write the index again (`ClientForgetting.ForgottenDuringSync`). Both are runs from a fresh Client. The exact
  condition, in every run: a waiter whose discovery succeeded finds no Engine if and only if the last thing done to
  its endpoint's entry was such a Report (`ClientIndex.WaiterFindsNoneIffForgot`).
- The note at src/Client.cpp:893-895 says the time-sync phase takes its pair without a comparison because there is no
  earlier one. Where the Engine is already trusted, through another endpoint say, there is, and an answer behind it
  sets the trusted clock back: `ClientWitnesses.TrustedClockGoesBack` is a run from a fresh Client in which it does.
  `ClientClocks.ClockGoesBackOnlyAtBaseline` says exactly when, and that there is no other way.

## Model

| member | source | states |
|---|---|---|
| `ClientResults.CallerGetsOneDatagram` | src/Client.cpp:949-1038 | in every run, a request that completes with an answer hands its caller exactly the Varbinds, error index and status of one datagram, a Response received from its Target; where authentication was asked for, that datagram's digest verified under the key derived from the caller's credentials for the Engine addressed |
| `ClientResults.SentAsAsked` | src/Client.cpp:991-1021 | in every run, what is sent is the caller's PDU, to the caller's Target with its timeout and retries, at the caller's level and as the caller's user, reportable, of size 65507, in the Engine's default context, under the keys derived for the Engine addressed; a discovery sends a Get of nothing, to no Engine or with clock zero |
| `ClientResults.RunBacked` | src/Client.cpp:1026-1033 | every run keeps each completed request backed by an answered exchange of its own |
| `ClientResults.EndedStays` | src/Client.cpp:632 | nothing changes an exchange once it has ended |
| `ClientClocks.TrustedClocksAreSigned` | src/Client.cpp:513-578 | in every reachable state of every run, an Engine marked synchronised holds exactly the boots and time of one datagram of the run whose digest verified under the key of the exchange it answered, and its boots is below 2^31-1 |
| `ClientCodecs.ClockHasDigest` | src/Client.cpp:452-458 | the same over the library's own decoder and digest: that datagram decodes as v3 and its digest is the HMAC of its own octets |
| `ClientClocks.StepLearns` | src/Client.cpp:829-947 | the cache changes only in a step that ends an exchange with an answer, never once Stopping has begun, and then as that answer's kind and verdict say |
| `ClientAges.StepRewrites` | src/Client.cpp:561-578 | which steps write an Engine's pair, and the instant with it: the identity phase where the Engine is not trusted, a baseline, and an observation not older and below 2^31-1, an equal one included; which one withdraws trust; and that no other step touches pair, instant or trust |
| `ClientAges.PairIsLastWriting` | src/Client.cpp:561-578 | in every run an Engine's pair and the instant its age counts from are those of the last such writing, an Engine is in the cache exactly when there was one, and no instant is in the future |
| `ClientAges.TimelySinceWriting` | src/Client.cpp:536-559 | in every run, when a pair is timely against a trusted clock, in milliseconds since the last writing of it |
| `ClientAges.AnsweringIs` | src/Client.cpp:605-651 | exactly which event resumes an operation with an answer |
| `ClientLives.ClockSent` | src/Client.cpp:974-1002 | in every run, a request is sent to the Engine the index names, with the boots of the last writing of its pair and the time moved on by the whole seconds since that instant, up to 2^31-1 |
| `ClientClocks.LearntIsSigned` | src/Client.cpp:829-947 | a clock trusted after an answer was trusted before it, or is the one that authenticated answer carries, below the ceiling |
| `ClientClocks.UnsignedTouchesNoClock` | src/Client.cpp:829-947 | a step that ends no exchange with an authenticated answer leaves every trusted clock, its age and its flag as they were, whatever else it does |
| `ClientClocks.OlderReportOnlyDistrusts` | src/Client.cpp:921-944 | a step that resumes a request with a signed notInTimeWindows Report of lower boots withdraws trust from that Engine and changes nothing else in the cache: no clock, no index entry, no other Engine |
| `ClientClocks.ClockGoesBackOnlyAtBaseline` | src/Client.cpp:893-900 | a trusted clock goes back in a step if and only if the step records a time-sync baseline that is behind it |
| `ClientClocks.LaterBaselineStands` | src/Client.cpp:893-900 | when two endpoints of one Engine finish their time-sync phases one after the other, the later pair stands even if it is behind the earlier |
| `ClientWitnesses.TrustedClockGoesBack` | src/Client.cpp:893-900 | a run from a fresh Client, two requests reaching one Engine at two endpoints, in which the trusted clock goes from boots 5 to boots 3 |
| `ClientClocks.LearntForward` | src/Client.cpp:561-578 | every other answer leaves a trusted clock where it is or moves it forward |
| `ClientClocks.ObservesGreatest` | src/Client.cpp:561-578 | any sequence of observations leaves the lexicographic maximum of the starting clock and all observed below the ceiling |
| `ClientClocks.OrderIrrelevant` | src/Client.cpp:561-578 | the result does not depend on the order or the repetition of the observations |
| `ClientClocks.TimelyMeans` | src/Client.cpp:536-559 | when a pair is timely, in milliseconds of the local clock, for every trusted or untrusted clock and every boots and time |
| `ClientClocks.SentClock` | src/Client.cpp:974-1002 | the clock a request carries is the cached one moved on by the whole seconds since, up to 2^31-1 |
| `ClientClocks.StaleResponseRefused` | src/Client.cpp:507-559 | against a trusted clock, an authenticated exchange accepts no Response with lower boots |
| `ClientClocks.SteadyForward` | src/Client.cpp:561-578 | over any stretch of a run that keeps an Engine trusted and records no baseline, its clock does not go back |
| `ClientClocks.NoStaleResponse` | src/Client.cpp:507-559 | so for as long as an Engine stays trusted without a new baseline, no Response from before the boots it started with is accepted |
| `ClientExchanges.GivesUpOnlyWhenExhausted` | src/Client.cpp:605-656 | in every run an exchange ending in Timeout or a drop reason made exactly retries+1 sends and that many waits, one after another, each of them at least its whole timeout long; the reason is that of the last reply that met an exact condition for a drop, and Timeout means there was none |
| `ClientExchanges.ReasonIsLastDrop` | src/Client.cpp:452-510 | in every run an exchange's drop reason is that of the last reply that met one of the exact conditions for a drop, and absent exactly when there was none |
| `ClientExchanges.RunInOrder` | src/Client.cpp:605-630 | every run keeps sends, attempts, waits and deadlines in step, and a wait cut short was cut short by a reply, Stopping or a signal |
| `ClientExchanges.WaitsAddUp` | src/Client.cpp:614-630 | waits that follow one another and each last their deadline take that many deadlines in all |
| `ClientExchanges.WaitKeepsAccount` | src/Client.cpp:618-629 | what follows a wait (leave, drain, send again) keeps that account |
| `ClientExchanges.SendKeepsAccount` | src/Client.cpp:606-613 | what follows a send keeps that account |
| `ClientWaits.StepExchange` | src/Client.cpp:605-656 | in every step each exchange goes where an automaton for that one exchange says: what it hears of each datagram, how long it waits, when it sends again, when it drains, and how it ends |
| `ClientWaits.TotalWaitsOut` | src/Client.cpp:620-629 | in every run a total signal lets the wait in progress finish: without a reply or Stopping, the request ends only once its deadline has passed |
| `ClientWaits.StepEntries` | src/Client.cpp:590-632 | an entry of the table is from before or is that of the exchange that begins, which never takes the place of another's |
| `ClientExchanges.EndsMean` | src/Client.cpp:634-656 | exactly when an exchange ends in success, as cancelled, as stopped, with a socket fault, or by giving up |
| `ClientExchanges.StepHears` | src/Client.cpp:405-518 | only a datagram changes what an exchange has heard; its owner and what it sent never change |
| `ClientTrust.AnswersAreOneDatagram` | src/Client.cpp:446-517 | in every run an answered exchange's payload, security parameters and verdict come from one datagram from the Target asked; a false verdict under required authentication means a Report, never notInTimeWindows in the sync phase; an encrypted reply was authenticated, and its exchange was sent at authPriv |
| `ClientTrust.AcceptedMeans` | src/Client.cpp:438-511 | what accepting a v3 reply implies, case by case |
| `ClientVerdicts.VerdictExact` | src/Client.cpp:428-518 | the exact condition of every verdict on a v3 reply, in terms of the datagram and the exchange's terms alone: dropped as AuthFailed, DecryptionFailed or NotInTimeWindow, accepted with which PDU and as authenticated or not, and ignored in every other case |
| `ClientVerdicts.RefusalIs` | src/Client.cpp:452-510 | the reason a reply is dropped, from those conditions, which exclude one another |
| `ClientVerdicts.TimelyIsInTime` | src/Client.cpp:536-559 | a reply is in time if and only if no clock is trusted at its endpoint, or its boots is later and below 2^31-1, or the same and its time less than 151 seconds behind what the clock has come to |
| `ClientVerdicts.ReportsIs` | src/Client.cpp:60-71 | a Report names usmStats counter k exactly when its first name is at or beneath 1.3.6.1.6.3.15.1.1.k |
| `ClientVerdicts.ReportErrorIs` | src/Client.cpp:73-91 | which error each of the six counters is, any other Report being UnexpectedReport; and that exactly counters 2 and 4 are asked again after |
| `ClientTrust.JudgedBySent` | src/Client.cpp:870-879 | in every run a reply is held against the identifier, Engine, level, protocols and keys the message was sent with |
| `ClientCodecs.GenuineReplyAccepted` | src/Client.cpp:428-518 | a reply encoded under the exchange's own keys is accepted, with its own PDU, if and only if it is a Report or a timely Response that counts for the exchange |
| `ClientCodecs.GenuineV2cAccepted` | src/Client.cpp:405-422 | an encoded v2c Response from the Target asked, quoting its community and request-id, answers the request |
| `ClientCodecs.CodecsGuarded` | src/Usm.cpp:452-458 | without a privacy key nothing decrypts |
| `ClientCodecs.DecodedArrives` | src/Client.cpp:394-401 | looking at the version first loses no message a decoder accepts, of either version |
| `ClientCodecs.ArrivesExactly` | src/Client.cpp:394-401 | a datagram arrives as a message if and only if those are that message's octets |
| `ClientCodecs.MessageVersion` | src/Pdu.cpp:132-136 | the version the outer sequence starts with, whatever follows it |
| `ClientIds.IdsDistinct` | src/Client.cpp:327-331 | identifiers are positive, pairwise distinct over any 2^31-1 consecutive calls, and come round after that many |
| `ClientIds.NextIsFree` | src/Client.cpp:590 | while no exchange has outlived a cycle of identifiers, the next one is not in the table |
| `ClientIds.TableIsExact` | src/Client.cpp:590-632 | then, in every state of every run, the table holds exactly the exchanges still in their loop, each under its own identifier |
| `ClientIds.MovedFull` | src/Client.cpp:632 | an exchange that ends removes its own entry and no other exchange's |
| `ClientIds.DatagramTouchesNamed` | src/Client.cpp:405-436 | a datagram changes at most the exchange whose identifier it names, and v2c and v3 never cross |
| `ClientRuns.StepTableLive` | src/Client.cpp:590-632 | every entry of the table leads to an exchange of that identifier that has not ended |
| `ClientOps.AtMostTwoExchanges` | src/Client.cpp:962-1037 | in every run no three exchanges serve the same request, whatever the Engine replies |
| `ClientLives.RunLives` | src/Client.cpp:661-1038 | in every run, the next event takes each request and each discovery exactly where an automaton for that one operation says, whatever else is going on: how it is refused, what it waits on, what it sends, when it asks again, and the error or answer it ends with; it begins exactly the exchange that automaton says and takes an identifier for it |
| `ClientLives.StepLives` | src/Client.cpp:661-1038 | the same for one step |
| `ClientLives.RunFiled` | src/Client.cpp:829-837 | in every run each Engine is filed under its own engineID, and the Engine of a time-sync phase is in the cache |
| `ClientLives.LaunchLives` | src/Client.cpp:584-590 | a message takes an identifier whether or not it goes out, and why it does not: its encoding, Stopping, the socket, negative retries, in this order |
| `ClientOps.OneDiscoveryPerEndpoint` | src/Client.cpp:750-801 | in every run two discoveries in flight for one endpoint are the same, and it is the one registered |
| `ClientIsolation.CancellingWaiterIsLocal` | src/Client.cpp:762-783 | in every run and every continuation, with the cancelled request's own later events anywhere in it, cancelling a request that waits on a discovery leaves the whole state, every other request's result included, as in the run where it was not cancelled and has not run; that one request is still waiting, or ended as cancelled or stopped |
| `ClientIsolation.StepCommutes` | src/Client.cpp:762-783 | no step but a waiting request's own reads that request: any step does the same to everything else, whatever the request is |
| `ClientIsolation.StaysApart` | src/Client.cpp:762-783 | the two runs differ in that request alone after every continuation |
| `ClientOps.RunOrdered` | src/Client.cpp:740-1037 | every run keeps: one exchange per round and per phase, at most two rounds, the phases of a discovery in turn, registered exactly while in flight |
| `ClientOps.EndsQuiet` | src/Client.cpp:632 | when an exchange ends, its operation has no other in its loop |
| `ClientOps.ParkedQuiet` | src/Client.cpp:770-784 | a request waiting on a discovery runs no exchange and has not asked in this round |
| `ClientIndex.EngineLostOnlyToReport` | src/Client.cpp:904-920 | a step loses an endpoint's Engine if and only if it resumes the first round of a request to that endpoint with a Report worth asking again about that is unsigned or names unknownEngineIDs |
| `ClientIndex.StepWrites` | src/Client.cpp:829-920 | what every step does to one endpoint's entry: names an Engine, forgets it, or leaves it |
| `ClientIndex.IndexIsLastWrite` | src/Client.cpp:829-920 | in every run an endpoint has the Engine last named for it, and none exactly when it was since forgotten or never named |
| `ClientIndex.WaiterFindsNoneIffForgot` | src/Client.cpp:969-973 | in every run a waiter whose discovery succeeded finds no Engine if and only if the last thing done to its endpoint's entry was to forget it, and then it ends in UnknownEngineId unless it was cancelled or stopped first |
| `ClientForgetting.ForgottenWhileQueued` | src/Client.cpp:969-973 | a run from a fresh Client: a Report to one request, after the discovery succeeded, makes the request still queued end in UnknownEngineId |
| `ClientForgetting.ForgottenDuringSync` | src/Client.cpp:882-901 | a run from a fresh Client: a Report during another request's time-sync phase; the discovery then succeeds over an index without the Engine, and both requests waiting on it end in UnknownEngineId |
| `ClientGuards.GuardHolds` | src/Client.cpp:949-961 | in every run each request under way and each discovery names the protocols its level claims, and the run is the same whatever a privacy-key lookup without a privacy protocol would give |
| `ClientGuards.StepGuarded` | src/Client.cpp:806-1023 | every step keeps that, and does not depend on such a lookup |
| `ClientStopping.NothingBeginsOnceStopping` | src/Client.cpp:585-651 | once Stopping is set, in every continuation no send begins, no exchange is added, and every exchange and request that ends does so as cancelled or ClientStopped, even with a reply in hand |
| `ClientStopping.StoppingOutranksReply` | src/Client.cpp:640-651 | under Stopping every classification is operation_aborted or ClientStopped |
| `ClientStopping.StoppingLeavesNothingWaiting` | src/Client.cpp:316-325 | in every run whose exchanges are younger than a cycle of identifiers, from the cleanup on and in every continuation, each exchange is over, sending or due, and each waiter can run |
| `ClientStopping.StepLeavesNone` | src/Client.cpp:584-656 | under Stopping no step leaves anything new waiting |
| `ClientStopping.CleanupWakesAll` | src/Client.cpp:316-325 | the cleanup wakes every armed wait and every waiter on a discovery in flight |
| `ClientFrames.LaunchCarries` | src/Client.cpp:585-590 | starting an exchange takes one identifier and adds at most one exchange, fresh, under it |
| `ClientFrames.SucceedCarries` | src/Client.cpp:823-1037 | whatever an operation does after an answer, it starts at most one exchange, and only if Stopping has not begun |
| `ClientRuns.StepFollows` | src/Client.cpp:605-632 | what any step may change: one exchange, then what its owner does next |
| `Clients.Strand` | src/Client.cpp:122-130 | the states of the Client object are exactly the states of the runs the theorems are about |
| `Clients.Client.Handle` | src/Client.cpp:122-130 | the object's response to any event is the step of the machine |
| `Clients.Client.constructor` | src/Client.cpp:135 | a fresh Client is the initial state |
| `Clients.Client.DeliverV2c` | src/Client.cpp:405-422 | the whole new table entry, for every message and sender |
| `Clients.Client.DeliverV3` | src/Client.cpp:428-518 | the whole new table entry: ignored, dropped with its reason, or accepted and woken |
| `Clients.Client.ConsiderOpened` | src/Client.cpp:473-517 | the checks left once a message can be read |
| `Clients.Client.Receive` | src/Client.cpp:384-403 | one turn of the receive loop |
| `Clients.Client.ObserveEngineTime` | src/Client.cpp:561-578 | adopts a pair that is not older and not at the ceiling, for the Engine at that endpoint |
| `Clients.Client.HandleReport` | src/Client.cpp:904-947 | a fault, or nothing and the cache made ready to ask again; which, for every Report |
| `Clients.Client.Begin` | src/Client.cpp:584-607 | Stopping, the socket, the table entry, and the first send |
| `Clients.Client.Launch` | src/Client.cpp:991-1023 | an identifier taken, the message encoded, the exchange begun |
| `Clients.Client.AfterSending` | src/Client.cpp:608-617 | arms the deadline unless the send failed or Stopping began |
| `Clients.Client.AfterWaiting` | src/Client.cpp:618-630 | leaves, drains or sends again |
| `Clients.Client.Complete` | src/Client.cpp:632-656 | the entry removed, the end classified, the owner resumed |
| `Clients.Client.Continue` | src/Client.cpp:705-707 | what each kind of owner does with an answer |
| `Clients.Client.StartRequest` | src/Client.cpp:680-707 | a v2c or v3 request up to its first suspension, with its refusals |
| `Clients.Client.EnsureEngine` | src/Client.cpp:740-772 | goes ahead, joins the discovery in flight, or spawns one |
| `Clients.Client.Ask` | src/Client.cpp:969-1023 | a round of a v3 request: Engine, keys, projected clock, message |
| `Clients.Client.Answered` | src/Client.cpp:1026-1033 | a Report handled and perhaps asked again about, or a Response delivered and its clock observed |
| `Clients.Client.Identify` | src/Client.cpp:806-823 | phase one of a discovery |
| `Clients.Client.Identified` | src/Client.cpp:827-881 | the identity recorded, and phase two begun when it is needed |
| `Clients.Client.RecordIdentity` | src/Client.cpp:829-837 | the endpoint index, and a pair only where none is trusted |
| `Clients.Client.Synchronised` | src/Client.cpp:882-901 | the signed pair as baseline, or why not |
| `Clients.Client.FailOwner` | src/Client.cpp:824 | a failed exchange ends its request or its discovery |
| `Clients.Client.ResumeWaiter` | src/Client.cpp:772-785 | Stopping, cancellation, the discovery's fault, or on with the request |
| `Clients.Client.Cancel` | src/Client.cpp:595-603 | a signal reaches the wait its request is in, and a draining wait is out of its reach |
| `Clients.Client.WakeExchanges` | src/Client.cpp:322 | every armed wait in the table is woken |
| `Clients.Client.WakeParked` | src/Client.cpp:323-324 | every waiter on a discovery in flight is woken |
| `Clients.Client.FinishStopping` | src/Client.cpp:316-325 | both |
| `Walks.Walk` | src/Client.cpp:1040-1108 | the loop computes the Walk, and ends against any Agent and any way a request may fail: the number of OIDs above the current one, then max-repetitions, decreases |
| `Walks.TurnLowers` | src/Client.cpp:1062-1107 | every iteration that does not end the Walk leaves fewer OIDs ahead, or as many and asks for fewer repetitions |
| `Walks.TurnMeans` | src/Client.cpp:1062-1107 | one iteration, case by case: how each signal ends it, that tooBig halves what is asked for, which error ends it, and what each Response with n rows in front comes to |
| `Walks.ScanReads` | src/Client.cpp:1088-1102 | a Response read from its entries alone: how many rows it starts with, and whether a terminator, a name that went back, or nothing stands after them |
| `Walks.ScanResponse` | src/Client.cpp:1088-1102 | one Response's batch, next position and whether it ends the Walk, or that a name went back |
| `Walks.WalkCollect` | src/Client.cpp:1110-1122 | everything delivered, or nothing after a terminal cancellation |
| `Walks.WalkSafe` | src/Client.cpp:1062-1107 | against any Agent, delivered names strictly increase and lie under and after the base; and the Walk succeeds if and only if its own last iteration, uncancelled and not stopping, got a Response that reached a terminator, scanned from where that iteration asked, with the batch before it taken |
| `Walks.EndsAtLast` | src/Client.cpp:1062-1107 | the outcome is that of the last iteration, and the Walk reaches that iteration |
| `Walks.NoBatchOnceStopping` | src/Client.cpp:1083-1085 | from any iteration on, once Stopping has begun no batch is delivered and the Walk does not succeed |
| `WalkRuns.NoBatchAfterStop` | src/Client.cpp:1083-1085 | in every run of the Client, whenever the Walk calls its batch handler no Stop has happened in the run so far, and the batch is from a datagram received before |
| `WalkRuns.HandsWhatIsDelivered` | src/Client.cpp:1103-1106 | an iteration calls the handler exactly when it delivers a batch |
| `WalkRuns.WalkOverClient` | src/Client.cpp:1040-1108 | the Walk made of a run's requests, whatever the peer: its rows ascend within the Subtree, and success means that its last request completed before any Stop with a Response holding a terminator |
| `WalkRuns.ReplyIsOneDatagram` | src/Client.cpp:1066-1069 | a reply without error is one datagram, a Response from the Walk's Target the Client accepted, to a request of the Walk that was encodable and was sent as asked |
| `WalkRuns.WalkIsWired` | src/Client.cpp:1066-1069 | every run gives the Walk what its termination needs: names in a reply can be encoded, and a request for an OID that cannot be does not succeed |
| `WalkAgents.LegAsks` | src/Client.cpp:1066-1067 | every reply of a Walk in a run answers a PDU with one name, GETNEXT if max-repetitions is not positive, and otherwise a GETBULK with no non-repeaters asking for exactly that many successors |
| `WalkAgents.WalkOfAgent` | src/Client.cpp:1040-1108 | a Walk in a run, against an Agent that answers each PDU as sections 4.2.2 and 4.2.3 of RFC 3416 say over a sorted table, delivers a prefix of the Subtree and, when it succeeds, all of it |
| `WalkAgents.ServesCompliantly` | src/Client.cpp:1066-1069 | such an Agent is compliant in the terms of the Walk |
| `Walks.ScanAdvances` | src/Client.cpp:1091-1102 | a Response that neither ends the Walk nor goes back moves it strictly forward, to its last name |
| `Walks.HeightFalls` | src/BerReader.cpp:280-283 | going forward strictly lowers the number of OIDs still ahead |
| `Walks.ScanCompliant` | src/Client.cpp:1088-1102 | a compliant Response never goes back and moves exactly its Subtree rows from to-come to delivered |
| `Walks.WalkExact` | src/Client.cpp:1059-1107 | against a compliant Agent over a sorted table, a Walk delivers a prefix of the rows after and under the base, all of them if it succeeds, and never reports a name going back |
| `Walks.ModesAgree` | src/Client.cpp:1066-1075 | GETNEXT mode and GETBULK mode at any size deliver the same rows, however batches were cut and whenever tooBig was answered |
| `Walks.WalkSucceeds` | src/Client.cpp:1062-1107 | left alone with a compliant Agent that answers, a Walk does succeed |
| `Walks.NothingBeyond` | src/Client.cpp:1092-1097 | leaving the Subtree once is leaving it for good |
| `Oids.SubtreeContiguous` | src/Oid.cpp:67-73 | nothing outside a Subtree lies between its base and one of its members |
| `Oids.IsPrefixOf` | src/Oid.cpp:67-73 | the loop decides Subtree membership |
| `Oids.LessTransitive` | include/snmpio/Oid.hpp:66-67 | the order is transitive |
| `Oids.LessTotal` | include/snmpio/Oid.hpp:66-67 | the order is total |
| `Oids.LessAsymmetric` | include/snmpio/Oid.hpp:66-67 | the order is strict |
| `Oids.PrefixNotAfter` | include/snmpio/Oid.hpp:66-67 | a prefix comes first |
| `Oids.RankMonotone` | include/snmpio/Oid.hpp:66-67 | OIDs of bounded length embed, in order, in the naturals |
| `V3Decoding.V3RoundTrip` | src/V3Message.cpp:67-147 | for every header, Engine, user, PDU, protocol and key, and any sound HMAC and cipher, what is encoded decodes field for field, its digest verifies under the same key, and an encrypted ScopedPDU travels as the sealed one and opens to the original |
| `MessageWire.V3Decodes` | src/V3Message.cpp:149-269 | the v3 decoder gives a message, the digest's place included, if and only if the datagram is laid out as section 6 of RFC 3412 and section 2.4 of RFC 3414 say, with every tag, version, model and flag written out |
| `MessageWire.V3Encodes` | src/V3Message.cpp:67-147 | and what is encoded is laid out so, with the fields it was given |
| `MessageWire.HeaderReads` | src/V3Message.cpp:163-195 | the same both ways for the header and its flags |
| `MessageWire.UsmReads` | src/V3Message.cpp:202-240 | the same both ways for the security parameters and the digest's place in them |
| `MessageWire.ScopedReads` | src/V3Message.cpp:43-65 | the same both ways for a ScopedPDU |
| `MessageRefusals.V3Refused` | src/V3Message.cpp:149-162 | another version is BadVersion, whatever follows |
| `MessageRefusals.V3Trailing` | src/V3Message.cpp:262-269 | anything after a message is TrailingData |
| `MessageRefusals.HeaderRefused` | src/V3Message.cpp:163-195 | the errors for bad flags and for another security model |
| `MessageRefusals.EncodingRefused` | src/V3Message.cpp:67-93 | what the encoder refuses first: privacy with no protocol, then authentication with no protocol, then what the cipher refuses |
| `MessageRefusals.OpeningMeans` | src/V3Message.cpp:271-292 | an encrypted message opens to a ScopedPDU if and only if that stands in front of the plaintext; otherwise the error is the cipher's own or DecryptionFailed |
| `V3Decoding.MessageRoundTrip` | src/V3Message.cpp:95-128 | the decoder's digest offset is the encoder's, whatever length forms the three wrappings need |
| `V3Decoding.SignedVerifies` | src/V3Message.cpp:294-321 | a digest computed over the blanked octets and written at the offset verifies |
| `UsmReference.VerifiesMeans` | src/V3Message.cpp:294-321 | a digest verifies if and only if the message claims one, of its protocol's width, that is the front of the HMAC of the datagram with those octets zeroed |
| `V3Decoding.SealedOpens` | src/V3Message.cpp:271-292 | an encrypted ScopedPDU opens to the original, its pad ignored |
| `V3Decoding.DigestFound` | src/V3Message.cpp:196-221 | for every accepted datagram the digest slice lies inside it and equals the decoded field |
| `V3Decoding.AcceptedV3IsEncodable` | src/V3Message.cpp:50-65 | the PDU of an accepted message, in the clear or decrypted, names only encodable OIDs |
| `V3Decoding.DecodeV3Message` | src/V3Message.cpp:149-269 | the decoder computes the grammar's message, or its error |
| `V3Decoding.ReadV3Header` | src/V3Message.cpp:163-195 | the header, its flags and its refusals |
| `V3Decoding.ReadUsm` | src/V3Message.cpp:202-240 | the security parameters in a nested reader, with the digest's offset |
| `V3Decoding.ReadUsmFields` | src/V3Message.cpp:204-231 | their six fields and the position after the digest |
| `V3Decoding.ReadPayload` | src/V3Message.cpp:242-262 | a ScopedPDU, or ciphertext when the flags say so |
| `V3Decoding.ReadScopedPdu` | src/V3Message.cpp:50-65 | a ScopedPDU with nothing after it |
| `V3Decoding.DecryptScopedPdu` | src/V3Message.cpp:271-292 | the ScopedPDU an encrypted message holds, or the error |
| `V3Decoding.VerifyAuth` | src/V3Message.cpp:294-321 | whether the digest is that of the octets with its own field zeroed |
| `V3Decoding.ScopedRoundTrip` | src/V3Message.cpp:43-65 | decoding a ScopedPDU undoes encoding it, whatever follows |
| `V3Decoding.UsmRoundTrip` | src/V3Message.cpp:25-39 | decoding the security parameters undoes encoding them and locates the digest |
| `V3Decoding.HeaderFieldsRoundTrip` | src/V3Message.cpp:18-22 | decoding the header undoes encoding it |
| `V3Messages.EncodeV3Message` | src/V3Message.cpp:67-147 | the buffers and the running offset give the recursive definition of a signed message, or the error: for a PDU that cannot be encoded, OidNotEncodable unless encryption fails first |
| `V3Messages.Assemble` | src/V3Message.cpp:99-128 | the three wrappings, and the offset of the blank digest in the finished octets |
| `V3Messages.Sign` | src/V3Message.cpp:139-146 | overwriting the blank with the digest gives the message that carries it |
| `V3Messages.CopyOver` | src/V3Message.cpp:145 | exactly those octets are replaced |
| `V3Messages.WrapScopedPdu` | src/V3Message.cpp:83-93 | the ScopedPDU in the clear, or its ciphertext and salt, or which error |
| `V3Messages.EncodeUsmContent` | src/V3Message.cpp:25-39 | the security parameters with a blank digest, and where it is |
| `V3Messages.WriteScopedPdu` | src/V3Message.cpp:43-48 | the ScopedPDU's octets |
| `V3Messages.WriteGlobalData` | src/V3Message.cpp:110-117 | the header's octets |
| `V3Messages.RunningOffset` | src/V3Message.cpp:100-128 | the offset, moved along by each wrapping's growth, is the length of what precedes the digest |
| `V3Messages.DigestPlaced` | src/V3Message.cpp:95-128 | the octets are what precedes the digest, the digest, and what follows |
| `V3Messages.SpliceIsSubstitution` | src/V3Message.cpp:139-146 | replacing the digest's octets is encoding with another digest |
| `V3Messages.FrontIgnoresDigest` | src/V3Message.cpp:95-128 | what precedes the digest depends only on its width |
| `Usm.PrivacyRoundTrip` | src/Usm.cpp:422-471 | decryption recovers the plaintext with DES's pad still on, in every case but an empty plaintext under DES; what both sides compute is pinned down by `UsmReference.EncryptsWhat` and `UsmReference.DecryptsWhat` |
| `UsmReference.IvMeans` | src/Usm.cpp:209-226 | the initialisation vector in numbers: for AES boots, time and salt, each modulo its width and in this order; for DES each bit of pre-IV and salt |
| `UsmReference.SaltTravels` | src/Usm.cpp:422-441 | the salt in numbers: boots and the low half of the counter for DES, the two halves of the counter for AES |
| `UsmReference.EncryptsWhat` | src/Usm.cpp:422-450 | exactly what the cipher is given, and when it is refused: the key, that IV, and the plaintext with zeros up to a block of eight for DES |
| `UsmReference.DecryptsWhat` | src/Usm.cpp:452-471 | the same for decryption, with its refusals |
| `Usm.SaltsDistinct` | src/Usm.cpp:422-450 | two salts coincide exactly when the counter came round: all of it for AES, its low half for DES |
| `Usm.SaltCounter.Encrypt` | src/Usm.cpp:422-450 | encryption under the next salt |
| `Usm.PasswordToKey` | src/Usm.cpp:318-347 | chunk by chunk, the hash of the password repeated to a megabyte |
| `UsmReference.AuthKeyIs` | src/Usm.cpp:318-377 | an authentication key is the hash of the engineID between two copies of the hash of a megabyte of password, or which error |
| `Usm.DerivePrivKey` | src/Usm.cpp:379-420 | the extension loop ends with the derived key, exactly as long as the cipher takes |
| `Usm.LocalizedPrivKey` | src/Usm.cpp:379-420 | a derived key has the cipher's key size |
| `UsmReference.PrivKeyIs` | src/Usm.cpp:379-420 | a privacy key is the front of the chain of blocks its draft defines, under the authentication hash, as long as the cipher needs; or which error |
| `Usm.ExtendPrefix` | src/Usm.cpp:395-418 | extending further keeps what was there |
| `Usm.PrivKeysNest` | src/Usm.cpp:379-420 | within a scheme the shorter key is a prefix of the longer, and they exist together |
| `Usm.DigestAlwaysThere` | src/Usm.cpp:473-498 | there is a digest exactly when there is a protocol |
| `Usm.AuthDigest` | src/Usm.cpp:473-498 | a digest is as wide as its protocol's field |
| `UsmReference.DigestIs` | src/Usm.cpp:473-498 | a digest is the front of the HMAC, 12, 12, 16, 24, 32 or 48 octets of it |
| `UsmReference.HashWidths` | src/Usm.cpp:272-276 | the widths of the hashes |
| `Usm.KeyCache.LocalizedKey` | src/Client.cpp:710-724 | the key returned is the key derived afresh, and rows are only added |
| `Usm.KeyCache.LocalizedPrivacyKey` | src/Client.cpp:726-738 | with a privacy protocol named, the key derived afresh whatever was looked up before; without one, an authentication key of the same secret if one is cached, and otherwise a refusal; rows are only added |
| `Usm.LookUpAll` | src/Client.cpp:710-738 | over any sequence of lookups from an empty cache, each that names its protocol gives the key derived afresh |
| `Usm.PrivacyLookupAgrees` | src/Client.cpp:726-738 | that is the key derived afresh if and only if a protocol is named or no authentication row has that secret |
| `Pdus.V2cRoundTrip` | src/Pdu.cpp:138-182 | decoding undoes encoding for every v2c message with encodable OIDs whose fields are shorter than 2^32 octets |
| `Pdus.AcceptedV2cIsStable` | src/Pdu.cpp:138-182 | every accepted datagram, padded integers and long lengths included, re-encodes, and decodes to the same message if and only if its fields are shorter than 2^32 octets, which anything under 2^31 octets is |
| `MessageWire.V2cDecodes` | src/Pdu.cpp:152-182 | the v2c decoder gives a message if and only if the datagram is laid out as section 3 of RFC 1901 says, with every tag and the version written out |
| `MessageWire.V2cEncodes` | src/Pdu.cpp:138-150 | and what is encoded is laid out so |
| `MessageWire.PduReads` | src/Pdu.cpp:94-130 | the same both ways for a PDU: its six tags, and the order of its fields |
| `MessageRefusals.PduRefused` | src/Pdu.cpp:102-130 | the errors for no PDU, one of another type, and one with more in it |
| `MessageRefusals.FieldsWithMore` | src/Pdu.cpp:102-130 | a PDU's fields read the same whatever follows them, which is then left over |
| `MessageRefusals.V2cRefused` | src/Pdu.cpp:152-182 | another version is BadVersion, whatever follows the community |
| `MessageRefusals.V2cTrailing` | src/Pdu.cpp:152-182 | anything after a message is TrailingData |
| `Pdus.PduRoundTrip` | src/Pdu.cpp:94-130 | decoding a PDU undoes encoding it, whatever follows |
| `Pdus.ParsedPdu` | src/Pdu.cpp:102-130 | an accepted PDU is encodable, in at most twice the octets |
| `Pdus.WritePdu` | src/Pdu.cpp:94-100 | the PDU's octets, or the first error |
| `Pdus.ReadPdu` | src/Pdu.cpp:102-130 | the grammar's PDU, or its error, with the scope's bounds restored |
| `Pdus.EncodeV2cMessage` | src/Pdu.cpp:138-150 | the message's octets, or why not |
| `Pdus.DecodeV2cMessage` | src/Pdu.cpp:152-182 | the grammar's message, or its error |
| `BerRoundTrip.VarbindListRoundTrip` | src/BerWriter.cpp:208-217 | decoding undoes encoding for every list with encodable OIDs whose content is shorter than 2^32 octets, consuming every octet |
| `BerRoundTrip.VarbindRoundTrip` | src/BerWriter.cpp:208-212 | the same for one Varbind |
| `BerRoundTrip.ValueRoundTrip` | src/BerWriter.cpp:166-206 | the same for a value of every kind |
| `BerWire.ValueReads` | src/BerReader.cpp:300-385 | the decoder takes a value off a window if and only if the octets it takes are that value's, in a relation with every identifier octet written out, for all thirteen kinds |
| `BerWire.ValueWritten` | src/BerWriter.cpp:166-206 | what is written for a value stands in that relation, and starts with its kind's identifier octet |
| `BerWire.VarbindListReads` | src/BerReader.cpp:387-416 | the same both ways for a Varbind list |
| `BerRoundTrip.HeaderRoundTrip` | src/BerReader.cpp:29-73 | the reader finds the tag and length the writer wrote, in short and long form |
| `BerRoundTrip.TooLongToReadBack` | src/BerReader.cpp:29-73 | content of 2^32 octets or more never reads back whole |
| `BerRefusals.HeaderRefused` | src/BerReader.cpp:29-73 | exactly which octets a header is refused for, and with which error |
| `BerRefusals.ElementRefused` | src/BerReader.cpp:84-127 | which error a missing or unexpected element gives |
| `BerRefusals.IntegerRefused` | src/BerReader.cpp:138-167 | exactly when an integer is empty or too large |
| `BerRefusals.UnsignedRefused` | src/BerReader.cpp:169-202 | the same for unsigned values at both widths |
| `BerRefusals.SubidRefused` | src/BerReader.cpp:237-261 | exactly when a sub-identifier is not minimal, too wide, or does not end |
| `BerRefusals.OidRefused` | src/BerReader.cpp:224-286 | an OID is refused for its first bad sub-identifier, for being empty, or past 128 arcs for its length |
| `BerRefusals.ValueRefused` | src/BerReader.cpp:300-385 | a value is of an unknown kind exactly when it starts with none of thirteen octets |
| `BerRefusals.ContentRefused` | src/BerReader.cpp:300-385 | the error for a null or an exception with content, and for an address that is not four octets |
| `BerRefusals.VarbindRefused` | src/BerReader.cpp:387-401 | the error for a Varbind with anything after its value |
| `BerStability.AcceptedListIsStable` | src/BerReader.cpp:403-416 | an accepted list is encodable and decodes to itself after re-encoding if and only if its content is shorter than 2^32 octets, which anything under 2^31 octets is |
| `BerStability.ParsedVarbindList` | src/BerReader.cpp:387-416 | and needs at most twice the octets it came in |
| `BerStability.ParsedValue` | src/BerReader.cpp:300-385 | the same for a value of every kind |
| `BerOids.OidBijection` | src/BerReader.cpp:224-286 | an octet string decodes to an OID if and only if the OID is encodable and encodes to those very octets |
| `BerWire.ArcsAre` | src/BerReader.cpp:224-286 | an OID's content, by sub-identifiers of seven-bit groups and forty to the first arc: at most 128 arcs, of at most 32 bits |
| `BerOids.DecodeOidContent` | src/BerReader.cpp:224-286 | the loops compute the grammar's OID or its error, without a 64-bit accumulator overflowing |
| `BerOids.ReadSubid` | src/BerReader.cpp:237-261 | one sub-identifier, or why it is refused |
| `BerOids.EncodedOidSize` | src/BerWriter.cpp:135-140 | exactly the size of the encoded element, and zero for an OID that cannot be encoded |
| `BerOids.SubidSize` | src/BerWriter.cpp:20-27 | exactly the octets of a sub-identifier |
| `BerOids.LengthSize` | src/BerWriter.cpp:12-17 | exactly the octets of a length |
| `BerIntegers.IntegerContentMeans` | src/BerWriter.cpp:77-95 | integer content is minimal two's complement of its value, in one to four octets |
| `BerIntegers.MinimalUnique` | src/BerWriter.cpp:84-91 | a value has one minimal content |
| `BerIntegers.StripPadding` | src/BerWriter.cpp:84-91 | dropping an octet that only repeats the sign keeps the value |
| `BerIntegers.IntegerRoundTrip` | src/BerReader.cpp:138-167 | decoding integer content undoes encoding it |
| `BerIntegers.UnsignedRoundTrip` | src/BerReader.cpp:169-202 | the same for 32-bit and 64-bit unsigned values |
| `BerIntegers.UnsignedContentMeans` | src/BerWriter.cpp:101-116 | unsigned content is minimal and non-negative |
| `BerWriter.Writer.CloseScope` | src/BerWriter.cpp:47-67 | closing a scope turns placeholder and content into the element, whatever width its length needs |
| `BerWriter.Writer.PatchLength` | src/BerWriter.cpp:50-66 | the placeholder becomes the minimal length, and the content moves whole |
| `BerWriter.Writer.Widen` | src/BerWriter.cpp:54-59 | room is made after the placeholder, and everything else keeps its octets |
| `BerWriter.Writer.WriteElement` | src/BerWriter.cpp:47-75 | any tree of nested scopes comes out as tag, minimal length and children; a scope under a primitive tag is the only error |
| `BerWriter.Writer.WriteElements` | src/BerWriter.cpp:47-75 | the same for any sequence of trees |
| `BerWriter.Writer.BeginConstructed` | src/BerWriter.cpp:69-75 | the tag and a placeholder, and an error for a primitive tag |
| `BerWriter.Writer.PutLength` | src/BerWriter.cpp:35-45 | the minimal length |
| `BerWriter.Writer.Integer` | src/BerWriter.cpp:77-95 | the element of minimal two's complement |
| `BerWriter.StripSign` | src/BerWriter.cpp:84-91 | the loop stops at the minimal content |
| `BerWriter.Writer.Unsigned` | src/BerWriter.cpp:101-116 | the element of minimal unsigned content |
| `BerWriter.Writer.Elementary` | src/BerWriter.cpp:118-123 | tag, minimal length, content |
| `BerWriter.Writer.Raw` | src/BerWriter.cpp:219-222 | exactly these octets, unless an error came first |
| `BerWriter.Writer.ObjectIdentifier` | src/BerWriter.cpp:142-164 | the OID's element, or OidNotEncodable and nothing written |
| `BerWriter.Writer.EmitSubid` | src/BerWriter.cpp:155-161 | one sub-identifier in base 128 |
| `BerWriter.Writer.WriteValue` | src/BerWriter.cpp:166-206 | the value's element, for every kind |
| `BerWriter.Writer.WriteVarbind` | src/BerWriter.cpp:208-212 | the Varbind's element, or the first error |
| `BerWriter.Writer.VarbindList` | src/BerWriter.cpp:214-217 | the list's element, or the first error |
| `BerReader.Reader.ReadHeader` | src/BerReader.cpp:29-73 | the grammar's header or its error, never past the innermost end, and nothing after a failure |
| `BerReader.Reader.Enter` | src/BerReader.cpp:84-103 | the bounds narrow to the element's content, or the error is recorded |
| `BerReader.Reader.CloseScope` | src/BerReader.cpp:75-82 | the bounds widen back, the position moves past the element, and content left over is an error |
| `BerReader.Reader.PrimitiveContent` | src/BerReader.cpp:105-127 | the grammar's content or its error |
| `BerReader.Reader.Integer` | src/BerReader.cpp:138-167 | the grammar's integer or its error |
| `BerReader.IntegerValue` | src/BerReader.cpp:141-166 | padding skipped and octets shifted in give the two's complement value, or that it is too large |
| `BerReader.Reader.Unsigned` | src/BerReader.cpp:169-202 | the grammar's unsigned value or its error, at either width |
| `BerReader.UnsignedValue` | src/BerReader.cpp:172-191 | the loop gives the number or that it is too large |
| `BerReader.Reader.OctetString` | src/BerReader.cpp:204-212 | the grammar's octets or its error |
| `BerReader.Reader.ObjectIdentifier` | src/BerReader.cpp:288-298 | the grammar's OID or its error |
| `BerReader.Reader.Empty` | src/BerReader.cpp:214-222 | an element that must be empty |
| `BerReader.Reader.AnyValue` | src/BerReader.cpp:300-385 | the grammar's value or its error, for every tag |
| `BerReader.Reader.ReadVarbind` | src/BerReader.cpp:387-401 | the grammar's Varbind or its error |
| `BerReader.Reader.VarbindList` | src/BerReader.cpp:403-416 | the grammar's list or its error |
| `BerReader.Reader.Finish` | src/BerReader.cpp:20-27 | nothing failed and nothing is left |
| `BerReader.Reader.PeekTag` | src/BerReader.cpp:15-18 | the next tag, if nothing failed and something is left |
| `BerReader.Reader.Fail` | src/BerReader.cpp:8-13 | the first failure is the one kept |

## Left out

- Asio: sockets, executors, coroutine frames, completion tokens and lifetimes. They appear only as events; a datagram
  may arrive, a send fail or a socket not open at any time, which allows more runs than Asio does.
- Whether a spawned discovery starts before or after the request that spawned it suspends: it is a step of its own.
- Exceptions out of a coroutine (a discovery's recorded failure, a receive loop that throws).
- Stopping set by another thread in the middle of a step: the flag changes between steps.
- Cancellation of one Walk across its requests: the Walk reads its own signals, each request its own. A signal is read
  before a request and after a failed one, at every iteration, as any value.
- The encoders' refusals inside the Client machine: whether a message can be encoded is a parameter of it, and
  `WalkRuns.WalkIsWired` takes from it only that a PDU with an OID that cannot be encoded is refused.
- The octets an exchange sends: an exchange keeps the message handed to the encoder, and the message layer says what
  its octets are.
- The inside of hashes, HMACs and ciphers, the legacy provider, and the randomness of the first identifier and first
  salt: parameters.
- Constant-time comparison and wiping of secrets: not observable here.
- OID text parsing and printing, value rendering, error categories and messages, the remaining table of error classes:
  only easy members.
- `Reader::skipElement` and building request PDUs from OIDs: only easy members.
- ClientClocks.SteadyForward: the projected time, which is refreshed on every adoption, is not monotone and not
  claimed to be; only the cached pair is.
- Clients.Client.ResumeWaiter: a waiter takes the result of the discovery it joined, which need not have synchronised
  the clock for its own level, so success there is not claimed to mean a synchronised Engine.
