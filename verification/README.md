# A Dafny model of the MQTT 5.0 client library

The library is an asynchronous MQTT Version 5.0 client. This project models the parts of it
whose correctness is spread over several functions, and proves what they promise.

| file | models |
|---|---|
| `Protocol.dfy` | the levels of service |
| `PacketIds.dfy` | the 16-bit packet identifier pool |
| `SendModel.dfy` | the outgoing publish scheduler as a value and one function per input |
| `SendInvariant.dfy`, `SendActions.dfy`, `SendSteps.dfy` | its invariant, kept by each elementary action and by each input |
| `SendTurns.dfy` | every input as a sequence of elementary actions |
| `SendTheorems.dfy`, `SendAcks.dfy`, `SendEffects.dfy` | what follows for every reachable state and every input |
| `SendFreed.dfy`, `SendCallbacks.dfy` | full ordering: what is set free by a publish that leaves, the callbacks of every input, and when they are out of order |
| `SendLifetime.dfy` | transmissions of a publish over its whole life |
| `SendOutcomes.dfy` | what inputs come to, said on the fields alone |
| `SendExamples.dfy` | runs from start-up that show what is not promised |
| `SendClient.dfy` | the scheduler as the library executes it: one object, mutually recursive methods, index loops |
| `Reception.dfy` | the receiving side of QoS 2 |
| `Topics.dfy` | the subscription filter scanner and the topic matcher |
| `Framing.dfy` | the packet framing loop and the reader's carry-over buffer |
| `Timers.dfy`, `KeepAlive.dfy` | the timer table and the keep-alive operation on it |

**The publish scheduler.** `Sched` holds the queue of pending publishes with their flags, the
in-flight counter, the limit granted by the broker, the connection flags, the identifier pool, and
three histories: packets sent (`wire`), publishes in the order in which they left the queue
(`exits`), completion callbacks in the order in which they were invoked (`reports`). An `Input` is
an application call, an acknowledgement, a response timeout, the loss of the connection, the
preparation of a new one, a CONNACK, or the expiry of the session; `Next` is its effect, `Run` the
effect of a sequence of inputs, and `Reachable` says that a state is the outcome of some such
sequence. The class `ClientImpl` has the fields of the library's client and session state and the
library's own control flow; each of its methods is proved to bring about exactly the corresponding
function of `SendModel`, and its invariant is `Reachable`. The `cause` of a packet is an annotation
that tells which code path sent it; it is not transmitted.

**Where a stronger statement would be false.** Each of these is proved, with the exact condition.

- With full ordering, publishes leave the queue in submission order, but completion callbacks do
  not follow: what a publish sets free by leaving is reported first, and in reverse.
  `CallbacksAre` gives the callbacks of every input, `CallbacksInOrderIff` and
  `RunCallbacksInOrderIff` the exact condition for those of an input or of a whole run to be in
  submission order, `CallbackInversion` and `ReconnectReverses` are instances.
- An out-of-order acknowledgement delivers nothing that was in flight, but the timeouts it forces
  can free paused QoS 0 publishes, which then complete: `OutOfOrderAckFreesIff` says exactly when,
  `EarlyAckCompletes` is an instance.
- A CONNACK without a session ends the pending publishes one by one, but with resumption enabled:
  meanwhile every paused publish other than the head is transmitted on the new connection, those
  above QoS 0 to be reported as aborted right after, and those of QoS 0 complete. `LostSessionIff`
  says exactly when, `LostSessionCompletes` is an instance.
- The identifier search can hand out the reserved value 0, and releasing 0 does not take it off the
  list (`AllocGivesZeroIff`, `ReleaseUndoesAlloc`, `ZeroIsLeaked`).
- The matcher misses a match in three cases, all with an empty last topic level
  (`MatcherIsLevelMatch`, `MatcherMissesEmptyLastLevel`).
- A broker that never answers is noticed only by a client that stops sending
  (`UnansweredIsDetected`, `SendingHidesSilence`).
- The client keeps to the keep-alive period in every run exactly when the response timeout does not
  exceed the period (`NeverQuietIff`); otherwise it can fall silent for good (`SilenceUnbounded`).

**What is taken as given.** Preparing, configuring and sending a publish is one step with a
completion callback; callbacks do not call back into the client; the ordering mode and the number of
attempts are set before publishing; outgoing packets fit, so sending succeeds; publishes are the only
users of packet identifiers. Inputs whose outcome depends on decoding (properties, reason codes,
topic checks) carry that outcome as a parameter (`wellFormed`, `refused`, `Verdict`, `Release`,
`Rules`), so every outcome is covered. Clocks are inputs: ticks and timeouts.

## Model

| member | source | states |
|---|---|---|
| `PacketIds.SearchSucceeds` | client/lib/src/op/Op.cpp:77-90 | with fewer than 65536 identifiers listed the search ends, by the pigeonhole principle, at one that is not listed |
| `PacketIds.AllocTakesFirstFree` | client/lib/src/op/Op.cpp:70-94 | allocation returns the first unlisted identifier in cyclic order after the last one; the list stays strictly sorted and gains exactly that identifier |
| `PacketIds.AllocGivesZeroIff` | client/lib/src/op/Op.cpp:64-93 | the result is 0 if and only if the list holds as many as it can or 65535, or every identifier from the start point to 65535 is taken and 0 is not listed |
| `PacketIds.AllocSucceeds` | client/lib/src/op/Op.cpp:64-93 | with room in the list, fewer than 65535 listed and a free identifier from the start point on, the result is an identifier other than 0 that was not listed and now is |
| `PacketIds.ReleaseUndoesAlloc` | client/lib/src/op/Op.cpp:96-111 | releasing what was just allocated restores the list if and only if there was no room, 65535 were listed, 0 was listed already, or some identifier from the start point to 65535 was free |
| `PacketIds.ReleaseValid` | client/lib/src/op/Op.cpp:96-111 | release keeps the list sorted and removes that identifier alone |
| `PacketIds.ZeroIsLeaked` | client/lib/src/op/Op.cpp:89-100 | from an empty pool, allocations and releases after which 0 is handed out and stays listed after release |
| `PacketIds.PacketIdPool.AllocPacketId` | client/lib/src/op/Op.cpp:59-94 | the method computes `Alloc` and terminates |
| `PacketIds.PacketIdPool.InsertFirstFree` | client/lib/src/op/Op.cpp:77-90 | the search loop inserts the first free identifier from its start point and nothing else |
| `PacketIds.PacketIdPool.ReleasePacketId` | client/lib/src/op/Op.cpp:96-111 | the method computes `Release` |
| `SendSteps.NextKeeps` | client/lib/src/ClientImpl.cpp:893-984 | every input keeps the scheduler invariant: queue shape, identifiers, order of first transmissions, order of delivery, conservation, per-publish traffic, callbacks, and no idling |
| `SendSteps.RunKeeps` | client/lib/src/ClientImpl.cpp:1182-1341 | hence every sequence of inputs keeps it |
| `SendSteps.SettleKeeps` | client/lib/src/ClientImpl.cpp:1182-1197 | resuming keeps the core invariant and ends with a first paused publish that may not send |
| `SendSteps.LegitPubackIsHead` | client/lib/src/ClientImpl.cpp:1235-1257 | with full ordering a PUBACK that is accepted is for the head of the queue |
| `SendSteps.LegitPubackInTurn` | client/lib/src/ClientImpl.cpp:1235-1257 | with either ordering an accepted PUBACK overtakes no other QoS 1 publish |
| `SendTurns.NextActs` | client/lib/src/ClientImpl.cpp:893-984 | whatever leaving, resuming, resending, releasing, a notice and a change of flags keep, every input other than a publish keeps |
| `SendTheorems.QueueShape` | client/lib/src/op/SendOp.cpp:577-623 | in every reachable state the queue is acknowledged publishes, then published unacknowledged ones, then paused ones; the in-flight counter is the number of published ones; with full ordering QoS does not fall along them |
| `SendTheorems.OneNeighbourSuffices` | client/lib/src/ClientImpl.cpp:992-1016 | the test of the one publish in front equals "some earlier publish is paused" |
| `SendTheorems.WorkConserving` | client/lib/src/ClientImpl.cpp:1333-1341 | while connected the first paused publish fails `canSend`; with full ordering the head is never paused; with same-QoS ordering something is paused only when the window is full |
| `SendTheorems.FirstTransmissionsInOrder` | client/lib/src/op/SendOp.cpp:861-884 | first PUBLISH transmissions follow submission order, all of them with full ordering and those above QoS 0 with same-QoS ordering; each transmitted publish has exactly one |
| `SendTheorems.FullOrderingIsFifo` | client/lib/src/op/SendOp.cpp:861-884 | with full ordering deliveries (QoS 0 sent, PUBACK, PUBCOMP) follow submission order and precede everything pending |
| `SendTheorems.EqualQosIsFifo` | client/lib/doxygen/main.dox:1407-1426 | with either ordering deliveries of equal QoS follow submission order and precede every pending publish of that QoS |
| `SendTheorems.Conservation` | client/lib/src/op/SendOp.cpp:799-812 | every accepted publish is pending or has left exactly once; every one that left was reported exactly once unless cancelled |
| `SendTheorems.IdentifiersMatchPending` | client/lib/src/op/SendOp.cpp:37-40 | the non-zero identifiers in use are exactly those of pending publishes, no two of which share one |
| `SendTheorems.HistoryWellFormed` | client/lib/src/op/SendOp.cpp:762-797 | what any publish put on the wire is one PUBLISH without DUP, then copies with DUP, then PUBRELs, all with one identifier |
| `SendTheorems.AttemptsAccounted` | client/lib/src/op/SendOp.cpp:690-693 | transmissions in the current phase equal the attempt counter plus reconnection resends, and the counter stays between 1 and the configured total |
| `SendTheorems.FirstSendsWithinLimit` | client/lib/src/op/SendOp.cpp:861-884 | whatever the input, if it transmits a publish above QoS 0 for the first time, all that is in flight afterwards is within the limit in force |
| `SendTheorems.FlowControl` | client/lib/src/op/SendOp.cpp:836-894 | until the next CONNACK the in-flight count never exceeds the larger of its starting value and the limit |
| `SendTheorems.SettleFills` | client/lib/src/ClientImpl.cpp:1182-1197 | with same-QoS ordering resuming ends with max(p, min(limit, n)) in flight |
| `SendTheorems.ReconnectEmits` | client/lib/src/ClientImpl.cpp:893-926 | reconnecting to a kept session sends exactly one PUBREL or DUP PUBLISH per in-flight publish in submission order with its identifier, then first transmissions of the next paused publishes; with same-QoS ordering max(p, min(limit, n)) end up in flight |
| `SendAcks.Sweep` | client/lib/src/ClientImpl.cpp:1259-1281 | the resend loop meets every publish from its start to the target exactly once, in order, although it erases while iterating; each is retransmitted or ends with a timeout |
| `SendAcks.OutOfOrderAck` | client/lib/src/ClientImpl.cpp:1283-1301 | an acknowledgement out of turn changes no acknowledged flag and delivers nothing in flight; exits other than QoS 0 transmissions are exactly the timeouts of exhausted publishes up to the target |
| `SendAcks.CallbacksReverseExits` | client/lib/src/op/SendOp.cpp:799-812 | within one completion callbacks are invoked in exactly the reverse of the order in which publishes left the queue |
| `SendFreed.SettleFrees` | client/lib/src/ClientImpl.cpp:1182-1197 | with full ordering and nothing in flight, resuming completes exactly the run of QoS 0 publishes at the front of the queue |
| `SendFreed.SweepAdds` | client/lib/src/ClientImpl.cpp:1259-1281 | exactly which QoS 0 publishes a resend loop sets free on its way, and in which order they are reported |
| `SendCallbacks.CallbacksAre` | client/lib/src/op/SendOp.cpp:799-812 | with full ordering, for every reachable state and every input: the callbacks of deliveries it makes, in their order |
| `SendCallbacks.CallbacksInOrderIff` | client/lib/src/op/SendOp.cpp:799-859 | these follow submission order if and only if the input is none of: a delivery of the head that frees a QoS 0 publish, another end of the head that frees two, an acknowledgement out of turn that does so on its way, a reconnection that finds nothing in flight and two QoS 0 publishes at the front |
| `SendCallbacks.HeadCallbacksInOrderIff` | client/lib/src/op/SendOp.cpp:799-812 | with full ordering all callbacks of a completed head are in submission order if and only if it frees no QoS 0 publish |
| `SendCallbacks.RunCallbacksInOrderIff` | client/lib/src/op/SendOp.cpp:799-859 | over a whole run from start-up the callbacks of deliveries follow submission order if and only if no input of the run is one of these |
| `SendCallbacks.OutOfOrderAckFreesIff` | client/lib/src/ClientImpl.cpp:1259-1301 | an acknowledgement out of turn lets a publish complete if and only if, with full ordering, it is for the last one in flight, all in flight have used up their attempts and a QoS 0 publish waits behind them |
| `SendCallbacks.LostSessionIff` | client/lib/src/ClientImpl.cpp:928-938 | a CONNACK without a session ends each pending publish in order and nothing else leaves, if and only if no QoS 0 publish waits behind the head; it transmits exactly the paused publishes other than the head, so nothing if and only if all are in flight or only one is pending |
| `SendLifetime.LifetimeAttempts` | client/lib/src/op/SendOp.cpp:762-797 | from submission on, pending or gone: transmissions in each phase, without those made by reconnections, never exceed the configured number |
| `SendExamples.CallbackInversion` | client/lib/src/op/SendOp.cpp:799-859 | a run from start-up in which a QoS 0 publish is reported before the older QoS 1 publish that had to complete first |
| `SendExamples.EarlyAckCompletes` | client/lib/src/ClientImpl.cpp:1259-1301 | a run in which a PUBACK out of turn ends two publishes with a timeout and completes a waiting QoS 0 publish |
| `SendExamples.ReconnectReverses` | client/lib/src/ClientImpl.cpp:910-925 | a run in which a reconnection reports two QoS 0 publishes in reverse |
| `SendExamples.LostSessionCompletes` | client/lib/src/ClientImpl.cpp:928-938 | a run after which a CONNACK without a session ends the head and transmits and completes the two QoS 0 publishes behind it |
| `SendEffects.FinalAckDelivers` | client/lib/src/op/SendOp.cpp:43-123 | a well-formed PUBACK or PUBCOMP for a sent publish, everything before it acknowledged and for PUBCOMP at the head, removes it with that outcome and leaves the others in flight alone |
| `SendEffects.PubrecMovesOn` | client/lib/src/op/SendOp.cpp:127-236 | a PUBREC for a sent publish with everything before it acknowledged is answered by one PUBREL and marks the publish, or ends it if its reason code is a failure |
| `SendEffects.TimeoutRepeatsOrEnds` | client/lib/src/op/SendOp.cpp:755-797 | a response timeout repeats the publish's current packet once, or ends it when its attempts are used up |
| `SendEffects.PublishAccepted` | client/lib/src/op/SendOp.cpp:577-623 | a publish submitted while connected gets the next number, is pending afterwards or was sent at QoS 0, and is on the wire exactly if it may send |
| `SendEffects.FullPostponesIff` | client/lib/doxygen/main.dox:1428-1432 | with full ordering a publish is postponed if and only if the window is full, an earlier one is postponed, or an incomplete one has a higher QoS |
| `SendEffects.SameQosPostponesIff` | client/lib/src/op/SendOp.cpp:861-884 | with same-QoS ordering a publish is postponed if and only if it is above QoS 0 and the window is full |
| `SendEffects.AbortEndsAll` | client/lib/src/ClientImpl.cpp:1094-1111 | terminating ends every pending publish in order, reports them in that order and sends nothing |
| `SendEffects.DropKeepsOrEnds` | client/lib/src/ClientImpl.cpp:946-984 | losing the connection leaves queue and histories untouched when a session is kept and ends every publish otherwise |
| `SendEffects.CancelIsSilent` | client/lib/src/op/SendOp.cpp:625-634 | cancelling takes the publish out without a callback of its own |
| `SendOutcomes.AckTakenIff` | client/lib/src/ClientImpl.cpp:1235-1301 | an acknowledgement is acted on if and only if its publish was sent, everything before it is acknowledged, and for PUBCOMP it is the head; any other changes no acknowledged flag and lets nothing leave but by timeouts and transmissions at QoS 0 |
| `SendOutcomes.UnknownAck` | client/lib/src/ClientImpl.cpp:733-755 | an acknowledgement with an identifier nobody holds changes nothing, except that a PUBREC is answered with its identifier |
| `SendOutcomes.ViolationEnds` | client/lib/src/op/SendOp.cpp:51-123 | an acknowledgement in turn that is malformed or does not fit its publish ends it with a protocol error, sends DISCONNECT last and takes the connection down |
| `SendOutcomes.ExpiryEndsAll` | client/lib/src/ClientImpl.cpp:1199-1216 | when the session expires every pending publish ends in order, is reported in order, and nothing is sent |
| `SendOutcomes.Ignored` | client/lib/src/op/SendOp.cpp:755-760 | without a connection publishes and response timeouts change nothing; nor do timeouts and cancellations of what is not there, or a second preparation |
| `SendOutcomes.Reconnects` | client/lib/src/ClientImpl.cpp:893-984 | after CONNACK, loss of the connection and preparation the client can be connected again with the limit then granted, and the pending publishes survived exactly if there was a session to keep |
| `SendOutcomes.PublishStored` | client/lib/src/op/SendOp.cpp:577-623 | a publish joins the end of the queue with the number, QoS and attempts it was submitted with, sent once without DUP or paused; or it was of QoS 0, went out and left |
| `SendOutcomes.PublishIdentified` | client/lib/src/op/SendOp.cpp:577-623 | a publish above QoS 0 gets an identifier other than 0 that no other pending publish holds, if there is room and one is free from the start point of the search on |
| `SendOutcomes.AttemptsAreSpent` | client/lib/src/op/SendOp.cpp:755-797 | a publish sent when submitted with n attempts is repeated with DUP on each of its first n - 1 response timeouts and ends with the next |
| `SendClient.ClientImpl.constructor` | client/lib/src/ClientState.h:22-37 | start-up state |
| `SendClient.ClientImpl.HasPausedSendsBefore` | client/lib/src/ClientImpl.cpp:992-1016 | tests the publish directly in front |
| `SendClient.ClientImpl.HasHigherQosSendsBefore` | client/lib/src/ClientImpl.cpp:1018-1032 | whether some earlier publish has a higher QoS |
| `SendClient.ClientImpl.CanSendNow` | client/lib/src/op/SendOp.cpp:861-884 | decides `CanSend` |
| `SendClient.ClientImpl.DoSendInternal` | client/lib/src/op/SendOp.cpp:836-859 | first transmission, followed at QoS 0 by completion and everything that resumes |
| `SendClient.ClientImpl.CompleteWithCb` | client/lib/src/op/SendOp.cpp:799-812 | the publish leaves, others resume, then its own callback |
| `SendClient.ClientImpl.OpCompleteInternal` | client/lib/src/op/SendOp.cpp:886-894 | counter, queue and identifier after leaving; resumption unless disconnecting |
| `SendClient.ClientImpl.ResumeSendOpsSince` | client/lib/src/ClientImpl.cpp:1182-1197 | the nested recursion terminates and equals resuming first-paused publishes one by one |
| `SendClient.ClientImpl.Resume` | client/lib/src/op/SendOp.cpp:705-731 | resumes exactly the first paused publish, if it may send |
| `SendClient.ClientImpl.ResendDupMsg` | client/lib/src/op/SendOp.cpp:762-797 | retransmits with DUP or PUBREL, or times out |
| `SendClient.ClientImpl.ForceDupResend` | client/lib/src/op/SendOp.cpp:696-703 | leaves a paused publish alone, else as above |
| `SendClient.ClientImpl.ResendAllUntil` | client/lib/src/ClientImpl.cpp:1259-1281 | the index loop equals the recursive sweep and terminates |
| `SendClient.ClientImpl.PostReconnectionResend` | client/lib/src/op/SendOp.cpp:636-694 | one resend that leaves the attempt counter as it was |
| `SendClient.ClientImpl.ResponseTimeout` | client/lib/src/op/SendOp.cpp:755-760 | step for a response timeout |
| `SendClient.ClientImpl.IsLegitSendAck` | client/lib/src/ClientImpl.cpp:1235-1257 | published, everything before acknowledged, and for PUBCOMP at the head |
| `SendClient.ClientImpl.ProtocolViolation` | client/lib/src/op/SendOp.cpp:51-77 | the publish ends with a protocol error, then the connection is terminated |
| `SendClient.ClientImpl.TerminationWithReason` | client/lib/src/op/Op.cpp:127-135 | DISCONNECT is sent and the connection is dropped |
| `SendClient.ClientImpl.HandlePuback` | client/lib/src/op/SendOp.cpp:43-123 | step for PUBACK |
| `SendClient.ClientImpl.HandlePubrec` | client/lib/src/ClientImpl.cpp:743-755 | step for PUBREC |
| `SendClient.ClientImpl.PubrecInTurn` | client/lib/src/op/SendOp.cpp:127-236 | a violation, a refusal, or one PUBREL and the acknowledged flag |
| `SendClient.ClientImpl.HandlePubcomp` | client/lib/src/op/SendOp.cpp:238-321 | step for PUBCOMP |
| `SendClient.ClientImpl.Publish` | client/lib/src/ClientImpl.cpp:395-444 | step for a publish |
| `SendClient.ClientImpl.SendPrepared` | client/lib/src/op/SendOp.cpp:577-623 | sends at once if allowed, else pauses |
| `SendClient.ClientImpl.Cancel` | client/lib/src/op/SendOp.cpp:625-634 | step for a cancellation |
| `SendClient.ClientImpl.TerminateOps` | client/lib/src/ClientImpl.cpp:1094-1111 | ends every pending publish |
| `SendClient.ClientImpl.BrokerDisconnected` | client/lib/src/ClientImpl.cpp:946-984 | step for losing the connection |
| `SendClient.ClientImpl.PrepareConnect` | client/lib/src/ClientImpl.cpp:1151-1180 | the session state is reset, the queue kept |
| `SendClient.ClientImpl.SessionExpiryTimeout` | client/lib/src/ClientImpl.cpp:1199-1216 | step for the expiry of the session |
| `SendClient.ClientImpl.BrokerConnected` | client/lib/src/ClientImpl.cpp:893-944 | step for CONNACK; the loop over the old session's operations meets an entry that is gone if and only if a QoS 0 publish waits behind the head |
| `SendClient.ClientImpl.TerminateOldSession` | client/lib/src/ClientImpl.cpp:928-938 | the loop goes through the operations as listed when it began and ends each, or stops at the first that is gone |
| `SendClient.ClientImpl.ResendPending` | client/lib/src/ClientImpl.cpp:902-904 | the resend loop over the queue |
| `SendClient.ClientImpl.ResumeWindow` | client/lib/src/ClientImpl.cpp:910-925 | the backward scan over the window finds the first paused publish, so this equals a full resumption |
| `Reception.NextKeeps` | client/lib/src/ClientImpl.cpp:654-785 | every input keeps: one open reception per identifier, open exactly if reported and not closed since, reports only when closed |
| `Reception.ExactlyOnce` | client/lib/src/op/RecvOp.cpp:345-411 | in every run two QoS 2 reports of one identifier have a closing event between them |
| `Reception.AtMostOneOpen` | client/lib/src/ClientImpl.cpp:690-719 | in every run an identifier other than 0 has at most one open reception |
| `Reception.AnsweredMeansReported` | client/lib/src/op/RecvOp.cpp:334-350 | in every run a positive PUBREC follows a report of its identifier with no closing in between |
| `Reception.GoodPublishReported` | client/lib/src/op/RecvOp.cpp:94-352 | a good publish while connected and within the limit is reported exactly once and then gets the positive answer of its QoS; at QoS 2 its reception stays open |
| `Reception.BadPublishRefused` | client/lib/src/op/RecvOp.cpp:142-182 | a publish that is not authorised or comes before CONNACK is not reported and gets the negative answer of its QoS |
| `Reception.FatalPublishEnds` | client/lib/src/op/RecvOp.cpp:98-139 | a publish that breaks the protocol or exceeds the limit is not reported; DISCONNECT is sent and the connection ends |
| `Reception.RepeatAnswered` | client/lib/src/ClientImpl.cpp:690-719 | a second publish for an open identifier is not reported; a duplicate is answered again, any other refused as in use |
| `Reception.IgnoredWhileEnding` | client/lib/src/ClientImpl.cpp:654-658 | once the connection is going down a publish changes nothing |
| `Reception.PubrelAnswered` | client/lib/src/op/RecvOp.cpp:355-411 | PUBREL closes the reception of its identifier alone and is answered with PUBCOMP unless it carries an error; an unknown one is answered as not found |
| `Reception.PubrelViolationEnds` | client/lib/src/op/RecvOp.cpp:355-411 | a PUBREL that breaks the protocol ends the connection |
| `Reception.SessionsDecide` | client/lib/src/ClientImpl.cpp:893-984 | receptions survive the loss of the connection with a session to keep and a CONNACK that finds it; otherwise, and on expiry, each is closed in order |
| `Reception.OpenWithinLimit` | client/lib/src/op/RecvOp.cpp:132-139 | for as long as a connection lasts, open receptions never exceed the larger of their number at its start and a limit that is set |
| `Reception.AcceptedWithinLimit` | client/lib/src/op/RecvOp.cpp:132-139 | accepting never leaves more receptions than a limit that is set |
| `Reception.RecvSide.HandlePublish` | client/lib/src/ClientImpl.cpp:654-730 | step for PUBLISH, duplicates included |
| `Reception.RecvSide.ExaminePublish` | client/lib/src/op/RecvOp.cpp:94-352 | limit, authorisation, report and answer for a new reception |
| `Reception.RecvSide.HandlePubrel` | client/lib/src/ClientImpl.cpp:757-785 | step for PUBREL |
| `Reception.RecvSide.ResponseTimeout` | client/lib/src/op/RecvOp.cpp:450-459 | step for a missing PUBREL |
| `Reception.RecvSide.BrokerDisconnected` | client/lib/src/ClientImpl.cpp:946-984 | receptions survive only with a session to keep |
| `Reception.RecvSide.BrokerConnected` | client/lib/src/ClientImpl.cpp:893-939 | step for CONNACK |
| `Topics.MatcherIsLevelMatch` | client/lib/src/op/RecvOp.cpp:27-76 | for every filter and topic the matcher is the level-wise match of section 4.7.1 of MQTT Version 5.0, except for exactly three filter tails facing an empty last level |
| `Topics.MatcherExactOnFullTopics` | client/lib/src/op/RecvOp.cpp:27-76 | on topics that do not end with a separator the two agree for every filter |
| `Topics.MatcherMissesEmptyLastLevel` | client/lib/src/op/RecvOp.cpp:33-35 | "a/+" covers "a/" but is not matched |
| `Topics.PositionsAreLevels` | client/lib/src/op/Op.cpp:246-309 | the character-wise conditions on wildcards are equivalent to the level-wise grammar |
| `Topics.IsSharedTopicFilter` | client/lib/src/op/Op.cpp:170-186 | recognises exactly the "$share/" prefix |
| `Topics.VerifyShareName` | client/lib/src/op/Op.cpp:217-242 | accepts exactly a plain non-empty share name followed by a non-empty filter |
| `Topics.ScanWildcards` | client/lib/src/op/Op.cpp:246-311 | the single pass accepts exactly well-placed wildcards that the broker permits |
| `Topics.VerifySubFilter` | client/lib/src/op/Op.cpp:195-318 | accepts a filter if and only if it satisfies the grammar of sections 4.7.1 and 4.8.2 of MQTT Version 5.0 and the broker permits the forms used |
| `Framing.ParseAppend` | client/lib/src/ClientImpl.cpp:93-149 | parsing a longer input gives the packets of its first part and then those of the leftover joined with the rest; a failure is final |
| `Framing.RestIsIncompleteTail` | client/lib/src/ClientImpl.cpp:101-135 | what is left is a tail of the input that starts no complete packet |
| `Framing.FailsIff` | client/lib/src/ClientImpl.cpp:101-135 | parsing fails if and only if what follows the last packet taken starts with a length that continues in its fourth byte, a packet above the maximum size, an unknown header, or a complete packet that does not parse |
| `Framing.TakenIff` | client/lib/src/ClientImpl.cpp:101-135 | a written packet is taken if and only if it is within the maximum size, of a known type and parses; otherwise nothing is dispatched and the connection fails |
| `Framing.EndlessLengthFails` | client/lib/src/ClientImpl.cpp:106-116 | a length field whose fourth byte still continues fails |
| `Framing.StreamRoundTrip` | client/lib/src/ClientImpl.cpp:93-149 | a stream of acceptable packets is parsed back into exactly those packets |
| `Framing.LengthRoundTrip` | client/lib/src/ClientImpl.cpp:106-116 | a length written as a variable byte integer is read back |
| `Framing.ReadLengthIs` | client/lib/src/ClientImpl.cpp:106-116 | a length is read exactly from a complete field of at most four bytes, with seven bits per byte and the first worth least |
| `Framing.Receiver.ProcessData` | client/lib/src/ClientImpl.cpp:74-150 | the loop dispatches exactly the packets at the front and consumes exactly their bytes, or everything on a protocol error |
| `Framing.Session.OnRead` | client/app/common/TcpSession.cpp:82-107 | one read keeps frames and carry-over buffer in step with the stream read so far |
| `Framing.Session.ReadAll` | client/app/common/TcpSession.cpp:66-112 | however a stream is cut into reads, the frames, the failure and the leftover are those of one pass over the whole |
| `Timers.TickSplits` | client/lib/src/TimerMgr.cpp:55-86 | ticking twice leaves the same table and makes the same callbacks as ticking once by the sum |
| `Timers.WaitIsTight` | client/lib/src/TimerMgr.cpp:88-112 | a tick shorter than the announced wait makes no callback, a tick of exactly the wait makes one if a timer is due then |
| `Timers.ArmedTicks` | client/lib/src/TimerMgr.cpp:55-86 | a timer in use, armed and not suspended calls back and is disarmed once its time is up, and counts down before |
| `Timers.SleepingKeeps` | client/lib/src/TimerMgr.cpp:55-112 | a free, disarmed or suspended one keeps its time, and callbacks and waits are those of the table without it |
| `Timers.TimerMgr.AllocTimer` | client/lib/src/TimerMgr.cpp:19-53 | hands out the first free slot or grows the table, never a slot in use; the counter is the number of slots in use and the "should not happen" branch is dead |
| `Timers.TimerMgr.FreeTimer` | client/lib/src/TimerMgr.cpp:126-138 | blanks the slot |
| `Timers.TimerMgr.TimerWait` | client/lib/src/TimerMgr.cpp:140-153 | arms the slot, leaving its suspension as it was |
| `Timers.TimerMgr.TimerCancel` | client/lib/src/TimerMgr.cpp:155-167 | disarms the slot, leaving its suspension as it was |
| `Timers.TimerMgr.Tick` | client/lib/src/TimerMgr.cpp:55-86 | counts active timers down and returns the callbacks of the expired ones in slot order |
| `Timers.TimerMgr.GetMinWait` | client/lib/src/TimerMgr.cpp:88-112 | the smallest timeout of an active timer, capped; 0 only if none is active below the cap or one is due at once |
| `KeepAlive.SilenceIsDetected` | client/lib/src/op/KeepAliveOp.cpp:99-147 | a client still connected received a packet less than the period plus the response timeout ago, if it ever did |
| `KeepAlive.PingTimeoutIff` | client/lib/src/op/KeepAliveOp.cpp:129-147 | in every run the connection is up if and only if no ping has been unanswered for the response timeout, whatever else is sent or received |
| `KeepAlive.UnansweredPingEnds` | client/lib/src/op/KeepAliveOp.cpp:99-147 | from a moment at which a ping is unanswered, every run without PINGRESP ends the connection within the response timeout |
| `KeepAlive.KeepAliveOff` | client/lib/src/op/KeepAliveOp.cpp:109-127 | with a period of 0 the operation sends nothing and never ends the connection |
| `KeepAlive.UnansweredIsDetected` | client/lib/src/op/KeepAliveOp.cpp:99-147 | a client still connected that never received anything connected, or sent a packet other than a ping, less than the period plus the response timeout ago |
| `KeepAlive.SendingHidesSilence` | client/lib/src/op/KeepAliveOp.cpp:99-127 | a client that keeps sending never pings and stays connected for any length of time to a broker that never answers |
| `KeepAlive.NeverQuietIff` | client/lib/src/op/KeepAliveOp.cpp:109-139 | in every run gaps between client packets keep to the period if and only if the response timeout is at most the period |
| `KeepAlive.SilenceUnbounded` | client/lib/src/op/KeepAliveOp.cpp:129-133 | with a larger response timeout the client can stay connected and silent for any length of time |
| `KeepAlive.LateRunIsLate` | client/lib/src/op/KeepAliveOp.cpp:129-139 | the shortest such run: packets at 0, K and 3K |
| `KeepAlive.MineInOrder` | client/lib/src/TimerMgr.cpp:66-85 | of the callbacks of one tick those of the keep-alive operation come in the order ping, reception, response |
| `KeepAlive.WaitAllowsTick` | client/lib/src/TimerMgr.cpp:88-112 | ticks within the announced wait are those of the timed results |
| `KeepAlive.KeepAliveOp.constructor` | client/lib/src/op/KeepAliveOp.cpp:27-38 | three slots in order, ping timer armed |
| `KeepAlive.KeepAliveOp.SendMessage` | client/lib/src/op/KeepAliveOp.cpp:40-43 | every packet sent re-arms the ping timer |
| `KeepAlive.KeepAliveOp.HandlePingresp` | client/lib/src/op/KeepAliveOp.cpp:45-50 | step for PINGRESP |
| `KeepAlive.KeepAliveOp.HandleOther` | client/lib/src/op/KeepAliveOp.cpp:99-102 | step for any other packet |
| `KeepAlive.KeepAliveOp.SendPingMessage` | client/lib/src/op/KeepAliveOp.cpp:129-139 | no second ping while one is unanswered |
| `KeepAlive.KeepAliveOp.PingTimeoutInternal` | client/lib/src/op/KeepAliveOp.cpp:141-147 | DISCONNECT is sent and the connection ends |
| `KeepAlive.KeepAliveOp.TickMs` | client/lib/src/TimerMgr.cpp:55-86 | a tick of the table drives the operation exactly as the timed machine says |

## Left out

- `SendOp` and `RecvOp` objects are records in their client's list, identified by a submission number or position; pointers, handles and object pools are not modelled.
- What happens after the library dereferences an entry that is gone while it ends an old session (client/lib/src/ClientImpl.cpp:930-938); the model reports the fault and stops.
- A resend that fails because the new connection allows only smaller packets, which would erase from the queue during the loop over it.
- Identifiers used by subscribe and unsubscribe operations, which share the pool.
- Publish response timers are inputs that may occur whenever the client is connected; their suspension over a reconnection is not modelled.
- Packet identifier 0 in incoming PUBLISH and PUBREL packets, which the protocol forbids.
- Topic aliases on either side, and the fields and properties inside packets.
- The encoding of the remaining length is taken as 1 to 4 bytes of 7 bits each; the generated protocol code is not part of this model.
- Several callbacks of one tick of which an earlier one destroys the operation of a later one; the keep-alive operation is not freed after its connection ends.
- CONNECT, AUTH, DISCONNECT, SUBSCRIBE and UNSUBSCRIBE operations, session-expiry arithmetic, the C interface, applications, sockets and logging: long but with little shared state.
