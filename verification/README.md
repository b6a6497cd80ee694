# A verified model of the ROS bridge

The server lets WebSocket clients use ROS: they publish and subscribe to topics, call and
offer services, and send or serve action goals, in the rosbridge protocol. This project models
the stateful core of that server in Dafny 4.11 and proves what the rest of the server relies
on. `dafny verify dfyconfig.toml` checks it.

| part | files |
|---|---|
| Outgoing queues: two bounded lanes per client, eviction, closing | `Outgoing`, `OutgoingRuns`, `OutgoingDelivery`, `OutgoingChannel` |
| Encoding pool: receivers, permits, blocking encoders, notifications | `EncodingPool`, `EncodingProgress`, `EncodingDelivery` |
| Incoming scheduler: per-client queues behind one ready queue | `Incoming`, `IncomingQueue` |
| Wire format: chunks, PNG sizes, fragments, JSON and CBOR values | `Utf8`, `Chunking`, `Fragments`, `FragmentRoundTrip`, `FragmentOutcomes`, `FragmentDecoder`, `Values` |
| ROS messages: schema-directed reading and writing | `Messages`, `MessageLoops`, `MessageRoundTrip`, `MessageWriting`, `MessageAgreement` |
| WebSocket session: reader, writer and heartbeat sharing one sink | `WebSocketSession`, `WebSocketWire` |
| Parameter requests: fan-out, fan-in, deadlines, answers | `Parameters`, `ParameterRuns`, `ParameterCalls`, `ParameterAnswers`, `ParameterNames`, `ParameterApi` |
| Throttled topic delivery | `Delivery`, `DeliveryRules`, `DeliveryRuns`, `BridgeDeliveries` |
| The bridge: topics, services, goals, action servers, disconnects, ticks | `Bridge*` on the contract in `Backend` |

How the parts are written:

- Where the source changes an object step by step there is a class (`OutgoingChannel.Channel`,
  `IncomingQueue.Queue`, `FragmentDecoder.Decoder`, `ParameterApi.Api`, `BridgeObject.Bridge`) with
  the source's fields. Each of its methods is proved equal to a function on the value of those
  fields, and the theorems are about that function; when an operation succeeds is in `BridgeSuccess`, what its clients are told in `BridgeScripts` and
  `BridgeCauses`, what ROS is asked to do in `BridgeActs`, what becomes of the records in `BridgeEffects`
  and `BridgeOutcomes`, and what undoes it in `BridgeExchanges`. Loops over a `HashMap` pick elements in
  any order.
- Tasks that interleave (`EncodingPool`, `WebSocketSession`) are state machines whose steps are the
  stretches between two awaits; theorems hold for every sequence of steps.
- The ROS backend is `Backend.Ros`: a function `fate` decides each fallible call, so a statement for
  every `fate` covers every failure. A response consumes its native request only when it was sent;
  destroying an entity drops its requests. `did` records what the backend was made to do towards ROS.
- The bridge runs as a sequence of moves (`BridgeMoves.Move`): commands, backend events, timeouts,
  and the single steps of a disconnect. `BridgeRuns.RunsInvariant` puts all its invariants together.
- Time is a number handed to each operation, JSON text and codecs are functions with the laws they
  are known to have, and a goal UUID is fresh when it is made.

What the code does where one might expect otherwise:

- A cancel request with a zero UUID and a nonzero time also cancels a live goal whose own UUID is all
  zero, however late it was accepted; this is the only deviation from the policy of the ROS 2 design
  article "Actions" (`BridgeServerGoals.CancelledByPolicyExactly`, `ZeroGoalIsCancelledAnyway`).
- The CBOR form of a message decodes to its JSON form except for octet sequences with an element of 128
  or more, since tag 72 is signed (`MessageAgreement.ObjectAgreement`, `HighOctetDisagrees`).
- A poll enters every native request it takes into the backend's set before any event is handled. One
  that then fails, over an unreadable entity or over a round of the parameter worker that is aborted,
  loses its events: nothing expires, and what it took stays outstanding with no record waiting for it
  (`BridgeTicks.FailedPollKeepsOverdue`, `BridgePolls.RequestCanBeAbandoned`). Every outstanding request
  is waited for by exactly one record if and only if none was abandoned like this
  (`BridgeRequests.ConservedIff`); polls that succeed abandon none (`BridgePolls.TickHandlesAll`). A
  failed tick ends the worker (src/server.rs:129), so only its last poll can abandon requests
  (`BridgePolls.WorkAbandonsLast`).
- A client that failed stays in the set of failed clients through its disconnect, until the next tick
  empties that set (`BridgeLeaving.DisconnectLeavesTheRest` says so: the set is unchanged).
- A cancel request whose response cannot be sent leaves its goals marked as cancelling without telling
  the client: a listening client is told exactly if the response went out
  (`BridgeFailures.ToldIffAnswered`, and `CancelCanGoUntold` for such a goal).
- Advertising a service or an action under a new type loses the old one exactly if the new one cannot
  be created (`BridgeFailures.RetypingLosesServiceIff`, `RetypingLosesActionIff`; `ServiceCanBeLost`
  and `ActionCanBeLost` are such cases).
- A list of parameter names has no room for an error, and neither has an existence: a list that was cut
  short by a timeout or a failed call looks like any other. It covers every node exactly if its calls
  could be planned and were all made and none was waited for (`ParameterNames.NamesCoverIff`;
  `ListCanBeCutShort` is a run with a silent node).
- A finished parameter request stays outstanding exactly if its response could not be sent
  (`ParameterAnswers.OutstandingIffUnsent`, `LostForever`, and `AnswerCanBeLost` for such a run). A
  delete is left waiting for nothing exactly if its second client cannot be created
  (`DeleteWaitsForNothingIff`). Requests behind an event that aborts a round are outstanding, with no
  group, and never finished (`ParameterRuns.BehindAnAbort`, `NotAcceptedIsUntouched`). Each of these
  failures aborts its round or, where the request was just being accepted, discards the request; an
  aborted round fails the poll and ends the worker, so "for good" is about what it leaves behind, and
  no later round reaches the deadline of such a delete. The theorems about runs do not rely on this:
  they hold of every continuation.
- Dropping a receiver clears its lanes without resetting the byte counters
  (`OutgoingRuns.DropKeepsCountersIff`); they are exact while the receiver lives.

## Model

| member | source | states |
|---|---|---|
| `OutgoingRuns.TopicSendRefinesEviction` | src/outgoing.rs:160-196 | A topic send gives up exactly the k oldest batches of its topic for the least k that makes room, touches no other batch, adds the new batch exactly when it then fits, and for a positive limit leaves at most that many of the topic; an oversized send evicts nothing |
| `Outgoing.DropOldestExact` | src/outgoing.rs:172-190 | Giving up k batches leaves the topic's later ones and all others, in order, with the bytes accounted for |
| `Outgoing.DropOneMore` | src/outgoing.rs:172-190 | Removing the first batch of the topic k times is giving up its k oldest |
| `OutgoingRuns.EnqueueKeepsValid` | src/outgoing.rs:147-246 | Every send keeps byte counters equal to the lanes' sums, within the limits, and control overflow closes |
| `OutgoingRuns.TakeKeepsValid` | src/outgoing.rs:270-285 | Taking a batch keeps the counters exact and control ahead of topics |
| `OutgoingRuns.FinishKeepsValid` | src/outgoing.rs:286-328 | A completion keeps the counters, and what it delivers is the encoding it was given |
| `OutgoingRuns.StepKeepsBalance` | src/outgoing.rs:147-327 | Accepted topic batches equal queued plus taken plus dropped; taken topic batches are an in-order subsequence, taken control batches a prefix; each batch taken is in hand or has one fate: delivered as it was encoded, which fits; a topic batch that does not, counted as dropped; closing the channel or finding it closed; or given up by its receiver |
| `OutgoingRuns.RunsStayBalanced` | src/outgoing.rs:147-327 | ... over every run of senders, receiver and both drops, in which a fate never changes |
| `OutgoingRuns.StartIsBalanced` | src/outgoing.rs:147-327 | ... from a fresh channel |
| `OutgoingRuns.OpenChannelDelivers` | src/outgoing.rs:286-340 | While the channel is open, every batch taken and not in hand or given up was delivered exactly if its encoding exists and fits; the others are topic batches |
| `OutgoingDelivery.SendOutcome` | src/outgoing.rs:147-246 | What a send answers and does: a closed channel refuses it and stays as it is; a control batch joins its lane exactly if 16 and the bytes allow, and otherwise closes the channel with all that waits; a topic batch is always answered Ok |
| `OutgoingDelivery.TakeHandsOutFirst` | src/outgoing.rs:270-285 | A take hands out the first batch in line, control before topics; only the sender gone and nothing in line is the end |
| `OutgoingDelivery.FinishDeliversIff` | src/outgoing.rs:286-328 | A completion delivers exactly if the channel is open and the encoding exists and fits; otherwise a topic batch is counted as dropped, and a control batch closes the channel and names the reason |
| `OutgoingDelivery.ReceiveReturnsFirst` | src/outgoing.rs:329-340 | A receive returns the frames of the first batch in line whose encoding exists and fits; those before it are topic batches, each counted as dropped; a control batch of no use closes the channel; nothing is returned exactly if all in line are passed over |
| `OutgoingDelivery.ClosedReceives` | src/outgoing.rs:329-340 | On a closed channel a receive changes nothing and tells which side closed it |
| `OutgoingDelivery.GoingAwayCloses` | src/outgoing.rs:256-424 | Either side can go away; the lanes are emptied and no reason is made up |
| `OutgoingRuns.ClosedIsFinal` | src/outgoing.rs:215-267 | No step reopens a closed channel, refills its lanes or rewrites its close reason |
| `OutgoingChannel.Channel.EnqueueTopic` | src/outgoing.rs:160-212 | The in-place topic send has the specified effect |
| `OutgoingChannel.Channel.Evict` | src/outgoing.rs:163-190 | The eviction loop stops at the least number of evictions that makes room |
| `OutgoingChannel.Channel.Enqueue` | src/outgoing.rs:147-246 | The in-place send has the specified effect on either lane |
| `OutgoingChannel.Channel.Take` | src/outgoing.rs:270-285 | The in-place take has the specified effect |
| `OutgoingChannel.Channel.Finish` | src/outgoing.rs:286-328 | The in-place completion has the specified effect |
| `OutgoingChannel.Channel.TryReceive` | src/outgoing.rs:329-340 | The non-blocking receive loop has the specified effect |
| `OutgoingChannel.Channel.ReceiverDropped` | src/outgoing.rs:416-424 | Dropping the receiver empties the lanes and closes the sender |
| `OutgoingRuns.DropKeepsCountersIff` | src/outgoing.rs:416-424 | After the receiver is dropped the byte counters are right only where nothing was queued |
| `EncodingPool.StepKeepsSound` | src/outgoing.rs:341-411 | Every step keeps: a parked receiver with news has a notification stored or on its way; free permits, holders and running jobs add up to the workers; jobs and waiters match |
| `EncodingPool.AllRunsAreSound` | src/outgoing.rs:341-411 | ... over every interleaving from a fresh pool |
| `EncodingPool.JobKeepsItsPermit` | src/outgoing.rs:360-405 | Only the end of a job gives its permit back; cancelling a receiver never does |
| `EncodingPool.OnlyHoldersTake` | src/outgoing.rs:341-380 | A batch leaves a queue through `recv` only with a permit in hand |
| `EncodingProgress.FairSchedulesSettle` | src/outgoing.rs:341-411 | With at least one worker, under every fair schedule of the runtime's own steps, from every sound state, there comes a time from which on nothing changes, every receiver has returned or sleeps with nothing to report, and every permit is free again, even when encoders panic |
| `EncodingProgress.WorkIsBounded` | src/outgoing.rs:341-411 | However those steps are interleaved, only so many of them do anything as the pool is heavy |
| `EncodingProgress.QuietIsAtRest` | src/outgoing.rs:341-411 | When none of them would change anything, no receiver is stuck: no wake-up is lost and no permit stranded |
| `EncodingProgress.CanSettle` | src/outgoing.rs:341-411 | From every sound state some finite run of them brings the pool to rest |
| `EncodingDelivery.ReceiversGetWhatFits` | src/outgoing.rs:341-411 | Over every interleaving, what the calls of `recv` returned is exactly the encodings of the batches taken, each once and in order, but for those that do not fit; a call returns nothing only on a closed channel; while it is open, only a cancelled call loses a batch otherwise |
| `EncodingDelivery.CallsReturn` | src/outgoing.rs:341-411 | Under every fair schedule a call in progress returns the next frames, or nothing because the channel is closed, or sleeps with the queue empty |
| `Incoming.StepKeepsValid` | src/incoming.rs:61-147 | The ready queue lists, once each, exactly the clients with something waiting |
| `Incoming.ReceiveKeepsValid` | src/incoming.rs:125-147 | Both unwraps of `try_recv` are safe, and what is returned is what the first client in line has next |
| `Incoming.ServedInTurn` | src/incoming.rs:61-147 | A client at position p is served by exactly the (p+1)-th receive, whatever happens in between short of shutdown |
| `Incoming.AllSessionsAreOrdered` | src/incoming.rs:70-147 | Each client sees Connect, a prefix of its accepted messages in order, then at most one Disconnect; an early disconnect skips Connect |
| `Incoming.AcceptedIff` | src/incoming.rs:87-104 | In every run a message is accepted exactly if no shutdown came, its client is connected with no disconnect asked since, and fewer than `capacity` of its accepted messages are undelivered; otherwise the answer says which |
| `Incoming.ConnectedIff` | src/incoming.rs:71-86 | A connect is accepted exactly if no shutdown came and the client has no session |
| `Incoming.DrainedMeansDelivered` | src/incoming.rs:125-147 | Once the queue is drained, every accepted message of a session whose disconnect was not asked for has been delivered |
| `Incoming.ClosedIffShutDown` | src/incoming.rs:113-120 | The queue is closed exactly if a shutdown came |
| `IncomingQueue.Queue.TryReceive` | src/incoming.rs:125-147 | The in-place receive has the specified effect |
| `IncomingQueue.Queue.HasPending` | src/incoming.rs:121-124 | Something is pending exactly when the next receive returns a command |
| `IncomingQueue.Queue.MessageClient` | src/incoming.rs:87-104 | The in-place message call has the specified effect and outcome |
| `IncomingQueue.Queue.ConnectClient` | src/incoming.rs:71-86 | The in-place connect call has the specified effect and outcome |
| `IncomingQueue.Queue.DisconnectClient` | src/incoming.rs:105-112 | The in-place disconnect call has the specified effect |
| `Chunking.Split` | src/wire.rs:198-214 | The chunk loop computes the greedy split |
| `Chunking.ChunksAreASplit` | src/wire.rs:198-214 | The chunks are non-empty, at most the limit, cut at character boundaries, and join to the text |
| `Chunking.ChunkingSucceedsIff` | src/wire.rs:198-214 | Splitting succeeds exactly when no character is wider than the limit |
| `Chunking.PiecesAreTexts` | src/wire.rs:198-214 | Every piece is valid UTF-8 (section 3 of RFC 3629) by itself |
| `Chunking.GreedyIsMinimal` | src/wire.rs:198-214 | No split at character boundaries has fewer pieces |
| `Chunking.PngFits` | src/wire.rs:184-189 | The image holds the text, wastes less than a row of it, and is at most three pixels higher than wide |
| `Fragments.DecodeKeepsValid` | src/wire.rs:241-308 | Every stored assembly is incomplete and not empty, counts exactly the bytes it has, stays in its limit, and there are at most 16 |
| `FragmentRoundTrip.PartsAccumulate` | src/wire.rs:241-308 | Until the last missing part arrives, every genuine part is answered with nothing, in any order, with repeats and other traffic, if there is room for one more assembly when the first part arrives |
| `FragmentRoundTrip.LastPartCompletes` | src/wire.rs:290-308 | The last missing part yields exactly the text |
| `FragmentRoundTrip.RoundTrip` | src/wire.rs:168-308 | What `encode` splits, any decoder that holds nothing under the id puts together again to the original value; other assemblies may come and go meanwhile |
| `FragmentOutcomes.EveryEncodingDecodes` | src/wire.rs:168-308 | Whatever an operation and whatever the fragment size, the frames it is encoded in, decoded in order, are answered with that operation at the end and with nothing before, and no assembly is left over; a single frame needs no room |
| `FragmentOutcomes.DecodedIff` | src/wire.rs:241-308 | A message is answered with a value exactly if it carries an operation or the last missing part of one; with nothing exactly if it is of another kind or a part that leaves others missing; an operation leaves the live assemblies alone |
| `FragmentOutcomes.RefusedIff` | src/wire.rs:241-308 | Each error is answered exactly for its cause |
| `FragmentOutcomes.OthersUntouched` | src/wire.rs:241-308 | A message touches no assembly but its own, apart from those that expired |
| `FragmentDecoder.Decoder.DecodeMessage` | src/wire.rs:241-308 | The in-place decoder has the specified effect and result |
| `FragmentDecoder.Encode` | src/wire.rs:192-223 | The fragment loop yields one frame per chunk, numbered |
| `Values.CborRoundTrip` | src/wire.rs:81-133 | `json_value(cbor_value(v)) == v` for every JSON value |
| `Values.CborIsPlain` | src/wire.rs:81-104 | What JSON becomes in CBOR has no tags and no byte strings |
| `Values.DecodesIff` | src/wire.rs:81-133 | `json_value` decodes exactly 64-bit integers, texts as keys, and whole typed arrays of the known tags |
| `Values.LittleEndianRoundTrip` | src/wire.rs:135-166 | Little-endian bytes of a number read back as that number |
| `Values.TwosComplementRoundTrip` | src/wire.rs:135-166 | Signed elements survive their two's complement form |
| `MessageRoundTrip.ObjectRoundTrip` | src/ros/message.rs:207-503 | Writing back what was read from a message of finite values restores it, for every schema and whatever the memory held before |
| `MessageWriting.WritesIff` | src/ros/message.rs:207-272 | A write succeeds exactly if every key is a member and every value given can be written to it; an absent member is no failure and keeps what it held |
| `MessageWriting.PartialRoundTrip` | src/ros/message.rs:207-503 | Writing back any of the fields of a read, in any order, over any memory, restores exactly those members and keeps the rest |
| `MessageWriting.RootIsStamped` | src/ros/message.rs:253-270 | A root header without a stamp gets the current time, and no header is as good as an empty one; a header that is no object is refused |
| `MessageWriting.NowIsTheTime` | src/ros/message.rs:215-216 | "now" stands for the current time |
| `MessageWriting.PositionsAreNames` | src/ros/message.rs:217-228 | A list is the object that gives its values to the members in order, and may not be longer |
| `MessageWriting.OldTimesAreTimes` | src/ros/message.rs:232-240 | secs and nsecs are the old names of sec and nanosec, which count if both are there |
| `MessageWriting.OtherValuesFail` | src/ros/message.rs:229-243 | Nothing else is a value for an object |
| `MessageWriting.WritesTyped` | src/ros/message.rs:274-383 | Whatever is written, numbers stay in range, texts and arrays within their bounds, fixed arrays at their size |
| `MessageWriting.ScalarsWriteIff` | src/ros/message.rs:312-383 | Which values can be written to which kind, and what they become |
| `MessageAgreement.ObjectAgreement` | src/ros/message.rs:385-503 | The CBOR read decodes to the JSON read if and only if no octet sequence anywhere holds an element of 128 or more |
| `MessageAgreement.HighOctetDisagrees` | src/ros/message.rs:437-442 | One octet of 200 in a sequence disagrees |
| `MessageAgreement.UnpackPacked` | src/ros/message.rs:408-431 | Packed bytes are whole elements of section 2.1 of RFC 8746 and unpack one by one |
| `MessageLoops.ReadStruct` | src/ros/message.rs:385-397 | The member loop reads the specified object |
| `MessageLoops.ReadMember` | src/ros/message.rs:398-459 | The element loop reads the specified array forms |
| `MessageLoops.WriteStruct` | src/ros/message.rs:207-272 | The member loop writes over the memory as specified, or fails |
| `MessageLoops.WriteArrayOrValue` | src/ros/message.rs:274-310 | Lengths are checked first, then elements are written as specified |
| `WebSocketSession.StepStaysOrderly` | src/websocket.rs:83-187 | No step of any task puts a frame between two frames of a batch |
| `WebSocketSession.SessionsKeepBatchesWhole` | src/websocket.rs:83-187 | ... in every session |
| `WebSocketSession.BatchIsContiguous` | src/websocket.rs:110-140 | Whatever lies between two frames of a batch belongs to it, in order |
| `WebSocketSession.OnlyTheEndCutsABatch` | src/websocket.rs:110-200 | A batch is cut short only as the last thing before a close frame or the end |
| `WebSocketSession.NoPongNoNextProbe` | src/websocket.rs:141-187 | Without a matching pong no further probe is sent, whatever else is read |
| `WebSocketSession.NextProbeNeedsAnswer` | src/websocket.rs:141-187 | Between two probes of any session the reader read the pong with the first one's payload |
| `WebSocketSession.PingCarriesProbe` | src/websocket.rs:141-187 | A ping on the wire carries the payload of the probe prepared last |
| `WebSocketSession.NextPingNeedsPong` | src/websocket.rs:141-187 | Before a further ping goes out, the pong to each earlier ping was read |
| `WebSocketWire.WireHoldsTheBatches` | src/websocket.rs:132-147 | In every session the frames on the wire are all those of the batches taken, whole and in order, up to where it ended; while the writer waits, all there were are on the wire |
| `WebSocketWire.WhatIsReadIsHandedOn` | src/websocket.rs:90-131 | Whatever well-formed message was read was handed on, in order and once; each refused one gets one status, and nothing else does |
| `WebSocketWire.TimeoutMeansNoPong` | src/websocket.rs:148-186 | A session ends over a missing pong only while the pong to its last probe has not been read |
| `WebSocketWire.PongLetsGoOn` | src/websocket.rs:103-186 | Once it was read, the heartbeat can go on and cannot end the session |
| `WebSocketWire.EndsAre` | src/websocket.rs:89-188 | What ends a session otherwise |
| `WebSocketWire.BatchGetsThrough` | src/websocket.rs:132-147 | In every state of a running session the batch in the writer's hands can be written to its end |
| `ParameterRuns.EventKeepsSound` | src/ros/parameters.rs:71-247 | After each event: counters equal pending calls, every pending call has a live group and its own client, and no request leaks |
| `ParameterRuns.EventsKeepSound` | src/ros/api.rs:272-309 | ... over a whole poll, even one that is aborted |
| `ParameterRuns.FinishIsClean` | src/ros/parameters.rs:15-35 | Finishing a group destroys its clients and nobody else's, and answers its request once |
| `ParameterRuns.ReplyFindsItsGroup` | src/ros/parameters.rs:165-189 | The group of a pending call is there and waits for at least one reply |
| `ParameterRuns.InitiallySound` | src/ros/api.rs:88-121 | A new worker is sound |
| `ParameterRuns.RunsAreSound` | src/ros/api.rs:272-309 | ... and stays so over every run of arriving requests and rounds, aborted or not |
| `ParameterRuns.FinishedExactlyOnce` | src/ros/parameters.rs:15-247 | After every run each accepted request has a live group or was finished exactly once, never both |
| `ParameterRuns.NotAcceptedIsUntouched` | src/ros/api.rs:272-309 | In every run a request that came to a service and was not accepted is outstanding, has no group and was never finished |
| `ParameterRuns.BehindAnAbort` | src/ros/api.rs:274-298 | When an event aborts its round, it is a reply; the requests before it are accepted, and those behind it are left like that |
| `ParameterRuns.DeadlinesAreKept` | src/ros/api.rs:299-307 | After a round that completed at some time, each request with a deadline up to then was finished exactly once |
| `ParameterRuns.ExpiryFinishesOverdue` | src/ros/api.rs:299-307 | A completed expiry round leaves no overdue group |
| `ParameterRuns.ExpiryLeavesOthers` | src/ros/api.rs:299-307 | ... and touches no other group |
| `ParameterCalls.AcceptedWaitsIff` | src/ros/parameters.rs:71-164 | A request calls exactly the planned nodes and waits for them all, until its deadline, if all calls go out and there are any; otherwise it is finished at once, over an error exactly if something failed |
| `ParameterCalls.RoundSetsDeadlines` | src/ros/api.rs:272-309 | Whatever is accepted in a round waits until the round's time plus the timeout |
| `ParameterApi.Api.Finish` | src/ros/parameters.rs:15-70 | The in-place teardown has the specified effect |
| `ParameterApi.Api.Parameter` | src/ros/parameters.rs:71-164 | The in-place fan-out has the specified effect |
| `ParameterApi.Api.Process` | src/ros/api.rs:272-309 | A round is the events in order until one aborts, then a timeout for exactly the groups overdue by then, in some order; it keeps everything sound, and completed leaves nothing overdue |
| `ParameterApi.Api.HandleAll` | src/ros/api.rs:274-298 | The event loop, with its early return, handles the events as specified |
| `ParameterAnswers.ResponsesTell` | src/ros/parameters.rs:36-247 | In every run each response that goes out says exactly what was heard, over an error or not: the names of all replies in their order, whether they are all or not; that a parameter exists exactly if its node sent a value of a known kind; success exactly if its node reported the value, the change or the absence |
| `ParameterNames.NamesCoverIff` | src/ros/parameters.rs:37-247 | In every run the nodes heard for a list of names are the nodes there were exactly if the calls could be planned and were all made and none was waited for when it was finished |
| `ParameterNames.ListCanBeCutShort` | src/ros/api.rs:299-307 | A run in which a list without a silent node's names is sent, with nothing to tell it from a whole one |
| `ParameterAnswers.OutstandingIffUnsent` | src/ros/parameters.rs:15-70 | A finished request stays outstanding exactly if its response could not be sent |
| `ParameterAnswers.LostForever` | src/ros/parameters.rs:15-247 | ... and then for good, whatever follows |
| `ParameterAnswers.AnswerCanBeLost` | src/ros/api.rs:287-295 | A run in which that happens |
| `ParameterAnswers.DeleteWaitsForNothingIff` | src/ros/parameters.rs:171-207 | A delete is left waiting for nothing exactly if its second client cannot be created |
| `Delivery.MergeIgnoresOrder` | src/bridge/mod.rs:52-82 | The merged options are the same in whatever order the registrations are visited |
| `DeliveryRules.MergedGoesFurthest` | src/bridge/mod.rs:52-82 | Together, registrations get the compression that goes furthest, the least throttle and queue length, and the least fragment size of those that have one |
| `DeliveryRules.ArrivalGoesOutIff` | src/bridge/topics.rs:209-231 | An arrival goes out at once exactly if nothing is queued and the client may be served; otherwise the newest that fit are queued |
| `DeliveryRules.TickServesIff` | src/bridge/mod.rs:517-529 | A tick serves a client exactly if something is queued and it may be served, with the oldest message |
| `DeliveryRules.OldestAreDropped` | src/bridge/topics.rs:220-231 | What waits is always the newest arrivals without a gap |
| `DeliveryRuns.DeliveriesAreOrdered` | src/bridge/topics.rs:140-231 | Over any run a client gets at most the one replayed sample, then arrivals in order and none twice, each at least the merged throttle after the one before |
| `DeliveryRuns.PendingStaysBounded` | src/bridge/topics.rs:225-230 | While its registrations stay, a client's queue keeps to the merged length |
| `DeliveryRuns.NothingLostExactlyIfRoom` | src/bridge/topics.rs:220-231 | An arrival costs no message exactly if it goes out at once or the queue has room |
| `BridgeDeliveries.RunsMirror` | src/bridge/topics.rs:103-237 | Over every run of the bridge, the record of a subscribed client and all it hears of the topic are those of a delivery run |
| `BridgeDeliveries.FollowersHearRuns` | src/bridge/topics.rs:103-237 | So, from subscribing on and as long as its output accepts what it is given, through whatever else happens, it hears at most one retained sample and then arrivals in order, none twice, spaced by the merged throttle |
| `BridgeOwnership.MoveOwned` | src/bridge/mod.rs:158-174 | After every move the live ROS entities are the disjoint union of those in the bridge's records; failed operations are rolled back |
| `BridgeOwnership.SendGoalOwned` | src/bridge/actions.rs:47-111 | A goal owns five entities, or none when any of six calls fails |
| `BridgeOwnership.AdvertiseActionOwned` | src/bridge/actions.rs:152-215 | So does an action server, also when it replaces an older one |
| `BridgeOwnership.CallServiceOwned` | src/bridge/services.rs:77-113 | A call owns its client, or none when the request fails |
| `BridgeRequests.MoveComplete` | src/bridge/mod.rs:482-579 | After every move, a poll that fails included, each native request that was handled and is outstanding waits in exactly one forwarded request or one goal, and in no other place; one that was not handled is outstanding as long as its entity lives |
| `BridgeRequests.OutstandingIff` | src/ros/mod.rs:405-406 | So what is outstanding is waited for or abandoned, never both |
| `BridgeRequests.ConservedIff` | src/ros/mod.rs:405-420 | Every outstanding request is waited for by exactly one record if and only if no request was taken, not handled, and has an entity still alive |
| `BridgeRequests.PollComplete` | src/ros/mod.rs:347-425 | Polling makes its requests outstanding and hands them to nobody |
| `BridgeRequests.ServeComplete` | src/bridge/services.rs:187-237 | A request whose handling begins is filed, queued, answered or discarded |
| `BridgeRequests.RemoveServiceComplete` | src/bridge/services.rs:140-149 | Removing a service drops its requests with what waits for them |
| `BridgeRequests.RemoveActionComplete` | src/bridge/actions.rs:217-244 | So does removing an action |
| `BridgeRequests.ActionResultComplete` | src/bridge/actions.rs:283-291 | Draining the waiters ends exactly the requests it answered, however far it gets |
| `BridgeRequests.NextIdIsFree` | src/bridge/services.rs:199-200 | The next id of a service is not in use, although the counter restarts with the service |
| `BridgeRequests.NothingToForget` | src/bridge/mod.rs:667 | Once a client's services are gone no forwarded request of it is left |
| `BridgeRequestIds.RequestIdInjective` | src/bridge/services.rs:200 | Equal request ids come from the same service and count |
| `BridgeServerGoals.MoveSound` | src/bridge/actions.rs:217-438 | Each server goal has a live server with its owner; its status only goes 2, 3, final or 2, final; it has a result exactly when final, and then no waiter |
| `BridgeServerGoals.MoveNumbered` | src/bridge/actions.rs:339-354 | Server goals keep distinct ids, so a client means one goal |
| `BridgeServerGoals.ActionResultSound` | src/bridge/actions.rs:262-296 | A result that is accepted is recorded with its terminal status |
| `BridgeServerGoals.CancelledByPolicyExactly` | src/bridge/actions.rs:382-413 | The goals cancelled are those of the policy, if and only if no live all-zero goal was accepted after the requested time |
| `BridgeServerGoals.ZeroGoalIsCancelledAnyway` | src/bridge/actions.rs:397-411 | A goal that is cancelled against the policy |
| `BridgeServerGoals.ReturnCodeMeaning` | src/bridge/actions.rs:414-422 | What the codes 0, 2 and 3 mean; 1 is never returned |
| `BridgeClientGoals.MoveTracked` | src/bridge/actions.rs:79-150 | Every outstanding request names an active goal and one of its clients; a goal awaits exactly one acceptance until accepted, then exactly one result unless that request failed, and at most one cancellation |
| `BridgeClientGoals.ActionResponseTracked` | src/bridge/mod.rs:419-451 | An action response moves the goal on accordingly |
| `BridgeReplies.MoveFaithful` | src/bridge/mod.rs:380-453 | A final reply closes an open call or goal, under its own owner and id, and one move sends at most one |
| `BridgeReplies.StepAnsweredOnce` | src/bridge/mod.rs:508-557 | No call and no goal is ever replied to twice |
| `BridgeFailures.CommandOpensOrFails` | src/bridge/mod.rs:267-315 | A call or goal command opens exactly one call or goal and says nothing, or opens none and gets exactly one failure |
| `BridgeOwners.MoveConnected` | src/bridge/mod.rs:293-296 | Only connected clients come to own anything |
| `BridgeOwners.LeftConnected` | src/bridge/mod.rs:596-668 | After a disconnect no record mentions the client |
| `BridgeLeaving.DisconnectLeavesTheRest` | src/bridge/mod.rs:596-668 | A disconnect leaves exactly what the other clients have, whatever order its loops run in |
| `BridgeLeaving.LeaveOneTopic` | src/bridge/mod.rs:604-612 | The ignored result of `unadvertise` is never an error |
| `BridgeLeaving.LeaveOneSubscription` | src/bridge/mod.rs:613-621 | Nor that of `unsubscribe` |
| `BridgeLeaving.LeaveOneService` | src/bridge/mod.rs:622-630 | Nor that of `remove_service` |
| `BridgeLeaving.LeaveOneAction` | src/bridge/mod.rs:631-639 | Nor that of `remove_action` |
| `BridgeRuns.DisconnectInvariant` | src/bridge/mod.rs:596-668 | A disconnect keeps every invariant |
| `BridgeRuns.RunsInvariant` | src/bridge/mod.rs:293-668 | All invariants hold after every run of commands, events, timeouts and disconnects |
| `BridgeRuns.InitiallyInvariant` | src/bridge/mod.rs:206-224 | They hold of a new bridge |
| `BridgeOutcomes.FailedHearsNothing` | src/bridge/mod.rs:247-249 | However much is sent, a failed client hears nothing more |
| `BridgeOutcomes.AdvertiseRegisters` | src/bridge/topics.rs:28-72 | Advertising adds exactly one registration, on the topic's one entity; failing, it changes no record, entity or request |
| `BridgeOutcomes.UnadvertiseForgets` | src/bridge/topics.rs:74-101 | It succeeds exactly if it names a registration, takes back exactly those it names, and the entity goes with the last one |
| `BridgeOutcomes.UnadvertiseUndoesAdvertise` | src/bridge/topics.rs:28-101 | Unadvertising a new id restores all records, entities and requests |
| `BridgeOutcomes.SubscribeRegisters` | src/bridge/topics.rs:103-158 | Subscribing adds exactly one registration with its options, disturbs no queue, and sends at most the retained sample, to a client new to the topic |
| `BridgeOutcomes.UnsubscribeForgets` | src/bridge/topics.rs:160-191 | It succeeds exactly if it names a registration, takes back exactly those it names, and the entity goes with the last one |
| `BridgeOutcomes.UnsubscribeUndoesSubscribe` | src/bridge/topics.rs:103-191 | Unsubscribing a new id restores everything but the sample already sent |
| `BridgeExchanges.CallStarts` | src/bridge/services.rs:65-114 | A call that starts is one new record on one new entity; one that does not leaves nothing behind |
| `BridgeExchanges.ReplyUndoesCall` | src/bridge/services.rs:77-113 | The end of a call restores what was before its start, but for one reply under the caller's id |
| `BridgeExchanges.AnswerEndsRequest` | src/bridge/services.rs:151-185 | A client's answer gets through exactly if the request is its own and the backend sends it; then the native request is over, once and for all, and otherwise still waiting |
| `BridgeExchanges.AnswerUndoesForwarding` | src/bridge/services.rs:151-235 | Forwarding files a request under a free id and tells the owner; the answer under that id restores what was before |
| `BridgeExchanges.GoalStarts` | src/bridge/actions.rs:28-111 | A goal that starts is one new record with five new entities, one request and its deadline, which wants feedback if asked to; a second one under an active id is refused |
| `BridgeExchanges.EndUndoesGoal` | src/bridge/actions.rs:28-150 | The end of a goal restores what was before its start, but for one reply and the used UUID |
| `BridgeExchanges.AnswerEndsOrAdvances` | src/bridge/mod.rs:419-451 | An answer ends its goal with exactly one final reply, or takes it one step on without one, and concerns no other goal |
| `BridgeSuccess.ObeysIff` | src/bridge/mod.rs:293-354 | A command succeeds exactly if it is well formed and named, its name is open to the client, and its operation succeeds |
| `BridgeSuccess.OperatesIff` | src/bridge/mod.rs:317-354 | ... which, under the invariants, is said of each of the fifteen operations in terms of the records and of the backend calls it needs |
| `BridgeSuccess.AccessIsChecked` | src/bridge/mod.rs:317-327 | A name that the access rules refuse, to any of the seven operations they concern, is answered with a failure and changes nothing |
| `BridgeSuccess.NamesAreAbsolute` | src/bridge/mod.rs:189-203 | A name is refused exactly if it is empty or has a character that names do not have; a good one is made absolute |
| `BridgeSuccess.TypeIs` | src/bridge/mod.rs:356-378 | A declared type holds unless the graph knows another; an undeclared one is the only one the graph knows |
| `BridgeScripts.MoveFollows` | src/bridge/mod.rs:226-668 | Whatever happens, clients are told exactly what the script of that move says, in order: one failure for a command that cannot be carried out, the retained sample to a new subscriber, a message to its receivers, feedback to the goal it is about, a service answer to its caller, a goal's refusal or result to its client, a new goal, a cancel request or a service request to the server, a failure when time is over, and nothing else |
| `BridgeCauses.AnswersSucceed` | src/bridge/mod.rs:380-418 | The answer to a call takes away that call and its entity and sends its caller exactly one successful reply under its id; the end of its time does the same without success |
| `BridgeCauses.MessagesAreCaused` | src/bridge/mod.rs:226-668 | Over every run each message on the wire was put there by one step, whose script has it; disconnects put nothing there |
| `BridgeCauses.CallRepliesTell` | src/bridge/mod.rs:380-557 | Over every run a caller is told of success exactly if the step that told it was the answer to that very call, and of failure exactly if it was the end of the call's time |
| `BridgeCauses.GoalRepliesTell` | src/bridge/mod.rs:419-516 | Over every run a client is told the status that its goal's result brought, or 6 if the goal was refused or not answered in time; success means the status 4 |
| `BridgeCauses.SubmissionsAreAnnounced` | src/bridge/actions.rs:329-364 | A submission that can be answered, under a new UUID, is one goal more, a native request less, and one notice to the server's owner under the goal's id; a repeated one changes no goal and is not spoken of |
| `BridgeEffects.ActionRequestDone` | src/bridge/actions.rs:311-440 | What becomes of the goals and of the native request when a submission, a request for a result or a cancel request is handled |
| `BridgeEffects.ServiceRequestDone` | src/bridge/services.rs:187-237 | A native request on a service is filed under a free id, for the owner, until now plus the timeout |
| `BridgeEffects.ServiceComes` | src/bridge/services.rs:116-138 | A service that is offered is the client's, of this type, and new unless it was that before; replacing gives up what waits on the old one, and other services are untouched |
| `BridgeEffects.ServiceGoes` | src/bridge/services.rs:140-149 | A service that is withdrawn goes with its entity and what waits on it, and nothing else |
| `BridgeEffects.ActionComes` | src/bridge/actions.rs:152-215 | An action that is offered has a server of the client and this type; unless it was that before, with five new entities and no goal; other actions and their goals are untouched |
| `BridgeEffects.ActionGoes` | src/bridge/actions.rs:217-244 | An action that is withdrawn goes with its entities and goals, and no other |
| `BridgeEffects.GoalStops` | src/bridge/actions.rs:113-131 | A goal told to stop was accepted and not cancelling; it is marked, with one more request out for it |
| `BridgeEffects.ResultIsKept` | src/bridge/actions.rs:262-296 | A result is kept with its status and time exactly if it is the first, final, valid and everybody who waits was answered; otherwise only those answered wait no longer |
| `BridgeEffects.ResultsAreForgotten` | src/bridge/mod.rs:576-579 | A result is forgotten a minute after it came, and nothing else is |
| `BridgeEffects.SampleIsKept` | src/bridge/topics.rs:193-237 | A message becomes its topic's sample exactly if the topic keeps samples, is offered to each client of it, and concerns no other topic |
| `BridgeEffects.RequestExpires` | src/bridge/mod.rs:558-575 | A request nobody answered in time is given up, with its native request |
| `BridgeEffects.DueArePopped` | src/bridge/mod.rs:517-529 | Delivering takes exactly the oldest message from exactly the clients that are due |
| `BridgeActs.MoveActs` | src/bridge/mod.rs:226-668 | Whatever happens, ROS is made to do exactly what the move calls for, in order: publications, requests under the next sequence number, and responses, each on the entity it belongs to and each exactly if its call succeeds |
| `BridgeActs.LeavingDoes` | src/bridge/mod.rs:596-668 | So for the single moves of a disconnect: an accepted goal is asked to stop, and who waits for a result of a removed action is answered |
| `BridgeActs.DrainDoes` | src/bridge/actions.rs:283-291 | A result is sent to those who wait for it, from the last one on, up to the first response that fails |
| `BridgeActs.CancelAnswerTells` | src/bridge/actions.rs:388-427 | The answer to a cancel request lists exactly the goals it cancels, once each and with their times; its code is 0 if there is one or all were meant, 2 if the goal named is unknown, 3 if it is over |
| `BridgeFailures.ToldIffAnswered` | src/bridge/actions.rs:381-438 | The chosen goals are cancelling in any case; a client that listens is told of each exactly if the response was sent |
| `BridgeFailures.CancelCanGoUntold` | src/bridge/actions.rs:392-428 | A goal that is cancelling without its client being told |
| `BridgeFailures.RetypingLosesActionIff` | src/bridge/actions.rs:162-215 | Advertising an action again loses it exactly if the type is new and one of five new entities cannot be created |
| `BridgeTicks.TickLeavesNothingOverdue` | src/bridge/mod.rs:482-594 | After a tick whose poll succeeded, no call, forwarded request or unaccepted goal is overdue |
| `BridgeTicks.FailedPollKeepsOverdue` | src/bridge/mod.rs:483 | After one whose poll failed, records and deadlines are as before, and exactly what the poll had taken is outstanding and abandoned besides |
| `BridgePolls.TickHandlesAll` | src/bridge/mod.rs:483-506 | A tick whose poll succeeded has handled every request it took, and no other |
| `BridgePolls.WorkAbandonsLast` | src/server.rs:105-131 | As long as the worker's loop runs, each outstanding request is waited for by exactly one record; after the failed tick that ends it, this is so exactly if that tick's poll had taken nothing, and what it took is exactly what is abandoned |
| `BridgePolls.RequestCanBeAbandoned` | src/ros/mod.rs:417-421 | A worker whose poll takes a request and then fails because the parameter worker's round is aborted |
| `BridgeTicks.TickKeepsTheRest` | src/bridge/mod.rs:580-593 | A tick disconnects the clients that failed and those found closed, and nobody else |
| `BridgeTicks.OverdueMeansNoWait` | src/bridge/mod.rs:456-480 | With something overdue the wait is zero |
| `BridgeTicks.NoWaitIff` | src/bridge/mod.rs:456-480 | The wait is zero exactly when a deadline has passed or a delivery is due |
| `BridgeTicks.WakesInTime` | src/bridge/mod.rs:456-480 | Nothing comes due before the bridge wakes, at the latest after 100 ms, and if it wakes earlier, something is |
| `BridgeUpkeep.TickDelivers` | src/bridge/mod.rs:517-532 | A tick sends every client that is due the oldest message of its queue and takes it off, and touches no other queue |
| `BridgeUpkeep.TickForgets` | src/bridge/mod.rs:576-579 | After a tick no result is a minute old, and no other was forgotten |
| `BridgeUpkeep.TickIsRun` | src/bridge/mod.rs:482-594 | A tick is a run of moves and disconnects, so whatever holds over runs holds across ticks |
| `BridgeUpkeep.ConnectedIff` | src/bridge/mod.rs:226-229 | In every run a client is connected exactly if it connected and was not disconnected since |
| `BridgeTicks.ShutdownLeavesNothing` | src/bridge/mod.rs:670-675 | After a shutdown the backend holds no entity and no request |
| `BridgeObject.Bridge.MergedOptions` | src/bridge/mod.rs:52-82 | The merged options, whatever the iteration order |
| `BridgeObject.Bridge.Offer` | src/bridge/topics.rs:220-231 | The trimming loop leaves the queue as specified |
| `BridgeObject.Bridge.TopicMessage` | src/bridge/topics.rs:209-236 | Every client of the topic is offered the message; it is sent to those it goes to at once |
| `BridgeObject.Bridge.CreateFive` | src/bridge/actions.rs:47-110 | Five entities or none |
| `BridgeObject.Bridge.RemoveAction` | src/bridge/actions.rs:217-244 | In-place removal as specified, in any order of goals |
| `BridgeObject.Bridge.ActionResult` | src/bridge/actions.rs:262-296 | The draining loop and its early return as specified |
| `BridgeObject.Bridge.MarkCancelled` | src/bridge/actions.rs:392-413 | The loop marks exactly the chosen goals |
| `BridgeObject.Bridge.CancelGoals` | src/bridge/actions.rs:381-438 | In-place cancel request as specified |
| `BridgeObject.Bridge.Command` | src/bridge/mod.rs:293-354 | A command is one move of the model and keeps every invariant |
| `BridgeObject.Bridge.OnMessage` | src/bridge/topics.rs:193-237 | So is a topic message |
| `BridgeObject.Bridge.OnResponse` | src/bridge/mod.rs:380-453 | So is a response |
| `BridgeObject.Bridge.OnRequest` | src/bridge/mod.rs:491-501 | So is a native request, discarded when handling it fails |
| `BridgeObject.Bridge.Disconnect` | src/bridge/mod.rs:596-668 | The loops of `disconnect` take out exactly the client and keep every invariant |
| `BridgeObject.Bridge.Tick` | src/bridge/mod.rs:482-594 | A tick handles what was reported, expires what is overdue, delivers what is due, disconnects exactly the failed and the closed clients, and leaves no request it took unhandled; one whose poll fails only takes requests; every invariant is kept |
| `BridgeObject.Bridge.Shutdown` | src/bridge/mod.rs:670-675 | Afterwards nothing is connected and the backend holds nothing |
| `BridgeObject.Bridge.NextWakeup` | src/bridge/mod.rs:456-480 | The wait is exactly the least of 100 ms, all deadlines and all due deliveries |
| `BridgeLookups.ServedPartIs` | src/bridge/actions.rs:317-323 | The server found for an entity is the only one |
| `BridgeLookups.ActiveGoalIs` | src/bridge/actions.rs:116-120 | The goal a client means is the only one |

## Left out

- The foreign side of ROS (`src/ros/mod.rs`, `src/ros/wait.rs`, `src/ros/graph.rs`): only the backend contract of `src/backend.rs` is kept, and the graph is a parameter of the commands that look at it.
- Sockets, TLS, handshake, the async runtime, signals, command line and configuration files.
- JSON, CBOR, PNG and base64 byte formats: functions with inverse laws. JSON commands arrive parsed; a malformed one is a command that fails before it touches anything.
- Access rules: one verdict per command; the filtering of parameter names in a service response is not modelled.
- Logging, payload previews and log files.
- Floating point: bit patterns with a finite test and abstract widening and narrowing; the square root for PNG sizes is the exact integer one.
- Raw message memory: a typed tree of values, so a failed write leaves no half-written message behind.
- Size estimates of payloads (`src/encoding.rs`): a batch has some size.
- Pongs queued by the WebSocket library itself are not frames this code sends.
- Quality-of-service settings beyond whether a subscription keeps samples for late joiners.
- The discovery replies of rosapi, message definitions, benchmarks and scripts.
- Clock readings within one operation: each operation has one time; in the source a message handler may read the clock once per client.
- What a poll takes and whether it succeeds are given from outside: any set of requests on entities that serve, under numbers never used before; a poll that succeeds reports each of them once. Entities of rosapi are not in the bridge's share of the backend; its parameter services are in `Parameters`.
- The worker's loop in `BridgePolls` has no shutdown command; what that leaves is `BridgeTicks.ShutdownLeavesNothing`.
- The Humble build, whose responses to parameter requests carry no reason.
- The texts of failure replies, and the form they take for a call, a goal or anything else: a failure under the command's id. What clients and ROS hand each other inside messages, requests, answers and feedback is passed on unread; what the bridge makes up itself, or keeps, is `Backend.Content`. The order of the goals in a list of statuses is not kept.
- The close code and reason with which a WebSocket session says goodbye (src/websocket.rs:189-211): what ends a session is modelled, not the frame it ends with.
- BridgeObject.Bridge.Command: expects a new goal's UUID never to have been used before; the source draws a random one.
- MessageRoundTrip.WellFormedSchema: a Time has no member called header, secs or nsecs, and a Header has a stamp, as in the standard packages.
- WebSocketSession.NextProbeNeedsAnswer: payloads count modulo 2^64, and the pong that is read may have been sent for the probe that many probes before.
- Sends, calls and cancellations during a schedule of `EncodingProgress.FairSchedulesSettle`: it says how the runtime settles once they stop.
