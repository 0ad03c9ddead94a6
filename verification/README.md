# Verified model of the agent loop, the framed protocol and the client

The Dafny files here model the parts of the repository that keep promises across many calls: the
agent loop with its message queues and tool batches, the length-prefixed protocol, and the client's
connection, requests and session leases, together with a few small stream algorithms.

* **Agent.** `AgentProtocol` is an automaton over a log of events and host calls. It says what may
  come next (`Allowed`) and what it adds up to (`After`), and does not know how the loop is written.
  `AgentState`, `AgentLoop` and `AgentRuns` are the program: classes with the source's fields, whose
  methods must show each entry allowed before they record it. `PendingMessages` carries a ledger of
  every message ever queued, and `UserHistory` says what the ledger must hold in terms of the calls
  the user has made. `AgentHistory`, `ToolHistory`, `TurnHistory` and `TranscriptHistory` draw the
  documented promises from lawful logs, in terms of functions on logs alone. `ToolScheduling` and
  `ToolBatch` treat every interleaving of a parallel tool batch. `DoubleStart` is a small program
  against the agent.
* **Protocol.** `Framing` is a one-shot reference parser, `FrameDecoding` the incremental decoder over
  arrays, `MessageCodec` the validating codec with CBOR (RFC 8949) and the schema check as parameters.
* **Client.** `Connecting`, `ClientRequests`, `SessionLeases` and `ClientSnapshots`.
* **Streams and overlays.** `RetryingStream`, `ProxyLines`, `ProxyContent`, `CursorQuery`, `Overlays`.

The outside world is a parameter throughout. Providers, tools, hooks and schedulers answer through
functions of a clock that ticks with every await, tools also of the call they answer, and at every
await the user may call into the agent any number of times. Connection and client callbacks may call
back in, nested to any depth.

Several large predicates are guarded by a quantifier over a trivial trigger (`Opened`, `Exposed`,
`Replayed`, `Recalled`, `Stepped`, `Entered`, `Unlocked`, `Looked`, `Credited`, `Remembered`,
`Listened`, `Parsing`, `Heard`): a proof that needs the inside mentions the trigger.

## Where the code falls short of the promise

* A lease release does not compare generations. The account of a session is right exactly as long
  as every release finds its token live, or no token live (`AccountingHolds`);
  `StaleReleaseAdmitsExclusive` makes an exclusive lease beside a shared one that way.
* A lease is stamped when it is created, not when its token is reserved, and a disconnect ends a
  current lease if and only if its session has a count (`Disconnect`).
  `LateLeaseOutlivesDisconnect` makes a lease that survives one; `CurrentLeaseReleasesCleanly` says
  when such leases are harmless.
* A provider stream that yields a second start event leaves the partial message it had in the
  loop's context. `DoubleStartDoubles` is a program in which it does; `StreamAssistantResponse` says
  what the context then holds, `LeftoversCount` that each further start leaves one message, and
  `DoubleStartMisleads` which request follows. In a log, a request is exact if and only if there was
  no second start since the context was installed (`RequestSendsTranscript`); `SingleStreamsAgree` is
  the transcript theorem for streams that start once.
* A tool call that receives a delta after its end event starts from the text "undefined", since its
  collected text was deleted. `LateDeltaCorrupts` is such a call; `TextIsJoined` is the exact
  condition for the text a call holds, `ParsedIsJoined` for the text its arguments were parsed from,
  also after it has ended again.
* A response stream that ends without a terminal event loses its buffered events if nothing visible
  had begun (`UnendedLosesContent`); `UnendedIsWholeIff` is the exact condition.

## Model

| member | source | states |
|---|---|---|
| AgentHistory.RequestsAreAnswered | packages/agent/src/agent-loop.ts:258-295 | at every provider request, each call of each reply of this loop invocation has its result, directly after the reply in call order, and there is no other result |
| AgentHistory.RequestSendsTranscript | packages/agent/src/agent-loop.ts:227-258 | a request carries the installed context and every message_end payload since, and in front of a message that started again what it had been shown as; that is the installed transcript exactly if and only if no response started twice since, and without a replacement the initial context and all payloads of the invocation |
| AgentHistory.AgentEndCarriesRun | packages/agent/src/agent-loop.ts:392 | agent_end reports all message_end payloads of its invocation, or only the failure message when prepareNextTurn threw |
| AgentHistory.LogSummary | packages/agent/src/agent.ts:712-725 | accumulators of the protocol automaton equal functions of the log alone: payloads, delivered tickets, invocations, what the next request sends, restarts, failure |
| AgentHistory.OwedPairs | packages/agent/src/agent-loop.ts:285-288 | a transcript the debt automaton accepts pairs every call with one result in its place, up to the calls still owed |
| AgentHistory.AlwaysSolvent | packages/agent/src/agent-loop.ts:258-295 | at every point of a lawful log the open debts are the calls of the turn under way, and a turn ends with debts only if the run must end |
| AgentHistory.InstalledUnreplaced | packages/agent/src/agent-loop.ts:110-114 | while prepareNextTurn replaces nothing, the installed context is the initial one and all payloads since agent_start |
| TurnHistory.EventGrammar | packages/agent/src/agent-loop.ts:206-393 | at agent_end turn_start and turn_end alternate, at least one turn was completed, and a missing turn_end means both queues had just been found empty |
| TurnHistory.LastTurn | packages/agent/src/types.ts:230-232 | after a terminal reply, an abort seen at turn_end or after preparation, or a stop, nothing more is asked, polled or run until the next agent_start |
| TurnHistory.TurnResults | packages/agent/src/agent-loop.ts:760-802 | results of a turn answer a prefix of the calls in order; a proper prefix, never empty, only when the signal was aborted; a terminal reply has none |
| TurnHistory.FollowUpsComeLast | packages/agent/src/types.ts:262-272 | follow-ups are looked for only directly after steering was found empty |
| TurnHistory.StopComesFirst | packages/agent/src/types.ts:227-237 | once a turn has ended, no queue is polled and no turn begins before the stop hook let the run go on |
| TurnHistory.TurnSummary | packages/agent/src/agent-loop.ts:210-393 | brackets, abort signal, last host call and passed stop hook, read off the log, agree with the automaton |
| ToolHistory.ToolsSettleFirst | packages/agent/src/agent.ts:727-739 | no call is open and no tool id is pending at a result message, a turn_end, an agent_end or a provider request |
| ToolHistory.NeverTogether | packages/agent/src/types.ts:280-287 | while a call executes, no earlier call with a sequential one in between, or at either end, is unfinished |
| ToolHistory.ToolEventsPair | packages/agent/src/agent-loop.ts:813-853 | the k-th start of a batch is call k, and each call ends once; in between it executes once if it passed preflight and never otherwise; it updates only after it began to execute |
| ToolHistory.ToolSummary | packages/agent/src/agent.ts:727-739 | open calls, pending ids, executing calls, flags and mode, read off the log, agree with the automaton, and executions exclude each other |
| TranscriptHistory.OneAgentEnd | packages/agent/src/agent-loop.ts:206-393 | every loop invocation has exactly one agent_end, and nothing of it comes later |
| TranscriptHistory.FirstLook | packages/agent/src/agent.ts:582-589 | a deferred look at steering is the first and only one of its invocation, and comes before the first request; no other invocation has one |
| TranscriptHistory.SingleRequests | packages/agent/src/agent-loop.ts:473-569 | in a log without double starts every request is exact |
| TranscriptHistory.MessagesAlternate | packages/agent/src/agent-loop.ts:473-569 | in a log without double starts messages start and end by turns |
| TranscriptHistory.StartsCarryTranscript | packages/agent/src/agent.ts:497-531 | every loop invocation begins with the context of the first one and everything that ended since; one that takes nothing from a queue is the first since the agent became active |
| TranscriptHistory.RequestsCarryEverything | packages/agent/src/agent-loop.ts:242-258 | a request without a second start or a replacement in its invocation carries that context and every message_end payload of the log |
| TranscriptHistory.LaterFromQueue | packages/agent/src/agent.ts:626-634 | until the agent becomes active again, each loop invocation after one takes its first messages from a queue |
| DoubleStart.DoubleStartDoubles | packages/agent/src/agent-loop.ts:477-536 | a program: a prompt, and a response that starts twice; the context of the next request holds one message more than the transcript |
| TranscriptHistory.DoubleStartMisleads | packages/agent/src/agent-loop.ts:478-483 | after a response that starts its message twice and a steering message, the one request the protocol allows carries the message of the first start in front of the reply |
| AgentLoop.AgentLoop.RunLoop | packages/agent/src/agent-loop.ts:179-393 | every entry the nested loop adds to the log is allowed by the protocol; a completed run has reported agent_end, a thrown one has nothing in flight, newMessages is what ended, and a suspended one has ended as many turns as were asked for |
| AgentLoop.AgentLoop.RunTurn | packages/agent/src/agent-loop.ts:210-378 | one turn from injection to the decision about the next; it goes on only when the hooks were asked and did not end the run, and says whether the model has tool results to see |
| AgentLoop.AgentLoop.AfterTurn | packages/agent/src/agent-loop.ts:292-377 | the exits between turns: abort, stop, empty queues, throwing preparation; each leaves nothing in flight |
| AgentLoop.AgentLoop.AfterTermination | packages/agent/src/agent-loop.ts:303-323 | after a terminating batch the stop hook is asked before the queues are drained; an empty drain ends the run |
| AgentLoop.AgentLoop.AfterPreparation | packages/agent/src/agent-loop.ts:347-377 | an abort gives drained messages back before the end; a terminating drain is refreshed; otherwise the stop hook precedes the steering poll |
| AgentLoop.AgentLoop.PrepareNextTurn | packages/agent/src/agent-loop.ts:324-346 | fails exactly if the hook throws, and then gives back what was drained; a replacement, and nothing else, becomes the context |
| AgentLoop.AgentLoop.AskStop | packages/agent/src/agent-loop.ts:303-308 | the run must end exactly if the hook answered so |
| AgentLoop.AgentLoop.PollTerminating | packages/agent/src/agent-loop.ts:309-318 | steering first, follow-ups only when there is none; the queue is remembered exactly when something was drained |
| AgentLoop.AgentLoop.RefreshTerminatingQueueDrain | packages/agent/src/agent-loop.ts:194-203 | drained messages go back to their queue and both queues are polled afresh |
| AgentLoop.AgentLoop.OpenTurn | packages/agent/src/agent-loop.ts:211-234 | turn_start, refresh and injection; the invocation ends here only if the refresh found nothing |
| AgentLoop.AgentLoop.InjectPending | packages/agent/src/agent-loop.ts:225-234 | each pending message gets its two events and joins context and newMessages in order |
| AgentLoop.AgentLoop.StreamAssistantResponse | packages/agent/src/agent-loop.ts:399-569 | one request sends the context as it is; afterwards the context is what it was, then what restarts left there, then the message the response came to, which alone joins the transcript |
| AgentLoop.AgentLoop.ReadResponse | packages/agent/src/agent-loop.ts:473-569 | the final message as a function of where reading stopped and whether an abort was seen, and what the events read before have left in the context |
| AgentLoop.StartsTwice | packages/agent/src/agent-loop.ts:477-482 | only a provider stream with two start events makes a message start twice |
| AgentLoop.LeftoversCount | packages/agent/src/agent-loop.ts:477-482 | a response leaves one message in the context for each start event after the first |
| AgentLoop.AgentLoop.ReadEvent | packages/agent/src/agent-loop.ts:477-537 | a start adds and leaves behind the partial there was, a delta replaces only an added partial, a terminal event waits for the result and yields it normalized, or its stand-in |
| AgentLoop.AgentLoop.RunToolCall | packages/agent/src/agent-loop.ts:760-799 | one call from start event to result: it is executed exactly once and comes to what its own tool and hook made of it, or is answered with an error |
| AgentLoop.AgentLoop.FinishResponse | packages/agent/src/agent-loop.ts:527-536 | the message takes the place of its partial or the next one; one message_end, and a message_start exactly if there was none |
| AgentLoop.AgentLoop.AnswerCalls | packages/agent/src/agent-loop.ts:272-289 | each result reports what its own call came to in this batch, and all are appended to context and newMessages in order |
| AgentLoop.AgentLoop.FailToolCallsFromTruncatedMessage | packages/agent/src/agent-loop.ts:702-725 | every call of a truncated reply gets an error result in order, none is executed, and the batch does not terminate |
| AgentLoop.AgentLoop.ExecuteToolCallsSequential | packages/agent/src/agent-loop.ts:749-803 | results answer the calls in order, cut short only by an abort; an executed call reports what its own tool and hook made of it, any other an error; the batch terminates if and only if every result asked for it |
| AgentLoop.AgentLoop.ExecuteToolCallsParallel | packages/agent/src/agent-loop.ts:805-872 | as the sequential batch, for every schedule of the launched calls |
| AgentLoop.AgentLoop.LaunchCall | packages/agent/src/agent-loop.ts:817-856 | one launch: start event, preflight, and the dependencies the wave rule asks for, while earlier calls go on |
| AgentLoop.AgentLoop.FinishCalls | packages/agent/src/agent-loop.ts:859 | every launched call is done in the end, whatever the schedule, and outcome k is what the tool and hook of call k made of it, or an error if it was not executed |
| AgentLoop.AgentLoop.ReportAll | packages/agent/src/agent-loop.ts:860-866 | results are reported in call order once nothing runs |
| AgentLoop.AgentLoop.PrepareToolCall | packages/agent/src/agent-loop.ts:956-1040 | a call passes exactly if it is complete, known, valid, not blocked, and no abort was seen after the hook; a call that passes cannot end unexecuted |
| AgentLoop.AgentLoop.GetSteeringMessages | packages/agent/src/agent.ts:582-589 | steering is polled, except for the first look of an invocation that defers it, which takes nothing; the loop holds what was drained and remembers the clear generation |
| AgentLoop.AgentLoop.GetFollowUpMessages | packages/agent/src/agent.ts:590-593 | as for steering, for the other queue |
| AgentLoop.AgentLoop.RunAgentLoop | packages/agent/src/agent-loop.ts:102-125 | prompts are injected in the first turn, each once and in order, before the loop runs; a suspended invocation has ended as many turns as were asked for |
| AgentState.Host.IdleSettles | packages/agent/src/agent.ts:137-181 | with no run under way, what the user queued after the last clear and was not injected is queued, in order; what was queued before it and was not injected is dropped, and nothing else is |
| AgentRuns.IdleAgentConserves | packages/agent/src/agent.ts:582-602 | between runs the queue holds, in order, exactly what the user has queued since the last clear and no message_end carries; injected positions come before all of those, and exactly what a clear reached before its injection is dropped |
| AgentRuns.InjectedAsQueued | packages/agent/src/agent.ts:582-602 | at any time, a message_end that carries a ticket carries the message the user queued at that position |
| AgentRuns.StateFollowsLog | packages/agent/src/agent.ts:712-739 | the transcript is the initial one and every message_end payload, and the pending ids are those of open calls |
| AgentRuns.SingleStreamsAgree | packages/agent/src/agent-loop.ts:473-569 | if no provider stream has a second start event, every request carries the installed context and exactly what ended since; without a replacement that is the initial transcript and every message_end before the request; messages start and end by turns |
| AgentState.Agent.Emit | packages/agent/src/agent.ts:712-755 | an event is reduced into the state before anyone else runs, and only if the protocol allows it |
| AgentState.Agent.Act | packages/agent/src/agent.ts:315-365 | a user call changes queues, modes and flags as stated, and nothing the loop owns, and joins the history of user calls |
| AgentState.Agent.Await | packages/agent/src/agent.ts:752-754 | at an await the user makes the calls the environment answers with, in that order, and nothing else happens |
| UserHistory.TracedAct | packages/agent/src/agent.ts:137-181 | what was queued, what the last clear reached, the clear generation and the mode remain functions of the calls the user has made |
| UserHistory.AttendedBetween | packages/agent/src/agent.ts:315-365 | between two moments in which the user acts in awaits only, the history grows by exactly the answers given there |
| AgentState.Agent.GiveBack | packages/agent/src/agent.ts:594-602 | restored messages are queued again, or dropped if their queue was cleared meanwhile |
| AgentState.Host.TakenNext | packages/agent/src/agent.ts:158-171 | a drain for a poll or a run keeps state and observation in agreement |
| AgentState.Host.RestoredNext | packages/agent/src/agent.ts:594-602 | a restore keeps state and observation in agreement |
| AgentRuns.RunTask | packages/agent/src/agent.ts:497-531 | one loop invocation, begun with the agent_start its prompts, queue or continuation call for; the transcript grows by what ended in it, which the prompts, or what was taken from the queue, lead; a suspended one has ended as many turns as were asked for |
| AgentRuns.RunWithLifecycle | packages/agent/src/agent.ts:606-640 | a run is its activation, the agent_start it was asked for, whose messages follow the transcript, and invocations that take from a queue; it ends idle with no pending tool ids; after a completed run queued messages remain only when aborted, suppressed, or after a terminal error or abort; observation stops only with the budget used up |
| AgentRuns.RunAndDrain | packages/agent/src/agent.ts:626-634 | the invocation asked for first, its messages joining the transcript; each later agent_start takes its messages from a queue; it goes on while queued messages may be drained, until the budget is used up |
| AgentRuns.HandleRunFailure | packages/agent/src/agent.ts:679-695 | a failed run is reported by exactly these four events, whose message says whether it was aborted |
| AgentRuns.Prompt | packages/agent/src/agent.ts:390-398 | refused exactly while a run is active, then without effect; otherwise the prompt messages follow the old transcript, in a run from idle to idle in which the user acted in the awaits only |
| AgentRuns.Continue | packages/agent/src/agent.ts:442-479 | refused when busy, without messages, or after a reply with both queues empty; those are the only refusals and change nothing; otherwise the run begins with what was queued or with the transcript alone |
| AgentRuns.ContinueWithQueuedMessages | packages/agent/src/agent.ts:405-435 | runs whenever the agent is free and something is queued, and then begins with it, steering before follow-ups |
| PendingMessages.PendingMessageQueue.Drain | packages/agent/src/agent.ts:158-171 | takes all messages or the first, as the mode says, and returns what is then in flight |
| PendingMessages.PendingMessageQueue.GiveBack | packages/agent/src/agent.ts:594-602 | prepends what was drained unless a clear has intervened |
| PendingMessages.Ledger.DeliverSound | packages/agent/src/agent.ts:137-181 | injecting a message keeps conservation and FIFO order |
| PendingMessages.Ledger.RequeueSound | packages/agent/src/agent.ts:173-175 | giving messages back keeps conservation and FIFO order when no clear intervened |
| PendingMessages.Ledger.DiscardSound | packages/agent/src/agent.ts:594-602 | dropping messages drained before a clear keeps conservation |
| PendingMessages.Ledger.ClearSound | packages/agent/src/agent.ts:177-180 | a clear drops what is queued, and only that; what is in flight becomes stale |
| PendingMessages.QueueState.DrainOk | packages/agent/src/agent.ts:158-171 | what is in flight after a drain is the front of the queue, in order |
| PendingMessages.QueueState.RestoreOk | packages/agent/src/agent.ts:594-602 | nothing is in flight after a restore, cleared or not |
| ToolScheduling.WaveRule | packages/agent/src/agent-loop.ts:813-856 | call i must finish before call j begins if and only if i < j and some call from i to j is sequential |
| ToolScheduling.SequentialAlone | packages/agent/src/agent-loop.ts:813-856 | in no reachable schedule does a sequential call run beside another |
| ToolScheduling.NoBarrierOverlap | packages/agent/src/agent-loop.ts:813-856 | two calls with no sequential call around or between them can run at the same time |
| ToolScheduling.BarrierHolds | packages/agent/src/agent-loop.ts:823-828 | behind a barrier nothing begins before everything in front has finished |
| ToolScheduling.Reachable | packages/agent/src/agent-loop.ts:813-856 | in every reachable schedule the dependency graph is the one the wave rule describes, and nothing has begun before what it waits for |
| ToolScheduling.Progress | packages/agent/src/agent-loop.ts:830-853 | while a launched call is unfinished some call can move |
| ToolScheduling.CanComplete | packages/agent/src/agent-loop.ts:859 | every partial schedule can be continued until all calls are done |
| ToolBatch.AgreeBegun | packages/agent/src/agent-loop.ts:830-841 | a call whose awaited calls have settled is one the protocol lets execute |
| ToolBatch.AgreeFinished | packages/agent/src/agent-loop.ts:923-925 | when all are done nothing runs, and the batch terminates exactly if every call asked for it |
| Framing.HeaderRoundTrip | packages/protocol/src/framing.ts:31-37 | the four header bytes of a length give it back |
| Framing.EncodeParseRoundTrip | packages/protocol/src/framing.ts:28-39 | parsing the frames of payloads within the limit gives the payloads back, with nothing left |
| Framing.ParseEncodeRoundTrip | packages/protocol/src/framing.ts:73-144 | a stream is the frames of what was parsed followed by what is left |
| Framing.WholeFramesIff | packages/protocol/src/framing.ts:146-153 | nothing is left exactly when the bytes are whole frames within the limit |
| Framing.ParseResumes | packages/protocol/src/framing.ts:73-144 | parsing what was left together with what comes next continues the parse of the whole |
| FrameDecoding.EncodeFrame | packages/protocol/src/framing.ts:28-39 | the array holds the frame of the payload; only an oversized payload throws |
| FrameDecoding.AssertCompleteFrame | packages/protocol/src/framing.ts:42-53 | returns exactly when the bytes are one frame within a valid limit |
| FrameDecoding.FrameDecoder.Push | packages/protocol/src/framing.ts:73-144 | returns the frames of a one-shot parse of the pending bytes and the chunk, fails exactly on an oversized header, and keeps what that parse leaves |
| FrameDecoding.FrameDecoder.End | packages/protocol/src/framing.ts:146-153 | succeeds exactly when open with nothing pending |
| FrameDecoding.FrameDecoder.BufferBound | packages/protocol/src/framing.ts:105-141 | between pushes every block but the last is full, space is within the expected length, and at most 65535 bytes are unused |
| MessageCodec.ChunkingInvariance | packages/protocol/src/codec.ts:102-115 | for any chunking the messages, the failure and the pending bytes are those of one parse of all bytes; before a failure a prefix was received |
| MessageCodec.EndToEndRoundTrip | packages/protocol/src/codec.ts:60-126 | any re-chunking of the frames of messages that fit is decoded to exactly those messages, with nothing pending |
| MessageCodec.EncodeProtocolMessage | packages/protocol/src/codec.ts:60-76 | returns the frame of the encoding exactly when it exists and fits the limit |
| MessageCodec.ValidatedMessageDecoder.Push | packages/protocol/src/codec.ts:102-115 | all frames of the chunk decoded, or a latched failure |
| MessageCodec.ValidatedMessageDecoder.End | packages/protocol/src/codec.ts:117-125 | succeeds exactly when nothing failed and nothing is pending |
| MessageCodec.ReceiveAll | packages/protocol/src/codec.ts:88-126 | feeding chunks until one fails receives what the reference receives |
| Connecting.GrammarExtends | packages/client/src/connection.ts:67-90 | a notification extends a sequence of the language (connecting connected? disconnected)* exactly if it may follow the last one |
| Connecting.Run | packages/client/src/connection.ts:67-239 | for any calls with any nesting of callbacks: notifications in the language, all handshakes settled when disconnected, each transport handed over current, closed or ended |
| Connecting.Connection.Connect | packages/client/src/connection.ts:67-91 | rejected without effect unless disconnected; otherwise a new id, announced |
| Connecting.Connection.TransportOpened | packages/client/src/connection.ts:120-144 | a transport is adopted by its own waiting attempt and closed otherwise; an attempt gets one at most |
| Connecting.Connection.HandleData | packages/client/src/connection.ts:146-164 | data of an attempt that is not current changes nothing; data before the hello, or undecodable data, ends the connection; undisturbed, every message of a chunk is handed on in order |
| Connecting.Connection.HandleMessage | packages/client/src/connection.ts:166-208 | the first message settles the handshake; anything but a hello on an opened transport, and a handshake message later, ends the connection |
| Connecting.Connection.FinishHandshake | packages/client/src/connection.ts:180-201 | the promise is settled whatever callbacks do; undisturbed it resolves, after the change was announced |
| Connecting.Connection.FailAndClose | packages/client/src/connection.ts:222-235 | no effect when disconnected; otherwise the promise is settled, the end announced and the transport closed |
| Connecting.Connection.HandleClose | packages/client/src/connection.ts:210-220 | an end reported by the current transport settles and announces; by any other, changes nothing |
| Connecting.Connection.HandleError | packages/client/src/connection.ts:85-87 | an error reported by the current transport ends the connection and closes it; by any other, changes nothing |
| ClientRequests.Run | packages/client/src/client.ts:190-341 | for any calls with any nesting of callbacks: each request is pending or settled, and none is pending without a connection or after disposal |
| ClientRequests.PiClient.Request | packages/client/src/client.ts:190-208 | a new id exactly when connected and not disposed; an encodable request reaches the transport, and one that cannot be encoded or sent is settled |
| ClientRequests.PiClient.HandleResponse | packages/client/src/client.ts:295-320 | a response resolves its request exactly with a result of the same command and rejects it otherwise; a stray or mismatched one rejects all |
| ClientRequests.PiClient.FailConnection | packages/client/src/client.ts:322-341 | what was pending is rejected before listeners are told |
| ClientRequests.PiClient.Dispose | packages/client/src/client.ts:343-354 | everything pending is rejected and nothing becomes pending again |
| SessionLeases.AccountingHolds | packages/client/src/client.ts:382-408 | over any run the count equals the live tokens and an exclusive token is alone, at every point, if and only if each release finds its token live or no token live |
| SessionLeases.Book.ReleaseKeepsAccount | packages/client/src/client.ts:396-401 | a release keeps the account if and only if its token is live or nothing is |
| SessionLeases.Book.ReserveKeepsAccount | packages/client/src/client.ts:382-394 | a granted reservation keeps the account |
| SessionLeases.Book.InvalidateKeepsAccount | packages/client/src/client.ts:403-408 | an invalidation empties the account, whatever it was |
| SessionLeases.Book.DetachIsLast | packages/client/src/client.ts:238-242 | with a right account a release detaches exactly when its token is the last live one |
| SessionLeases.StaleReleaseBreaksExclusion | packages/client/src/client.ts:396-401 | a release from before an invalidation lets an exclusive lease in beside a live shared one |
| SessionLeases.StaleReleaseAdmitsExclusive | packages/client/src/client.ts:174-177 | the same with the client's tables: a failed acquisition releases its old token, and an exclusive lease is active beside a shared one |
| SessionLeases.LateLeaseOutlivesDisconnect | packages/client/src/client.ts:210-222 | a lease made from a token reserved before a disconnect is not ended by the next one |
| SessionLeases.Disconnect | packages/client/src/client.ts:322-325 | a current lease ends with its connection if and only if its session has a count |
| SessionLeases.InvalidatedForGood | packages/client/src/client.ts:217-224 | a lease stamped before an invalidation of its session is never active afterwards |
| SessionLeases.CurrentLeaseReleasesCleanly | packages/client/src/client.ts:210-222 | a lease created some steps after its reservation releases cleanly if and only if no step invalidated the session or no token is live |
| SessionLeases.LeaseTable.ReserveSessionLease | packages/client/src/client.ts:382-394 | refused exactly on a conflict; otherwise the session gains the token and no other session changes |
| SessionLeases.LeaseTable.ReleaseSessionLease | packages/client/src/client.ts:396-401 | the count drops, the exclusive entry goes with its own token, no other session changes |
| SessionLeases.LeaseTable.InvalidateAllSessionLeases | packages/client/src/client.ts:410-413 | exactly the sessions with a count are invalidated |
| SessionLeases.LeaseTable.CreateSessionLease | packages/client/src/client.ts:210-213 | the lease carries the generation of its creation |
| SessionLeases.SessionLease.BeginRelease | packages/client/src/client.ts:234-253 | which of the five ways a release takes, and its effect on lease and session |
| SessionLeases.SessionLease.FinishRelease | packages/client/src/client.ts:243-268 | a detached lease gives up its token, even when it was invalidated meanwhile; a relinquished one does unless outdated; any other is active again unless outdated |
| ClientSnapshots.ClientState.ApplySessionSnapshot | packages/client/src/state.ts:108-115 | the stored revision is the highest offered since the session was last forgotten; only an older offer is ignored |
| ClientSnapshots.ClientState.ApplyServerSnapshot | packages/client/src/state.ts:100-106 | the server revision is the highest since the last reset; only an older snapshot is ignored |
| ClientSnapshots.ClientState.ApplyResult | packages/client/src/state.ts:77-86 | no result takes a stored session back; a detach keeps everything but the attachment |
| ClientSnapshots.ClientState.ApplyEvent | packages/client/src/state.ts:88-98 | no event but a removal takes a stored session back or away |
| ClientSnapshots.ClientState.ForgetSessionSnapshot | packages/client/src/state.ts:49-53 | the stored snapshot is handed out and every offer forgotten |
| ClientSnapshots.ClientState.RestoreSessionSnapshot | packages/client/src/state.ts:55-57 | a set-aside snapshot returns only where nothing has been stored since |
| ClientSnapshots.HighestIsHighest | packages/client/src/state.ts:108-111 | the reference maximum is one of the offers and bounds all of them |
| RetryingStream.CreateRetryingStream | packages/agent/src/empty-assistant-recovery.ts:50-112 | output and number of requests for every pair of inner streams |
| RetryingStream.RecoversOnce | packages/agent/src/empty-assistant-recovery.ts:50-112 | for streams that end once: the first unchanged unless empty, else the second with only its done annotated, else one error |
| RetryingStream.RelayStream | packages/agent/src/empty-assistant-recovery.ts:57-104 | what one inner stream puts out, and whether it is retried |
| RetryingStream.UnendedIsWholeIff | packages/agent/src/empty-assistant-recovery.ts:92-102 | a stream without a terminal event is passed on whole if and only if it is empty or has begun to show content |
| RetryingStream.UnendedLosesContent | packages/agent/src/empty-assistant-recovery.ts:92-102 | one invisible event and no terminal one: nothing is passed on |
| CursorQuery.ReportsWhatEndsHere | crates/senpi-pty/src/session.rs:351-363 | however the reads cut the stream, a read reports a query exactly when one ends among its bytes |
| CursorQuery.AnswersFirstQuery | crates/senpi-pty/src/session.rs:365-375 | a read is answered exactly when a query ends in it and either it is the first or the consumer has not written |
| CursorQuery.TailIsSuffix | crates/senpi-pty/src/session.rs:358-363 | the tail is the last three bytes of everything read |
| CursorQuery.AnsweredIffQueried | crates/senpi-pty/src/session.rs:365-368 | the initial answer was given exactly when the stream holds a query |
| CursorQuery.Responder.AnswerConptyCursorQuery | crates/senpi-pty/src/session.rs:341-375 | the method is the transition function of the lemmas |
| ProxyLines.ReadAll | packages/agent/src/proxy.ts:186-212 | for every chunking the lines are the newline-ended parts of the text, in order, and the rest has no newline |
| ProxyLines.SplitContinues | packages/agent/src/proxy.ts:196-198 | splitting the leftover with the next chunk continues the split of the whole |
| ProxyLines.SplitSplits | packages/agent/src/proxy.ts:197-198 | a split joins back to the text, and no part holds a newline |
| ProxyContent.Partial.ProcessProxyEvent | packages/agent/src/proxy.ts:243-374 | each text block is the join of its deltas since its last start, each tool call what its deltas and ends make of it; exactly misplaced events are refused |
| ProxyContent.RebuiltStep | packages/agent/src/proxy.ts:243-355 | an accepted event keeps a block in step with the history |
| ProxyContent.CallStep | packages/agent/src/proxy.ts:315-355 | the description of a tool call by its open stretch, its ends and its late deltas follows the program event by event |
| ProxyContent.FinishedCall | packages/agent/src/proxy.ts:341-355 | a tool call that has ended, with no delta after that, is the replacement it was given or the parse of the join of all its deltas |
| ProxyContent.TextIsJoined | packages/agent/src/proxy.ts:325-339 | a tool call holds the join of its deltas if and only if it has not ended or the deltas up to its last end spell "undefined"; its arguments are the parse of what it holds |
| ProxyContent.CallArguments | packages/agent/src/proxy.ts:325-355 | the arguments of a tool call, open or closed, are those of its last replacement unless a delta followed, otherwise the parse of the text that was collected when the last delta came |
| ProxyContent.ParsedIsJoined | packages/agent/src/proxy.ts:325-355 | that text is the join of all deltas if and only if the call had not ended before the last delta, or the deltas up to that end spell "undefined" |
| ProxyContent.LateDeltaCorrupts | packages/agent/src/proxy.ts:325-355 | a delta after the end: "{}" was sent and "undefined}" is parsed |
| Overlays.CurrentModels | packages/ai/src/models.ts:576-584 | each id means its last refreshed entry or its built-in one, in built-in order then order of first appearance, distinct if the built-in ones are |
| Overlays.MergeHeaders | packages/ai/src/models.ts:202-216 | each name up to case (section 5.1 of RFC 9110) means its single last override or what the base had |
| Overlays.ReplaceFirst | packages/ai/src/models.ts:579-581 | replacing the first entry of an id changes what that id means and nothing else |

## Left out

- AgentLoop.AgentLoop.RunLoop: observes a bounded number of turns, and reports `Suspended`, in a valid state, only when that many turns have ended; the bound is arbitrary, but nothing is said about termination.
- AgentRuns.RunAndDrain: likewise for the number of loop invocations.
- FrameDecoding.FrameDecoder.Push: returns frames as values, so it does not say that a frame of one block is the decoder's own array.
- Connecting.Connection.HandleData: does not say that all messages of a chunk reach the connection they came from. The code rechecks only that some connection is up, so after a callback has reconnected the rest of an old chunk is handled by the new one, in the model too.
- Connecting.Connection.Send: rejections that arrive later are separate actions of the run.
- SessionLeases.SessionLease.BeginRelease: attachment, reconciliation and the order of awaits in acquireSession are not modelled; only the accounting is.
- ClientRequests.PiClient.HandleResponse: what a result does to the client's snapshots is a callback here, and `ClientSnapshots` on its own.
- ProxyContent.Partial.ProcessProxyEvent: signatures, usage and stop reasons are not kept; the lenient JSON parser is a parameter.
- AgentState.Agent.Act: `reset()` is not among the user calls.
- Only user and custom messages are prompted or queued in the model; replies and tool results are not.
- Loop configurations without a restore callback, and hooks or listeners that break their contract by throwing; prepareNextTurn may throw.
- Message bodies, usage, timestamps, thinking times, diagnostics texts and error texts: opaque or absent.
- Request, idle and start timeouts: other ways for a stream to fail.
- Real promises, microtask order and sockets: steps between awaits are atomic, and an abort is a flag that stays set for the run.
- Preflight of a later call may overlap execution of an earlier one; only execution is ordered.
- Subscriptions, listener sets and their error reports in the client; nested calls made by client-state listeners are part of `ClientRequests` only.
- CBOR, schema validation, text decoding and authentication: parameters or absent.
- A transport factory that returns the same transport for two attempts.
- Key order of JavaScript objects in merged headers, and the TUI, CLI, catalog, migration and process code.
