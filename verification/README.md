# A model of the SSH server's protocols

The library wraps `crypto/ssh` in a number of small concurrent protocols: sessions with signals,
breaks and an exit, connection-level requests and their replies, reverse forwards, resource
close-out, admission and shutdown of a serve scope. This project models those protocols in Dafny
and proves what they promise, together with three sequential cores: CRLF normalisation, the `pty-req`
decoder and error-tree classification.

## How to read it

Every concurrent protocol is written the same way.

- A datatype (`Shared`, `Gate`, `Response`, `Scope`, ...) holds the fields one mutex guards; its
  member functions are the critical sections. A class with the same fields has one method per
  critical section, written as the code writes it, and its contract says that it is that function.
- A `State` adds the goroutines as program counters, channels as sequences or flags, and a record of
  what was sent. An `Event` is one atomic step of one goroutine. User callbacks, peers, timers,
  contexts and network calls are events that may happen at any step with any result.
- `Run(s, es)` executes any finite list of events; an event that is not enabled at its turn does
  nothing. The main theorems speak about `Run(Init, es)` for all `es`, that is about every reachable
  state under every interleaving.
- Where the code would panic, the model has a flag (`panicked`), and it is proved that it is never
  set. For the deferred subsystem's result channel and the copier's observer queue the model
  separates being ready from being able to send (`Ready`, `Enabled`), and it is proved that these
  sends never block. Elsewhere a step that waits is simply not enabled, and whether it will be is
  not claimed.
- What was asked for is read off the events: the modules named `...Outcomes`, and `SessionReceivers`,
  `SessionGrants` and `ResourceFates`, fold the events that happened in a run into a history that
  knows nothing of the steps, and prove that every run's state and output is what its history calls
  for: which channel a signal goes to, which answer was given first, what was granted, what a
  limiter, a peer or a handler said.
- A property the code does not keep has an exact condition and a run that breaks it.

| file | protocol |
|---|---|
| `SessionState`, `SessionProtocol`, `SessionStructure`, `SessionDelivery`, `SessionReceivers` | signals, breaks and exit of a session |
| `SessionLoop`, `SessionGrants`, `Deferred`, `DeferredOutcomes`, `Winch` | the session's request loop, the deferred subsystem decision, window changes |
| `Forwarding`, `ForwardingProofs`, `ForwardingOutcomes`, `ForwardingWitness`, `OpenChannel`, `OpenOutcomes` | TCP and Unix reverse forwards, opening their channels |
| `Resources`, `ResourceFates`, `Channels`, `ChannelOutcomes` | close-out of a connection's resources, the answer to a channel open |
| `Requests`, `RequestOutcomes`, `Dispatch`, `DispatchOutcomes` | connection-level requests, error dispatch |
| `Serve`, `ServeOutcomes`, `Limiter` | serve scope and admission, hierarchical limiters |
| `DuplexCopy`, `CopyOutcomes` | the full-duplex copier, its observer and the closing of its streams |
| `Crlf`, `Codec`, `ErrorTree` | sequential cores |
| `Prelude` | options, bytes, counting |

## What the code does not keep

- A comment in the code promises that at most one later request is read while a deferred subsystem
  is undecided (session.go:289-290). The select does not stop reading after the first one
  (session.go:325-330), and a second overwrites it. `SessionLoop.TwoLaterRequestsLoseOne` is a trace
  in which a request is never answered; `SessionLoop.NoneForgottenIff` shows that requests are
  forgotten exactly when more than one is read in that time.
- A signal can be answered true and dropped: on arrival at a full buffer (session.go:689-692), by a
  requeue that does not fit (session.go:564-566), or by a drain whose context ended
  (session.go:549-554). `SessionDelivery.EveryAnswerKeptIff` shows that all answered signals are
  delivered or held if and only if a run takes none of these three branches;
  `SessionDelivery.FullBufferDropsAnswered` is a run of 129 signals that loses the last one.
- The exit status can overtake the acceptance of a deferred subsystem: `Exit` reads the pending state
  without synchronisation (session.go:397), so a call begun before the request arrived, from a
  callback that kept its session, sends its status first. `Deferred.AcceptanceBeforeExitStatusIff`
  shows that the acceptance comes first in all runs if and only if there is no such call;
  `Deferred.StatusOvertakes` is the run.
- A comment promises to keep old channel opens from reaching a new forward (tcpip.go:404-405).
  Pending opens do not (`ForwardingProofs.OpenOnlyWhileRegistered`), but an open given up by its
  caller on a timeout or the end of the context is pending no more and still runs
  (tcpip.go:463-485). `ForwardingProofs.OnlyAbandonedOutlive` and `OpenChannel.ReturnLeavesBehindIff`
  give the exact boundary; `OpenChannel.AttemptOutlivesReturn` and
  `ForwardingWitness.GivenUpOpenOutlivesForward` are the runs.
- The drop rate overflows for very large limits (server.go:1487): `Serve.RateAlwaysExactIff` says for
  which, and `Serve.OverflowDropsNobody` is one where nobody is dropped instead of 99 percent.
- Splitting a write between CR and LF inserts a second CR; `Crlf.NormalizeChunks` gives the exact
  condition under which normalising chunk by chunk equals normalising the whole.

## Model

The theorems come first, module by module; the rows after `CopyOutcomes` and `DuplexCopy` are the critical sections as the
code writes them, each proved to be the step function the theorems speak about.

| member | source | states |
|---|---|---|
| SessionStructure.StructureStep | session.go:396-422 | every step of every goroutine keeps the structural invariant: paired fields, empty buffer while registered, single active drain, lock holders, silence after exit |
| SessionDelivery.ConservationStep | session.go:474-570 | every step keeps: accepted arrivals minus losses are the delivered signals, then the drain's rest, then the buffer |
| SessionDelivery.DeliveredOnceInOrder | session.go:474-716 | in every reachable state the signals answered true are delivered or held exactly once and in arrival order, and both buffers stay within 128 |
| SessionReceivers.SignalsReachTheirReceiver | session.go:474-556 | each delivered signal goes to the channel of the latest Signals call whose configuration took effect, directly or through its drain, and a registered channel is that one |
| SessionReceivers.ReceiverIsServed | session.go:499-545 | a receiver in effect stays served until the next call, its own close or the end of the context: it is registered with nothing buffered, or a drain sends to it |
| SessionReceivers.BreaksReachTheirReceiver | session.go:572-627 | each delivered break goes to the channel of the latest Break call in effect, that channel stays registered while it is open, and exactly the delivered breaks are answered true |
| SessionReceivers.EachArrivalHasItsVerdict | session.go:663-714 | the n-th reply to a signal answers the n-th arrival, positively only if it is well formed, at most 64 bytes and not turned down by its receiver, negatively only if one of these fails or an exit had begun |
| SessionReceivers.LoopEndsIff | session.go:680-714 | a signal ends the request loop exactly if it met an exit, or the end of the context while it was sent |
| SessionDelivery.EveryAnswerKeptIff | session.go:474-716 | the signals answered true are exactly those delivered, then those held, in order, if and only if the run never takes one of the three branches that drop signals |
| SessionDelivery.FullBufferDropsAnswered | session.go:689-692 | the run in which 128 signals fill the buffer and the next is answered true and dropped |
| SessionDelivery.SilentAfterExit | session.go:407-411 | once Exit has passed its stop phases no signal and no break is ever delivered again |
| SessionDelivery.ExitStatusLastAndOnce | session.go:407-421 | the exit status goes out at most once, and no signal or break is answered positively after it |
| SessionReceivers.FirstExitSendsStatus | session.go:414-420 | the exit status on the wire is that of the first Exit call to come through |
| SessionDelivery.NoRequestInFlightAtExit | session.go:408-411 | when the status is sent no signal or break is between its decision and its reply |
| SessionDelivery.ChannelsClosedOnce | session.go:483-627 | no cancel or done channel is closed twice, cancel and channel fields are set together, and a registered channel excludes buffered signals and a running drain |
| SessionDelivery.WaitersAreNeverHostages | session.go:488-498 | whoever waits for a receiver in re-registration or exit has cancelled the send it waits for |
| SessionDelivery.NoSendBeginsWhileAwaited | session.go:497-498 | while sigSendWg or breakSendWg is waited for no send begins, so neither group is raised from zero beside a waiter |
| SessionLoop.Session.WaitDeferredSubsystem | session.go:308-345 | the inner loop over timeouts, later requests and the decision is the specified run |
| SessionLoop.Session.HandleRequests | session.go:851-1094 | the nested loops compute exactly the specified run on every script of inputs |
| SessionGrants.EachAnswerIsDue | session.go:863-1093 | a reply is positive if and only if its request is entitled to it by what it carries and by what was granted before (handler, callback, limits, pty, delivery); a deferred subsystem gets its handler's decision |
| SessionGrants.GrantsAreKept | session.go:863-1093 | pty, environment count and size are exactly what was granted, and the programs started are those whose acceptance was written |
| SessionGrants.StopsOnlyWhereItMust | session.go:863-1093 | the loop returns exactly at an answer that ends it, a program that comes after the timeout, or a handler that decided nothing; it waits only for an entitled deferred subsystem |
| SessionLoop.RepliesInOrderAtMostOnce | session.go:863-1093 | replies go out in arrival order, none twice; each request read is answered, overwritten, or in hand, and only one of these (section 4 of RFC 4254) |
| SessionLoop.OneStartOrTimeout | session.go:854-859 | at most one handler starts, and timeout and acceptance never both win |
| SessionLoop.SettingsFrozenOnceHandled | session.go:990-1013 | once a program has been chosen, no request changes its pty or environment |
| SessionLoop.NoneForgottenIff | session.go:289-346 | no request is forgotten if and only if at most one is read while a decision is pending |
| SessionLoop.TwoLaterRequestsLoseOne | session.go:325-330 | the trace in which the first of two later requests is never answered |
| SessionLoop.AllAnsweredInOrder | session.go:863-1093 | under that condition the replies at the top of the loop are one for each request, in order |
| Deferred.ExactlyOneOutcome | session.go:231-287 | every decided request is accepted, rejected, abandoned, or broken with the connection closed, and only one of these; done is closed once |
| DeferredOutcomes.OutcomeIsTheFirstCalls | session.go:241-287 | which of the four outcomes it is, is decided by the first call, what it wanted, and whether its answer could be written |
| DeferredOutcomes.LoopDoesWhatItOwes | session.go:306-330 | after a timeout or the handler's return the loop tries to reject, after the end of context or requests it abandons, before it looks at anything else |
| DeferredOutcomes.ExitsLetThrough | session.go:396-420 | the Exit calls that may send a status are the early ones and those made after the acceptance was sent, and the status is that of the first to come through |
| Deferred.LoopFollowsOutcome | session.go:331-344 | the loop proceeds exactly with an acceptance the client was sent |
| Deferred.DecisionIsFinal | session.go:244-246 | a decision is never revised |
| Deferred.ResultNeverLostNorDoubled | session.go:297-320 | the handler's result is in exactly one place at any time, no send of it blocks, and only an accepted subsystem's goroutine consumes it |
| Deferred.AcceptanceBeforeExitStatusIff | session.go:396-399 | in all runs the acceptance precedes any exit status if and only if no Exit call had passed its check before the request arrived |
| Deferred.EarlyCallsAloneOvertake | session.go:396-399 | at most one status is sent, and one that no acceptance precedes comes from such an early call |
| Deferred.StatusOvertakes | session.go:396-399 | the run in which an early call's status goes out before the acceptance |
| Winch.LastGiven | session.go:1167-1181 | the index of the last update that gives a dimension, or -1 |
| Winch.MergedKeepsLastGiven | session.go:1167-1181 | after any series of updates each dimension is the one last given, or the first |
| Winch.WindowChannel.Coalesce | session.go:1048-1059 | the newest window replaces an older one |
| Winch.NewestIsDelivered | session.go:1044-1061 | whatever receivers do, they get windows in order, none twice, and the newest is waiting or was the last received |
| Crlf.TwoPassesInsert | session.go:364-365 | the two ReplaceAll passes insert a CR before each LF that does not follow one |
| Crlf.NormalizeFixedPoints | session.go:364-365 | the output has no bare LF, and exactly the texts without one are left alone |
| Crlf.NormalizeIdempotent | session.go:364-365 | normalising twice is normalising once |
| Crlf.NormalizeChunks | session.go:359-373 | chunks may be normalised separately if and only if the split is not between CR and LF |
| Crlf.NormalizeKeepsText | session.go:364-365 | only CRs before LFs are touched |
| Crlf.FullWriteReportsInputLength | session.go:366-369 | a full write of the longer text reports the length of the caller's text |
| Codec.ParseStringExact | codec-util.go:83-97 | a string is read exactly from the inputs that start with its encoding (section 5 of RFC 4251) |
| Codec.ParseWindow | codec-util.go:62-81 | the loop reads four words, refusing those the machine's int cannot hold |
| Codec.WindowOfExact | codec-util.go:62-81 | a window is read exactly from the inputs that start with its encoding |
| Codec.ParseTerminalModes | codec-util.go:34-55 | the loop terminates and accepts exactly the encodings of some mode list (section 8 of RFC 4254) |
| Codec.NoModes | codec-util.go:34-55 | an input that gets stuck after complete modes encodes no mode list |
| Codec.ModesUnique | codec-util.go:34-55 | an input encodes at most one table of modes |
| Codec.LastValueWins | codec-util.go:43-53 | a repeated opcode has its last value |
| Codec.ParsePtyRequest | codec-util.go:9-32 | exactly the encodings of a pty request are accepted, with their value (section 6.2 of RFC 4254) |
| Codec.PtyUnique | codec-util.go:9-32 | a payload encodes at most one pty request |
| Codec.PtyPrefixFree | codec-util.go:9-32 | no extension of an accepted payload is accepted, hence no truncation |
| Codec.PtyRoundTrip | codec-util.go:9-32 | every term, window and mode list with opcodes 1 to 159 is accepted and read back |
| Codec.ParseWinchRequest | codec-util.go:57-60 | a window change is its window, whatever follows (section 6.7 of RFC 4254) |
| ErrorTree.OnlyTargetLeaves | error-handling.go:223-243 | isOnlyError holds exactly when there is a target, every leaf matches it and no join is empty, whatever errors.Is answers for a leaf |
| ErrorTree.ExclusiveExitExactly | session.go:780-806 | the exit recognised is the tree's only leaf, an exit error that is not a nil pointer or an error presenting itself as one, in a tree without empty joins |
| ErrorTree.WrappingInvariant | error-handling.go:223-243 | wrapping changes neither classification |
| ErrorTree.GrownTreeClassified | security_fuzz_test.go:9-40 | trees grown by wraps and joins are classified by whether a foreign leaf was joined |
| ForwardingProofs.StepKeepsInv | tcpip.go:212-412 | every step of handler, worker, cancel and connection keeps the invariant over registry, stages, cancels, connections and counters |
| ForwardingProofs.OpenOnlyWhileRegistered | tcpip.go:144-175 | a forward with a pending channel open, between beginOpen and endOpen, is the one registered under its key, so never two of one key |
| ForwardingProofs.OnlyAbandonedOutlive | tcpip.go:463-485 | an open that runs for a forward no longer registered was given up by its caller, and is pending no more |
| ForwardingWitness.GivenUpOpenOutlivesForward | tcpip.go:463-485 | the run in which an open that was given up still runs beside a successor registered under the same key |
| ForwardingProofs.NoOpenBeginsWhileAwaited | tcpip.go:159-175 | while a forward's pending opens are waited for no new one begins, so the group is never raised from zero beside a waiter |
| ForwardingProofs.LateCleanupSparesSuccessor | tcpip.go:398-412 | a late cleanup never removes the entry of a successor |
| ForwardingProofs.UnixKeyStaysTaken | streamlocal.go:196-203 | cancelling a Unix forward leaves its key taken until its worker has removed it |
| ForwardingOutcomes.ServedOnlyIfAccepted | tcpip.go:296-299 | a forward serves, and has connections, only after its request was answered with an acceptance, and never in any continuation once it was answered otherwise (section 7.1 of RFC 4254) |
| ForwardingProofs.NoChannelBeforeReply | request.go:164-175 | no connection exists for a forward whose recorded reply is not an acceptance |
| ForwardingOutcomes.SetupDecides | tcpip.go:212-385 | how far a forward comes is decided by the grants and outcomes of its own set-up, and one that was closed stays closed |
| ForwardingOutcomes.ConnectionDecides | tcpip.go:300-368 | a connection has a channel exactly while its open was established and it has not ended, and opens one only if it arrived and was granted a slot |
| ForwardingOutcomes.CancelClosesItsForward | tcpip.go:393-410 | a cancel closes the forward that was registered under its key |
| ForwardingProofs.EverythingGivenBack | tcpip.go:212-391 | forward slots, channel slots, pending opens and acquisition tokens are given back exactly once on every path |
| OpenChannel.ReturnedOrClosed | tcpip.go:428-511 | once the call has returned, every channel an attempt opened is the one returned, or closed, or about to be closed by its own abandoned attempt, and only one of these |
| OpenOutcomes.ReturnsAsItHappened | tcpip.go:428-511 | the call returns exactly when, and with what, the events say: the channel of an open that went well, or nothing after another failure, a race met in the grace period, a give-up or a stop; any other race is tried again |
| OpenOutcomes.AttemptsAsTheyWent | tcpip.go:440-466 | an attempt given up before it starts opens nothing, and one given up later closes exactly a channel that was opened |
| OpenChannel.SettledReturnedOrClosed | tcpip.go:428-511 | when the attempts have finished too, every opened channel is either the one returned or closed, never both or neither |
| OpenChannel.LeftBehindWasGivenUp | tcpip.go:463-485 | an attempt still at work after the return is the newest one and was given up on a timeout or the end of the context |
| OpenChannel.ReturnLeavesBehindIff | tcpip.go:463-485 | a return leaves an attempt at work if and only if it gives up on one of these two |
| OpenChannel.AttemptOutlivesReturn | tcpip.go:470-485 | the run in which the forward is closed, the call has returned and its attempt may still be answered with a channel |
| OpenChannel.ReturnIsFinal | tcpip.go:428-511 | nothing is handed over or closed for a returned call later |
| OpenChannel.NothingLostBeforeReturn | tcpip.go:428-511 | until then an opened channel is in the newest attempt's hands, ready to be handed over |
| OpenChannel.DelayBounded | tcpip.go:428-511 | the retry delay is a power of two of at most 64 ms |
| Resources.ReturnedMeansAllClosed | context.go:108-136 | when any closeAll has returned, no acquisition is pending, the registry is empty, and every resource was unregistered first, closed exactly once, or came later and is closed by the register call that brought it |
| ResourceFates.ReturnedFates | context.go:88-136 | when any closeAll has returned, a resource was closed by exactly one event if it was registered and not yet unregistered when the first closeAll began, and by none if it was unregistered before |
| ResourceFates.RegisteredIsClosed | context.go:108-131 | a resource in the registry when the first closeAll begins is closed once when any closeAll returns, whatever is unregistered in between |
| ResourceFates.UnregisteredBefore | context.go:101-105 | a resource stays unregistered without being closed only if it was unregistered before the close |
| ResourceFates.AcquisitionsAsTheyCame | context.go:144-190 | an acquisition is refused exactly if it began after the close, and over exactly when it was finished |
| Resources.ClosedAtMostOnce | context.go:88-190 | no resource is closed twice, and an unregistered one never |
| Resources.WaitsOnlyForAcquisitions | context.go:129-135 | every snapshotted resource is closed before closeAll waits, and its wake-up cannot be missed |
| Resources.LateIsOnlyClosed | context.go:91-95 | a resource that comes after the close never enters the registry, and in every continuation all that happens to it is one close |
| Resources.LateCanBeClosed | context.go:91-95 | whoever brought it can close it in any reachable state |
| Resources.NoneBeginsLate | context.go:146-157 | after the close no acquisition begins, in any continuation |
| Requests.RepliesExact | server.go:1296-1385 | the owed replies are one for each wanting request moved past, in order, and none for the others |
| Requests.OneReplyEachInOrder | server.go:1296-1385 | the wire carries exactly the owed replies with the recorded decisions, then at most the newest request's, whatever goroutines are left behind (section 4 of RFC 4254) |
| RequestOutcomes.RepliesAreTheFirstCalls | request.go:105-133 | every reply carries the answer of the first call that got through to its request, and there is one exactly if its write went well |
| RequestOutcomes.RequestsRecordTheirAnswers | request.go:105-156 | what a request records is what happened to it, and its error is the failure of its own write |
| RequestOutcomes.LoopDoesAsTold | server.go:1303-1385 | the error handler is consulted exactly if the handler failed or left a wanted answer out, and the loop stops and closes the connection exactly if an error handler or a failed or unfinished answer said so |
| Requests.AnsweredOrClosed | server.go:1303-1404 | before a handler runs everything earlier is answered, and the loop stops early only with the connection closed |
| Requests.DoneClosedOnce | request.go:105-175 | done is closed once, exactly when the request completes, so a waiter never finds it incomplete |
| Requests.StoppedForGood | server.go:1312-1385 | a stopped loop hands no further request to a handler |
| Dispatch.GatesPassedOnce | error-handling.go:245-351 | responder and default action are entered at most once, by the first call if it came in time; repeats and late calls get their own errors in that order |
| DispatchOutcomes.CallsTold | error-handling.go:249-321 | every call of the responder and of next is told what its turn calls for: the first in time gets through, later ones are too many, those after expiry too late |
| Dispatch.SilentAfterReturn | error-handling.go:398-400 | after dispatchError has returned neither is ever entered again |
| Dispatch.NextCompleteOrReported | error-handling.go:398-420 | a next call begun before the handler returned is complete or turned the result into ErrNextErrorHandlerIncomplete; only a server-scope dispatch gives up early |
| DispatchOutcomes.AnswerExact | error-handling.go:398-420 | the result is ErrNextErrorHandlerIncomplete if and only if a next call was running when the dispatcher looked, otherwise exactly what the handler returned, or the context's end if it gave up |
| DispatchOutcomes.ResultsKept | error-handling.go:264-343 | the first call's wish to close, the responder's result and the default action's result are what is remembered |
| Channels.AnsweredAtMostOnce | server.go:77-168 | the peer gets at most one answer, however many goroutines answer or respond |
| ChannelOutcomes.FirstAnswerCounts | server.go:77-168 | the answer is that of whoever came first, and a channel exists exactly if it was an acceptance that went well |
| ChannelOutcomes.ConnectionClosedIff | server.go:1089-1152 | the worker closes the connection if and only if, when it last looked, the open was not answered to the end without error, its error handler did not let it go on, or the response was in trouble |
| Channels.AnsweredAndClosed | server.go:1069-1152 | when the worker is through, the open is answered without error and its channel closed, or the connection is closed |
| Serve.Effective | server.go:1448-1472 | the effective limits are in range, and zero exactly when disabled |
| Serve.DropRateShape | server.go:1474-1488 | the drop rate is a percentage, monotone in the current count, and 100 only when full or when rate says so |
| Serve.DropRateOnLine | server.go:1487 | between start and full the rate is the straight line from rate to 100, rounded down |
| Serve.MachineRateExactIff | server.go:1487 | in wrapping 32- or 64-bit ints the computed rate is the right one if and only if the product fits |
| Serve.RateAlwaysExactIff | server.go:1487 | a configuration's rate is right for every count if and only if the product one short of full fits |
| Serve.NoOverflow | server.go:1487 | it is right for every limit up to a hundredth of the largest int |
| Serve.OverflowDropsNobody | server.go:1474-1488 | with the largest limit and one connection short of it nobody is dropped, though 99 percent should be |
| Serve.DroppedShare | lifecycle.go:110-118 | exactly rate of the hundred random numbers drop a connection |
| Serve.ServeContext.ShutOffAll | lifecycle.go:203-220 | the loop shuts off every tracked connection, counts their reservations and collects what to close |
| Serve.StartupsBounded | lifecycle.go:102-180 | startups is the number of tracked connections holding a reservation and never exceeds Full |
| ServeOutcomes.HoldsWhatWasGivenLast | lifecycle.go:102-180 | the connections tracked are exactly those admitted below the drop rate and neither untracked nor forced out, each with the transport and cancel function given to it last |
| ServeOutcomes.ClosesWhatItHolds | lifecycle.go:188-234 | what is closed and cancelled is the latest transport and cancel function of each connection force found, and the refused transports |
| Serve.DrainedExactly | lifecycle.go:272-281 | drained is closed, once, exactly when the scope is stopping and tracks nothing |
| Serve.StoppedForGood | lifecycle.go:94-134 | stopping, drained and forced are stable and a stopped scope tracks nothing new |
| Serve.ForceShutsOffTracked | lifecycle.go:188-223 | force shuts off exactly what it finds tracked |
| Serve.ForcedClosesEverything | lifecycle.go:136-155 | after force no update succeeds and every transport offered is closed, about to be closed by force or by its refused owner, replaced, or left before |
| Serve.ForcedConnectionsClosed | lifecycle.go:224-234 | when the cleanups are through, every connection force found is closed and cancelled |
| Limiter.ChainDescends | server.go:1204-1238 | the levels of a reservation run from the level to the root, each once |
| Limiter.Limiters.Reserve | server.go:1210-1229 | alone, a reservation is granted exactly when every limited level has room, and a refusal changes nothing |
| Limiter.Limiters.Release | server.go:1231-1238 | releasing gives back exactly what reserving took |
| Limiter.NeverOverGranted | server.go:1172-1238 | under interleaved atomic adds no level ever has more granted than its limit |
| Limiter.CountersExact | server.go:1172-1238 | each counter is the granted plus the tentative increments |
| Limiter.TurnedBackIffFull | server.go:1210-1229 | a reservation is turned back at a level if and only if as many reservations hold an increment there as it has room for, otherwise it goes on and is granted at the root |
| Limiter.ReservationsAsAsked | server.go:1210-1238 | every reservation climbs the chain of the level it was made for and is taken back only when released |
| Limiter.ParentIsSumOfChildren | server.go:1172-1206 | with no reserve in flight a shared parent's counter is the sum of its children's grants |
| DuplexCopy.Collect | copy.go:116-135 | the collecting loop computes the specified summary |
| DuplexCopy.ObserverNeverBlocks | copy.go:43-68 | at most six notes exist, so no send on the observer ever blocks or hits a closed queue |
| DuplexCopy.NotesOrdered | copy.go:56-107 | start is first, end is last, each stream's start precedes its end, nothing is reported twice |
| DuplexCopy.ReturnsFirstFailure | copy.go:112-135 | the result is the first failure received with its direction, and the byte counts are those of each direction |
| CopyOutcomes.ReturnsWhatWasCopied | copy.go:112-135 | the byte counts are those the copiers reported, and the error is the first one delivered, with its direction |
| CopyOutcomes.NotesTellWhatHappened | copy.go:43-107 | the notes are exactly those asked for, each in its turn, with the copiers' errors and byte counts |
| DuplexCopy.ClosedExactly | copy.go:84-98 | both streams are closed exactly if the loop has seen the context's end or received an error, or a direction ended cleanly on a target without half-close; every other clean end has half-closed its target |
| DuplexCopy.ErrorClosesBoth | copy.go:112-135 | a call that returns an error has closed both streams |
| SessionState.Session.Unset | session.go:492-496 | unregistering closes the cancel channel of direct sends once and clears both fields |
| SessionState.Session.BeginConfigure | session.go:483-496 | a running drain is cancelled and its done channel is what the caller waits for; otherwise the registration is dropped at once |
| SessionState.Session.Register | session.go:499-516 | with nothing buffered the channel is registered directly, otherwise exactly one drain is spawned for it |
| SessionState.Session.TakeBuffered | session.go:534-547 | a drain takes the whole buffer, or turns into the direct registration when there is nothing left |
| SessionState.Session.Requeue | session.go:560-570 | the undelivered rest goes back in front of newer signals, cut at the buffer size |
| SessionState.Session.FinishDrain | session.go:525-533 | a drain clears only its own fields and closes its done channel |
| SessionState.Session.Decide | session.go:680-697 | a signal is refused while exiting, sent directly, or buffered if there is room |
| SessionState.Session.AfterSend | session.go:703-710 | a closed receiver is unregistered only if it is still the registered one |
| SessionState.Session.BreakUnset | session.go:582-587 | the break channel is unregistered and its cancel channel closed once |
| SessionState.Session.BreakRegister | session.go:590-595 | a new break channel gets a new cancel channel |
| SessionState.Session.BreakDecide | session.go:606-616 | a break is counted as in flight exactly when a channel is registered |
| SessionState.Session.AfterBreak | session.go:618-624 | a closed break receiver is unregistered only if it is still the registered one |
| SessionState.Session.Exit | session.go:414-417 | the exited flag lets only the first call through to send the status |
| SessionLoop.Session.HandleStart | session.go:874-988 | a shell, exec or subsystem request is answered, refused or started as specified |
| SessionLoop.Session.HandleEnv | session.go:989-1006 | environment variables are taken within the count and size limits only |
| SessionLoop.Session.HandlePty | session.go:1011-1035 | at most one pty, none after the program has started |
| SessionLoop.Session.HandleAgent | session.go:1064-1082 | agent forwarding is granted only by its callback, and a failed reply stops the loop |
| Deferred.DeferredSubsystemResponse.Begin | session.go:241-258 | the first reply call decides; later ones and those after the context's end write nothing |
| Deferred.DeferredSubsystemResponse.End | session.go:267-276 | Exit is let through only after the acceptance has been written |
| Deferred.DeferredSubsystemResponse.Abandon | session.go:279-287 | abandoning decides only what is undecided |
| Forwarding.Forward.BeginOpen | tcpip.go:159-167 | an open begins exactly while the forward is not closing |
| Forwarding.Forward.EndOpen | tcpip.go:169-171 | ending takes one pending open back |
| Forwarding.Forward.Close | tcpip.go:146-155 | only the first close marks the forward and gives its slot back |
| Forwarding.Registry.Insert | tcpip.go:265-277 | a taken key is left to its owner |
| Forwarding.Registry.Remove | streamlocal.go:288-294 | a key is removed only while it belongs to the caller's forward |
| Resources.ConnectionResources.Register | context.go:88-106 | after the close a resource is handed back for closing at once |
| Resources.ConnectionResources.BeginAcquisition | context.go:146-157 | acquisitions are refused after the close |
| Resources.ConnectionResources.HandOver | context.go:158-176 | an acquisition's resource is registered, or closed by its owner if it comes late |
| Resources.ConnectionResources.FinishAcquisition | context.go:178-184 | the last acquisition of a closing manager closes the drained channel |
| Resources.ConnectionResources.BeginCloseAll | context.go:108-127 | only the first caller takes the snapshot and learns whether it has to wait |
| Requests.RequestResponse.Enter | request.go:105-124 | one call gets through; the reply is written only for a wanting request still held |
| Requests.RequestResponse.Leave | request.go:128-133 | completing records the result and closes done |
| Requests.RequestResponse.CompleteWithoutResponse | request.go:149-156 | completes only what nobody has attempted |
| Dispatch.ErrorResponse.Enter | error-handling.go:249-270 | the responder is entered once, never after expiry |
| Dispatch.ErrorResponse.Result | error-handling.go:279-286 | a response that was begun and is not complete is reported as such |
| Dispatch.NextErrorHandler.Enter | error-handling.go:312-321 | next is entered once, never after expiry |
| Channels.TrackedNewChannel.BeginAnswer | server.go:110-118 | only the first answer gets through |
| Channels.TrackedNewChannel.CompleteAccept | server.go:127-135 | an accepted channel is stored for closing |
| Channels.TrackedNewChannel.TakeAccepted | server.go:137-143 | the stored channel is taken once |
| Serve.ServeContext.TrackConnection | lifecycle.go:102-134 | a connection is tracked with its reservation, or not at all |
| Serve.ServeContext.UpdateConnection | lifecycle.go:136-145 | the transport is replaced only while the connection is tracked and not shut off |
| Serve.ServeContext.UpdateCancel | lifecycle.go:147-155 | likewise for the cancel function |
| Serve.ServeContext.ReleaseStartup | lifecycle.go:163-172 | a reservation is given back once |
| Serve.ServeContext.Untrack | lifecycle.go:176-179 | the last connection of a stopping scope closes drained |
| Serve.ServeContext.StopAccepting | lifecycle.go:94-99 | an idle scope drains as soon as it stops |
| Serve.ServeContext.Force | lifecycle.go:196-223 | force does so once and empties the scope |

## Left out

- The SSH transport, handshake and authentication, sockets, DNS, the proxy protocol and shell-word splitting are foreign code; each is an event with any result.
- Wall-clock time: timers and deadlines may fire at any step. Only the retry delays of a channel open are numbers.
- Liveness: that callbacks return, peers make progress and started acquisitions finish is assumed where it matters, never proved.
- Configuration and authentication callback assembly (server.go:376-759), ciphers, key exchanges, MACs, enum texts, logging, options, agent files and error texts.
- OpenChannel.ReturnedOrClosed: modelled on values, not on a class, because the code keeps its state in locals of one function and its goroutines. An abandoned attempt closes its channel in a step of its own after the return.
- DuplexCopy.ReturnsFirstFailure: durations are not modelled; which error copying or half-closing returns is an event.
- SessionLoop.Session.HandleRequests: what signal and break delivery answer is part of the script (their protocol is in SessionDelivery), and so is whether a policy callback's failure ends the loop (session.go:1105-1165); signal and break requests are atomic here.
- SessionLoop.Session.WaitDeferredSubsystem: the decision is one input of the script; the race behind it is in Deferred.
- Deferred.ResultNeverLostNorDoubled: reporting a rejected handler's error to the error handler (session.go:311-318) is not modelled.
- SessionState.Session.Exit: the pending-subsystem check (it is in Deferred), the range check of the status and closing the channel after it are not part of this method.
- SessionDelivery.ExitStatusLastAndOnce: the modelled wire carries the replies to signals and breaks and the exit status; the replies to other session requests are in SessionLoop, without the exit status.
- Requests.OneReplyEachInOrder: a reply whose write fails is taken as not sent; payloads are not modelled. The error handler may send any number of goroutines to reject, which is more than the single-use responder of Dispatch allows.
- Dispatch.NextCompleteOrReported: the path without an application handler (error-handling.go:392-396) is not modelled, nor the 64-slot bound on concurrent handlers (lifecycle.go:283-299).
- ForwardingProofs.EverythingGivenBack: the accept loops are modelled by their effects on slots, tokens and pending opens; back-off after accept errors and copying the data are not modelled.
- Resources.ReturnedMeansAllClosed: closing a resource is one step; its errors are ignored as in the code. A resource registered after the close may still await its close by that register call.
- Serve.StartupsBounded: the state machine computes the drop rate in unbounded ints, which is the machine's rate exactly under the condition of Serve.RateAlwaysExactIff.
- Serve.ForcedClosesEverything: a wrapping transport is assumed to close what it wraps; a connection that left the scope before force closes its transport itself.
- The session counter of a connection (server.go:1076-1083) is a single counter without a chain; it is taken after the channel chain and undone before it, and is not modelled.
- connectionWorkers (context.go:192-212): a counter and a flag without races of its own.
- The decision of shutdown between draining and forcing (lifecycle.go:236-270) follows from DrainedExactly and Force and is not modelled as a thread.
