# A verified model of the Sendblue conversation agent

The agent answers text messages. A conversation moves through four states:
*idle*, *buffering* (inbound messages wait for a debounce timer), *processing*
(a chat request is pending) and *sending* (the reply's actions go out one by
one, each waiting for a status callback or a delivery timeout). New messages
interrupt a queue; failed sends are retried with backoff; an SMS limit stalls
the whole line. The project models that machine completely, proves what every
run of it keeps, and models the pieces around it: per-line pacing and counters,
metrics, the chat contract, status records and escaping.

## How the model is laid out

- `ConversationTypes`, `ErrorClass`, `StatusTracker`, `Text`, `Wrappers`: the
  values (records, queue items, keys, errors, statuses).
- `ConversationModel`: the agent as a transition system. A `World` is all that
  the agent, its store and its schedulers remember; each handler is a function
  to the next World. What the environment decides is an argument: the result of
  each send (a fresh handle, no handle, or an error of any class), a chat reply,
  the clock, delays, the outcome of the group and authorisation checks.
- `ConversationAgent`: the agent as an object that updates its tables and timers
  in place. Every method is proved to move its World exactly as the function of
  the same purpose does and to keep the invariant, so what is proved of runs
  holds of the object.
- `History`: a log, kept only in the proofs, of what each turn accepted, asked,
  sent and ended.
- `ConversationInvariant`, `ConversationSteps`, `ConversationEffects`: the
  invariant, that each handler keeps it, and how far each handler reaches.
- `ConversationAccount`: what the history says of the record: how every request
  was answered and every position ended, and what counts as delivered and
  cancelled. `ConversationChannel`: what is known of the channel.
- `ConversationRuns`, `ConversationLines`, `ConversationStalls`,
  `ConversationTurns`, `ConversationMessages`, `ConversationRetries`,
  `ConversationBudget`, `TransientBudget`: theorems about all runs.
  `ConversationRequests`: what becomes of single requests, callbacks and timers.
  `SharedLine` and `SharedBudget`: two runs in which a shared line does harm.
- `Pacing`, `RedisPacing`, `LimitLog`, `LimitStore`, `Backoff`: rates, counters,
  thresholds, retry delays.
- `Histogram`, `MetricSeries`, `Escaping`: metrics, their text form, entities.
- `ChatActions`, `ChatReading`, `ChatContract`: reading a chat reply, twice.
  `ChatMeaning`, `ChatFields`: what a reply, an action and a tag mean, part by
  part, and what is queued for them.
- `StatusRecord`, `BufferScheduler`: the record of callbacks, the buffer timers.

A handler is one atomic step, except that the chat request splits the buffer
timer's work in two: the request is made in one step and its reply, or failure,
arrives in a later one, with any other steps in between. That is where the code
reads its record anew.

Runs assume of the environment only this (`ConversationRuns.Allowed`): Sendblue
never returns a handle twice, replies have been through the chat contract (which
is proved to remove silence actions), the clock moves forward between the turns
of a conversation, and only group messages can be found not to invoke the agent.

## What turned out

- **A shared line can strand a conversation.** The SMS-limit stall timer belongs
  to the line, and every advance, interruption, abort or return to idle on that
  line cancels it, whoever armed it. `SharedLine.SharedLineStrands` is a run of
  six events after which a conversation is sending with nothing left to wake it.
  `ConversationStalls.StrandsOnlyByTaking` says of every step, from the state
  before it and the results its sends will meet, whether it strands somebody;
  `NeverStrandedExactlyWhen` says it of runs. With one conversation per line, or
  without SMS-limit errors, no run does.
- **A shared line can overspend the retry budget.** Another conversation's
  progress resets the line's stall counter. `SharedBudget.SharedLineOverspends`
  is a run of eight events that requests an item three times where its budgets
  allow two. `ConversationBudget.StepBudgetsExactlyWhen` and
  `BudgetedExactlyWhen` say exactly which steps and runs keep the budgets: those
  that leave enough on the counter for the other conversations of the line. With
  one conversation per line every run does, and without SMS-limit errors every
  item is sent at most once plus its transient attempts on any lines.
- **A spent transient budget has two ends**
  (`ConversationRequests.SpentBudgetEndsTwoWays`): the request's own failure skips
  the item, a failed callback aborts the queue
  (src/conversation/agent.ts:1251-1261 and 1302-1318).
  docs/features/plan-limits.md:75 speaks of an abort in both cases.
- **Reactions are retried like everything else**
  (`ConversationRequests.ReactionsAreRetried`). docs/features/plan-limits.md:187-191
  says they keep their skip-on-error behaviour; the code sends every item's
  error through the same handler (src/conversation/agent.ts:689-713).
- **A chat call that fails takes the conversation back to where it was asked**
  (`ConversationAccount.FailureForgetsTheCall`): the record read before the call
  is stored again (src/conversation/agent.ts:424-437), so messages that came in
  meanwhile are dropped and a change of channel is undone.
- **A reaction aimed by alias or content goes to the last message**
  (`ConversationTurns.QueueOfEveryRun`). Queueing pins every target that is not
  one of the batch's handles (src/conversation/agent.ts:1760-1771), so "first"
  means last.
- **The Redis slot key can expire too early.** After five simultaneous calls at
  one send a second the sixth can be given the slot the fifth has
  (`RedisPacing.SixthCallSharesASlot`); `RedisPacing.NextCallAgreesExactlyWhen`
  is the exact condition.
- **Whole-millisecond intervals can exceed the rate.** At three sends a second
  the Redis interval of 333 ms admits four slots in a second, at any time
  (`Pacing.ThreeBecomeFour`, `Pacing.WholeIntervalKeepsRateWhen`).
- **At the cardinality cap existing series freeze.** src/metrics/collector.ts:101
  and docs/features/configuration.md:163 speak of excess series folding into the
  overflow series; in the code every later increment goes there, also one for a
  series that exists (`MetricSeries.AtTheCap`). Nothing is lost in total.
- **Tagged text is not stable under the second pass** when an attribute is blank
  (`ChatContract.TaggedNeedNotBeStable`); structured and untagged replies are.
- **5509 is retried and never stalls** (`ConversationRequests.RateLimitIsRetried`).
  A comment at src/conversation/agent.ts:1416 takes it for the SMS limit; the
  table classifies it as a rate limit (src/status/tracker.ts:93).

## Model

| member | source | states |
|---|---|---|
| ConversationAgents.ConversationAgent.constructor | src/conversation/agent.ts:75-94 | a new agent starts in the empty World, where the invariant holds |
| ConversationAgents.ConversationAgent.HandleReceive | src/conversation/agent.ts:96-278 | a received message moves the World as Receive does: redeliveries within the claim are ignored, messages the agent stays silent on leave at most their channel, accepted ones are buffered, queued late or interrupt; the invariant is kept |
| ConversationAgents.ConversationAgent.ClaimInboundHandle | src/conversation/store.ts:59-66 | true exactly when no claim on the handle holds; from then on the handle is refused until the dedupe time is over and no longer, and claims on other handles are untouched |
| ConversationAgents.ConversationAgent.PassOver | src/conversation/agent.ts:111-174 | the record a message that is not answered leaves behind, in all four combinations of reason and known conversation |
| ConversationAgents.ConversationAgent.AcceptMessage | src/conversation/agent.ts:244-277 | the step for each of the four states, which ConversationAccount.OpeningForgets, ConversationRequests.BufferingMeaning, ConversationTurns.CurrentTurnOfEveryRun and InterruptCancelsTheRest spell out |
| ConversationAgents.ConversationAgent.InterruptSending | src/conversation/agent.ts:802-849 | timers, stall and handle are given up, the rest of the queue is summarised and a new buffer opened |
| ConversationAgents.ConversationAgent.Schedule | src/conversation/scheduler.ts:48-77 | one timer per conversation, or the handler at once when the delay is not positive |
| ConversationAgents.ConversationAgent.BufferTimerFires | src/conversation/agent.ts:405-411 | the armed timer starts the chat request and is gone; without one nothing happens; the invariant is kept |
| ConversationAgents.ConversationAgent.StartChat | src/conversation/agent.ts:405-423 | only a buffering record with messages starts a request; the record it holds is the one in processing |
| ConversationAgents.ConversationAgent.ChatCallReturns | src/conversation/agent.ts:420-487 | a pending call's reply or failure moves the World as ChatReply does and keeps the invariant; without a pending call nothing happens |
| ConversationAgents.ConversationAgent.TakeReply | src/conversation/agent.ts:439-487 | late messages are put to the chat again while the budget lasts, an empty reply idles, any other is sent |
| ConversationAgents.ConversationAgent.BeginSending | src/conversation/agent.ts:472-486 | the queue is built in order with targets pinned and ids stamped, then sent from its first position |
| ConversationAgents.ConversationAgent.TransitionToIdle | src/conversation/agent.ts:1180-1213 | every timer and table entry of the conversation is given up and its queue and buffers emptied |
| ConversationAgents.ConversationAgent.AbortQueue | src/conversation/agent.ts:793-800 | the handle is forgotten, the rest of the queue ends as aborted and the conversation idles |
| ConversationAgents.ConversationAgent.SendCurrentMessage | src/conversation/agent.ts:638-757 | sends from the current position until something is left to wait for or the queue is exhausted, as SendFrom does; the recursion over skips, sends without handle and advances ends, by a measure on the positions left; ConversationRequests.PositionMeaning, RequestMeaning and RequestFailureMeaning say what each request leads to |
| ConversationAgents.ConversationAgent.AfterRequest | src/conversation/agent.ts:689-757 | what a request's outcome leads to: waiting for a returned handle unless it was a reaction, advancing, a retry, a stall or a skip |
| ConversationAgents.ConversationAgent.StartWaiting | src/conversation/agent.ts:735-752 | a returned handle is mapped to its position, timed and stored with the record |
| ConversationAgents.ConversationAgent.AdvanceQueue | src/conversation/agent.ts:759-791 | the handle is forgotten, the content counted as delivered, the line's stall cleared, and sending goes on behind the position |
| ConversationAgents.ConversationAgent.SkipCurrentAction | src/conversation/agent.ts:994-1017 | the item is marked and sending goes on behind it |
| ConversationAgents.ConversationAgent.HandleSendError | src/conversation/agent.ts:1237-1264 | by the class of the error, which ErrorClass.ErrorClassExactlyWhen reads off its code and status: handled exactly when a retry or stall was armed, with that retry or stall; otherwise nothing changed but an exhausted stall counter |
| ConversationAgents.ConversationAgent.ScheduleTransientRetry | src/conversation/agent.ts:1323-1375 | the item keeps its id, counts the attempt and loses its handle; its conversation's one retry timer expects exactly that item |
| ConversationAgents.ConversationAgent.ScheduleSmsLimitStall | src/conversation/agent.ts:1392-1480 | armed exactly when a scheduler exists and the line's attempts are not spent; an exhausted budget clears the counter |
| ConversationAgents.ConversationAgent.RunRetry | src/conversation/agent.ts:1482-1506 | sends only when the current item is the expected one in the expected attempt; otherwise nothing changes |
| ConversationAgents.ConversationAgent.HandleStatus | src/conversation/agent.ts:327-403 | a callback moves the World as StatusCallback does and keeps the invariant |
| ConversationAgents.ConversationAgent.MaybeRetryFromStatus | src/conversation/agent.ts:1272-1321 | a failed callback either leaves a retry or stall, or a World whose abort is the one specified; which codes do which is said by ConversationRequests.PassingCodesAreRetried and SmsLimitStallsTheLine |
| ConversationAgents.ConversationAgent.DeliveryTimeoutFires | src/conversation/agent.ts:1125-1141 | the timed-out handle's conversation advances, if that handle is still current; the invariant is kept |
| ConversationAgents.ConversationAgent.HandleDeliveryTimeout | src/conversation/agent.ts:1136-1141 | advances exactly when the timed-out handle is still the current one |
| ConversationAgents.ConversationAgent.RetryTimerFires | src/conversation/agent.ts:1362-1374 | the timer is gone before its retry runs; the invariant is kept |
| ConversationAgents.ConversationAgent.StallTimerFires | src/conversation/agent.ts:1463-1480 | the line's timer is gone before its retry runs; the invariant is kept |
| ConversationRuns.RunKeeps | src/conversation/agent.ts:96-1512 | the invariant holds throughout every run, for any number of conversations and however errors fall |
| ConversationRuns.StepKeeps | src/conversation/agent.ts:96-1512 | every event keeps the invariant |
| ConversationRuns.StepWithin | src/conversation/agent.ts:96-1512 | an event touches one conversation and its line's stall timer, maps only fresh handles, and leaves that conversation with something to wait for unless it is idle; an event nothing waits for changes nothing |
| ConversationRuns.OneWake | src/conversation/agent.ts:1125-1213 | an idle conversation waits for nothing; every other one for exactly one thing, the one its state calls for (buffer timer, chat call, timeout of the handle in flight, or retry or stall for the current item), unless it is stranded |
| ConversationRuns.StrandsExactlyWhen | src/conversation/agent.ts:774-788 | a step strands a conversation if and only if it takes the line's stall timer from another conversation that holds it |
| ConversationRuns.NeverStrandedUndisturbed | src/conversation/agent.ts:774-788 | no run strands a conversation when no event concerns a line another conversation is stalled on |
| ConversationLines.OneWakePerConversation | src/conversation/agent.ts:244-277 | with one conversation per line, in every state of every run: exactly one wake-up, or none when idle; never stuck, never driven twice |
| ConversationLines.OneWakeWithoutSmsLimit | src/conversation/agent.ts:244-277 | the same for any number of conversations on any lines, when no SMS-limit error occurs |
| ConversationLines.RecordsAreReceived | src/conversation/agent.ts:96-278 | of the modelled events only a received message creates a conversation |
| ConversationStalls.StepLineIsRight | src/conversation/agent.ts:638-849 | what a step does to its line's stall timer and counter can be read off the state before it and the results of its sends |
| ConversationStalls.StrandsOnlyByTaking | src/conversation/agent.ts:774-788 | any step strands a conversation if and only if it takes the line's stall timer from another one, a condition on the state before the step and the results it will meet |
| ConversationStalls.NeverStrandedExactlyWhen | src/conversation/agent.ts:774-788 | a run leaves nobody stranded at any time if and only if none of its steps does that |
| ConversationStalls.ClearingStrandsExactlyWhen | src/conversation/agent.ts:759-849 | for timeouts, interruptions, failed and silent replies, confirmations, final failures and SMS-limit callbacks it is enough to know who holds the timer |
| SharedLine.SharedLineStrands | src/conversation/agent.ts:1180-1194 | a concrete run of allowed events that leaves a conversation sending with nothing to wake it |
| ConversationTurns.TurnsOfEveryRun | src/conversation/agent.ts:405-487 | every finished turn of every run: its requests grow, at most maxReprocessAttempts + 1 of them; the last one answers everything unless the call failed or the budget was spent; each queue position ended exactly once, in order, and nothing was sent for a position before all earlier ones had ended |
| ConversationMessages.RequestsCarryEverything | src/conversation/agent.ts:405-456 | over any run each chat request is the whole of what its turn had accepted at the moment it was made, whether by the timer, by immediate scheduling or by reprocessing |
| ConversationTurns.CurrentTurnOfEveryRun | src/conversation/agent.ts:244-269 | the same account of the turn under way, state by state: buffers hold what was accepted and the last inbound handles are theirs |
| ConversationMessages.MessagesAreConserved | src/conversation/agent.ts:244-269 | over any run the turns of a conversation together hold exactly the messages it accepted, once each and in order of arrival |
| ConversationMessages.StepMessages | src/conversation/agent.ts:96-278 | an event adds one accepted message or none, and at most one request, which carries all that the turn has accepted by then |
| ConversationTurns.CursorMeansOrder | src/conversation/agent.ts:638-791 | a log the cursor accepts is ordered: no position is touched before the earlier ones ended or after it ended itself |
| History.EndedOnce | src/conversation/agent.ts:638-791 | every position below the cursor has ended, and once |
| History.SentAfterEarlierEnded | src/conversation/agent.ts:638-791 | a position is first sent only after every earlier one has ended |
| History.EndRestReachesSize | src/conversation/agent.ts:793-849 | an abort or interruption ends exactly the positions that are left |
| ConversationTurns.CallbacksAlign | src/conversation/agent.ts:327-345 | a handle is mapped if and only if it is in flight, and then to the position in flight; every other callback changes nothing |
| ConversationTurns.RetiredHandlesStayRetired | src/conversation/agent.ts:327-345 | a handle that is no longer in flight never comes back, so late and repeated callbacks stay without effect in every continuation |
| ConversationTurns.SuccessByChannel | src/conversation/agent.ts:1153-1155 | SENT confirms exactly messages that went out as SMS, DELIVERED exactly the others |
| ConversationTurns.CallbackMeaning | src/conversation/agent.ts:386-403 | the success status confirms the position in flight; ERROR and DECLINED abort the rest if the failure is final and otherwise arm the retry or stall of its class; any other status only updates the channel |
| ConversationTurns.FailureMeaning | src/conversation/agent.ts:1272-1321 | a failed callback aborts if and only if there is no tracker, the error is permanent, the attempt would exceed the maximum, or the line cannot be stalled; otherwise the turn is untouched and waits: for a retry of this item that counts one attempt more, the line left as it was (transient), or for the line, in the same attempt and with one stall more (SMS limit) |
| ConversationRequests.RequestFailureMeaning | src/conversation/agent.ts:1237-1264 | a request's own failure, whatever the kind of its action, ends the position as skipped under the same conditions, and otherwise leaves it to its retry, the line left as it was, or to its line's stall |
| ConversationRequests.SpentBudgetEndsTwoWays | src/conversation/agent.ts:1251-1318 | with the transient attempts spent, the request's own failure skips the position and a failed callback aborts the queue |
| ConversationRequests.ReactionsAreRetried | src/conversation/agent.ts:689-713 | a reaction whose request fails transiently is retried while attempts are left |
| ConversationTurns.TimeoutMeaning | src/conversation/agent.ts:1136-1141 | a delivery timeout ends the position in flight, then sending goes on |
| ConversationTurns.InterruptCancelsTheRest | src/conversation/agent.ts:802-849 | an accepted message during sending keeps the truncated summaries of exactly the positions left, ends them as cancelled, and opens a turn with itself alone |
| ConversationTurns.SummaryMeaning | src/conversation/agent.ts:1828-1833 | a cancelled action is summed up by its text, else by what it shows, else by how it reacts, else by its kind, cut to the configured length with three dots |
| ConversationAccount.EndingsOfEveryRun | src/conversation/agent.ts:638-849 | in every turn of every run each entry of the log may follow the one before it: a position is requested again only after an answer that can be retried; it is confirmed or timed out only after its request returned a handle, and unconfirmed only after a reaction or a request without one; it is skipped only after its request failed or because nothing can be sent for it; an abort begins behind a request that was waited for, an interruption behind any request; and nothing is ever requested for an action with nothing to send |
| ConversationAccount.UnconfirmedExactlyWhen | src/conversation/agent.ts:728-757 | in every run, of the positions that end as delivered exactly reactions and requests that returned no handle are not waited for |
| ConversationAccount.DeliveredOfEveryRun | src/conversation/agent.ts:251-252 | in every state of every run deliveredMessages is exactly what the turns since the conversation was last idle have delivered, in order, and cancelledMessages exactly the summaries of what the turn before was interrupted in, so empty in a turn opened from idle |
| ConversationAccount.OpeningForgets | src/conversation/agent.ts:244-277 | a message accepted by an idle or unknown conversation opens a buffer with itself alone, nothing delivered and nothing cancelled, and is put to the chat at once exactly when the delay is not positive |
| ConversationAccount.ItemsOfEveryRun | src/conversation/agent.ts:734-739 | while sending, each item behind the position is marked exactly when it was skipped and has the handle of its confirmed or timed-out request, the current one has the handle in flight, the later ones are as they were queued |
| ConversationAccount.FailureForgetsTheCall | src/conversation/agent.ts:424-437 | however long a chat call takes and whatever comes meanwhile: when it fails the conversation is idle with the channel, handles and lists it had when the request was made |
| ConversationAccount.UnsendableExactlyWhen | src/conversation/agent.ts:851-948 | an action is not requested if and only if nothing can be sent for it, or it is a reaction off iMessage or without a target |
| ConversationRequests.PositionMeaning | src/conversation/agent.ts:851-960 | sending ends the position as skipped, unasked, under exactly these conditions, and otherwise begins with its request |
| ConversationRequests.RequestMeaning | src/conversation/agent.ts:728-757 | a returned handle is waited for, mapped to its position and timed, with nothing else sent, whatever was sent but a reaction; a reaction or a request without a handle ends its position at once and sending goes on |
| ConversationRequests.ReactionIsRequestedExactlyWhen | src/conversation/agent.ts:933-960 | in every reachable sending state the pinned target is the one resolved, so a reaction is requested if and only if the client can react, the conversation is on iMessage and not downgraded, and the target's handle is not empty |
| ConversationRequests.TargetMeaning | src/conversation/agent.ts:969-992 | a reaction is aimed at a message of the last batch or at none: the one asked for if it is one, none for an alias or content, the last otherwise |
| ConversationRequests.BufferingMeaning | src/conversation/agent.ts:257-277 | a message accepted while buffering joins the buffer behind the others and is debounced anew, or put to the chat at once with all of them when the delay is not positive |
| ConversationRequests.StaleTimeoutsAreInert | src/conversation/agent.ts:1136-1141 | a timeout for a handle that is no longer current only uses up its timer |
| ConversationRequests.PassingCodesAreRetried | src/conversation/agent.ts:1272-1321 | a callback that fails with 4001, 5003, 5509, 5000 or 10002 arms a retry of one attempt more and leaves the line's stall timer and counter as they were, while attempts are left; then the rest is aborted |
| ConversationRequests.SmsLimitStallsTheLine | src/conversation/agent.ts:1290-1301 | a callback that fails with SMS_LIMIT_REACHED stalls the line for its item, in the same attempt, while stalls are left; then the rest is aborted |
| ConversationRequests.RateLimitIsRetried | src/status/tracker.ts:93-93 | 5509, whether the request or a callback reports it, is retried and never stalls |
| ErrorClass.CodeClassExactlyWhen | src/limits/tracker.ts:272-279 | a code is transient if and only if it is one of 4001, 5003, 5509, 5000 and 10002, the SMS limit if and only if it is SMS_LIMIT_REACHED, and permanent otherwise |
| ErrorClass.ErrorClassExactlyWhen | src/limits/tracker.ts:209-228 | an error is transient also when it is none of Sendblue's, or its status is 0, 429 or 500 to 599 and the code does not say SMS limit |
| StatusTracker.CategoryExactlyWhen | src/status/tracker.ts:87-107 | each category has exactly its documented codes, every other code is unknown |
| ConversationChannel.ChannelIsTheLastHeard | src/conversation/agent.ts:1625-1634 | over any run in which no chat call of it fails, a conversation's channel is the last one a message or callback named, and it is downgraded if the last word on that was SMS or a downgrade and not iMessage |
| ConversationChannel.FirstWord | src/conversation/agent.ts:111-174 | a new conversation takes the channel of its first message, and its downgrade unless the sender is not authorised; not answered, it is idle |
| ConversationChannel.SilenceMeaning | src/conversation/agent.ts:111-174 | a message that is not answered changes nothing but its conversation's channel and its own claim |
| ConversationTurns.QueueOfEveryRun | src/conversation/agent.ts:472-477 | in every sending state the queue is the reply being acted on, action by action and in order, but for the targets of reactions: the requested handle if it is one of the batch answered, otherwise the batch's last |
| ConversationTurns.ReactionTargets | src/conversation/agent.ts:933-992 | in every turn of every run each request is for one of the reply's actions, and the handle passed to the client with a reaction is that target |
| ConversationRetries.StaleRetriesAreInert | src/conversation/agent.ts:1482-1506 | a retry for an item that has since been advanced past, interrupted or replaced by a later turn sends nothing and changes nothing, whenever it fires; that covers closures re-armed after a restart, which hold the same expectation |
| ConversationRetries.RunForward | src/conversation/agent.ts:1482-1506 | an item once behind stays behind in every continuation: stamps grow and positions only move on |
| ConversationRetries.RedeliveriesAreIgnored | src/conversation/store.ts:59-66 | a redelivered webhook within the claim changes nothing, whatever happened in between |
| ConversationRetries.ReceivingClaims | src/conversation/store.ts:59-66 | whatever the outcome, a received handle is claimed for the dedupe time |
| ConversationBudget.SendsAreBounded | src/conversation/agent.ts:1237-1436 | in every run whose steps leave the other conversations of their line covered, each queue position is sent at most 1 + transientRetryMaxAttempts + smsLimitMaxAttempts times and a turn makes at most that many requests per position, however failures of both paths interleave |
| ConversationBudget.StepBudgetsExactlyWhen | src/conversation/agent.ts:774-788 | a step keeps every conversation within its granted retries and stalls if and only if the counter it leaves on its line covers the requests of the line's other conversations, a condition on the state before it and its results |
| ConversationBudget.BudgetedExactlyWhen | src/conversation/agent.ts:774-788 | a run keeps them throughout if and only if every step does |
| ConversationBudget.SendsAreBoundedPerLine | src/conversation/agent.ts:1237-1436 | with one conversation per line the bound holds in every run |
| TransientBudget.SendsAreBoundedWithoutSmsLimit | src/conversation/agent.ts:1237-1321 | without SMS-limit errors each position is sent at most 1 + transientRetryMaxAttempts times in every run, however lines are shared |
| TransientBudget.StepAlike | src/conversation/agent.ts:1392-1436 | without an SMS-limit error the number of stalls allowed makes no difference to any step |
| SharedBudget.SharedLineOverspends | src/conversation/agent.ts:1237-1436 | a concrete run of allowed events that requests an item three times where its budgets allow two |
| ConversationBudget.RunBudgets | src/conversation/agent.ts:1237-1436 | the requests for every current item stay covered by the retries and stalls it was granted throughout such a run |
| ConversationBudget.TotalIsBounded | src/conversation/agent.ts:1237-1436 | the requests of a turn are at most its size times the bound per position |
| ConversationSteps.ReceiveKeeps | src/conversation/agent.ts:96-278 | receiving keeps the invariant in all four states, for every gate outcome and delay |
| ConversationSteps.BufferTimerKeeps | src/conversation/agent.ts:405-423 | so does the buffer timer |
| ConversationSteps.ChatReplyKeeps | src/conversation/agent.ts:420-487 | so does a chat reply: failed, empty, reprocessed or sent |
| ConversationSteps.StatusKeeps | src/conversation/agent.ts:327-403 | so does every status callback |
| ConversationSteps.TimeoutKeeps | src/conversation/agent.ts:1136-1141 | so does every delivery timeout |
| ConversationSteps.RetryTimerKeeps | src/conversation/agent.ts:1364-1374 | so does a transient retry |
| ConversationSteps.StallTimerKeeps | src/conversation/agent.ts:1463-1480 | so does a stall retry |
| ConversationInvariant.SendFromRestores | src/conversation/agent.ts:638-791 | from a conversation in the middle of a step, sending through any mix of results ends idle or waiting on one item with the invariant restored |
| ConversationEffects.SendFromMoves | src/conversation/agent.ts:638-791 | sending touches only its own conversation and line, only adds requests, skips and unconfirmed ends to the log, and never strands the conversation it works on |
| Pacing.SlotsAreSpaced | src/limits/store.ts:144-157 | any two slots of a line are at least as many intervals apart as there were calls between them, whatever the clock did |
| Pacing.WindowBound | src/limits/store.ts:144-157 | no half-open second holds more slots than intervals fit into it, rounded up |
| Pacing.RateIsKept | src/limits/store.ts:144-157 | so no half-open second holds more than perSecond slots |
| Pacing.SlotsAreEarliest | src/limits/store.ts:144-157 | any times that respect the calls and the interval are no earlier than the slots |
| Pacing.SlotsRespectTheCalls | src/limits/store.ts:144-157 | and the slots themselves do respect them |
| Pacing.SimultaneousCallsQueueUp | src/limits/store.ts:144-157 | the k-th of several simultaneous calls on an idle line waits exactly k intervals |
| Pacing.WholeIntervalKeepsRateWhen | src/limits/redis-store.ts:74-89 | with the interval in whole milliseconds the rate is kept for all call sequences if and only if perSecond intervals make up a second |
| Pacing.BurstBreaksRate | src/limits/redis-store.ts:74-89 | where they do not, a burst at any moment puts one slot too many into a second |
| Pacing.ThreeBecomeFour | src/limits/redis-store.ts:79-79 | at three a second four simultaneous calls fall into one second, at any time |
| RedisPacing.SlotKey.Acquire | src/limits/redis-store.ts:29-43 | the script keeps the key as the fold of all calls and returns the slot's distance from now, never negative |
| RedisPacing.ExpiryGoesUnnoticed | src/limits/redis-store.ts:29-43 | as long as no wait exceeds ttl - interval, the expiring key gives the same slots as one kept for ever, whenever it expires |
| RedisPacing.NextCallAgreesExactlyWhen | src/limits/redis-store.ts:29-43 | the next call gets the right slot, whenever it comes and whether or not the key is gone, if and only if the last wait is at most ttl - interval |
| RedisPacing.RushFitsWhen | src/limits/redis-store.ts:29-43 | a burst of n calls is safe exactly when n intervals fit into the lifetime |
| RedisPacing.SixthCallSharesASlot | src/limits/redis-store.ts:29-43 | at one a second, five simultaneous calls and one four seconds later: two calls share a slot |
| LimitStore.LimitCounterStore.AcquireOutboundSlot | src/limits/store.ts:144-157 | the line's slots go on as the recurrence says, no other line's change, and a rate that is not positive waits for nothing |
| LimitStore.LimitCounterStore.RecordOutbound | src/limits/store.ts:159-194 | every counter returned is the number of sends logged for the line in the UTC second, hour and day of the moment, follow-ups likewise |
| LimitStore.LimitCounterStore.RecordInbound | src/limits/store.ts:196-211 | the count returned is the number of different callers of the line's UTC day, and first says whether this one is new |
| LimitStore.LimitCounterStore.Snapshot | src/limits/store.ts:253-285 | at any moment the counters show what the log says of that moment |
| LimitStore.BumpBucket | src/limits/store.ts:287-295 | a bump keeps the whole table equal to the log; expiry never loses a count inside a bucket |
| LimitStore.PeekBucket | src/limits/store.ts:297-301 | a live bucket's value is its count in the log |
| LimitStore.AddNumber | src/limits/store.ts:201-211 | the day's set is the set of callers in the log |
| LimitStore.ExpiryOutlives | src/limits/store.ts:163-187 | a bucket opened at any moment of its period expires after the period is over |
| LimitStore.LimitTracker.RecordOutbound | src/limits/tracker.ts:108-171 | the send is logged, as a follow-up exactly when no message came in the windowHours hours up to it (without a window: when none ever came), and what has been announced is what the log calls for |
| LimitStore.FollowUpExactlyWhen | src/limits/tracker.ts:281-288 | a send is outside the window if and only if the last message is missing or unreadable, lies after it, or more than windowHours hours before it; without a window, if and only if there never was one |
| LimitStore.WindowEdges | src/limits/tracker.ts:281-288 | the last millisecond of the window is in, the next one is out, and so is a message that is yet to come |
| LimitStore.LimitTracker.RecordInbound | src/limits/tracker.ts:173-202 | likewise for inbound contacts |
| LimitLog.BucketsFollowTheClock | src/limits/store.ts:126-132 | a bucket is a full second, hour or day of the UTC clock |
| LimitLog.CountsNest | src/limits/store.ts:159-194 | at any moment second <= hour <= day, and follow-ups <= day |
| LimitLog.ThresholdsFireOnce | src/limits/tracker.ts:108-202 | for every log, gauge, level, line and bucket the threshold is announced once if the reading reaches it and is positive, and not at all otherwise |
| LimitLog.SendsWarnExactlyWhen | src/limits/tracker.ts:118-147 | sends of an hour or a day are warned of once they reach four fifths of the limit, rounded down, and reported once they reach it |
| LimitLog.OthersWarnExactlyWhen | src/limits/tracker.ts:148-202 | follow-ups and contacts are warned of and reported at their own thresholds, once each |
| Backoff.DelayIsNear | src/limits/retry.ts:13-25 | the delay is within half a millisecond of a fifth either way of min(max, base 4^(n-1)), and never above max |
| Backoff.RawQuadruples | src/limits/retry.ts:20-21 | before jitter the first delay is the base, and each further one four times as long, up to the maximum |
| Backoff.DelayFollowsTheJitter | src/limits/retry.ts:13-25 | the delay is the raw one times 0.8 + 0.4 random to the nearest millisecond, as far as the maximum allows, and nothing before the first attempt |
| Backoff.JitterFillsTheBand | src/limits/retry.ts:22-24 | every delay from four to six fifths of the raw one is drawn, to the nearest millisecond |
| Backoff.DelayGrows | src/limits/retry.ts:13-25 | with the same jitter a later attempt never waits less |
| Backoff.TotalIsBounded | src/limits/retry.ts:13-25 | all retries together wait at most T max, and at most 0.4 base (4^T - 1) + T/2 |
| Histogram.Series.Observe | src/metrics/collector.ts:299-325 | the series agrees with the list of all finite observations; others are ignored |
| Histogram.Series.Render | src/metrics/prometheus.ts:38-56 | each bucket line shows the number of observations its bound covers, +Inf and count all of them, sum their sum; the lines never fall |
| Histogram.BucketsAddUp | src/metrics/prometheus.ts:43-52 | the running total at a bound is the number of observations it covers |
| Histogram.Register | src/metrics/collector.ts:289-297 | refused exactly without bounds; otherwise an empty series over the sorted bounds |
| Histogram.SortedIsAscending | src/metrics/collector.ts:292-292 | the bounds are those given, in order |
| MetricSeries.Counter.Inc | src/metrics/collector.ts:220-229 | the series are the fold of all finite, non-negative increments |
| MetricSeries.LabelsFollowKeys | src/metrics/collector.ts:187-191 | two label sets fall into one series if and only if they agree on the metric's keys, a missing one being empty |
| MetricSeries.SeriesAreCapped | src/metrics/collector.ts:182-205 | there are never more than limit + 1 series, the last being the overflow one |
| MetricSeries.NothingIsLost | src/metrics/collector.ts:220-229 | all series together show everything ever added |
| MetricSeries.BelowTheCap | src/metrics/collector.ts:182-205 | until the cap is reached each series shows what was added to it |
| MetricSeries.AtTheCap | src/metrics/collector.ts:191-203 | from then on every series but the overflow one is frozen, and that one takes everything |
| Escaping.LabelIsWritten | src/metrics/prometheus.ts:74-84 | the chain of passes writes each character on its own |
| Escaping.LabelsRoundTrip | src/metrics/prometheus.ts:74-84 | any label value stays inside its quotes and on its line, and reads back as itself |
| Escaping.Escapes | scripts/e2e/lib/showcase.ts:666-672 | the chain of passes turns each special character into its entity, once |
| Escaping.EntitiesAreDecoded | src/chat/actions.ts:302-309 | any string in which each of & < > " and, or not, the apostrophe is written as its entity is decoded to itself |
| Escaping.EntitiesRoundTrip | src/chat/actions.ts:302-309 | decoding the escaped form of any string gives the string back |
| Escaping.AmpersandFirst | src/chat/actions.ts:302-309 | decoding & first would undo the escaping of what a text without < > " spells |
| Escaping.AmpersandGoesLast | src/chat/actions.ts:302-309 | so with & first the text `&lt;` is lost, with & last it is not |
| ChatActions.ParseTaggedActions | src/chat/actions.ts:152-196 | the actions are those of the pieces that have one, in order: each comes from a piece, later ones from later pieces, and no piece with an action is left out |
| ChatActions.PicksDetermine | src/chat/actions.ts:152-196 | only one list of actions is picked in that way |
| ChatActions.PieceActionsOfBoth | src/chat/actions.ts:152-196 | the actions of two texts put together are those of the one followed by those of the other |
| ChatReading.StructuredIsSettled | src/chat/actions.ts:64-139 | whatever a structured action says, what is read from it is well formed: no blank text, only known styles and reactions, a target that names something |
| ChatReading.ReadBackExactlyWhen | src/chat/actions.ts:64-139 | an action's own JSON is read back as that action if and only if it is well formed in this sense |
| ChatReading.TargetReadBack | src/chat/actions.ts:221-250 | a target is read back as itself when its text is not blank, and not at all otherwise |
| ChatReading.TagIsSettledExactlyWhen | src/chat/actions.ts:157-196 | a tag's action is well formed if and only if the attributes taken over as they stand are not blank |
| ChatContract.NoActionIsSilence | src/chat/contract.ts:16-66 | no normalised list of actions holds a silence action |
| ChatContract.SecondPassReads | src/chat/contract.ts:16-66 | the second pass never fails and keeps the silence flag |
| ChatContract.SecondPassExactlyWhen | src/conversation/agent.ts:1707-1717 | it keeps the actions if and only if all of them are well formed |
| ChatContract.SecondPassIsStable | src/chat/contract.ts:16-66 | for a reply with structured actions, a silent one, and one in whose own texts no tags are found, it gives the same actions and the same flag, tag parsing on or off |
| ChatContract.TaggedNeedNotBeStable | src/chat/actions.ts:163-173 | a tagged message with a blank media address is lost in the second pass |
| ChatContract.RepliesAreSilenceFree | src/conversation/agent.ts:1707-1717 | what the agent queues for a reply the client has read holds no silence action, and reading it never fails |
| ChatMeaning.PlainReply | src/chat/actions.ts:41-44 | a reply of messages without tags is read as those that say something, each with its own text, in order and by an increasing index map, and queued so |
| ChatMeaning.PlainMessage | src/chat/actions.ts:45-46 | so is a reply of one message |
| ChatMeaning.TextsOfBoth | src/chat/actions.ts:41-44 | the actions of two lists of texts put together are those of the one followed by those of the other |
| ChatMeaning.TextAtItsPlace | src/chat/actions.ts:207-219 | at its place a text gives its pieces' actions when it has tags, itself when it has none, nothing when it is blank |
| ChatMeaning.ActionAtItsPlace | src/chat/actions.ts:37-38 | each structured action gives itself or one warning at its place, and none is lost |
| ChatMeaning.ActionsWin | src/chat/actions.ts:37-47 | structured actions win: whatever texts come with them makes no difference |
| ChatMeaning.MessagesWin | src/chat/actions.ts:41-47 | without them a list of messages wins over a single one |
| ChatMeaning.SilenceAlone | src/chat/contract.ts:27-39 | a reply that asks for silence is silent if it says nothing more, and dropped without being silent if it does |
| ChatMeaning.SilenceAmongActions | src/chat/actions.ts:49-56 | a silence action alone is silence, among others it drops the reply with a warning |
| ChatMeaning.MalformedExactlyWhen | src/chat/contract.ts:20-66 | reading fails if and only if the reply is no object or has neither message, messages, actions nor silence |
| ChatFields.ReadExactlyWhen | src/chat/actions.ts:64-139 | a structured action is read as a given one if and only if its fields say so: the first of the names a field goes by that has a text, known styles and reactions only, nicknames resolved, the last message where no target is named, and something to send |
| ChatFields.RefusedExactlyWhen | src/chat/actions.ts:64-139 | what is refused is warned of by its kind |
| ChatFields.TargetReadExactlyWhen | src/chat/actions.ts:221-250 | a target is by handle, alias, content or inclusion, the first of these it names, with its occurrence and part |
| ChatFields.TagTargetExactlyWhen | src/chat/actions.ts:252-268 | a tag's target likewise, by its attributes; content counts as inclusion there |
| ChatFields.PieceExactlyWhen | src/chat/actions.ts:157-196 | a piece of a tagged text gives a given action if and only if its attributes and body say so |
| ChatFields.PartIndexMeaning | src/chat/actions.ts:325-332 | a part index is a natural number, or a text that begins with one in decimal; a negative one is none |
| ChatFields.QueuedMeaning | src/conversation/agent.ts:1723-1780 | the queue takes over text, caption, media, reaction and target of every action; a message that shows something counts as media |
| ChatFields.QueueIsTheReply | src/conversation/agent.ts:1707-1717 | every action of a reply is queued, in order, and a reply is queued exactly when it can be read |
| ChatContract.SettledIsSendable | src/conversation/agent.ts:851-868 | a well-formed message, media or reply action of a direct conversation is never skipped for want of something to send |
| StatusRecords.InMemoryStatusStore.Apply | src/status/tracker.ts:226-230 | each message's record is the fold of the callbacks received for it |
| StatusRecords.NothingIsDropped | src/status/tracker.ts:172-187 | every callback is kept in order, and the history is their statuses with adjacent repeats cut |
| StatusRecords.TheLastSays | src/status/tracker.ts:189-199 | the last terminal status, the last error and the last service named are the record's |
| StatusRecords.TheFirstSays | src/status/tracker.ts:201-211 | the first service named is the record's, and the first word on a downgrade stands short of a downgrade |
| StatusRecords.WhatNobodySaid | src/status/tracker.ts:134-140 | what no callback said the record does not say |
| StatusRecords.DowngradedExactlyWhen | src/status/tracker.ts:201-206 | the record is downgraded if and only if some callback said so |
| StatusRecords.RepeatsAreNoise | src/status/tracker.ts:172-213 | a callback applied again changes only the event log and the time |
| BufferScheduler.InMemoryBufferScheduler.Schedule | src/conversation/scheduler.ts:48-77 | refused without a handler, after cancelling; otherwise one timer or one call, and the ledger balances: scheduled = fired + cancelled + dropped + pending |
| BufferScheduler.InMemoryBufferScheduler.Fire | src/conversation/scheduler.ts:69-75 | the handler is called once, with the trace id of the last request for the conversation |
| BufferScheduler.InMemoryBufferScheduler.Cancel | src/conversation/scheduler.ts:79-87 | the timer goes, and is counted if there was one |
| BufferScheduler.InMemoryBufferScheduler.Close | src/conversation/scheduler.ts:89-93 | no timer is left and no handler is called |
## Left out

- Recovery after a restart (src/conversation/agent.ts:515-636) and closing: timers re-armed from stored state are covered only by what is said of stale retries; at-most-once sending does not hold across it, because a retried item keeps its count and time once it is in flight again.
- Steps are atomic but for the chat call: a handler that runs while another one waits for a send, the wait for a pacing slot inside a send, and replicas of the agent are not modelled.
- Deleted conversations, failures of the store and of the best-effort calls around it, restarts with stored records of another shape.
- Conversation keys are structured values, not the strings the source builds; records are values, since the store hands out and takes in copies.
- Queue items carry id, action, handle, retry count and the skipped mark; sentAt, nextRetryAt, the reason of a skip, send styles and part indexes are read from replies but not queued. One clock reading stamps all ids of a queue.
- Times within a run of the conversation: delays are arguments, so src/conversation/buffering.ts:3-25 enters only through the sign of the delay it returns.
- Targets by alias or content (src/chat/target-resolver.ts): a queue is sent with an empty inbound buffer, in which they resolve to nothing.
- Typing webhooks (src/conversation/agent.ts:280-325), which also store an idle record for a new conversation; typing indicators, read receipts, contact upserts, identities, group metadata, trace ids, logging and the agent's own metrics.
- Finding the tags of a text by regular expression (src/chat/actions.ts:147-157): tags are taken as found, with entities decoded; so are mentions of the agent in group messages.
- Warnings of the chat contract carry a code but no path; numbers in JSON are real numbers, and part indexes may be any natural number.
- The Redis store but for the slot script, BullMQ, the webhook routes, configuration and the HTTP clients, whose errors keep only their class.
- Threshold crossings carry the line they are logged for; reply windows are measured from a time that is missing, unreadable or known.
- Calendar keys of counters are the numbers of UTC hours and days since the epoch; Number.toString, histogram bounds that are not finite, and floating-point rounding are not modelled: rates, delays, sums and bounds are exact reals.
- Series of a metric are told apart by the list of their label values, not by the joined string, in which values holding the separator could collide.
- ConversationBudget.SendsAreBounded: for runs that leave the other conversations of a line covered; the bound fails of others, as SharedBudget.SharedLineOverspends shows.
- ConversationLines.OneWakePerConversation: needs one conversation per line; what happens otherwise is stated exactly by ConversationStalls.NeverStrandedExactlyWhen.
