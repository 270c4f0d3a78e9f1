# Qanat: a Dafny model of its routing core

Qanat is an asynchronous message router written in Rust. This project models the parts of it that
keep state between messages, and proves what they keep:

- **The keyed partition scheduler and the route loops on it** (`RouteJob`, `PartitionRegistry`,
  `PartitionModel` and the other `Partition*` modules). Route loops, the registry actor and the
  workers of all generations are tasks of one transition system; idle timeouts, panics, cancelled
  submissions and the order of tasks are free. The main theorem: in every panic-free run, whatever
  the interleaving, the retirements and the other routes on the same partitioner, what a route emits
  for a key is a prefix of what the sequential loop emits for it, and all of it once the route ends.
  `PartitionOvertaking.WholeRouteOrder` says exactly when the same holds of a whole route, messages
  without a key included, and `PartitionFailures` how each of those is settled; `PartitionLimits` holds two concrete runs at the edge. `PartitionMeasure`
  shows that every run ends, and `PartitionProgress` where: a run that goes on until only a
  cancellation or a panic is left has served every waiting request, finished every route that was
  not cancelled, and, without a panic, emitted for each key exactly the sequential events.
- **Local publish/subscribe** (`Subjects`, `RoutingTable`, `Subscriptions`, `SubscriptionHistory`,
  `RoundRobin`, `LocalDelivery`, `DispatchOutcome`, `DeliveryRuns`, `DeliveryHistory`). The grouped
  binding table refines a flat list of subscriptions, which holds what the history of subscribing and
  removing says; dispatch reserves a place with every target before it sends to any; over whole
  runs, with readers acting between any two steps of the actor, an open subscriber gets exactly the
  accepted messages that match, in order.
- **Translation of patterns to AMQP binding keys** (`TopicPattern`), against the topic rules of
  section 3.1.3.3 of AMQP 0-9-1.
- **The leased outbox source** (`OutboxModel`, `OutboxSafety`, `OutboxTheorems`, `OutboxStore`,
  `OutboxProgress`, `OutboxSource`, `OutboxSourceRuns`, `OutboxRoute`, `LeaseClock`, `LeaseHeld`): the claim loop, the settlement
  actor and the renewal tasks against any store that keeps the documented lease contract, beside
  other consumers and callers that may settle any delivery at any time; the route loop on top of it;
  and the timing under which a held record stays leased.
- **Wire framing** (`Wire`, `WireRoundTrip`, `WireLayout`, `WireText`) down to bytes, UTF-8 and 32-bit
  lengths.
- **Reply correlation of the broker proxy** (`ReplyDispatch`, `ReplyEntries`, `ReplyCalls`).

Code that updates state in place is a class (`RegistryActor`, `RouteRunner`, `SubjectRouter`,
`RouterActor`, `LeasedSource`, `Dispatcher`) or a method with loops, each proved equal to a function
of its inputs or its old state; the theorems are about those functions and about the transition
systems that use them.

Assumed of the runtime: bounded channels are first in, first out; a one-shot reply is received at
most once; a receiver reports the end only when its queue is empty and every sender is gone; a timer
fires no earlier than its deadline. Claim tokens and correlation identifiers are fresh.

Where the code and its documentation differ, the model follows the code:

- The repository's README says that `>` matches any non-empty subject. In the code it also matches
  the empty subject, which splits into one empty token (`Subjects.TailTakesTheRest`).
- `>` before the end of a pattern acts as a tail wildcard in the local matcher; the AMQP translation
  refuses it.
- A `#` token is an ordinary token for the local matcher and passes through the AMQP translation,
  where it is a wildcard; and a lone `*` matches the empty subject locally but not on the exchange,
  where the empty subject has no words. `TopicPattern.AgreementIsExact` shows that for the patterns
  the translation accepts these are the only differences.

Check the whole project with `dafny verify dfyconfig.toml`.

## Model

| member | source | states |
|---|---|---|
| RouteJob.RouteRunner.DeliverFailure | src/router/core.rs:969-1039 | The error target hears of a failure only when it is configured, the failure could be encoded (an HTTP response needs no encoding) and the target accepts it; nothing else happens. |
| RouteJob.RouteRunner.Process | src/router/core.rs:707-761 | Processing one message emits exactly its script, in order, on every branch. |
| RouteJob.RouteRunner.RunUnpartitioned | src/router/core.rs:642-656 | The loop of a route without a partitioner emits the scripts of its messages one after the other. |
| RouteJob.ScriptIsExact | src/router/core.rs:707-761 | Processing one message, effect by effect: the handler runs first, unless the success target refuses the message; its output is delivered next exactly if it succeeded and there is a target; the error target hears of it, directly before the settlement, exactly if the message did not succeed, an error target is configured and accepts, and the failure could be encoded or carried an HTTP response; the settlement comes last; nothing else happens. |
| RouteJob.SettlementDiscipline | src/router/core.rs:707-773 | Every script settles exactly once and last; with `Ack` if and only if the handler succeeded and any success target accepted and delivered, otherwise with the configured decision, after at most one delivery to the error target and none on success. |
| RouteJob.LoopSettlesEachMessageOnce | src/router/core.rs:644-654 | In a whole run every message is settled exactly once, before any effect of a later message. |
| PartitionRegistry.RegistryActor.Handle | src/router/core.rs:380-469 | Each registry command has exactly the reaction of the specification: entries, generation counter, spawn, senders granted and retirement answer. |
| PartitionRegistry.RegistryActor.Retain | src/router/core.rs:438-438 | Exactly the waiters still open are kept, in order. |
| PartitionControl.ControlStep | src/router/core.rs:371-522 | The invariant over registry entries, command queue, generations and sender clones survives every step of every task. |
| PartitionJobs.JobsStep | src/router/core.rs:338-362 | The invariant that ties submitted jobs, queues, runs, completions and the event log together survives every step of every task. |
| PartitionTheorems.InvReachable | src/router/core.rs:371-534 | Both invariants hold in every reachable state. |
| PartitionTheorems.MutualExclusion | src/router/core.rs:472-534 | Over all generations and all routes sharing a partitioner, a key has at most one worker that is not done and at most one running job, and no queue exceeds its capacity. |
| PartitionTheorems.HeldSenderIsLive | src/router/core.rs:345-361 | A held sender points at a live worker of the job's key, and while the registry runs at the generation of its entry; sending never fails. |
| PartitionTheorems.NothingIsStale | src/router/core.rs:401-467 | No retirement request is refused and no retirement notice is stale: the branches for stale generations are unreachable. |
| PartitionTheorems.HandOverIsSafe | src/router/core.rs:390-461 | When a generation appears, every earlier generation of its key is done, with an empty queue and without a holder of its senders. |
| PartitionTheorems.JobConservation | src/router/core.rs:343-361 | Every message read with a key is in exactly one place: with its route, in its key's queue, or among its key's runs. |
| PartitionTheorems.CompletionFiresOnce | src/router/core.rs:524-534 | A completion fires at most once, and has fired exactly when the run of the job is over, completed or panicked. |
| PartitionRefinement.StartedFirst | src/router/core.rs:658-697 | The jobs of a route started for a key are the first messages of its source with that key, in order. |
| PartitionRefinement.PartitionedRefinesSequential | src/router/core.rs:642-700 | In every panic-free run the events of a route for a key are a prefix of those of the sequential loop for that key. |
| PartitionRefinement.FinishedRouteDidItAll | src/router/core.rs:658-701 | When the loop of a route has ended in a panic-free run they are equal. |
| PartitionRefinement.JobEmitsItsScript | src/router/core.rs:524-534 | In every run, panics included, the log holds of a started job exactly a prefix of its script, and all of it if it completed. |
| PartitionRefinement.SettledUnlessPanicked | src/router/core.rs:524-534 | A started job is settled once if its run emitted its whole script and otherwise not at all. |
| PartitionFailures.FailureEffects | src/router/core.rs:667-678 | A message whose key cannot be resolved is settled once, last, with the configured decision; the error target is told before that exactly if it is configured, the failure could be encoded and it accepts; neither the handler nor the success target hears of it. |
| PartitionFailures.FailureIsHandled | src/router/core.rs:658-679 | In every run the log holds some first ones of such a message's effects, and all of them once the loop has gone on. |
| PartitionFailures.FailureIsSettled | src/router/core.rs:658-679 | So in every run, cancelled routes, panics of workers and other routes included, the log holds exactly these effects of it. |
| PartitionRetirement.RegistryLeavesAlone | src/router/core.rs:380-420 | The registry never hands out a sender of a leaving generation again. |
| PartitionRetirement.RetirementProgresses | src/router/core.rs:412-515 | Each step of a leaving generation strictly lowers what it has left (senders out, queued jobs, running job); no other step raises it. |
| PartitionRetirement.RetirementTerminates | src/router/core.rs:509-516 | No run contains more steps of a leaving generation than it had work left. |
| PartitionRetirement.RetirementNeverStalls | src/router/core.rs:509-516 | A leaving generation that is not done can always take a step that is not a panic. |
| PartitionRetirement.NoticeAdvances | src/router/core.rs:515-515 | The notice of a drained generation moves up the command queue with each command and cannot be held up. |
| PartitionRetirement.WaiterStays | src/router/core.rs:386-386 | An open waiter stays a waiter until that notice is handled. |
| PartitionRetirement.WaitersGetNextGeneration | src/router/core.rs:431-461 | When that notice is handled every open waiter is handed a sender of the next generation, which is alive and new. |
| PartitionWaiters.WaiterStep | src/router/core.rs:380-461 | One step of anybody while a route waits on a generation and is not cancelled: it hands the route a sender of a later, live generation, or the route still waits and its rank (work left to the generation, then the place of its notice) is no higher; lower, if the step was the generation's own or, once it is gone, the registry's. |
| PartitionWaiters.HelpIsEnabled | src/router/core.rs:431-515 | While a route waits such a helping step, other than a panic, is always enabled. |
| PartitionMeasure.RunsAreFinite | src/router/core.rs:642-701 | Every step of every task uses up some of the work there is: no run, with cancellations and panics or without, has more steps than the measure falls by from its start to its end. |
| PartitionProgress.StuckIsOver | src/router/core.rs:338-534 | Where nothing but a cancellation or a panic can happen nobody waits for a sender, every route is finished or was cancelled, and every worker is done. |
| PartitionProgress.RunsToTheEnd | src/router/core.rs:642-701 | Every run can go on to such an end without a further cancellation or panic. |
| PartitionProgress.WaiterIsServed | src/router/core.rs:386-461 | In every run to such an end in which it is not cancelled, a waiting route is handed a sender of a later, live generation; nothing is assumed about fairness. |
| PartitionProgress.MaximalRunDidItAll | src/router/core.rs:642-701 | In every panic-free run to such an end each route that was not cancelled is finished, and for each key it emitted exactly what the sequential loop emits. |
| PartitionOrder.InlineReachable | src/router/core.rs:667-679 | In every run the messages of a route without a key are handled in source order, each to its end before the next message is read; when no message after one with a key has another key or none, all their events come before those of messages with a key. |
| PartitionOrder.KeepsOrder | src/router/core.rs:658-701 | With the keys in that order every panic-free run of the route emits a prefix of what the sequential loop emits, key-less messages included. |
| PartitionOvertaking.Overtakes | src/router/core.rs:667-697 | Wherever a message with a key is followed by one without it, some panic-free run has the second emit its first effect before the first has started. |
| PartitionOvertaking.WholeRouteOrder | src/router/core.rs:658-701 | For every configuration and capacity above zero: all panic-free runs of a route emit a prefix of the sequential loop's events if and only if no message after one with a key has another key or none. |
| PartitionLimits.ResolutionFailureOvertakes | src/router/core.rs:667-679 | A concrete instance with two messages: a key-resolution failure, handled inline, overtakes a queued job. |
| PartitionLimits.PanickedJobCompletesUnsettled | src/router/core.rs:526-533 | A concrete run in which a completion fires for a message that was never settled. |
| Subjects.WildcardMatch | src/bus/routing.rs:34-55 | The matcher returns whether the pattern means the subject: equal tokens up to `*`, and one token or more from the first `>` on. |
| Subjects.TailTakesTheRest | src/bus/routing.rs:40-40 | What follows a `>` does not matter, and a lone `>` matches every subject, the empty one included. |
| Subjects.JoinOfSplit | src/bus/routing.rs:35-36 | Joining the split tokens gives back the string. |
| Subjects.SplitOfJoin | src/bus/rabbitmq_bus.rs:239-242 | Splitting joined tokens without dots gives back the tokens. |
| RoutingTable.SubjectRouter.Fanout | src/bus/routing.rs:58-80 | The table and identifier after `add_fanout`, for a known and an unknown pattern. |
| RoutingTable.SubjectRouter.Bind | src/bus/routing.rs:82-105 | The table or the error after `bind_queue`: only a queue bound to another pattern is refused. |
| RoutingTable.SubjectRouter.Consumer | src/bus/routing.rs:107-116 | The table and the identifier or error after `add_consumer`; the identifier is used up either way. |
| RoutingTable.SubjectRouter.Route | src/bus/routing.rs:120-138 | The selected targets, and the indices of the groups picked from moved on by one. |
| RoutingTable.SubjectRouter.Remove | src/bus/routing.rs:142-148 | The table without the consumer; empty fanout bindings go, empty groups stay. |
| Subscriptions.StepRefines | src/bus/routing.rs:58-148 | Every table operation keeps the relation to the flat list: increasing identifiers below the next one, one binding for each fanout pattern and each queue, with exactly its subscribers. |
| Subscriptions.TableRefinesFlatList | src/bus/routing.rs:58-148 | After any sequence of operations the table stands for the flat list. |
| Subscriptions.BindRefines | src/bus/routing.rs:82-105 | `bind_queue` succeeds exactly when the queue is new or was declared with this pattern. |
| Subscriptions.ConsumeRefines | src/bus/routing.rs:107-116 | `add_consumer` succeeds exactly for declared queues, with the next identifier. |
| SubscriptionHistory.ListIsSubscribed | src/bus/routing.rs:58-148 | After any operations the flat list holds exactly the subscriptions that some operation made (a fanout subscription, or joining a queue declared before, with the pattern of its first declaration, each under the next identifier from 1 on) and no later one removed. |
| SubscriptionHistory.CountersAndQueues | src/bus/routing.rs:82-116 | After any operations the declared queues, their patterns and the next identifier are those of the history. |
| SubscriptionHistory.RouteSelectsSubscribed | src/bus/routing.rs:120-138 | After any operations `route` selects a subscribed fanout subscriber exactly if its pattern matches, and a subscribed member exactly if its queue's pattern matches and it is its turn. |
| SubscriptionHistory.RouteSelectsNobodyElse | src/bus/routing.rs:120-138 | It selects only who is subscribed. |
| Subscriptions.QueuePatternNeverChanges | src/bus/routing.rs:88-93 | A declared queue keeps its pattern over any operations. |
| Subscriptions.RouteIsExact | src/bus/routing.rs:120-138 | `route` selects exactly the matching fanout subscribers and the member of each matching group whose turn it is, nobody twice. |
| Subscriptions.GroupsGetOneEach | src/bus/routing.rs:126-133 | A matching group with members has exactly one of them selected. |
| RoundRobin.PicksInTurn | src/bus/routing.rs:130-132 | While a group is stable its members are picked in turn from wherever its index stood. |
| RoundRobin.PickPerMatch | src/bus/routing.rs:122-133 | Each matching message picks one member of a stable group and no other message picks any. |
| RoundRobin.IndexCountsPicks | src/bus/routing.rs:95-133 | From an empty table on, a group's index is the number of picks from it since it was declared. |
| RoundRobin.RoundRobinIsFair | src/bus/routing.rs:130-132 | After any k picks each of n members was picked k/n times, rounded down or up, whatever else was done to the table. |
| LocalDelivery.RouterActor.Subscribe | src/bus/internal_router.rs:106-111 | A fanout subscription opens an empty queue under the next identifier. |
| LocalDelivery.RouterActor.SubscribeGroup | src/bus/internal_router.rs:112-129 | A group subscription binds the queue and joins it, or fails and opens nothing. |
| LocalDelivery.RouterActor.ReserveAll | src/bus/internal_router.rs:144-160 | The reservation loop, up to the first full target. |
| LocalDelivery.RouterActor.RemoveConsumers | src/bus/internal_router.rs:170-179 | Dead consumers leave the table and the sender map together. |
| LocalDelivery.RouterActor.Dispatch | src/bus/internal_router.rs:134-168 | The whole bus after a dispatch, and whether it was accepted. |
| DispatchOutcome.ScanIsExact | src/bus/internal_router.rs:144-160 | The loop refuses exactly when a live target is full; otherwise it holds one place with every live target and has found every dead one. |
| DispatchOutcome.AllOrNothing | src/bus/internal_router.rs:134-168 | Refused if and only if some selected live subscriber is full, and then no queue changes; otherwise each selected live subscriber gets exactly one copy and no other queue changes. |
| DispatchOutcome.CapacityKept | src/bus/internal_router.rs:10-10 | No queue grows past 128. |
| DispatchOutcome.GroupDelivery | src/bus/internal_router.rs:144-168 | A group message reaches only the member whose turn it is, and that member exactly if the dispatch was accepted and the member is still there. |
| DispatchOutcome.IndicesTurnEitherWay | src/bus/internal_router.rs:140-163 | Accepted or refused, a dispatch moves the round-robin index of exactly the matching groups that have members, by one. |
| DispatchOutcome.RefusalStillTurns | src/bus/internal_router.rs:140-158 | A refused dispatch leaves every queue as it was, forgets exactly the selected subscribers found gone before the first full one, and still moves those indices. |
| DispatchOutcome.QuietDispatch | src/bus/internal_router.rs:134-168 | The small steps of the whole-run model, without a reader in between, add up to the dispatch method. |
| DeliveryRuns.ApplyKeeps | src/bus/internal_router.rs:92-179 | The invariant survives every step of the actor, of readers and of receivers going away. |
| DeliveryRuns.FanoutIsExact | src/bus/internal_router.rs:92-179 | At every moment, what an open fanout subscriber read, followed by what is queued for it and the message it is just being sent, is exactly the accepted matching messages since it subscribed, in order. |
| DeliveryRuns.QueuesAndSendersAgree | src/bus/internal_router.rs:106-129 | In every run the table stands for the flat list, the sender map has exactly the listed subscribers, every open subscriber is listed, and no queue exceeds 128. |
| DeliveryRuns.AtMostOnce | src/bus/internal_router.rs:134-168 | No accepted message is sent twice to a subscriber or to two members of a group, and an open subscriber has exactly what it was sent. |
| DeliveryHistory.OpenUntilClosed | src/bus/internal_router.rs:92-129 | In every run who subscribes is a subscriber from then on, with the pattern and queue it asked for and the messages accepted so far, and open exactly until its receiver goes away; a group subscription that names a queue with another pattern changes nothing. |
| DeliveryHistory.ReadsInOrder | src/bus/internal_router.rs:92-179 | In every run an open fanout subscriber has read the first of the accepted matching messages, its next read takes the next one, and between commands something is queued for it until it has read all of them. |
| TopicPattern.RabbitBindingKey | src/bus/rabbitmq_bus.rs:215-247 | It succeeds exactly on non-empty patterns without empty token and with `>` only last; the key's tokens, and which of the three errors otherwise. |
| TopicPattern.KeyText | src/bus/rabbitmq_bus.rs:229-246 | The text of the key: `#` for a lone `>`, `.*.#` in the place of a final `.>`, and any other pattern as it is. |
| TopicPattern.TopicMatchIsSegmentation | src/bus/rabbitmq_bus.rs:215-247 | The backtracking topic matcher finds a way to cut the subject into the words' segments if and only if there is one. |
| TopicPattern.TokensPreserveMeaning | src/bus/rabbitmq_bus.rs:229-243 | On tokens, the exchange matches the translated pattern exactly when the pattern matches locally. |
| TopicPattern.TranslationPreservesMeaning | src/bus/rabbitmq_bus.rs:215-247 | For strings, through join and split, and every subject: an accepted pattern without a `#` token means the same on the exchange and locally, except for the pattern `*` and the empty subject, on which they differ. |
| TopicPattern.AgreementIsExact | src/bus/rabbitmq_bus.rs:215-247 | For an accepted pattern the two matchers agree on all subjects, the empty one included, if and only if it has no `#` token and is not a lone `*`. |
| OutboxSource.LeasedSource.Validate | src/outbox.rs:230-257 | Options are accepted exactly when they are valid; which fault is reported first. |
| OutboxSource.LeasedSource.Open | src/outbox.rs:270-299 | A source opens exactly once, and only with valid options. |
| OutboxSource.LeasedSource.ReleaseAfterClaimFailure | src/outbox.rs:418-435 | A lease is given back by one release, which has an effect only under the current token. |
| OutboxSource.LeasedSource.ClaimNext | src/outbox.rs:337-416 | The claim loop over any answers of the store: state of store, pending leases and calls afterwards, and what is delivered. |
| OutboxSource.LeasedSource.Settle | src/outbox.rs:490-511 | Settling removes the pending lease and makes one store call by its token, with the effect on the record that `OutboxStore.SettleDecides` states; an unknown delivery is refused without a call. |
| OutboxSource.FirstRecordCounts | src/outbox.rs:340-400 | Of the first claim that got something the first record is delivered under the next number and every other one is given back, in order; all are given back if the delivery cannot be registered. |
| OutboxSourceRuns.ClaimIsARun | src/outbox.rs:337-488 | The claim method over any answers at any times, failed, empty or not, with an actor that registers the delivery or without, is a sequence of steps of the transition system with the same result. |
| OutboxSourceRuns.SettleIsARun | src/outbox.rs:490-511 | So is the settlement of any delivery, known or not, with or without a renewal task, in a call or between calls, and whatever else is queued. |
| OutboxSafety.StepKeeps | src/outbox.rs:337-580 | The invariant that places every claimed lease survives every step of the source, the store's other users and the callers. |
| OutboxSafety.RunKeeps | src/outbox.rs:337-580 | It holds in every run. |
| OutboxTheorems.NothingAfterSettlement | src/outbox.rs:496-509 | Once the settlement of a lease, or its return by the claim loop, has begun, no further store call for that lease begins: no second settlement and no renewal. |
| OutboxTheorems.SettlesWhatWasDelivered | src/outbox.rs:559-580 | A settlement carries the record and token of the claim that produced its delivery, and a decision that was asked for. |
| OutboxTheorems.RecordsLeaveByAcknowledgement | src/outbox.rs:97-115 | A record leaves the store only by an acknowledgement under its current lease: another consumer's, or that of a delivery of this source that was to be acknowledged or rejected. |
| OutboxStore.StepOnStore | src/outbox.rs:337-580 | What each step of the source does to each row of the store: a claim leases exactly the records it got, each under its token until the deadline asked for; giving back and `Retry` leave a record without a lease, available at the given time; `Ack` and `Reject` remove it; a renewal moves the deadline; nothing else changes a row. |
| OutboxStore.HandledRecordIsGone | src/outbox.rs:559-580 | In every run, once a settlement with `Ack` or `Reject` was carried out, the record is gone until it is inserted again. |
| OutboxStore.SettleDecides | src/outbox.rs:490-580 | Settling: the record is gone after `Ack` and `Reject`, free again at the given time after `Retry`, unchanged when the store fails or the delivery is unknown, and no other row changes; which result is returned. |
| OutboxStore.ClaimOnStore | src/outbox.rs:340-435 | After a claim call: the delivered record is leased for the lease duration, every other claimed one is free after the retry delay if its release was carried out, and no other row changed. |
| OutboxProgress.SourceNeverStalls | src/outbox.rs:337-580 | In every run, whatever the store answers or fails to do: while the source is in the middle of a claim or a settlement, one of its tasks can take a step. |
| OutboxProgress.StopTellsEverybody | src/outbox.rs:437-488 | In every run, once the settlement actor has ended nothing is queued or pending and every renewal task left was told to stop. |
| OutboxProgress.RenewedWhilePending | src/outbox.rs:472-557 | In every run: with a renewal interval each pending delivery has a renewal task that was not told to stop; without one no lease is ever renewed. |
| OutboxProgress.NumbersAndDeadlines | src/outbox.rs:341-389 | In every run deliveries are numbered 1, 2 and so on as they are submitted, and a claim asks for leases that end the lease duration after the store was asked. |
| OutboxTheorems.RecordsLeasedElsewhereStay | src/outbox.rs:97-101 | While a record is leased to somebody else no step of this source changes it, except a new claim after that lease ran out: a late settlement is harmless. |
| OutboxTheorems.LeasesAccounted | src/outbox.rs:375-400 | Every claimed lease is in exactly the place its history says: the claim loop's hands, on its way to the actor, pending, about to be settled, or ended by a store call. |
| OutboxTheorems.ExcessGoesBack | src/outbox.rs:369-378 | Whenever the claim loop has nothing in its hands, every lease it claimed that never became a delivery was given back to the store. |
| OutboxTheorems.AtMostOnePending | src/outbox.rs:466-511 | A consumer that polls only when each delivery's settlement was answered, or the actor is gone, never has two leases registered, pending or being settled. |
| OutboxRoute.LoopIsOneAtATime | src/router/core.rs:644-654 | The route loop without a partitioner is such a consumer: it polls, processes, settles and awaits the answer before it polls again. |
| OutboxRoute.RouteHoldsOneLease | src/router/core.rs:644-654 | So it never has two leases registered, pending or being settled, also when the actor stops. |
| OutboxRoute.RouteSettlesAsItProcessed | src/router/core.rs:707-773 | Each settlement call of an outbox route carries `Ack` exactly if the handler of that delivery succeeded and any success target took the output, and otherwise the configured decision. |
| LeaseClock.LeaseContinuity | src/outbox.rs:535-555 | With punctual timers and calls of at most d, the lease L of a held delivery never lapses in any run if and only if I + 2d < L for the renewal interval I. |
| LeaseClock.SlowestRun | src/outbox.rs:341-389 | The slowest run, which reaches I + 2d after the claim with the first deadline still in force. |
| LeaseHeld.RunProjects | src/outbox.rs:341-389 | Seen from one lease, a punctual run of the outbox model is a run of the lease clock, and the store holds the lease with the clock's deadline. |
| LeaseHeld.HeldStaysLeased | src/outbox.rs:528-557 | With I + 2d < L, from its claim until its renewal task ends the record stays leased to this source with a deadline ahead, whatever other consumers do, so that nobody can claim it. |
| Wire.EncodeHeaders | src/bus/wire.rs:58-74 | The header section for any order in which the map yields its headers. |
| Wire.Encode | src/bus/wire.rs:18-32 | The frame bytes, laid out as `WireLayout.FrameIsLaidOut` says, with lengths cut to 32 bits. |
| Wire.DecodeHeader | src/bus/wire.rs:91-122 | One round of the header loop stays in bounds and advances, or there is no whole UTF-8 header at the cursor. |
| Wire.DecodeEach | src/bus/wire.rs:89-128 | The header loop yields exactly the map of the headers that fill the section, the last of a repeated key counting, or nothing. |
| Wire.DecodeHeaders | src/bus/wire.rs:76-129 | A section without headers, the count guard, and otherwise exactly the loop's result. |
| Wire.Decode | src/bus/wire.rs:34-56 | Decoding is total and stays in bounds on every byte string, and computes exactly the frame that `WireLayout.DecodesWhatIsLaidOut` describes. |
| WireRoundTrip.RoundTrip | src/bus/wire.rs:18-56 | For every subject, headers and payload and every iteration order, the frame comes back (an empty map as no headers) if and only if the subject and the header section are shorter than 2^32 bytes. |
| WireRoundTrip.DecodeIsExact | src/bus/wire.rs:34-129 | The byte strings that decode to a frame are exactly the encodings of its subject, of a header list that collects to its headers, and of its payload. |
| WireLayout.FrameIsLaidOut | src/bus/wire.rs:5-9 | A byte string is the frame of a subject, a list of headers and a payload exactly if it is laid out like this: four bytes each, most significant first, for the lengths of subject and header section; the subject; four bytes for the number of headers; for each header four bytes each for the lengths of key and value, then key and value; the payload. |
| WireLayout.DecodesWhatIsLaidOut | src/bus/wire.rs:34-129 | A byte string decodes to a frame exactly if it is laid out as its subject, some headers that collect to its headers, and its payload, with lengths below 2^32. |
| WireLayout.KeysOfHeaders | src/bus/wire.rs:117-121 | The decoded map has exactly the keys of the headers in the section. |
| WireLayout.LastOccurrenceCounts | src/bus/wire.rs:117-121 | Each with the value of its last occurrence. |
| WireText.Utf8IsExact | src/bus/wire.rs:46-46 | The bytes accepted as text are exactly the encodings of Unicode scalar values by the table of section 3 of RFC 3629: no overlong forms, no surrogates, nothing above 10FFFF. |
| WireRoundTrip.GuardOnlyRejectsEarly | src/bus/wire.rs:85-87 | What the count guard rejects has no parse. |
| WireRoundTrip.Stable | src/bus/wire.rs:34-129 | Re-encoding an accepted frame in any order and decoding it gives the same frame in no more bytes, also when the input repeated keys. |
| WireRoundTrip.Truncated | src/bus/wire.rs:44-46 | A prefix of an accepted frame is accepted exactly when it reaches the payload, and then only shortens the payload. |
| ReplyDispatch.Dispatcher.Handle | src/router/broker.rs:243-273 | One turn of the dispatcher: the table and the replies handed out afterwards. |
| ReplyDispatch.Dispatcher.Loop | src/router/broker.rs:242-275 | The loop handles its inputs in order until one of them ends. |
| ReplyDispatch.NothingAfterTheEnd | src/router/broker.rs:243-261 | What follows the end of the commands or of the messages is not looked at. |
| ReplyDispatch.OneMoreInput | src/router/broker.rs:242-275 | Until then every input is handled, in order. |
| ReplyDispatch.StepKeeps | src/router/broker.rs:239-365 | The invariant over table, calls, command channel and lost cancellations survives every step. |
| ReplyDispatch.RepliesAreOwn | src/router/broker.rs:262-272 | Every reply handed to a call carries that call's correlation identifier, and no call is handed two. |
| ReplyDispatch.ReplyReachesItsCaller | src/router/broker.rs:319-365 | An arriving message changes exactly the call with its identifier that is registered and still waits for its first reply; late, repeated and foreign replies reach nobody, even when a cancellation was lost. |
| ReplyCalls.PhasesAreEvents | src/router/broker.rs:284-365 | In every run each phase of a call stands for an event of that call: answered exactly if its reply was read, abandoned if it was dropped, timed out, failed if its request could not be sent, unanswerable if it heard the dispatcher stop; and the command channel holds what was sent and not yet taken. |
| ReplyCalls.AnsweredWithFirstReply | src/router/broker.rs:262-272 | In every run an answered call holds the first message with its identifier that arrived after its registration was taken, and a call still waiting holds it if there is one. |
| ReplyCalls.NoTimeoutAfterReply | src/router/broker.rs:344-365 | A call for which a reply arrived in time neither times out nor fails because the dispatcher stopped. |
| ReplyCalls.CallsCanBeAnswered | src/router/broker.rs:284-352 | Whenever the dispatcher runs and its channel is empty, a new call can be registered, sent and answered, and ends with its reply. |
| ReplyEntries.EntriesAccounted | src/router/broker.rs:252-258 | While the dispatcher runs it holds an entry for a call if and only if its registration was taken, no reply was handed to it, and, if it gave up, its cancellation is queued or was lost. |
| ReplyEntries.EntryLeftBehind | src/router/broker.rs:341-359 | In every run after a call gave up, once its cancellation is not on its way its entry is still there if and only if the command channel was full when it gave up and no reply has been handed to it. |
| ReplyEntries.LostCancellationLeavesEntry | src/router/broker.rs:357-359 | A concrete instance: the channel of 64 is full, the cancellation is lost and the entry stays. |

## Left out

- The partitioned route loop, `submit_task` and the workers are steps of a transition system, not methods: what they do is what they do between each other's steps.
- Channels are sequences inside the state of a model; the memory they live in, and aliasing of senders, are not modelled. Sender clones are counted where they are held.
- PartitionRegistry.RegistryActor.Handle: generations, like all other counters, are unbounded; 64-bit wrap-around is not modelled.
- PartitionRetirement.RetirementNeverStalls: takes a capacity above zero, which `Partitioner::with_options` demands.
- DispatchOutcome.AllOrNothing: one dispatch with no reader in between; `DeliveryRuns` has the readers in between.
- LocalDelivery.RouterActor.Dispatch: the command channel of 1024 and its replies are left out, since the actor handles one command after the other.
- Wire.Decode: sizes are unbounded, so the overflow branches of `checked_add`, reachable only where a `usize` has 32 bits, are left out.
- LeaseClock.LeaseContinuity: takes renewals to succeed and timers to be punctual, and so does `LeaseHeld`; a failing store lets any lease lapse.
- PartitionProgress.StuckIsOver: takes a capacity above zero too, as do `WaiterIsServed` and `MaximalRunDidItAll`.
- PartitionProgress.WaiterIsServed: a source is a finite sequence of messages, of any length, so every run ends; of a source that never ends only the single steps are covered (`PartitionWaiters.WaiterStep`, `PartitionWaiters.HelpIsEnabled`), not that the runtime takes the helping ones.
- ReplyEntries.EntryLeftBehind: the command channel is full when 64 commands are queued; that `try_send` can also fail with 63 queued, when the place just freed is already promised to a `send` that waits, is not modelled.
- OutboxModel: clocks never overflow, so the branches for deadlines that cannot be computed are left out; a claim loop dropped in the middle of a claim leaves its leases to run out and is left out.
- Handlers, targets, error targets and key resolvers are arbitrary outcomes for each message; decoding, header filtering of forwarded HTTP responses and message contents are left out.
- Network clients (NATS, NNG, Redis, RabbitMQ, HTTP), codecs, tracing, configuration, handler extractors and the application wrapper: input, output or no state.
- Random identifiers and clock readings are parameters, assumed fresh and monotone.
- Shutdown of the runtime in the middle of a step.
