# A verified model of the actor IPC framework

The framework lets actors exchange commands, events and asks (requests that expect a reply) through bounded mailboxes.
This project models its core in Dafny and proves what the protocol keeps over every run:

* **Ask/reply** (`src/ipc.c`). The table of pending asks, its wrapping 32-bit id counter, and every lock section that
  changes it. `AskTable` holds the sections, on values and in place. The protocol is then studied at two grains:
  * `Core`, `CoreDrain`, `CoreSystem`, `IpcCoreSystem`: each API call is one step over a whole system of mailboxes.
    `IpcCore` performs the calls in place, and contains the pump of the deterministic port. `CallLaws` says of every call
    what it answers and does in every case, in terms of slots, mailboxes and spelled-out messages.
  * `Interleaving`, `AtMostOnce`, `Callbacks`, `Correlation`, `SingleReply`, `InterleavedDrain`: every call is cut
    where it releases the ask lock, so any number of threads can be between a section and its send, or between a
    failed send and its cleanup. Sends, timers and timeouts succeed, fail or fire as the environment likes. `Witnesses`
    builds two telling runs, step by step (`Steps`).
  * `Refinement`, `PumpRefinement`: each call, each dispatch, each turn of the pump and the pump's whole run at the first
    grain is an uninterrupted run of the second.
* **Mailboxes** (`Mailbox`). A ring of fixed-size byte slots that refines a bounded first-in-first-out queue, as in
  both user-space ports. `SlotLayout` covers the slot arithmetic.
* **Routing** (`Registry`, `Routing`, `Fnv`). Registration tables, lookup, handler dispatch, publish fan-out, and the
  hash that makes message ids.
* **Lifecycle** (`Lifecycle`), the **POSIX actor loop** (`ActorLoop`) and the **POSIX delayed-send handshake**
  (`DelayedSend`), each a state machine over all its runs. `ActorThread` is the POSIX actor in place over the byte
  ring: each of its sections is the step of `ActorLoop` of the same name.

Code that works in place is modelled in place (`Ring`, `PosixActor`, `PendingAsks`, `RegistrationTables`, `IpcCore`,
`Framework`, `Fnv1a`): each method equals a function of the old state, and the lemmas are about those functions. In the
interleaved model every ask has an instance number of its own, because ids can be given out again after the counter
wraps; the number, the histories (`asks`, `accepted`, `retired`, `runs`) and the ask that a reply or a cancel is meant
for (`on`) only observe. What a handler was given, it may keep and reply to later: that is an operation that lingers.

`dafny verify dfyconfig.toml` checks the project.

## Where the code is subtler than it looks

* **A second reply can be accepted.** A timeout whose post fails resets `reply_sent` even if a reply was already on
  its way (src/ipc.c:326). Call that a reopening of the ask when it has an answer. A second answer is accepted for an
  ask only after a reopening of that very ask (`SingleReply.AtMostOneAnswer`), and after each reopening one can be
  (`SingleReply.ReopeningAdmitsAnother`). `Witnesses.TwoAnswersAreReachable` gives a whole run, with the timer armed,
  the request delivered and its handler replying twice. Callbacks still run at most once.
* **Not every ask completes.** A reply that is too big, dropped by policy or cannot be sent frees the slot and no
  callback runs (src/ipc.c:656-675). What holds is that no ask stays *answered* without a message on its way.
* **Stopping or restarting an actor strands its answered asks**: the mailbox is emptied, the ask table is not looked at.
  `CoreDrain.PurgeStrandsItsOwnAnswers` says exactly when; the drain results are for runs without purges.
* **A self-ask can be completed by its own request**, exactly when the request id is the reply id, or is the reserved
  timeout id while a timeout is queued (`Correlation.RequestCompletesItsOwnAskIff`).
* **A command and an event of one name share an id.** Bound on one actor, the earlier binding takes both
  (`Registry.DispatchRunsItsBinding`, an if-and-only-if).
* **Publish does not return what include/ipc.h:556 and include/ipc.h:675 say.** The documentation promises the first
  negative failure; the code returns the first nonzero outcome, which can be the positive `IPC_DELIVERY_DROPPED`
  (src/ipc.c:789). It is that if and only if the first subscriber not served is full and drops
  (`CoreDrain.PublishReportsADropIff`; `CoreDrain.PublishCanReportADrop` has a world where it happens). The model
  follows the code.
* **Cancelling wins, failing does not undo a callback.** After a cancel returned 0 the callback never runs. An ask that
  returns an error may already have had its timeout callback, because the timer is armed before the request is sent
  (src/ipc.c:576-589); `Witnesses.FailedAskWasCalled` is such a run. Its callback runs if and only if dispatch took the
  ask out before the cleanup did (`Callbacks.FailedAskIsCalledIffClaimedBefore`), and its id is not pending afterwards.

`assert` in the registration code is modelled as compiled out: the code after it returns an error.

## Model

| member | source | states |
|---|---|---|
| AtMostOnce.AskedAndAnsweredAtMostOnce | src/ipc.c:285-680 | over every lock-granular interleaving from an empty table, each ask is either pending or retired, retired by exactly one section, its callback runs at most once, with its own function and in its asker's dispatch; used slots = reserved - retired |
| AtMostOnce.StepKeepsLedger | src/ipc.c:526-722 | every lock section, with any arguments, keeps: ids nonzero and pairwise distinct, unused slots zeroed, `timeout_queued` only with `reply_sent`, slots and asks matched one to one |
| AtMostOnce.CancelWins | src/ipc.c:615-633 | once a cancel has returned 0, that ask's callback never runs, whatever replies or timeouts are in flight |
| AtMostOnce.TakenOutIsNeverCalled | src/ipc.c:871-895 | an ask taken out by anything but dispatch (cancel, failed ask, failed or oversized reply) never has its callback run |
| AtMostOnce.FailedAskIsNotPending | src/ipc.c:589-600 | when the cleanup of a failed ask is done no slot carries its id |
| Correlation.CallbacksReceiveTheirReply | src/ipc.c:635-722 | over every interleaving where replies answer requests their callers hold, askers cancel with ids they were given, and no id still held or carried is given out again: a callback with result 0 gets byte for byte the payload of an accepted reply to that ask's own request and reply type; any other result is that of an accepted error reply to that request, or -ETIMEDOUT of the ask's own timeout; and every section that takes an ask out, and every accepted reply, was meant for that ask |
| Correlation.AcceptedReplyAnswersItsRequest | src/ipc.c:643-705 | the ask a reply or error reply is accepted for is the one whose request the caller holds, and the recorded header, result and payload are the caller's |
| Correlation.CancelTakesItsOwnAsk | src/ipc.c:615-633 | under the same use, a cancel succeeds if and only if the canceller's own ask is still pending, and takes out exactly that ask |
| Correlation.StepKeepsCorrelation | src/ipc.c:526-722 | every such step keeps each message, operation, held request, timer and handed-out id tied to the one ask that may be pending under its id |
| Correlation.StaleMessagesCompleteNothing | src/ipc.c:878-895 | a message of an ask that is gone runs no callback and changes no slot; it goes to its handler |
| Correlation.StaleTimersClaimNothing | src/ipc.c:305-315 | a timer that outlived its ask claims nothing |
| Correlation.RequestCompletesItsOwnAskIff | src/ipc.c:883-889 | a request completes its own ask if and only if it is a self-ask whose id is the reply id, or the timeout id while a timeout is queued |
| SingleReply.AtMostOneAnswer | src/ipc.c:653-663 | over every interleaving, a second reply or error reply was accepted for an ask only if some step rolled back a timeout of that very ask after it had its answer |
| SingleReply.ReopeningAdmitsAnother | src/ipc.c:322-330 | the converse: a run that reaches such a rollback can take it and then accept another answer for the same ask |
| SingleReply.AnsweredAskStaysClosed | src/ipc.c:313-330 | an ask that was answered or timed out accepts nothing more as long as no timeout of that ask is rolled back, whatever happens to others; every well-typed reply gets -EALREADY until it is retired |
| SingleReply.ClosedUnlessRolledBack | src/ipc.c:322-330 | step by step: an answered or timed-out ask stays so if and only if the step does not roll back a timeout of it |
| SingleReply.FailedPostReopens | src/ipc.c:322-330 | in every reachable state, a timeout whose post fails leads an answered ask with no timeout queued to such a rollback |
| Witnesses.TwoAnswersAreReachable | src/ipc.c:326 | a run from the empty table, with an armed timer, a delivered request and the API used as intended, in which one ask accepts two replies |
| Witnesses.FailedAskWasCalled | src/ipc.c:576-600 | a run in which the timer overtakes the request, the timeout's callback runs, and then the request cannot be sent and the ask fails |
| Callbacks.FailedAskIsCalledIffClaimedBefore | src/ipc.c:589-600 | whatever happens before and after, the callback of a failed ask is called if and only if dispatch took the ask out before its cleanup |
| Callbacks.DispatchedAsksAreCalledOnce | src/ipc.c:880-895 | over every interleaving, dispatch took an ask out if and only if its callback ran or is about to, never both, and no callback runs twice |
| InterleavedDrain.QuiescentMeansDrained | src/ipc.c:305-332 | over every interleaving without purges, an answered ask always has its message queued, on its way or being undone; at quiescence no pending ask is answered or timed out |
| InterleavedDrain.StepKeepsWitnesses | src/ipc.c:635-722 | each step but a purge keeps that |
| Refinement.CallIsARun | src/ipc.c:526-849 | each API call as one step is a run of lock-granular steps with the same table, id counter and mailboxes, and the run records exactly the reply or error reply it accepts or the ask it cancels |
| Refinement.DispatchIsARun | src/ipc.c:871-896 | so is each dispatch: take, claim, and then the callback of the very ask the message completes, on that message, or else its handler |
| PumpRefinement.TurnDependsOnItsCallbackOnly | src/ipc.c:891-904 | a turn makes the calls of the callback of the ask its message ends, or, if it ends none, of the handler; what any other callback would do does not matter |
| PumpRefinement.TurnIsARun | src/ipc.c:871-909 | a whole turn is a lock-granular run in which that callback is called exactly once, exactly when a slot is completed, followed by the runs of precisely the calls it makes; a handler keeps the message until its calls are done |
| PumpRefinement.PumpIsARun | src/port/test/ipc_test_port.c:200-235 | everything the pump does is such turns, one after the other |
| CoreDrain.DrainComplete | src/ipc.c:305-332 | along every run of calls and dispatches each answered or timed-out ask has a completing message in its asker's mailbox; with empty mailboxes no such ask is left |
| CoreDrain.CallStaysGood | src/ipc.c:507-849 | every call, with any arguments, keeps that and the table invariant, and only appends to mailboxes |
| CoreDrain.DispatchStaysGood | src/ipc.c:871-896 | so does every dispatch |
| CoreDrain.PurgeStrandsItsOwnAnswers | src/port/test/ipc_test_port.c:143-153 | emptying a mailbox keeps every answer reachable if and only if that actor has no answered ask |
| CoreDrain.FailedAskLeaksNothing | src/ipc.c:552-600 | an ask that fails anywhere leaves the table as it was and hands out no id |
| CoreDrain.SuccessfulAsk | src/ipc.c:526-606 | an ask that succeeds takes the first free slot under a fresh nonzero id, queues the request with that id at its command's actor, and cancelling it restores the table |
| CoreDrain.ReplyRoundTrip | src/ipc.c:635-678 | an accepted reply is queued for the asker with the replier's bytes, and dispatching it there runs the ask's callback and frees exactly its slot |
| CoreDrain.FanOutOffersEachOnce | src/ipc.c:776-799 | publish offers each subscriber the message once, as if alone, touches nobody else, and returns the first nonzero outcome in subscription order |
| CoreDrain.PublishReportsADropIff | src/ipc.c:781-792 | a publish returns a positive value, IPC_DELIVERY_DROPPED, if and only if the first subscriber that is not served is full and has the drop policy |
| CoreDrain.PublishCanReportADrop | src/ipc.c:789-790 | a well-formed world and a publish that return it |
| CoreDrain.OfferDelivers | src/ipc.c:784-788 | a subscriber is served if and only if it is started, the size fits and its mailbox has room, and then gets exactly one copy |
| CoreDrain.FreshWorldIsGood | src/ipc.c:285-303 | start-up satisfies the invariant |
| CallLaws.CancelLaw | src/ipc.c:615-633 | a cancel zeroes exactly the caller's own pending slot and changes nothing else, or changes nothing and answers -EINVAL, -EPERM or -ENOENT, each in its case |
| CallLaws.CancelSucceedsIff | src/ipc.c:615-633 | it answers 0 if and only if id and caller are given, the framework runs, and the caller has such an ask pending |
| CallLaws.CancelledAskIsGone | src/ipc.c:615-646 | after a cancel that answered 0, replies and error replies to that id answer -ENOENT, its timeout does nothing, and no dispatch returns its callback |
| CallLaws.ReplyErrorLaw | src/ipc.c:680-722 | every answer of an error reply and its exact effect: the slot is answered and the asker's mailbox gets the caller's result, or the slot is freed, or nothing changes |
| CallLaws.ErrorReplyRoundTrip | src/ipc.c:680-722 | a successful error reply is queued for the asker with the replier's result, and dispatching it runs the ask's callback and frees exactly its slot |
| CallLaws.ReplyLaw | src/ipc.c:635-678 | every answer of a reply and its exact effect, payload included |
| CallLaws.AskLaw | src/ipc.c:526-606 | the answer of an ask in every case, so exactly when it succeeds |
| CallLaws.AskEffect | src/ipc.c:552-606 | a successful ask changes the first free slot, the id counter and the end of the target's mailbox, and nothing else |
| CallLaws.TimeoutLaw | src/ipc.c:305-332 | a timeout marks the pending ask of that actor and queues -ETIMEDOUT, or leaves the ask open when there is no room, or changes nothing |
| CallLaws.TimeoutRoundTrip | src/ipc.c:305-332 | dispatching that message runs the ask's callback and frees exactly its slot |
| CallLaws.DispatchLaw | src/ipc.c:871-895 | dispatch takes the oldest message; an ask that it ends is freed and yields its own callback; no other slot, mailbox or actor changes |
| CallLaws.SendLaw | src/ipc.c:507-513 | every answer of a send and its exact effect, with the caller's bytes or zeros |
| CallLaws.SendToLaw | src/ipc.c:824-849 | likewise for a direct send, either kind |
| CallLaws.PublishLaw | src/ipc.c:776-820 | each subscriber ends up with the caller's bytes, a counted drop, or as before; nobody else changes; the answer is that of the first row not served |
| CallLaws.DeliverLaw | src/ipc.c:260-272 | a policed send is taken exactly when there is room, counted as a drop exactly when full with the drop policy, and otherwise refused without effect |
| CoreSystem.RankedHandlersWindDown | src/port/test/ipc_test_port.c:200-235 | handlers that make at most B calls, each posting only lower-ranked messages, satisfy the pump's termination condition with cost (B(s+1)+1)^rank for s subscriptions |
| CoreSystem.TurnLowers | src/port/test/ipc_test_port.c:206-231 | then each turn lowers the total cost of the queued messages |
| IpcCoreSystem.IpcCore.RunUntilIdle | src/port/test/ipc_test_port.c:200-235 | the pump ends, returns the number of dispatches, has done exactly the turns of its trace, leaves every listed started mailbox empty, and then leaves no answered ask in the table |
| IpcCoreSystem.IpcCore.Sweep | src/port/test/ipc_test_port.c:205-232 | a pass without progress found every listed mailbox empty; one with progress lowered the cost |
| IpcCoreSystem.IpcCore.TakeTurn | src/port/test/ipc_test_port.c:207-230 | a turn in place is the turn on values: the calls made are those of the callback that the ask section yields for the message taken, or else of the actor's handler for it |
| IpcCoreSystem.IpcCore.AskWithId | src/ipc.c:526-606 | in place, with the same error order, equals the call on values |
| IpcCoreSystem.IpcCore.ReplyTo | src/ipc.c:635-678 | likewise for replies |
| IpcCoreSystem.IpcCore.ReplyErrorTo | src/ipc.c:680-722 | likewise for error replies, which bypass the overflow policy |
| IpcCoreSystem.IpcCore.AskTimeoutExpired | src/ipc.c:305-332 | likewise for a timeout, including its rollback |
| IpcCoreSystem.IpcCore.AskCancel | src/ipc.c:615-633 | likewise for a cancel |
| IpcCoreSystem.IpcCore.PublishPrepared | src/ipc.c:776-799 | the loop over the subscriptions equals the fan-out on values |
| IpcCoreSystem.IpcCore.DeliverTo | src/ipc.c:260-272 | a send and its overflow policy equal the delivery on values |
| AskTable.ReserveFailsIffFull | src/ipc.c:552-574 | a reservation fails if and only if every slot is used |
| AskTable.AllocIdSucceeds | src/ipc.c:334-349 | with a free slot, id allocation succeeds for every counter value, across the wrap and the skipped zero |
| AskTable.AllocIdIterations | src/ipc.c:334-349 | its loop ends within N+1 iterations, within N when the counter does not pass zero |
| AskTable.AllocIdFresh | src/ipc.c:334-349 | the id is nonzero and no pending ask has it |
| AskTable.AllocIdIsFirstFree | src/ipc.c:334-349 | it is the first candidate not in use, and the counter is left one past it |
| AskTable.CandidatesDistinct | src/ipc.c:337 | the nonzero candidates do not repeat within a cycle of the counter |
| AskTable.SectionsKeepTable | src/ipc.c:305-332 | every lock section keeps the table invariant for any arguments |
| AskTable.ReserveKeepsTable | src/ipc.c:552-574 | so does the reservation |
| AskTable.AnsweredTurnsRepliesAway | src/ipc.c:653-656 | a well-typed reply to an answered ask gets -EALREADY and changes nothing |
| AskTable.PendingAsks.FindPendingAsk | src/ipc.c:285-293 | the scan finds the first slot with the id |
| AskTable.PendingAsks.AllocPendingAsk | src/ipc.c:295-303 | the scan finds the first free slot |
| AskTable.PendingAsks.AllocAskId | src/ipc.c:334-349 | the loop over the wrapping counter returns the specified id, counter and number of iterations |
| AskTable.PendingAsks.ReserveSlot | src/ipc.c:552-574 | the section in place equals the section on values |
| AskTable.PendingAsks.ClaimAskReply | src/ipc.c:643-663 | likewise, with every error case |
| AskTable.PendingAsks.ClaimForDispatch | src/ipc.c:880-891 | likewise |
| AskTable.PendingAsks.ClaimAskTimeout | src/ipc.c:307-315 | likewise |
| AskTable.PendingAsks.RollbackAskTimeout | src/ipc.c:323-330 | likewise |
| AskTable.PendingAsks.ClaimAskError | src/ipc.c:687-705 | likewise |
| AskTable.PendingAsks.CancelPending | src/ipc.c:624-632 | likewise |
| Mailbox.Ring.Enqueue | src/port/test/ipc_test_port.c:64-100 | over bytes and cursors, a send is the bounded queue's send: the message is appended whole (zeros for a NULL payload), or an error code and no change; the receive slot is left alone |
| Mailbox.Ring.PosixEnqueue | src/port/posix/posix_ipc_port.c:219-239 | likewise with the POSIX port's checks |
| Mailbox.SendAccepts | src/port/posix/posix_ipc_port.c:219-239 | exactly when each port takes a message, and what it answers otherwise |
| Mailbox.Ring.Store | src/port/posix/posix_ipc_port.c:38-61 | storing into the tail slot appends the message and leaves every queued slot's bytes alone |
| Mailbox.Ring.Take | src/port/posix/posix_ipc_port.c:92-95 | the head slot is copied out byte for byte, the receive slot reads as its message, and the rest of the queue remains |
| Mailbox.Ring.Init | src/port/test/ipc_test_port.c:102-126 | a started empty queue, or the error and what is left |
| Mailbox.Ring.Stop | src/port/test/ipc_test_port.c:134-141 | an empty queue that accepts nothing; cursors left behind are not observed before the next init |
| Mailbox.Ring.RestartQueue | src/port/test/ipc_test_port.c:143-153 | an empty queue, or -EPERM when not started; the receive slot is left alone |
| Mailbox.Ring.PosixRestart | src/port/posix/posix_ipc_port.c:419-424 | an empty queue; the message in the receive slot is still the one taken |
| Mailbox.Ring.Loaded | src/port/posix/posix_ipc_port.c:63-76 | reading the bytes of the receive slot gives back the message that was taken |
| Mailbox.Ring.TakeThenOverwrite | src/port/posix/posix_ipc_port.c:92-101 | why the receiver copies: after a take from a full ring the next accepted message is stored over the very slot just taken, while the receive slot still reads as the first |
| Mailbox.WriteSpells | src/port/posix/posix_ipc_port.c:38-61 | a write inside one slot's payload changes that slot's message only |
| Mailbox.BasesApart | src/port/posix/posix_ipc_port.c:33-36 | distinct slots occupy disjoint bytes inside the buffer |
| SlotLayout.AlignUpIsLeastMultiple | include/ipc.h:39 | for a power-of-two alignment and no overflow, the mask form is the least multiple not below the value |
| SlotLayout.AlignUpOverflows | include/ipc.h:39 | when the sum overflows the result is below the value |
| SlotLayout.SlotsHoldAndSeparate | include/ipc.h:51-56 | each slot holds header and largest payload with less than one alignment unit to spare at either, every base and payload is aligned, distinct slots never overlap |
| Fnv.StepBijective | src/ipc_internal.h:56 | each byte step is a bijection on 32-bit states |
| Fnv.OneByteApartHashesDiffer | src/ipc_internal.h:52-60 | names of one length that differ in exactly one byte hash differently, for every length |
| Fnv.SuffixKeepsApart | src/ipc_internal.h:52-60 | different states never meet under a common suffix |
| Fnv.Fnv1a | src/ipc_internal.h:52-60 | the loop computes the hash of the bytes before the terminator |
| Fnv.KnownHashes | src/ipc_internal.h:52-60 | the published values for the empty string and "a" |
| Registry.LazyIdsKeepNamesApart | src/ipc.c:154-163 | descriptors with lazy ids and names of one length that differ in one byte get different ids |
| Registry.EnsureIdSettles | src/ipc.c:154-163 | a lazy id depends on the name only, is settled once, and nothing else of the descriptor changes |
| Registry.AdmissionLaw | src/ipc.c:188-251 | what one more registration answers, in terms of those before it: name clash, repetition, full table, in this order; otherwise, and only then, start-up goes on |
| Registry.StartupTables | src/ipc.c:392-420 | after any successful start-up the tables hold exactly what was registered, in order, and handlers = routes + subscriptions |
| Registry.StartupIsUnambiguous | src/ipc.c:165-251 | an id names one message, a command has one route, an actor subscribes to an event once |
| Registry.HandlerTableNeverOverflows | src/ipc.c:411-414 | the handler-table-full abort never fires: a registration succeeds if and only if its route or subscription is admitted |
| Registry.CommandReachesItsActor | src/ipc.c:274-282 | a command's route leads to the actor that registered it |
| Registry.EventReachesItsActors | src/ipc.c:219-251 | an actor is subscribed if and only if it registered for the event |
| Registry.DispatchRunsItsBinding | src/ipc.c:898-904 | the handler scan finds a registration's own binding if and only if no earlier one of the other kind has its name on that actor |
| Registry.OneKindPerNameRoutesExactly | src/ipc.c:898-904 | with one kind per name, each message runs exactly the handler registered for it |
| Registry.RegistrationTables.RegisterHandler | src/ipc.c:392-420 | the registration in place equals the one on values, aborts included; closed registration changes nothing |
| Registry.RegistrationTables.RegisterCommand | src/ipc.c:188-217 | likewise for a route, with every error code |
| Registry.RegistrationTables.SubscribeEvent | src/ipc.c:219-251 | likewise for a subscription |
| Registry.RegistrationTables.DetectIdCollision | src/ipc.c:165-186 | -EEXIST if and only if some row has the id under another name |
| Registry.RegistrationTables.RegisterActor | src/ipc.c:370-390 | the actor list gets the actor at its end once |
| Registry.RegistrationTables.FindRoute | src/ipc.c:274-282 | the first route with the id, or none |
| Registry.RegistrationTables.FindHandler | src/ipc.c:898-904 | the first binding of the actor for the id, or none |
| Routing.SentCommandRunsItsHandler | src/ipc.c:485-513 | a registered command is queued at the actor that registered it exactly when there is room, with its id and the caller's bytes (zeros for none), touches nobody else, and is handled by its own handler |
| Routing.UnregisteredCommandIsRefused | src/ipc.c:493-497 | a send answers -ENOENT if and only if no actor registered the command |
| Routing.PublishedEventRunsItsHandlers | src/ipc.c:803-820 | a published event is queued once, with its id and the caller's bytes (zeros for none), at exactly the subscribers with room, and each runs its own handler |
| Lifecycle.StartStopsWhatItInitialized | src/ipc.c:926-956 | a start that fails at actor k stops exactly the initialized prefix, once each, in list order; one that succeeds stops none |
| Lifecycle.StartsAreSeparated | src/ipc.c:926-989 | over every call sequence, a generation followed by another was joined, was stopped if it had started, and stopped each initialized actor exactly once |
| Lifecycle.OnlyJoinReopens | src/ipc.c:958-970 | the framework becomes stopped if and only if a successful join meets a stopping one; a start succeeds only when stopped |
| Lifecycle.PhaseLaw | src/ipc.c:926-989 | what each call does in each phase: a stop of a running framework stops every actor in list order, a successful join of a stopping one ends the generation, and calls out of phase change nothing |
| Lifecycle.HooksAreCalledInPlace | src/ipc.c:913-989 | over every call sequence, each start hook is called between its actor's init and port start, each stop hook right before its actor's port stop, and no other hook is called |
| Lifecycle.CallKeepsLife | src/ipc.c:926-989 | every call keeps the invariant of the history |
| Lifecycle.Framework.StartAllActors | src/ipc.c:926-956 | the state and history after a start; it answers -EBUSY while stopping, -EALREADY while running, 0 exactly when every port call succeeded, else the first failure |
| Lifecycle.Framework.StartEach | src/ipc.c:933-955 | the list walk performs exactly the hook and port calls of the specified trace, and the first failing port call decides the outcome and the return code |
| Lifecycle.Framework.StopActorsThrough | src/ipc.c:913-924 | the loop stops the list up to and including its last argument |
| Lifecycle.Framework.StopAllActors | src/ipc.c:972-989 | the loop in place produces the specified trace and state |
| Lifecycle.Framework.RunAllActors | src/ipc.c:958-970 | the state after a join |
| DelayedSend.DelayedMessagesArriveIntact | src/port/posix/posix_ipc_port.c:168-206 | over every interleaving each delayed message is enqueued at most once, with its own header and bytes, and the shared buffer is never written under a thread that may still send |
| DelayedSend.SentUnlessCancelledInTime | src/port/posix/posix_ipc_port.c:185-205 | over every interleaving, a delayed message whose thread has returned was enqueued if and only if no caller told that thread to cancel before it left its section, and only after its wait expired |
| DelayedSend.LeavesOnlyWhenCancelledOrExpired | src/port/posix/posix_ipc_port.c:182-205 | the thread leaves its section exactly when it is cancelled or its wait has expired, and goes on to send exactly if it is not cancelled |
| DelayedSend.CallReturns | src/port/posix/posix_ipc_port.c:283-331 | when a call returns, no earlier thread can send any more, and a send_after has installed exactly its own message, unless it is too big or no thread could be created |
| DelayedSend.NoDeadlock | src/port/posix/posix_ipc_port.c:283-303 | after any run, a call under way can get closer to its return by some step of its own or of the thread it joins |
| DelayedSend.UndisturbedMessageArrives | src/port/posix/posix_ipc_port.c:168-206 | on a free port, a message that fits and is left alone until its delay is over is enqueued, whole |
| DelayedSend.ReturnCutsOffEarlierMessages | src/port/posix/posix_ipc_port.c:283-331 | once a send_after, stop or restart has returned, no message accepted earlier is ever enqueued |
| DelayedSend.CallerKeepsPort | src/port/posix/posix_ipc_port.c:380-393 | each step of a caller keeps the handshake invariant |
| DelayedSend.TimerKeepsPort | src/port/posix/posix_ipc_port.c:168-206 | each step of the timer thread keeps it |
| ActorLoop.MessagesAreConserved | src/port/posix/posix_ipc_port.c:82-106 | messages are handled in acceptance order, at most once; accepted = handled + queued + purged; sends = accepted + dropped + failed; the drop counter is the number of drops modulo 2^32 |
| ActorLoop.LoopExitsEmpty | src/port/posix/posix_ipc_port.c:88-105 | once entered, the loop is left only stopped with an empty mailbox; without restarts it has then handled everything accepted, in order |
| ActorLoop.SectionOutcome | src/port/posix/posix_ipc_port.c:88-105 | at each point where the thread looks: it takes the oldest message if there is one, otherwise leaves if and only if it was stopped |
| ActorLoop.StoppedActorDrains | src/port/posix/posix_ipc_port.c:88-105 | a stopped actor that nobody disturbs handles what is left in order and then leaves the loop |
| ActorLoop.SendOutcome | src/ipc.c:260-272 | what each send answers and which count it raises, in every case |
| ActorLoop.StopAndRestart | src/port/posix/posix_ipc_port.c:404-427 | a stop clears the flag only; a restart purges exactly what was queued and sets it |
| ActorLoop.HandlerReadsItsOwnCopy | src/port/posix/posix_ipc_port.c:93-98 | over any number of sends, stops and restarts while a handler runs, the message it reads is still the one it was given, the n-th accepted |
| ActorThread.PosixActor.Send | src/port/posix/posix_ipc_port.c:219-239 | on the byte ring, a send with its overflow policy is the loop model's step, and the bytes a running handler reads are untouched |
| ActorThread.PosixActor.Section | src/port/posix/posix_ipc_port.c:88-102 | on the byte ring, the loop's section is the model's: it takes the oldest message into the receive slot, waits, or leaves |
| ActorThread.PosixActor.Restart | src/port/posix/posix_ipc_port.c:419-424 | likewise for a restart, which may come from inside the handler: its message stays readable |
| ActorThread.PosixActor.Stop | src/port/posix/posix_ipc_port.c:404-407 | likewise for a stop |
| ActorThread.PosixActor.Enter | src/port/posix/posix_ipc_port.c:87-91 | likewise for the start of the thread |
| ActorThread.PosixActor.Wake | src/port/posix/posix_ipc_port.c:89-91 | likewise for a wake-up, spurious or not |
| ActorThread.PosixActor.HandlerReturns | src/port/posix/posix_ipc_port.c:98-102 | likewise for a handler's return |
| ActorLoop.StepKeepsTally | src/ipc.c:260-272 | every send is counted as accepted, dropped or failed |

## Left out

- The Zephyr port: it rests on kernel objects whose code is not part of this model.
- pthread, malloc, clock and condition-variable internals: lock operations are atomic, allocation may fail, a timer may fire at any time.
- Memory ordering below the lock and atomic level, and the padding and encoding of the slot header: headers are kept as values beside the payload bytes of their slots.
- Handlers, callbacks and hooks: any finite list of API calls; the start and stop hooks appear in the lifecycle trace only.
- `ipc_actor_fail`, supervision and the failure hook, of which only the mailbox restart is modelled.
- Liveness: an ask need not get an answer, and the code does not promise one.
- The calls of `IpcCore` run over mailboxes as queues; that the deterministic port's byte ring behaves as such a queue is proved in `Mailbox`.
- The linked list of actors is a sequence, and the deterministic port's fixed number of actor states is not a limit.
- `ipc_send_after_raw` beyond the port's handshake, and the unsupported delayed sends of the deterministic port.
- `deadline_ms`, which is written and never read.
- Macro adapters, constructor registration, diagnostics, the build without asks, and resetting state between tests.
- IpcCoreSystem.IpcCore.RunUntilIdle: requires that handlers wind down, since a pump over handlers that keep sending does not end in the source either; handlers make API calls but do not stop, restart or fail actors, which would purge mailboxes.
- IpcCoreSystem.IpcCore.TakeTurn: which handler is bound to a message is the business of `Registry` and `Routing`; here the actor and the message determine it.
- DelayedSend.ReturnCutsOffEarlierMessages: callers for one actor are serialized, as the code needs; the delay itself is a wake-up at any time.
- ActorLoop.LoopExitsEmpty: the order claim is for runs without a restart, which purges and sets the actor running again.
- Correlation.CallbacksReceiveTheirReply: assumes no id is given out again while a message, operation, timer, held request or asker still has it, that replies are made with requests their callers received and cancels with ids their callers were given, and that a self-ask's request id is neither its reply id nor the timeout id. A reply made from a forged request, or a cancel with a guessed id, acts on whatever ask has that id.
- ActorThread.PosixActor.Send: a mailbox of depth zero, which refuses every send, is covered by `ActorLoop` only.
- Lifecycle.StartsAreSeparated: callers of start, stop and join are serialized.
- Refinement.CallIsARun: the interleaved model lets any send fail, so it allows more than the mailboxes of the atomic one.
