# A quiz platform's stateful cores, in Dafny

The repository runs live quizzes. This project models the parts of it that keep state under concurrency, and proves what
they promise over every run:

- `room/` - the room actor, one mailbox per quiz room. `RoomSpec` gives each command as a function from room to room,
  `RoomActor` the actor itself, whose handlers update its variables in place and are proved to do exactly that.
  `RoomLog` reads an event log without looking at any room; `RoomInvariant` and `RoomLedger` hold the invariant,
  `RoomEffects` says what each command does and when, `RoomRuns`, `RoomTimers`, `RoomProgress` and `RoomReplay` are the
  other theorems about every reachable room.
- `queue/` - the bot update queue: ingress, runners in one consumer group, idempotency keys, retries, dead letters and
  two nested semaphores. `QueueModel` is the protocol between awaits, `QueueTask` what one task does by itself, `BotQueue`
  the program of ingress and runners, `QueueRuns`, `QueueServing` and `QueueProgress` the theorems.
- `gateway/` - the WebSocket gateway's drop-oldest room queue and its hub. `HubModel` has one step for each section under
  a lock, `RoomHub` the two objects, `HubRuns` the theorems.
- `redis/` - the retrying Redis operations, where a command may take effect after its caller has given up. `RedisModel`
  has concurrent callers, `RedisClient` the retry loop and the scripts, `RedisRuns` the theorems.
- `entitlements/` - usage counters and the cache over them. `UsageModel` has concurrent requests,
  `EntitlementsService` the service, `UsageRuns` the theorems.

A run is a sequence of steps from the initial state; `Reachable` means at the end of some run. Each component has an
invariant that every step keeps (`StepKeeps`), and its theorems follow from it for every reachable state. What a log,
a history or a ledger records is bookkeeping of the model and never looked at by an operation.

## What turned out otherwise than one might expect

Each of these is a sequence of steps the code can take, followed by the exact guarantee that remains.

- A round can end while a present player of the active team has not answered (`RoomWitness.EarlyEnd`), because the
  locked set keeps players who left. It ends exactly as `RoomRuns.RoundEndsWhen` says.
- An update can be acknowledged without ever being handled (`QueueWitness.AckedYetNeverHandled`), since a key outlives
  the task that set it, be it through a crash or a lost reply. `QueueServing.ServableExactlyWhen` and
  `QueueServing.ServableAnewExactlyWhen` say, of any state, whether an update can still be handled or dead-lettered. If
  all its entries are acknowledged, it was (`QueueRuns.AllAckedMeansDone`).
- A connection can be inserted into a stopped entry (`HubRuns.InsertedTooLate`); `HubRuns.InTheRoomIffInsertedInTime`
  says when.
- A caller can be told that a pin is taken which it took itself (`RedisWitness.WinnerToldItLost`), and one stored ticket
  can be consumed twice (`RedisWitness.OneTicketTwoCallers`): each if and only if calls are retried at all
  (`RedisWitness.LosersLostToOthersExactlyWithoutRetries`, `RedisWitness.TicketsGoOnceExactlyWithoutRetries`).
- A request over its quota can be allowed (`UsageWitness.AllowedOverQuota`), as `report_usage` reads through the cache it
  should refresh: a settled figure stays until it expires (`UsageRuns.CachedFigureStays`).
  `UsageRuns.CheckIsWrongExactlyWhen` says when, by what is cached and what was posted since. A denial is always
  justified (`UsageRuns.DeniedOnlyOverQuota`).
- A figure cached for a past month can exceed that month's usage (`UsageWitness.MonthsMixed`), exactly as
  `UsageRuns.CacheExceedsExactlyWhen` says: a report of that user and feature straddled the end of the month and brought
  a later one's larger usage. No decision is made on such a figure (`UsageRuns.NoDecisionStrays`).

## Model

| member | source | states |
|---|---|---|
| `RoomRuns.ReachableHolds` | richcrab/services/game/src/room_actor.rs:291-743 | Every room reached by any run of commands, firing timers, queued timeouts and passing time satisfies the whole invariant: structure, log grammar, time, ledgers, credits, balance, result and wake-ups. |
| `RoomInvariant.StepKeeps` | richcrab/services/game/src/room_actor.rs:325-743 | Each command, timeout, timer and tick keeps that invariant. |
| `RoomInvariant.CreatedHolds` | richcrab/services/game/src/room_actor.rs:291-323 | A newly spawned room satisfies it. |
| `RoomRuns.RoundNeverStuck` | richcrab/services/game/src/room_actor.rs:601-628 | In every reachable room in progress some wake-up carries the current question: a queued `RoundTimeout`, or a live timer that fires no later than the round's end, whatever stale timeouts, detached tasks, pauses, restarts or early closes came before. |
| `RoomProgress.TimersFinishWithin` | richcrab/services/game/src/room_actor.rs:601-628 | Without any client, and with timers firing once their delay is over, a game in progress cannot take more wake-ups than a bound computed from its rounds, tasks and mailbox: each timer that fires and each message handled, be it stale, early so that it re-arms, or due, counts against it. |
| `RoomProgress.TimersAloneFinish` | richcrab/services/game/src/room_actor.rs:160-172 | From every room in progress, and however its messages are queued, a run exists in which time passes, timers fire when their delay is over and messages are handled first in, first out, and the game is finished. |
| `RoomProgress.WakeUpDescends` | richcrab/services/game/src/room_actor.rs:601-628 | Each timer that fires on time and each `RoundTimeout` handled - of another question, before the round ends, or after - lowers that bound or finishes the game. |
| `RoomTimers.WakeUpsAreNotLost` | richcrab/services/game/src/room_actor.rs:160-178 | No command loses a wake-up but the stored timer it may abort; a firing timer becomes a message; a message leaves only by being handled, which aborts nothing. |
| `RoomTimers.TimersFitTheRound` | richcrab/services/game/src/room_actor.rs:516-564 | The stored timer, if live, is the current round's and wakes exactly at its end, and a paused room stores none; the shown timer runs out within the round's last second and shows the whole seconds left in a pause. |
| `RoomRuns.UnbrokenFollowsScript` | richcrab/services/game/src/room_actor.rs:247-276 | A log accepted by the game grammar lists, since the last `GameStarted`, the bank's questions started and ended one after the other, none skipped or repeated, and `GameEnded` only after the last. |
| `RoomRuns.EventLogFollowsGame` | richcrab/services/game/src/room_actor.rs:462-485 | In every reachable room that list is the script up to the current question, in a finished room the whole script and `GameEnded`, in a lobby or closed room empty. |
| `RoomRuns.AnswersWithinRounds` | richcrab/services/game/src/room_actor.rs:689-735 | `AnswerLocked` and `ScoreUpdated` stand only between the start and the end of a round. |
| `RoomReplay.LogTellsTheRoom` | richcrab/services/game/src/room_actor.rs:346-378 | What the events tell without the question bank - who is present under which name and team, every score, how many questions were asked and which one stands, who has answered it - equals what the actor holds. |
| `RoomRuns.ScoresConserved` | richcrab/services/game/src/room_actor.rs:678-687 | Each present player's score is the saturating sum of their own deltas; each team's score is the saturating sum of what its present and its departed members were ever credited, across any number of games. |
| `RoomRuns.TeamTotalIsRosterSum` | richcrab/services/game/src/room_actor.rs:678-687 | The deltas credited to a team are exactly those of everybody ever assigned to it. |
| `RoomRuns.AnnouncedScoresAreRight` | richcrab/services/game/src/room_actor.rs:74-83 | Every score announced in `ScoreUpdated`, `RoundEnded` and `GameEnded` is the sum credited in the log before it. |
| `RoomRuns.TimeoutIsFair` | richcrab/services/game/src/room_actor.rs:601-628 | A timeout that ends a round does so in progress and after at least thirty seconds of un-paused play. |
| `RoomRuns.TimeAddsUp` | richcrab/services/game/src/room_actor.rs:499-570 | Un-paused time and time left make up at least thirty seconds at every moment of a game, exactly thirty while any is left, under any pauses and resumes. |
| `RoomRuns.RefusalsChangeNothing` | richcrab/services/game/src/room_actor.rs:418-600 | A refused command leaves the room as it was, and a command reserved to the owner is refused to everybody else. |
| `RoomRuns.AcceptedAnswersAreFair` | richcrab/services/game/src/room_actor.rs:629-687 | An accepted answer is the player's first to the question being asked, from the team whose turn it is, with less than thirty seconds played or at the very instant the round ends, and scores 100 or 0 by the marking rule. |
| `RoomRuns.TeamsAlternate` | richcrab/services/game/src/room_actor.rs:103-109 | Team A answers the even questions, team B the odd ones. |
| `RoomRuns.HalfTheRounds` | richcrab/services/game/src/room_actor.rs:268-275 | Of `n` questions team A has the larger half, team B the smaller. |
| `RoomRuns.GainsBounded` | richcrab/services/game/src/room_actor.rs:648-687 | Within one game of `n` questions a player of team A gains at most 100 for each of ceil(n/2) questions, of team B of floor(n/2), and locks at most one answer a round. |
| `RoomRuns.RoundEndsWhen` | richcrab/services/game/src/room_actor.rs:720-735 | An accepted answer ends the round if and only if the active players still unanswered are no more than those who answered and left. |
| `RoomRuns.RoundEndsWithLastAnswer` | richcrab/services/game/src/room_actor.rs:720-735 | In a round nobody left, it ends if and only if the locked set becomes the active team's membership. |
| `RoomRuns.SomebodyIsUnanswered` | richcrab/services/game/src/room_actor.rs:189-195 | Until then the locked set is part of the active team, and somebody of a non-empty team is unanswered. |
| `RoomWitness.EarlyEnd` | richcrab/services/game/src/room_actor.rs:720-735 | A run in which a round ends although a present player of the active team has not answered, because somebody answered and left. |
| `RoomRuns.ResultIsRight` | richcrab/services/game/src/room_actor.rs:197-245 | For every iteration order of the maps, finishing records exactly the current player and team scores and winners nobody beats, a player winner if and only if there are players. |
| `RoomRuns.ResultIffFinished` | richcrab/services/game/src/room_actor.rs:462-464 | A reachable room has a result if and only if it is finished, and the result still agrees with the scores. |
| `RoomInvariant.BestIsMaximal` | richcrab/services/game/src/room_actor.rs:205-212 | The winner loop ends with a key of maximal score, for any order. |
| `RoomInvariant.BestIsLast` | richcrab/services/game/src/room_actor.rs:205-212 | Of several keys with that score it ends with the last one the map yields. |
| `RoomRuns.LifecycleMoves` | richcrab/services/game/src/room_actor.rs:402-415 | The lifecycle makes only the listed moves, each by its own command. |
| `RoomRuns.NoWayBack` | richcrab/services/game/src/room_actor.rs:332-335 | The lobby is never re-entered; a closed room stays closed and empty. |
| `RoomRuns.RoundMatchesBank` | richcrab/services/game/src/room_actor.rs:117-132 | In a game there is a round whose id, text and options are the bank's at its index, the remaining time is stored exactly while paused, and starting a round cannot fail. |
| `RoomInvariant.JoinBalances` | richcrab/services/game/src/room_actor.rs:85-101 | A join narrows the difference between the teams by one, or makes it one. |
| `RoomRuns.TeamsStayBalanced` | richcrab/services/game/src/room_actor.rs:327-346 | In every reachable room the teams differ by at most one more than the number of departures. |
| `RoomEffects.CreatorOwnsTheRoom` | richcrab/services/game/src/room_actor.rs:291-323 | A room is created as an empty lobby without points, and whoever created it is its owner after every run. |
| `RoomEffects.JoinTakesEffect` | richcrab/services/game/src/room_actor.rs:327-381 | In a lobby, and only there, a join adds exactly the player named, without points, to the smaller team (team A if equal), announces both and replies the new id; otherwise it is refused with its reason. |
| `RoomEffects.LeaveTakesEffect` | richcrab/services/game/src/room_actor.rs:382-417 | A player who is there, and nobody else, is gone after leaving; the room closes exactly if they were the last in a lobby; each is announced. |
| `RoomEffects.KickTakesEffect` | richcrab/services/game/src/room_actor.rs:418-443 | The owner, and nobody else, removes exactly the player named; the room never closes by it. |
| `RoomEffects.StartTakesEffect` | richcrab/services/game/src/room_actor.rs:444-498 | The owner of a room with players starts a game in any lifecycle state: the bank is the one given, its first question is asked of team A for thirty seconds from now and announced with its end, nobody's score changes, the stored timer is aborted and a new one sleeps to the end. |
| `RoomEffects.PauseTakesEffect` | richcrab/services/game/src/room_actor.rs:499-528 | Pausing a game in progress keeps exactly the time left, aborts the stored timer and stores none; all else stays. It is refused outside a game. |
| `RoomEffects.ResumeTakesEffect` | richcrab/services/game/src/room_actor.rs:529-570 | Resuming a paused game puts it in progress with its round ending after exactly the time that was kept, and a live stored timer for that question waking then. |
| `RoomEffects.NextQuestionTakesEffect` | richcrab/services/game/src/room_actor.rs:571-600 | The owner ends the round of a game in progress: `RoundEnded`, and then the next question is asked for thirty seconds, or after the last the game is finished with `GameEnded`; the stored timer is replaced by one for the round now current. |
| `RoomEffects.TimeoutTakesEffect` | richcrab/services/game/src/room_actor.rs:601-628 | A timeout of the current question ends its round in the same way if its end has come, and otherwise changes nothing but sets a timer to that end; any other is dropped; no sleeping timer is aborted. |
| `RoomEffects.AnswerAcceptedExactlyWhen` | richcrab/services/game/src/room_actor.rs:629-675 | An answer is accepted if and only if it is in time, to the question asked, by a present player of the team whose turn it is who has locked none this round; any other is refused with the first reason that applies, and changes nothing. |
| `RoomEffects.AnswerTakesEffect` | richcrab/services/game/src/room_actor.rs:648-735 | An accepted answer locks the player for the round; exactly the points replied, 100 if right by the marking rule and 0 if not, go to the player's score, the team's score and the events, and to nobody else; the round ends, as above, exactly if as many have now answered as the team has members. |
| `RoomActorModule.Tally` | richcrab/services/game/src/room_actor.rs:203-223 | The winner loop computes the recorded scores and the winner of the specification, for the order the map yields. |
| `RoomActorModule.RoomActor.SpawnRoundTimeout` | richcrab/services/game/src/room_actor.rs:160-172 | Spawning adds one live task for the question and stores its handle. |
| `RoomActorModule.RoomActor.CancelRoundTimeout` | richcrab/services/game/src/room_actor.rs:174-178 | Cancelling aborts the stored task only; queued messages and detached tasks stay. |
| `RoomActorModule.RoomActor.StartQuestion` | richcrab/services/game/src/room_actor.rs:111-158 | Starting a round sets round, timer and event as specified, or refuses without a change. |
| `RoomActorModule.RoomActor.Finish` | richcrab/services/game/src/room_actor.rs:197-245 | Finishing a game as specified. |
| `RoomActorModule.RoomActor.CloseRound` | richcrab/services/game/src/room_actor.rs:247-276 | Closing a round and going on, or finishing, as specified. |
| `RoomActorModule.RoomActor.HandleJoin` | richcrab/services/game/src/room_actor.rs:327-381 | The Join arm. |
| `RoomActorModule.RoomActor.HandleLeave` | richcrab/services/game/src/room_actor.rs:382-417 | The Leave arm. |
| `RoomActorModule.RoomActor.HandleKick` | richcrab/services/game/src/room_actor.rs:418-443 | The KickPlayer arm. |
| `RoomActorModule.RoomActor.HandleStartGame` | richcrab/services/game/src/room_actor.rs:444-498 | The StartGame arm, from any lifecycle state. |
| `RoomActorModule.RoomActor.HandlePause` | richcrab/services/game/src/room_actor.rs:499-528 | The PauseGame arm. |
| `RoomActorModule.RoomActor.HandleResume` | richcrab/services/game/src/room_actor.rs:529-570 | The ResumeGame arm, in place; `RoomEffects.ResumeTakesEffect` says what it does. |
| `RoomActorModule.RoomActor.HandleNextQuestion` | richcrab/services/game/src/room_actor.rs:571-600 | The NextQuestion arm, including the timer spawned after the last round. |
| `RoomActorModule.RoomActor.HandleTimeout` | richcrab/services/game/src/room_actor.rs:601-628 | The RoundTimeout arm, including the detached handle. |
| `RoomActorModule.RoomActor.HandleSubmit` | richcrab/services/game/src/room_actor.rs:629-738 | The SubmitAnswer arm with its checks in their order, in place; `RoomEffects.AnswerTakesEffect` says what it does. |
| `RoomActorModule.RoomActor.Serve` | richcrab/services/game/src/room_actor.rs:325-743 | The actor's loop over any run ends in the state the run leads to, with the invariant. |
| `QueueInvariant.StepKeeps` | richcrab/services/bot_runner/src/main.rs:353-402 | Every step of ingress, runners, crashes and failing Redis calls keeps the queue's invariant. |
| `QueueRuns.HistoryTellsTheSteps` | richcrab/services/bot_runner/src/main.rs:353-402 | An entry counts as handled exactly from the step in which its handler returns Ok, as entering its handler exactly when it hears that it has set its key, and as acknowledged, claimed, skipped, copied or dead-lettered exactly from the Redis command with that effect. |
| `QueueRuns.AckedForAReason` | richcrab/services/bot_runner/src/main.rs:353-402 | An acknowledged entry had its handler succeed, or was skipped for another entry of its update that had set the key, or has a copy one attempt on in the same partition, or a dead letter at the limit. |
| `QueueRuns.CopiesEndSomewhere` | richcrab/services/bot_runner/src/main.rs:661-713 | Following copies from any entry ends at one that is unread, pending, trimmed, handled, skipped or dead-lettered. |
| `QueueRuns.AllAckedMeansDone` | richcrab/services/bot_runner/src/main.rs:353-402 | Once every entry of an update is acknowledged, one of them was handled or dead-lettered. |
| `QueueWitness.AckedYetNeverHandled` | richcrab/services/bot_runner/src/main.rs:365-374 | Runs, one with a crash and one with only a lost reply, in which an entry is acknowledged and its update stranded with its key held. |
| `QueueServing.ServableExactlyWhen` | richcrab/services/bot_runner/src/main.rs:353-402 | Some run without a new delivery handles or dead-letters an update if and only if it has been, or the holder of its key has a task, or its key is free and some entry of it is unread, waits for its claim or is being retried, or some entry is about to be dead-lettered. |
| `QueueServing.ServableAnewExactlyWhen` | richcrab/services/bot_ingress/src/main.rs:162-193 | Some run at all does if and only if it has been, or its key is free, or one of the other conditions holds: no new delivery helps while a lost key is held. |
| `QueueServing.StrandedForGood` | richcrab/services/bot_runner/src/main.rs:213-234 | An update for which none of this holds stays so under every step, new deliveries included if its key is held. |
| `QueueRuns.OneHandlerPerUpdate` | richcrab/services/bot_runner/src/main.rs:725-735 | Across all runners at most one entry of an update is in its handler or has returned Ok. |
| `QueueRuns.DeletesOnlyItsOwnKey` | richcrab/services/bot_runner/src/main.rs:390-397 | A failing task deletes its idempotency key only while it is the one that set it. |
| `QueueRuns.CapsHold` | richcrab/services/bot_runner/src/main.rs:353-356 | A runner's handlers never exceed its global limit, nor its limit for each bot. |
| `QueueRuns.NoDeadlock` | richcrab/services/bot_runner/src/main.rs:404-410 | With both limits at least one, wherever a task waits some task of that runner can step. |
| `QueueRuns.CopiesApproachTheLimit` | richcrab/services/bot_runner/src/main.rs:690-713 | Each copy strictly approaches the attempt limit and stays in its bot's partition. |
| `QueueRuns.DeadLettersAreAtTheLimit` | richcrab/services/bot_runner/src/main.rs:666-689 | Every dead letter carries attempt max(1, max_attempts), and its entry was neither handled nor copied. |
| `QueueRuns.RunsAreBounded` | richcrab/services/bot_runner/src/main.rs:661-713 | One update received at ingress sets its key, and so enters a handler, at most max(1, max_attempts) times, copies included. |
| `QueueProgress.WorkIsBoundedByUpdates` | richcrab/services/bot_runner/src/main.rs:661-713 | A whole run from the start takes at most nine steps, other than receiving updates, starting runners and their crashes, for each of the max(1, max_attempts) attempts of each update received. |
| `QueueProgress.WorkIsBounded` | richcrab/services/bot_runner/src/main.rs:661-713 | From any state of a run the steps still to come are bounded by a sum over the entries and tasks there, and so many for each update received later; without one, every run of work ends. |
| `BotQueueModule.BotQueue.EnqueueUpdate` | richcrab/services/bot_ingress/src/main.rs:162-193 | Ingress appends the update as given, with attempt 0, to the partition its bot hashes to, unread. |
| `BotQueueModule.BotQueue.RunLoopTurn` | richcrab/services/bot_runner/src/main.rs:213-234 | A turn of the loop reads nothing while no global permit is free, and otherwise spawns a task for each entry delivered. |
| `BotQueueModule.BotQueue.GetBotSemaphore` | richcrab/services/bot_runner/src/main.rs:404-410 | The bot's semaphore is created full when first asked for. |
| `BotQueueModule.BotQueue.SetOnce` | richcrab/services/bot_runner/src/main.rs:725-735 | Claiming the idempotency key, with a reply, a lost reply or nothing sent. |
| `BotQueueModule.BotQueue.DeleteKey` | richcrab/services/bot_runner/src/main.rs:737-743 | Deleting it, likewise. |
| `BotQueueModule.BotQueue.RetryOrDeadLetter` | richcrab/services/bot_runner/src/main.rs:661-713 | Appending the copy, or the dead letter at the limit, likewise. |
| `BotQueueModule.BotQueue.Ack` | richcrab/services/bot_runner/src/main.rs:715-723 | Acknowledging the entry and dropping both permits. |
| `BotQueueModule.BotQueue.Resume` | richcrab/services/bot_runner/src/main.rs:353-402 | A task resumed at an await does exactly the protocol's step there, or waits for a permit; after its handler it goes on as the handler returned. |
| `BotQueueModule.BotQueue.ProcessEntry` | richcrab/services/bot_runner/src/main.rs:353-402 | `process_entry` as a whole is a run of the protocol that returns or waits for a permit. When it returns it has done exactly what its answers imply (`QueueTask.Processed`): which key stays set, what the history records, whether a copy or a dead letter is left and the entry acknowledged, every permit given back. Where it waits it has done nothing. |
| `QueueTask.TaskObeysItsAnswers` | richcrab/services/bot_runner/src/main.rs:370-402 | A task that finds its key free and hears so runs its handler and no other does; its entry is then handled if and only if that returns Ok; with all replies it is otherwise copied or dead-lettered and the key free again, one that finds the key held is skipped, and either way it is acknowledged. |
| `QueueTask.StepIsOnTheWay` | richcrab/services/bot_runner/src/main.rs:353-402 | Whatever step a task takes for what it is answered, it has done so far exactly what leads to its phase, or has returned with everything done. |
| `BotQueueModule.EveryTaskIsLive` | richcrab/services/bot_runner/src/main.rs:213-234 | Every task of every reachable queue meets what `ProcessEntry` asks for, and has done nothing before it asks for its key. |
| `HubInvariant.StepKeeps` | defay1x9/src/ws_gateway.cpp:318-345 | Every section under a lock, of any connection, dispatcher or stream, keeps the hub's invariant. |
| `HubRuns.EveryMessageIsSomewhere` | defay1x9/src/ws_gateway.cpp:138-147 | Each message an entry accepted is exactly one of sent, dropped and queued; the queue is the newest part of what was accepted, at most 256 long. |
| `HubRuns.RunningTakesAll` | defay1x9/src/ws_gateway.cpp:138-147 | In every run an entry that is not stopped has accepted exactly the messages it was given, in that order. |
| `HubRuns.EnqueueTakesEffect` | defay1x9/src/ws_gateway.cpp:138-147 | A running entry takes every message as the newest of its queue, and if it held 256 drops exactly its oldest; a stopped one takes none; nothing else changes. |
| `HubRuns.DispatchTakesEffect` | defay1x9/src/ws_gateway.cpp:185-199 | A dispatch sends the oldest queued message, once, to exactly those of the entry's connections that are connected. |
| `HubRuns.DroppedForNewerOnes` | defay1x9/src/ws_gateway.cpp:142-144 | A message is dropped only after 256 newer ones were accepted. |
| `HubRuns.SentAndReceivedInOrder` | defay1x9/src/ws_gateway.cpp:185-200 | What is sent, and what each connection receives, is an in-order subsequence of what was accepted, without repetition. |
| `HubRuns.ReceivesAllThatIsSent` | defay1x9/src/ws_gateway.cpp:195-197 | While a connection stays in its entry and connected, it receives exactly what the entry sends from then on, in that order. |
| `HubRuns.StoppedRunsDry` | defay1x9/src/ws_gateway.cpp:185-200 | A stopped entry stays stopped and accepts nothing; its dispatcher sends what was left, in order, and nothing else. |
| `HubRuns.RegisteredMeansRunning` | defay1x9/src/ws_gateway.cpp:329-345 | An entry is registered if and only if it is not stopped, so a room never has two running entries. |
| `HubRuns.InTheRoomIffInsertedInTime` | defay1x9/src/ws_gateway.cpp:406-413 | An open connection is in its room's registered entry if and only if the entry it acquired was still running when it was inserted. |
| `HubRuns.InsertedTooLate` | defay1x9/src/ws_gateway.cpp:406-413 | A run in which a connection is inserted into a stopped entry. |
| `HubRuns.NoRoomIsLeft` | defay1x9/src/ws_gateway.cpp:656-706 | Once all connections have come and gone, nothing is registered and every entry is stopped. |
| `RoomHubModule.RoomHubEntry.EnqueueRoomMessage` | defay1x9/src/ws_gateway.cpp:138-147 | The bounded drop-oldest append: a running entry always takes the message as its newest, at 256 losing its oldest; a stopped one takes none. |
| `RoomHubModule.RoomHubEntry.RunDispatchLoop` | defay1x9/src/ws_gateway.cpp:185-200 | From one wait to the next the dispatcher empties the queue in order, each message to the entry's connections still connected, and has ended if stopped. |
| `RoomHubModule.RoomHub.AcquireRoomEntry` | defay1x9/src/ws_gateway.cpp:318-327 | The registered entry, or a new empty one that is then registered; every registered entry is running. |
| `RoomHubModule.RoomHub.StopRoomIfEmpty` | defay1x9/src/ws_gateway.cpp:329-345 | Stops and unregisters the entry if and only if it has no connections, and touches no other. |
| `RoomHubModule.RoomHub.HandleNewConnection` | defay1x9/src/ws_gateway.cpp:406-413 | Undisturbed, a new connection is in the registered entry of its room. |
| `RoomHubModule.RoomHub.HandleConnectionClosed` | defay1x9/src/ws_gateway.cpp:683-706 | Undisturbed, closing removes the connection, and the room if it was the last. |
| `RedisInvariant.StepKeeps` | richcrab/shared/src/redis_client.rs:182-243 | Sending, executing late or never, replying, giving up and expiring keep the invariant of Redis and its callers. |
| `RedisRuns.TicketGoesToOneCaller` | richcrab/shared/src/redis_client.rs:7-13 | Two callers given a value by one ticket key were given those of two different writes of it. |
| `RedisRuns.ConsumersAreFew` | richcrab/shared/src/redis_client.rs:217-243 | No more callers get a value from a key than writes to it took effect. |
| `RedisRuns.OneIssuersTicket` | richcrab/shared/src/redis_client.rs:100-130 | A ticket stored by one call is consumed by at most `max_retries` + 1 callers: once without retries. |
| `RedisWitness.OneTicketTwoCallers` | richcrab/shared/src/redis_client.rs:100-130 | A run in which a ticket stored by one call is consumed by two callers, its first attempt coming through late. |
| `RedisWitness.TicketsGoOnceExactlyWithoutRetries` | richcrab/shared/src/redis_client.rs:100-130 | In all runs a ticket stored by one call goes to at most one caller if and only if `max_retries` is 0. |
| `RedisRuns.PinGoesToOneCaller` | richcrab/shared/src/redis_client.rs:63-98 | In one life of a pin's key at most one caller is told that it is theirs: the one whose command began that life. |
| `RedisRuns.PresentKeyIsNotWonAgain` | richcrab/shared/src/redis_client.rs:63-98 | While a pin's key is there, no command newly takes it. |
| `RedisRuns.LostToAnother` | richcrab/shared/src/redis_client.rs:63-98 | A caller told that a pin is taken is told so because of another command, and at its first attempt because of another caller. |
| `RedisWitness.WinnerToldItLost` | richcrab/shared/src/redis_client.rs:63-98 | A run in which a caller is told that a pin is taken which its own first attempt took. |
| `RedisWitness.LosersLostToOthersExactlyWithoutRetries` | richcrab/shared/src/redis_client.rs:63-98 | In all runs a caller told that a pin is taken is told so of another caller if and only if `max_retries` is 0. |
| `RedisRuns.NumbersDiffer` | richcrab/shared/src/redis_client.rs:15-21 | In one life of a counter no two callers see the same number. |
| `RedisRuns.FewSeeLowNumbers` | richcrab/shared/src/redis_client.rs:182-215 | At most `L` callers ever see a number up to `L` in one life of a counter. |
| `RedisRuns.CounterCountsIncrements` | richcrab/shared/src/redis_client.rs:15-21 | A counter holds exactly the number of increments that took effect in its life, seen or not. |
| `RedisRuns.AttemptsAreBounded` | richcrab/shared/src/redis_client.rs:189-214 | A call sends at most `max_retries` + 1 commands. |
| `RedisRuns.CommandTakesEffect` | richcrab/shared/src/redis_client.rs:7-21 | Each command, when it is carried out, does to its key what it says and is answered accordingly: an absent ticket with nothing, a taken pin as taken, a counter with one more. |
| `RedisRuns.ConsumersGetWhatWasWritten` | richcrab/shared/src/redis_client.rs:217-243 | In every run a consumer given a text was given the one that the command which began that life of the key wrote under it. |
| `RedisClientModule.AnswersExactlyWhenHeard` | richcrab/shared/src/redis_client.rs:189-214 | A call returns an answer if and only if some attempt within the limit is answered before one fails to get a connection, except that counting a text is an error each time; it returns an error only if none is. |
| `RedisClientModule.CallTakesEffect` | richcrab/shared/src/redis_client.rs:63-243 | A call any of whose attempts is carried out leaves its key as the operation says, however often it was carried out, and every other key alone; one of which none is returns an error and changes nothing. |
| `RedisClientModule.AbsentTicketIsNothing` | richcrab/shared/src/redis_client.rs:217-243 | Consuming an absent ticket returns nothing if any attempt is answered before one fails to get a connection and an error otherwise; the store is unchanged. |
| `RedisClientModule.ConsumeGetsIffSeen` | richcrab/shared/src/redis_client.rs:217-243 | Undisturbed, a consumer gets the ticket's value if and only if its first attempt to take effect is answered. |
| `RedisClientModule.FreePinIsWonIffSeen` | richcrab/shared/src/redis_client.rs:63-98 | Undisturbed, a caller is told that a free pin is its own if and only if its first attempt to take effect is answered. |
| `RedisClientModule.IncrementSees` | richcrab/shared/src/redis_client.rs:182-215 | Undisturbed, the number seen is one more than what was there and the call's own unnoticed increments together. |
| `RedisClientModule.RedisClient.ConsumeScript` | richcrab/shared/src/redis_client.rs:7-13 | The ticket script: a present value is answered and deleted in one, an absent one answered with nothing. |
| `RedisClientModule.RedisClient.IncrementScript` | richcrab/shared/src/redis_client.rs:15-21 | The counter script; every key it leaves has a time to live. |
| `RedisClientModule.RedisClient.Call` | richcrab/shared/src/redis_client.rs:189-214 | The retry loop computes the specified outcome of its attempts, for any pattern of failures. |
| `UsageInvariant.ReportRaisesItsColumn` | richcrab/services/entitlements/src/service.rs:33-54 | For all feature strings, reporting `f` raises the usage of exactly the features of `f`'s column by min(units, i32::MAX). |
| `UsageInvariant.ColumnsApart` | richcrab/services/entitlements/src/service.rs:45-54 | Two features share a column exactly if no row tells their usage apart; all unknown features share the last. |
| `UsageInvariant.KeyTellsApart` | richcrab/services/entitlements/src/service.rs:56-61 | Two cache keys are equal only for the same user, feature and month, however the reporter wrote the user. |
| `UsageInvariant.StepKeeps` | richcrab/services/entitlements/src/service.rs:132-255 | Every step of checks, reports, late cache writes, expiries and the turn of the month keeps the invariant. |
| `UsageRuns.UsageIsSumOfReports` | richcrab/services/entitlements/src/repository.rs:144-190 | In every run the stored usage is the sum of the capped units of all reports that were counted in its column. |
| `UsageRuns.ReportCountsExactlyWhen` | richcrab/services/entitlements/src/service.rs:204-236 | A report's increment counts its capped units for the user it names, in the month it began and in its feature's column alone, if and only if the database carries it out and every usage then still fits; it goes on if it hears so. |
| `UsageRuns.UsageStaysInRange` | richcrab/services/entitlements/src/repository.rs:144-190 | Each usage stays within its 32-bit column: a report that would leave it is refused, not counted. |
| `UsageRuns.CacheHoldsAnEarlierUsage` | richcrab/services/entitlements/src/service.rs:132-161 | A cached figure is the sum of the reports counted up to an earlier moment, of the month it is cached for, unless a report of this user, feature and month strayed with it, and then of a later month. |
| `UsageRuns.CacheNeverExceedsUsage` | richcrab/services/entitlements/src/service.rs:132-161 | In the current month a cached figure never exceeds the stored usage, nor in any month if it was counted in that month. |
| `UsageRuns.StraysAreAstride` | richcrab/services/entitlements/src/service.rs:216-248 | A report strays exactly when it finishes with a figure resolved in another month than it began in, and that month is later. |
| `UsageRuns.CacheExceedsExactlyWhen` | richcrab/services/entitlements/src/service.rs:216-248 | The cached figure exceeds the stored usage if and only if it is of a later month, brought by a straying report of this very user, feature and month, and more had been posted in that month by then than was ever posted in this one. |
| `UsageRuns.DecisionIsRightExactlyWhen` | richcrab/services/entitlements/src/service.rs:168-202 | Every decision, judged by the usage at its moment, allows wrongly if and only if the units posted since its figure was counted carry it to the quota. |
| `UsageRuns.DeniedOnlyOverQuota` | richcrab/services/entitlements/src/service.rs:168-202 | Every denial ever made, in any run and whatever strays, is justified: at its moment and ever since, the real usage has reached the quota. |
| `UsageRuns.NoDecisionStrays` | richcrab/services/entitlements/src/service.rs:168-202 | Every decision weighs a figure of the very month it decides on, and no report strays with that figure into that month. |
| `UsageRuns.CheckIsWrongExactlyWhen` | richcrab/services/entitlements/src/service.rs:168-202 | In terms of the state a check finds: without a cached figure its answer is right; with one, it is wrong if and only if the figure is below the quota and the units posted since it was counted carry it there. |
| `UsageRuns.CachedFigureStays` | richcrab/services/entitlements/src/service.rs:216-248 | Reports do not refresh a cached figure: from any moment at which no other figure for its key is in flight (held by a task that has read or resolved it, or by a late write), until it expires or the month ends, every check resolves to it, whatever is reported meanwhile. |
| `UsageRuns.SettledIsFrozen` | richcrab/services/entitlements/src/service.rs:216-248 | Once nobody is resolving usage and the late writes have settled, every cached figure is in that position, refilled ones included. |
| `UsageWitness.AllowedOverQuota` | richcrab/services/entitlements/src/service.rs:216-248 | A run in which a request is allowed although its quota is used up. |
| `UsageWitness.MonthsMixed` | richcrab/services/entitlements/src/service.rs:216-248 | A run, its clock only going forward, in which a report begun in one month and resolved in a later one caches more than the first month's usage. |
| `UsageWitness.FormatsExist` | richcrab/services/entitlements/src/service.rs:56-61 | Ways of writing users and months as the key lemmas assume them do exist. |
| `EntitlementsServiceModule.EntitlementsService.ResolveUsage` | richcrab/services/entitlements/src/service.rs:132-161 | The cached figure if there is one, otherwise the stored one, which is then cached; with every error path. |
| `EntitlementsServiceModule.EntitlementsService.FindDefaultPlan` | richcrab/services/entitlements/src/repository.rs:47-59 | A plan of least quota, if there is any plan. |
| `EntitlementsServiceModule.EntitlementsService.ResolveUserPlan` | richcrab/services/entitlements/src/service.rs:67-130 | The cached plan if it still exists, else the user's own, else the free one, else one of least quota; an error exactly if a call it needs fails, and none only if there are no plans. |
| `EntitlementsServiceModule.EntitlementsService.CheckEntitlement` | richcrab/services/entitlements/src/service.rs:168-202 | Answers exactly if all calls it needs succeed, and then allows if and only if the resolved figure is below the quota of the user's plan. |
| `EntitlementsServiceModule.EntitlementsService.ReportUsage` | richcrab/services/entitlements/src/service.rs:204-254 | Counts the units in the feature's column and no other row or column, even when an error follows; leaves a cached figure as it was, and touches no other cache key but the one of the user's text. |

## Left out

Simplifications of what is modelled:

- Room: one command reads the clock once; in the code successive reads within a command may differ by moments.
- Room: what holds of every reachable room holds even if a sleeping timer fires early; only the results on how a game ends by itself (`RoomProgress`) let it fire no earlier than its delay. Time is an integer count that never goes back.
- Room: an answer's text is reduced to its value as a `u32` and to whether it reads "correct" regardless of case; the marking rule on these is the code's.
- Room: a player's team is always set, as Join always sets it; ids of new players are fresh.
- Room: `GameStarted` also carries the question bank in the model's log, so that the log alone tells which game it is.
- Room: the mailbox's capacity of 128, slow event receivers, `updated_at` and logging.
- Room: `GetState` returns a copy of the state and changes nothing.
- Queue: a key does not expire within a run; the code gives it 24 hours.
- Queue: an unread entry may be lost to the stream's cap or to a group created after it; both are the one step `Trim`, and theorems name that bucket.
- Queue: the protocol lets a runner read at any time, also while no global permit is free, which allows more runs than `run_loop` has.
- Queue: the idempotency key is the pair of bot and update, which its text determines, as an update id holds no colon.
- Queue: a Redis command takes effect, if at all, before its task or runner is gone; one that comes through later is not modelled here, as it is in `redis/`.
- Queue: a read of several entries is several reads of one; `enqueued_at_ms`, back-off times and metrics.
- Queue and gateway: interleavings are modelled on values, one step for each section between awaits or under a lock; the classes are proved against the same step functions for one caller at a time.
- Gateway: one connection's open handler ends before its close handler begins, and handles are not reused.
- Gateway: joining the stopped threads, the subscriber's id, presence heartbeats, the mock stream and the reconnection of the event stream.
- Redis: an increment of a key that holds text is answered with an error, also where the text is a number.
- Redis: time to live is not measured; a key may expire at any moment.
- Entitlements: in the concurrent model the plan's quota is a parameter of a decision; resolving a plan is modelled in `EntitlementsService` only, with a plan's least quota picked freely among equals.
- Entitlements: cached figures are numbers; the branch for a cached text that is no number is left out, as only numbers are written.
- Entitlements: users' and months' texts are any that satisfy `Formats`, which the formats of UUIDs and of four-digit years do.

Parts of the repository that the model does not touch:

- gRPC, HTTP and WebSocket transport, protobuf mapping, SQL text and the Redis wire format.
- Telegram calls, encryption, signatures and JSON: the update handler is an arbitrary success or failure.
- The auth, profile, billing, lobby and join services, and the fallback path of the gateway's rate limiter: thin wrappers, which would add easy members only.
- The frontend.
