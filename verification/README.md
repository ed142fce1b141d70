# The job-action scheduler of tlgr, verified

tlgr runs scheduled actions (react, read, view, forward, reply) for a Telegram
account. One `ActionScheduler` per account keeps them in a queue, paces them,
retries them, drops them when the account acts from another device, and carries
them over a restart. One worker per action kind, bus updates and user commands
interleave at every `await`, over state that is kept redundantly: an item map
with a state per item, lazy heaps, a key index, a bounded set of finished keys,
running and cancelled sets, counters, read marks. This project models that
machine and proves what it promises over whole runs.

## How it is laid out

* `Queue`, `Machine`: the queue and the scheduler as values. An event is one
  stretch of code between two awaits; a suspended worker is a program counter.
  What the code does not decide (the clock, random draws, the answer of an
  operation, the order a dictionary is walked in) is a field of the event.
  Ledgers inside the state (how every id left, what was handed in per slot, when
  a key last finished, how often an item ran, every request sent) turn
  statements about runs into statements about one state.
* `Safety`: the invariant, kept by every event, and runs. `Promises`,
  `Accounts`, `Pace`: what follows for every run. `Executions`: one execution
  from its start to its end, whatever happens in between. `Deliveries`: what is
  counted done was sent, and what is started was next. `Echoes`: what comes back
  of tlgr's own messages. `Restart`: the round trip through the file of `Store`.
  `Eviction`: how long a loaded key stays blocked. `Failures`: runs in which work
  is lost or comes back.
* `Guards`, `Outcomes`, `Commands`, `Stretches`, `Counters`, `PaceHistory`: what
  each event does, over every run and written out in fields, kinds and numbers,
  so that a step that took the wrong branch would not fit: when an item may
  start, what becomes of it, what a command concerns, what goes out first, which
  counter goes up, how far apart the slots lie. The statements name the recorded
  state, not the functions that compute it.
* `Heap`, `ItemQueue`, `Scheduler`: the objects, updated in place. `ItemQueue`
  owns the redundant structures; `Peek` proves that the lazy heap answers as the
  plain queue would. Every method of `ActionScheduler` ends in exactly the state
  the machine's event gives, so the theorems about runs hold of the object, and
  its preconditions hold in every state a run gets to (`ReachedWorkerIsReady`).
* `Pacer`, `QuietHours`, `Items`: spacing and caps, quiet windows, what each
  action kind allows.
* `Spoilers`, `Marks`: spoiler markup and UTF-16 offsets (section 2.1 of
  RFC 2781). `Subscriber`, `EventBus`, `Lanes`: bounded queues with lag frames,
  replay, per-chat lanes. `Bucket`: the token bucket. `Filters`: YAML filter blocks.
  `Download`: the resumable download.

Time is local seconds as a real that never runs back; `Tick` moves it. Item ids
are distinct, and `preload` runs before the first submission, as
tlgr/daemon/app.py:249-252 arranges.

## Where the code does less than it seems to promise

* A held item's key counts as taken until `resume`, but it sits among the recent
  keys and can be evicted before then. `LoadedKeyIsBlockedWhen` gives the exact
  condition, by the place of the key and the finishes since it was loaded;
  `EvictedHeldKeyIsRepeated` is a run that repeats held work.
* That an item cancelled while it runs is not put back holds of an execution that
  is settled. A stop puts it back (`CancelledLeavesBySettling`), and a restart
  after it brings it back without its cancel (`CancelledComesBackWhen`).
  `CancelledWorkComesBack` is such a run: everything is cancelled during a
  request, then comes a shutdown.
* A forward is not announced before it goes out. If its message comes back
  before the answer does, tlgr takes it for the user's own and drops what is
  pending in the chat it went to (`ForwardEchoTakesOver`);
  `ForwardTakesOverItsChat` is such a run. The two variants that send the content
  anew note nothing at all, so their message is not recognised after the answer
  either. A reply is safe for ten seconds (`ReplyEchoDropsNothing`).
* A lag frame is exact when get and lag are one step; between them more events
  can be dropped, and the count then comes one event early. `LagIsExactWhen`
  says exactly when it is right.
* `download` suppresses an error of `os.truncate`. If it fails with a part file
  that is not a whole number of parts, bytes are written twice. And a file of
  unknown size (0, the default) that ends early is returned as it is. What a
  call returns is the source for every client if and only if neither can happen
  (`ReturnsTheSourceWhen`).
* A take that costs more than the burst of its bucket waits forever
  (`WaitIsExact`).

## Model

| member | source | states |
|---|---|---|
| `Safety.NextKeeps` | tlgr/gateway/scheduler.py:536-866 | every stretch of code between two awaits keeps the whole invariant: consistent queue, key index and counters, every suspended worker's batch running and of one key, every pacer valid, every request guarded |
| `Safety.RunKeeps` | tlgr/gateway/scheduler.py:100-158 | the invariant holds after any interleaving of workers, bus updates and commands |
| `Promises.ReactImpliesRead` | tlgr/gateway/scheduler.py:753-804 | in every run a reaction goes out only under a read mark at or above its message, and every non-dry read counted done (by its own batch or swept up by `ensure_read`) is at or below the mark of its place |
| `Promises.ReactionRecordsItsMark` | tlgr/actions/react.py:113-126 | the mark recorded with a reaction is the mark of its own place at the moment it goes out |
| `Promises.MarkRisesOnlyByReading` | tlgr/gateway/scheduler.py:761-763 | a mark changes only on an observed external read or a completed `message.read`, and then rises to exactly that id |
| `Promises.MarksNeverFallInRuns` | tlgr/gateway/scheduler.py:833-835 | between any two states of a run no read mark falls |
| `Promises.ReadsAreNoted` | tlgr/gateway/scheduler.py:761-763 | a read on another device, or one of tlgr's own that completed, is noted at once: the mark is at or above it in the next state |
| `Promises.BatchesAreGuarded` | tlgr/gateway/scheduler.py:536-600 | every execution on record was started by a step of the run around the item of least due time among the pending ones of its kind; each of its items was due, unexpired and, a forward apart, not within its quiet hours, and it is the head alone or at most 100 items that go together with the head; no dry-run item reaches the op runner; a view names the id of every item it goes out for; and every non-dry item counted done (a read that clears no badge apart) was itself among the items of a request for just its chat and message, a view with its id among the viewed |
| `Deliveries.DoneWasSent` | tlgr/gateway/scheduler.py:622-652 | in every run and interleaving an item counted done was sent: a request that carried this very item, its reaction, forward or reply, or a view naming its id, went out for just its chat and message; and so did a read that was to clear a badge, with that badge in it |
| `Deliveries.StartsAreNextDue` | tlgr/gateway/scheduler.py:536-584 | every execution on record was started by a step of the run whose head was pending and of least due time among the pending items of its kind |
| `Guards.StartsAreGuarded` | tlgr/gateway/scheduler.py:536-600 | in every run nothing is started before it is due, at or past its expiry or, a forward apart, at a moment its quiet hours hold, also over midnight; and a batch is the head alone, or at most 100 reads of one place or views of one chat and mode |
| `Guards.StepsDecide` | tlgr/gateway/scheduler.py:536-607 | in every run a step takes a pending item of least due time, and each choice exactly when: given up past its expiry; held, to the end of its window or up to five minutes later, within its quiet hours; run dry; made to wait while the pacer is closed; run otherwise. And a batch leaves nothing behind that could go along, unless a hundred that are due no later fill it |
| `Guards.ClosedStartsNothing` | tlgr/gateway/scheduler.py:183-187 | once the scheduler is closed no step of the run is taken any more |
| `Outcomes.SettlingIsExact` | tlgr/gateway/scheduler.py:615-704 | in every run, for every item of a settled batch, by how the execution came out, with no step named: after a flood it is back exactly when it was not cancelled and had fewer than 10, with one more and due 1 to 5 s past the wait; after an error that may pass exactly when it was not cancelled and has tried at most 12 times (its kind never expires) or 3 times, with one more try and due 1 to 1.5 times 5, 30, 120 or 600 s later; else it has left as done, skipped or error, or as superseded when cancelled; a reply that showed typing is due when typing ends |
| `Outcomes.StepLeaves` | tlgr/gateway/scheduler.py:551-565 | in every run an item past its expiry leaves as expired, and the items of a dry run leave as done, or superseded when cancelled |
| `Outcomes.RepliesTypeFirst` | tlgr/actions/reply.py:75-99 | in every run: a reply that asks for it, in its first phase and not in a channel, shows typing for as long as it says or two seconds, is in its second phase from then on, and is to be put off just until typing ends; any other is sent |
| `Outcomes.AnswersCome` | tlgr/gateway/scheduler.py:622-652 | in every run an operation that answers makes the execution come out well, one that raises as what it raised, and the answer to a reaction's read makes the reaction go out |
| `Stretches.ExecutionsOpen` | tlgr/gateway/scheduler.py:775-792 | in every run the first request of an execution, and when there is none: a reaction goes out when its chat is read up to it, else reads that far when the read pacer is open, else sleeps; reads are one request up to the latest message with just the badges wanted, none when all is read and no badge is wanted; a batch of views is one request of just their ids; a forward goes to its destination |
| `Stretches.SleepersAskAgain` | tlgr/gateway/scheduler.py:783-792 | in every run a reaction that slept for the read pacer reads when it is open, and sleeps again when not |
| `Stretches.ExecutionsAreRecorded` | tlgr/gateway/scheduler.py:536-565 | in every run each execution is on record from its start, with its moment, head and items, and nothing else is; its items are running from then on, unchanged, and its worker is about to begin |
| `Stretches.OthersRest` | tlgr/gateway/scheduler.py:536-866 | in every run a pending item that an event is not about stays pending and in nothing changed; which items an event is about is written out |
| `Promises.HeldPastTheWindow` | tlgr/gateway/scheduler.py:602-613 | an item held for quiet hours is put off to no earlier than the first instant outside its window, and nothing else about it changes |
| `Stretches.ExecutionsAreFew` | tlgr/gateway/scheduler.py:615-704 | an item is in at most 24 of the executions on record of any run, but for those a stop broke off |
| `Executions.ExecutionCosts` | tlgr/gateway/scheduler.py:615-704 | in every run, whatever happens between the start of an execution and its end: if the item is queued after it was settled, this very execution raised its floods by one (to at most 10), or its attempts by one (to at most 12), or moved a reply from its first phase to its second, so the budget is strictly less than when the execution started |
| `Executions.ExecutionGoesOn` | tlgr/gateway/scheduler.py:615-652 | until the event that ends it no event of any other worker, update or command disturbs an execution: the item stays live, running, in its worker's batch and as it was, but for the one phase change of a reply that is about to be put off |
| `Executions.OthersLeaveAlone` | tlgr/gateway/scheduler.py:851-866 | whatever is not an event of its own worker leaves a running item alone, and does not lose a cancel of it |
| `Executions.CancelledLeavesBySettling` | tlgr/gateway/scheduler.py:629-652 | an item cancelled or forgotten while it runs leaves on an event if and only if the event settles its execution, and then as superseded; it is put back, with its mark, if and only if the event is a stop of its worker; on any other event it runs on, still to leave |
| `Executions.CancelledRunsToItsEnd` | tlgr/gateway/scheduler.py:715-717 | over a whole run: from the cancel to the end of the execution it runs on; settled it leaves as superseded, stopped it is put back |
| `Restart.CancelledComesBackWhen` | tlgr/gateway/scheduler.py:629-633 | after the end of its execution, a flush, preload and resume, an item cancelled while it ran is live again if and only if a stop ended it, its job is active and the file had room for it; the next process knows of no cancel |
| `Failures.CancelledWorkComesBack` | tlgr/gateway/scheduler.py:629-633 | a run of enabled events that forgets a cancel: everything is cancelled while a forward is out, its worker is stopped, and after flush, preload and resume the forward is live again and not cancelled |
| `Accounts.CancelledStaysCancelled` | tlgr/gateway/scheduler.py:388-405 | in one process the cancel of a running item is not lost before that item leaves, also when a stop has put it back; what a restart makes of it is `Restart.CancelledComesBackWhen` |
| `Promises.TakeoverIsExact` | tlgr/gateway/scheduler.py:833-866 | a read elsewhere that is news and comes ten seconds or more after a send drops precisely the pending items of that chat (and topic) at or below it whose mode makes their kind give way, each kind and mode written out, as superseded; every other item is unchanged |
| `Promises.SendTakeoverIsExact` | tlgr/gateway/scheduler.py:843-866 | the same for a message sent from another device, over the whole chat: just those items leave, as superseded, and every other item is unchanged |
| `Promises.OwnReadsDropNothing` | tlgr/gateway/scheduler.py:756-759 | in any run an external read at or below any `up_to` tlgr issued for that place changes no item |
| `Promises.OwnSendsDropNothing` | tlgr/gateway/scheduler.py:843-848 | an outgoing message that was noted as sent, or comes less than 10 seconds after a send of tlgr to its chat, changes no item |
| `Echoes.OwnReadIsAsked` | tlgr/gateway/scheduler.py:756-759 | in every run the reads of a place that tlgr takes for its own are exactly those up to the furthest it has asked for |
| `Echoes.SendTimesAreExact` | tlgr/gateway/scheduler.py:765-773 | in every run the time of the last send to a chat is when a reply to it last went out or an answer last reported a message in it, and there is none when neither happened |
| `Echoes.SentIdsAreKnown` | tlgr/gateway/scheduler.py:768-773 | in every run the ids known as tlgr's own in a chat are exactly the last 200 non-zero ones its answers reported there |
| `Echoes.ReplyEchoDropsNothing` | tlgr/gateway/scheduler.py:833-848 | in every run, from the moment a reply goes out: no outgoing message and no read that comes of its chat less than ten seconds later changes any item |
| `Echoes.SendsNeverFall` | tlgr/gateway/scheduler.py:765-773 | in every run time goes on, and when tlgr last sent to a chat is never forgotten and never moves back |
| `Echoes.ForwardEchoTakesOver` | tlgr/actions/forward.py:89-117 | a forward is not announced: its message coming back before the answer is noted takes over the chat it went to; after it is noted the same message changes no item; after an answer that is not noted, as when the content is sent anew, it takes over still |
| `Failures.ForwardTakesOverItsChat` | tlgr/actions/forward.py:94-104 | a run of enabled events in which a forward loses work: its message comes back before its answer, and the reaction that waits in the chat it went to ends as superseded |
| `Promises.RescheduledOnlyAfterEviction` | tlgr/gateway/scheduler.py:278-283 | a key scheduled before is accepted again only after it finished and at least 5000 keyed finishes followed, or its job was forgotten first |
| `Promises.LiveKeysAreDuplicates` | tlgr/gateway/scheduler.py:319-325 | the key index holds exactly the live items' keys, is disjoint from the recent keys, and makes a second submission a duplicate |
| `Accounts.NothingIsLost` | tlgr/gateway/scheduler.py:338-352 | over any run in which a job slot keeps one action name and is not forgotten: non-duplicate submissions, direct counts and restored items equal live items plus done, skipped, superseded, expired and errors |
| `Accounts.LeavesExactlyOnce` | tlgr/gateway/scheduler.py:706-723 | every id ever accepted is live, ended or forgotten, exactly one of them, and an ended id is never live again |
| `Accounts.EndsAreFinal` | tlgr/gateway/scheduler.py:706-713 | how an item left never changes |
| `Counters.CountersAreExact` | tlgr/gateway/scheduler.py:338-352 | over any run in which a job slot keeps one action name and is not forgotten, each of its five counters equals the number of its items that left with that outcome, and of what was counted with it directly: a further message of an album (skipped), one that found the queue full (error), a job's own count |
| `Commands.CancelsJustWhatIsWanted` | tlgr/gateway/scheduler.py:388-415 | in every run a cancel ends as superseded just the pending items that all its criteria agree on (or all, when everything is cancelled), marks the running ones of a whole job or of everything, and leaves the others alone |
| `Commands.ForgetsJustTheJob` | tlgr/gateway/scheduler.py:366-378 | in every run forgetting a job throws out its pending items and counters, marks its running items, and touches nothing of another job |
| `Commands.ReactionsSweep` | tlgr/gateway/scheduler.py:793-804 | in every run, when a reaction finds its chat read or its read is answered, just the pending reads of the place at or below it that clear no badge and are no dry run are done, and no other item changes |
| `Commands.SubmissionsAreExact` | tlgr/gateway/scheduler.py:278-317 | in every run: a key that a live item has or that is remembered changes nothing; a further message of an album that has its item queues nothing, and its caption moves the pending item to it once; a queue of ten thousand takes no more; everything else is queued as it is |
| `Commands.OneItemForAnAlbum` | tlgr/gateway/scheduler.py:286-298 | in every run, once an item was accepted for an album and while the album is remembered, no other one is queued for it |
| `Commands.RollsAreExact` | tlgr/gateway/scheduler.py:261-269 | in every run an album is rolled for once while it is remembered, and the oldest are forgotten beyond two thousand |
| `Commands.QueueIsBounded` | tlgr/gateway/scheduler.py:278-310 | in every run live and held items are at most twenty thousand together: ten thousand submitted, ten thousand from the file |
| `Eviction.LoadedKeyIsBlockedWhen` | tlgr/gateway/scheduler.py:209-226 | the exact guard, in every run between preload and resume: while nothing has finished, or the place of a loaded key counted from the end plus the keyed finishes since is at most 5000, the key was not scheduled and a replay of it is a duplicate; and as long as it was not scheduled again, a replay is a duplicate if and only if that holds |
| `Eviction.LoadedKeysAge` | tlgr/gateway/scheduler.py:706-711 | between preload and resume the recent keys are exactly the loaded ones followed by one key per keyed finish, cut to the last 5000 of them |
| `Eviction.ResumeRepeatsNothing` | tlgr/gateway/scheduler.py:228-247 | while fewer than 5000 keys are remembered a held item's key is blocked, so `resume` puts back no work scheduled since the start |
| `Eviction.EvictedHeldKeyIsRepeated` | tlgr/gateway/scheduler.py:228-247 | a run of enabled events that repeats held work: 5000 held items are loaded, another item is submitted and expires, a replay of the first held key is accepted and expires, and `resume` restores the held item under the key that finished last |
| `Pace.PaceIsKept` | tlgr/gateway/pacer.py:91-117 | in every run, whoever takes the slots: from one slot to the next it is at least the floor of the rule times the slow-down the first was taken under, none opens inside an announced flood wait, the slow-down is 1, 2, 4 or 8 |
| `Pace.PaceHolds` | tlgr/gateway/scheduler.py:160-164 | over any stretch of any run in which no configuration gives the kind another rule, whatever the rule and whoever takes the slots (the read pacer included): any two slots taken in it are `every` apart for each step between them, and no 3600-second window holds more than `per_hour` of them |
| `PaceHistory.SlowdownIsExact` | tlgr/gateway/pacer.py:91-117 | in every run the slow-down is what the history says: a flood of the kind takes it from d to min(8, 2d), and it returns to 1 exactly when the pacer is asked 600 s or more after the last flood |
| `PaceHistory.SlotsAreTaken` | tlgr/gateway/scheduler.py:557-565 | in every run the slots a pacer gave out are exactly those of its executions that are no dry runs, and for the read pacer of the reads that reactions send |
| `PaceHistory.SlowedPaceIsKept` | tlgr/gateway/pacer.py:106-111 | in every run consecutive slots of a kind, whoever takes them, lie at least floor times slow-down apart, as they were when the first was taken |
| `PaceHistory.FloodIsWaitedOut` | tlgr/gateway/pacer.py:113-117 | in every run no slot of a kind is taken before a flood wait of that kind is over |
| `PaceHistory.RulesAreConfigured` | tlgr/gateway/scheduler.py:160-164 | in every run each pacer is under the rule of the last configuration, or the built-in one of its kind |
| `PaceHistory.ExpiriesAreConfigured` | tlgr/gateway/scheduler.py:160-171 | in every run the expiries in force are those of the last configuration |
| `Restart.RestartLosesNoWork` | tlgr/gateway/scheduler.py:228-257 | flush, load, preload and resume with all live jobs active give the same items with the same due times, attempts, floods and phase, under the same keys, all pending: exactly what resuming in place would give |
| `Restart.ComesBackWhen` | tlgr/gateway/scheduler.py:228-257 | for any set of active jobs: an item that was accepted is live after flush, preload and resume if and only if it was live, its job is active and the file had room for it, and then it is as it was, pending, with no cancel |
| `Restart.RestartKeepsRecentKeys` | tlgr/gateway/scheduler.py:209-247 | the remembered keys come back in the same order, the last 5000 of them, followed by the keys of held items that were evicted meanwhile; exactly the remembered ones when none was |
| `Restart.LoadedKeysStayBlocked` | tlgr/gateway/scheduler.py:222-226 | after a restart a replay of anything the file held is a duplicate, queued or not |
| `Restart.GoneJobIsDropped` | tlgr/gateway/scheduler.py:238-241 | a held item whose job or action is gone is not queued |
| `Queues.FinishedKeeps` | tlgr/gateway/scheduler.py:706-723 | finishing any live item keeps ids, key index, recent keys, conservation per slot and the execution account consistent |
| `Queues.FinishedKeepsRecency` | tlgr/gateway/scheduler.py:708-711 | a finished key stays blocked until it is live again or 5000 later finishes evicted it |
| `Queues.InsertedKeeps` | tlgr/gateway/scheduler.py:319-325 | inserting a fresh item under a free key keeps the queue invariant |
| `Queues.ForgottenKeeps` | tlgr/gateway/scheduler.py:366-378 | forgetting a job keeps the queue invariant, with what it threw away on account |
| `Queues.AllFinishedKeeps` | tlgr/gateway/scheduler.py:793-804 | finishing a list of pending items removes exactly those and keeps the invariant |
| `Queues.RequeuedKeeps` | tlgr/gateway/scheduler.py:609-613 | putting a running item back keeps the invariant when its execution used up budget |
| `Safety.SettledKeeps` | tlgr/gateway/scheduler.py:645-652 | settling a whole batch leaves each item gone with an outcome the verdict allows or back in the queue, and every other item alone |
| `Safety.SweepKeeps` | tlgr/gateway/scheduler.py:793-804 | the sweep of `ensure_read` counts as done only reads at or below the mark |
| `Store.ResumedKeeps` | tlgr/gateway/scheduler.py:236-246 | restoring held items keeps the queue invariant and every live item |
| `Heaps.PutKeepsHeap` | tlgr/gateway/scheduler.py:327-330 | a new item or a new due time leaves every heap with a live entry for each of its items |
| `Heaps.HeadIsLeast` | tlgr/gateway/scheduler.py:473-487 | the first entry that still stands names an item of least due time |
| `Heaps.PopKeepsHeap` | tlgr/gateway/scheduler.py:478-485 | popping a stale entry loses no item |
| `ItemQueues.ItemQueue.Peek` | tlgr/gateway/scheduler.py:473-487 | the lazy heap answers as the plain queue: a pending item of least due time, and None exactly when none of the kind is pending |
| `ItemQueues.ItemQueue.BatchFor` | tlgr/gateway/scheduler.py:567-584 | the head alone, or the earliest hundred items that may run with it, the head always among them |
| `ItemQueues.ItemQueue.Push` | tlgr/gateway/scheduler.py:327-330 | one more entry in the heap of the item's kind |
| `ItemQueues.ItemQueue.Insert` | tlgr/gateway/scheduler.py:319-325 | item, key, counters and heap entry together, the heaps still complete |
| `ItemQueues.ItemQueue.Remove` | tlgr/gateway/scheduler.py:719-723 | item, cancel mark and its own key go; the stale heap entry may stay |
| `ItemQueues.ItemQueue.Finish` | tlgr/gateway/scheduler.py:706-713 | the queue's finish step: removed, key remembered with eviction, counted |
| `ItemQueues.ItemQueue.Remember` | tlgr/gateway/scheduler.py:708-711 | the key is kept at the end and the oldest beyond 5000 are evicted |
| `ItemQueues.ItemQueue.OpenStats` | tlgr/gateway/scheduler.py:338-344 | the counters of a slot, started over when its action changed |
| `ItemQueues.ItemQueue.Count` | tlgr/gateway/scheduler.py:346-352 | the counter of the outcome goes up (which one that is: `Counters.CountersAreExact`) |
| `ItemQueues.ItemQueue.FinishEach` | tlgr/gateway/scheduler.py:855-860 | the loops that finish chosen pending items: each once, in some order |
| `ItemQueues.ItemQueue.Launch` | tlgr/gateway/scheduler.py:616-618 | every item of the batch is running, in its own state and in the set |
| `ItemQueues.ItemQueue.LaunchOne` | tlgr/gateway/scheduler.py:617-618 | the item is running, in its own state and in the set |
| `ItemQueues.ItemQueue.BreakOff` | tlgr/gateway/scheduler.py:629-632 | a stop makes every item of the batch pending again |
| `ItemQueues.ItemQueue.Reschedule` | tlgr/gateway/scheduler.py:609-613 | new due time, pending, and a heap entry for it |
| `ItemQueues.ItemQueue.SucceedOne` | tlgr/gateway/scheduler.py:646-652 | doomed is superseded, later is put back, skipped and done leave |
| `ItemQueues.ItemQueue.FloodOne` | tlgr/gateway/scheduler.py:671-679 | one more flood; superseded, given up beyond ten, or put back (over runs: `Outcomes.SettlingIsExact`) |
| `ItemQueues.ItemQueue.RetryOne` | tlgr/gateway/scheduler.py:683-702 | one more attempt of a retryable error; superseded, put back within the limit, or an error (over runs: `Outcomes.SettlingIsExact`) |
| `ItemQueues.ItemQueue.ErrorOne` | tlgr/gateway/scheduler.py:683-704 | any other error: superseded or an error at once; a retryable one as in RetryOne |
| `ItemQueues.ItemQueue.Settle` | tlgr/gateway/scheduler.py:615-652 | the whole batch settled, the running set cleared of it before or after the loop as the code does |
| `ItemQueues.ItemQueue.Cancel` | tlgr/gateway/scheduler.py:388-415 | running matches are doomed, pending matches finish as superseded |
| `ItemQueues.ItemQueue.Forget` | tlgr/gateway/scheduler.py:366-378 | the job's pending items, keys and counters go, its running items are doomed |
| `ItemQueues.ItemQueue.Restore` | tlgr/gateway/scheduler.py:236-257 | the loop of `resume`: gone jobs dropped, live copies skipped, the rest inserted with their keys unblocked |
| `ItemQueues.ItemQueue.BlockLoaded` | tlgr/gateway/scheduler.py:219-226 | finished keys and held keys are blocked, known ones keeping their place |
| `ItemQueues.ItemQueue.Ordered` | tlgr/gateway/scheduler.py:385-386 | all live items, earliest first |
| `Scheduler.ActionScheduler.constructor` | tlgr/gateway/scheduler.py:103-158 | a new scheduler is in the initial state of the machine |
| `Scheduler.ActionScheduler.Configure` | tlgr/gateway/scheduler.py:160-164 | every pacer gets its rule or the default one |
| `Scheduler.ActionScheduler.Preload` | tlgr/gateway/scheduler.py:209-226 | the machine's preload event; a second call does nothing |
| `Scheduler.ActionScheduler.Resume` | tlgr/gateway/scheduler.py:228-257 | an unread queue is read first; then the machine's resume event, once; how many items were restored |
| `Scheduler.ActionScheduler.AlbumRoll` | tlgr/gateway/scheduler.py:261-269 | one roll per remembered album, given back on every later call; an unknown album is rolled for and remembered, the oldest beyond 2000 forgotten |
| `Scheduler.ActionScheduler.EvictAlbums` | tlgr/gateway/scheduler.py:267-268 | the last 2000 albums stay, in their order |
| `Scheduler.ActionScheduler.Submit` | tlgr/gateway/scheduler.py:278-317 | what each answer does to queue and albums |
| `Scheduler.ActionScheduler.JoinAlbum` | tlgr/gateway/scheduler.py:286-298 | the album's pending item moves to the caption message once, and the member is counted skipped |
| `Scheduler.ActionScheduler.MoveCaption` | tlgr/gateway/scheduler.py:293-297 | the album's item moves to the message with the caption, and the album knows it has one |
| `Scheduler.ActionScheduler.CancelItems` | tlgr/gateway/scheduler.py:388-415 | the machine's cancel event |
| `Scheduler.ActionScheduler.ForgetJob` | tlgr/gateway/scheduler.py:366-378 | the machine's forget event; how many items were dropped or doomed |
| `Scheduler.ActionScheduler.TakeOver` | tlgr/gateway/scheduler.py:851-866 | exactly the takeover set is finished |
| `Scheduler.ActionScheduler.ExternalRead` | tlgr/gateway/scheduler.py:833-841 | the mark rises; unless it is an echo the takeover follows |
| `Scheduler.ActionScheduler.Outgoing` | tlgr/gateway/scheduler.py:843-849 | the takeover of a message tlgr did not send |
| `Scheduler.ActionScheduler.Step` | tlgr/gateway/scheduler.py:536-565 | one round of a worker: nothing of its kind is due, or an enabled step event of the machine |
| `Scheduler.ActionScheduler.StepDue` | tlgr/gateway/scheduler.py:551-565 | expired, held, dry, too soon or run, in the order the code asks |
| `Scheduler.ActionScheduler.StepPaced` | tlgr/gateway/scheduler.py:557-565 | the pacer's delay decides between waiting and taking the slot |
| `Scheduler.ActionScheduler.Begin` | tlgr/gateway/scheduler.py:625-627 | the first stretch of each action's `execute` |
| `Scheduler.ActionScheduler.ExecuteReact` | tlgr/actions/react.py:113-126 | read first, then react |
| `Scheduler.ActionScheduler.AskReadPacer` | tlgr/gateway/scheduler.py:783-791 | one turn of the wait for the read pacer, then the announced read |
| `Scheduler.ActionScheduler.IssueReaction` | tlgr/gateway/scheduler.py:793-804 | satisfied reads are done, and the reaction goes out under the mark in force |
| `Scheduler.ActionScheduler.ExecuteRead` | tlgr/actions/read.py:80-97 | one read up to the highest id of the batch, or nothing when it is no news and clears no badge |
| `Scheduler.ActionScheduler.ExecuteView` | tlgr/actions/view.py:76-88 | one view of the batch's ids |
| `Scheduler.ActionScheduler.ExecuteReply` | tlgr/actions/reply.py:75-99 | typing and back in the queue in its second phase, or the send |
| `Scheduler.ActionScheduler.ReadDone` | tlgr/gateway/scheduler.py:789-804 | the mark rises by a completed read, and a reaction goes on |
| `Scheduler.ActionScheduler.NoteSent` | tlgr/gateway/scheduler.py:768-773 | the last 200 non-zero ids sent to a chat, and when |
| `Scheduler.ActionScheduler.NoteAllSent` | tlgr/actions/forward.py:103-104 | each message the answer reports is noted, in order |
| `Scheduler.ActionScheduler.Settle` | tlgr/gateway/scheduler.py:645-704 | pacer penalized after a flood, batch settled, worker idle |
| `Scheduler.ActionScheduler.Stop` | tlgr/gateway/scheduler.py:629-633 | a stop breaks the execution off without an attempt |
| `Scheduler.ActionScheduler.Flush` | tlgr/gateway/scheduler.py:460-469 | live items by due time, then held ones; an unread queue is read first |
| `Scheduler.ActionScheduler.ReachedWorkerIsReady` | tlgr/gateway/scheduler.py:506-518 | in every reachable state the methods' preconditions hold, so a run never gets stuck on them |
| `Pacing.LookedKeeps` | tlgr/gateway/pacer.py:91-104 | pruning keeps the pacer's deque the tail of all capped slots |
| `Pacing.ZeroWaitIsOpen` | tlgr/gateway/pacer.py:91-104 | a zero delay means the slot is open from then on |
| `Pacing.WaitIsEnough` | tlgr/gateway/pacer.py:91-104 | a pacer asked again after the delay it gave is open, unless its cap was lowered below what it already gave out |
| `Pacing.WaitIsNeeded` | tlgr/gateway/pacer.py:91-104 | asked again before the delay is over, but for a thousandth of a second, it is still closed |
| `Pacing.NextSlotOpens` | tlgr/gateway/pacer.py:106-111 | after a slot at t the next opens between t + every * slow-down and t + 1.5 * every * slow-down |
| `Pacing.ConsumedKeeps` | tlgr/gateway/pacer.py:106-111 | taking an open slot keeps floor times slow-down, rolling cap and flood hold |
| `Pacing.PenalizedKeeps` | tlgr/gateway/pacer.py:113-117 | after a flood a slot is open exactly when it would have been and the wait is over |
| `Pacing.FloorHolds` | tlgr/gateway/pacer.py:106-111 | slots i and j are at least (j - i) floors apart when those from i up to j were taken under that floor |
| `Pacing.CapHolds` | tlgr/gateway/pacer.py:98-103 | no hour-long window holds more slots than the cap |
| `Pacing.Pacer.constructor` | tlgr/gateway/pacer.py:80-86 | a new pacer has no slots and no slow-down |
| `Pacing.Pacer.Configure` | tlgr/gateway/pacer.py:88-89 | only the rule changes |
| `Pacing.Pacer.Delay` | tlgr/gateway/pacer.py:91-104 | the exact wait; zero exactly when a slot is open |
| `Pacing.Pacer.Consume` | tlgr/gateway/pacer.py:106-111 | the slot is on record with its floor and slow-down, and the next one put off by their product times the jitter (bounds: `NextSlotOpens`) |
| `Pacing.Pacer.Penalize` | tlgr/gateway/pacer.py:113-117 | slow-down doubled up to 8 and the flood wait held |
| `QuietHours.QuietHours.WindowEndIsFirstOutside` | tlgr/gateway/knobs.py:129-144 | the end of the window is the first instant outside it, also over midnight |
| `QuietHours.QuietHours.ContainsRoundTheClock` | tlgr/gateway/knobs.py:129-135 | a window holds exactly the minutes less than its length past its start, counted round the clock |
| `Spoilers.EntityIsPreserved` | tlgr/core/text.py:115-136 | for every entity in range the UTF-16 slice at the moved offset and length is the original slice without sentinels |
| `Spoilers.EncodeStrip` | tlgr/core/text.py:54-61 | stripping characters and stripping code units come to the same |
| `Spoilers.PairsAreExact` | tlgr/core/text.py:102-113 | the spoilers found are exactly the open/close pairs with nothing between |
| `Spoilers.SpansAreOfPairs` | tlgr/core/text.py:104-111 | each span found starts and ends where its pair does in the stripped text |
| `Spoilers.SpoilerCoversItsText` | tlgr/core/text.py:104-111 | a spoiler covers exactly the text between its open and its close |
| `Spoilers.EachIsMoved` | tlgr/core/text.py:122-134 | every entity keeps its place in the list, its kind and its details, and starts and ends at its moved offsets |
| `Spoilers.SpoilersAreEmitted` | tlgr/core/text.py:135-139 | the spoilers put out are exactly those of the open/close pairs that have something between |
| `Spoilers.SortingKeeps` | tlgr/core/text.py:140-141 | sorting by offset and length loses and invents no entity |
| `Spoilers.Shift` | tlgr/core/text.py:115-120 | the loop over the shifts gives the moved offset |
| `Spoilers.ExtractSpoilers` | tlgr/core/text.py:90-141 | stripped text, moved entities and spoilers together; unchanged without sentinels |
| `Marks.MarkSpoilers` | tlgr/core/text.py:68-82 | fewer than three parts unchanged, otherwise the marked text |
| `Marks.MarkingIsUndone` | tlgr/core/text.py:68-82 | putting `||` back for every sentinel restores what was typed |
| `Marks.MarksAlternate` | tlgr/core/text.py:74-82 | sentinels strictly alternate open and close, none without a partner, and an unmatched last `||` stays |
| `Marks.SplitJoins` | tlgr/core/text.py:71 | splitting at `||` and joining gives the text back |
| `Marks.SplitIsLeftmost` | tlgr/core/text.py:71 | every part ends at the first two bars side by side and the last part has none, so there is no other way to split |
| `Subscribers.NothingLostSilently` | tlgr/daemon/events.py:115-139 | in every interleaving offered = received + queued + reported + still to be reported, and the queue is a suffix of what was offered |
| `Subscribers.WaitingIsLatest` | tlgr/daemon/events.py:124-135 | in every interleaving what waits is exactly everything offered before the close after the last event received, or the last `maxsize` of it |
| `Subscribers.LagIsExactWhen` | tlgr/daemon/stream.py:177-187 | a lag equals the events skipped before its event if and only if as many were dropped between this get and its lag as between the get before and its lag |
| `Subscribers.LagFramesAreExact` | tlgr/daemon/stream.py:177-187 | when get and lag are one step every lag is exact |
| `Subscribers.LateLagIsMisplaced` | tlgr/daemon/stream.py:177-187 | when they are not, a lag can be told with the wrong event |
| `Subscribers.Subscriber.Offer` | tlgr/daemon/events.py:124-135 | never blocks; a full queue drops its oldest event and counts it |
| `Subscribers.Subscriber.TakeLag` | tlgr/daemon/events.py:137-139 | the count is handed over and starts again |
| `Subscribers.Deliver` | tlgr/daemon/stream.py:183-187 | a lag frame when something was dropped, then the event |
| `Subscribers.Pump` | tlgr/daemon/stream.py:156-187 | the frames written account for every event offered but those still queued or not yet reported |
| `EventBuses.ReplayIsComplete` | tlgr/daemon/events.py:676-699 | in every run the buffer of an account is exactly the last events it emitted, consecutively numbered; a replay is the end of that buffer, all of it above the point asked for, and with the reported gap makes up everything since |
| `EventBuses.ChatOrderIsKept` | tlgr/daemon/events.py:601-635 | in every interleaving, also when lanes overflow, what a handler gets of one chat was published, in publish order; a handler registered once gets nothing twice |
| `Lanes.EveryHandlerIsCalled` | tlgr/daemon/events.py:622-635 | in every interleaving: when a worker is done with an event it took, the handlers it was handed to are exactly those registered when it was taken, in their order, each once, and until then a prefix of them |
| `Lanes.PublishedIsQueued` | tlgr/daemon/events.py:601-616 | in every interleaving an event published while there are handlers and lanes waits in its lane until, the oldest there, its worker takes it or an event that finds the lane full drops it |
| `Lanes.BusTakesWhatComes` | tlgr/daemon/events.py:560-644 | in every run just the events emitted are published, as they are; a handler joins at the end and goes from its first place; the workers start with an empty lane each |
| `EventBuses.NextKeepsBuffers` | tlgr/daemon/events.py:560-590 | every event keeps each buffer the last events its account emitted, consecutively numbered up to the latest |
| `EventBuses.NextKeepsLanes` | tlgr/daemon/events.py:601-635 | lanes, flights and deliveries stay in publish order |
| `EventBuses.NextKeepsOnce` | tlgr/daemon/events.py:639-644 | a handler registered once is never called twice for one event |
| `EventBuses.EventBus.Emit` | tlgr/daemon/events.py:560-586 | number, buffer and enqueue one event |
| `EventBuses.EventBus.Append` | tlgr/daemon/events.py:589-590 | a bounded deque |
| `EventBuses.EventBus.Enqueue` | tlgr/daemon/events.py:601-616 | the chat's lane, dropping its oldest when full |
| `EventBuses.EventBus.ReplaySince` | tlgr/daemon/events.py:676-699 | events above `since` and the gap |
| `EventBuses.EventBus.Take` | tlgr/daemon/events.py:622-626 | the lane's oldest event and a snapshot of the handlers |
| `EventBuses.EventBus.Hand` | tlgr/daemon/events.py:627-635 | one turn of the loop over the handlers |
| `Buckets.SpendingIsBounded` | tlgr/daemon/ratelimit.py:59-91 | over any run of concurrent takes the balance stays within 0 and burst, and any interval of length T costs at most burst + rate * T |
| `Buckets.WaitIsExact` | tlgr/daemon/ratelimit.py:71-76 | a lone take is let through exactly when its wait is over if and only if its cost is at most the burst |
| `Buckets.AttemptedKeeps` | tlgr/daemon/ratelimit.py:82-91 | every turn of `take` keeps every stretch of grants within its bound |
| `Buckets.TokenBucket.Refill` | tlgr/daemon/ratelimit.py:59-64 | tokens grow with time up to the burst |
| `Buckets.TokenBucket.Delay` | tlgr/daemon/ratelimit.py:71-76 | how long until the cost is covered |
| `Buckets.TokenBucket.Consume` | tlgr/daemon/ratelimit.py:78-80 | refilled once more and charged |
| `Buckets.TokenBucket.TryTake` | tlgr/daemon/ratelimit.py:82-91 | one turn of the loop: through exactly when the refilled balance covers the cost |
| `Filters.CompilingKeepsTheMeaning` | tlgr/filters/compose.py:44-81 | for every nested block the tree gives the verdict of the direct reading, and is None exactly when the block says nothing |
| `Filters.AsyncAgrees` | tlgr/filters/compose.py:134-176 | with only synchronous leaves both walks give the same verdict and reason |
| `Filters.BlockPasses` | tlgr/filters/compose.py:84-176 | for every block and event: the tree lets the event through, walked with or without awaiting, exactly when the block as it reads does, where an unknown filter lets nothing through |
| `Filters.ParseFilterConfig` | tlgr/filters/compose.py:44-69 | the loop builds the tree; no block gives no filter |
| `Filters.ParseChildList` | tlgr/filters/compose.py:72-81 | the sets of a list, those that say nothing left out |
| `Filters.EvaluateNode` | tlgr/filters/compose.py:84-131 | the walk with its loops and short-circuits |
| `Filters.Evaluate` | tlgr/filters/compose.py:84-131 | leaves that have to be awaited are rejected |
| `Filters.EvaluateAsync` | tlgr/filters/compose.py:134-176 | leaves are awaited |
| `Downloads.Transfer.Download` | tlgr/daemon/files.py:162-217 | how the call comes out and where it stops, for every client; what it leaves in the part file when it raises and in the target when it returns; and a returned target is the source when the part file is a prefix cut clean and the size is known |
| `Downloads.Transfer.Open` | tlgr/daemon/files.py:162-171 | where to resume, and the part file cut back to there if `truncate` works |
| `Downloads.Transfer.Receive` | tlgr/daemon/files.py:183-193 | each chunk goes behind the end of the part file |
| `Downloads.LeavesAPrefix` | tlgr/daemon/files.py:165-171 | however far a call got, the file is exactly the source up to there |
| `Downloads.CallsKeepThePrefix` | tlgr/daemon/files.py:162-214 | after any sequence of calls, failed or returned, that found nothing to cut off or cut it off, the part file is a prefix of the source |
| `Downloads.ReturnsTheSourceWhen` | tlgr/daemon/files.py:165-214 | every call that returns, over all that the client may do, leaves the source if and only if the size given exceeds the source (then none returns), or the part file is cut clean and the size is the source's or nothing is missing |
| `Downloads.ShortReturns` | tlgr/daemon/files.py:206-214 | whenever the size given (0 is the default) is less than the source and something is missing, an iteration that ends at it, or at once, returns a proper prefix |
| `Downloads.UncutReturns` | tlgr/daemon/files.py:170-171 | whenever something sticks out of the last whole part and is not cut off, an iteration that hands over everything returns too long a file |
| `Downloads.UncutPartIsCorrupted` | tlgr/daemon/files.py:170-171 | whenever it had and did not work, some source is corrupted by the very next byte |
| `Queues.FinishedBalances` | tlgr/gateway/scheduler.py:706-713 | a finish moves exactly one item of its slot from live to counted |
| `Queues.LaunchedKeeps` | tlgr/gateway/scheduler.py:616-618 | starting a pending item keeps the queue invariant |
| `Queues.RestoredKeeps` | tlgr/gateway/scheduler.py:242-246 | restoring a held item whose key is not live keeps the queue invariant |
| `Safety.SettledQueueEffect` | tlgr/gateway/scheduler.py:615-652 | after an execution exactly its batch has left or is back, and nothing of it is running |
| `Heaps.LeavingKeepsHeap` | tlgr/gateway/scheduler.py:719-723 | items may leave without their entries, and every heap stays complete |
| `Heaps.PushedIsSorted` | tlgr/gateway/scheduler.py:327-330 | a push keeps a least entry at the head |
| `ItemQueues.ItemQueue.constructor` | tlgr/gateway/scheduler.py:121-150 | a new queue is empty |
| `ItemQueues.ItemQueue.Put` | tlgr/gateway/scheduler.py:609-613 | the item as it now is, pending, with an entry for its present due time |
| `ItemQueues.ItemQueue.Edit` | tlgr/gateway/scheduler.py:295-296 | an item changed in place in anything but its due time keeps its entries |
| `ItemQueues.ItemQueue.CountRefused` | tlgr/gateway/scheduler.py:298-309 | one more thing handed in and counted that never becomes an item |
| `ItemQueues.ItemQueue.SettleEach` | tlgr/gateway/scheduler.py:646-652 | the loop over the batch: each item settled once, in order |
| `ItemQueues.ItemQueue.RestoreOne` | tlgr/gateway/scheduler.py:238-246 | one held record dropped, skipped or inserted |
| `ItemQueues.ItemQueue.ForgetPending` | tlgr/gateway/scheduler.py:366-373 | a pending item of the job goes, with its own key and no other |
| `Scheduler.ActionScheduler.Tick` | tlgr/gateway/pacer.py:43-46 | the clock moves on |
| `Scheduler.ActionScheduler.Close` | tlgr/gateway/scheduler.py:183-187 | no new action starts |
| `Scheduler.ActionScheduler.CountOnly` | tlgr/gateway/scheduler.py:346-352 | a job's own count, on account as handed in |
| `Scheduler.ActionScheduler.Enqueue` | tlgr/gateway/scheduler.py:310-317 | the album remembers the item, and it joins the queue |
| `Scheduler.ActionScheduler.GiveUp` | tlgr/gateway/scheduler.py:551-553 | an item past its expiry leaves as expired |
| `Scheduler.ActionScheduler.PutItemOff` | tlgr/gateway/scheduler.py:602-607 | a held item is put off, not executed |
| `Scheduler.ActionScheduler.ExecuteDry` | tlgr/gateway/scheduler.py:615-652 | a dry run starts and settles without a request |
| `Scheduler.ActionScheduler.Execute` | tlgr/gateway/scheduler.py:615-619 | the batch is running, its worker in `presence.before` |
| `Scheduler.ActionScheduler.Start` | tlgr/gateway/scheduler.py:562-565 | the slot is taken and the batch around the head starts |
| `Scheduler.ActionScheduler.IssueRead` | tlgr/gateway/scheduler.py:788-792 | the read is announced before it goes out |
| `Scheduler.ActionScheduler.TakeReadSlot` | tlgr/gateway/scheduler.py:787-792 | the read pacer's slot is taken for a reaction |
| `Scheduler.ActionScheduler.ShowTyping` | tlgr/actions/reply.py:78-85 | the phase moves once, and the worker is to put the reply off until typing ends |
| `Scheduler.ActionScheduler.SendReply` | tlgr/actions/reply.py:86-92 | the send is announced before it goes out |
| `Scheduler.ActionScheduler.Wake` | tlgr/gateway/scheduler.py:785-787 | the read pacer is asked again |
| `Scheduler.ActionScheduler.ActDone` | tlgr/actions/reply.py:86-99 | what was sent is noted, and the action is over |
| `Scheduler.ActionScheduler.Break` | tlgr/gateway/scheduler.py:634-643 | an error of what was awaited ends the action |
| `Spoilers.Read` | tlgr/core/text.py:102-113 | one character of the loop |
| `Spoilers.MoveAll` | tlgr/core/text.py:122-134 | every entity at its moved offset and length, its other fields untouched |
| `Spoilers.Emit` | tlgr/core/text.py:135-139 | spoilers that cover something, as entities |
| `Marks.PartsAreClean` | tlgr/core/text.py:71 | no part of a text without sentinels holds one |
| `Subscribers.Subscriber.constructor` | tlgr/daemon/events.py:112-113 | a new subscription is empty |
| `Subscribers.Subscriber.Get` | tlgr/daemon/stream.py:178-180 | the oldest queued event |
| `EventBuses.EventBus.constructor` | tlgr/daemon/events.py:470-482 | sizes at least 16, at least one worker |
| `EventBuses.EventBus.StartWorkers` | tlgr/daemon/events.py:494-503 | as many empty lanes as workers |
| `EventBuses.EventBus.RemoveHandler` | tlgr/daemon/events.py:642-644 | the handler's first registration goes |
| `Buckets.TokenBucket.constructor` | tlgr/daemon/ratelimit.py:53-57 | a full bucket with a positive rate and room for one |

## Left out

- Presence (`before` and `after` are awaits at which a worker can be suspended or fail; what they send is not modelled).
- `PendingItem` as a mutable object: items are values in the item map, and a change in place is a new value under the same id; aliasing between the map and a worker's local list is not captured.
- `ActionScheduler` is two objects here, the queue and the rest, and holds its pacers as values; class `Pacer` is proved to take exactly the same steps.
- heapq is a sorted sequence; the binary layout of the heap is not modelled.
- Dictionaries: their insertion order is modelled for the recent keys and the albums; loops over items visit them in any order.
- `on_bus`: which Telegram update becomes which external read or outgoing message.
- Wake events, sleeps and the save debounce: a worker may take its next step at any time. The random number of a percentage roll is a parameter.
- `job_stats`, `snapshot`, logging and error texts; the last error of an item is only its class.
- The branch of `_step` for an unknown action: only built-in kinds are queued, and a held item of another kind is dropped by `resume`.
- JSON text and unreadable entries of the pending file: a file is a list of records; a record of an action that is no longer built in keeps only id, job and key.
- The payload of an action beyond what decides its behaviour (emoji, texts). The destination of a forward is a chat id, where the source resolves a peer; its variants that send the content anew go out as the same request, with an answer that reports nothing to note.
- Rounding of floating point: times, tokens and delays are reals.
- Queues.Recency: a key whose unfinished item was forgotten with its job may come back at once, as in the code.
- Accounts.NothingIsLost: a job slot whose action name changes starts its counters over, and a forgotten job loses its items and counters; the statement is for slots where neither happens.
- Restart.RestartLosesNoWork: for a file with room for everything (10000 items) and every live job active; `Restart.ComesBackWhen` says for any file and any jobs which items come back.
- Promises.HeldPastTheWindow: for windows as `QuietHours.parse` makes them; a string it cannot parse counts as no quiet hours. Daylight-saving changes are not modelled.
- Lanes.EveryHandlerIsCalled: as long as the bus is not stopped and started anew, which gives it fresh lanes.
- Lanes.PublishedIsQueued: likewise.
- Counters.CountersAreExact: as for `Accounts.NothingIsLost`, for slots that keep their action name and are not forgotten.
- Pace.PaceHolds: across a change of the rule `PaceIsKept` gives the floor and the cap slot by slot, each under the rule it was taken under.
- `_mark_spoilers` in html mode (a replacement of fixed tags) and the markdown and HTML parsers themselves.
- Lone surrogates in a text: `utf16_len` raises on them.
- `EventBus.publish` to subscribers: which subscriber wants an event is a filter on three fields; each subscription is modelled on its own, with any sequence of offers.
- Persisted sequence numbers: `load_seq` may start anywhere.
- A replay from an empty buffer, or from beyond the latest number, reports no gap.
- `download` with an offset, a limit, `resume` off or several connections; progress reports; buffered bytes lost in a crash of the process.
- Buckets.SpendingIsBounded: for costs that are not negative.
- The circuit breaker, flood memory and the other parts of tlgr/daemon/ratelimit.py.
- A filter block that is neither a mapping nor missing at the top level.
