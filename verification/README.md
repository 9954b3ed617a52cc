# Verified model of the dioxus-tus upload client

`dioxus-tus` uploads files from a browser over the tus resumable upload protocol 1.0.0. This
project models the client as the stack of state machines it is, and proves what the stack
guarantees for every command sequence, server answer, loss, delay and quota decision:

- **Upload engine** (`Engine`, over `World`). The command loop and one upload run with its
  nested retry and recovery loops, written with the source's loops. Commands, replies, clock
  readings and blob reads are nondeterministic choices of the environment, the quota is an
  arbitrary sequence of decisions, and other tabs and workers use the same store whenever the
  worker is suspended. `World` records every event in a ghost history.
- **Run protocol** (`RunMonitor`, `RunLaws`, `SignalLaws`, `SaveLaws`). An automaton that says which event may come next.
  The engine is proved to follow it (`conforms`), and the laws (request budget, command
  conservation, exit contract, what observers are shown, what the store holds and when it is
  written) are proved once, about every history the
  automaton allows. A stored event says whether the store accepted it.
- **Server** (`Server`). An upload resource under the PATCH rule of the tus protocol (section
  "PATCH" of the core protocol): a request, once sent, may arrive later, repeatedly or in part,
  and is applied only at the stored length.
- **Queue scheduler** (`Queue`, `QueueLaws`, `QueueEffects`, `QueueTime`, `RetryLaws`,
  `Scheduler`). The tick and every handle operation, as functions with laws over whole runs, with
  their effect on each field of each item, and as the object that is updated in place.
- **Queue against workers and servers** (`QueueRace`, `QueueRaceNeeds`). The queue composed with
  the workers' command channels, the run protocol and the servers' resources: can a worker's
  signal be blamed on the wrong item, and was every completed file stored?
- **OPTIONS cache** (`OptionsCache`). The leader and waiter protocol, each caller a task that may
  be dropped at any suspension point.
- **Resume store** (`Persistence`, `Origin`, `MatchKey`). Readers, writer, eviction, the origin
  parser with its printer, and the match key's hash over 64-bit words.
- **Server-side hooks** (`HookChain`, `Webhook`). The pre-hook chain, webhook retry under a
  deadline, and the capped body read.

Times are real milliseconds, file contents are sequences of bytes, and stored JSON is an entry or
unreadable text. Termination of every method, the engine's loops included, is part of what
verifies: with finitely many commands each run returns or waits, paused, for a command.

Four flags of the environment are assumptions that a theorem names when it needs them: `honest`
(the server acknowledges no more than it stores, and a resumed resource holds a prefix of the
file), `alone` (nobody else has a live item for the same file, so others may only sweep its row),
`smooth` (files can be read, requests are valid, creation is accepted, and between two steps of
progress at most `max_retries` requests fail, all in a way that may pass) and `closes` (the
senders are dropped at the end).

## Findings

- `queue.rs:485-493` documents that a retried item resumes from a stored entry. The code clears
  `existing_url` and looks nothing up: `RetriedStartsAfresh` shows that no run and no store makes
  its `Start` resume, `RetryIgnoresStore` says exactly when `add` would have chosen otherwise, and
  `StoreOffersUpload` gives such a store for every file.
- An entry whose `last_modified` is not finite is written as JSON `null` and cannot be read back.
  A `put` of it succeeds and its entry is never offered; `PutIsOneUpdate` states exactly when.
- Cleaning up changes no answer now, but it deletes entries dated in the future, so it can change
  a later answer. `CleanupLater` states that exactly these answers are lost.
- Nothing makes a worker read its commands before the tick that gives it an item
  (`queue.rs:696-698`). `GuardIsExact` gives the condition: all later rounds stay fair if and only
  if no worker that the round gives an item to has an Abort unread. An unread Pause or Resume does
  no harm, nor does an unread Abort on any other slot. `AbortAllThenAdd` reaches an unguarded round.
- The synchronous `Uploading` stamp is needed in every round that hands out an item, retried items
  included: without it the next round is fair if and only if this one hands out nothing
  (`StampIsNeeded`; `RetryNeedsStamp` reaches such a round for a retried item).
- The slot that a removed item keeps is needed for any slot of any queue: were it free when a round
  hands out an item, some later round would be unfair (`OrphanSlotIsNeeded`, `OrphansOccur`).
- Only a `retry` lets an item overtake another in the queue, and only an item that stands earlier
  in the list (`NobodyJumpsTheQueue`, an if-and-only-if).
- The waits of a webhook delivery are bounded by its retry deadline if and only if the clock can
  represent that deadline, or there is no retry, or there is one and the deadline is at least
  150 ms (`BoundedIff`).
- `lib.rs:60` documents `max_retries` additional attempts. A delivery that nothing else stops makes
  that many if and only if the setting is below the 32-bit limit, where it makes one fewer
  (`RetriesAreSpent`; `OneRetryIsLost` gives such a delivery).

## Model

| member | source | states |
|---|---|---|
| Server.ArrivalsFaithful | crates/tus-protocol/src/storage.rs:37-49 | any sequence of late, repeated or partial arrivals of file slices keeps the stored bytes a prefix of the file and never shrinks them |
| Server.ForeignBodyCorrupts | crates/dioxus-tus/src/hook.rs:1051-1081 | a request at the stored length is safe under every partial arrival if and only if its body is the file's slice there |
| RunLaws.ConformingIsSound | crates/dioxus-tus/src/hook.rs:587-1272 | every history the protocol allows keeps the run invariant (budgets, offsets, unsaved progress, endings) |
| RunLaws.PatchCarriesSlice | crates/dioxus-tus/src/hook.rs:1051-1081 | every PATCH, retries included, carries the slice of the file at the acknowledged offset, of max(chunk_size, 1) bytes unless the file ends before, and is never sent while paused |
| RunLaws.NoBlindRetry | crates/dioxus-tus/src/hook.rs:1068-1229 | within a stretch every PATCH after the first follows a recovery HEAD of its own, and no recovery HEAD goes out before a PATCH; both counts are read off the history |
| RunLaws.RequestBudget | crates/dioxus-tus/src/hook.rs:1068-1229 | one stretch on a chunk, which progress or a pause ends, issues at most max_retries + 1 PATCHes and at most max_retries + 1 recovery HEADs, counted in the history itself |
| RunLaws.FatalFailureEndsRun | crates/dioxus-tus/src/retry.rs:9-43 | a PATCH or recovery HEAD that fails in any way but an answer of 408, 409, 429 or 500 and above or a transport failure marked retryable ends the run at once; the result is the answered status, or a transport error |
| RunLaws.TransientFailureIsRetried | crates/dioxus-tus/src/hook.rs:1082-1226 | a run that ends over one of these failures has met more than max_retries failures in its stretch |
| RunLaws.NoPatchAfterFailure | crates/dioxus-tus/src/hook.rs:1082-1159 | after a failed request the next request is never a PATCH: a recovery HEAD is answered first |
| RunLaws.RetriesAreWaitedFor | crates/dioxus-tus/src/hook.rs:1082-1191 | within a stretch a wait has begun for every recovery HEAD before a PATCH or another HEAD repeats |
| RunLaws.WaitsAreBounded | crates/dioxus-tus/src/hook.rs:271-305 | no wait exceeds the longest one for its place in the stretch |
| RunLaws.LongestWaitDoubles | crates/dioxus-tus/src/hook.rs:271-284 | that longest wait is retry_delay_ms at first, doubles eight times and saturates at 32 bits |
| RunLaws.LookBeforePatch | crates/dioxus-tus/src/hook.rs:941-998 | between new progress, a new upload or a pause and the next PATCH the worker has looked at its command channel |
| RunLaws.ForgetsBeforePlainPost | crates/dioxus-tus/src/hook.rs:770-787 | a plain POST follows a POST with the body only after the cached capabilities of the server were dropped |
| RunLaws.BodyRidesOnPost | crates/dioxus-tus/src/config.rs:118-120 | a POST carries the whole file or nothing, and the whole only of a file of 1 to creation_with_upload_threshold bytes |
| RunLaws.RunsAreStarts | crates/dioxus-tus/src/hook.rs:491-570 | the runs that began are exactly the Start commands taken, in channel order, but for one that is about to begin |
| RunLaws.StatusMirrorsPause | crates/dioxus-tus/src/hook.rs:889-1050 | whenever an upload under way looks for a command or sends a request, the status it last wrote is Paused if and only if the last Pause or Resume taken in the run was Pause, and it sends nothing while held |
| RunLaws.InterruptionEndsRun | crates/dioxus-tus/src/hook.rs:840-876 | after an Abort, a Start or the loss of all senders during a run nothing follows but the removal of the entry, the reset and the exit, aborted or for the new Start |
| RunLaws.ExitContract | crates/dioxus-tus/src/hook.rs:840-876 | Done means Complete with all bytes and the entry removed; Aborted and Restart mean a reset state and, after creation or while resuming, the entry removed; a failure removes it only for a resumed URL answered 400, 404 or 410 |
| RunLaws.FailureKeepsEntry | crates/dioxus-tus/src/hook.rs:930-1272 | a run that fails after showing its upload keeps the last entry the store accepted; if the last write was accepted there is one, behind by less than max(1, size/20) bytes |
| RunLaws.CreationTimeIsKept | crates/dioxus-tus/src/hook.rs:902-938 | every write of the stored entry in a run names this key, endpoint, file, URL and the acknowledged offset, and carries the first one's creation time |
| RunLaws.UnsavedProgressIsSmall | crates/dioxus-tus/src/hook.rs:1235-1260 | whenever an upload under way looks for a command or sends a request, the last entry the store accepted is behind the acknowledged offset by less than max(1, size/20) bytes, unless the store refused the last write |
| RunLaws.ProgressWithinTotal | crates/dioxus-tus/src/hook.rs:894-900 | from the first shown upload of a run to its end, completion included, the shown bytes never exceed a known total |
| SignalLaws.UploadIsShown | crates/dioxus-tus/src/hook.rs:889-1050 | whenever an upload under way looks for a command or sends a request, the signal shows Paused or Uploading as it is held or not, the acknowledged bytes, the file's size, its URL and no error, unless a `start` call stamped over it; from then on only the bytes of the next progress are true |
| SignalLaws.OffsetIsLastShown | crates/dioxus-tus/src/hook.rs:1235-1236 | the acknowledged offset and the URL are those of the latest new upload or progress |
| SignalLaws.CompletionIsShown | crates/dioxus-tus/src/hook.rs:1265-1269 | a completed upload shows Complete, all its bytes, its size, its URL and no error |
| SignalLaws.FailureIsShown | crates/dioxus-tus/src/hook.rs:558-565 | a failed run shows Error with its error next and changes nothing else |
| SignalLaws.IdleCommands | crates/dioxus-tus/src/hook.rs:491-516 | outside a run Abort clears the signal, its error included, Pause only turns Uploading into Paused, and Resume only Paused into Uploading, each before anything else |
| SignalLaws.StartIsShown | crates/dioxus-tus/src/hook.rs:53-70 | the stamp of `start` shows Uploading without bytes, size, URL or error |
| SaveLaws.SavesAreDue | crates/dioxus-tus/src/hook.rs:1238-1260 | after the first save of a run, each follows a clock reading since the latest progress and was due then: more than 2 s since the last save, max(1, size/20) bytes more, or the end |
| SaveLaws.DueIsSaved | crates/dioxus-tus/src/hook.rs:1238-1260 | whenever an upload under way looks for a command or sends a request, it has attempted to save the acknowledged offset, or read the clock since the latest progress and found no save due |
| World.World.AskPatch | crates/dioxus-tus/src/hook.rs:1077-1077 | the request joins those on the wire; arrivals, loss and the reply are free, except that an honest server acknowledges no more than it stores and a smooth one makes progress or fails in a way that may pass, within the retries left |
| World.World.AskRecoveryHead | crates/dioxus-tus/src/hook.rs:1087-1087 | old requests may still arrive; an honest answer is at most the stored length, a smooth one is usable or a failure that may pass, within the retries left |
| World.World.AskResumeHead | crates/dioxus-tus/src/hook.rs:684-716 | the URL names some resource; with an honest server it holds a prefix of the file and the answer is at most its length |
| World.World.AskCreateWithBody | crates/dioxus-tus/src/hook.rs:753-769 | a new resource keeps some prefix of the file sent with the POST |
| World.World.GoOut | crates/dioxus-tus/src/hook.rs:331-368 | an interrupted creation may leave a resource on the server that nobody knows; on an honest server it holds a prefix of its file |
| World.World.Suspend | crates/dioxus-tus/src/hook.rs:53-70 | while the worker is suspended others change the store, the run's own row only by a sweep if it is alone, and a pending `start` may stamp the signal; nothing else changes |
| World.World.SuspendedIsSafeguarded | crates/dioxus-tus/src/hook.rs:1235-1260 | at every suspension of an upload under way, if the store accepted the last write (always, if it accepts everything), the row is in the store or was swept as unreadable, and is behind by less than max(1, size/20) bytes |
| World.World.FailureIsSafeguarded | crates/dioxus-tus/src/hook.rs:930-1272 | the same for the row that a failed run leaves behind |
| World.World.TryNext | crates/dioxus-tus/src/hook.rs:943-998 | a look at the channel takes the oldest command, nothing, or learns that all senders are gone |
| World.World.Save | crates/dioxus-tus/src/hook.rs:1281-1303 | the store's own decision is what the history records, and an accepted entry is the row's content |
| Engine.JitteredRetryDelay | crates/dioxus-tus/src/hook.rs:271-284 | the delay is some fraction below 1 of the longest wait for this attempt, rounded down |
| Engine.RacePreLoop | crates/dioxus-tus/src/hook.rs:331-368 | commands are taken in order until the request is done; Pause and Resume are noted, Abort and Start end the race after any of its requests went out, a closed channel does not; resources left behind by an interrupted creation begin their file |
| Engine.RaceRecovery | crates/dioxus-tus/src/hook.rs:370-394 | the HEAD is answered with at most the stored length, or a command taken from the channel ends the wait in the matching state |
| Engine.WaitRetryBackoff | crates/dioxus-tus/src/hook.rs:286-305 | the wait begins, with at most the longest delay for its attempt, and ends by itself or by one command, in the matching state and with nothing lost |
| Engine.RecoverHead | crates/dioxus-tus/src/hook.rs:1086-1159 | the recovery loop finds the server's offset, spending one retry for each failed HEAD, or stops for a command, or gives up over a failed HEAD that cannot pass or exceeds the retries; a smooth environment without commands answers it |
| Engine.WaitForHead | crates/dioxus-tus/src/hook.rs:1089-1104 | a failed recovery HEAD ends the run if and only if it cannot pass or no retry is left; otherwise the backoff runs |
| Engine.TryPatch | crates/dioxus-tus/src/hook.rs:1068-1086 | one PATCH: an acknowledged offset beyond the old one and within the file is taken, any other ends the run; a failure that may pass leads to another attempt if and only if a retry is left, and any other ends the run |
| Engine.PrepareRetry | crates/dioxus-tus/src/hook.rs:1082-1225 | after a failed PATCH: an answer with another length, beyond the file or below the local offset ends the run; a larger offset is taken over; an equal one leads to another attempt with the same slice, a command or a read error; no answer leads to a stop |
| Engine.SendChunk | crates/dioxus-tus/src/hook.rs:1057-1229 | one chunk of at most max(chunk_size, 1) bytes, sent after a look at the channel, ends with a larger offset that the server has stored, a pause, or a lawful exit, and breaks off only over a failure that cannot pass or exceeds the retries, a useless answer or an unreadable file; in a smooth environment without commands it ends with a larger offset |
| Engine.ResumeExisting | crates/dioxus-tus/src/hook.rs:681-717 | the answer is taken if and only if its length is absent or the file's and its offset within the file; 400, 404 and 410 drop the stored entry, other errors do not end otherwise |
| Engine.LearnCapabilities | crates/dioxus-tus/src/hook.rs:720-731 | capabilities come from the cache while fresh and are asked for otherwise; requests with their own token or headers always ask |
| Engine.CreateWithBody | crates/dioxus-tus/src/hook.rs:718-801 | a file above the limit the server names is refused with that limit and without a POST; the body is posted if and only if the server offers that; an accepted POST gives its offset; refusal with 405, 412, 415 or 501 drops the cached capabilities and leads to the plain POST, whose resource is empty and whose offset is 0; any other error ends the run |
| Engine.CreateEmpty | crates/dioxus-tus/src/hook.rs:802-833 | a file above the limit in the cache is refused without a request, unless the request has its own token or headers; otherwise plain creation yields an empty resource and offset 0, or fails |
| Engine.RequestUrl | crates/dioxus-tus/src/hook.rs:681-833 | a given URL is resumed, and the server's capabilities are consulted exactly for a new file of 1 to creation_with_upload_threshold bytes; a file above the limit they name is refused with it |
| Engine.ForgetIfGone | crates/dioxus-tus/src/hook.rs:693-715 | 400, 404 and 410 remove the stored entry, and no other error does |
| Engine.ResolveUrl | crates/dioxus-tus/src/hook.rs:681-882 | before the chunk loop: a URL with a valid, stored offset, or an exit whose promises hold |
| Engine.CreationTime | crates/dioxus-tus/src/hook.rs:910-929 | the entry's time is that of an entry still on offer for the key, else now |
| Engine.Establish | crates/dioxus-tus/src/hook.rs:889-938 | the new upload is shown, with its status, offset, size and URL and without an error, and, if the store accepts, its row is in the store with the creation time of the entry on offer |
| Engine.PollAtHead | crates/dioxus-tus/src/hook.rs:941-998 | at most one command is taken between chunks, and each leads to its state; an upload that goes on unpaused has looked at the channel |
| Engine.WaitPaused | crates/dioxus-tus/src/hook.rs:1000-1049 | a paused upload takes exactly one command, or, with none left, waits for ever or ends because the senders are gone |
| Engine.Advance | crates/dioxus-tus/src/hook.rs:1235-1260 | the offset moves forward and is shown, with nothing else of the signal changed; it is saved when enough progress or the end calls for it, and then, if the store accepts, the row shows it |
| Engine.ChunkLoop | crates/dioxus-tus/src/hook.rs:941-1272 | by (commands left, bytes left) the loop returns a lawful outcome or parks while paused with no command left, looks at the channel before every chunk, and returns Done in a smooth environment without commands |
| Engine.Leave | crates/dioxus-tus/src/hook.rs:840-876 | an interrupted run resets its state and removes its entry unless none can exist yet |
| Engine.RunUpload | crates/dioxus-tus/src/hook.rs:587-1272 | end to end: Done shows Complete with all bytes, leaves no entry and, with an honest server, finds exactly the file's bytes stored; after creation every outcome, a parked pause included, leaves a prefix of the file on an honest server; Failed leaves the row as FailureIsSafeguarded says; in a smooth environment without commands, failures up to the retries included, the outcome is Done |
| Engine.RunUntilSettled | crates/dioxus-tus/src/hook.rs:518-568 | a Start that displaces an upload runs next, unpaused, until a run settles or parks |
| Engine.RunCommandLoop | crates/dioxus-tus/src/hook.rs:480-571 | for any finite commands the loop ends with the whole history allowed by the protocol, every command sent taken in order, and every upload reported complete stored whole by an honest server; a single Start in a smooth environment, where up to max_retries requests may fail between two steps of progress, ends Complete |
| QueueLaws.OpKeepsInv | crates/dioxus-tus/src/queue.rs:412-478 | every handle operation and every tick keeps: ids increase along the list and are never reused, no two slots hold one item, an item is active if and only if a slot holds it |
| QueueLaws.InvAlways | crates/dioxus-tus/src/queue.rs:661-774 | the same after any sequence of operations and ticks, with the number of slots unchanged |
| QueueLaws.ActiveBound | crates/dioxus-tus/src/queue.rs:175-186 | the active items never outnumber the workers |
| QueueLaws.ReconcileIsPointwise | crates/dioxus-tus/src/queue.rs:679-752 | each held item mirrors its own worker, no other item changes, and exactly the slots of finished workers become free, orphaned slots included |
| QueueLaws.FillDealsInOrder | crates/dioxus-tus/src/queue.rs:754-773 | the first min(free, queued) queued items start, in list order, in the free slots in slot order |
| QueueLaws.WorkConservation | crates/dioxus-tus/src/queue.rs:754-773 | after a tick there is no free slot or no queued item |
| QueueLaws.TickItem | crates/dioxus-tus/src/queue.rs:661-774 | an active item becomes what its worker shows, a queued one may start, nothing else changes |
| QueueEffects.TickCopiesWorker | crates/dioxus-tus/src/queue.rs:708-750 | a tick gives each held item its worker's bytes, the worker's URL if it has one, the worker's error if and only if the worker failed, and the status that the worker's five stand for, and leaves id, file, options and start time alone |
| QueueEffects.TickTimesPauses | crates/dioxus-tus/src/queue.rs:714-731 | a pause is noted when it begins and added when it ends, and counts nothing if the clock went back |
| QueueEffects.TickFreesSlots | crates/dioxus-tus/src/queue.rs:733-773 | a slot keeps its item exactly while the worker uploads or is paused; otherwise it is free afterwards or holds an item that was queued |
| QueueEffects.TickStartsAfresh | crates/dioxus-tus/src/queue.rs:754-773 | an item that no slot held starts now without a pause if a slot gets it, keeps all else, and is untouched otherwise |
| QueueEffects.AddAppends | crates/dioxus-tus/src/queue.rs:256-317 | `add` appends a queued item with the next id, the given file and options and no progress |
| QueueEffects.AbortItemMarks | crates/dioxus-tus/src/queue.rs:412-430 | `abort_item` marks the item if it is queued, and no other |
| QueueEffects.AbortAllMarks | crates/dioxus-tus/src/queue.rs:555-565 | `abort_all` marks exactly the queued items |
| QueueEffects.SweepsDrop | crates/dioxus-tus/src/queue.rs:433-478 | `remove_item` drops the item with the id, `clear_complete` the complete ones, `clear_finished` the complete, failed and aborted ones; the rest keeps its order and its slots |
| QueueEffects.RetryResets | crates/dioxus-tus/src/queue.rs:626-653 | a retry makes the item with the id, if it is over, a queued one with its file and its options but no URL, and leaves every other item alone |
| QueueEffects.RetryAnswers | crates/dioxus-tus/src/queue.rs:626-653 | the four answers of a retry, each exactly in its case |
| QueueLaws.NobodyJumpsTheQueue | crates/dioxus-tus/src/queue.rs:626-653 | an operation leaves no more queued items ahead of an item if and only if it is not an effective retry of an earlier item |
| QueueLaws.QueueAheadShrinks | crates/dioxus-tus/src/queue.rs:754-773 | over any run without retries the queue ahead of an item never grows |
| QueueTime.ReconciledTime | crates/dioxus-tus/src/queue.rs:708-730 | between two ticks an item seen uploading gains exactly the time that passed and one seen paused gains none; its time base is never negative |
| QueueTime.OpTimes | crates/dioxus-tus/src/queue.rs:766-769 | started + accumulated <= paused_at <= now for every paused item and started + accumulated <= now for every uploading one, after any operation |
| QueueTime.StartedAtZero | crates/dioxus-tus/src/queue.rs:764-769 | the time base of an item that a tick has just started is zero |
| QueueTime.PauseTimeIsConserved | crates/dioxus-tus/src/queue.rs:111-126 | over any run the time base of an item's speed grows by exactly the observed uploading time |
| QueueTime.SpeedCountsUploadingTime | crates/dioxus-tus/src/queue.rs:111-126 | the speed shown after any run divides the bytes by exactly that time, and is withheld below 250 ms of it |
| RetryLaws.RetriedStartsAfresh | crates/dioxus-tus/src/queue.rs:626-653 | after an effective retry, in every run and with every store, the Start sent for the item has no URL to resume |
| RetryLaws.RetryIgnoresStore | crates/dioxus-tus/src/queue.rs:484-512 | a retry gives the item the options `add` would give its file if and only if `add` would find nothing to resume |
| RetryLaws.StoreOffersUpload | crates/dioxus-tus/src/queue.rs:484-493 | for every file with a finite time of modification there is a store that offers an upload to resume |
| Scheduler.TusQueue.Add | crates/dioxus-tus/src/queue.rs:256-317 | the new item takes the next id, goes last, and resumes a stored upload unless a URL was given or an unfinished item has the same key |
| Scheduler.AddChoosesUrl | crates/dioxus-tus/src/queue.rs:256-317 | a URL given by the caller stands; otherwise the item gets the URL of the entry stored for its file, unless an unfinished item stands for the same file |
| Scheduler.ActiveMatchIs | crates/dioxus-tus/src/queue.rs:256-317 | such an item is queued, uploading or paused and has the same match key |
| Scheduler.TusQueue.AbortItem | crates/dioxus-tus/src/queue.rs:412-430 | a held item's worker is told and nothing else happens; a queued one is marked and its entry removed; otherwise nothing changes |
| Scheduler.TusQueue.AbortAll | crates/dioxus-tus/src/queue.rs:354-363 | every worker is told, exactly the queued items are marked, and exactly their entries go |
| Scheduler.TusQueue.ApplyAbortAll | crates/dioxus-tus/src/queue.rs:555-565 | the loop marks exactly the queued items and removes exactly their rows |
| Scheduler.TusQueue.ClearComplete | crates/dioxus-tus/src/queue.rs:433-439 | exactly the complete items leave, order kept, store untouched |
| Scheduler.TusQueue.ClearFinished | crates/dioxus-tus/src/queue.rs:574-592 | exactly the terminal items leave, and their entries with them |
| Scheduler.TusQueue.RemoveItem | crates/dioxus-tus/src/queue.rs:468-478 | the item leaves, its entry goes, its worker is told, and its slot stays taken until the worker is done |
| Scheduler.TusQueue.RetryItem | crates/dioxus-tus/src/queue.rs:626-653 | the decision, and the reset item exactly when the decision is Reset |
| Scheduler.TusQueue.ReconcileTick | crates/dioxus-tus/src/queue.rs:661-774 | the two loops compute the tick the laws are about, starts included |
| Scheduler.TusQueue.RunTick | crates/dioxus-tus/src/queue.rs:815-850 | a round is one tick over the signals, then a stamp and a Start for each started item's worker |
| Scheduler.RowsLessIs | crates/dioxus-tus/src/queue.rs:526-534 | a sweep removes exactly the rows of the selected items and changes no other |
| Scheduler.SweptRowsAre | crates/dioxus-tus/src/queue.rs:555-592 | `abort_all` removes the rows of the queued items' files, `clear_finished` those of the complete, failed and aborted items, and neither any other |
| Scheduler.DroppedFilesStartFresh | crates/dioxus-tus/src/queue.rs:402-466 | after a sweep a file finds a stored upload to resume if and only if it found one before and none of the swept items shares its key |
| QueueRace.StepKeepsGood | crates/dioxus-tus/src/queue.rs:679-752 | worker moves, arrivals, commands, operations and guarded rounds keep every slot's worker about the slot's own item and file |
| QueueRace.RoundTells | crates/dioxus-tus/src/queue.rs:815-850 | a round sends the worker of a dealt slot one Start with the item's file and options and shows an upload without progress; it sends the other workers nothing and leaves their signals alone |
| QueueRace.NoItemIsMisjudged | crates/dioxus-tus/src/queue.rs:686-706 | in every run of queue, workers and servers whose rounds were guarded, the next round marks an item Complete, Error or Aborted only if its worker has taken this item's latest Start, for this item's own file, and its run, since then, ended so or was aborted, so a retried item is not judged by its earlier run; a completed file was stored whole by an honest server |
| QueueRaceNeeds.GuardIsExact | crates/dioxus-tus/src/queue.rs:696-698 | after a round, all later rounds of every run are fair if and only if no worker that the round gave an item to had an Abort unread |
| QueueRaceNeeds.AbortAllThenAdd | crates/dioxus-tus/src/queue.rs:696-698 | abort_all, add: a reachable state whose next round is not guarded and leads to an unfair one |
| QueueRaceNeeds.OrphanSlotIsNeeded | crates/dioxus-tus/src/queue.rs:685-706 | in any good system, while the worker of a removed item is not done its slot is dealt to nobody, and if it were free and dealt to, some later round would be unfair, whatever the worker's channel holds |
| QueueRaceNeeds.OrphansOccur | crates/dioxus-tus/src/queue.rs:468-478 | add, a round, remove_item and add reach such a state, with the freed slot dealt to the new item |
| QueueRaceNeeds.StampIsNeeded | crates/dioxus-tus/src/hook.rs:53-70 | without the stamp in `start` the round after any round is fair if and only if that round gave no item to a worker |
| QueueRaceNeeds.RetryNeedsStamp | crates/dioxus-tus/src/hook.rs:53-70 | a reachable round that restarts a failed item on the same worker: without the stamp the item is judged by its earlier run |
| OptionsCache.StepKeepsInv | crates/dioxus-tus/src/options_cache.rs:67-192 | lookup, answer, resumption, drop of any caller and invalidation keep the coalescing invariant |
| OptionsCache.NobodyWaitsForNothing | crates/dioxus-tus/src/options_cache.rs:133-192 | in every run an endpoint is in flight if and only if it has a live leader, never two, and every waiting caller is listed once for it |
| OptionsCache.FetchEndsForAll | crates/dioxus-tus/src/options_cache.rs:95-120 | an answer or a dropped leader wakes exactly the endpoint's waiters, all with the same answer, frees the endpoint, and caches successes only |
| OptionsCache.HitsAreFresh | crates/dioxus-tus/src/options_cache.rs:67-90 | a hit repeats a success that a leader for this endpoint was told, and that leader began less than 60 s ago and not in the future |
| OptionsCache.FetchesAreCoalesced | crates/dioxus-tus/src/options_cache.rs:67-90 | a caller is answered from the cache if and only if the entry's age is in [0, 60 s), asks the server if and only if there is neither such an entry nor a live leader, and waits otherwise |
| OptionsCache.InvalidateLetsFlightsLand | crates/dioxus-tus/src/options_cache.rs:194-209 | after invalidation the endpoint is cached again if and only if a fetch for it, begun before or after, has succeeded since |
| OptionsCache.OptionsCache.LookupOrRegister | crates/dioxus-tus/src/options_cache.rs:67-90 | hit, wait or fetch, and the caller's registration; a hit if and only if the entry's age is in [0, 60 s) |
| OptionsCache.OptionsCache.FinalizeFetch | crates/dioxus-tus/src/options_cache.rs:95-120 | the loop over the waiters delivers what the laws are about |
| OptionsCache.OptionsCache.GetOrFetch | crates/dioxus-tus/src/options_cache.rs:133-192 | a call up to its first suspension is one Begin step |
| OptionsCache.OptionsCache.DropTask | crates/dioxus-tus/src/options_cache.rs:159-190 | a dropped leader ends the fetch for its waiters, a dropped waiter only itself |
| OptionsCache.OptionsCache.PeekFresh | crates/dioxus-tus/src/options_cache.rs:218-229 | the cached capabilities if and only if their age is in [0, 60 s), without registering |
| Persistence.Storage.Scan | crates/dioxus-tus/src/persistence.rs:279-373 | the result is exactly the entries `get` would answer for the stored keys, each once, and exactly the malformed or stale rows whose key agrees are removed |
| Persistence.Storage.Get | crates/dioxus-tus/src/persistence.rs:378-403 | the entry under the key if it parses, names this key and endpoint, is fresh and matches the endpoint's origin |
| Persistence.Storage.Put | crates/dioxus-tus/src/persistence.rs:411-431 | the quota's decisions decide success; success writes the row, after a sweep exactly when the first write was refused; failure leaves the swept rows |
| Persistence.Storage.EvictStaleEntries | crates/dioxus-tus/src/persistence.rs:439-468 | exactly the namespace's malformed, expired and future-dated rows go |
| Persistence.CleanupInvisible | crates/dioxus-tus/src/persistence.rs:279-468 | neither the scan's clean-up nor eviction changes any `get` answer for any endpoint at that time |
| Persistence.CleanupLater | crates/dioxus-tus/src/persistence.rs:439-468 | at a later time eviction has cost exactly the answers whose entries were dated in the future |
| Persistence.PutIsOneUpdate | crates/dioxus-tus/src/persistence.rs:411-431 | a successful put changes the answers at its own key only, and offers the new entry if and only if it is fresh, origin-valid and its time of modification is finite |
| Persistence.FailedPutInvisible | crates/dioxus-tus/src/persistence.rs:411-431 | a failed put changes no answer |
| Persistence.OfferedIsValid | crates/dioxus-tus/src/persistence.rs:378-403 | `get` and `scan` offer exactly the entries stored in the namespace under their own key, for the asked endpoint, aged 0 to 24 hours, whose upload lies at the endpoint's origin |
| Persistence.EvictionDrops | crates/dioxus-tus/src/persistence.rs:439-468 | eviction keeps exactly the rows outside the namespace and the readable entries aged 0 to 24 hours |
| Persistence.ScanDrops | crates/dioxus-tus/src/persistence.rs:279-373 | a scan drops exactly the unreadable rows of the namespace and the stale ones under their own key |
| Persistence.PutWritesRow | crates/dioxus-tus/src/persistence.rs:411-431 | a successful put leaves the entry in the namespace under its key, unreadable only if its time of modification is not finite |
| Persistence.EncodeInjective | crates/dioxus-tus/src/persistence.rs:107-107 | different texts are hashed as different bytes |
| Origin.ParsePrint | crates/dioxus-tus/src/persistence.rs:127-170 | every canonical origin, printed and followed by any path, query or fragment, parses to itself |
| Origin.CanonicalIffParsed | crates/dioxus-tus/src/persistence.rs:127-170 | the parser's results are exactly the canonical triples |
| Origin.RedactionKeepsOrigin | crates/dioxus-tus/src/persistence.rs:192-197 | the log form of a URL that parses has the same origin |
| Origin.MatchIffSameRedaction | crates/dioxus-tus/src/persistence.rs:180-185 | two URLs match if and only if both parse and log alike |
| Origin.TailKeepsOrigin | crates/dioxus-tus/src/persistence.rs:127-170 | a path, query or fragment behind a bare origin changes nothing |
| Origin.DefaultPorts | crates/dioxus-tus/src/persistence.rs:127-170 | without a port http and ws mean 80, https and wss 443, whatever their case, and other schemes have no origin; the rest of the URL does not matter |
| Origin.WrittenPort | crates/dioxus-tus/src/persistence.rs:127-170 | a written port stands, with a plus sign or without, and the host is lower-cased |
| Origin.ColonOfHost | crates/dioxus-tus/src/persistence.rs:127-170 | a last colon that no number follows belongs to the host |
| Origin.CredentialsAreDropped | crates/dioxus-tus/src/persistence.rs:127-170 | credentials in front of the host do not matter |
| MatchKey.MatchKey | crates/dioxus-tus/src/persistence.rs:75-117 | the two running hashes over the four components give the key the laws are about |
| MatchKey.PrimeInjective | crates/dioxus-tus/src/persistence.rs:90-98 | multiplication by the FNV prime loses nothing modulo 2^64 |
| MatchKey.StepInjective | crates/dioxus-tus/src/persistence.rs:92-98 | one hash step determines its word from its byte and its byte from its word |
| MatchKey.OneByteChangesKey | crates/dioxus-tus/src/persistence.rs:75-117 | inputs of equal component lengths that differ in exactly one byte never share a key, nor either half of one |
| MatchKey.SameStreamSameFile | crates/dioxus-tus/src/persistence.rs:75-117 | two files are hashed as the same stream if and only if endpoint, name, size and modification time agree, the time read as whole milliseconds toward zero, clamped to 64 bits, and as 0 if not finite |
| MatchKey.OneOtherByteInText | crates/dioxus-tus/src/persistence.rs:107-110 | one other byte in the endpoint or the name gives another key |
| MatchKey.OneOtherByteInSize | crates/dioxus-tus/src/persistence.rs:111-112 | one other byte in the 8-byte size gives another key |
| MatchKey.OneOtherByteInTime | crates/dioxus-tus/src/persistence.rs:113-114 | one other byte in the 8-byte time of modification gives another key |
| MatchKey.KeyLayout | crates/dioxus-tus/src/persistence.rs:100-116 | the key is "v2-" and two halves of 16 digits, the first printing the hash of endpoint, name, size and time, each behind its length |
| MatchKey.SecondHalf | crates/dioxus-tus/src/persistence.rs:100-116 | the second half hashes the same parts from its own basis, turning the word by five bits before each |
| MatchKey.KnownHash | crates/dioxus-tus/src/persistence.rs:89-98 | the hash has the published 64-bit FNV-1a value of the text "a" |
| MatchKey.HexDigits | crates/dioxus-tus/src/persistence.rs:116-116 | each digit prints its four bits |
| MatchKey.HashAIsFnvOfStream | crates/dioxus-tus/src/persistence.rs:100-115 | half `a` is the FNV-1a hash of the length-prefixed stream |
| MatchKey.StreamDecodes | crates/dioxus-tus/src/persistence.rs:100-115 | that stream is uniquely decodable, whatever follows it |
| HookChain.ExecutePre | crates/tus-protocol/src/hooks.rs:849-904 | the loop computes the chain the laws are about, calls included |
| HookChain.ChainsCompose | crates/tus-protocol/src/hooks.rs:849-904 | a + b is a and then, if it proceeds, b on the upload as a left it, with b's headers overriding and a's metadata standing unless replaced |
| HookChain.OneHook | crates/tus-protocol/src/hooks.rs:849-904 | a hook is called if and only if it subscribes to the event and that is a pre-event; its decision passes through, with metadata only at pre-create and pre-receive |
| HookChain.HooksSeeTheUpload | crates/tus-protocol/src/hooks.rs:849-904 | every hook sees the original event, request, id, offset and length |
| HookChain.NextHookSees | crates/tus-protocol/src/hooks.rs:849-904 | after a chain that proceeds, the next hook sees the metadata the chain would return, or the original |
| HookChain.CutOff | crates/tus-protocol/src/hooks.rs:876-887 | a rejection or an error ends the chain whatever follows |
| HookChain.CallsInOrder | crates/tus-protocol/src/hooks.rs:854-861 | exactly the hooks that subscribe to the event are called, at pre-events only, in order, up to the first refusal |
| HookChain.GatesKeepMetadata | crates/tus-protocol/src/hooks.rs:929-933 | at every event but pre-create and pre-receive every hook sees the original upload and no metadata comes back |
| HookChain.PostEventsPass | crates/tus-protocol/src/hooks.rs:859-861 | for a post-event the pre-chain proceeds and calls nothing |
| Webhook.SendWithRetry | crates/tus-hook-http/src/lib.rs:621-700 | the reply is that of the first attempt after which a stop rule holds, at most max_retries + 1 attempts (saturating), the waits are the computed ones, and with a representable deadline they sum to at most retry_deadline |
| Webhook.RetriedIff | crates/tus-hook-http/src/lib.rs:626-711 | an attempt is followed by another if and only if retries are enabled, one is left below the 32-bit limit, the reply is a failure, a 429 or a 5xx, and the wait would end by the deadline, if it is representable |
| Webhook.DelayIs | crates/tus-hook-http/src/lib.rs:600-619 | a wait is what a 429 or 503 asks for, cut at retry_deadline, and otherwise between one and one and a half times a backoff that doubles from 100 ms to 10 s |
| Webhook.BackoffBounds | crates/tus-hook-http/src/lib.rs:607-619 | the shift stays small, the backoff doubles from 100 ms up to its cap, and no computed delay reaches 15 s |
| Webhook.BoundedIff | crates/tus-hook-http/src/lib.rs:621-711 | for every network the waits sum to at most retry_deadline if and only if the deadline is representable, or there is no retry, or there is one and the deadline is at least 150 ms |
| Webhook.RetriesAreSpent | crates/tus-hook-http/src/lib.rs:626-700 | a delivery whose replies all ask for a retry and whose deadline never forbids one makes exactly max_retries further attempts if and only if max_retries is below the 32-bit limit, and one fewer at the limit |
| Webhook.OneRetryIsLost | crates/tus-hook-http/src/lib.rs:626-636 | such a delivery exists at the limit, for every deadline the clock cannot represent |
| Webhook.WaitsFit | crates/tus-hook-http/src/lib.rs:703-711 | with a representable deadline the waits before any attempt sum to at most retry_deadline |
| Webhook.ReadBodyCapped | crates/tus-hook-http/src/lib.rs:718-734 | the body, or its first cap bytes with the truncation flag if and only if it is longer; a failed read counts only before the cap is passed |

## Left out

- Dioxus signals and hooks, `web_sys` objects, gloo timers: replaced by plain state, byte sequences and free delays.
- HTTP encoding, TLS, tokens, header building and the `tus_uploader` client: requests return success, an unexpected status, or a retryable or fatal failure; a bad URL or header is a free choice of `InvalidRequest`.
- The server's lifecycle and storage backends: only the append rule of a stored resource appears.
- A resource that an interrupted creation left on the server is never removed: the client does not learn its URL. An entry that such a request found gone is removed by the interruption itself.
- The bias of `select_biased!`: which ready branch wins is a free choice, so the theorems cover both.
- World.World.AskResumeHead: assumes, for the delivery theorem only, that the resource behind a resumed URL holds a prefix of the file; the protocol cannot check it.
- RunLaws.ExitContract: that a Restart shows Idle while the next run creates its upload is kept as the code does it; the reset leaves an earlier `error` field alone, and nothing is claimed about it.
- `resume_entry`, `resume_persisted`, `scan_resumable` on the handles, `pause_item`, `resume_item`, `add_all`: compositions of modelled parts.
- ETA and the other counts of the queue state: one-line queries.
- Item id overflow, byte counters beyond 64 bits and mutex poisoning.
- Other tabs writing to the store in the middle of one `scan` or one sweep, and removals that the browser refuses. Between the steps of a run they may do anything.
- World.World.SuspendedIsSafeguarded: needs `alone`. The queue lets two items with one match key run at the same time (queue.rs:261-266); the first to finish removes the row of the other, and nothing is promised for the row then.
- The text of stored JSON, and JSON numbers that are not finite: JSON cannot carry them, so the checks for a non-finite age have nothing to catch.
- OptionsCache.InvalidateLetsFlightsLand: nothing forces a refetch, because a fetch in flight may still store its answer; that is the source's behaviour.
- `execute_post`, the `on_*` builders and the webhook's fail-open policy, signing, delivery ids and JSON decoding of decisions.
- Webhook.SendWithRetry: jitter is any draw below 1 without rounding to nanoseconds, and a Retry-After header is already a 64-bit number of seconds or absent.
- Engine.RunCommandLoop: its progress clause covers one Start without further commands; with more commands the outcome depends on them.
- QueueRace.NoItemIsMisjudged: its servers obey the same honesty as `World`, stated on the updates a worker shows rather than on replies.
- Match keys of inputs that differ in more than one byte or in length: a hash of 128 bits cannot be injective.
- `tus-axum`, `tus-cli`, `tus-server`, the demo, and the config, error, expiration and checksum types of `tus-protocol`: routing, tables and one-branch checks.
