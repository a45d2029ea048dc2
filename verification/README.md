# Rubick Forge, verified in Dafny

A model of the protocols inside the Forge daemon: an append-only event log with
a lossy bus in front of it and a resuming reader behind it; a hub that places
queued work on other Macs under an idempotency key; sessions that are started,
polled, stopped and reconciled at the same time; the tracker that turns screens
into statuses; the phone bot's buttons; the poller that follows pull requests
through an ETag cache; and the text scanners and the bounded hook queue beside
them. What each promises is proved over every run, not over examples.

`dafny verify dfyconfig.toml` checks all of it.

## How it is laid out

One module per component. Where the source changes state in place (stores, the
bus, the tracker, the dispatcher, the bot, the hook permits, the scanning loops)
there is a class or a method with a loop, proved equal to a specification
function on values. Where several requests interleave, a step system over those
values has one action per step that the source makes atomic: a body passed to
`Store::with`, a publish, a critical section, or the code between two awaits.
Theorems are about every legal run of it.

| modules | what they are |
|---|---|
| `Options`, `Decimal`, `Events` | shared values: optional results, numbers as text, what is announced |
| `EventLog`, `EventBus`, `Relay`, `RelayLoop`, `RemoteReader` | history, the bounded bus, one event connection as a step system and as its loops, and the reader that resumes |
| `Placement`, `QueueStore`, `TaskStore`, `Dispatch`, `DispatchLoop`, `DispatchSteps` | choosing a machine, the queue's conditional updates, creation under a key, the whole hub as a step system, the pass as it is written, and that the two agree |
| `Tracker`, `Poller` | the debounced, ageing belief and the poll that may be skipped |
| `SessionStore`, `Sessions`, `Vanishing`, `SessionManager`, `SessionSteps`, `SessionPoll` | session rows, every interleaving of what acts on them, when a reconciliation is wrong, the operations as written, that the two agree, and what one session's events say |
| `Callbacks`, `Bot`, `BotStreams` | button payloads, which tap may answer which question, and what the bot is fed |
| `GitHubApi`, `GitHubPoll`, `GitHubWatch`, `GitHubTruth`, `GitHubNews`, `GitHubLimits` | roll-up and cache, one poll, the poller and its cache among the routes and GitHub itself, what keeps stored results true and current, what keeps announced ones from repeating, and that each condition is needed |
| `Template`, `Strip`, `Format`, `Slug`, `Hooks` | argv templates, escape sequences, bot messages, names, hook admission |

## Where the code is weaker than its comments

The model follows the code; each result named here is proved of it.

- The idempotency key deduplicates per machine: an untargeted row can end up
  with tasks on two Macs whenever there is a second one (`Dispatch.DoublesIffUntargeted`),
  and any row that can be placed may be cancelled with its start in flight, which
  leaves the task (`Dispatch.CancelLeavesTheTask`).
- A start that overlaps a `reconcile`, before or after its close, may end as
  vanished and go on running; nothing else brings that about
  (`Vanishing.StartMayBeClosedAsVanished`, `Vanishing.VanishesIffOverlapping`).
- "Only one of them announces it" is per row; row ids are reused after a
  deletion, so per id it holds exactly without deletions (`Sessions.StopsTwiceIffDeleting`),
  and with them a stop for every row inserted is all there can be
  (`Sessions.StopsNeverOutrunStarts`).
- Skipping an unchanged pane is not always "the belief holds": it never ages an
  unrecognised screen, and is invisible exactly when none is found twice running
  (`Poller.SkippingRefinesReading`, `Poller.SkippingNeverAges`).
- An unchanged answer about a commit the row had left keeps the wrong result
  (`GitHubPoll.RecurringHead`, `GitHubLimits.HeadGoesBack`), and so may a commit
  two tasks share, or a write that fails (`GitHubLimits.MisledIff`). An unchanged
  pull request listing ends a poll before its checks are read (crates/forge-daemon/src/github/poll.rs:197-203), so
  a result that changes under it goes unnoticed (`GitHubTruth.ResultGoesUnnoticed`);
  that is the only way on an honest run (`GitHubTruth.PollIsCurrentIff`).
- A check state that is read but not stored is announced again by the next poll
  that reads it (`GitHubNews.RepeatsIffLossy`).
- A failed create leaves nothing behind except exactly when undoing its row fails,
  or announcing the finished task (`TaskStore.Create`).
- `escape_text` does not escape backslashes, so prose with one does not read
  back (`Format.ProseRoundTripIff`).
- Any machine index from 10 on can overflow Telegram's 64 bytes
  (`Callbacks.PayloadsFitIff`).

## Assumptions

- SQLite gives an appended row an id beyond all others in the table, refuses a
  second live session with one tmux name and a second task with one key
  (crates/forge-daemon/src/store/migrations/0001_initial.sql and 0004_idempotency.sql).
- GitHub and the machines of a fleet answer anything the protocol allows. What
  honest tags add is said by `GitHubApi.UnchangedMeansCurrent` and, over whole
  runs, by `GitHubTruth.ReadingIsCurrent`; what follows when no task returns to a
  commit or shares one, and no write is lost, by `GitHubTruth.StoredIsLastServed`.
  Each task has its own listing, as its branch is its own.
- No client but this hub uses idempotency keys of the form `forge-queue-<id>`: a
  second hub, or this one with a new database, would, and would be answered with
  the tasks of the first (`TaskStore.Create` answers a known key with what is there).
- A crash abandons a start: a tmux session that appears after it was not taken up
  by anybody (the action `Outside`).
- A backslash in MarkdownV2 makes the next character plain, and a bare reserved
  character spoils the message.

## Model

| member | source | states |
|---|---|---|
| `EventLog.EventStore.Append` | crates/forge-daemon/src/store/events.rs:98-120 | the appended row's id is beyond every earlier one, so history stays in rising id order |
| `EventLog.EventStore.Events` | crates/forge-daemon/src/store/events.rs:38-84 | the loop over the table, read from either end, returns exactly one end of all matching rows, clamped to 1..500, oldest first, with the last id as the cursor |
| `EventLog.EventStore.Oldest` | crates/forge-daemon/src/store/events.rs:49-64 | the ascending scan with a limit is the first rows of everything that matches |
| `EventLog.EventStore.Newest` | crates/forge-daemon/src/store/events.rs:55-58 | the descending scan, reversed, is the last rows of everything that matches, in rising order |
| `EventLog.PageTells` | crates/forge-daemon/src/store/events.rs:38-84 | a page is rising rows of history beyond the cursor and, with a task, carrying that task in their own field; at most 100 of them, or as many as asked between 1 and 500; what is left out lies beyond its end, or before its beginning if the newest were asked for, and then it is full |
| `EventLog.MatchingIsAskedFor` | crates/forge-daemon/src/store/events.rs:42-47 | what is selected is exactly the rows beyond the cursor whose kind carries the task asked for |
| `Events.ColumnsAre` | crates/forge-core/src/event.rs:290-329 | the task and session columns are, for every kind of event, the ids it carries, and nothing for kinds that carry none |
| `EventLog.Resumes` | crates/forge-daemon/src/store/events.rs:60-63 | asking beyond the last id of any non-empty prefix of the matching rows yields exactly the rest of them |
| `EventLog.MatchingAfterRow` | crates/forge-daemon/src/store/events.rs:42-47 | with no filter, what lies beyond a row's own id is exactly the rows after it |
| `EventLog.MatchingNarrow` | crates/forge-daemon/src/store/events.rs:42-47 | selecting beyond a later id selects again from what an earlier id selected |
| `EventBus.Bus.Publish` | crates/forge-daemon/src/bus.rs:33-40 | persisting and broadcasting are one step: the record is the new last row of history and the newest in the bounded buffer, which drops its oldest |
| `EventBus.ReceivesInOrder` | crates/forge-daemon/src/bus.rs:43-45 | a receiver is given the very row of history it is up to, is empty exactly when it has everything, and lags exactly when more than 1024 are unread |
| `Relay.NoGapNoDuplicate` | crates/forge-daemon/src/http/events.rs:65-132 | on every interleaving of publishes with subscribe, page, send and live steps, what was sent is in strictly rising id order, nothing but records beyond the cursor that carry the task asked for, and none of those is left out before the last sent; even when the buffer overflows |
| `Relay.CaughtUpIsComplete` | crates/forge-daemon/src/http/events.rs:65-132 | a live connection with nothing left to receive has sent exactly the records it was opened for |
| `Relay.ClosesOnlyIf` | crates/forge-daemon/src/http/events.rs:78-131 | a connection is closed only when its own read or send fails, the client leaves, or the buffer has lapped it |
| `Relay.PublishKeeps` | crates/forge-daemon/src/bus.rs:33-40 | a publish at any point of a connection keeps the invariant tying its cursor, page and position to history |
| `Relay.MoveKeeps` | crates/forge-daemon/src/http/events.rs:78-131 | every move of a connection keeps that invariant |
| `Relay.LagCloses` | crates/forge-daemon/src/http/events.rs:120-128 | a receiver more than the capacity behind is closed with nothing later sent |
| `Relay.LivePrefix` | crates/forge-daemon/src/http/events.rs:108-118 | while live, what was sent is a prefix of what is expected, and all of it once everything is received |
| `RelayLoop.Backfill` | crates/forge-daemon/src/http/events.rs:70-97 | the paging loop, tick by tick of any schedule of publishes and failures, is where the step system is, with its cursor and last sent id, and stops only at an empty page, a failure or the end of the schedule |
| `RelayLoop.SendPageOut` | crates/forge-daemon/src/http/events.rs:89-95 | one page goes out record by record, and the cursor moves only once all of it has gone |
| `RelayLoop.Follow` | crates/forge-daemon/src/http/events.rs:99-131 | the live loop likewise: it skips by id and by task as the step system does, and stops only at a hang-up, a failed send or a lag |
| `RelayLoop.RelayEvents` | crates/forge-daemon/src/http/events.rs:65-132 | the whole of a connection, loops and all, has on any schedule sent exactly what the step system sends on it, which has no gap and no duplicate |
| `RelayLoop.QuietIsComplete` | crates/forge-daemon/src/http/events.rs:65-132 | on any schedule that ends with enough ticks on which nothing is published and nothing fails, exactly the records asked for have been sent |
| `RelayLoop.QuietCatchesUp` | crates/forge-daemon/src/http/events.rs:65-132 | a connection not lapped is live and caught up after as many such ticks as it has pages, records and broadcasts before it |
| `RemoteReader.RemoteMachine.StreamOnce` | crates/forge-daemon/src/fleet.rs:613-647 | one connection hands on exactly the readable records up to the first broken frame and leaves the cursor at the last of them |
| `RemoteReader.ReadableIs` | crates/forge-daemon/src/fleet.rs:631-644 | a connection yields one record for each frame that can be read, in order, nothing for one that cannot wherever it stands, and nothing after one that breaks |
| `RemoteReader.ExactlyOnceInOrder` | crates/forge-daemon/src/fleet.rs:557-574 | over any drops, lags, reconnects, restarts and unreadable frames, what is handed on is part of that machine's history, each event at most once and in order, and from its first record to its last nothing is missing but what arrived unreadable |
| `RemoteReader.ContiguousIfReadable` | crates/forge-daemon/src/fleet.rs:613-647 | if every frame can be read, it is one contiguous piece of that history |
| `RemoteReader.CatchesUp` | crates/forge-daemon/src/fleet.rs:557-647 | reconnected and caught up, the reader has everything from its first record to the end of history but for what was unreadable, and all of it if nothing was |
| `Placement.UntargetedIsFirstLeastBusy` | crates/forge-daemon/src/hub/placement.rs:49-75 | an untargeted row goes to the first least busy of exactly the machines recorded as considered, and waits exactly when there are none |
| `Placement.EligibleExactly` | crates/forge-daemon/src/hub/placement.rs:56-61 | those are exactly the reachable machines that have the project |
| `Placement.LeastBusyIsFirst` | crates/forge-daemon/src/hub/placement.rs:63-74 | the choice is a least, and everything listed before it does strictly more |
| `Placement.SendsIntoTheFleet` | crates/forge-daemon/src/hub/placement.rs:49-112 | whatever is placed names a machine of the fleet by its own index and name, with that machine's own id for the project |
| `Placement.NamedIsFixed` | crates/forge-daemon/src/hub/placement.rs:77-112 | a named target always resolves to the same machine, whatever the fleet is doing |
| `Placement.NamedIsHonouredOrRefused` | crates/forge-daemon/src/hub/placement.rs:77-112 | a named row is sent exactly if the first machine of that name answers and has the project, to that machine; otherwise it waits and says which of the three is missing |
| `Placement.ChoosesTheFirstLeastBusy` | crates/forge-daemon/src/hub/placement.rs:56-74 | in the fleet's own order, nothing that could take an untargeted row does less than the machine chosen, nor as little before it |
| `Placement.WaitingSaysWhy` | crates/forge-daemon/src/hub/placement.rs:115-134 | a row nobody can take says so, and who did not answer |
| `Placement.SameLetters` | crates/forge-daemon/src/hub/placement.rs:78-82 | two names are the same exactly if they differ only in the case of ASCII letters |
| `Placement.ProjectIdIsFirst` | crates/forge-daemon/src/hub/placement.rs:141-146 | a machine's id for a project is that of its first project of the name |
| `Placement.HomeIsFirst` | crates/forge-daemon/src/hub/placement.rs:78-82 | which is the first whose name matches, ignoring ASCII case |
| `QueueStore.QueueStore.MarkDispatched` | crates/forge-daemon/src/store/queue.rs:132-155 | only a queued row is claimed; the claim records machine, id, considered list and clears the reason, and says whether it won |
| `QueueStore.QueueStore.SetQueueReason` | crates/forge-daemon/src/store/queue.rs:161-181 | only a queued row is given a reason and a considered list |
| `QueueStore.QueueStore.CancelQueued` | crates/forge-daemon/src/store/queue.rs:187-199 | only a queued row is cancelled, and the caller is told whether it was |
| `QueueStore.QueueStore.PendingQueue` | crates/forge-daemon/src/store/queue.rs:111-130 | exactly the queued rows, oldest first |
| `QueueStore.UpdatesSettle` | crates/forge-daemon/src/store/queue.rs:132-199 | no update touches a row that has left the queue, or moves one back |
| `TaskStore.TaskStore.CreateTask` | crates/forge-daemon/src/store/tasks.rs:84-127 | an insert under a key already there is refused with nothing changed; otherwise a fresh id gets the key and keys stay unique |
| `TaskStore.TaskStore.TaskByKey` | crates/forge-daemon/src/store/tasks.rs:68-82 | a row with the key is found exactly when there is one |
| `TaskStore.Create` | crates/forge-daemon/src/http/tasks.rs:332-404 | with or without a key, while others create during both awaits: never two rows with a key, an existing one is answered untouched, and a refused request leaves nothing of its own behind except exactly when undoing its row fails or announcing a complete task does |
| `TaskStore.ProvisionOrRollBack` | crates/forge-daemon/src/http/tasks.rs:387-397 | a task keeps its row and gets its worktree, or loses both, as far as each can be undone, and other rows stay |
| `TaskStore.RollBack` | crates/forge-daemon/src/http/tasks.rs:500-520 | the worktree and the row are undone each by itself |
| `Dispatch.OncePerMachine` | crates/forge-daemon/src/hub/dispatch.rs:128-179 | through any crashes, lost replies and repeated passes, no machine holds two tasks with one row's key |
| `Dispatch.NamedTargetOnceInTheFleet` | crates/forge-daemon/src/hub/dispatch.rs:93-179 | a row with a named target has at most one task in the whole fleet, on that machine |
| `Dispatch.DispatchedIsReal` | crates/forge-daemon/src/hub/dispatch.rs:136-160 | what a row records as dispatched was created on that machine for it, as placement chose from an inventory, and each dispatch announced is the recorded one, once per row |
| `Dispatch.DispatchedIsAnnounced` | crates/forge-daemon/src/hub/dispatch.rs:136-160 | unless the hub crashes in between, every row recorded as dispatched is announced, or its own claim is about to be |
| `Dispatch.LeavesQueueOnce` | crates/forge-daemon/src/store/queue.rs:132-199 | a row leaves the queue at most once and every field of it is frozen afterwards |
| `Dispatch.DoublesIffUntargeted` | crates/forge-daemon/src/hub/dispatch.rs:128-134 | some run leaves tasks for one row on two machines exactly when the row names no target and the fleet has a second machine |
| `Dispatch.CancelLeavesTheTask` | crates/forge-daemon/src/hub/dispatch.rs:152-160 | on some run a row is cancelled while its start is in flight, the task is made, and the claim that comes back loses and announces nothing, exactly when the row could be placed at all, targeted or not |
| `Dispatch.QueueKeyInjective` | crates/forge-daemon/src/hub/dispatch.rs:128-134 | two rows never share an idempotency key |
| `Dispatch.InvKept` | crates/forge-daemon/src/hub/dispatch.rs:93-179 | every step of hub, machine or other client keeps all of the above |
| `DispatchLoop.Dispatcher.DispatchOne` | crates/forge-daemon/src/hub/dispatch.rs:93-179 | one row, with rows withdrawn while the request is out: started, it is recorded with machine, task and considered list and announced once, unless withdrawn, when nothing is; refused, it says so, and so does the log; not placed, it says why; no other row changes but those withdrawn |
| `DispatchLoop.Dispatcher.Pass` | crates/forge-daemon/src/hub/dispatch.rs:76-91 | a pass, with rows withdrawn while the inventory is taken and while each request is out: the rows it takes to dispatched are exactly those it announces, once each, and every row nobody withdraws ends as its placement and its machine's answer have it |
| `DispatchLoop.OutcomeSettles` | crates/forge-daemon/src/hub/dispatch.rs:93-179 | one row's dispatch settles the queue, and an announced dispatch is the claim that won |
| `DispatchSteps.StartInSteps` | crates/forge-daemon/src/hub/dispatch.rs:93-160 | undisturbed, the steps of an attempt that is answered leave queue and log as the pass as written does |
| `DispatchSteps.RefusalInSteps` | crates/forge-daemon/src/hub/dispatch.rs:160-179 | and so do those of one that is refused |
| `DispatchSteps.WaitingInSteps` | crates/forge-daemon/src/hub/dispatch.rs:93-115 | and of a row that waits |
| `DispatchSteps.FailingInSteps` | crates/forge-daemon/src/http/tasks.rs:384-391 | a task that cannot be provisioned goes again, unless undoing it fails, and then it is what a retry is answered with |
| `DispatchSteps.RetryingInSteps` | crates/forge-daemon/src/http/tasks.rs:349-353 | a retry is answered with the task already made under the key, and makes none |
| `DispatchSteps.UndoingInSteps` | crates/forge-daemon/src/http/tasks.rs:440-457 | a task whose agent will not start is taken back, if it can be |
| `Tracker.Tracker.Poll` | crates/forge-daemon/src/adapters/status.rs:98-124 | the mutating tracker is the pure one, on a dead process, a recognised screen and an unrecognised one |
| `Tracker.Tracker.Consider` | crates/forge-daemon/src/adapters/status.rs:134-155 | a question has to be seen twice running before it is believed; anything else is believed at once |
| `Tracker.Tracker.NothingRecognised` | crates/forge-daemon/src/adapters/status.rs:158-168 | an unrecognised screen ages the belief in a 32-bit counter and decays it beyond the cap |
| `Tracker.Tracker.Settle` | crates/forge-daemon/src/adapters/status.rs:170-181 | settling reports the status it came from only if it changed, and a question only on the way into one |
| `Tracker.PendingMeans` | crates/forge-daemon/src/adapters/status.rs:134-155 | over any trace a reading is pending exactly when the last poll first saw a question not believed |
| `Tracker.WaitingFires` | crates/forge-daemon/src/adapters/status.rs:134-181 | a question is announced at a poll exactly when it is the second consecutive reading of one and the belief before was another |
| `Tracker.NoRestacking` | crates/forge-daemon/src/adapters/status.rs:134-181 | two such announcements always have a change out of waiting between them |
| `Tracker.BeliefIsWarranted` | crates/forge-daemon/src/adapters/status.rs:98-181 | the belief equals a closed form of the history with no counters: the last confirmed status, unless more than 15 unrecognised screens in a row have come since; its age is that run |
| `Tracker.DecaysOnTheSixteenth` | crates/forge-daemon/src/adapters/status.rs:158-168 | a belief other than idle decays on exactly the sixteenth unrecognised screen in a row |
| `Tracker.DeathDecides` | crates/forge-daemon/src/adapters/status.rs:104-113 | after any trace a dead process ends the session, as an error exactly if it left an exit code other than zero and as stopped otherwise, a change exactly from another belief; a living one never ends it |
| `Tracker.DeathChangesTheWarranted` | crates/forge-daemon/src/adapters/status.rs:104-113 | and that belief is the warranted one |
| `Tracker.IdleStaysQuiet` | crates/forge-daemon/src/adapters/status.rs:158-168 | idle never announces itself again, even once its counter wraps |
| `Poller.Examine` | crates/forge-daemon/src/sessions.rs:397-439 | a pane whose activity marker has not moved is not captured; otherwise the marker is remembered and the screen polled |
| `Poller.SkipIsReadIff` | crates/forge-daemon/src/sessions.rs:422-429 | for a belief that has not aged, skipping one poll equals reading it exactly when the screen confirms the belief |
| `Poller.SkippingRefinesReading` | crates/forge-daemon/src/sessions.rs:397-439 | over any run whose markers tell screens apart, the skipping poller and the one that always reads agree on every belief and outcome exactly when no unrecognised screen is found twice running behind one marker |
| `Poller.SkipsOnlyRecognisedIff` | crates/forge-daemon/src/sessions.rs:422-429 | that is exactly when no poll the skipping poller leaves out would have found an unrecognised screen |
| `Poller.AgreeWhenAllRecognised` | crates/forge-daemon/src/sessions.rs:397-439 | in particular they agree whenever every screen is recognised |
| `Poller.SkippingNeverAges` | crates/forge-daemon/src/adapters/status.rs:128-130 | a motionless unrecognised screen is never aged by the skipping poller |
| `Poller.ReadingAges` | crates/forge-daemon/src/adapters/status.rs:158-168 | while the one that always reads has it idle on the sixteenth |
| `SessionStore.SessionStore.StartSession` | crates/forge-daemon/src/store/sessions.rs:25-60 | a live row with the same tmux name refuses the insert with nothing changed; otherwise a new idle row appears |
| `SessionStore.SessionStore.CloseSession` | crates/forge-daemon/src/store/sessions.rs:72-83 | only a live row is closed, and exactly the caller that closed it is told so |
| `SessionStore.SessionStore.SetSessionStatus` | crates/forge-daemon/src/store/sessions.rs:96-105 | an ended row's status is not reopened |
| `SessionStore.SessionStore.LiveSession` | crates/forge-daemon/src/store/sessions.rs:121-134 | a task's live session is found exactly when it has one, and is the only one |
| `SessionStore.SessionStore.LiveSessions` | crates/forge-daemon/src/store/sessions.rs:136-153 | exactly the live rows, in id order |
| `SessionStore.RefusedIffRunning` | crates/forge-daemon/src/store/sessions.rs:25-60 | a start is refused exactly when that task has a live session, because tmux names are injective in task ids |
| `SessionStore.UpdatesKeep` | crates/forge-daemon/src/store/sessions.rs:72-105 | no update changes an ended row's status or end time |
| `Sessions.OneLiveSessionPerTask` | crates/forge-daemon/src/sessions.rs:198-240 | under every interleaving of starts, stops, polls, reconciliations, crashes and deletions, a task has at most one live session |
| `Sessions.EndedIsFinal` | crates/forge-daemon/src/store/sessions.rs:72-105 | an ended row's status and end time never change again under any interleaving, whatever else is deleted, unless its own task is |
| `Sessions.StopsNeverOutrunStarts` | crates/forge-daemon/src/sessions.rs:589-613 | on every run, deletions included, a session id is announced stopped no more often than a row was inserted under it, a live one still having its own stop to come |
| `Sessions.StoppedAtMostOnce` | crates/forge-daemon/src/sessions.rs:589-613 | without deletions, a session's stop is announced at most once, only after its row ended, with the reason of the one close that won |
| `Sessions.EveryWinIsTold` | crates/forge-daemon/src/sessions.rs:589-613 | unless the daemon crashes in between, every close that won is announced, or about to be |
| `Sessions.StopsTwiceIffDeleting` | crates/forge-daemon/src/sessions.rs:589-613 | the only way one session id is announced stopped twice is a deletion that frees the id for reuse: some run does so exactly when deletions are allowed |
| `Vanishing.RunningOnlyIfStartedDuring` | crates/forge-daemon/src/sessions.rs:297-325 | on any run, with deletions, crashes and tmux sessions coming and going: if a row is closed as vanished and the tmux session its own start made is running later, never having stopped, then tmux took it up after that reconciliation had listed it, whether before the close or after |
| `Vanishing.RunningIffStarted` | crates/forge-daemon/src/sessions.rs:217-228 | if no tmux session dies, a row closed as vanished has its session running in the end exactly when its start succeeds at all, and it then succeeds only after the reconciliation listed tmux |
| `Vanishing.VanishesIffOverlapping` | crates/forge-daemon/src/sessions.rs:198-325 | some run closes a session as vanished that goes on running exactly if starts, from row to tmux's answer, may overlap reconciliations, from listing to last close: stops, polls, crashes, deletions and dying sessions alone never do it |
| `Vanishing.StartMayBeClosedAsVanished` | crates/forge-daemon/src/sessions.rs:217-228 | both ways it happens, for any task: the session is taken up between a reconciliation's two reads, or only once its row has been closed, and is left running with its row ended for good |
| `Vanishing.ApartIsPossible` | crates/forge-daemon/src/sessions.rs:581-586 | a reconciliation ends: on some run one closes a row as vanished and its task is started again later, the two never overlapping |
| `SessionManager.SessionManager.CloseRow` | crates/forge-daemon/src/sessions.rs:589-613 | only the winning close announces, and the tracker is forgotten either way |
| `SessionManager.SessionManager.ReadSession` | crates/forge-daemon/src/sessions.rs:375-495 | one reading is the specification's, whose every event and row is said by the next three rows |
| `SessionManager.EndingSays` | crates/forge-daemon/src/sessions.rs:455-537 | a session whose process has gone ends, if live, with the status its exit code means, and is said, in order, to have stopped, to have changed if it did, and to have failed or, if it was neither idle nor stopped, finished |
| `SessionManager.EndsEitherWay` | crates/forge-daemon/src/sessions.rs:514-535 | an error is told exactly on an exit code other than zero, a finish exactly on any other ending of a session that was doing something, and nothing twice |
| `SessionManager.LivingSays` | crates/forge-daemon/src/sessions.rs:455-495 | a living session newly believed something else is written so and told so, with the pane's tail for a question or an error, and otherwise nothing is said |
| `SessionSteps.ReadingInSteps` | crates/forge-daemon/src/sessions.rs:375-537 | undisturbed, the steps of a reading leave rows and log as the reading as written does |
| `SessionSteps.ComparingInSteps` | crates/forge-daemon/src/sessions.rs:308-320 | and those of comparing a row as comparing it as written does |
| `SessionSteps.StopInSteps` | crates/forge-daemon/src/sessions.rs:246-275 | asked to stop, a session ends as stopped, at its user's request, and is said to once |
| `SessionSteps.StartInSteps` | crates/forge-daemon/src/sessions.rs:198-240 | a start tmux takes up is announced with its pid recorded; one it refuses is closed as an error and nothing is said of it |
| `SessionManager.SessionManager.Reconcile` | crates/forge-daemon/src/sessions.rs:297-337 | whatever others start, stop and read between the listing, the reading and each row: every row live at first that tmux did not list has ended, and exactly the rows that ended are announced stopped, once each, as vanished only if not listed; with nobody else about, rows listed are kept, others end as vanished, and the three counts are what they say |
| `SessionManager.PassReconciles` | crates/forge-daemon/src/sessions.rs:308-320 | comparing every live row once, in order, reconciles the whole table |
| `SessionPoll.ChangesFormAChain` | crates/forge-daemon/src/sessions.rs:455-537 | on every run, with restarts that discard the trackers, a session's changes form a chain from idle in which each starts from the last told status, and the row says what was last told unless it was stopped or vanished |
| `SessionPoll.QuestionsFollowChanges` | crates/forge-daemon/src/sessions.rs:478-484 | questions are announced one for one, each right after a change into waiting |
| `SessionPoll.NothingIsToldTwice` | crates/forge-daemon/src/sessions.rs:455-495 | no status is told twice without another told between |
| `SessionPoll.StepKeeps` | crates/forge-daemon/src/sessions.rs:441-537 | every start, reading, comparison, stop and restart keeps the belief, the row and the story in step |
| `Callbacks.DecodeEncode` | crates/forge-daemon/src/telegram/callbacks.rs:94-127 | every representable prompt and answer comes back out of its payload, decimal printing and parsing included |
| `Callbacks.DecodedIsStable` | crates/forge-daemon/src/telegram/callbacks.rs:105-127 | whatever decodes is representable, and encoding it again decodes to the same |
| `Callbacks.SignedPayloadReadsTheSame` | crates/forge-daemon/src/telegram/callbacks.rs:82-88 | reading is more forgiving than writing: a plus sign before a machine's index is another payload for the same prompt |
| `Callbacks.PayloadsFitIff` | crates/forge-daemon/src/telegram/callbacks.rs:91-103 | all payloads with non-negative 64-bit ids fit 64 bytes exactly when the machine is local or its index has one digit |
| `Callbacks.FieldsJoined` | crates/forge-daemon/src/telegram/callbacks.rs:106-116 | splitting at colons undoes joining with them |
| `Callbacks.TokenRoundTrip` | crates/forge-daemon/src/telegram/callbacks.rs:75-88 | a machine's token reads back as that machine |
| `Callbacks.FleetIndexRoundTrip` | crates/forge-daemon/src/telegram/callbacks.rs:56-73 | configuration and fleet positions are inverse, this Mac first |
| `Callbacks.FleetStartsHere` | crates/forge-daemon/src/telegram/callbacks.rs:56-73 | this Mac is fleet position 0 and the configured machine at n is n + 1 |
| `Callbacks.PayloadIs` | crates/forge-daemon/src/telegram/callbacks.rs:91-103 | a payload is the answer's letter, the machine's token and the three ids, between colons |
| `Callbacks.FiveFieldsRead` | crates/forge-daemon/src/telegram/callbacks.rs:105-127 | fields between colons decode exactly if they are five: a known letter, a machine's token, and three 64-bit ids |
| `Decimal.ParseShow` | crates/forge-daemon/src/telegram/callbacks.rs:109-111 | parsing undoes printing for every number in the type's range |
| `Decimal.DigitCount` | crates/forge-daemon/src/telegram/callbacks.rs:94-103 | a number takes at most k digits exactly when it is below ten to the k |
| `Bot.Bot.PushFrom` | crates/forge-daemon/src/telegram/bot.rs:552-671 | a question becomes outstanding for its session, the hub's own events change nothing, anything else about a session clears it; buttons go out only under a permission prompt |
| `Bot.Bot.HandleTap` | crates/forge-daemon/src/telegram/bot.rs:441-468 | nothing is decided for a sender not allowlisted; deciding and claiming are one step |
| `Bot.AcceptedIff` | crates/forge-daemon/src/telegram/bot.rs:441-468 | on every run a tap is let through exactly when an allowlisted sender's payload names the question that was the last thing heard about that machine's session, and none has been let through since |
| `Bot.VerdictIff` | crates/forge-daemon/src/telegram/callbacks.rs:171-181 | on every run a tap is told it answered, that there is another question, or that there is none, exactly if the question tapped, another, or none sits unanswered as the last thing heard |
| `Bot.ButtonsSay` | crates/forge-daemon/src/telegram/bot.rs:575-597 | a question's two buttons decode to yes and to no, to that question |
| `Bot.AskedAgainBetween` | crates/forge-daemon/src/telegram/bot.rs:455-464 | two taps let through to one session have the second one's question asked between them |
| `Bot.AnsweredAtMostOnce` | crates/forge-daemon/src/telegram/bot.rs:455-464 | each question is answered at most once, however taps race, when no event is heard twice |
| `Bot.MovedOn` | crates/forge-daemon/src/telegram/bot.rs:664-682 | once anything more is heard about a session, no tap answers its earlier question, when no event is heard twice |
| `BotStreams.StreamsAreHeardOnce` | crates/forge-daemon/src/telegram/bot.rs:499-520 | fed by this Mac's bus and a resuming reader of every other, however they drop, resume and lag, the bot hears no machine's event twice |
| `BotStreams.OneAnswerEach` | crates/forge-daemon/src/telegram/bot.rs:455-464 | so on any such run each question is answered at most once, however taps race |
| `BotStreams.NoneOnceMovedOn` | crates/forge-daemon/src/telegram/bot.rs:664-682 | and no tap answers a question once more is heard about its session |
| `BotStreams.LocalInOrder` | crates/forge-daemon/src/fleet.rs:339-350 | this Mac's own events arrive as one piece of its history, until its receiver lags |
| `Bot.ButtonsAnswer` | crates/forge-daemon/src/telegram/bot.rs:575-597 | a question's own buttons answer it, the way they say, for as long as it is asked |
| `Bot.QuietStep` | crates/forge-daemon/src/telegram/callbacks.rs:171-181 | one step leaves a session's question alone exactly when it is neither about the session nor let through to it |
| `GitHubApi.RollUp` | crates/forge-daemon/src/github/api.rs:126-150 | the loop with its early return is: failed if any run failed, else running if any is unfinished, else passed, and nothing for no runs |
| `GitHubApi.RollUpMeans` | crates/forge-daemon/src/github/api.rs:126-150 | in GitHub's words: failed exactly if a run concluded failure, timed_out or startup_failure; passed exactly if there are runs, none so, each concluded or completed; running exactly if none so and one is neither; nothing exactly for no runs |
| `GitHubApi.OrderDoesNotMatter` | crates/forge-daemon/src/github/api.rs:126-150 | the roll-up depends only on the multiset of runs |
| `GitHubApi.TheWorseDecides` | crates/forge-daemon/src/github/api.rs:120-125 | two lists together are as bad as the worse of the two |
| `GitHubApi.Client.Get` | crates/forge-daemon/src/github/api.rs:365-406 | the tag is remembered from every successful answer, before its body is read; an unchanged or failed answer remembers nothing |
| `GitHubApi.AskedIsGot` | crates/forge-daemon/src/github/api.rs:365-406 | the client as written holds, after any answer, the tag the watched one holds |
| `GitHubApi.UnchangedMeansCurrent` | crates/forge-daemon/src/github/api.rs:365-406 | with tagged answers and tags that tell bodies apart, right after any request the last body received is the server's current one |
| `GitHubApi.UntaggedAnswerGoesStale` | crates/forge-daemon/src/github/api.rs:389-400 | one answer without a tag breaks that: the older tag is kept and the older body's return goes unnoticed |
| `GitHubPoll.LinkStore.SetTaskPull` | crates/forge-daemon/src/store/github.rs:97-127 | an upsert that keeps the issue number and the checks |
| `GitHubPoll.LinkStore.TasksWithOpenPulls` | crates/forge-daemon/src/store/github.rs:65-78 | exactly the open rows, in task order |
| `GitHubPoll.PollTask` | crates/forge-daemon/src/github/poll.rs:188-238 | one poll leaves the row and announces the event exactly as the answers and the row before determine |
| `GitHubPoll.PollSaysWhatChanged` | crates/forge-daemon/src/github/poll.rs:51-115 | what a poll announces is read off the row before and the row after: an ending reached, else a new pass or failure, else nothing; no other row and no issue number is touched |
| `GitHubPoll.PollIsTruthfulIff` | crates/forge-daemon/src/github/poll.rs:205-211 | whatever had been served before, a poll leaves the row saying what was last served for its head exactly when an unchanged answer is about the head the row already had |
| `GitHubPoll.RecurringHead` | crates/forge-daemon/src/github/poll.rs:205-211 | a head that goes back to an earlier commit and is answered as unchanged leaves the other commit's result, unless the two roll up the same |
| `GitHubWatch.EndingsNeverOutrunOpenings` | crates/forge-daemon/src/github/poll.rs:51-71 | on every run, whatever fails or races, merges and closings announced for a task never exceed the pull requests opened for it, one still open counted as not yet announced |
| `GitHubWatch.StepPays` | crates/forge-daemon/src/github/poll.rs:188-238 | every step of poller, routes and crashes keeps that account |
| `GitHubTruth.StoredIsLastServed` | crates/forge-daemon/src/github/poll.rs:188-238 | with no write lost, and no task coming back to a commit or sharing one: whenever a task is not being polled its stored state is the roll-up of the runs last served for its stored head, through any mix of fresh, unchanged, unreadable and failed answers |
| `GitHubLimits.MisledIff` | crates/forge-daemon/src/github/poll.rs:188-238 | each of those three conditions is needed: some run leaves a task, not being polled, with something else stored exactly if tasks may return to a commit, or share one, or writes may be lost |
| `GitHubLimits.HeadGoesBack` | crates/forge-daemon/src/github/poll.rs:205-211 | a run from the start, nothing deleted, lost or shared and every tag honest, on which a head goes to another commit and back and the row keeps the other commit's result |
| `GitHubTruth.StepKeepsSure` | crates/forge-daemon/src/github/poll.rs:188-238 | every such step keeps rows, listed snapshots and readings in flight true of what was served, and a tag remembered only for a commit its task still has |
| `GitHubTruth.ReadingIsCurrent` | crates/forge-daemon/src/github/poll.rs:205-211 | if moreover every answer is tagged and readable and tags tell bodies apart, what a poll makes of an answer, fresh or unchanged, is what GitHub's runs for that commit come to now |
| `GitHubTruth.WholePollIsAsWritten` | crates/forge-daemon/src/github/poll.rs:188-238 | undisturbed, the steps of a poll come to what the poll as written does to the row, and have the same to tell |
| `GitHubTruth.PollIsCurrentIff` | crates/forge-daemon/src/github/poll.rs:188-238 | after any whole poll on such a run, a row whose commit has been asked about says what GitHub has for it now exactly when the listing was answered with a pull request, or the runs still come to what they did when last asked for |
| `GitHubTruth.UnchangedListingMissesResult` | crates/forge-daemon/src/github/poll.rs:197-203 | while a listing is unchanged, a commit's runs may come to something else and the next whole poll leaves row and log as they were |
| `GitHubTruth.ResultGoesUnnoticed` | crates/forge-daemon/src/github/poll.rs:197-203 | and that happens on a run from the start with nothing lost and every tag honest |
| `GitHubNews.AnnouncedOnceEach` | crates/forge-daemon/src/github/poll.rs:51-71 | as long as what is read of a task's checks is stored, whatever is lost for others, no result of it is announced twice without a different one stored between |
| `GitHubNews.StepNews` | crates/forge-daemon/src/github/poll.rs:216-235 | a result is announced only when no equal announcement stands |
| `GitHubNews.RepeatsIffLossy` | crates/forge-daemon/src/github/poll.rs:216-235 | a result is ever announced twice running exactly if a check state read may fail to be stored |
| `Template.CheckPlaceholders` | crates/forge-daemon/src/adapters/manifest.rs:309-334 | the scan reports the first unknown placeholder of the template's one reading, or none |
| `Template.EachNameIsChecked` | crates/forge-daemon/src/adapters/manifest.rs:309-334 | the first name in braces is reported unless it is one of value, prompt, task_id and task_title, and then the next is |
| `Template.Fill` | crates/forge-daemon/src/adapters/manifest.rs:341-378 | the scan renders that same reading once, and takes its unknown-name arm exactly when the validator would refuse |
| `Template.KnownIsFillable` | crates/forge-daemon/src/adapters/manifest.rs:202-202 | the names validated are exactly the names filled |
| `Template.EachNameIsFilled` | crates/forge-daemon/src/adapters/manifest.rs:341-378 | each name in braces, wherever it stands, becomes its own value, and an unknown one stays as it was |
| `Template.ParseReads` | crates/forge-daemon/src/adapters/manifest.rs:309-334 | the reading loses nothing: no brace opens before a hole, none closes inside one, none in the tail does both |
| `Template.ReadingIsUnique` | crates/forge-daemon/src/adapters/manifest.rs:341-378 | and is the only way to read the template so |
| `Template.ValidTemplateIsFilledOut` | crates/forge-daemon/src/adapters/manifest.rs:341-378 | a validated template filled with brace-free values keeps no placeholder |
| `Strip.StripAnsi` | crates/forge-daemon/src/telegram/format.rs:19-56 | the nested loops equal a five-state automaton fed one character at a time |
| `Strip.StrippedIff` | crates/forge-daemon/src/telegram/format.rs:19-56 | stripping leaves a text alone exactly when it has no escape, and stripping twice is stripping once |
| `Strip.KeptIsWithin` | crates/forge-daemon/src/telegram/format.rs:19-56 | what is left is the text with characters left out, none added or moved |
| `Strip.NoEscapeKept` | crates/forge-daemon/src/telegram/format.rs:19-56 | no escape is ever left |
| `Strip.ControlSequenceVanishes` | crates/forge-daemon/src/telegram/format.rs:31-38 | a control sequence of section 5.4 of ECMA-48 goes without a trace between any two texts |
| `Strip.CommandVanishes` | crates/forge-daemon/src/telegram/format.rs:39-50 | and so does an operating system command ended by a bell or a string terminator |
| `Strip.OpenSequenceSwallows` | crates/forge-daemon/src/telegram/format.rs:32-38 | a sequence left open swallows what follows |
| `Strip.OpenCommandSwallows` | crates/forge-daemon/src/telegram/format.rs:39-50 | and so does a command left open, whatever escapes are in it |
| `Strip.PairVanishes` | crates/forge-daemon/src/telegram/format.rs:51-53 | any other escape takes the one character after it along |
| `Strip.SkipCommand` | crates/forge-daemon/src/telegram/format.rs:40-50 | the look-ahead for a backslash is the automaton's escape state |
| `Format.CodeRoundTrip` | crates/forge-daemon/src/telegram/format.rs:96-98 | escaped code reads back for every text, and nothing in it can end the block |
| `Format.ProseRoundTripIff` | crates/forge-daemon/src/telegram/format.rs:109-120 | escaped prose reads back exactly when it has no backslash of its own |
| `Format.EscapeText` | crates/forge-daemon/src/telegram/format.rs:109-120 | the loop puts a backslash before exactly the reserved characters |
| `Format.ReplyWithPane` | crates/forge-daemon/src/telegram/format.rs:141-152 | a reply is the prose alone, or the prose and a code block holding the pane's last lines |
| `Format.ReplyReadsBackIff` | crates/forge-daemon/src/telegram/format.rs:134-152 | any reply, read as Telegram reads it, shows the prose and pane it was made from exactly when the prose has no backslash of its own |
| `Format.RepliesFit` | crates/forge-daemon/src/telegram/format.rs:134-152 | any reply that reads at all, backslashes or not, is within 4096 characters once unescaped, fence included; a plain one is as sent |
| `Format.TailIsReadable` | crates/forge-daemon/src/telegram/format.rs:62-76 | a pane comes down to the last twenty, or all, of the stripped text's lines that show anything, each visible at both ends |
| `Format.OneLineShows` | crates/forge-daemon/src/telegram/format.rs:66-70 | what shows of a line is what is between its first and last character that is neither white space nor box drawing, or nothing |
| `Format.LinesJoin` | crates/forge-daemon/src/telegram/format.rs:66-70 | the lines put together again are the text |
| `Format.ReservedIsTelegrams` | crates/forge-daemon/src/telegram/format.rs:100-120 | the characters escaped are the eighteen MarkdownV2 reserves, and no others |
| `Format.CapKeepsAPrefix` | crates/forge-daemon/src/telegram/format.rs:83-90 | a text of at most 1500 characters is kept, a longer one is its first 1500 but for white space at their end, and a mark |
| `Slug.Slugify` | crates/forge-daemon/src/slug.rs:38-53 | the loop that stops early is the whole conversion cut at 48 and trimmed |
| `Slug.SlugsAreTheFixedPoints` | crates/forge-daemon/src/slug.rs:38-53 | a text is left alone exactly when it is lower-case letters, digits and single inner hyphens within 48; every slug is, so slugifying is idempotent |
| `Slug.WordIsKept` | crates/forge-daemon/src/slug.rs:38-53 | a word of a title is kept whole and in order, its capitals lowered |
| `Slug.GapIsOneHyphen` | crates/forge-daemon/src/slug.rs:38-53 | whatever is no word comes to one hyphen |
| `Slug.SlugIsTheFront` | crates/forge-daemon/src/slug.rs:38-53 | a slug is the first 48 characters of that, but for a hyphen at either end |
| `Slug.IdReadsBack` | crates/forge-daemon/src/slug.rs:11-18 | a task's id, sign and all, can be read off its slug |
| `Slug.TaskSlugsNeverCollide` | crates/forge-daemon/src/slug.rs:11-18 | equal slugs mean equal ids, whatever the titles and signs |
| `Slug.TaskSlugIsSafe` | crates/forge-daemon/src/slug.rs:11-18 | slug characters only, none a leading hyphen, and bounded |
| `Hooks.HookRunner.FireHook` | crates/forge-daemon/src/hooks.rs:148-170 | a hook is admitted exactly while a permit is left, and otherwise only counted as dropped |
| `Hooks.ConfiguredAs` | crates/forge-daemon/src/hooks.rs:53-60 | the permits are the configured numbers, zero read as one, and 4 and 64 where none are |
| `Hooks.PermitsBound` | crates/forge-daemon/src/hooks.rs:130-138 | in every reachable state no more run than the concurrency, no more are alive than concurrency and queue, and with none alive every permit is back |
| `Hooks.DroppedIff` | crates/forge-daemon/src/hooks.rs:160-170 | a hook is dropped exactly when as many are alive as there may be |
| `Hooks.QueueDrains` | crates/forge-daemon/src/hooks.rs:187-212 | from any state the hooks alive can all be finished, and then every permit is back |
| `Hooks.StepConserves` | crates/forge-daemon/src/hooks.rs:187-212 | every step conserves permits |

## Left out

- Timestamps, retry delays, grace periods and timeouts: they order nothing that the step systems do not already leave open.
- JSON and TOML encoding, event payload columns and the error for an unreadable row: library behaviour. `AgentWaiting` and its like carry their fields directly.
- tmux, git, keychain, HTTP and WebSocket internals: their answers are parameters of the methods, or nondeterministic actions.
- The desktop app, the CLI, launchd, terminal proxying, tokens, settings and migrations.
- Task statuses: `set_task_status` mirrors a session's status without a guard (crates/forge-daemon/src/sessions.rs:619-632), so a late poll may overwrite a newer one; nothing here is claimed of them.
- Where a worktree lies and what its branch is called: `TaskStore.Create` knows which tasks have one. In `Dispatch` a machine provisions a task or deletes its row.
- Whether a dispatched task was started: on this Mac a retry returns the existing task without starting it (crates/forge-daemon/src/http/tasks.rs:434-438), so no result says that dispatched means started; nor completely made, since undoing a failed start may fail too, and a retry is then answered with what is left.
- tmux making a session and being given its command: they are one step, `CreateOk`, which tmux refuses for a name it runs already.
- A reader that has handed nothing on has no cursor, and `RemoteReader.ExactlyOnceInOrder` says nothing of what was published before its first record.
- Liveness under endless publishing: `RelayLoop.QuietCatchesUp` needs history to stop growing.
- A database that loses its last committed transaction in a crash, after which an event id is used again.
- `Bus::publish` with no receivers and `RecvError::Closed` change nothing and are not separate cases.
- The considered list is stored joined by line breaks; here it is a sequence of names.
- Unicode case folding in project and machine names: only ASCII letters are folded, as in the code's `eq_ignore_ascii_case`.
- What a screen is recognised as: `tail_of` and `classify` (crates/forge-daemon/src/adapters/markers.rs) are one parameter of a poll, what a capture would be recognised as; proving their few lines would only add easy members.
- `SessionManager.SessionManager.Reconcile`: others start, stop and read sessions meanwhile, but delete no task; deletions are in `Vanishing`.
- `Poller.SkippingRefinesReading`: a failed capture is a capture that recognises nothing, and is remembered by its marker as in the code; so it counts among the unrecognised screens of the condition.
- `GitHubTruth.StoredIsLastServed`: needs writes that succeed, and no commit that a task returns to or that two tasks share; the tag cache is keyed by commit, so a second link at the same commit would be answered as unchanged without having been read. `GitHubLimits.MisledIff` shows that each of these is needed.
- `GitHubNews.AnnouncedOnceEach`: needs every check state read of that task to be stored, and the task not to be deleted while one is being stored or announced.
- The GitHub rate limit's numbers, token checks, issues and `draft`: a pass may be abandoned at any link, which is all the limit does here.
- Sending keystrokes after a tap is let through, editing messages, and titles made from prompts.
- Hook scripts, their environment, timeouts and output; which event names a script is a precondition of `Hooks.HookRunner.FireHook` being called at all.
- `path_component`, `status_icon`, `check_keys`, `is_script_name` and the like: one-branch helpers.
