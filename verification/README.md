# opengrok, verified in Dafny

opengrok is an event-sourced server for agents: a coworker's turn is a *run* whose log is its only truth, every client
follows an *account's events*, and a turn's conversation, stream, schedule, route and form are each transformed on
their way. The repository checks its protocols in bounded instances; this project proves them without a bound: any
number of writers, loops, crashes, streams, messages, pieces and rotations.

Code that computes a value is a function here, and code that changes something in place is a class or a method with
its loop, proved equal to such a function. What the source promises is then proved of the functions, by lemmas that
build to the statements in the table. A system of several parties is a total function of a state and a step, and a run
of it is any sequence of steps, so a statement about every sequence is a statement about every interleaving.

| module | what it models |
|---|---|
| `Run`, `RunLog`, `RunRecord` | the run aggregate; what its log means, position by position; what every accepted log keeps; every command decided in the log's own terms |
| `RunJournal`, `BatchMeaning` | what one batch of frames appends, by its loop and by its frames |
| `RunWriters`, `RunLifecycle`, `RunDriving`, `AuditRuns` | racing writers; loops, answers, stops, the MCP door's runs, sweeps, crashes and lost replies against the fence; who drives a run, and that it is driven |
| `Outbox`, `Retention` | the account's outbox under interleaved transactions; how much of it is kept |
| `Coalesce`, `Follow`, `EventStream`, `StreamOpening`, `Rooms`, `EventProgress` | a page coalesced; one stream; outbox, listener, room and streams together; who is resumed; who holds the room and what is said there; a stream behind the head catching up |
| `ChatBlocks`, `ChatRepair`, `ChatPass` | a conversation mended into blocks of calls and results; what the mending keeps; the mended conversation as one pass |
| `SseStream`, `SseCalls`, `SseOrder` | a provider's stream cut anywhere, read line by line; fragments finding their calls; everything handed on, in its order |
| `ContextWindow`, `TrimMeaning` | what is left out of a conversation that is too long, by the loops and in plain numbers |
| `Projection`, `Transcript` | a model's deltas bracketed into a run, read by an independent automaton; the stream written out |
| `Texts`, `Cron`, `CronForms`, `CronReading` | day-of-week numbers compiled to names; the stored and the displayed form; an expression by its text |
| `Inference`, `Routing` | where a turn asks, and where its carry-on does |
| `Sessions`, `RefreshGrace`, `GraceReuse` | refresh rotation over the account's log, and where the grace cache and the log agree |
| `FormFill` | a form typed into a page on a computer that may do anything |

What turned out false of the code, with the input that shows it and the exact condition under which it holds:

- A refresh that the log accepts by its previous hash can find the grace cache empty, though the rotation was
  remembered: another request that read a later time pruned the slot in between (`RefreshGrace.TheGraceCanDisagree`).
  The slot comes back exactly when no call on the cache since the `remember` came more than the grace after the
  rotation (`RefreshGrace.TheGraceAgreesWithTheLog`), as it always does for a request no earlier than any call on the
  cache (`RefreshGrace.InOrderTheyAgree`).
- The other way, the cache is asked first and hears of rotations only, so it hands on a slot for a hash the log refuses:
  after a sign-out, with all times in order, the old cookie is still given the pair
  (`GraceReuse.ASignedOutCookieIsHandedOn`, and for every run `GraceReuse.SignOutIsNotHeard`). Whenever the cache hands
  on a slot, the log accepts the hash exactly when the session is not revoked and the slot's refresh is still its
  current one (`GraceReuse.WhatTheCacheHandsOn`).
- A run that finished has carried out every answer given to it, but for the MCP door's audit runs, which finish right
  behind an answer whose call the MCP client runs itself (`AuditRuns.AuditRunsFinishOwed`). An answer is still
  owed at a finish exactly when no loop wrote it, and then the run is on the audit thread
  (`RunLifecycle.FinishedRanApprovals`, `RunLifecycle.ConversationsRanApprovals`).
- A fit that fails can leave a turn that could have gone, when the limit is too small for the note it adds
  (`ContextWindow.TheNoteCanCrowdOut`); `ContextWindow.ErrLeavesATurnIff` says exactly when, by the turns and the
  note alone, and with a limit of 335 tokens or more and fewer than a thousand million messages it does not happen
  (`ContextWindow.RoomForTheNote` with `ContextWindow.ErrMeansNothingLeft`).
- Displaying a stored six-field cron and storing it again can lose white space (`CronForms.RoundTripCanFail`); it is
  itself exactly when it has no five-field form or its fields stand one space apart (`CronForms.DisplayRoundTrip`).
- A carry-on can change its door (`Routing.DoorCanBeLost`): a run that recorded no model, went by the Mac, and finds
  the relay off with a fallback set is answered by the gateway. That is the only case (`Routing.ResumeKeepsTheDoor`).
- Pictures on an assistant message that has calls are not sent (`ChatRepair.APictureCanBeDropped`); every picture is
  sent exactly when no message has both (`ChatRepair.NoPictureIsDroppedIff`). No path builds such a message:
  `ChatMessage::calls` (crates/opengrok-harness/src/model.rs:272-277) sets no images.

One condition is stated that the code always meets: the replacement of a refused ending continues the stream exactly
when the run had begun and not ended (`Projection.UnrecordedIsOneEnding`). `close`
(crates/opengrok-harness/src/lib.rs:921) is its only caller, always after `Projection::start` (line 1206) or
`Projection::resumed` (lines 625 and 793).

## Model

| member | source | states |
|---|---|---|
| `Run.LiveRun.ApplyEvent` | crates/opengrok-core/src/run.rs:594-713 | the aggregate mutated in place equals the fold's step on every event |
| `Run.ReplayLog` | crates/opengrok-core/src/run.rs:586-592 | the loop that rebuilds a run equals the fold over its whole log |
| `RunLog.OpenToolsMeaning` | crates/opengrok-core/src/run.rs:594-713 | for every log, a call is open iff some start of it has no later result |
| `RunLog.OpenToolNames` | crates/opengrok-core/src/run.rs:594-713 | an open call carries the tool that the last entry of its last start named |
| `RunLog.PendingMeaning` | crates/opengrok-core/src/run.rs:594-713 | the pending card is the latest one that nothing has answered or stopped |
| `RunLog.UnstartedAnswerMeaning` | crates/opengrok-core/src/run.rs:594-713 | the unstarted answer is the latest answer, to the card it answered, while its call has neither started nor closed |
| `RunLog.EmittedAndAnsweredMeaning` | crates/opengrok-core/src/run.rs:594-713 | what a reconnecting client replays is exactly the frames journaled, and `answered` is every call answered |
| `RunLog.DecidableIffAllowed` | crates/opengrok-core/src/run.rs:792-987 | an event can be decided by some command iff the run is in the state that event needs, for all ten kinds |
| `RunLog.EndsOnce` | crates/opengrok-core/src/run.rs:859-952 | an accepted log has at most one ending, nothing after a finish or a failure, only frames after a stop, and the status says which |
| `RunLog.GenerationCountsResumes` | crates/opengrok-core/src/run.rs:897-920 | `generation` counts the Resumed events, at most two |
| `RunLog.ResumedWithNothingOpen` | crates/opengrok-core/src/run.rs:897-920 | at every Resumed of an accepted log each call started before it has its result on record before it |
| `RunLog.AnsweredAtMostOnce` | crates/opengrok-core/src/run.rs:954-987 | no call is answered twice in an accepted log |
| `RunLog.AnsweredOnlyWhileWaiting` | crates/opengrok-core/src/run.rs:954-987 | an answer is to the latest unanswered card, on a run that has not ended |
| `RunRecord.SpentMeaning` | crates/opengrok-core/src/run.rs:594-713 | for every log, `rounds_spent` is the number of spoken rounds and of rounds on the screen in it, and a recipe was played iff some round lists it |
| `RunRecord.EndingsMeaning` | crates/opengrok-core/src/run.rs:594-713 | on an accepted log the failure, the one who stopped it and the finish reason are exactly those its ending carries, none where there is no such ending |
| `RunRecord.WaitingMeaning` | crates/opengrok-core/src/run.rs:594-713 | for every log, the run waits iff the last start, card, answer or ending in it is a card, and has started iff a start is in it |
| `RunRecord.StatusMeaning` | crates/opengrok-core/src/run.rs:594-713 | the status is terminal iff the log holds an ending, and takes no frame iff that is a finish or a failure |
| `RunRecord.WhatStartWrites` | crates/opengrok-core/src/run.rs:801-832 | a start is refused iff the log holds a start or an ending, and otherwise captures what it says, with no way off the plan |
| `RunRecord.WhatEmitWrites` | crates/opengrok-core/src/run.rs:833-858 | a frame is refused before the start and after a finish or failure, and otherwise numbered by the frames before it |
| `RunRecord.WhatEndsARun` | crates/opengrok-core/src/run.rs:859-952 | a finish, failure, stop or card is refused iff the run has ended, and otherwise written as asked |
| `RunRecord.WhatARoundWrites` | crates/opengrok-core/src/run.rs:873-896 | a start of tools and a spending are written iff the run began and has not ended |
| `RunRecord.WhatResumeWrites` | crates/opengrok-core/src/run.rs:897-925 | a resume is refused, in this order: before the start, after the end, on a wait, with the open calls by name, at the third; otherwise it writes the next generation |
| `RunRecord.WhatAnswerWrites` | crates/opengrok-core/src/run.rs:954-987 | an answer is written iff no answer to its call, no ending, and the card that asks is about it; which refusal otherwise |
| `RunJournal.TakeFrame` | crates/opengrok-server/src/agui/routes/journal.rs:342-450 | one frame emitted, its card suspended on, and the ending it carries written, or the refusal |
| `RunJournal.DecideBatch` | crates/opengrok-server/src/agui/routes/journal.rs:295-466 | the loop over a batch decides exactly what the specification of one attempt says: fence, own start, spending, frames, endings |
| `RunJournal.BatchAllowed` | crates/opengrok-server/src/agui/routes/journal.rs:295-466 | every event of a batch is allowed by the run that the ones before it left |
| `RunJournal.AcceptedAppend` | crates/opengrok-store/src/postgres/runs.rs:60-121 | appending events each allowed in turn keeps a log accepted |
| `RunJournal.ReplayAppend` | crates/opengrok-core/src/run.rs:586-592 | replaying a log with a batch appended is the batch applied to the replayed log |
| `RunJournal.ParkIsAllOrNothing` | crates/opengrok-harness/src/journal.rs:37-43 | a batch that parks, when written, writes every frame and a suspension for every card it shows |
| `RunJournal.ParkWrittenIffNotEnded` | crates/opengrok-harness/src/journal.rs:37-43 | a loop's park is written iff the run has not ended, and then the run waits on its last card; otherwise `Ended` and nothing is written |
| `RunJournal.SpentLandsWithItsRound` | crates/opengrok-harness/src/journal.rs:80-93 | what a round spent is the first event of the same write as its frames |
| `BatchMeaning.WhatABatchWrites` | crates/opengrok-server/src/agui/routes/journal.rs:295-466 | by the frames alone: a batch of the own generation writes the spending, each frame and card up to the first frame that ends the run, and then the one ending that frame carries, `HasFinished(reason)` unless the run waits or `HasFailed(message)`, which the run is left with; frames alone on a stopped run; nothing on another ended one; and exactly when it is refused |
| `BatchMeaning.ABatchOpensItsRun` | crates/opengrok-server/src/agui/routes/journal.rs:295-341 | the first batch writes the start and then what any batch writes |
| `BatchMeaning.WhoMayWriteABatch` | crates/opengrok-server/src/agui/routes/journal.rs:295-341 | refused as fenced iff it has frames, the run started and its generation is another; no frames write nothing |
| `RunWriters.EveryRaceIsSafe` | crates/opengrok-core/src/run.rs:792-987 | over every interleaving of writers that decide any list of commands on a read prefix and append only if it is still the whole log: one ending, each call answered once and only while it waited, at most two resumes |
| `RunWriters.DecidedAllAllowed` | crates/opengrok-server/src/agui/resume.rs:65-120 | whatever a list of commands decides, refused ones left out or refusing the whole, is allowed event by event |
| `RunWriters.RaceHasOneWinner` | crates/opengrok-server/src/agui/routes/answer.rs:150-215 | of any number of writes decided at one seq, each a list of commands, exactly the first to commit is written, whole |
| `RunWriters.AnAnswerDecides` | crates/opengrok-core/src/run.rs:954-987 | an answer that is accepted decides exactly its own event, so of racing answers one is written |
| `RunWriters.LateWritersLose` | crates/opengrok-store/src/postgres/runs.rs:60-121 | a writer whose read is no longer the whole log writes nothing |
| `RunWriters.WhatAWriterLeaves` | crates/opengrok-server/src/agui/resume.rs:65-120 | a writer that reads and writes with nobody between leaves the log with what it decided, or as it was |
| `RunWriters.AStaleWriterLeavesNothing` | crates/opengrok-store/src/postgres/runs.rs:60-121 | after anything else was appended its write leaves the log as it is |
| `RunWriters.WhatAnInterruptWrites` | crates/opengrok-server/src/agui/resume.rs:65-120 | an interrupt writes every frame, numbered on, and the stop; on a run that has ended, nothing |
| `RunLifecycle.FencingHoldsOverEveryRun` | crates/opengrok-server/src/agui/routes/journal.rs:131-188 | with any number of loops, answers, stops, sweeps, lapses, crashes, audit runs and lost replies: at most one loop ever has tools acting, no replaced loop's write enters the log, the run ends once, at most two resumes |
| `RunLifecycle.FinishedRanApprovals` | crates/opengrok-harness/src/lib.rs:608-772 | at every finish, over every run: an answer is still unstarted iff no loop wrote the finish, and then the run is on the audit thread |
| `RunLifecycle.ConversationsRanApprovals` | crates/opengrok-server/src/recovery.rs:142-230 | a run off the audit thread never finishes with an answer unstarted, however often it was interrupted and resumed |
| `AuditRuns.AuditRunsFinishOwed` | crates/opengrok-server/src/mcp_door.rs:801-1147 | whatever the card and the answer, an audit run opened, answered and settled finishes with its answer unstarted |
| `AuditRuns.AuditRunsAreNeverDriven` | crates/opengrok-server/src/recovery.rs:247-256 | over every run of the system, a run the MCP door opened never has a loop: its answer starts none and no sweep carries it on |
| `RunLifecycle.ResumeFindsNothingActing` | crates/opengrok-server/src/recovery.rs:142-230 | no step that resumes the run finds a tool acting |
| `RunLifecycle.InvIsSafe` | crates/opengrok-harness/src/journal.rs:27-31 | the inductive invariant implies all of it, each acting call being open in the log |
| `RunLifecycle.LoopStepKeepsInv` | crates/opengrok-harness/src/lib.rs:892-995 | every step of a loop keeps the invariant, its given-up endings and lost replies included: an unheard start of tools is written again, an unheard round is not |
| `RunLifecycle.OutsiderWriteKeepsInv` | crates/opengrok-server/src/recovery.rs:99-230 | a claim, an answer, a stop with its frames, a card's frame, the MCP door's opening and finish, and the sweep's resume or failure keep it, and a resume leaves every earlier loop behind |
| `RunDriving.WhoIsStarted` | crates/opengrok-server/src/agui/routes/answer.rs:183-217 | in every reachable state a heard start, resume, or answer off the audit thread adds exactly one loop, live, of the latest generation, which owes exactly the call an answer in the log is still owed for; any other heard write adds none |
| `RunDriving.AnAnswerIsCarriedOut` | crates/opengrok-harness/src/lib.rs:608-772 | after such an answer, or a resume with one owed, finitely many steps of the loop it added put the answered call's start, its result and the finish on the log |
| `RunDriving.ACallIsCarriedOut` | crates/opengrok-harness/src/lib.rs:608-772 | the same from every reachable state in which a live loop may write and owes the call or nothing |
| `RunDriving.WhatAStartLeaves` | crates/opengrok-harness/src/lib.rs:892-920 | a loop's start of tools is on the log iff it may write, and heard, exactly those tools act |
| `RunDriving.WhatARoundLeaves` | crates/opengrok-harness/src/lib.rs:892-995 | a loop's round leaves its spending, its frames up to the first ending and that ending, and the loop parked, going on or closing |
| `RunDriving.AGivenUpLoopFailsItsRun` | crates/opengrok-harness/src/lib.rs:921-995 | a loop that gives up puts its error frame and the failure with its words on the log |
| `RunDriving.AnAskLands` | crates/opengrok-server/src/agui/routes/answer.rs:150-182 | a command read and written at once is in the log exactly as the run decides it |
| `RunDriving.AnInterruptLands` | crates/opengrok-server/src/agui/resume.rs:65-120 | a stop with its frames on a run that has begun lands whole unless it has ended, and starts no loop |
| `RunDriving.AnUnheardWriteStartsNothing` | crates/opengrok-server/src/recovery.rs:142-230 | a write whose reply is lost leaves the same log as a heard one, and no loop |
| `RunDriving.WhatALoopPlans` | crates/opengrok-harness/src/lib.rs:608-772 | a live loop may write anything that is not empty, but first the start or the result of the call it owes |
| `RunDriving.WhatAGivenUpLoopPlans` | crates/opengrok-harness/src/lib.rs:921-995 | one that gave up may write any frames without a result or a card, and a finish only on a run that is over for it |
| `RunDriving.WhatALoopMeets` | crates/opengrok-server/src/agui/routes/journal.rs:131-188 | it may die at any moment; on a log that moved its write leaves nothing and it reads again |
| `Outbox.AccountOutbox.Emit` | crates/opengrok-events/src/outbox.rs:56-85 | the statements in sequence (take, write, prune) equal the specification of one emit |
| `Outbox.Prune` | crates/opengrok-events/src/outbox.rs:31-36 | the rows kept and the highest id gone are the specified ones |
| `Outbox.EmitKeepsHolding` | crates/opengrok-events/src/outbox.rs:15-36 | an emit on a table that holds the last of the history leaves one that holds the last of the longer history |
| `Outbox.PruneIsPrefix` | crates/opengrok-events/src/outbox.rs:31-36 | what retention removes, by count or by age, is the oldest ids, never a hole |
| `Outbox.TakeIsAboveWhatItSaw` | crates/opengrok-events/src/outbox.rs:19-24 | the ids taken lie above every note the statement saw and above the head it found |
| `Outbox.OutboxIsExact` | crates/opengrok-events/src/outbox.rs:15-85 | under any interleaving of writers that commit and roll back, note n of the commit order has id n, the retained ids are exactly those above the floor up to the head, and the newest is retained |
| `Outbox.HeadNeverGoesDown` | crates/opengrok-events/src/outbox.rs:15-85 | from any reachable state on, head and floor only go up and no committed note is lost or renumbered |
| `Outbox.PageMeaning` | crates/opengrok-events/src/outbox.rs:47-48 | a page from a reached cursor is empty iff the cursor is at the head, and otherwise consecutive committed notes verbatim, right after the cursor unless retention passed it |
| `Retention.EmitRetains` | crates/opengrok-events/src/outbox.rs:13-85 | after an emit a row is there iff it was or was just written, is among the newest 10,000 ids and is no older than 24 hours at the transaction's start |
| `Retention.CommitRetains` | crates/opengrok-events/src/outbox.rs:13-85 | the same of a commit in any reachable state of interleaved transactions |
| `Retention.NothingYoungGoes` | crates/opengrok-events/src/outbox.rs:13-85 | under any interleaving there are at most 10,000 rows, and a committed note is missing only if 10,000 later ones were committed or it is older than a day |
| `Retention.AnEmitCommits` | crates/opengrok-events/src/outbox.rs:56-85 | a transaction with nobody between appends its notes to the history in order, and frees the lock |
| `Retention.RollbackLeavesNothing` | crates/opengrok-events/src/outbox.rs:15-24 | a rollback leaves table and history as they were |
| `Coalesce.FillLasts` | crates/opengrok-events/src/follow.rs:208-214 | the loop that fills the map computes each thread's last id and common run |
| `Coalesce.CoalescePage` | crates/opengrok-events/src/follow.rs:203-228 | the filter over the page equals its specification |
| `Coalesce.LastsMeaning` | crates/opengrok-events/src/follow.rs:208-214 | a thread's entry is its last note's id, and names a run iff every note of the thread in the page named it |
| `Coalesce.WhatIsSent` | crates/opengrok-events/src/follow.rs:203-228 | other notes go as they are; a thread's is sent from a position iff it is its last there, naming a run iff all merged notes did |
| `Coalesce.SentInOrder` | crates/opengrok-events/src/follow.rs:203-228 | ids stay in order and every id sent is an id of the page |
| `Coalesce.LastIdSurvives` | crates/opengrok-events/src/follow.rs:160-167 | the page's last id is the last id sent |
| `Coalesce.ReconnectLosesNoThread` | crates/opengrok-events/src/follow.rs:160-167 | a client reconnecting from any id it received still hears of every changed thread, in what it received or after it |
| `Follow.FollowStream.constructor` | crates/opengrok-events/src/follow.rs:37-70 | a stream opens at the id asked for, replaying, iff that id is between floor and head; otherwise at the head with a reset |
| `Follow.FollowStream.Read` | crates/opengrok-events/src/follow.rs:138-169 | a read moves the cursor over the page, resets on a pruned gap, and ends the replay on a short page |
| `Follow.FollowStream.MissedWakes` | crates/opengrok-events/src/follow.rs:176-183 | after dropped wakes the stream resets if too far behind, and otherwise is dirty iff the head moved |
| `Follow.FollowStream.Lagged` | crates/opengrok-events/src/follow.rs:189-194 | a reset puts the cursor at the head and tells the client that id |
| `Follow.FollowStream.Hear` | crates/opengrok-events/src/follow.rs:109-129 | a wake makes the stream dirty iff it says more than the cursor has |
| `Follow.SentOnceInOrder` | crates/opengrok-events/src/follow.rs:131-195 | what is sent for pages that cover ids from a base has ascending ids within them, each at most once |
| `Follow.EveryIdIsTold` | crates/opengrok-events/src/follow.rs:131-195 | every covered id is told: verbatim, or for a thread by its own or a later note of that thread |
| `EventStream.EveryStreamIsExact` | crates/opengrok-events/src/hub.rs:106-190 | over every run of outbox, listener, room and streams: each following stream covers every committed id since its resume point or last reset, in order, once, with no gap; if the head is above it, it knows or will be told; no live stream's room is dropped |
| `EventStream.NothingSkippedOrRepeated` | crates/opengrok-events/src/follow.rs:131-195 | since its base, a client was sent ascending ids only, and was told of every id up to the cursor |
| `EventStream.ReplayIsVerbatim` | crates/opengrok-events/src/follow.rs:37-70 | while it replays, a stream has sent exactly every note since the id asked for, as written |
| `EventStream.ReadIsHonest` | crates/opengrok-events/src/follow.rs:138-169 | a reset iff retention passed the cursor; otherwise the cursor moves on by the next 500 notes, or to the head |
| `EventStream.SendReaches` | crates/opengrok-events/src/hub.rs:133-145 | a wake sent is pending for every live stream, and no pending wake is lost by another |
| `EventStream.LeaveKeepsInv` | crates/opengrok-events/src/hub.rs:118-126 | a stream that leaves never takes the room of another live one |
| `StreamOpening.WhoIsResumed` | crates/opengrok-events/src/follow.rs:37-70 | in every reachable state a stream that reads its bounds resumes at the id asked for, with nothing queued and the replay to come, iff every note committed after it is in the table and no older than a day; otherwise one reset to the head is queued |
| `StreamOpening.AResumedClientHearsAll` | crates/opengrok-events/src/follow.rs:138-169 | from there, reads of the stream alone send every note after the id, verbatim, and no other block |
| `StreamOpening.WhoIsReset` | crates/opengrok-events/src/follow.rs:176-183 | a stream that lost wakes is reset iff more notes were committed since its cursor than its room holds, and otherwise knows whether there are any |
| `StreamOpening.WhatAResetDoes` | crates/opengrok-events/src/follow.rs:189-194 | one reset block at the last committed id, behind what is queued |
| `StreamOpening.WhatAWakeDoes` | crates/opengrok-events/src/follow.rs:109-129 | a wake taken makes the stream read iff it is a resync or names an id above the cursor, and lost wakes send it to ask for the head |
| `StreamOpening.SentOneByOne` | crates/opengrok-events/src/follow.rs:109-136 | nothing queued is lost, skipped or sent twice: the client is sent the next block by a pop and none by any other step |
| `Rooms.WhoTakesASeat` | crates/opengrok-events/src/hub.rs:106-116 | a stream takes its seat behind everything said in the account's room, a new one iff there is none, before it reads anything |
| `Rooms.WhoGivesUpTheRoom` | crates/opengrok-events/src/hub.rs:118-126 | in every reachable state a leaving stream takes the room with it iff no other seat is held in it |
| `Rooms.WhatTheRoomHears` | crates/opengrok-events/src/hub.rs:133-190 | while a live stream holds the room, each step of the listener adds to it exactly the resync or the announced id it says |
| `Rooms.WhatTheListenerOwes` | crates/opengrok-events/src/hub.rs:148-190 | a resync is owed from each connection and each gap until said; announcements wait in order and are lost only then |
| `Rooms.WhatIsAnnounced` | crates/opengrok-events/src/outbox.rs:56-85 | each commit announces its head, last, to a connection, and nothing else does |
| `EventProgress.EveryStreamCatchesUp` | crates/opengrok-events/src/follow.rs:109-195 | from every reachable state finitely many steps of the listener and of the stream itself, no poll among them, bring a live stream to the head by reading on or by a reset, with every note since its base told |
| `ChatBlocks.ChatMessages` | crates/opengrok-harness/src/gateway.rs:529-601 | the nested loops send the opening system message and the specified segments, in order |
| `ChatBlocks.EveryBlockIsWhole` | crates/opengrok-harness/src/gateway.rs:518-601 | for every message list, each tool message lies in the run directly after calls, and the ids of that run equal those calls' ids as a multiset |
| `ChatBlocks.EveryRequestIsWhole` | crates/opengrok-harness/src/gateway.rs:529-601 | the same of the whole request, system message included |
| `ChatRepair.MatchedIsSorted` | crates/opengrok-harness/src/gateway.rs:565-590 | taking results against the open calls is sorting them by count: a result answers iff its id was called more often than earlier results named it |
| `ChatRepair.EachResultIsCarriedOnce` | crates/opengrok-harness/src/gateway.rs:518-601 | what speaks for results on the wire is, as a multiset, one carrier per result (its call's answer, or words) and one no-result line per unanswered call, as an independent single pass gives them |
| `ChatRepair.EachPictureIsSentOnce` | crates/opengrok-harness/src/gateway.rs:523-600 | the pictures sent equal, as a multiset, the pictures given outside assistant messages with calls |
| `ChatRepair.NoPictureIsDroppedIff` | crates/opengrok-harness/src/gateway.rs:523-600 | the pictures sent are all the pictures given iff no message has both calls and pictures |
| `ChatRepair.APictureCanBeDropped` | crates/opengrok-harness/src/gateway.rs:545-566 | one message with a call and a picture is sent without the picture |
| `ChatRepair.WholeConversationKeepsItsOrder` | crates/opengrok-harness/src/gateway.rs:529-601 | a conversation with nothing to mend goes message by message as itself, picture messages aside |
| `ChatPass.ChatIsThePass` | crates/opengrok-harness/src/gateway.rs:518-601 | the wire conversation equals, message by message, one pass that keeps an open block, counts its results and spells each wire message out |
| `ChatPass.EveryRequestIsThePass` | crates/opengrok-harness/src/gateway.rs:529-601 | the same of the whole request |
| `SseStream.DeltaStream.PushCall` | crates/opengrok-harness/src/gateway.rs:359-386 | one fragment: binds its index, starts its call at its first name, passes its arguments |
| `SseStream.DeltaStream.Close` | crates/opengrok-harness/src/gateway.rs:403-417 | ends, lowest index first, each started call that has not ended |
| `SseStream.DeltaStream.PushLine` | crates/opengrok-harness/src/gateway.rs:325-396 | one line by what it is: nothing, the end, a failure, or choices |
| `SseStream.DeltaStream.PushPiece` | crates/opengrok-harness/src/gateway.rs:817-840 | a piece is buffered and drained line by line; an error takes its place in the stream |
| `SseStream.DeltaStream.Finish` | crates/opengrok-harness/src/gateway.rs:841-857 | a last line without a newline is read, and open calls end |
| `SseStream.CuttingChangesNothing` | crates/opengrok-harness/src/gateway.rs:807-860 | cutting any piece in two between characters, amid any other pieces and errors, changes nothing of what comes out |
| `SseStream.PiecesAreTheWhole` | crates/opengrok-harness/src/gateway.rs:807-860 | however a text is cut, the result is that of the whole text read line by line |
| `SseCalls.CallsStartAndEndOnce` | crates/opengrok-harness/src/gateway.rs:319-417 | for any pieces and errors each call id is started at most once, ended at most once and after its start, and at the end every started id still bound to an index has ended |
| `SseCalls.ClosingLineEndsCalls` | crates/opengrok-harness/src/gateway.rs:387-401 | `[DONE]`, or a chunk whose last choice finished, ends every started call that is bound |
| `SseCalls.FragmentsFindTheirCall` | crates/opengrok-harness/src/gateway.rs:306-396 | starts and arguments handed on are exactly those of each fragment under the id its index was last given; words and failures are handed on in order; however the text is cut |
| `SseOrder.EverythingInOrder` | crates/opengrok-harness/src/gateway.rs:306-417 | for any pieces with errors between them, all that is handed on, in order, is what the list of words, fragments, failures and closings read off the lines is handed on as |
| `ContextWindow.Window.constructor` | crates/opengrok-harness/src/context.rs:81-101 | the boundary found at entry is the specified one |
| `ContextWindow.Window.SkipTurn` | crates/opengrok-harness/src/context.rs:128-135 | the inner loop stops at the turn's end and has counted exactly its cost |
| `ContextWindow.Window.FindCut` | crates/opengrok-harness/src/context.rs:124-136 | the outer loop finds the specified cut |
| `ContextWindow.Window.Fit` | crates/opengrok-harness/src/context.rs:115-163 | the window, the request and the answer after a fit are the specified ones |
| `ContextWindow.EntryProtectsTheTurn` | crates/opengrok-harness/src/context.rs:61-101 | what is always kept is system messages, and no message of a person lies beyond the boundary, which is one of theirs if there is any |
| `ContextWindow.CutIsTurn` | crates/opengrok-harness/src/context.rs:110-136 | a cut falls at a turn's start or the boundary, and short of the boundary it freed enough |
| `ContextWindow.CutIsLeast` | crates/opengrok-harness/src/context.rs:110-136 | no earlier turn's end would have been enough |
| `ContextWindow.FitIsHonest` | crates/opengrok-harness/src/context.rs:107-163 | the number answered is the real estimate of the request as it is now, and Ok iff there is no limit or it is within the room |
| `ContextWindow.ErrMeansNothingLeft` | crates/opengrok-harness/src/context.rs:107-163 | over any run, if the held-back fifth covers a note of as many messages as came before the last turn, both known before the call, an Err has left out every earlier turn |
| `ContextWindow.ErrLeavesATurnIff` | crates/opengrok-harness/src/context.rs:107-163 | an Err leaves an earlier turn iff the request is over, some turn short of the boundary is the first whose end frees enough, and the note's growth takes it back |
| `ContextWindow.RoomForTheNote` | crates/opengrok-harness/src/context.rs:119-149 | the held-back fifth covers the note for every limit of 335 tokens or more and fewer than a thousand million messages |
| `ContextWindow.NoRoomBelow` | crates/opengrok-harness/src/context.rs:119-149 | at a limit of 334 it does not cover a note of nine digits |
| `ContextWindow.TheNoteCanCrowdOut` | crates/opengrok-harness/src/context.rs:119-163 | four blank messages under a limit of twenty tokens: an Err with a turn left |
| `ContextWindow.KeepRecentImages` | crates/opengrok-harness/src/lib.rs:2240-2251 | the backward loop clears exactly the pictures it is specified to |
| `ContextWindow.RecentKeepTheirs` | crates/opengrok-harness/src/lib.rs:2240-2251 | a message keeps its pictures iff fewer than `keep` later ones have any, and its words always |
| `ContextWindow.FewPicturesGo` | crates/opengrok-harness/src/lib.rs:2240-2251 | at most `keep` messages have pictures afterwards |
| `ContextWindow.TrimmingIsSound` | crates/opengrok-harness/src/context.rs:61-163 | over any sequence of appends, tool and limit changes, dropped pictures and fits: leading system messages and all from the entry boundary on are there with what was appended, unchanged but for pictures, which a message loses only after two later ones had some; what is gone is `left_out` messages, the oldest, in whole turns; the system message carries the note iff any went |
| `TrimMeaning.WhatARequestCosts` | crates/opengrok-harness/src/context.rs:23-59 | an estimate is a third of the UTF-8 bytes of each text, rounded up, 4 a message and 1600 a picture |
| `TrimMeaning.WhatALimitLeaves` | crates/opengrok-harness/src/context.rs:107-122 | a limit leaves a quarter of itself to the answer, at most 8192, and a fit aims at four fifths of the rest |
| `TrimMeaning.WhatEntryProtects` | crates/opengrok-harness/src/context.rs:81-101 | kept are exactly the leading system messages, and the boundary is the last message of a person, if any lies past them |
| `TrimMeaning.WhatAFitLeavesOut` | crates/opengrok-harness/src/context.rs:115-163 | nothing within the room; otherwise the messages up to the first turn that suffices, and the window, note and answer that come of it |
| `Projection.RunProjection.PushDelta` | crates/opengrok-harness/src/projection.rs:129-209 | one delta's events and the new state are the specified ones |
| `Projection.RunProjection.PushToolResult` | crates/opengrok-harness/src/projection.rs:219-261 | a result closes what is open and is followed by its own CUSTOM frames |
| `Projection.RunProjection.CloseWith` | crates/opengrok-harness/src/projection.rs:268-416 | what a park, a wake and every ending share: nothing after an ending, else close and say |
| `Projection.RunProjection.FinishRun` | crates/opengrok-harness/src/projection.rs:319-335 | a finish's events and state are the specified ones |
| `Projection.RunProjection.StopRun` | crates/opengrok-harness/src/projection.rs:376-395 | a stop's two frames and state are the specified ones |
| `Projection.RunProjection.FailRun` | crates/opengrok-harness/src/projection.rs:399-416 | a failure's events and state are the specified ones |
| `Projection.RunProjection.Park` | crates/opengrok-harness/src/projection.rs:268-306 | a card's events and state are the specified ones |
| `Projection.RunProjection.ParkAwaiting` | crates/opengrok-harness/src/lib.rs:2257-2264 | the loop over the waiting calls gives a card each and then the finish, as specified |
| `Projection.EveryRunIsBracketed` | crates/opengrok-harness/src/projection.rs:89-446 | for every sequence of operations that feeds nothing after an ending, from a new or a resumed run, the automaton accepts the stream and ends in the projection's own state |
| `Projection.TerminalIsLast` | crates/opengrok-harness/src/projection.rs:8-15 | in an accepted stream a terminal is the last event, so there is at most one |
| `Projection.StartIsFirst` | crates/opengrok-harness/src/projection.rs:88-99 | RUN_STARTED comes first in a stream that began unopened, and nowhere else |
| `Projection.MessagesAreFresh` | crates/opengrok-harness/src/projection.rs:48-86 | no message number is opened twice |
| `Projection.UnrecordedIsOneEnding` | crates/opengrok-harness/src/projection.rs:418-446 | whatever was refused, the replacement keeps the same closes and has RUN_ERROR as its one terminal; in an ending's place it is accepted iff the run had begun and not ended |
| `Projection.EveryClosingIsAnEnding` | crates/opengrok-harness/src/lib.rs:921-995 | every finish, stop, failure and park of several cards, with its timing spliced in, is an accepted ending that leaves nothing open, and its replacement is accepted iff the run has started |
| `Projection.NothingFedIsLost` | crates/opengrok-harness/src/projection.rs:129-261 | every text, thought, call start, argument and result fed is in the stream once, in order, and nothing else of theirs is |
| `Transcript.TheStreamIsTold` | crates/opengrok-harness/src/projection.rs:89-446 | the whole stream, event by event, of any operations fed to a new or a resumed run is the transcript written from the operations and what was said before: numbers, brackets, reasons, codes |
| `Transcript.WhereTheTimingGoes` | crates/opengrok-harness/src/timing.rs:161-174 | a frame is spliced in right before the last terminal, or at the end of what has none |
| `Transcript.WhatAClosingSays` | crates/opengrok-harness/src/lib.rs:921-995 | a closing is what is open closed, what the ending says, its timing, and its terminal with the reason or code |
| `Transcript.WhatARefusalSays` | crates/opengrok-harness/src/projection.rs:418-446 | refused, it is told as the closes, the timing and one error that says why |
| `Cron.NameItem` | crates/opengrok-core/src/schedule.rs:185-225 | one item read, refused or named, as specified |
| `Cron.NameWeekdays` | crates/opengrok-core/src/schedule.rs:185-225 | the loop over a field's items names or refuses the field as specified |
| `Cron.NamingKeepsTheDays` | crates/opengrok-core/src/schedule.rs:146-225 | for every accepted field, and however the crate reads the items this model does not, the names denote, Sunday-first and without wrapping, exactly the days the numbers denote with 0 and 7 both Sunday, steps included |
| `Cron.AcceptedIffRanges` | crates/opengrok-core/src/schedule.rs:150-209 | a field is accepted iff each numbered item is a forward range of 0 to 7 with a step of 1 to 7 |
| `Cron.StoppingAtSaturday` | crates/opengrok-core/src/schedule.rs:210-214 | stopping a range that ends on 7 at Saturday, with Sunday added if the range reaches it, is the same days |
| `CronForms.StoringKeepsTheMeaning` | crates/opengrok-core/src/schedule.rs:155-172 | five accepted fields are stored on the minute with the other fields untouched and the same days |
| `CronForms.StoringIsIdempotent` | crates/opengrok-core/src/schedule.rs:160-172 | what is stored is stored again as itself |
| `CronForms.DisplayRoundTrip` | crates/opengrok-core/src/schedule.rs:236-249 | a stored expression displayed and stored again is itself iff it has no five-field form or its fields stand one space apart, and has the same fields always |
| `CronForms.FiveFieldsRoundTrip` | crates/opengrok-core/src/schedule.rs:236-249 | for whatever was typed in five fields, the display is stored as it was |
| `CronForms.RoundTripCanFail` | crates/opengrok-core/src/schedule.rs:241-249 | `0  9 * * * MON`, with two spaces, does not come back |
| `CronForms.FiveFieldsAreSlow` | crates/opengrok-core/src/schedule.rs:227-234 | an expression can wake more than once a minute iff it has not five fields and its first is not `0` |
| `CronReading.WhatIsANumber` | crates/opengrok-core/src/schedule.rs:185-209 | a number is taken iff it is a digit of 0 to 7 behind any zeros |
| `CronReading.WhatAnItemReadsAs` | crates/opengrok-core/src/schedule.rs:177-209 | an item put together from its parts is read as the range those parts write, and numbers a day iff a digit stands before its step |
| `CronReading.WhatAnItemBecomes` | crates/opengrok-core/src/schedule.rs:185-225 | a lone number is its day's name, and an item without one stays as it is |
| `CronReading.NamedInPlace` | crates/opengrok-core/src/schedule.rs:185-225 | the items of a list are named in their places |
| `CronReading.NamedAlone` | crates/opengrok-core/src/schedule.rs:185-225 | a list of one item is named as that item |
| `CronReading.WhatIsStored` | crates/opengrok-core/src/schedule.rs:155-172 | five fields go behind a `0` with their days named, or are refused with them; anything else is stored trimmed |
| `CronReading.WhatIsShown` | crates/opengrok-core/src/schedule.rs:236-249 | six fields on the minute whose days hold no number are shown without the `0`; anything else as it is |
| `Inference.StoredReadsBack` | crates/opengrok-core/src/inference.rs:146-161 | a queued send's row reads back as the source that was stored |
| `Inference.WhatIsStored` | crates/opengrok-core/src/inference.rs:146-153 | the words a row holds, letter by letter |
| `Inference.WhatIsRead` | crates/opengrok-core/src/inference.rs:155-161 | a text reads as a source iff it is a kind's word, alone or with a colon and a way's word |
| `Routing.WhoReachesTheGateway` | crates/opengrok-harness/src/local_proxy.rs:290-378 | a turn goes to the gateway iff it, its coworker or the setting names it, and to the fallback iff it is a fresh turn by the Mac with no relay on and a fallback set |
| `Routing.WhatAPlanTurnAsks` | crates/opengrok-harness/src/local_proxy.rs:320-408 | with a readable setting: on the plan by a way iff the first of turn, coworker and setting to name one says so; the model is the captured one, else an allowed pin of the own plan, else that way's; the endpoint or the first thing missing; the fallback; or the gateway |
| `Routing.UnreadIsRefused` | crates/opengrok-harness/src/local_proxy.rs:320-342 | with one that cannot be read: the gateway iff named, and otherwise a refusal on the way named |
| `Routing.ByMacIsTheRoute` | crates/opengrok-core/src/inference.rs:300-314 | `by_mac` holds iff the route goes by a switched-on Mac |
| `Routing.PlanKeepsItsWay` | crates/opengrok-harness/src/local_proxy.rs:185-196 | a plan route captures the way it resolved to, whatever gaps the setting has |
| `Routing.GapsAreRefusals` | crates/opengrok-harness/src/local_proxy.rs:500-530 | a plan turn that can be sent names a model, and an address or the machines that are on; where something is missing it is refused |
| `Routing.PinIsIgnoredOffItsPlan` | crates/opengrok-harness/src/local_proxy.rs:394-408 | off a coworker's own plan, or with a captured model, the pin makes no difference to the route |
| `Routing.ResumeKeepsTheDoor` | crates/opengrok-harness/src/local_proxy.rs:320-392 | for every later setting, readable or not, a carry-on keeps kind and way iff not: no model recorded, by the Mac, relay off, fallback set |
| `Routing.ResumeKeepsTheModel` | crates/opengrok-core/src/run.rs:740-746 | by every route, and on a message too, a recorded model is the one asked again; off the plan a run that recorded none asks for its coworker's own |
| `Routing.EveryCarryOnKeepsTheDoor` | crates/opengrok-core/src/run.rs:730-736 | the door as above, read off any accepted log whose start captured the route, whatever came after it |
| `Routing.EveryCarryOnKeepsTheModel` | crates/opengrok-server/src/agui/resume.rs:836-891 | read off any accepted log, a carry-on asks for the model its start recorded |
| `Routing.StartedOnce` | crates/opengrok-core/src/run.rs:594-655 | on an accepted log the run has started iff a start is in it, and holds what that start captured |
| `Routing.MessagesKeepTheKind` | crates/opengrok-harness/src/local_proxy.rs:275-288 | a turn on another Bot's message carries on with its kind |
| `Routing.DoorCanBeLost` | crates/opengrok-harness/src/local_proxy.rs:343-352 | two settings by which a Mac's turn without a model carries on at the gateway |
| `Sessions.LiveAccount.ApplyEvent` | crates/opengrok-core/src/account.rs:310-359 | the aggregate mutated in place equals the fold's step on the session events |
| `Sessions.AcceptedHashes` | crates/opengrok-core/src/account.rs:405-437 | on every accepted log a hash is a session's own iff it is the last of that session's chain and the session is live, and its previous one iff it is the one before, within the grace |
| `Sessions.WhatARefreshWrites` | crates/opengrok-core/src/account.rs:405-500 | on every accepted log: a live chain's last hash is rotated for the new one, the one before it writes nothing within 45 seconds and is unknown after, a revoked session's two are refused as such, any other is unknown |
| `Sessions.WhatSignsInAndOut` | crates/opengrok-core/src/account.rs:455-507 | a sign-in opens its session and registers the account iff it is not; a sign-out is taken iff the log knows the session |
| `Sessions.OlderHashesAreDead` | crates/opengrok-core/src/account.rs:405-437 | a hash further back is refused at any time |
| `Sessions.OneRotationPerHash` | crates/opengrok-core/src/account.rs:484-500 | no hash is presented by two rotations of one log |
| `Sessions.RaceWritesOneRotation` | crates/opengrok-server/src/auth/routes.rs:838-937 | any number of refreshes of one cookie read at one seq write exactly the first one's rotation |
| `Sessions.DecidedIsAccepted` | crates/opengrok-core/src/account.rs:455-507 | sign-ins, refreshes and sign-outs with fresh ids and hashes keep a log accepted |
| `RefreshGrace.Grace.Remember` | crates/opengrok-auth/src/refresh_grace.rs:54-63 | drops what is past the grace, then stores |
| `RefreshGrace.Grace.Reuse` | crates/opengrok-auth/src/refresh_grace.rs:65-71 | drops what is past the grace, then looks up |
| `RefreshGrace.ReuseMeans` | crates/opengrok-auth/src/refresh_grace.rs:54-71 | a reuse hands on a slot iff some call stored it, none under that hash since, and no call since, this one included, came more than the grace later |
| `RefreshGrace.TheGraceAgreesWithTheLog` | crates/opengrok-auth/src/refresh_grace.rs:54-71 | over every run of one replica, whatever times its requests read: when the log accepts a previous hash and its rotation's `remember` has run, `reuse` returns the refresh that rotation minted iff no call since came more than the grace after the rotation, and nothing otherwise |
| `RefreshGrace.InOrderTheyAgree` | crates/opengrok-server/src/auth/routes.rs:838-937 | a request no earlier than any the cache was asked at is handed the refresh whose hash is the current one of the session |
| `RefreshGrace.PendingIsNotHeld` | crates/opengrok-auth/src/refresh_grace.rs:65-96 | until the `remember` of a rotation has run, `reuse` returns nothing for it |
| `RefreshGrace.TheGraceCanDisagree` | crates/opengrok-auth/src/refresh_grace.rs:65-71 | a run in which the log accepts the previous hash at 45010 and the cache, asked at 45011 in between, has dropped it |
| `GraceReuse.WhatTheCacheHandsOn` | crates/opengrok-server/src/auth/routes.rs:838-976 | over every run of one replica, whatever the times: when `reuse` returns a slot, its session is in the log, and the log accepts the presented hash as that session's previous one iff the session is not revoked and the slot's refresh is its current one; otherwise the log refuses it |
| `GraceReuse.SignOutIsNotHeard` | crates/opengrok-server/src/auth/routes.rs:838-845 | whatever the cache would hand on it still does after its session is signed out, and the log then refuses it |
| `GraceReuse.ASignedOutCookieIsHandedOn` | crates/opengrok-server/src/auth/routes.rs:838-845 | such a run: signed in at 0, rotated at 10, remembered, signed out; at 20 the old hash is handed the pair and the log refuses it |
| `FormFill.LandsInItsBox` | crates/opengrok-forms/src/user_form.rs:889-932 | a password field passes iff the last report read said a password box; after a move that is a newer report, or 1500 ms were waited for one; it asks at most 31 times; any other field passes unasked |
| `FormFill.AnswerField` | crates/opengrok-forms/src/user_form.rs:793-866 | one answered field: reached, checked, typed, with the outcome the trace shows, or given up |
| `FormFill.SkipField` | crates/opengrok-forms/src/user_form.rs:767-792 | a blank field is tabbed past where focus walks, and fails only if required or the Tab missed |
| `FormFill.FillIntoFocus` | crates/opengrok-forms/src/user_form.rs:743-887 | against any computer: one outcome per field in order, each what the trace shows, an answered field before the stop typed; where it gives up, the last thing asked was for that field and missed or named the wrong box, nothing was typed there, no Return is pressed and every field from there on fails; otherwise nothing missed; Return iff no field failed and the form is one to send; what was asked for each field is its script, in order and no more: Tab, or click and select, then its answer, with one report, or up to 32 for a password |
| `FormFill.WhenReturnIsPressed` | crates/opengrok-forms/src/user_form.rs:694-735 | Return is pressed iff something was typed and: it was asked for, or there is one field, or a positioned one-page form with a secret was typed in full, or it is a one-time code or password challenge with one field typed that is not stepped; and how many fields may be typed |
| `FormFill.TypingIsSafe` | crates/opengrok-forms/src/user_form.rs:737-866 | what is typed is the field's own answer, a positioned field's only right after its click and select, a password only when the last report said so, and without positions field i after exactly i Tabs |
| `FormFill.NothingAfterAMiss` | crates/opengrok-forms/src/user_form.rs:757-848 | nothing is asked after a click, Tab or select that missed, nor after the Return |
| `FormFill.TypedOnceInOrder` | crates/opengrok-forms/src/user_form.rs:756-866 | fields are handled in order and each is typed at most once |

## Left out

- Timestamps of run events, and what a start captures beside thread, model and source (effort, system message, skills, prompt, limits): they are carried, not decided on.
- The lease of a run: the sweep may act at any moment here, which covers every lapse.
- `MemoryJournal`, the bound on a journal write's attempts, and a hand-deleted head row of the outbox.
- What makes the sweep fail a run it could resume (an owner gone, a newer turn, a form's answer, a policy): it may do either here. Which thread is the audit thread of a run's coworker is a parameter.
- Fairness: that a stream can always catch up and that an answered call can always be carried out is proved, not that the scheduler lets them.
- The gate, ping and retry timers of a followed stream, and rooms of other accounts: a stream may read at any moment here, and there is one account.
- A merged note's missing run id across a reconnect in the middle of a page: the claim is within one page.
- JSON: event payloads, chunk shapes and error bodies are read by a function this model does not look into; a chunk that splits a UTF-8 character is outside the claim on pieces.
- `provider_arguments` and the words a result is written out in: a wire message carries the message whose words it is.
- Integers are unbounded: `u32` message numbers, `u64` token counts and `i64` times do not wrap.
- `next_fire_ms`, the cron crate's clock, its other fields and IANA zones; of its day names only the seven three-letter ones are read, and any other item by an arbitrary function.
- The routine and monitor routes, `listed`, `unreachable`, and the saving of a setting: single branches.
- RefreshGrace.TheGraceAgreesWithTheLog: does not model the bounded wait of `wait_for_reuse`, because a rotation whose `remember` has not run yet is a state of its own (`PendingIsNotHeld`).
- Minting of tokens, cookies and other account events (credentials, profile, plan).
- The pauses between a click, a select and the typing; what a form's result says to the model, and `shared_values`.
- Coworker, monitor, org, connection and catalogue aggregates, budgets, and the box, Docker and viewer plumbing.
