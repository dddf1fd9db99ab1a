# Live sessions, verified

ProSlides runs a presentation live: a host steps through slides, an audience joins and answers, and every browser
follows an append-only event log. This project models that core in Dafny 4.11 and proves what it is for. The Go
store's transactions, the broker and the event handler are classes with the source's fields and methods; protocols
with concurrency are state machines over their steps; pure TypeScript and Go functions are functions.

`dafny verify dfyconfig.toml` checks everything.

## How it is built

| part | files | subject |
|---|---|---|
| shared | `Prelude.dfy`, `LiveState.dfy`, `LiveEvents.dfy` | session states, the command guard, event rows, small facts about sets and lists |
| delivery | `EventLog.dfy`, `BrokerModel.dfy`, `EventBroker.dfy`, `EventStream.dfy`, `Delivery*.dfy` | paging, compaction, the broker, one connection, and the whole protocol interleaved |
| late joins | `Late*.dfy` | the same protocol over logs whose joins become visible out of id order: the rows written, and the joins announced |
| ledger | `Ledger*.dfy`, `Tallies.dfy` | the tables of a session, each transaction, and what every run of them keeps |
| row lock | `RowLock*.dfy` | the same transactions with shared and exclusive locks, ids drawn before commit, readers, and the log they see grow |
| answers | `Definitions.dfy`, `WordCloud*.dfy`, `Responses.dfy`, `Scoring.dfy`, `Reports*.dfy` | validation, normalisation, points, and re-evaluation in reports |
| browser | `LiveClient*.dfy`, `LiveRefresh.dfy`, `LivePlans*.dfy` | cursor, head count, refresh loop, command plans |
| lists | `Roster.dfy`, `Slides.dfy`, `SlideRace*.dfy` | keyset pages with ranks, slide order under a uniqueness rule, two edits of one deck at once |
| all together | `LiveEndToEnd.dfy`, `LiveRoom*.dfy` | the ledger's log feeding streams and browser; servers and a browser interleaved, and the head count it shows |

**Delivery.** A system state holds every session's log, the broker's tables, each poller's outbox and each
connection. `DeliveryTheorems` quantifies over every run from the empty system. The central invariant says that a
channel continues the ledger from where its connection has consumed it to where its poller has published, and that
what a connection has written carries the same rows as the ledger stretch its cursor has passed. `overcount` and
`base` are history the handler does not read.

**Late joins.** A join commits under a shared lock, so its id may be below ids already read. `LateRuns` adds that move to
the delivery machine, with the history of each poller and connection: which joins became visible at or below what it had
read, and how many joins each row announced again. Two rules are kept by every move: one about all rows but joins
(`LateJoinRuns`), one about the joins (`LateCountRuns`). `RowLockLogs` shows that the transactions under the row lock make
the visible log grow by just these moves, and `LiveRoom` adds a browser, whose history says the same of its head count.

**Ledger.** `Ledger.dfy` gives each transaction as a function of the tables; `LedgerStore.Store` runs it in place, in
the source's order, and is proved equal to it. `LedgerChanges` reduces all transactions to five changes; each table's
rule is proved against those. `LedgerTheorems` quantifies over every run from a new session. `LedgerOutcomes` and
`LedgerDeadlines` say of each transaction, in a reachable ledger and by rows and columns alone, what it answers and leaves;
`LedgerResults` counts answers by the answers themselves.

**Where the code does less than one might expect**, the project shows an execution and proves the exact condition:

| what | execution | exact condition |
|---|---|---|
| joins announced twice | `JoinsCanBeAnnouncedTwice` | `DeltasExactIff` |
| joins a reader misses | `AJoinCanBeMissed` | `MissedExactly` |
| results that miss an answer | `ARepeatableReadResultCanBeShort` | `RepeatableReadClose` |
| a head count taken back | `AnAnswerCanTakeAJoinBack` | `CommandExactIff` |
| a refresh lost | `ACallCanBeLost` | `AtRestLostIff` |
| reports that contradict scores | `AReportCanContradictAScore` | `AlwaysAgreeIff` |
| a late join missing on the screen | `ALateJoinCanBeMissing` | `HeadCountAccounted` |
| retried joins refused | `ARetriedJoinCanBeRefused` | `RetriedJoin` |
| retried answers refused | `ARetriedAnswerCanBeRefused` | `RetriedAnswer` |
| plans refused | `GoingOnFromADraft`, `StartingOver` | `NavigationAcceptedIff` |
| stored terms that retokenize differently | `RetokenizingCanChangeATerm` | `RetokenizeStableIff` |
| a gap in slide positions | `ADeckCanHaveAGap` | `PackedIff` |

**Assumptions.** Event ids come from one increasing sequence that starts at 1. Rows of a session's tables are not
deleted while it lives, so a generated row id is the row's position. The credential is a collision-free hash of the
request id. Times are whole microseconds passed in by the caller; only `RowLocks.dfy` assumes that a deadline once
passed stays passed. The schema's uniqueness and check constraints are those of
`apps/api/internal/platform/migrate/sql`. Points and the speed bonus are exact integers and quotients cut toward zero.
Normalisation, lower-casing and letter classes are parameters.

## Model

| member | source | states |
|---|---|---|
| EventLog.CompactEvents | apps/api/internal/live/event_broker.go:207-230 | The one-pass loop with its pending row computes `Compact`: every maximal run of joins becomes its last row carrying the run's length. |
| EventLog.CompactTiles | apps/api/internal/live/event_broker.go:207-230 | Compacting any stretch of the ledger gives rows that account for exactly that stretch, left to right, nothing left out and nothing twice. |
| EventLog.CompactMergesRuns | apps/api/internal/live/event_broker.go:207-230 | No two joins are left side by side: each compacted join stands for a whole run. |
| EventStream.CompactionKeepsContent | apps/api/internal/live/event_broker.go:207-230 | Compaction leaves all other rows as they were and in order, and keeps the number of joins. |
| EventLog.PageAdvances | apps/api/internal/live/postgres_store.go:892-910 | Moving a cursor to the last id of a page steps over exactly the rows of that page. |
| EventLog.PageIs | apps/api/internal/live/postgres_store.go:892-910 | A page is the first two hundred rows with an id above the cursor, in order, or all of them if they are fewer. |
| EventLog.ShortPageExhausts | apps/api/internal/live/event_broker.go:168-170 | A page shorter than 200 leaves nothing of the ledger behind. |
| BrokerModel.AddSubscriberValid | apps/api/internal/live/event_broker.go:114-126 | A new subscriber keeps the broker's rule (see BrokerAlwaysValid). |
| BrokerModel.BeginInitValid | apps/api/internal/live/event_broker.go:87-90 | Starting an initialisation keeps the rule. |
| BrokerModel.FinishInitValid | apps/api/internal/live/event_broker.go:91-112 | Finishing one keeps the rule, whether the database failed, the broker was closed meanwhile, or the stream goes on the air. |
| BrokerModel.PublishValid | apps/api/internal/live/event_broker.go:232-251 | Publishing keeps the rule, with any set of full subscribers dropped and the stream retired with its last one. |
| BrokerModel.FailValid | apps/api/internal/live/event_broker.go:176-189 | Failing a stream keeps the rule, also when another stream has taken its place. |
| BrokerModel.UnsubscribeValid | apps/api/internal/live/event_broker.go:283-297 | Unsubscribing keeps the rule, also twice or from a stream already gone. |
| BrokerModel.ShutdownValid | apps/api/internal/live/event_broker.go:193-205 | Close keeps the rule and leaves nothing registered. |
| BrokerModel.PublishSends | apps/api/internal/live/event_broker.go:232-251 | Publishing touches the stream's own open channels only: each gets the row at its end, or is closed. |
| BrokerModel.PublishTells | apps/api/internal/live/event_broker.go:232-251 | Each open channel of the stream gets the row if it has room and is closed if it is full; every other channel stays as it is. |
| BrokerModel.FailHushes | apps/api/internal/live/event_broker.go:176-189 | Failing a stream closes exactly its channels, with what is buffered in them left to read. |
| BrokerModel.UnsubscribeHushes | apps/api/internal/live/event_broker.go:283-297 | Unsubscribing closes exactly the one channel, if it is the stream's. |
| EventBroker.EventBroker.SubscribeEnter | apps/api/internal/live/event_broker.go:65-91 | What one pass of Subscribe's loop does under the mutex: refuse after Close, join a running stream, wait, or start the one initialisation. |
| EventBroker.EventBroker.InitializationDone | apps/api/internal/live/event_broker.go:91-112 | The rest of Subscribe: waiters are released and either nothing is registered or the stream with its first subscriber is. |
| EventBroker.EventBroker.Publish | apps/api/internal/live/event_broker.go:232-251 | The loop over subscribers in any order has the effect of `Publish` on every field; no send on a closed channel, no second close. |
| EventBroker.EventBroker.Fail | apps/api/internal/live/event_broker.go:176-189 | Every subscriber is closed once and the stream goes off the air, if it is still the registered one. |
| EventBroker.EventBroker.Unsubscribe | apps/api/internal/live/event_broker.go:283-297 | One subscriber is closed once and the last one takes the stream with it. |
| EventBroker.EventBroker.Close | apps/api/internal/live/event_broker.go:193-205 | The loop over sessions in any order closes every open channel exactly once and empties the registry. |
| EventBroker.EventBroker.Tick | apps/api/internal/live/event_broker.go:133-172 | One tick reads the growing ledger page after page until a page is short or a read fails: every channel of the stream still open has been sent every row from the old cursor to the new one, each accounted for once; a failed read or reconciliation then takes the stream off the air, and nothing else does. |
| EventStream.Handler.ReplayTurn | apps/api/internal/live/http.go:347-363 | One turn writes the compacted page, for a participant without its activity results, and steps over it; it is the Replay step of the delivery machine for whichever of its connections stands where the handler stands. |
| EventStream.Handler.Replay | apps/api/internal/live/http.go:347-363 | Over a ledger that grows between turns, until a page is short or a read fails: against the ledger at any later time, the visible rows the cursor has passed are written once and the joins announced once; when the loop ends by itself the cursor has passed all its last read could see. |
| EventStream.Handler.Receive | apps/api/internal/live/http.go:374-386 | A row at or below the cursor is skipped; any other moves the cursor and is written, unless it is an activity result and the viewer a participant; this is the Receive step of the delivery machine. |
| DeliverySteps.StepKeeps | apps/api/internal/live/event_broker.go:65-251 | Every step of the protocol (append, initialise, subscribe, poll, publish, replay, receive, write, leave, fail, close), in any interleaving, keeps the delivery invariant. |
| DeliveryTheorems.BrokerAlwaysValid | apps/api/internal/live/event_broker.go:65-205 | In every reachable state no session is both registered and initialising, a stream serves somebody exactly while registered, a channel is open exactly while listed, and nothing is registered after Close. |
| DeliveryTheorems.NoGapNoRepeat | apps/api/internal/live/http.go:346-387 | For every interleaving, what a connection has written, join counts aside, is a prefix of the ledger past its Last-Event-ID as its role may see it, with strictly increasing ids; overflow, failure and shutdown only cut it short. |
| DeliveryTheorems.NothingWithheld | apps/api/internal/live/http.go:346-387 | A live connection whose channel is open and whose pipeline is drained has written all of it. |
| DeliveryTheorems.SomethingCanMove | apps/api/internal/live/event_broker.go:143-172 | Until then a write, a receipt, a publication or a poll is always possible. |
| DeliveryTheorems.JoinsConserved | apps/api/internal/live/http.go:347-381 | Joins announced on a connection are the joins it has passed plus those announced twice. |
| DeliveryTheorems.DeltasExactIff | apps/api/internal/live/event_broker.go:219-223 | Over any run the joins announced are at least the joins passed, with equality if and only if the connection never took a compacted run holding an id at or below its cursor. |
| DeliveryTheorems.ResumeIsSeamless | apps/api/internal/live/http.go:346-363 | A connection that resumes from the last id the previous one wrote goes on exactly where that one was cut. |
| DeliveryExample.JoinsCanBeAnnouncedTwice | apps/api/internal/live/http.go:378-381 | A run in which two people join, on a log a session really produces, and a connection announces three. |
| LateJoinRuns.NoGapNoRepeat | apps/api/internal/live/http.go:346-387 | The same prefix statement when joins may become visible late, below ids already read, at any time and in any number: nothing but joins can be missing. |
| LateJoinRuns.NothingWithheld | apps/api/internal/live/http.go:346-387 | Also then a drained live connection has written every row due but joins. |
| LateJoinRuns.ResumeIsSeamless | apps/api/internal/live/http.go:346-363 | Also then a connection that resumes from the last id written goes on exactly where the previous one was cut. |
| LateCountRuns.AlwaysLaid | apps/api/internal/live/http.go:346-387 | In every run, late joins included, each row a connection has put out carries an id and a version of its session's log and announces exactly the joins between the row before it and itself, but for those that became visible late, and those it announces again. |
| LateCountRuns.JoinsAccounted | apps/api/internal/live/event_broker.go:143-172 | In every run the joins announced on a connection fall short of those its cursor has passed by exactly the joins that became visible at or below what had been read for it, and are ahead by exactly those announced again. |
| DeliveryRoles.NoResultReachesParticipants | apps/api/internal/live/http.go:300-306 | In every run, late joins included, no activity result is ever written to a participant's connection, nor waits to be. |
| DeliveryRoles.ChangesArriveInOrder | apps/api/internal/live/http.go:346-387 | The creation, the changes of state and the rankings written to a connection, and to a manager's the results too, are the first of those in its log past its Last-Event-ID, in order. |
| DeliveryRoles.DrainedHasWrittenAll | apps/api/internal/live/http.go:346-387 | A drained live connection has written all of them. |
| DeliveryRoles.ParticipantsAreToldChangesOnly | apps/api/internal/live/http.go:300-306 | In every reachable state of the delivery machine a participant's connection holds no result, and what it has written beside joins is the first changes due, in order. |
| LedgerChanges.EdgeKeepsShape | apps/api/internal/live/state.go:31-67 | Every command the guard admits keeps the session columns fitting together and is an edge of the coarse state graph. |
| LedgerChanges.TransitionsAreMade | apps/api/internal/live/state.go:31-41 | Every transition of the coarse graph is made by some command between columns that fit together. |
| LedgerStore.Store.constructor | apps/api/internal/live/postgres_store.go:45-93 | A new session: draft, version 1, no item, one session.created row. |
| LedgerStore.Store.Join | apps/api/internal/live/postgres_store.go:117-176 | The branches in order: retry, closed session, restore of a disconnected name, name taken, credential taken, new row with its presence event. |
| LedgerStore.Store.SetParticipantPresence | apps/api/internal/live/postgres_store.go:177-180 | Only the disconnected mark of the credential's participant changes. |
| LedgerStore.Store.ApplyAction | apps/api/internal/live/postgres_store.go:181-356 | Retry, host, version, action and transition checks in order, then the update, the command row and the events, or nothing. |
| LedgerStore.Store.Columns | apps/api/internal/live/postgres_store.go:224-300 | The new session columns of each action, or why the slide cannot be presented. |
| LedgerStore.Store.ReconcileDeadline | apps/api/internal/live/postgres_store.go:362-417 | An accepting activity past its deadline is closed once, with its state change and its result logged; otherwise nothing happens. |
| LedgerStore.Store.ActivityResultOf | apps/api/internal/live/postgres_store.go:960-1053 | One pass over the answers computes `ResultOf`, which ResultIsTrue says is true of them. |
| LedgerStore.Store.SubmitAnswer | apps/api/internal/live/postgres_store.go:419-527 | Credential, retry, session, definition and response checks in order; an accepted answer is stored and its points added to the score in one step. |
| LedgerStore.Store.ScoreAnswer | apps/api/internal/live/postgres_store.go:478-500 | Points only for scored choice activities, from the positions whose option id is listed as correct. |
| LedgerChanges.NextChanges | apps/api/internal/live/postgres_store.go:117-527 | Every transaction is one of five changes to the tables, each allowed by the rows already there. |
| LedgerTheorems.NextKeeps | apps/api/internal/live/postgres_store.go:117-527 | Every transaction keeps the ledger's invariant over all tables together. |
| LedgerOutcomes.CommandOutcome | apps/api/internal/live/postgres_store.go:181-356 | In every reachable ledger a new command is refused, in this order, to anybody but the host, at another version, out of order for the phase, or for a slide that cannot come on stage; otherwise it leaves exactly these columns (an activity ends its duration after now), the next version, and the rows that go with it. |
| LedgerOutcomes.DeadlineOutcome | apps/api/internal/live/postgres_store.go:362-417 | A reconciliation closes the activity if and only if answers are taken and the deadline is not after now; it logs the change and a true result, and otherwise changes nothing. |
| LedgerOutcomes.JoinOutcome | apps/api/internal/live/postgres_store.go:117-176 | By request id, name, presence and state: who comes back, who is refused and how, whose row is restored with its score, and who gets a new row and is announced. |
| LedgerOutcomes.PresenceOutcome | apps/api/internal/live/postgres_store.go:177-180 | Exactly the row the credential names is marked, and nothing else changes. |
| LedgerDeadlines.SubmitOutcome | apps/api/internal/live/postgres_store.go:419-527 | A new submission is refused from the deadline on and while the item takes no answers, if it is no valid answer, or if there is one; otherwise it is stored with points for exactly the time left, added to the score. |
| LedgerDeadlines.TooLate | apps/api/internal/live/postgres_store.go:454-467 | Whoever submits at or after the deadline in the session row is refused, and nothing changes. |
| LedgerDeadlines.EveryAnswerWasInTime | apps/api/internal/live/postgres_store.go:448-512 | In every run each answer stored was brought by one submission, before the deadline then in the row, and carries the points for the time then left. |
| LedgerTheorems.SessionColumnsFit | apps/api/internal/live/postgres_store.go:224-314 | In every reachable state: an item exactly while presenting, a phase exactly for an activity, a deadline exactly while accepting, the ranking only after the reveal. |
| LedgerTheorems.StepsFollowTheGraph | apps/api/internal/live/state.go:31-67 | A transaction leaves the session columns alone or raises the version by one along a CanTransition edge; no session ends while answers are taken; no result to be logged is ever missing. |
| LedgerTheorems.EveryActivityRunsItsCourse | apps/api/internal/live/state.go:43-67 | Between presenting an activity and presenting the next item the log shows exactly one close, then exactly one reveal, and otherwise only rankings. |
| LedgerTheorems.LogTellsTheStory | apps/api/internal/live/postgres_store.go:302-350 | The log's session views are a walk through the lifecycle graph from creation to the present columns, one view a version. |
| LedgerTheorems.VersionsFollowIds | apps/api/internal/live/postgres_store.go:934-942 | Along the log ids strictly increase, versions never decrease, and none is ahead of the session. |
| LedgerTheorems.CountsAgree | apps/api/internal/live/postgres_store.go:159-175 | Participants are as many as the presence events; version minus one is commands plus deadline closes, and one less than the views logged. |
| LedgerTheorems.OneEffectPerRequest | apps/api/internal/live/postgres_store.go:181-218 | No two recorded commands share a request id; no two participants share a name or a credential. |
| LedgerTheorems.RetriedCommand | apps/api/internal/live/postgres_store.go:181-218 | After any run, also after the session ended and whatever the retry asks for, a retried request id gets the recorded answer and changes nothing. |
| LedgerTheorems.PeekThenLockIsAtomic | apps/api/internal/live/postgres_store.go:184-216 | Looking the request up before the lock and again after it equals one atomic command, whatever commits in between. |
| LedgerTheorems.ScoresAddUp | apps/api/internal/live/postgres_store.go:503-526 | Every score is the sum of the points of the participant's answers; nobody answers an item or uses a request id twice. |
| LedgerTheorems.RetriedAnswer | apps/api/internal/live/postgres_store.go:427-445 | After any run a retried submission gets its recorded receipt, with nothing changed, if and only if the credential it is sent with still names the participant. |
| LedgerTheorems.RestoreKeepsIdentity | apps/api/internal/live/postgres_store.go:137-158 | A restoring join keeps row, name, score, answers, log and head count, and only ever takes over a disconnected row. |
| LedgerTheorems.ConnectedNameIsRefused | apps/api/internal/live/postgres_store.go:144-168 | A name held by somebody connected is refused to everybody else, and nothing changes. |
| LedgerTheorems.PresenceDecidesTakeover | apps/api/internal/live/postgres_store.go:144-180 | After a stream closed, its participant's name is restored to whoever joins with it; while one is open, it is refused. |
| LedgerTheorems.RetriedJoin | apps/api/internal/live/postgres_store.go:125-158 | A retried join returns the original participant unchanged if and only if the participant's row still holds that request id. |
| LedgerExample.ARetriedJoinCanBeRefused | apps/api/internal/live/postgres_store.go:125-169 | A run in which a join is answered, its participant rejoins with another request id, and the first request, sent again, is refused. |
| LedgerExample.ARetriedAnswerCanBeRefused | apps/api/internal/live/postgres_store.go:427-445 | A run in which an answer is accepted, its participant rejoins and so gets another credential, and the answer, sent again with the first, is refused. |
| LedgerTheorems.CloseLogsTheResult | apps/api/internal/live/postgres_store.go:332-340 | Whatever takes an activity out of accepting, command or deadline, logs the result of every answer stored. |
| LedgerTheorems.LoggedResultStands | apps/api/internal/live/postgres_store.go:332-340 | The result logged at the close equals the result recomputed in every later state until the item is presented again. |
| LedgerResults.ResultIsTrue | apps/api/internal/live/postgres_store.go:960-1053 | In every reachable ledger an activity's result counts every answer to it, each option by the answers that chose it, each term by the answers that use it; at most a hundred terms are listed, and none is left off that was used more than one listed. |
| LedgerResults.LoggedResultIsTrue | apps/api/internal/live/postgres_store.go:332-340 | While answers are not being taken, that holds of the result last logged. |
| LedgerAnswers.AnswersInRange | apps/api/internal/live/postgres_store.go:478-512 | Every stored answer belongs to a decodable activity and earned between nothing and its maximum. |
| LedgerAnswers.ScoresNonNegative | apps/api/internal/live/postgres_store.go:503-512 | Scores never go below zero, so the table's check on them never fires. |
| LedgerAnswers.LoggedCountsAreTrue | apps/api/internal/live/postgres_store.go:960-1005 | While answers are not being taken, the result last logged counts every answer, and each option by the number of answers that chose it. |
| RowLocks.StepKeeps | apps/api/internal/live/postgres_store.go:133-175 | With ids drawn before commit, every step of joins, answers, commands, deadline closes, commits and rollbacks under the row lock keeps the visibility invariant. |
| RowLockTheorems.NoChangeIsSkipped | apps/api/internal/live/postgres_store.go:934-942 | A reader that jumps its cursor to the last id seen never steps over a state change, a result or a ranking. |
| RowLockTheorems.OnlyJoinsArriveLate | apps/api/internal/live/postgres_store.go:133-175 | Whatever becomes visible below a row already visible is a join with an id of its own. |
| RowLockTheorems.VersionsFollowIds | apps/api/internal/live/postgres_store.go:302-350 | However transactions interleave, visible rows carry versions that never decrease with the id. |
| RowLockTheorems.ChangeTakesEffect | apps/api/internal/live/postgres_store.go:181-356 | When a change commits it still meets the state it was guarded by, whatever was under way; the columns move as the command says and exactly its own rows become visible, at the next version. |
| RowLockTheorems.MissedExactly | apps/api/internal/live/event_broker.go:143-151 | A row is missed exactly when it commits at or below the reader's cursor, and no other step adds to or takes from what is missed. |
| RowLockLogs.LogEvolves | apps/api/internal/live/postgres_store.go:133-175 | Every step of the transactions leaves the visible log alone, or makes it grow by rows at its end and by joins that become visible late, one after the other. |
| RowLockLogs.RunEvolves | apps/api/internal/live/postgres_store.go:117-356 | So the visible log of every run from a session's creation comes about from nothing by appended rows and late joins alone. |
| RowLockLogs.VersionsFollowLog | apps/api/internal/live/postgres_store.go:302-350 | Along the visible log versions never decrease. |
| RowLockLogs.ShowingIsAMove | apps/api/internal/live/event_broker.go:143-151 | Each such arrival is a move of the delivery protocol, wherever its pollers and connections stand. |
| RowLockTheorems.ReadCommittedCloseIsComplete | apps/api/internal/live/postgres_store.go:358-417 | A READ COMMITTED close logs every answer committed to the item, then and until answers are taken again. |
| RowLockSnapshots.RepeatableReadClose | apps/api/internal/live/postgres_store.go:529-537 | A deadline close inside a REPEATABLE READ snapshot logs exactly the answers of its snapshot; the result is complete if and only if no step of the run between snapshot and close commits an answer, and every answer that does was being submitted when the snapshot was taken. |
| RowLockExamples.AJoinCanBeMissed | apps/api/internal/live/postgres_store.go:133-175 | A run in which a join commits below a reader's cursor and is never read. |
| RowLockExamples.ARepeatableReadResultCanBeShort | apps/api/internal/live/postgres_store.go:529-537 | A run in which one answer is stored and the result logged counts none. |
| Definitions.ValidateOptions | apps/api/internal/presentations/activity_definition.go:239-265 | The loop over the options accepts exactly two to a hundred valid options with trimmed ids and orders all different. |
| Definitions.ValidateCorrectIds | apps/api/internal/presentations/activity_definition.go:272-287 | The loop over the correct ids accepts exactly a non-empty list of different ids among the trimmed option ids, a single one for single choice. |
| Definitions.ValidateChoice | apps/api/internal/presentations/activity_definition.go:228-317 | The whole choice validator decides `ChoiceValid`. |
| Definitions.OrdersAreAPermutation | apps/api/internal/presentations/activity_definition.go:246-264 | Accepted orders are 1 to n with no number missing. |
| Definitions.ChoiceLimits | apps/api/internal/presentations/activity_definition.go:228-317 | An accepted choice activity has two to a hundred options with different trimmed ids, keeps the limits on its texts, names as correct only trimmed ids of its options, and has points only with correct ones. |
| Definitions.TrimSpaceIs | apps/api/internal/presentations/activity_definition.go:246-252 | Trimming takes off all space at both ends and nothing else. |
| Scoring.Score | apps/api/internal/live/scoring.go:17-58 | The score depends only on the set of options selected, and for a validated question is what that set has earned (WorthIsAwarded). |
| Scoring.WorthIsAwarded | apps/api/internal/live/scoring.go:37-57 | With as many mistakes as hits, or any mistake without partial credit, nothing; otherwise the full points times hits less mistakes over the correct options, cut to a whole number; the full points being the maximum, or with a bonus the minimum and a share of the rest as large as the share of time left, cut likewise. |
| Scoring.CorrectEarnsFull | apps/api/internal/live/scoring.go:46-57 | Exactly the correct options earn the full points, so with a bonus the minimum at the deadline and the maximum at the start. |
| Scoring.WorthInRange | apps/api/internal/live/scoring.go:17-58 | For validated points policies the score lies between 0 and the maximum, and below the base. |
| Scoring.FullIffCorrect | apps/api/internal/live/scoring.go:37-57 | With a positive base the full base is earned if and only if exactly the correct options are selected. |
| Scoring.EarlierIsNoWorse | apps/api/internal/live/scoring.go:46-55 | More time left never scores less. |
| Scoring.OneMoreOption | apps/api/internal/live/scoring.go:26-42 | Adding a wrong option never scores more, adding a correct one never less, with or without partial credit. |
| WordCloud.WordCloudTokens | apps/api/internal/live/activity_response.go:94-125 | The rune loop with its buffer computes `Tokens`. |
| WordCloud.TokensAreTerms | apps/api/internal/live/activity_response.go:98-125 | Every term is non-empty, made of settled characters, and begins and ends with none of those trimmed off. |
| WordCloud.NoLetterIsLost | apps/api/internal/live/activity_response.go:94-125 | The terms hold all letters, numbers and marks of the folded text, in order, with the two Persian letters in place. |
| WordCloud.WordsStayTogether | apps/api/internal/live/activity_response.go:107-125 | A word with apostrophes, straight or curly, joiners or non-joiners inside is one term. |
| WordCloud.RetokenizeIsStable | apps/api/internal/live/activity_response.go:94-125 | Tokenizing the terms joined by spaces gives the same terms as soon as folding leaves that text alone. |
| WordCloud.RetokenizeFoldedOnce | apps/api/internal/live/activity_response.go:94-139 | This holds for every text whose folded form folding leaves alone, with folding stable under cutting, letter replacement and joining. |
| WordCloud.RetokenizeStableIff | apps/api/internal/live/activity_response.go:94-139 | With a space that separates terms through folding, and a text whose terms fold to terms, retokenizing gives the same terms if and only if folding leaves every one of them alone. |
| WordCloudExample.RetokenizingCanChangeATerm | apps/api/internal/live/activity_response.go:94-139 | J with a combining caron: normalising and lower-casing are each idempotent, the condition's hypotheses hold, and retokenizing the stored term gives another one. |
| WordCloudExample.OneHalfIsCovered | apps/api/internal/live/activity_response.go:94-139 | One half is a term that folds to no term; its text meets the hypotheses nevertheless, and its terms repeat. |
| WordCloud.UniqueWordCloudTerms | apps/api/internal/live/activity_response.go:141-152 | The loop with its seen map computes the first occurrences. |
| WordCloud.FirstOccurrencesInOrder | apps/api/internal/live/activity_response.go:141-152 | Every term is kept, once, in the order of first use. |
| Responses.NormalizeActivityResponse | apps/api/internal/live/activity_response.go:28-92 | The checks in order: size, body, indexes in range and different, one for single choice; text length and word count. |
| Responses.StoredTerms | apps/api/internal/live/activity_response.go:69-88 | Stored text is the trimmed normalised one within its limit; stored terms are between one and max_words, different, non-empty, the text's own, in order of first use. |
| Responses.ChoiceAcceptedIff | apps/api/internal/live/activity_response.go:36-62 | A choice answer is accepted if and only if it is within the size limit and chooses different options there are, at least one, and just one where only one may be chosen; it is stored as it came. |
| Tallies.TallyCounts | apps/api/internal/live/postgres_store.go:979-1003 | Grouped counts are multiplicities, with no row for values that do not occur. |
| Tallies.TopTermsAreTop | apps/api/internal/live/postgres_store.go:1005-1040 | At most a hundred terms are listed, once each with their true counts, most used first and alphabetically where used as often; a term is left off only with a hundred listed, all of them ahead of it in that order. |
| Reports.EvaluateResponse | apps/api/internal/reports/model.go:149-190 | The flag is set exactly if every index is in range and the ids selected are the ids listed as correct. |
| Reports.AlwaysAgreeIff | apps/api/internal/reports/model.go:160-189 | For a valid definition the flag agrees with the positions scoring uses on every accepted answer if and only if the correct ids are all matched letter for letter by options, or none is. |
| Reports.AgreeIff | apps/api/internal/reports/model.go:160-189 | For one answer they disagree exactly when some but not all correct ids are matched and the answer is the matched ones. |
| ReportsExample.AReportCanContradictAScore | apps/api/internal/reports/model.go:160-189 | A valid definition with one id matched and one not, and an accepted answer that earns full points and is reported as wrong. |
| Reports.TrimmedIdsMatch | apps/api/internal/presentations/activity_definition.go:245-277 | Ids without surrounding space are always matched. |
| Reports.FlaggedIffFullPoints | apps/api/internal/reports/model.go:149-190 | A report flags an answer as correct exactly when the live session gave it full points for its time. |
| Reports.ChoiceResultPayload | apps/api/internal/reports/model.go:192-208 | Counts by position become counts by option id, zeros filled in and stray positions dropped, in whatever order the map is walked. |
| Reports.LiveCountIsChoosers | apps/api/internal/live/postgres_store.go:979-1003 | The live count of a position is the number of answers that chose it. |
| LiveClient.LiveRuntime.Store | apps/web/src/modules/live/runtime/LiveRuntime.ts:308-324 | A snapshot older than the cursor in either component is refused; any other replaces snapshot and cursor. |
| LiveClient.LiveRuntime.HandleEvent | apps/web/src/modules/live/runtime/LiveRuntime.ts:453-493 | An event with a greater id and no older version moves the cursor to both; a presence event adds its delta to the count, never below zero; a result replaces the result; everything else stays. Any other event changes nothing. |
| LiveClient.LiveRuntime.SelectSession | apps/web/src/modules/live/runtime/LiveRuntime.ts:280-306 | Choosing another session clears snapshot and cursor; choosing the same one changes nothing. |
| LiveClientRuns.CommandExactIff | apps/web/src/modules/live/runtime/LiveRuntime.ts:681-712 | A command sent from an exact head count is answered, after any steps whatever, with an exact count if and only if the cursor passed no join in between; the answer leaves the cursor alone. |
| LiveClientRuns.AcceptsExactlyAbove | apps/web/src/modules/live/runtime/protocol.ts:80-89 | Against a log with versions that never decrease, exactly the rows with an id above the cursor are accepted. |
| LiveClientRuns.CursorNeverGoesBack | apps/web/src/modules/live/runtime/protocol.ts:91-111 | Neither component of the cursor ever decreases. |
| LiveClientRuns.StaysExactIff | apps/web/src/modules/live/runtime/LiveRuntime.ts:453-481 | An exact head count stays exact if and only if the step is no straddling run and no answer to a command while which was in flight the cursor passed a join. |
| LiveClientRuns.AlwaysExactIff | apps/web/src/modules/live/runtime/LiveRuntime.ts:308-481 | Over a whole run the head count is exact at every moment if and only if every step is of that kind. |
| LiveClientRuns.CountIsExact | apps/web/src/modules/live/runtime/LiveRuntime.ts:308-481 | Over any such run the head count shown is the number of joins with an id up to the cursor, and the cursor only moves forward. |
| LiveClientRuns.FetchMakesExact | apps/web/src/modules/live/runtime/LiveRuntime.ts:308-324 | Storing a snapshot puts a wrong count right. |
| LiveClientExample.AnAnswerCanTakeAJoinBack | apps/web/src/modules/live/runtime/LiveRuntime.ts:681-712 | A run from the selection of a session, on a log a session really produces, in which a command's answer undoes a join already counted. |
| LiveRefresh.AtRestLostIff | apps/web/src/modules/live/runtime/LiveRuntime.ts:387-451 | Whenever the refresh loop has come to rest its last snapshot was accepted, and a call is lost if and only if somebody called between the loop's last test and the clearing of the promise. |
| LiveRefresh.ACallCanBeLost | apps/web/src/modules/live/runtime/LiveRuntime.ts:387-451 | A run from the start in which the second of two calls is lost. |
| LiveRefresh.NothingLost | apps/web/src/modules/live/runtime/LiveRuntime.ts:387-451 | If no call falls between the loop's last test and the clearing of the promise, no call is lost. |
| LivePlans.SendPlan | apps/web/src/modules/live/runtime/LiveRuntime.ts:727-735 | The loop over a plan's actions runs it against the store, each command expecting the version the one before returned, up to the first refusal. |
| LivePlans.NavigationAcceptedIff | apps/web/src/modules/live/runtime/protocol.ts:118-159 | Without interference a navigation plan is accepted command by command if and only if it does not present from a draft by "next" or from the middle of an activity by "start", nor a slide that cannot come on stage. |
| LivePlansExample.GoingOnFromADraft | apps/web/src/modules/live/runtime/protocol.ts:153-159 | A new session refuses "next" with a slide that could be presented. |
| LivePlansExample.StartingOver | apps/web/src/modules/live/runtime/protocol.ts:131-136 | A session taking answers refuses "start" with a slide that could be presented. |
| LivePlans.EndAcceptedIff | apps/web/src/modules/live/runtime/protocol.ts:161-169 | The end plan is accepted if and only if the session is not a draft, and leaves it ended. |
| LivePlans.NavigationGetsThere | apps/web/src/modules/live/runtime/protocol.ts:118-159 | An accepted plan leads where it is meant to: closed and revealed, the slide on stage, the lobby opened, the ranking shown; and where there is nothing to do, nothing changes. |
| Roster.ListingSorts | apps/api/internal/live/postgres_store.go:803-840 | The listing is the table, who joined first first and the smaller id where two joined at once; by score, the higher score before that. |
| Roster.PageFromAnyCursor | apps/api/internal/live/service.go:119-142 | A page from any decodable cursor, a listed row's key or not, is the rows past it in listing order, up to the limit, and says truly whether any are left. |
| Roster.PageFrom | apps/api/internal/live/service.go:119-142 | From the start or from a cursor a page handed on, the page is the next rows of the listing, ties in score included, and hands on the cursor for the rest. |
| Roster.Follow | apps/api/internal/live/service.go:119-142 | Following next_cursor from the start yields the whole listing, each row once, for any limit, and ends. |
| Roster.RanksAgree | apps/api/internal/live/postgres_store.go:803-822 | The rank a page shows is one more than the number of rows that scored strictly more, which is the rank in the participant's snapshot. |
| Roster.Ranking | apps/api/internal/reports/postgres_store.go:444-554 | Somebody else's session is not found; a running session's ranking is one bounded slice without a next page, an ended one is paged like the roster; and every row carries one more than the number of strictly higher scores. |
| Slides.Deck.Shift | apps/api/internal/presentations/postgres_store.go:222-230 | A bulk move, row by row in any order, never breaks the uniqueness of positions and moves exactly the rows at or above the bound. |
| Slides.Deck.CreateSlide | apps/api/internal/presentations/postgres_store.go:199-239 | Inserts into the list; exactly the slides from there on are revised; otherwise the error and no change. |
| Slides.Deck.ReplaceSlide | apps/api/internal/presentations/postgres_store.go:241-324 | Moves one slide in the list; revisions rise for exactly the target and the slides that moved; only the target's content changes. |
| Slides.Deck.DeleteSlide | apps/api/internal/presentations/postgres_store.go:326-364 | Removes from the list; exactly the slides behind it are revised; otherwise the error and no change. |
| Slides.Deck.ReorderSlides | apps/api/internal/presentations/postgres_store.go:366-404 | The list becomes the given permutation with every revision raised, or nothing changes at all. |
| Slides.MakeRoom | apps/api/internal/presentations/postgres_store.go:298-300 | Appending, copying and assigning inserts the id at its position. |
| SlideRace.StepKeeps | apps/api/internal/presentations/postgres_store.go:199-364 | Every statement of a delete and a create on one deck, under row locks, the presentation lock and statement snapshots, in any interleaving, keeps the race's invariant. |
| SlideRace.PackedIff | apps/api/internal/presentations/postgres_store.go:326-364 | After any run of the two, commits and rollbacks included, the committed positions are 0 to n-1 if and only if not both have committed with the delete's snapshot before the create's commit and the create's lock before the delete's; then the new slide was put at the end and the last place before it is empty. |
| SlideRaceExample.ADeckCanHaveAGap | apps/api/internal/presentations/postgres_store.go:351-363 | A run of both that leaves positions 0 and 2. |
| LiveEndToEnd.LedgerIsServerLog | apps/api/internal/live/postgres_store.go:934-942 | The log of every reachable ledger is one the browser's cursor may rely on. |
| LiveEndToEnd.SnapshotIsHonest | apps/api/internal/live/postgres_store.go:606-620 | A consistent read of version, last event id and head count is honest about the log, then and after any further transactions. |
| LiveEndToEnd.ReplyIsLogged | apps/api/internal/live/postgres_store.go:302-356 | What an accepted command returns to the browser is a change in the log, then and after any further transactions. |
| LiveEndToEnd.DrainedConnectionKnowsTheRoom | apps/api/internal/live/http.go:346-387 | A drained connection has written exactly the log past its Last-Event-ID as its role may see it, and the joins it has announced, with those up to that id, are the participants in the table plus its repeats. |
| LiveRoom.StepKeeps | apps/web/src/modules/live/runtime/LiveRuntime.ts:308-541 | Every move of the servers and every connect, row, fetch, arrival, command and answer in one browser, interleaved in any order, keeps the invariant of both together. |
| LiveRoom.BrowserFollowsConnection | apps/web/src/modules/live/runtime/LiveRuntime.ts:507-541 | Whatever the browser fetches or sends in between and whatever the servers do, of the next row on its stream it accepts exactly one above its cursor, and then stands at or past it. |
| LiveRoom.HeadCountAccounted | apps/web/src/modules/live/runtime/LiveRuntime.ts:453-481 | In every reachable state of servers and browser the head count shown falls short of the joins the cursor has passed by exactly those its history lacks, and is ahead by exactly those it holds twice; it is exact if and only if these are as many. |
| LiveRoom.FetchedCount | apps/web/src/modules/live/runtime/LiveRuntime.ts:308-324 | A fetched snapshot that is stored shows all joins behind it but exactly those that became visible there after it was read. |
| LiveRoomCounts.StaysExactIff | apps/web/src/modules/live/runtime/LiveRuntime.ts:308-541 | An exact head count stays exact if and only if the step lets no join become visible behind the cursor, takes no row that repeats more or fewer joins than it passes over, stores no snapshot with a late join behind it, and answers no command whose captured count is off by the joins passed since. |
| LiveRoomCounts.AlwaysExactIff | apps/web/src/modules/live/runtime/LiveRuntime.ts:308-541 | Over any run of servers and browser from there on, the head count is exact at every moment if and only if every step is of that kind. |
| LiveRoomExample.ALateJoinCanBeMissing | apps/web/src/modules/live/runtime/LiveRuntime.ts:308-324 | A run from the selection of a session in which somebody has joined, the cursor is at the end of the log, and the head count shown is none. |

## Left out

- DeliveryTheorems.DeltasExactIff: counts joins over logs whose rows become visible in id order; LateCountRuns.JoinsAccounted counts them over all logs.
- EventBroker.EventBroker.Tick: the ledger may grow and reads may fail, but nobody subscribes or leaves during the tick; interleaved ticks are the Poll and PublishNext steps of the delivery machine.
- LiveRoom.HeadCountAccounted: one browser with one selected session; a fetched snapshot may arrive at any time and in any order, so the refresh loop of LiveRefresh is not repeated there.
- LiveClientRuns.CountIsExact: one selected session; what an answer that arrives after another session was selected does to that session's snapshot is not followed further.
- LivePlans.NavigationAcceptedIff: one reading of the clock for all commands of a plan.
- LiveRefresh.AtRestLostIff: a failing fetch rejects all callers of the loop and is not part of the loop's model.
- WordCloud.RetokenizeFoldedOnce: asks for folding that is stable under cutting and joining; the concrete Unicode tables are not part of this model.
- Tallies.TopTermsAreTop: ties in frequency are ordered by code point; the database's collation is not part of this model.
- Slides.Deck.ReorderSlides: asks for a list without repeats, which the handler checks before calling the store.
- Slides.Deck.DeleteSlide: each edit is one step; of the edits racing statement by statement only a delete with a create is modelled, in SlideRace, where deadlocks show as rollbacks and revisions are left out.
- LedgerStore.Store.ApplyAction: a database failure between statements is a rollback and not listed as an outcome.
- CreateSession, ResolveSession, authorisation of viewers, and deletion of sessions and old events.
- Snapshot contents beyond version, last event id, head count and rank; sanitising of items for participants.
- When streams announce a participant's presence: the announcement itself is a step, its timing is not part of this model.
- HTTP routing, cookies, rate limits, JSON and UUID syntax, metrics, heartbeats, reconnect back-off.
- The stage projection, participant answer controller and question timer of the browser, and all of identity.
- Floating-point rounding in the speed bonus and overflow of machine integers.
- Termination of a poller or a connection under a scheduler: only that something owed can always move is proved.
