# Catenary, verified

Catenary is an append-only message log with a sync protocol around it. This project
models the parts of it whose correctness is a claim about interleaved runs, and proves
those claims with Dafny.

| component | files |
|---|---|
| the log and its pages | `MessageLog` |
| the reference client's journal and catch-up | `ClientSync` |
| one device against log, listener, hub and socket | `SyncRun`, `SyncSteps`, `SyncTheorems`, `SyncReach`, `SyncProgress`, `SyncLive` |
| where that promise ends, exactly | `SyncLimits`, `SyncStale`, `SyncUnheard`, `SyncCounterexamples` |
| `SendMessage` as concurrent transactions | `SendPath`, `SendSteps`, `SendTheorems`, `SendAdmission` |
| the lock order of every writer | `LockOrder` |
| the refresh-token chain | `Credentials`, `RefreshServer`, `RefreshRun`, `RefreshSteps`, `RefreshTheorems`, `RefreshReach`, `RefreshLimits`, `RefreshExchange` |
| revocation racing attach | `Revocation`, `RevocationTheorems` |
| the hub | `Outbox`, `HubIndex`, `HubHistory`, `Hub`, `HubRevocation`, `ReadBurst` |
| how often the client asks | `Hold`, `Refused`, `Heartbeat` |
| the oracle | `Compare`, `CompareReport` |
| the link-preview limiter and cache | `Limiter`, `Cache` |

A protocol is a state machine whose steps are the critical sections of the source, and
what updates fields in place is a class. The two are tied: the client's methods are proved
against the functions the device machine steps by; the device machine takes the outbox
contract that the hub's methods are proved to meet as its own step; the hub, called as the
revocation machine steps, is proved to show its index throughout; and the refresh loop is
proved to be a run of the refresh machine.

`dafny verify dfyconfig.toml` checks everything.

## What the proofs found

Some promises do not hold of the code on every run. Each has a lemma that builds the failing
run for arbitrary messages, tokens or states, and a lemma that says exactly when the step at
fault is harmless. The theorems hold on every run in which it is.

- **A position outlives its epoch.** `catchUp` reads the epoch afresh for every request and
  keeps `next` from the page before (internal/client/client.go:1489-1522). A wipe between
  the two lets a page asked for from the old position land on the empty store, and the
  cursor then covers messages that were never fetched, for good: `StalePositionLosesMessages`,
  `RequestCoversIff`, `SkippedRowIsGone`, `GoneForGood`. No restore of the log is needed:
  `ready` carries a head read before attach, and a page that overtakes it is enough for the
  wipe. A position that has outlived one skips rows until all at or below it were sent again
  live (`StaleAskSkipsIff`), so a client that kept the epoch beside its position and went
  back to the cursor when they part would lose nothing: `FreshClientLosesNothing`.
- **The first subscription raises no gap.** Sockets are served while the listeners make
  their first connection (cmd/catenary/main.go:844-880), and only a later subscription
  raises a gap (internal/store/notify.go:322-341). A message that commits before that first
  LISTEN, to a session that has already caught up, is heard by nobody until the client next
  catches up; a revocation, until the listener next fails: `FirstSubscriptionLosesMessages`,
  `CommitForgetsIff`, `BootWindowForgetsARevocation`, `ForgottenForEver`. Every such commit,
  and no other, can be followed to a device at rest without the row: `LosableIff`.
- **A committed message may have no sender who knows.** A send whose COMMIT goes through with
  its answer lost returns an error (internal/store/messages.go:776-778), with both counters
  moved: `UntoldRowHasNoToldSender`, `ToldIff`. The row still has exactly one committer, and
  any later send under its key is answered with it: `EachRowHasOneSender`, `RetryIsAnswered`.
- **A collapse forgets abandoned requests.** An answered refresh clears the whole chain
  (internal/client/journal.go:288-293). A request abandoned earlier that the server
  processes after it leaves the live token one the journal cannot name, and outside the
  grace window the next refresh ends the device: `LateDeliveryStrandsTheDevice`,
  `LateStrandsIff`, `StrandedDeviceRevokesItself`.
- **A refused token is dialed once more.** The wait before a dial and the dial are apart
  (internal/client/client.go:663-686), and the upgrade re-checks nothing. A /sync that is
  refused in between, and one is sent beside every upgrade, lets the dial go out with a
  token known to be refused: `RefusedTokenIsDialed`. It is one dial and no more until the
  pair changes: `AtMostOneDialWhileRefused`.
- **The request after a first refusal may come early.** A token's first refusal that falls
  inside a hold already running writes no link, so the end of that hold, and not a new one,
  lets the next request go: `FirstRefusalIff`. So may the one after a refusal whose refresh
  could mint no proposal: nothing is written then, and the next /sync may go at once
  (internal/client/refresh.go:423-428): `ReactionSpacesIff`, `ProbesAreSpaced`.

Two smaller ones: a wall clock set back under the stamp can make the refused wait and the
refresh hold disagree once (`RefusalUnholdsIff`, `SetBackClockHolds`), and the empty string
as a cache key defeats the cache's bound (`PutIsBounded`, `EmptyKeyOverflows`).

## Reading the models

- Ids, tokens, devices and conversations are numbers. A message is its id, conversation,
  author, key and two ordinals; text, attachments and reader state do not take part.
- The device's conversations are fixed during a run and the log is never rolled back.
- A redial may land on an instance in any state; sends, receipts and other writers are
  steps of the log.
- Freshly minted tokens are new to everybody. Clocks, the network, the grace window, the
  order in which Go walks a map and the source of randomness are parameters or choices of
  the environment.
- `epoch` inside `Next`, `row` inside `Untold`, `used` in `RefreshRun` and the histories and
  counts in `Hold` and `Refused` are auxiliary: no step of the source reads them.
- In `LockOrder` a statement that writes several rows of one table is taken to lock them in
  ascending order, which the source leaves to Postgres: `OppositeInvalidationsDeadlock` says
  why it must.
- In `Limiter` time is counted in ticks, the clock reading times the rate, so that a refill
  is a difference; over reals this is the source's product distributed.

## Model

| member | source | states |
|---|---|---|
| `MessageLog.SyncIsExact` | internal/store/sync.go:139-196 | a page for `after` carries, in order, every visible message in `(after, high water]` and nothing else, and its high water never passes the head it scanned |
| `MessageLog.HasMoreIsExact` | internal/store/sync.go:162-196 | `has_more` is true if and only if a visible message lies above the page's high water |
| `MessageLog.PageIsFull` | internal/store/sync.go:130-150 | a page is at most 200 messages unless another number was asked for, never more than 500, and full unless it is the last |
| `MessageLog.PageRecords` | internal/store/sync.go:366-470 | the records of exactly its messages and of what was asked for besides ride on it |
| `MessageLog.PagesCompose` | internal/store/sync.go:139-196 | paging on over a log that has grown meanwhile loses and repeats nothing: two pages together are exactly the visible span up to the second cursor, and share no row |
| `ClientSync.RecordAllKeepsCount` | internal/client/client.go:1398-1414 | however many records land, each held id has been counted exactly once |
| `ClientSync.LandKeepsFaith` | internal/client/client.go:1376-1396 | landing a page keeps the store free of anything the log does not have just so, and the count honest |
| `ClientSync.LandHolds` | internal/client/client.go:1376-1414 | after a page a committed row is held if and only if it was held before or the page carried it |
| `ClientSync.Journal.Record` | internal/client/client.go:1401-1414 | recordLocked in place: by id, a new id is counted, a known one replaced |
| `ClientSync.Journal.Wipe` | internal/client/journal.go:447-454 | the discard in place: everything but the epoch is emptied, and the epoch moves |
| `ClientSync.Journal.LandPage` | internal/client/client.go:1376-1396 | the page loop in place: applied if and only if no wipe came since the request; then messages, records and a cursor that only rises |
| `ClientSync.Client.Trigger` | internal/client/client.go:857-865 | every trigger moves the generation a running catch-up must end after |
| `ClientSync.Client.TriggerOwed` | internal/client/client.go:1231-1234 | the second critical section of onReady and of a discarded frame pulls the trigger the first one owed |
| `ClientSync.Client.OnReady` | internal/client/client.go:1201-1213 | the first section of onReady: a head below the cursor wipes, and a trigger is owed |
| `ClientSync.Client.ApplyLive` | internal/client/client.go:1302-1329 | a live message is held by id and moves no cursor; one whose conversation or author is unknown is discarded and owes a trigger; a killed client changes nothing |
| `ClientSync.Client.ApplyConversation` | internal/client/client.go:1335-1358 | an introduced conversation is held from then on, unless the client was killed, and nothing else changes |
| `ClientSync.Client.ApplyUser` | internal/client/client.go:1335-1350 | an introduced user is held from then on, unless the client was killed, and nothing else changes |
| `ClientSync.Client.ReadGen` | internal/client/client.go:1490-1496 | which trigger a request is issued after |
| `ClientSync.Client.ReadCursor` | internal/client/client.go:1498-1504 | the epoch is read afresh, the position is `next` or the cursor |
| `ClientSync.Client.ApplyPage` | internal/client/client.go:1376-1396 | a page lands whole in its own epoch, or changes nothing; never after a kill |
| `ClientSync.Client.Decide` | internal/client/client.go:1515-1530 | catch-up ends only on a last page requested after the latest trigger |
| `ClientSync.Client.Perform` | internal/client/client.go:1201-1530 | any one critical section of the client, dispatched to its own method, is what the value model says it is, killed or not |
| `ClientSync.KilledClientIsInert` | internal/client/client.go:792-803 | after a kill, whatever sequence of acts the client's goroutines still perform leaves the journal as it was and ends no catch-up |
| `SyncSteps.CoreStep` | internal/client/client.go:1479-1535 | every step of log, listener, hub, socket and client that issues no request from beyond what is held keeps the store faithful, counted once and covered up to its cursor, and every page and position what it should be |
| `SyncSteps.StepAccounts` | internal/client/client.go:1295-1320 | a committed visible row that is held, or still owed by the catch-up or the server, stays so through every step whatsoever |
| `SyncSteps.CommitAccountsIff` | internal/store/notify.go:308-348 | a new row is accounted for if and only if its commit is heard: the instance has subscribed once, or the session has yet to set the client catching up, or the client will ask again |
| `SyncSteps.HandedKeeps` | internal/hub/hub.go:436-458 | under the outbox's contract frames are all on their way after a hand-over or the session is closing, and nothing already on its way is lost |
| `SyncSteps.InstanceAccounts` | internal/store/notify.go:308-348 | an outage owes the gap that follows it, and a subscription that raises none owed nothing |
| `SyncSteps.DeliverAccounts` | internal/hub/hub.go:478-611 | a notification taken off the queue is on its way to the session, or the session is going |
| `SyncSteps.SessionAccounts` | internal/api/socket.go:468-476 | attach before ready, and every other step of a session's life, leaves every row accounted for |
| `SyncSteps.RunKeepsInv` | internal/client/client.go:1479-1535 | over every safe run no committed visible row is ever unaccounted for |
| `SyncTheorems.NoLoss` | internal/client/client.go:1295-1320 | end to end: after any safe run with severs, redials, kills, outages, failed loads, boots and lost pages, a quiet device holds exactly the committed rows it may see, each counted once |
| `SyncTheorems.NeverSilentlyMissing` | internal/hub/hub.go:478-530 | after any safe run a missing row lies above the cursor and something that brings it is still owed |
| `SyncTheorems.CaughtUpHoldsAllBeforeTrigger` | internal/client/client.go:1477-1535 | caught up means that every visible row committed before the most recent trigger is held, whatever server, listener and socket do, over every run whose requests skipped nothing |
| `SyncTheorems.HeldIsRenderable` | internal/client/client.go:1295-1301 | over every run, safe or not, every message held has its conversation and its author held beside it |
| `SyncLive.IntroductionWorks` | internal/client/client.go:1295-1358 | a client that reads all frames of a fan-out holds what they introduce; it holds the message, with nothing owed, exactly when they or what it held before make the conversation and the author known, and owes itself a catch-up otherwise |
| `SyncLive.ArrivesLive` | internal/hub/hub.go:478-611 | to a device at rest that knows its conversation and author, or is introduced to them, a committed message can arrive by its notification alone: no trigger, no page, the cursor where it was |
| `MessageLog.SyncCarriesRecords` | internal/store/sync.go:366-374 | every message of a page comes with its conversation and its author |
| `SyncTheorems.CursorIsMonotone` | internal/client/client.go:1391-1394 | within an epoch the cursor never decreases, over any run, safe or not |
| `SyncTheorems.StepKeepsCursor` | internal/client/client.go:1201-1213 | only a page moves the cursor, and only a wipe lowers it, to nothing and into a new epoch |
| `SyncTheorems.AppliedOnlyInItsEpoch` | internal/client/client.go:1373-1381 | whatever happens while a request is out, its page is applied if and only if no wipe came in between |
| `SyncProgress.PagesReachQuiet` | internal/client/client.go:1477-1535 | a catch-up that nothing disturbs ends: each page but the last raises the position, and the last one is caught up |
| `SyncProgress.RelaunchRecovers` | internal/client/client.go:613-640 | no dead end: after any run whose requests skipped nothing, unheard commits included, a relaunch on a healthy instance has a safe run to a quiet state that holds every committed visible row |
| `SyncLimits.LandCoversIff` | internal/client/client.go:1376-1396 | a page keeps the cursor's meaning if and only if nothing visible and not held lies between the cursor and where the page was asked from |
| `SyncLimits.RequestCoversIff` | internal/client/client.go:1498-1522 | a request, answered and landed, keeps the cursor's meaning if and only if every visible row at or below the position it is issued from is held |
| `SyncLimits.FreshPositionSkipsNothing` | internal/client/client.go:1489-1504 | a position this epoch reached always meets that condition, so only one that outlived a wipe can fail it |
| `SyncStale.FreshClientLosesNothing` | internal/client/client.go:1489-1522 | a run whose requests all keep to the epoch of their position loses nothing that was heard, and caught up means caught up in it: a guard the client could keep by itself |
| `SyncStale.StaleAskSkipsIff` | internal/client/client.go:1489-1504 | in any run, a request from a position that outlived a wipe skips nothing if and only if every visible row at or below it, and there is one, has been sent again live since |
| `SyncLimits.SkippedRowIsGone` | internal/client/client.go:1498-1522 | a visible row such a request skips is gone once its page has landed |
| `SyncLimits.GoneForGood` | internal/client/client.go:1479-1535 | and stays gone through every run until a wipe or a re-sent frame |
| `SyncLimits.CommitForgetsIff` | internal/store/notify.go:322-341 | a commit leaves no row unaccounted for if and only if it is heard |
| `SyncUnheard.UnheardIsLost` | internal/store/notify.go:308-341 | after any safe run, an unheard commit has a safe continuation to a quiet device without the row |
| `SyncUnheard.LosableIff` | internal/store/notify.go:308-341 | after any safe run a visible row's commit can be followed safely to a quiet device without it if and only if it is not heard |
| `SyncCounterexamples.StalePositionLosesMessages` | internal/client/client.go:1489-1522 | for any two messages there is a run, with no log rollback, in which `next` survives a wipe and everything comes to rest with the first of them gone for good |
| `SyncCounterexamples.StalePositionIsUnsafe` | internal/client/client.go:1498-1504 | the step at fault in it is the request issued from beyond what is held |
| `SyncCounterexamples.FirstSubscriptionLosesMessages` | internal/store/notify.go:308-341 | for any message there is a run in which it commits after a session caught up and before the listener's first subscription, and a quiet device misses it |
| `SyncCounterexamples.UnheardIsUnsafe` | internal/store/notify.go:322-341 | the step at fault in it is the commit nobody hears |
| `SendSteps.Step` | internal/store/messages.go:526-780 | every statement of every interleaved send, commits and aborts included, keeps rows, ordinals, keys, locks and drawn values in order |
| `SendAdmission.ResolveIs` | internal/store/messages.go:555-606 | a checked send is refused exactly when its conversation does not exist, or exists without its author; it looks for its key again exactly when a member names a file that is missing, not its own, used or named twice |
| `SendAdmission.ReadBackIs` | internal/store/messages.go:445-502 | the re-read after a lost race answers with the row of the key, and without one as the race it lost |
| `SendAdmission.OnlyMembersSend` | internal/store/messages.go:548-571 | in every reachable state every committed row, and every send past its check, is by a member of its conversation |
| `SendAdmission.FilesAreSentOnce` | internal/store/messages.go:572-606 | in every reachable state a used file is on one row, by who uploaded it, and a send that committed used on its row exactly the files it named |
| `SendSteps.CommitKeepsRows` | internal/store/messages.go:707-780 | a commit appends the next ordinal of the log and the next of its conversation |
| `SendTheorems.OrdinalsAreSound` | internal/store/messages.go:402-418 | in every reachable state log order is commit order, each conversation's seqs are exactly 1..last_seq, and the two ordinals agree inside a conversation |
| `SendTheorems.StepGrows` | internal/store/messages.go:445-502 | only a commit moves a counter, and one whose answer is lost does as any other: a losing, refused or aborted send leaves both as they were |
| `SendTheorems.NothingAppearsBelowTheCounter` | internal/store/messages.go:402-418 | whoever read the counter at N never later sees a new row at or below N |
| `SendTheorems.LateSnapshotReadsTheSame` | internal/store/sync.go:139-143 | a page that read its head first finds the same rows at or below it under any later snapshot |
| `SendTheorems.OneKeyOneRow` | internal/store/messages.go:533-544 | all successful sends under one key return one committed row, whatever conversations they named |
| `SendTheorems.InsertNeverWaits` | internal/store/messages.go:707-731 | whoever inserts holds the counter, so no other uncommitted row exists to wait for |
| `SendTheorems.LoserGetsTheWinner` | internal/store/messages.go:462-466 | the loser of a race under one key is answered with the winner's row |
| `SendTheorems.ViolationIsAnswered` | internal/store/messages.go:782-799 | the re-read after a unique violation always finds a row |
| `SendTheorems.UploadLoserGetsTheWinner` | internal/store/messages.go:468-499 | a send whose uploads its own key's winner consumed gets that row; it is refused for its uploads if and only if no row has its key |
| `SendTheorems.WaitsForLocksOnly` | internal/store/messages.go:526-780 | a send waits for a row lock that another holds and for nothing else, and can always be given up |
| `SendTheorems.SomeSendGoesOn` | internal/store/messages.go:19-62 | while any send has not returned, some send can go on with its own next statement |
| `SendTheorems.EachRowHasOneSender` | internal/store/messages.go:526-780 | conservation: in every reachable state committed rows and the sends that committed one, whether or not their caller was told, are paired off one to one |
| `SendTheorems.ToldIff` | internal/store/messages.go:776-779 | a row has a sender that was told of it if and only if its COMMIT was answered; otherwise its one committer heard of a failure |
| `SendTheorems.UntoldRowHasNoToldSender` | internal/store/messages.go:776-778 | a lone send of any member can end so: the row is committed, its caller has an error, and no send was told of it |
| `SendTheorems.RetryIsAnswered` | internal/store/messages.go:526-560 | a send begun after its key was committed, told or untold, is in no interleaving anything but unread, answered with that row as a duplicate, or failed before its read; and its read answers with that row |
| `SendTheorems.SendsBuildTheLog` | internal/store/messages.go:590-780 | refinement: every run of the send path is a run of the log the device theorems assume |
| `LockOrder.SendIsOrdered` | internal/store/messages.go:19-62 | a send with the scoped reply resolve takes its locks in the order, the foreign keys' KEY SHARE on author and device after the counter aside |
| `LockOrder.OffboardIsOrdered` | internal/store/messages.go:120-173 | an offboard, its reversal or a metadata bump takes rooms ascending, members, account, the four credential tables, counter last |
| `LockOrder.InvalidateIsOrdered` | internal/store/refresh.go:661-700 | a family invalidation takes the credential tables in the same order |
| `LockOrder.OppositeInvalidationsDeadlock` | internal/store/refresh.go:670-680 | no order is named for the rows of one statement: two invalidations that visit the same two tokens in opposite orders wait for each other |
| `LockOrder.ReceiptIsOrdered` | internal/store/messages.go:241-256 | a receipt takes its member row, then the counter |
| `LockOrder.SweepIsOrdered` | internal/store/messages.go:233-237 | a sweep over rooms ascending with their messages keeps the order |
| `LockOrder.ConflictIs` | internal/store/messages.go:88-132 | row locks conflict as Postgres has it: a KEY SHARE passes all but FOR UPDATE, and nothing else passes |
| `LockOrder.SendLocks` | internal/store/messages.go:575-752 | and which locks those are: uploads, the conversation, a reply source of the same conversation, the counter, and by foreign key author and device |
| `LockOrder.OffboardLocks` | internal/store/offboard.go:253-478 | the person's rooms, memberships, account and credentials, and the counter |
| `LockOrder.InvalidateLocks` | internal/store/refresh.go:670-700 | the family's refresh tokens, the device's access tokens, and the device |
| `LockOrder.ReceiptLocks` | internal/store/readstate.go:238-300 | the member row and the counter |
| `LockOrder.SweepLocks` | internal/store/messages.go:233-237 | each room and, in it, each message it deletes |
| `LockOrder.NoCycle` | internal/store/messages.go:19-43 | writers that keep the order never form a wait-for cycle of any length |
| `LockOrder.SomebodyCanGoOn` | internal/store/messages.go:141-160 | while a transaction is open, one that is open can go on |
| `LockOrder.OrderedWritersNeverDeadlock` | internal/store/messages.go:19-43 | over every run of such writers no cycle is ever reached |
| `LockOrder.UnscopedReplyDeadlocks` | internal/store/messages.go:278-292 | with an unscoped reply resolve, for any two conversations, a send and a sweep that keeps the order deadlock |
| `LockOrder.AccountForUpdateDeadlocks` | internal/store/messages.go:128-132 | an account locked FOR UPDATE before the counter deadlocks with a send of that person |
| `Credentials.ProposeKeepsLinked` | internal/client/journal.go:154-171 | proposing keeps every link's token the proposal before it, from the held token on, and the link answered is in the chain |
| `Credentials.Store.Enroll` | internal/client/journal.go:228-239 | enrolling refuses a journal that holds a credential, and an incomplete pair |
| `Credentials.Store.Reenroll` | internal/client/journal.go:248-262 | a new enrollment replaces the pair and takes the chain and its stamp with it |
| `Credentials.Store.Rotate` | internal/client/journal.go:270-295 | an answer collapses the chain; the device and its user stay, and a half pair is refused |
| `Credentials.Store.ProposeFor` | internal/client/journal.go:354-385 | persist before send: the original proposal for a token in the chain, a new link for the newest or on replace, nothing when the chain moved or a mint fails; stamped exactly when a link is written |
| `Credentials.Store.OlderThan` | internal/client/journal.go:387-398 | the token presented before this one, or none for the oldest |
| `RefreshServer.SpentForEver` | internal/store/refresh.go:217-400 | whatever anybody presents in whatever order, a spent token keeps the successor it was spent into and a dead device never rotates again |
| `RefreshServer.DeathsAreReplays` | internal/store/refresh.go:489-575 | over any requests in any order, a live device ends dead if and only if one of them was a replay of its own token when it arrived |
| `RefreshServer.PresentProposalIsFinal` | internal/store/refresh.go:440-455 | told `present_proposal`, a client is told the truth for good, whatever anybody sends from then on |
| `RefreshServer.FreshProposalIsCurable` | internal/store/refresh.go:433-438 | told `fresh_proposal`, a live token is as it was, and any new proposal rotates it |
| `RefreshSteps.StepKeeps` | internal/client/refresh.go:341-394 | every timely step of client, network and server keeps journal and server in step |
| `RefreshSteps.ServeLink` | internal/store/refresh.go:412-455 | what the server makes of each link of the chain, by its position against the live one |
| `RefreshTheorems.ChainNeverLosesTheDevice` | internal/client/journal.go:156-171 | over every run with lost requests, lost answers and kills: the chain is linked, what is sent is already persisted, the live token is one the journal names, and a spent token is only ever presented with what it was spent into |
| `RefreshTheorems.LinksLeaveOnlyOnAnAnswer` | internal/client/journal.go:286-293 | a link leaves the chain if and only if a rotation is answered |
| `RefreshTheorems.GraceProtectsEveryRun` | internal/client/refresh.go:322-330 | over every timely run whose late and repeated requests land inside the grace window, nothing but a revocation ends the device |
| `RefreshTheorems.FreshProposalRotates` | internal/client/refresh.go:341-409 | told to propose afresh, a client presents the same token with a new proposal that is in its chain first and drops what was newer; a live token is rotated into it; or it gives up with nothing changed |
| `RefreshTheorems.RevokedIsRefused` | internal/store/refresh.go:322-332 | a revoked device is never answered with a rotation again |
| `RefreshTheorems.NewestFirstIsSafe` | internal/client/refresh.go:302-332 | when each request is processed at once or lost: nothing the client does revokes its device, and while it is live no spent token is presented, the budget is never exhausted and the terminal is unreachable |
| `RefreshLimits.LateStrandsIff` | internal/client/journal.go:286-293 | a late request makes the live token unnameable if and only if it rotates and the journal no longer names its proposal |
| `RefreshLimits.LateUnderAnAnswerStrandsIff` | internal/client/journal.go:286-293 | with a rotation on its way back, taking it strands the device if and only if the late request rotated |
| `RefreshLimits.LateDeliveryStrandsTheDevice` | internal/client/refresh.go:341-394 | from every live device there is a timely run after which one late request strands it: the assumption is needed |
| `RefreshLimits.StrandedDeviceRevokesItself` | internal/client/refresh.go:311-318 | outside the grace window a stranded device's next refresh is a replay that ends it |
| `RefreshExchange.Request` | internal/client/refresh.go:349-362 | one request: the link is in the journal before the server is asked, whatever becomes of it; a mint that fails writes and sends nothing |
| `RefreshExchange.NextName` | internal/client/refresh.go:363-378 | a 401 steps one link back and only the oldest has none; `present_proposal` steps one forward |
| `RefreshExchange.AskSteps` | internal/client/refresh.go:348-378 | what the journal does for one request is a run of the refresh machine, harmless to a live device at or above its live token |
| `RefreshExchange.Overtaken` | internal/client/refresh.go:353-355 | a walk that another context overtakes writes nothing and leaves the journal as that context left it |
| `RefreshExchange.Exchange` | internal/client/refresh.go:341-394 | the walk is a run of the refresh machine, terminal exactly when it is; on a live device it never ends in a refusal or for want of budget, sends at most one request per link at or above the live one plus one, and when nothing goes wrong ends in a rotation |
| `RefreshExchange.Refresh` | internal/client/refresh.go:216-252 | the refresh around it: at every exit journal and server are where the machine is, and an answer leaves the chain empty on the token answered |
| `RevocationTheorems.Step` | internal/hub/hub.go:294-380 | every step of attaches, commits, deliveries, outages and re-checks leaves each dead session with something owed |
| `RevocationTheorems.CommitKills` | internal/store/fanout.go:380-401 | a commit kills exactly the devices its notification names, and none revives |
| `RevocationTheorems.CommitForgetsIff` | internal/store/notify.go:322-341 | a commit forgets a session if and only if it comes before the first subscription and names one already let through |
| `RevocationTheorems.NoDeadSessionSurvives` | internal/hub/hub.go:320-353 | no third case: over every run a dead device's session has a check, a delivery or a re-check owed, and once all have settled none is left, save one whose check failed when its device was already dead |
| `RevocationTheorems.SettlingClosesDeadSessions` | internal/hub/hub.go:320-353 | from every reachable state, letting only what is under way go on reaches a settled state in a bounded number of steps, with no dead session left but an excused one |
| `RevocationTheorems.Progress` | internal/hub/hub.go:879-957 | while anything is unsettled, something under way can go on and leaves less to do |
| `RevocationTheorems.BootWindowForgetsARevocation` | cmd/catenary/main.go:844-880 | for any device there is a run in which a revocation before the first subscription is never acted on |
| `RevocationTheorems.ForgottenForEver` | internal/hub/hub.go:867-880 | and over every run its session stays served until an outage, its end or another revocation of it |
| `HubRevocation.FollowIndex` | internal/hub/hub.go:294-311 | a hub whose open sessions are the index of the revocation machine is still so after it attaches the session that the machine indexes |
| `HubRevocation.FollowRevocation` | internal/hub/hub.go:805-863 | and after it handles the revocation that the machine delivers, by device or by account |
| `HubRevocation.FollowRecheck` | internal/hub/hub.go:879-957 | and after the end of a re-check, with an answer or without |
| `HubRevocation.FollowEnd` | internal/hub/hub.go:355-381 | and after a detach or a failed attach check |
| `HubRevocation.Follow` | internal/hub/hub.go:294-957 | so over every run: called as the machine steps, the hub has exactly the sessions open that the machine has indexed |
| `HubRevocation.ServesNoDeadDevice` | internal/hub/hub.go:805-957 | a hub that has followed a heard run to a settled state has no outbox open for a dead device, save where the attach check failed on it |
| `HubClass.Hub.constructor` | internal/hub/hub.go:264-279 | an empty hub, not closing |
| `HubClass.Hub.Attach` | internal/hub/hub.go:294-311 | a session is indexed with an empty outbox and counted; one that races the drain is asked to go and never indexed |
| `HubClass.Hub.RemoveLocked` | internal/hub/hub.go:415-434 | the session leaves the index and its outbox closes together; the count follows; the last one out of a closing hub closes `drained`, proved still open |
| `HubClass.Hub.EnqueueLocked` | internal/hub/hub.go:436-458 | the frame is appended, or the outbox was full and the session is severed and its connection dropped; nobody else is touched |
| `HubClass.Hub.FanOut` | internal/hub/hub.go:532-611 | each open session of each member gets its introduction and message with nothing between, or is closed because its outbox was full; nobody else gets anything |
| `HubClass.Hub.GapNotice` | internal/hub/hub.go:731-776 | every session still open has got exactly a resync of the head that was read, or, when it could not be read, has been asked to come back |
| `HubClass.Hub.OnNotify` | internal/hub/hub.go:478-611 | each outcome of the load by its own: a failed one hands every open session a resync of the head that was read, or asks all of them to come back |
| `HubClass.Hub.Act` | internal/hub/hub.go:294-957 | any one operation hands each session its frames and nothing else, whole unless it is closed; closes it exactly when the operation ends it or its outbox is full, and then drops it; and asks every open session to go when it asks anyone |
| `HubClass.Hub.Serve` | internal/hub/hub.go:247-957 | over any interleaving of notifications, gaps, re-emissions, attaches, detaches, revocations, re-checks and the drain, a session has the history of the operations since it attached, in order and with nothing between, whole while it is open; it is closed by an operation that ends it or dropped on a full outbox, and has been asked to go by each that asks |
| `HubClass.Hub.OnRevocation` | internal/hub/hub.go:805-863 | exactly the sessions the revocation names are closed, and asked to close with its own status |
| `HubClass.Hub.FinishRecheck` | internal/hub/hub.go:896-957 | the dead among the sessions listed are revoked; when the database cannot say, all listed are asked to come back |
| `HubClass.Hub.Shutdown` | internal/hub/hub.go:1186-1205 | from here nobody is indexed, all indexed are asked to go, and `drained` is closed exactly when none is left |
| `HubIndex.WithoutOk` | internal/hub/hub.go:417-434 | removing a session keeps an outbox closed exactly when its session has left the index |
| `Outbox.GotTwice` | internal/hub/hub.go:472-476 | deliveries compose: order on the outbox is order on the wire |
| `Outbox.GotKeeps` | internal/hub/hub.go:436-458 | a delivery loses nothing that was queued and adds nothing that was not handed over |
| `HubHistory.HandedInOrder` | internal/hub/hub.go:470-521 | wherever an operation stands among those since a session attached, the session, while open, has exactly its frames there: the message right after its introduction for a member, the resync that a failed load or a gap is turned into, what is re-emitted to it, or nothing |
| `HubHistory.NothingIsDropped` | internal/hub/hub.go:478-521 | of every notification since it attached whose message was there to load, a session still open has the message, or the resync of the head that was read, or has been asked to come back |
| `HubHistory.CausesClose` | internal/hub/hub.go:355-395 | a session that has left, was named by a revocation, by device, account or both, or was found dead or unknown is closed |
| `HubHistory.ClosedForCause` | internal/hub/hub.go:384-458 | and nobody is closed for anything else but a full outbox, and then is dropped |
| `ReadBurst.Receipts.OnBatched` | internal/hub/hub.go:677-716 | each open session of an author gets that author's own rows marked sent, in order, and nothing else; they are charged to the batch, a row is shed only with its author's 64 spent and after the rows sent, and one with nobody to get it has no open session |
| `ReadBurst.FramesAre` | internal/hub/hub.go:704-713 | the frames of an author are one for each of its rows marked sent, in the order of the rows, and each is that row as its own message |
| `ReadBurst.Receipts.OnAlone` | internal/hub/hub.go:644-722 | a receipt with no batch sheds nothing, and each open session of an author gets that author's own rows, in order, and nothing else |
| `ReadBurst.Receipts.OnBatch` | internal/hub/hub.go:230-245 | over consecutive payloads of one batch each author is re-emitted at most 64 messages, however many rooms |
| `ReadBurst.ShedIsOlder` | internal/hub/hub.go:684-695 | every message shed is older than every one sent to its author |
| `Hold.RefreshDelay` | internal/client/hold.go:118-130 | the doubling loop is min(15 min, 5 s * 2^(n-1)), and never passes twice the cap |
| `Hold.LinksAreRare` | internal/client/hold.go:178-214 | over every run of any contexts, consecutive links are the delay apart, and n + 1 links take at least 1275 + 900 (n - 8) seconds |
| `Hold.AnsweredAttemptIff` | internal/client/hold.go:178-225 | a context answered since the last link writes the next if and only if the delay since that link has passed |
| `Hold.UnansweredAttemptIsHeld` | internal/client/hold.go:178-225 | one not answered since the last link writes none, however long it waits |
| `Hold.SilenceAddsOneLink` | internal/client/hold.go:150-176 | a context that hears nothing adds at most one link, however long it runs |
| `Refused.RefusalUnholdsIff` | internal/client/refused.go:174-187 | a refused /sync the wait let go leaves the refresh unheld, unless (exactly) the stamp was in the future and the clock passed it since |
| `Refused.SetBackClockHolds` | internal/client/hold.go:132-154 | the case is real: a clock set back under the stamp holds the refresh, under either suppressor |
| `Refused.WaitWhileHeld` | internal/client/refused.go:189-217 | the polling wait ends at the first poll past the deadline, less than one cadence late |
| `Refused.ProbesAreSpaced` | internal/client/client.go:1437-1453 | two refused requests with a token known to be refused are the current hold apart if a link was written since the first; each costs a link or an attempt that minted nothing, and while none of those failed all are a hold apart and the hold grows with their number |
| `Refused.ReactionSpacesIff` | internal/client/refresh.go:411-432 | within a hold of a request, reacting to its refusal puts the next a whole hold later if and only if a proposal was minted or a link was written while it was out; otherwise the next may go at once |
| `Refused.NextSyncIs` | internal/client/refused.go:136-172 | a request may go out at a given time if and only if that time is not before the deadline named |
| `Refused.AnswerUnholds` | internal/client/hold.go:178-225 | an answered request unholds the refresh as a refused one does, once the delay has passed |
| `Refused.RotationFrees` | internal/client/refused.go:84-132 | a new pair ends every wait: the next request, refresh and dial may go at once |
| `Refused.FirstRefusalIff` | internal/client/refused.go:159-187 | after a token's first refusal the next request is a whole hold later if and only if the refusal did not fall strictly inside a hold already running |
| `Refused.ProbeAlwaysGoes` | internal/client/client.go:1546-1564 | within fifteen minutes the one /sync may go, its 401 leaves the refresh unheld, and an attempt that mints a proposal writes the next link |
| `Refused.AtMostOneDialWhileRefused` | internal/client/client.go:655-686 | from the moment the held token is refused until the pair changes, no dial goes out but one that the wait had already let go |
| `Refused.DialsIff` | internal/client/client.go:655-686 | and from such a moment some run without a new pair dials if and only if the wait had let one go |
| `Refused.RefusedTokenIsDialed` | internal/client/client.go:663-686 | and that one is real: from every state, a dial let go beside a /sync that is then refused goes out with a token known to be refused |
| `CompareReport.CompareLogs` | internal/client/compare.go:60-131 | each list names exactly what it is for, and the report is clean if and only if nothing is lost, stray or counted twice, one id holds a slot and every thread is in order |
| `Compare.SameRecordsIff` | internal/client/compare.go:73-87 | over unique ids, nothing lost and nothing stray is equality of the records by id, conversation, seq and log_seq |
| `CompareReport.Disordered` | internal/client/compare.go:111-125 | sorting a thread and comparing neighbours decides whether its two ordinals agree pairwise |
| `Compare.ThreadAgreesIff` | internal/client/compare.go:111-125 | a thread is in order exactly when any two rows of the conversation differ in log_seq and the lower seq has the lower one |
| `Compare.SortAgree` | internal/client/compare.go:111-117 | sorting does not change that |
| `CompareReport.FindDuplicates` | internal/client/compare.go:89-94 | the ids counted at least twice |
| `CompareReport.FindConflicts` | internal/client/compare.go:96-110 | a slot is reported if and only if two ids share it |
| `CompareReport.ConflictedIff` | internal/client/compare.go:96-110 | two ids share a slot exactly when two rows of one conversation and seq differ in id |
| `CompareReport.FullJournalIsExact` | internal/client/compare.go:48-51 | a journal that holds exactly the visible part of a sound log compares exact |
| `CompareReport.QuietRunIsExact` | internal/client/compare.go:60-131 | after any safe run a quiet device's snapshot compares exact against the server's log |
| `Limiter.SameAnswers` | internal/linkpreview/limiter.go:27-29 | limiters nothing tells apart answer alike and stay so |
| `Limiter.ServedIsWindowed` | internal/linkpreview/limiter.go:47-68 | in every stretch of any calls an account is granted at most burst + rate * T, T the seconds it spans |
| `Limiter.AnsweredIff` | internal/linkpreview/limiter.go:47-68 | a call is granted if and only if, over every stretch ending with it, its account has been granted at least one less than burst + rate * T: nobody gets more and nobody is refused who has had less |
| `Limiter.PruningLimiter.Prune` | internal/linkpreview/limiter.go:70-76 | exactly the full buckets go, and no level at any later time changes |
| `Limiter.PruningLimiter.Allow` | internal/linkpreview/limiter.go:47-68 | granted if and only if a token is there; refused, the wait named is enough |
| `Limiter.PruningLimiter.Serve` | internal/linkpreview/limiter.go:27-76 | any calls are answered as by a limiter that never prunes, and so within the window bound |
| `Cache.PutIsBounded` | internal/linkpreview/cache.go:51-73 | the bound is kept if and only if not: a new key at a cache full of live entries whose walk ends on the empty key, which expires first |
| `Cache.NonEmptyKeysAreBounded` | internal/linkpreview/cache.go:51-73 | with non-empty keys the cache never exceeds its bound |
| `Cache.EmptyKeyOverflows` | internal/linkpreview/cache.go:56-69 | with the empty key a cache of one holds two |
| `Cache.OldestIs` | internal/linkpreview/cache.go:59-67 | over non-empty keys the walk finds a live entry that expires first, and none if and only if all have expired |
| `Cache.OnlyTheEarliestIsEvicted` | internal/linkpreview/cache.go:56-71 | a live entry goes only for a new key at a full cache, only the one that expires first, and only one |
| `Cache.PutRefines` | internal/linkpreview/cache.go:51-73 | against a plain map the cache holds a part of it, with the latest entry in it |
| `Cache.TtlCache.Get` | internal/linkpreview/cache.go:35-48 | found only before the clock reads its expiry, and absent exactly when there is no entry or the clock reads at or past it; an expired one is dropped |
| `Cache.PutThenGet` | internal/linkpreview/cache.go:35-73 | a value put at t for ttl and read at u, with no other put between, is found if and only if u < t + ttl |
| `Cache.TtlCache.PutFor` | internal/linkpreview/cache.go:50-73 | the update in place: sweep, evict, insert |
| `Cache.TtlCache.Sweep` | internal/linkpreview/cache.go:57-67 | exactly the expired entries go |
| `Heartbeat.AcceptedWindowFits` | cmd/catenary/main.go:641-670 | for every accepted configuration the window is positive, is (limit + 1) intervals and fits 64-bit nanoseconds |
| `Heartbeat.WindowFitsIff` | cmd/catenary/main.go:630-641 | for every interval the schema allows, the window is what it should be if and only if the product is below 2^63 |
| `Heartbeat.WindowTurnsNegative` | cmd/catenary/main.go:630-641 | and from there to 2^64 it comes out negative: for ninety seconds, every limit from about 10^8 to twice that |
| `Heartbeat.Watchdog.Session` | internal/api/socket.go:196-212 | a session is severed by a given time if and only if more than the window passed somewhere up to then without a ping |
| `Heartbeat.PingContract` | internal/api/socket.go:164-176 | a client pinging every interval is never severed if and only if its delay never grows by more than limit intervals between two pings |
| `Heartbeat.SilenceSevers` | internal/client/client.go:1242-1278 | without pongs a client severs itself at exactly the tick after its limit, within limit + 1 intervals |
| `Heartbeat.OutstandingIs` | internal/client/client.go:1242-1292 | the pings outstanding are exactly those sent and not answered since, numbered as they went |
| `Heartbeat.BeatSeversIff` | internal/client/client.go:1259-1268 | a beat severs if and only if it is a tick that finds them come to the limit |
| `Heartbeat.PromptPongsKeepTheSocket` | internal/client/client.go:1259-1268 | a client whose every ping is answered before limit further ticks never severs |

## Left out

- Membership changes during a run, and rollback of the log: the device theorems fix both.
- The contents of conversation and user records, read marks, edits, deletion and retention: the records a message needs are modelled as present or absent.
- Several devices of one account in one end-to-end run: each device is its own run over the same log.
- HubClass.Hub.FanOut: members are distinct, as the rows of one conversation are.
- HubClass.Hub.Serve: the listener's backoff between connections, and the read receipts' budget, which is `ReadBurst`'s own, are not part of it.
- HubRevocation.ServesNoDeadDevice: the hub is not draining, as the revocation machine has no drain.
- ReadBurst.Receipts.OnBatch: payloads of one batch are consecutive, as the listener delivers one commit; interleaved batches start a budget over.
- CompareReport.CompareLogs: the final sorting of the report's lists, and the text of a conflict, are not modelled.
- RefreshExchange.Exchange: `fresh_proposal` is proved unreachable for a chain that tracks the server, so its pause and its bound of three are not modelled.
- RefreshServer.SpentForEver: token expiry and deactivation count as the device being dead; the age of a rotation is one given bit per request.
- Heartbeat.Watchdog.Session: a ping at the very instant the window ends is taken to arrive in time.
- Limiter.PruningLimiter.Allow: exact reals instead of floats, and the wait is not rounded down to a nanosecond.
- Idempotency keys that are missing, message bounds, reply classification and attachment rows: single checks around the send path.
- The hub's typing lists and live receipts: no promise survives them being lost.
- Terminal classification of close codes, dial backoff and the due time of proactive refreshes: single tables.
- Every fault switch of the client is off.
- HTTP, WebSocket, JSON and SQL text.
