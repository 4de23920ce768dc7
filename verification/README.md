# Verified model of the agent fleet

The repository runs coding agents in microVMs: a durable workflow per session talks to a human, to GitHub
and to a guest supervisor inside a VM; a host agent places the VMs; a reaper removes orphans; connectors
pick up work; a dashboard shows and edits it. This project models the cores of that system and proves what
they are for. `dafny verify dfyconfig.toml` checks all of it.

## What is modelled

**The session protocol** (`Session`, `PRWorkflow`). `PRWorkflow` is an event loop: each `Select` runs one
callback. `Session.Step` is one such iteration, over every field the loop branches on, with the nested
discussion loop as a control state; every activity result (mint, launch, turn, intent, plan decision,
fetched thread, PR check) arrives with the step and is arbitrary. The class `PRWorkflow.Workflow` holds the
workflow's variables and updates them in the source's order; each method is proved against the function it
stands for, so `Iterate` keeps the object in the state `Session.Run` gives, and concludes the timer, freeze,
feedback, spend, discussion, comment and pull request invariants about the object's own fields.
`SessionEffects` is an independent reading of the same step, field by field: for each field exactly when it
changes and to what; `SessionSteps` proves that the step machine agrees, and `SessionRuns` draws the
consequences for whole runs. What a run
did is kept in a history that nothing reads, and `SessionLog` says what a history means (feedback delivered,
spend, guests, pull requests, the shape of discussions). `SessionLaws`, `SessionHistory` and
`SessionComments` hold the invariants; `SessionTheorems` states the results for all policies, starts,
signals and activity results; `SessionPRs` and `SessionRebuild` settle when a session can open another pull
request although reports are lost; `SessionLimits` and `SessionCeiling` show where the obvious statements stop.

**The guest** (`Supervisor`, `GuestVolume`, `SteeringQueue`, `GuestLoop`, `SessionGuests`). One turn: run the
agent, pause or commit, push, open the PR, publish one event, with every command allowed to fail.
`GuestVolume` follows the clone over all guests of a session; `SessionGuests` puts workflow and guests
together for pull requests, and `SessionSpend` for money. The steering queue is JSON strings (section 7 of RFC 8259) in a line file,
written and read character by character; `GuestLoop` interleaves message handlers, the keep-alive loop and
VM restarts in any order over that file.

**The host fleet** (`Network`, `Manager`, `ManagerLaws`, `ManagerResults`, `FleetAgent`,
`Reaper`). First-fit /30 allocation over
32-bit addresses that wrap; launch and destroy with failing store, driver, taps and volumes, as step functions,
as laws over runs, and as the manager object that updates the host in place; the reaper as a timed protocol
with paged visibility, lag and truncated clocks.

**Smaller cores.** The dashboard's line diff (`LineDiff`), the bounded dedupe sets (`Dedupe`), the Linear
pickup under a two-level keyed lock (`LinearPickup`, `LinearGuards`, `LinearRedispatch`), configuration
resolution (`RepoConfig`, `RepoPrecedence`), the log follower (`ActivityTail`) and env-file edits (`EnvFile`), over shared text and line
operations (`Text`, `Lines`, `Protocol`, `SessionId`).

## What the proofs found

Where the code does not do what its comments or the obvious statement say, the code is kept and the exact
condition is proved.

- A session can open two pull requests: a guest's PR stays unknown if the report of it is lost, and a
  go-ahead then builds in execute mode again (`SessionLimits.LostBuildReportCreatesTwo`). With truthful guests
  and any reports lost, another PR is possible from a reachable state if and only if the session is open, no PR
  number is known and the ceiling is not hit (`SessionRebuild.AnotherPRExactly`); for one go-ahead the guard
  alone decides (`SessionRebuild.GoAheadCreatesExactly`). All guests of a session push one branch, for which
  GitHub refuses a second open PR: the first must have been closed meanwhile. The session cannot hear of
  that, because webhooks are routed by the PR number it does not know (cmd/webhook-rx/main.go:109-112).
- A failed round puts its batch back but not the inline comment to reply under, whatever made it fail; so the
  target survives exactly when there was none (`SessionLimits.FailedRoundForgetsReplyTarget`, and
  `FailedBuildForgetsReplyTarget` for the build after a discussion; `ReplyTargetIsForgotten` is a run).
- A turn can start at the cost ceiling. In any state there a step runs one if and only if an attach, or a
  message classified as one, finds the session parked and gets its guest booted
  (`SessionCeiling.CeilingTurnsExactly`, `CeilingTurnsOverRuns` for the rest of a run; `WakeTurnIsNotGated` is
  a run that goes from the ceiling to four times that). So the spend bound carries those turns as a term.
- Feedback held at the ceiling stops the clock: the idle timer fires over it once, is not armed again, and the
  VM stays up until something else happens. A warm VM without a human is on no timer only then
  (`SessionCeiling.OffTheClockOnlyAtCeiling`), and a step gets there exactly that way
  (`SessionCeiling.StopsTheClockExactly`; `HeldFeedbackStopsTheClock` is a run).
- A guest that changes nothing reports a push without pushing. If an earlier commit's push had failed, the
  round counts as landed while the work is on no remote branch (`GuestVolume.SettledButUnpushed`). Over all
  guests of a volume, a settled report means that everything is pushed if and only if its turn changed
  something or the last commit before it had been pushed (`GuestVolume.SettledIsPushedExactly`).
- A failed turn's event carries no cost, so what it spent is never counted: the session's cost is the sum over
  the turns that did not fail and were heard, and it is what all turns cost if and only if the others were free
  (`SessionSpend.LedgerAcrossGuests`). Any number of rounds can fail at the push, at any price, in a session
  whose ledger stays at 0 under a ceiling of 1 (`SessionSpend.FailedTurnsAreFree`).
- A plan turn is called a guaranteed codebase no-op; if the agent itself fails, its stray edits stay, because
  the failure returns before the discard (`Supervisor.PlanTurnLeavesHead`).
- An initial or execute guest does not drain messages left from an earlier guest, and a resume or plan guest
  ignores an error of its first drain; such a guest sleeps on them until the next message
  (`GuestLoop.StaleQueueSleeps`).
- Commands are subscribed before the workspace is mounted; a message appended in between is hidden by the
  mount (`GuestLoop.ShadowedExactly`, `ConservedUnlessShadowed`).
- A launch that cannot read another session's record ignores it: it can hand out the same /30, and it can go
  over the host's capacity (`ManagerLaws.UnreadableRecordSharesBlock` does both). A step keeps the fleet sound
  if and only if, where it writes a record, there is room counting the unreadable ones and none of those has
  the block found over the rest (`ManagerLaws.StepExactly`; `RunExactly` for whole runs).
- The reaper truncates its grace period to whole seconds (`Reaper.FractionOfGraceIsLost`); how long it must be
  is exact (`Reaper.SafeExactlyWhenGraceCovers`).
- Task overrides are clamped to the granted profile if and only if the profile asked for, or the default in its
  place, is defined and so is `max_profile` when there is one (`RepoConfig.ClampsExactlyWhenGrantable`, for
  profiles one can boot; `ClampsExactly` for any box). A misspelled maximum, or a request and a default that
  are both undefined, let every override through (`RepoConfig.UngrantablePassesOverrides`).
- A profile as large as the maximum can be said to exceed it, the maximum itself included
  (`RepoConfig.MaximumExceedsItself`), depending on how two sorts order ties. A profile is warned about under
  every two sorts if and only if it is larger than the maximum, or the maximum is undefined
  (`RepoConfig.AlwaysExceedsExactly`); under some two sorts if and only if that holds, or it is as large while
  the maximum is not the only profile of its size (`RepoConfig.SometimesExceedsExactly`).
- A warning is promised for every adjustment, but per-task sizes are cut without one (`RepoConfig.SilentCut`).
  A run without warnings cuts one if and only if it is below the floor or above the requested profile
  (`RepoConfig.SilentCutsExactly`).
- A team without a started state makes the move to In Progress a silent success that moves nothing. An issue
  can be dispatched twice with nobody reopening it if and only if the move in between was that, or failed
  without taking effect (`LinearRedispatch.RedispatchedExactly`).
- Writing a secret reads back if and only if no line up to it is over the scanner's limit
  (`EnvFile.ReadAfterUpsert`); and it changes what another key reads exactly when it replaces a line the
  scanner passes by one it stops at, or the other way round, in front of that key
  (`EnvFile.OtherKeysUnchanged`).
- The diff always shows at least one line, so its "Identical to the default." note never appears
  (`LineDiff.RenderDiff`).
- The allocator searches for ever if and only if the subnet's prefix length is 0 and every block is used; any
  longer prefix ends, although addresses wrap (`Network.EndlessExactly`).

## Reading the assumptions

- In a history `Stopped` means that the guest is gone: a destroy of the session's VM is taken to have worked.
  A batch of several messages delivered to a warm guest is taken as one guest turn.
- GetVersion gates are at their newest value. Temporal, NATS, GitHub, Slack and the language model answer
  arbitrarily; a lost guest event reads as a failed phase.
- `SessionLog.Faithful`, the premise of the one-PR theorem, is discharged for real guests in `SessionGuests`:
  what remains is that each launch yields one guest, that review rounds hear of a created PR with its number,
  and that the PR check ending the initial phase finds an existing PR.
- `SessionComments.Honest`: ids are unique across kinds and the webhook and the fetched thread agree on whether
  an id asks for a change. `LinearPickup` counts dispatches that reported success.
- `SessionPRs.Truthful`, the weaker premise of the exact condition: guests create a PR only when they should,
  what is heard of a turn is the truth or a failure, and the PR check finds only a PR that exists. Any report
  may be lost. Whether GitHub lets `gh pr create` succeed is an input: a second creation needs the branch's
  first PR to be closed by then.
- `GuestVolume`: fetching at boot leaves local commits alone, and nobody else pushes the branch.
- `ManagerLaws`: pids are new, and a pid is alive exactly while its VM runs. A dead record may still carry the
  pid of another session's VM; `Spares` excludes clearing such a record. A failed driver launch leaves no
  process, as the manager relies on. `NoUntrackedVM` assumes that the driver's kills take effect; everything
  else may fail.
- `SessionSpend`: every turn of the history is a turn of a real guest; a turn whose agent fails may have cost
  something.
- `Reaper`: one clock for host and worker, one workflow per session, VMs booted no earlier than their workflow.

## Model

| member | source | states |
|---|---|---|
| `PRWorkflow.Workflow.constructor` | internal/control/workflow.go:86-151 | after the initial phase (a plan or initial guest, then discussion, or the review loop with the lost-PR check) the object is at the start of a run and sound |
| `PRWorkflow.Workflow.Iterate` | internal/control/workflow.go:228-497 | one Select in either loop: every field changes exactly as `SessionEffects.StepIs` says; the end of a tunnel leaves a decision exactly with edits, and otherwise re-arms window and idle clock; afterwards the fields are sound (`Sound`: timers and freeze, feedback, spend, discussions and PRs, comments), and a step taken under a human or at the ceiling did no agent work |
| `PRWorkflow.Workflow.ValidIsSound` | internal/control/workflow.go:192-203 | the session's theorems hold of the object's own fields whenever it is where a run of its inputs is |
| `PRWorkflow.Workflow.HeldDoesNoWork` | internal/control/workflow.go:390-402 | an object under a human, or at the ceiling, starts no agent work whatever comes next |
| `PRWorkflow.Workflow.TunnelEnds` | internal/control/workflow.go:483-495 | after a tunnel: detached, frozen exactly over edits or an earlier decision; and if not frozen, queued feedback has a window and a warm VM is on the idle clock |
| `SessionSteps.StepDoes` | internal/control/workflow.go:228-497 | from any state, on any signal, whatever the activities return: for each field (control, VM, cost, PR number, round count, latch, human, queue with ids, origin and reply target, window, idle clock, history) when it changes and to what |
| `SessionEffects.FoldIs` | internal/control/workflow.go:941-967 | folding a fetched thread in accepts exactly its new entries that ask for a change, with their texts, in order; marks all ids; and targets the last new inline one |
| `SessionRuns.StartDoes` | internal/control/workflow.go:86-151 | the first attempt is a plan guest exactly under plan-first, else an initial one; a pause opens a discussion, in plan mode for a plan; otherwise the loop is entered, looking for a PR if none was reported |
| `SessionRuns.FirstGuest` | internal/control/workflow.go:86-92 | the first guest booted is a plan guest if and only if the session is to plan first |
| `SessionRuns.HumanExactly` | internal/control/workflow.go:331-379 | over runs: a decision is awaited exactly when a tunnel ended with edits and no message came since; a human is attached exactly when one attached and no tunnel ended since |
| `SessionRuns.OriginExactly` | internal/control/workflow.go:402-404 | over runs: the queue, and a batch in discussion, is marked as from the PR exactly when something in it came from GitHub |
| `SessionRuns.RepliesExactly` | internal/control/workflow.go:438-442 | a step posts one reply on the PR exactly when a round with something from GitHub lands in it, and none otherwise |
| `SessionRuns.InstructionIs` | internal/control/workflow.go:334-341 | a message is its trimmed text and its attachment two lines below, and nothing exactly if both are blank |
| `PRWorkflow.Workflow.DedupeDelivery` | internal/control/workflow.go:153-166 | empty and windowed delivery ids are duplicates, others are admitted |
| `PRWorkflow.Workflow.ReconcileThread` | internal/control/workflow.go:941-967 | the fetch loop folds in exactly the unseen actionable entries, in order |
| `SessionTheorems.RunKeeps` | internal/control/workflow.go:228-497 | every reachable state keeps the loop and history invariants |
| `SessionTheorems.TimersAndFreeze` | internal/control/workflow.go:192-203 | at every loop head: queued feedback has a timer, a human or the ceiling; no window over nothing; no idle timer under a human; attached iff a relay runs; a warm idle VM is on the clock |
| `SessionTheorems.IdleTimerIsSafe` | internal/control/workflow.go:451-463 | the idle timer never fires under a human, never touches queued feedback, and stops a VM or session only with nothing queued |
| `SessionTheorems.NoWorkWhileHeld` | internal/control/workflow.go:390-402 | no agent work starts while a human is in the loop or at the ceiling |
| `SessionTheorems.FeedbackIsConserved` | internal/control/workflow.go:402-449 | batches of rounds that landed, then the queue, is everything ever accepted, in order |
| `SessionTheorems.SpendLedger` | internal/control/workflow.go:904-906 | the total is the sum over all turns; no work started at the ceiling; the latch is sound |
| `SessionTheorems.GateBoundsSpend` | internal/control/workflow.go:543-548 | gating before each turn bounds spend to the ceiling plus one turn plus wake-ups |
| `SessionTheorems.SpendIsBounded` | internal/control/workflow.go:390-402 | the bound for every run |
| `SessionTheorems.CeilingIsFinal` | internal/control/workflow.go:543-548 | once hit, the ceiling stays hit and the rest of the run has no agent work |
| `SessionTheorems.DiscussionDiscipline` | internal/control/workflow.go:1053-1138 | a call re-runs only its own mode, builds only right after "proceed" and then ends; plan turns come first |
| `SessionTheorems.AtMostOnePR` | internal/control/workflow.go:1116-1125 | under faithful reports a session creates at most one PR, and knows its number |
| `SessionTheorems.CommentsAtMostOnce` | internal/control/workflow.go:236-272 | each nonzero id contributes at most one instruction; the delivery dedupe is the last 500 admitted; the reply target was accepted |
| `SessionTheorems.CommentsExactlyOnce` | internal/control/workflow.go:205-210 | a seen id contributed one instruction if it asks for a change, else none |
| `SessionTheorems.FetchedEntriesAreAccepted` | internal/control/workflow.go:385-389 | after a successful reconcile every actionable fetched entry has been accepted once |
| `SessionLimits.LostBuildReportCreatesTwo` | internal/control/workflow.go:433-437 | a run with obedient guests and one lost round report that creates two PRs, given that the first is closed on GitHub before the second creation |
| `SessionRebuild.AnotherPRExactly` | internal/control/workflow.go:1116-1125 | with truthful guests and any reports lost, in every reachable state: another PR can be created, GitHub permitting, if and only if the session is open, no number is known and the ceiling is not hit |
| `SessionRebuild.GoAheadCreatesExactly` | internal/control/workflow.go:1118-1120 | a go-ahead's creating turn is a guest's proper doing if and only if the known number is not positive |
| `SessionPRs.ClosedForGood` | internal/control/workflow.go:1118-1120 | once a number is known, the session is over or the ceiling is hit, no input ever adds a PR |
| `SessionRebuild.RebuildBuilds` | internal/control/workflow.go:402-449 | otherwise at most four inputs, from any loop head or discussion, add one, truthfully reported |
| `SessionLimits.FailedRoundForgetsReplyTarget` | internal/control/workflow.go:433-437 | a round that fails for any reason (mint, launch, run, lost report) puts batch and origin back, and the reply target exactly when there was none |
| `SessionLimits.ReplyTargetIsForgotten` | internal/control/workflow.go:433-437 | a run in which an inline comment's target is lost |
| `SessionLimits.FailedBuildForgetsReplyTarget` | internal/control/workflow.go:419-437 | the same after a discussion whose build fails, in every reachable state |
| `SessionCeiling.CeilingTurnsExactly` | internal/control/workflow.go:466-471 | at the ceiling, in any state, a step runs a turn if and only if an attach, by signal or by message, wakes a parked session; and it spends exactly that turn's cost |
| `SessionCeiling.CeilingTurnsOverRuns` | internal/control/workflow.go:390-402 | the turns of the rest of a run at the ceiling are exactly its wake-ups |
| `SessionCeiling.WakeTurnIsNotGated` | internal/control/workflow.go:466-471 | a run parked at the ceiling whose attach takes the spend from 1 to 4 |
| `SessionCeiling.OffTheClockOnlyAtCeiling` | internal/control/workflow.go:390-402 | a warm VM without a human runs on no timer only with the ceiling latched and feedback held |
| `SessionCeiling.StopsTheClockExactly` | internal/control/workflow.go:451-463 | from any other reachable state a step gets there if and only if the idle timer fires over feedback without a window |
| `SessionCeiling.HeldFeedbackStopsTheClock` | internal/control/workflow.go:451-463 | a run that gets there |
| `SessionGuests.GuestTurnIsFaithful` | internal/supervisor/supervisor.go:301-357 | what a workflow hears of a real supervisor turn is faithful |
| `SessionGuests.GuestTurnIsTruthful` | internal/supervisor/supervisor.go:345-357 | what a workflow hears of a real supervisor turn is truthful, with no proviso on what was reported |
| `SessionGuests.GuestsAreFaithful` | internal/supervisor/supervisor.go:182-194 | so is a whole history of supervisor turns |
| `SessionGuests.OnePRAcrossGuests` | internal/supervisor/supervisor.go:171-178 | workflow and guests composed open at most one PR per session |
| `SessionSpend.LedgerAcrossGuests` | internal/control/workflow.go:905-906 | with real guests: the cost is the sum of the costs of the turns that did not fail and were heard; equal to all turns' cost if and only if the others were free |
| `SessionSpend.FailedTurnsAreFree` | internal/supervisor/supervisor.go:453-457 | for every n and price: n rounds that fail at the push leave the ledger at 0 |
| `Supervisor.SupervisorState.RunTurn` | internal/supervisor/supervisor.go:182-194 | one turn of the object: what it means for the repository (`TurnMeans`), what it reports (`ReportMeans`, `QuestionMeans`), and when the guest ends |
| `Supervisor.TurnHasMeaning` | internal/supervisor/supervisor.go:301-357 | whatever fails: a plan turn publishes nothing to git; a settled turn leaves a clean tree, and either commits once and pushes everything or leaves commits, remote and PRs as they were; a PR appears at most once, only from a guest that should open one, after exactly one pushed commit, and is remembered |
| `Supervisor.TurnReports` | internal/supervisor/supervisor.go:301-357 | an event is published exactly when publishing works; it says agent_failed exactly when a stage failed, and then costs nothing; any other carries the turn's cost; which outcome, PR number and question are exact; the guest goes on exactly if the turn did not fail and was heard |
| `Supervisor.TurnLeaves` | internal/supervisor/supervisor.go:307-357 | after every turn, failed or not: tree, commits, remote, PRs and the PR flag, exactly |
| `Supervisor.PlanGuestPublishesNothing` | internal/supervisor/supervisor.go:307-321 | a plan guest never commits, pushes or opens a PR, over any turns |
| `Supervisor.PlanTurnPauses` | internal/supervisor/supervisor.go:374-386 | a plan turn always pauses with something to show |
| `Supervisor.PlanTurnLeavesHead` | internal/supervisor/git.go:202-211 | the tree is at HEAD after a plan turn if and only if the turn reached a discard that worked, or there was nothing to discard |
| `Supervisor.PlanGuestLeavesHead` | internal/supervisor/git.go:202-211 | and after all its turns, if each reached its discard |
| `Supervisor.GuestOpensAtMostOnePR` | internal/supervisor/supervisor.go:171-178 | a guest opens at most one PR, only in initial or execute mode |
| `Supervisor.SettledTurnIsPushed` | internal/supervisor/supervisor.go:323-357 | a push or PR report means a clean tree, and if the agent changed anything one new commit with every commit on the remote; otherwise nothing moved |
| `GuestVolume.PushedExactly` | internal/supervisor/supervisor.go:339-345 | over any guests, turns and failures on one volume: every commit is on the remote if and only if the last commit's own turn pushed it |
| `GuestVolume.SettledIsPushedExactly` | internal/supervisor/supervisor.go:326-345 | a settled report means that everything is on the remote if and only if its turn changed something or the last commit before it had been pushed |
| `GuestVolume.SettledButUnpushed` | internal/supervisor/supervisor.go:330-338 | a failed push, then a guest that changes nothing and reports a push |
| `Supervisor.PausedTurnKeepsTree` | internal/supervisor/supervisor.go:307-321 | a mid-task pause keeps the tree and publishes nothing to git |
| `Supervisor.GuestReportsFaithfully` | internal/supervisor/supervisor.go:345-354 | a report is faithful exactly when a created PR was published with its number or hidden in the initial phase |
| `Supervisor.GuestCreatesOnlyWhenItShould` | internal/supervisor/supervisor.go:176-178 | a PR appears only when the guest should open one, and it remembers |
| `SteeringQueue.DecodeEncode` | internal/supervisor/queue.go:24-37 | every text survives the JSON round trip |
| `SteeringQueue.BodyEscape` | internal/supervisor/queue.go:28-31 | reading one escaped character gives it back and goes on after it |
| `SteeringQueue.EncodedLine` | internal/supervisor/queue.go:15-37 | a stored message is one line that the reader never skips |
| `SteeringQueue.EscapedIsSafe` | internal/supervisor/queue.go:24-37 | what is written holds no control character, HTML character or line separator |
| `SteeringQueue.ReadsSurrogatePair` | internal/supervisor/queue.go:55-62 | a character beyond the basic plane is read from its surrogate pair |
| `SteeringQueue.FileRoundTrip` | internal/supervisor/queue.go:43-66 | the file reads back as exactly the appended messages, in order |
| `SteeringQueue.DrainHolds` | internal/supervisor/queue.go:43-66 | draining yields everything and empties the queue if and only if there is no file or reading and removing work; otherwise it fails and keeps everything |
| `SteeringQueue.Queue.Append` | internal/supervisor/queue.go:23-41 | appends one message, or none on an error |
| `SteeringQueue.Queue.Drain` | internal/supervisor/queue.go:43-66 | returns the queued messages and removes the file, or an error with the file untouched |
| `GuestLoop.MessagesAreConserved` | internal/supervisor/supervisor.go:138-168 | under every interleaving: queued at start and received since is what was drained, then what the file holds; and what turns got, unless a guest died holding a batch |
| `GuestLoop.StepConserves` | internal/supervisor/supervisor.go:479-489 | every handler, loop and restart step keeps that |
| `GuestLoop.NoLostWakeup` | internal/supervisor/supervisor.go:138-168 | at the select a nonempty queue has a token or a handler about to send one, for a guest that started empty or has drained |
| `GuestLoop.CoveredExactly` | internal/supervisor/supervisor.go:106-168 | a guest has seen its queue exactly when, since the last restart, it mounted an empty one or drained it |
| `GuestLoop.NoLostWakeupSince` | internal/supervisor/supervisor.go:138-168 | the same guarantee, read off the events |
| `GuestLoop.StepEnds` | internal/supervisor/supervisor.go:138-168 | a guest ends exactly when its boot, a turn or a later drain fails, it is aborted, or it idles without a human in its tunnel |
| `GuestLoop.StepSignals` | internal/supervisor/supervisor.go:144-168 | the wake token is set by a handler and taken by a wake, and by nothing else; a restart drops token, handlers and a batch in hand, and keeps the file |
| `GuestLoop.TurnsGetTheQueue` | internal/supervisor/supervisor.go:150-166 | a woken guest takes the whole queue and starts a turn exactly if there was something in it; a turn gets exactly the batch in hand |
| `GuestLoop.ShadowedExactly` | internal/supervisor/supervisor.go:106-112 | the hidden messages are exactly those appended between the subscription and the mount |
| `GuestLoop.StaleQueueSleeps` | internal/supervisor/supervisor.go:196-207 | the first select sleeps on old messages exactly when the first turn did not drain them |
| `GuestLoop.ConservedUnlessShadowed` | internal/supervisor/supervisor.go:106-112 | the queue accounts for every appended message exactly when none came before the mount |
| `LineDiff.FillTable` | dashboard/web/app.js:1163-1166 | the table holds the recurrence's value for every pair of suffixes |
| `LineDiff.LcsIsUpperBound` | dashboard/web/app.js:1163-1166 | no common subsequence is longer than the recurrence |
| `LineDiff.LcsIsReached` | dashboard/web/app.js:1163-1166 | some common subsequence is as long as the recurrence says |
| `LineDiff.Backtrack` | dashboard/web/app.js:1168-1176 | the walk explains both texts and keeps as many lines as the recurrence allows |
| `LineDiff.SamesAreCommon` | dashboard/web/app.js:1168-1176 | the kept lines of any script are a common subsequence, and its edits are the rest |
| `LineDiff.FewestEdits` | dashboard/web/app.js:1160-1179 | such a script has the fewest edits of all scripts |
| `LineDiff.RenderDiff` | dashboard/web/app.js:1160-1179 | old text and new text come back out; the kept lines are a longest common subsequence; no script has fewer edits; removed lines stand before those added in their place |
| `Network.Allocate` | internal/fleetagent/network.go:36-75 | the least free block of the pool as a /30 whose gateway is the host's address and whose guest is the next one, an error exactly when none fits or all are used, and termination despite wrap-around, for every input on which the search ends |
| `Network.EndlessExactly` | internal/fleetagent/network.go:55-74 | the search goes on for ever if and only if the prefix length is 0 and every block is used |
| `Network.BlockBounds` | internal/fleetagent/network.go:55-62 | the containment test passes for every block and fails after the last, even when the base wraps to zero |
| `Network.PoolFits` | internal/fleetagent/network.go:39-46 | a masked pool is aligned and ends inside the address space |
| `Network.Pigeonhole` | internal/fleetagent/network.go:48-53 | k used blocks need k records |
| `Network.IndexIsBounded` | internal/fleetagent/network.go:55-74 | the block handed out has an index of at most the number of records |
| `Network.RoomMeansFree` | internal/fleetagent/network.go:55-74 | a pool with more blocks than records never refuses |
| `ManagerLaws.AnchorIsNeverOnABlock` | internal/fleetagent/config.go:52-54 | under the default subnet and capacity no record of any reachable host has a block that reaches the anchor, even with unreadable records |
| `Manager.CapacityEndsSearch` | internal/fleetagent/manager.go:102-108 | a capacity of at most 2^30 never reaches the endless search |
| `FleetAgent.VMManager.LaunchVM` | internal/fleetagent/manager.go:80-164 | the object's store stays a sound fleet if and only if the launch is harmless; no untracked VM appears if kills work; which result, what it achieves, cleans up, sweeps and spares, as in `ManagerResults.LaunchIs` |
| `FleetAgent.VMManager.PlaceVM` | internal/fleetagent/manager.go:102-121 | list, capacity, rootfs, volume and allocation, in order |
| `FleetAgent.VMManager.DestroyVM` | internal/fleetagent/manager.go:169-204 | a sound fleet stays sound; no untracked VM appears if the kill works; which result, what it achieves and what it spares, as in `ManagerResults.DestroyIs` |
| `FleetAgent.VMManager.ListRecords` | internal/fleetagent/state.go:94-119 | exactly the readable records of session directories |
| `ManagerResults.DestroyIs` | internal/fleetagent/manager.go:169-204 | each result exactly when; Destroyed means forgotten, and purged if asked for; a tap or process is gone if its kill worked; nothing else changes |
| `ManagerResults.LaunchIs` | internal/fleetagent/manager.go:80-164 | each result exactly when, in the order of the checks; a VM answered is up under its record with what was asked for (2 vCPUs and 4 GiB by default), on its tap and volume; a failure leaves no process, tap or record if clean-up works; a dead record is swept first; no other session is touched |
| `ManagerResults.ReadableExactly` | internal/fleetagent/state.go:94-119 | the list has exactly the readable records of session directories |
| `ManagerLaws.StepExactly` | internal/fleetagent/manager.go:80-204 | from a sound fleet, every launch, destroy and exit keeps it sound if and only if it is harmless: where it writes a record there is room and no unreadable record has the block found |
| `ManagerLaws.RunExactly` | internal/fleetagent/manager.go:48-60 | over whole runs: sound in every state if and only if every launch was harmless when made |
| `ManagerLaws.SmoothLaunchExactly` | internal/fleetagent/state.go:92-93 | a new session's launch in which everything succeeds keeps the fleet if and only if the records, unreadable ones counted, are below capacity and none has the first fit's address |
| `ManagerLaws.SeeingIsHarmless` | internal/fleetagent/manager.go:102-121 | a launch that reads all other sessions' records is harmless |
| `ManagerLaws.FleetIsSound` | internal/fleetagent/manager.go:48-60 | after every run of harmless or seeing launches: at most MaxVMs records, each on a block of the pool, no two on overlapping blocks |
| `ManagerLaws.FoundIsFree` | internal/fleetagent/network.go:48-66 | the record a launch writes is on a block of the pool that no readable record has |
| `ManagerLaws.DifferentGuestsAreDisjoint` | internal/fleetagent/network.go:12-14 | different guest addresses mean disjoint blocks |
| `ManagerLaws.ReadableCounts` | internal/fleetagent/state.go:92-119 | the list is at least as long as the set of readable sessions |
| `ManagerLaws.NoUntrackedVM` | internal/fleetagent/manager.go:156-161 | if kills take effect, every running VM is the one its session's record names, so a session never has two |
| `ManagerLaws.UnstoppedDestroy` | internal/fleetagent/manager.go:188-196 | a kill that fails leaves an untracked VM exactly when the record is removed |
| `ManagerLaws.RelaunchIsIdempotent` | internal/fleetagent/manager.go:90-95 | while a session's VM runs, launching it again returns its record and changes nothing, after any steps in between that spare the VM |
| `ManagerLaws.LaunchRuns` | internal/fleetagent/manager.go:90-164 | a launch that reports a VM leaves it running under its record |
| `ManagerLaws.WorkspacesOnlyPurged` | internal/fleetagent/manager.go:166-168 | a volume goes away only by a purging destroy of its own session |
| `ManagerLaws.UnreadableRecordSharesBlock` | internal/fleetagent/state.go:92-93 | for any pool with a block and any positive capacity, two smooth launches, the second blind to the first's record, put two sessions on one block, and two records on a host for one |
| `Reaper.ExpectedSessions` | internal/reconcile/temporal_authority.go:32-62 | every valid id of every page asked for, or nothing at all on any error |
| `Reaper.FindOrphans` | internal/reconcile/reconcile.go:26-44 | exactly the listed VMs that are unexpected and whose age in full seconds is at least the grace period without its fraction |
| `Reaper.FindOrphanVMs` | internal/control/reconcile.go:42-68 | fails closed on either error; otherwise exactly the sessions with a listed VM on no page and old enough, with three minutes of grace when none is set |
| `Reaper.Fleet.Reconcile` | internal/control/reconcile.go:70-106 | destroys exactly those, past failures, and reports exactly the destroys that succeeded; destroys nothing on an error |
| `Reaper.ReapedByAge` | internal/reconcile/reconcile.go:38-40 | to the nanosecond of the boot: nothing younger than the grace period less two seconds is reaped, everything unclaimed that outlived it by a second is |
| `Reaper.SecondsTruncate` | internal/reconcile/reconcile.go:38 | the grace period in seconds is truncated towards zero, by less than one |
| `Reaper.CleanPass` | internal/control/reconcile.go:93-101 | after a fully successful pass each listed VM still standing is expected or young |
| `Reaper.OrphanIsNotRunning` | internal/control/reconcile.go:42-68 | under the grace condition no orphan's workflow runs, then or later |
| `Reaper.LateSurfacingIsReaped` | internal/reconcile/reconcile.go:26-44 | without it, a running workflow's VM is reaped |
| `Reaper.SafeExactlyWhenGraceCovers` | internal/control/reconcile.go:28-29 | the reaper is safe if and only if lag, paging and a second of truncation fit the whole seconds of the grace period |
| `Reaper.FractionOfGraceIsLost` | internal/reconcile/reconcile.go:38-40 | periods that fit the exact grace period can be unsafe |
| `Dedupe.LruSet.Seen` | internal/connectors/linear.go:385-411 | a key is a duplicate exactly when it is among the last cap admitted |
| `Dedupe.FeedRefinesWindow` | internal/connectors/linear.go:397-411 | after any calls the set is the order queue, without duplicates, at most cap long |
| `Dedupe.SeeKeepsWindow` | internal/control/workflow.go:153-166 | one call keeps the window, in the workflow's dedupe too |
| `LinearPickup.MutualExclusion` | internal/connectors/linear.go:413-434 | under every interleaving at most one goroutine is inside the pickup of an issue |
| `LinearPickup.MutexIsNeverReplaced` | internal/connectors/linear.go:423-434 | a key keeps its mutex for ever |
| `LinearPickup.StepKeepsLocks` | internal/connectors/linear.go:423-434 | every step keeps the two-level lock's invariant |
| `LinearPickup.StepKeepsLatch` | internal/connectors/linear.go:169-202 | a moved issue is not up for pickup, and nobody inside is about to dispatch it again |
| `LinearPickup.RedispatchNeedsReopening` | internal/connectors/linear.go:160-202 | between two dispatches of an issue the first one's move was tried, and if it left the issue started somebody reopened it after it |
| `LinearGuards.PickupExactly` | internal/connectors/linear.go:171-202 | one pickup dispatches if and only if the issue was fetched, labelled and in a to-do state, no workflow ran for it, its repository was known and the start worked |
| `LinearGuards.DispatchedWasFresh` | internal/connectors/linear.go:171-190 | under every interleaving each dispatch was of an issue so fetched under its lock |
| `LinearRedispatch.RedispatchedExactly` | internal/linear/client.go:296-313 | some interleaving dispatches an issue twice with this result of the move in between and no reopening, if and only if the result is a missing started state or a failure without effect |
| `LinearRedispatch.StartedIsNotRedispatched` | internal/connectors/linear.go:176-178 | after a move that leaves the issue started, no interleaving dispatches it again before somebody reopens it |
| `LinearRedispatch.TwiceRedispatches` | internal/connectors/linear.go:160-202 | after any other result one run dispatches it twice |
| `RepoConfig.ProfileRank` | internal/control/repoconfig.go:169-189 | the position in the sorted names, or -1 exactly for an undefined profile |
| `RepoConfig.SmallerRanksLower` | internal/control/repoconfig.go:176-182 | a strictly smaller profile ranks lower, even across two sorts that order ties differently |
| `RepoConfig.ResolveConfig` | internal/control/repoconfig.go:191-278 | the local reassignments and warnings give exactly the resolution |
| `RepoConfig.GrantedIsDefined` | internal/control/repoconfig.go:198-210 | the granted profile exists if and only if the requested or default one does, and the maximum if there is one |
| `RepoConfig.GrantedIsMinimum` | internal/control/repoconfig.go:198-209 | then its size is the smaller of requested and maximum in (vCPUs, memory) order, or the requested one without a maximum, whatever the sorts |
| `RepoConfig.SizesStayInProfile` | internal/control/repoconfig.go:210-216 | overrides are cut to the granted profile and never below 1 vCPU and 512 MiB, with or without a maximum |
| `RepoConfig.ClampsExactlyWhenGrantable` | internal/control/repoconfig.go:198-216 | over all overrides: none exceeds the granted profile if and only if the request is grantable |
| `RepoConfig.ClampsExactly` | internal/control/repoconfig.go:301-309 | for any box: if and only if the granted profile has at least 1 vCPU and 512 MiB |
| `RepoConfig.UngrantablePassesOverrides` | internal/control/repoconfig.go:301-309 | otherwise every override above the floor goes through unchanged |
| `RepoConfig.GuardrailsHold` | internal/control/repoconfig.go:218-256 | model and agent are allow-listed or the default; keep_alive stays within the hard TTL; ceiling and TTL are the operator's |
| `RepoConfig.SilentMeansGranted` | internal/control/repoconfig.go:198-256 | no warnings if and only if profile, model, agent and keep_alive were granted as asked and nothing operator-only was asked for |
| `RepoPrecedence.FirstNonEmptyIs` | internal/control/repoconfig.go:280-287 | the first value that is not blank, and empty exactly if all are |
| `RepoPrecedence.ModelPrecedence` | internal/control/repoconfig.go:218-223 | the task's model beats the repository's beats the box's; one that is not listed gives the box's |
| `RepoPrecedence.AgentPrecedence` | internal/control/repoconfig.go:225-230 | the repository's agent (if listed) and instructions beat the box's |
| `RepoPrecedence.SizePrecedence` | internal/control/repoconfig.go:198-216 | the repository's profile if defined, else the box's, cut to the maximum, unless the task overrides |
| `RepoPrecedence.PolicyPrecedence` | internal/control/repoconfig.go:232-256 | rounds, CI fixing and keep_alive are the repository's where set; ceiling and TTL the box's |
| `RepoPrecedence.WarnsExactly` | internal/control/repoconfig.go:198-270 | each warning is given exactly when its adjustment is made, with the right names |
| `RepoConfig.SilentCutsExactly` | internal/control/repoconfig.go:191-216 | a per-task size is cut if and only if it is below the floor or above the granted profile, and in a run without warnings above the requested one |
| `RepoConfig.SilentCut` | internal/control/repoconfig.go:191-193 | eight vCPUs asked of a profile with two give two, without a warning |
| `RepoConfig.AlwaysExceedsExactly` | internal/control/repoconfig.go:204-208 | for any box and name: warned about under every two sorts if and only if it is larger than the maximum or the maximum is undefined |
| `RepoConfig.SometimesExceedsExactly` | internal/control/repoconfig.go:169-189 | warned about under some two sorts if and only if that holds, or it is as large and the maximum has a twin |
| `RepoConfig.MaximumExceedsItself` | internal/control/repoconfig.go:204-208 | of two equal profiles the maximum is asked for and said to exceed itself |
| `ActivityTail.Tailer.OnTick` | dashboard/activity.go:70-110 | one tick takes in as many bytes after the offset as the read gives, the file has and 8 MiB allow, without repeating or skipping one of a growing file |
| `ActivityTail.Tailer.Consume` | dashboard/activity.go:91-104 | lines parsed, carried partial and numbering are those of all bytes read so far |
| `ActivityTail.Tailer.CutLines` | dashboard/activity.go:94-104 | the inner loop parses every complete line and keeps the rest |
| `ActivityTail.Tailer.SendAll` | dashboard/activity.go:133-137 | events get consecutive numbers |
| `ActivityTail.ReadOn` | dashboard/activity.go:91-100 | cutting the carried bytes and the new ones is cutting the whole file |
| `ActivityTail.LongerFileAddsLines` | dashboard/activity.go:62-64 | the lines of a longer file extend those of the shorter, however it was read |
| `EnvFile.ReadSecretValue` | dashboard/secrets.go:228-246 | the first line with the key, up to the scanner's limit, or the whole file |
| `EnvFile.UpsertEnvLine` | dashboard/secrets.go:313-338 | the loops give the edited lines, ended by a line break |
| `EnvFile.EditedOneLine` | dashboard/secrets.go:313-332 | one line changes, the first with the key, to key=value; a new one is added after the last line that is not blank, and only blank lines at the end are dropped |
| `EnvFile.FindFirst` | dashboard/secrets.go:238-244 | the scan finds the first line with the key if and only if no line up to it is over the limit |
| `EnvFile.ReadAfterUpsert` | dashboard/secrets.go:230-246 | reading a written key gives the trimmed value if no line up to the written one is over the scanner's limit, and nothing otherwise |
| `EnvFile.OtherKeysUnchanged` | dashboard/secrets.go:313-338 | another key reads differently if and only if the edit swaps a line within the scanner's limit for one over it, or back, and the key is first found behind that line |
| `EnvFile.UpsertOverwrites` | dashboard/secrets.go:313-338 | a second write replaces the first exactly |
| `EnvFile.WholeFileReadsBack` | dashboard/secrets.go:295-299 | a whole-file secret reads back trimmed |
| `Lines.JoinSplit` | dashboard/web/app.js:1163 | joining the pieces of a split gives the text back |
| `Lines.SplitJoin` | dashboard/secrets.go:333 | splitting joined lines gives the lines back |
| `Lines.SplitConcat` | dashboard/activity.go:93-100 | splitting a concatenation glues the last piece to the first |
| `Text.TrimIs` | dashboard/secrets.go:236 | trimming takes off exactly the white space at both ends |
| `SessionId.ValidIs` | internal/session/session.go:19 | a session id is "s_" and 26 characters of Crockford's base32 |
| `SessionId.TapNameIs` | internal/session/session.go:82-90 | the tap name fits fifteen characters and starts with the session's |

## Left out

- Chat text, acknowledgements, screenshots, phase strings and search attributes: they steer nothing modelled.
- The token counter, the review-round limit and the Linear stage moves of the workflow: counted or sent, never branched on.
- Legacy GetVersion branches and Temporal replay; NATS delivery beyond "an event may be lost".
- The `code tunnel` goroutines, the heartbeat and the guest's idle countdown as a clock (the idle event may come at any select).
- Agents that run git themselves inside a turn, or create a PR outside the supervisor.
- SteeringQueue.Queue.Append: a write is all or nothing; a torn write, and bytes that are not valid UTF-8, are not modelled.
- GuestLoop.MessagesAreConserved: Append and Drain are single steps, so a message appended between the read and the removal of one drain is not covered.
- FleetAgent.VMManager.LaunchVM: a call whose search for a block never returns is excluded (`Network.EndlessExactly`); pid reuse by another process, distinct tap names and the payload of the metadata service are not modelled; the directory listing is taken in name order, so its sort is the identity.
- Network.Allocate: a subnet of prefix length 0 with every block used is excluded, because the search then never returns (`Network.EndlessExactly`).
- Reaper.Fleet.Reconcile: activity retries are part of each activity's result; the schedule and its overlap policy are left out.
- LinearPickup.RedispatchNeedsReopening: a dispatch that failed to report but started a workflow counts as no dispatch; panics and process restarts between lock and unlock are not modelled.
- RepoConfig.ResolveConfig: YAML parsing and the text of warnings; costs are reals.
- ActivityTail.Tailer.OnTick: what one log line parses to is an arbitrary function of the line; keep-alive comments are left out.
- EnvFile.UpsertEnvLine: the temporary file and rename, permissions and service restarts.
- HTTP, TLS, JWT minting, signature checks, image building and the dashboard's views.
