# Verified model of the agent service's protocols

A Dafny model of seven parts of the service that have invariants worth keeping, and proofs
about them. Database tables are sequences or maps of rows, each transaction or conditional
update is one atomic step, and time is an integer clock that never goes back. Where several
processes share rows, the model is a state machine over single statements in which handlers,
requests, ticks and other processes interleave freely; where the code is a loop or an object
that changes in place, it is a method or a class proved against a function of its inputs.

Check everything with `dafny verify dfyconfig.toml`.

| files | what they model |
|---|---|
| `ShardBalance`, `Shards`, `ShardSuite` | the split of the test suite over CI shards (`conftest.py`) |
| `AgentTasks`, `TaskRuns` | one agent task, its turns and the handlers a turn's end starts (`apps/agent_tasks/services.py`) |
| `AdmissionRules`, `AdmissionGates`, `AdmissionDesk`, `DeskFates`, `DeskRuns` | admission rules on partial information, what they make of turns, the sweep, and whole runs (`apps/admission/evaluate.py`, `models.py`) |
| `Notices`, `NoticeLeases`, `NoticeSpacing`, `NoticeTable` | sender notices: recorded, leased, reported, expired (`apps/admission/notices.py`, `runner_notices.py`) |
| `RunSteps`, `RunDocs`, `RunIds`, `RunFork` | run documents, run ids and forks (`apps/agent_runs/documents.py`, `stores.py`) |
| `RoutingTable`, `RoutingRoutes` | the routing rows of an agent (`apps/agents/api_routing.py`) |
| `Scaffold` | pushing an agent's scaffold to a repository (`apps/agents/creation.py`) |
| `Basics`, `Ordering`, `Lists`, `Decimal` | options, stable sorting and string order, filtering, decimal text |

## What the proofs found

The model follows the code. Where the code does less than its documentation says, a failing
run or input is given, and the exact condition under which it does what is said:

- A handler left behind by a faster one can still fail a task that has moved on: when its
  enqueue raises (`TaskRuns.LateRaiseFailsTask`), when it pointed the task at a turn already
  over (`TaskRuns.DeadTurnFailsNewerTurn`), or when the deadline has passed. In exactly which
  phases it cannot is `TaskRuns.StaleHandlerIsInert`; the single statements that reach the
  task, on which that rests, are those of `TaskRuns.HandlerReach`.
- A follow-up turn can end before the task points at it; its end is then heard by nobody and
  only the deadline ends the task (`TaskRuns.EndHeardTooEarly`). An end is followed up if and
  only if a handler is still at work for it or it is announced once the task is on that turn
  (`TaskRuns.FollowedUpIffHeard`).
- A turn may be sent for a task that has ended (`TaskRuns.TurnForAnEndedTask`), by a handler's
  enqueue under a free key and nothing else (`TaskRuns.SendsForEnded`): at most one,
  which the task never points at (`TaskRuns.AtMostOneTurnAfterTheEnd`), and if and only if
  `TaskRuns.EndedTaskMayGetATurn` says so.
- An early rejection is sound without the clause of `clean` that keeps `reach` off allow
  rules (the choices stored for `reach` are enough). What every claim would reject is more
  than what enqueue rejects: reject rules can cover all runner kinds between them
  (`AdmissionGates.ThreeKindRules`). The two differ exactly as `AdmissionGates.EarlyRejectWithin`
  says, and not at all over an unbounded vocabulary (`AdmissionGates.EarlyRejectIsExact`, which
  does need that clause: `AdmissionGates.ReachOnAllowHidesRejection`).
- `expire` writes `failed` to rows it read earlier without looking again, so a report of
  `sent` made more than a day after the notice can be lost. It is final exactly when no
  expiry pass has read the row (`NoticeLeases.ReportStandsIffUnread`, from
  `NoticeLeases.SettledExactly`).
- `claim` stamps leases with a clock it read before it took the rows, so a stamp may precede
  its notice and a 97th lease happens (`NoticeLeases.LeasesReach97`). The bound for every lag
  is `NoticeLeases.LeaseBound`, and 96 is kept exactly when the stamp is under 96 µs early
  (`NoticeLeases.AtMost96Exactly`).
- The 24-hour window is looked at and recorded in two statements. The spacing survives exactly
  while the deliveries in flight are clear of the rows and of each other
  (`NoticeSpacing.SpacingHolds`), and a delivery's check keeps it so exactly when it meets no
  other turn's on the thread under the id that is stored
  (`NoticeSpacing.CrowdedCheckBreaksSpacing`). Thread ids over the 64 characters stored break
  it without any overlap (`NoticeSpacing.LongThreadBreaksSpacing`); shorter ones need one
  (`NoticeSpacing.ShortThreadsOnlyOverlap`).
- Ending a run document without naming its iteration leaves its last step running, so the
  derived status contradicts the stored one (`RunDocs.SilentEndNeverReadsDone`); which writes
  keep the two together is exact in `RunDocs.ShowsExactly`. A state whose `iteration` is the
  truth value True gets a current step that does not exist (`RunDocs.CurrentStepExists`).
- Forks compose only as long as the second is taken no later than the first, or the steps in
  between have nothing to carry over (`RunFork.ForksComposeExactly`).
- The wholesale rule write accepts a person's rule on the scheduler that the other writes
  refuse; the route it shows cannot be sent back (`RoutingRoutes.SchedulerRuleForAPerson`,
  `RoutingRoutes.ListedRouteCanBeSentBack`).
- A push into a repository that was empty when inspected replaces a file others pushed in the
  meantime (`Scaffold.ReadyPushCanOverwrite`); no other push overwrites anything
  (`Scaffold.NextKeepsContent`).

## Model

| member | source | states |
|---|---|---|
| ShardBalance.LastFileFits | conftest.py:251-263 | With files in decreasing order, if the last one is more than a third of a bound that some assignment meets, then the greedy puts it where it fits the bound: the counting step of the 4/3 theorem |
| ShardBalance.GrahamBound | conftest.py:257-263 | In any order, m times the greedy's largest load is at most (2m−1) times the largest load of every other assignment to m shards |
| ShardBalance.LargestFirstBound | conftest.py:251-263 | In decreasing order, 3m times the greedy's largest load is at most (4m−1) times that of every other assignment |
| ShardBalance.SpreadBound | conftest.py:257-263 | Any two greedy loads differ by at most the largest file |
| ShardBalance.LoadsSumToTotal | conftest.py:251-263 | The loads of any assignment to m shards add up to all the files |
| Shards.IndexOfMin | conftest.py:260 | The loop finds the first of the lightest shards |
| Shards.ShardOf | conftest.py:251-263 | The loop over sorted files answers the greedy map; it fails exactly when there are files and no shard |
| Shards.FilesInOrder | conftest.py:259 | Files are placed largest first, those of one size in dictionary order |
| Ordering.StrLeqIsDictionaryOrder | conftest.py:259 | The string order used throughout is dictionary order: a prefix first, else the first difference decides |
| Shards.SameSplitForEveryInsertionOrder | conftest.py:254-259 | The same file counts in any order give the same map, so all workers agree |
| Shards.CountFiles | conftest.py:278-280 | The counting loop is the tally of the items' files, each file once |
| Shards.TallyCounts | conftest.py:278-280 | A file's number in the tally is how many of the collected items are the file or start with its path and "::", for every path without "::" in it or a colon at its end |
| Shards.FileOfIsThePath | conftest.py:280-282 | The file of a node id is a path (no "::" in it, no colon at its end) exactly when the id is that path, or that path, "::" and more |
| Shards.Collection.ModifyItems | conftest.py:266-286 | The hook replaces the items by those of its shard, keeps everything without a spec, and fails only on splitting tests over no shards |
| ShardSuite.KeptByPosition | conftest.py:282-286 | A shard keeps items in their order, each at most once, and precisely those whose file it was given |
| ShardSuite.EveryTestOnOneShard | conftest.py:254-256 | Every collected item is kept by exactly one of the n shards |
| ShardSuite.FileStaysTogether | conftest.py:280-286 | For any collection and number of shards, two items of one file are kept by the same shard |
| ShardSuite.NoTestLost | conftest.py:251-286 | The shards together keep as many items as were collected, under every whole-file split |
| ShardSuite.SuiteBalance | conftest.py:251-286 | No shard keeps more than (4/3 − 1/(3n)) times the items that some shard keeps under any other whole-file split |
| ShardSuite.SuiteSpread | conftest.py:251-286 | Two shards' items differ in number by at most the largest file's |
| AgentTasks.StepKeeps | apps/agent_tasks/services.py:113-293 | Every single statement of every caller and handler keeps the invariant of the rows and of what handlers still hold, and only moves the task forward |
| AgentTasks.AtMostThreeTurns | apps/agent_tasks/services.py:232-293 | Under every interleaving a task has at most MAX_NUDGES+1 turns, one per key, and `nudges` is the key of its current turn, all earlier ones having ended |
| AgentTasks.EndedForGood | apps/agent_tasks/services.py:148-210 | A task is done only with a result its schema accepts, holds one only then, is finished exactly when ended, and never changes after that |
| AgentTasks.TurnNeverRepeats | apps/agent_tasks/services.py:268-293 | A turn the task has left is never its turn again, which makes the guard on the ended turn safe |
| TaskRuns.StaleHandlerIsInert | apps/agent_tasks/services.py:240-293 | A handler for a turn the task has left changes it in no continuation iff the task has ended or the handler is in a harmless phase: about to read or to point; about to send, if its enqueue may not raise; about to expire its copy, if besides the deadline is not reached; never about to fail |
| TaskRuns.DeadTurnFailsNewerTurn | apps/agent_tasks/services.py:290-293 | A run without any raise in which a handler that pointed the task at a dead turn fails it on a newer, queued one |
| TaskRuns.HeardEndIsFollowedUp | apps/agent_tasks/services.py:232-258 | A turn end that found its turn current leads, in every interleaving, to an ended task or a newer turn |
| TaskRuns.FollowedUpIffHeard | apps/agent_tasks/services.py:232-293 | Within the deadline, and with no cancel, accepted result or raise, the current turn's end is followed up iff a handler is at work for it, or about to fail the task, or it is announced from now on |
| TaskRuns.LivingOnNeverSends | apps/agent_tasks/services.py:253-265 | In every interleaving a handler whose turn's session lives on never reaches an enqueue, and no statement of its own adds a turn |
| TaskRuns.LivingSessionsSendNothing | apps/agent_tasks/services.py:253-265 | While every session lives on no follow-up is sent and the task stays on its turn |
| AgentTasks.FollowedUp | apps/agent_tasks/services.py:232-293 | An uninterrupted handler leaves the task ended or with a live turn, and does nothing for any other turn than the current one |
| TaskRuns.LateRaiseFailsTask | apps/agent_tasks/services.py:286-289 | A run in which a late handler's failed enqueue fails a task whose new turn is queued |
| TaskRuns.EndHeardTooEarly | apps/agent_tasks/services.py:240-248 | A run in which every end was announced and the task is still open on an ended turn |
| TaskRuns.TurnForAnEndedTask | apps/agent_tasks/services.py:184-192 | A run in which a turn is sent for a task that was cancelled |
| TaskRuns.AtMostOneTurnAfterTheEnd | apps/agent_tasks/services.py:268-293 | After its end a task gets at most one more turn in any run, and never points at it |
| TaskRuns.EndedTaskMayGetATurn | apps/agent_tasks/services.py:232-285 | It may still get one iff its newest turn is its current one, follow-ups are left, and a handler is about to send the next or holds a copy of the task |
| AgentTasks.TaskStore.Create | apps/agent_tasks/services.py:113-145 | The new task and its turn, failed at once if the turn is refused |
| AgentTasks.TaskStore.EndTask | apps/agent_tasks/services.py:148-156 | The conditional end: whether it moved, and the whole new row |
| AgentTasks.TaskStore.DropQueuedTurn | apps/agent_tasks/services.py:159-165 | Cancels the task's turn exactly when nobody has started it |
| AgentTasks.TaskStore.SubmitResult | apps/agent_tasks/services.py:168-175 | Invalid results change nothing; a valid one is the submit step of the protocol |
| AgentTasks.TaskStore.CancelTask | apps/agent_tasks/services.py:178-181 | The cancel step, and then the turn's cancellation if it was still queued |
| AgentTasks.TaskStore.ExpireTask | apps/agent_tasks/services.py:184-192 | The expiry step and the turn's cancellation, exactly for an open task past its deadline |
| AgentTasks.TaskStore.MarkTaskRunning | apps/agent_tasks/services.py:205-210 | The mark-running step |
| AgentTasks.TaskStore.Nudge | apps/agent_tasks/services.py:268-293 | Leaves the rows that the handler's enqueue, pointer and failure statements leave |
| AgentTasks.TaskStore.OnTurnEnded | apps/agent_tasks/services.py:232-258 | Leaves the rows that the whole handler leaves with nothing in between |
| AgentTasks.HandlerAnswers | apps/agent_tasks/services.py:232-293 | Every case of an uninterrupted handler: another turn or an ended task, the deadline, a stopped turn, a session that lives on, no follow-ups left, an enqueue that raises, a follow-up sent, and one that is over already; with the whole task, turns and keys left |
| AgentTasks.TaskTable.ExpireOverdue | apps/agent_tasks/services.py:195-202 | Fails exactly the first 500 open overdue tasks, drops their turns that are still queued, and counts them |
| AgentTasks.TickShrinksBacklog | apps/agent_tasks/services.py:195-202 | A tick takes 500 overdue tasks off the backlog, or all of them |
| AdmissionRules.ScanConditions | apps/admission/evaluate.py:90-105 | The scanning loop gives the same answer for every order of the conditions |
| AdmissionRules.MatchRule | apps/admission/evaluate.py:90-105 | `match` over the declared conditions |
| AdmissionRules.MatchIsKleene | apps/admission/evaluate.py:90-105 | True iff every completion of the unknown facts satisfies the rule, False iff none does |
| AdmissionRules.MatchIsMonotone | apps/admission/evaluate.py:90-105 | Learning more facts never reverses a definite answer |
| AdmissionRules.ReadModeNamesAreOne | apps/admission/evaluate.py:100-101 | The two stored names of read mode match alike, in rules and in turns |
| AdmissionGates.IntakeMatch | apps/admission/evaluate.py:72-105 | What matching comes to at enqueue, condition by condition: no, not known yet, or yes |
| AdmissionGates.ReachMatch | apps/admission/evaluate.py:90-132 | The same where the turn's standing towards its runners is known, with the hours an offline rule waits |
| AdmissionGates.WholeMatch | apps/admission/evaluate.py:72-105 | The same at a claim, where everything is known |
| AdmissionRules.DecideMeaning | apps/admission/evaluate.py:160-169 | Nobody if some allow rule may still cover the turn or no reject rule matches; else a matching reject rule that sets more conditions, its agent among them, than every other, the lowest key among equals |
| AdmissionRules.SpecificityCounts | apps/admission/models.py:143-144 | Specificity is the number of fields a rule sets, and one for a named agent |
| AdmissionRules.DecideIgnoresOrder | apps/admission/evaluate.py:160-169 | Any permutation of the rules decides by the same rule |
| AdmissionGates.EarlyRejectIsSound | apps/admission/evaluate.py:172-187 | A rejection at enqueue by a rule without `reach` is made by every claim too, by that rule or one that sets more conditions, or as many and is older |
| AdmissionGates.EveryClaimRejectsExactly | apps/admission/evaluate.py:72-105 | Over any vocabulary of runner kinds and modes, every claim rejects iff no allow rule may still cover the turn and the reject rules that may match cover every kind and mode between them |
| AdmissionGates.EarlyRejectWithin | apps/admission/evaluate.py:172-187 | Over any vocabulary, enqueue rejects by a rule without `reach` iff every claim rejects and one of those reject rules names neither kind nor mode |
| AdmissionGates.RulesPerKindAreNotSeenEarly | apps/admission/evaluate.py:172-187 | Reject rules that each name a kind, and every kind between them, reject every claim while enqueue lets the turn in |
| AdmissionGates.ThreeKindRules | apps/admission/models.py:71-72 | Three such rules over the kinds stored |
| AdmissionGates.EarlyRejectIsExact | apps/admission/evaluate.py:172-187 | The case of an unbounded vocabulary: enqueue rejects on such a rule iff every claim of whatever kind and mode would |
| AdmissionGates.ReachOnAllowHidesRejection | apps/admission/models.py:165-168 | Without the clause on allow rules that fails: the rules and the turn |
| AdmissionGates.RefusalRulesNeverDecide | apps/admission/models.py:135-140 | A rule about refusals canopy makes on its own never decides another turn, at enqueue, recheck or claim |
| AdmissionDesk.RecheckMeaning | apps/admission/evaluate.py:190-204 | What a recheck refuses, it refuses by an enabled reject rule whose wait is over |
| AdmissionDesk.PrefilterHidesNothing | apps/admission/evaluate.py:229-253 | Every queued turn a plain scan would reject on an offline rule passes the age filter and is rejected by the sweep |
| AdmissionDesk.LookedRecently | apps/admission/evaluate.py:233-236 | At every tick some process looked less than five minutes ago or looks now, however many share the clock |
| AdmissionDesk.RejectedInTime | apps/admission/evaluate.py:224-253 | A turn that stays offline with no allow rule that could cover it is rejected within six minutes of any moment from the end of its rule's wait on in which no look is cut short before it |
| DeskRuns.StrandedTurnIsDecided | apps/admission/evaluate.py:172-253 | Over whole runs of intakes, claims, rechecks and the sweeps of any number of processes, a turn that an offline rule strands once its wait is over is decided within six minutes of any later moment around which every look finds it offline and gets to it, for good, and as rejected unless a runner claimed it |
| AdmissionDesk.WholeLookRejectsStranded | apps/admission/evaluate.py:236-253 | A look rejects every such turn it gets to |
| AdmissionDesk.Desk.RejectTurn | apps/admission/evaluate.py:351-382 | Rejects exactly a queued turn; each rule's count stays the number of turns it rejected |
| AdmissionDesk.Desk.Intake | apps/admission/evaluate.py:172-187 | The new row, rejected iff a rule decides so, the counts kept |
| AdmissionDesk.Desk.ClaimTurn | apps/admission/evaluate.py:308-315 | The row taken, or rejected by the claim's rule, the counts kept |
| AdmissionDesk.Desk.RecheckTurn | apps/admission/evaluate.py:190-204 | The row as `recheck` leaves it, the counts kept |
| AdmissionDesk.Desk.Look | apps/admission/evaluate.py:241-252 | Every row up to the first that cannot be placed is as a recheck leaves it, the others as before; the number of turns rejected; the counts kept |
| AdmissionDesk.Desk.Sweep | apps/admission/evaluate.py:229-253 | Throttled to five minutes, otherwise a look, and how many turns it rejected; the counts kept |
| DeskFates.IntakeRefuses | apps/admission/evaluate.py:172-187 | A new turn is rejected exactly when no applying allow rule fits it on what is known and an applying reject rule that names neither kind nor mode does, and by the one of these that says most |
| DeskFates.RecheckRefuses | apps/admission/evaluate.py:190-204 | So is a queued turn at a recheck, where it stands then, if some applying rule is about standing; else it is left |
| DeskFates.ClaimRefuses | apps/admission/evaluate.py:308-315 | A claim is rejected exactly when no applying allow rule fits it and an applying reject rule does, and by the one that says most; otherwise the turn is taken |
| DeskFates.RefusedIntakeIsSound | apps/admission/evaluate.py:172-187 | A row that intake rejects by a rule without `reach` would be rejected by every claim |
| DeskFates.EveryClaimOfARow | apps/admission/evaluate.py:308-315 | Every claim of a row over a vocabulary is rejected iff, as seen at its intake, no allow rule may cover it and the reject rules cover every kind and mode |
| DeskFates.SweptExactly | apps/admission/evaluate.py:229-253 | The sweep rechecks a turn exactly when it is queued and as old as some enabled offline reject rule waits |
| DeskFates.LookEndsExactly | apps/admission/evaluate.py:241-252 | A look gets as far as the first such turn whose standing a rule wants to know and cannot be told |
| DeskRuns.FatesAreEarned | apps/admission/evaluate.py:172-315 | Over whole runs every rejected turn was rejected by a rule of its workspace and agent that rejects and fits it, and every taken one was taken by a claim that no rule refuses |
| DeskRuns.ClaimDecides | apps/admission/evaluate.py:308-315 | A claim of a queued turn takes it if no rule refuses the claim, and decides it in any case |
| Notices.StepKeeps | apps/admission/runner_notices.py:48-137 | Every statement of deliveries, passes, claims and reports keeps rows, lease log and passes in agreement |
| NoticeLeases.LeaseBound | apps/admission/runner_notices.py:34-82 | Successive leases are more than 15 minutes apart whoever takes them, and all of them fit between the first stamp and the notice's expiry, whatever the clocks of claims |
| NoticeLeases.AtMost96Leases | apps/admission/runner_notices.py:34-37 | So at most 96 are stamped from the notice's creation on |
| NoticeLeases.AtMost96Exactly | apps/admission/runner_notices.py:34-82 | For each bound on how long before the notice's creation its first lease may be stamped: at most 96 leases in every run within the bound iff it is under 96 µs |
| NoticeLeases.AtMost97Leases | apps/admission/runner_notices.py:63-82 | And at most 97 if the first claim's clock ran behind by no more than a lease |
| NoticeLeases.LeasesReachTheBound | apps/admission/runner_notices.py:34-82 | For every lag up to a lease, runs with as many leases as the bound allows |
| NoticeLeases.LeasesReach96 | apps/admission/runner_notices.py:34-82 | A run with 96, all stamped from the notice's creation on: that bound is tight |
| NoticeLeases.LeasesReach97 | apps/admission/runner_notices.py:63-82 | A run with 97, the first claim having read its clock 200 µs before the notice |
| NoticeLeases.OnlyTheHolderReports | apps/admission/runner_notices.py:96-119 | Only the holder of the last lease changes a row by a report, and only a pending one |
| NoticeLeases.SettledStays | apps/admission/runner_notices.py:96-137 | A settled status that no pass has read as overdue never changes |
| NoticeLeases.SettledExactly | apps/admission/runner_notices.py:96-137 | A settled status stays in every continuation iff no pass is about to write the row or it is failed already |
| NoticeLeases.ReportStandsIffUnread | apps/admission/runner_notices.py:99-137 | A report of sent or skipped is final iff no expiry pass has already read the row |
| NoticeLeases.ReportInTimeStands | apps/admission/runner_notices.py:99-137 | A report within 24 hours of the notice is always final |
| NoticeLeases.LateReportCanBeLost | apps/admission/runner_notices.py:122-137 | A later one can be overwritten |
| NoticeSpacing.SpacingHolds | apps/admission/notices.py:127-174 | From any state, counted notices of different turns on one thread stay more than 24 hours apart in every continuation whose deliveries check alone iff they are so now and the deliveries in flight are clear of them and of each other |
| NoticeSpacing.CrowdedCheckBreaksSpacing | apps/admission/notices.py:144-150 | A delivery's check keeps that iff it settles on no counted status or meets no other turn's on the thread, in flight or within a day under the stored id |
| NoticeSpacing.SpacingFromTheStart | apps/admission/notices.py:127-174 | The spacing for every run from the empty table whose deliveries check alone |
| NoticeSpacing.OverlapBreaksSpacing | apps/admission/notices.py:144-150 | Any two overlapping deliveries of different turns that settled on a counted status break it |
| NoticeSpacing.LongThreadIsNeverSilenced | apps/admission/notices.py:73-77 | In every reachable state a thread id over 64 characters finds no earlier notice |
| NoticeSpacing.LongThreadBreaksSpacing | apps/admission/notices.py:73-77 | On any such thread two turns answered one after the other are both counted within the day |
| NoticeTable.Table.SenderNotice | apps/admission/notices.py:127-174 | The status in every case, the thread being answered for 24 hours by another turn's sent, held or pending notice; and the row recorded |
| NoticeTable.Table.Expire | apps/admission/runner_notices.py:122-137 | Every overdue pending row failed, the others kept, and their number |
| NoticeTable.Table.MaybeExpire | apps/admission/runner_notices.py:140-149 | The same at most once a minute |
| NoticeTable.Table.Claim | apps/admission/runner_notices.py:48-83 | After expiring, hands out exactly the rows that were pending, no more than a day old and not leased in the last fifteen minutes, of an agent that the runner reads and may hold, and whose mailbox is blank or the runner's address for it up to letter case and surrounding blanks; leases them and no others |
| NoticeTable.ClaimOutcome | apps/admission/runner_notices.py:48-83 | Row by row: what is handed out is the runner's at that moment, the rest is as the expiry leaves it |
| NoticeTable.StrippedMeans | apps/admission/runner_notices.py:62 | Stripping leaves the one core with nothing but blanks around it and none at its ends |
| NoticeTable.LowerMeans | apps/admission/runner_notices.py:78 | Two texts fold alike exactly when they agree letter by letter, big or small |
| NoticeTable.Table.ReportNotice | apps/admission/runner_notices.py:96-119 | True iff the runner holds the pending row; sent and skipped settle it, failed leaves it pending, other outcomes are an error |
| NoticeTable.UninterruptedClaim | apps/admission/runner_notices.py:48-83 | The interleaved statements of a claim, run without interruption, come to what the method says |
| RunDocs.RunDoc.constructor | apps/agent_runs/documents.py:308-321 | A new document with its version, end stamp, mirrored steps and current step |
| RunDocs.RunDoc.StampTerminal | apps/agent_runs/documents.py:251-255 | No end time while live; otherwise the first one |
| RunDocs.RunDoc.MirrorIteration | apps/agent_runs/documents.py:210-235 | The get-or-create loop over iterations is the mirroring function |
| RunDocs.RunDoc.PutState | apps/agent_runs/documents.py:336-363 | 409 and no change iff the named base is not the version; otherwise the whole written document, one version on |
| RunDocs.MirrorUpToAt | apps/agent_runs/documents.py:213-228 | What mirroring leaves, row by row: the first rows exist in order with the wanted statuses, first completion times are kept, later rows are untouched |
| RunDocs.ShowsExactly | apps/agent_runs/documents.py:210-235 | A write keeps steps 0..n in line with the run iff it does not go back, or the run is ended before and after, or it names no iteration and does not end or revive the run |
| RunDocs.DocumentRunsReadWell | apps/agent_runs/documents.py:204-235 | After any writes whose accepted ones do not go back the steps are iter-0 to iter-n, at most the last is running, and the derived status is complete iff the stored one is terminal |
| RunDocs.DerivedAgrees | apps/agent_runs/stores.py:94-119 | Rows in line with the run are listed in iteration order and derive its stored status; what is derived, status by status, is `RunSteps.DerivedExactly` |
| RunDocs.SilentEndNeverReadsDone | apps/agent_runs/documents.py:211-212 | Ending a run without an iteration leaves it deriving as in progress |
| RunDocs.CurrentStepExists | apps/agent_runs/documents.py:204-207 | A new document's current step names one of its steps unless its iteration is True |
| RunDocs.NewDocumentSteps | apps/agent_runs/documents.py:204-228 | A new document with iteration k has the steps iter-0 to iter-k, complete but for the last of a running run, and names the last as current; k is 1 for True and 0 for anything but a whole number up to 1000 |
| RunDocs.RunExtends | apps/agent_runs/documents.py:217-228 | No write loses a row, its start or its first completion time |
| RunDocs.VersionCounts | apps/agent_runs/documents.py:344-351 | The version counts accepted writes; with none the document is unchanged; the state is the last accepted write's |
| RunDocs.OverwritesWhatItRead | apps/agent_runs/documents.py:344-350 | A write naming the version it read is accepted iff the document is still exactly the one read, whatever forced writes came between |
| RunDocs.AcceptedWritesChain | apps/agent_runs/documents.py:344-351 | When every writer names its base the accepted writes are based on consecutive versions |
| RunDocs.OneWinnerPerBase | apps/agent_runs/documents.py:344-351 | Exactly one write is accepted per version passed, and on the current version iff anyone wrote on it |
| RunDocs.EndStampMatchesStatus | apps/agent_runs/documents.py:251-255 | Through any writes the end time is set iff the status is terminal |
| RunDocs.FirstEndTimeStays | apps/agent_runs/documents.py:251-255 | An ended run keeps its first end time until an accepted write revives it |
| Decimal.ParseOfPadded | apps/agent_runs/documents.py:197-201 | Parsing a zero-padded number gives it back, for every number |
| RunIds.NextNumberIsLeast | apps/agent_runs/documents.py:192-201 | The number minted is the least one at or above `min_seq` that passes every number in use for the day |
| RunIds.NextIdIsFresh | apps/agent_runs/documents.py:192-201 | The next id is not in the table, parses back and exceeds every number of its prefix |
| RunIds.NextIdIgnoresOrder | apps/agent_runs/documents.py:196-201 | The order of the rows read does not matter |
| RunIds.MintedSpelling | apps/agent_runs/documents.py:192-201 | A minted id is the subject, or `run`, the day and a number of three digits or more, with no zero in front of more than three |
| RunIds.SubjectsAndDaysDiffer | apps/agent_runs/documents.py:192-201 | Different subjects, or days of one length, never share a minted id, whatever the tables |
| RunIds.MintsWhatWasAsked | apps/agent_runs/documents.py:305-322 | However requests interleave, what a request mints is of its own subject and numbered from its own `min_seq` on |
| RunIds.NamedRequests | apps/agent_runs/documents.py:306-327 | A request that names its id ends as created under it or as taken, by whether the table holds it at its insert; no other is ever taken |
| RunIds.NoSharedIds | apps/agent_runs/documents.py:305-327 | However requests interleave no id is in the table twice, nor created by two requests |
| RunIds.LossesAreRivalsCommits | apps/agent_runs/documents.py:305-327 | However requests interleave, each id that a request has lost so far was inserted by a different other request between that attempt's look and its insert, whether the request goes on to succeed, is still trying or gives up |
| RunIds.GivingUpTakesFiveRivals | apps/agent_runs/documents.py:305-327 | So a minting request gives up only after five other requests inserted the five ids it lost, all since it began |
| RunIds.UndisturbedMintSucceeds | apps/agent_runs/documents.py:305-323 | With no insert in between the attempt succeeds |
| RunIds.RunTable.Attempt | apps/agent_runs/documents.py:306-322 | One attempt inserts its id iff it is still free once the rivals have committed; a minted one can only be lost to them |
| RunIds.RunTable.CreateRun | apps/agent_runs/documents.py:305-327 | The retry loop: a fresh id appended, a named id refused iff taken, or 409 after losing one id to others in each of five attempts |
| RunFork.RunStore.ForkAt | apps/agent_runs/stores.py:188-252 | Refuses unknown modes, runs and steps; otherwise appends the fork and touches no other run |
| RunFork.RunStore.CopyStep | apps/agent_runs/stores.py:217-252 | The copying loop over one step's decisions is the forked step |
| RunFork.ForkIsNeverComplete | apps/agent_runs/stores.py:218-226 | A fork always derives as in progress |
| RunFork.CarriedWithoutEdits | apps/agent_runs/stores.py:237-240 | Without edits the decisions carried over are exactly those that survive the mode |
| RunFork.NamedModes | apps/agent_runs/stores.py:188-240 | "keep-all" carries every decision over as it is, "keep-overrides-only" those overridden and no others; there is no third mode |
| RunFork.EditsOnlyTouchSurvivors | apps/agent_runs/stores.py:236-252 | Edits neither add, drop nor reorder carried-over decisions |
| RunFork.CarriedStatus | apps/agent_runs/stores.py:237-252 | Under keep-overrides-only every carried-over decision is overridden, unless its edit names another status |
| RunFork.ForksComposeExactly | apps/agent_runs/stores.py:188-252 | A fork of a fork equals the direct fork in the more restrictive mode, up to lineage, iff no step between the two fork points has anything to carry over |
| RunFork.ForksCompose | apps/agent_runs/stores.py:188-252 | In particular whenever the second fork is taken no later than the first |
| RoutingTable.RunKeeps | apps/agents/api_routing.py:301-732 | Any requests by anyone keep ranks 0..n−1, distinct runners, one strictness and one mode in every rule |
| RoutingTable.OthersUntouched | apps/agents/api_routing.py:336-345 | No sequence of requests changes the rows of a rule none of them is about |
| RoutingTable.OfReplaced | apps/agents/api_routing.py:490-504 | After a write each rule in its scope has the rows sent, or none, and each other rule the very rows it had |
| RoutingTable.AcceptedExactly | apps/agents/api_routing.py:73-717 | Each request is accepted iff it is well formed and every rule in it names, of runners not on that rule, only those the caller may add, of runners on it, only those in service, and sets `auto` anew only for an admin; a refusal gives a true reason |
| RoutingTable.RunnersWereAdded | apps/agents/api_routing.py:73-121 | Over any history a runner is on a rule only if it was at the start, or a call by a caller who may add it put it there |
| RoutingTable.AdminsSetAuto | apps/agents/api_routing.py:405-461 | And a rule is `auto` only if it was at the start, or an admin's call set it |
| RoutingTable.RuleIsStored | apps/agents/api_routing.py:490-504 | An accepted rule is stored as sent, runner by runner, under the empty actor if it is about anyone |
| RoutingTable.RulesAreStored | apps/agents/api_routing.py:428-480 | So is each rule of a wholesale write |
| RoutingTable.IdsAreStored | apps/agents/api_routing.py:301-345 | A default list sent as bare ids is stored in their order with every runner enabled |
| RoutingTable.SavingAgainTakesNoRights | apps/agents/api_routing.py:73-93 | Saving a rule as it stands is accepted from anyone while its runners are in service, and changes nothing in it |
| RoutingTable.RoutingRows.DeleteInScope | apps/agents/api_routing.py:694-697 | Deletes exactly the rows in scope |
| RoutingTable.RoutingRows.InsertRules | apps/agents/api_routing.py:698-708 | Appends the rules' rows, rank being the position sent |
| RoutingTable.RoutingRows.Save | apps/agents/api_routing.py:301-732 | A refused request changes nothing; an accepted one replaces its scope |
| RoutingRoutes.ListActorRoutes | apps/agents/api_routing.py:618-653 | The two grouping loops and the final sort are the listing function |
| RoutingRoutes.ListedInOrder | apps/agents/api_routing.py:653 | Routes are listed by person, and one person's by their sources, in dictionary order |
| RoutingRoutes.ListedRulesInOrder | apps/agents/api_routing.py:618-625 | Rules are listed by source, actor and rank |
| RoutingRoutes.RoutesAreLossless | apps/agents/api_routing.py:625-653 | The listed routes, written out over their sources and ranked runners, are exactly the per-person rows of the table |
| RoutingRoutes.ReachableRoutesAreLossless | apps/agents/api_routing.py:625-653 | So for every table that requests can reach |
| RoutingRoutes.SetThenList | apps/agents/api_routing.py:656-717 | Setting a person's route and listing gives one route: what was sent, on the sources sent, in order |
| RoutingRoutes.ListedRouteCanBeSentBack | apps/agents/api_routing.py:672-681 | With every right, a listed route is accepted back iff each of its sources carries a person |
| Scaffold.StepKeeps | apps/agents/creation.py:198-238 | Every call of every push, and others' pushes, keep what pushes know of the branch true and only move it forward |
| Scaffold.NextKeepsContent | apps/agents/creation.py:198-238 | Whoever else pushes, a call leaves every existing file as it is unless it ends a push into a repository found empty that now has a different file under a template path |
| Scaffold.UpdateNeverOverwrites | apps/agents/creation.py:209-214 | A push into a repository with content never changes a file |
| Scaffold.PushOntoEmptyNeverOverwrites | apps/agents/creation.py:215-223 | Nor one whose first file went into a still empty repository |
| Scaffold.ReadyPushCanOverwrite | apps/agents/creation.py:215-223 | The remaining race, for any template path |
| Scaffold.TryStaysPushable | apps/agents/creation.py:131-171 | Wherever a try is cut off, inspecting again answers ready, update or adopt, and no content has changed |
| Scaffold.FullTryAdopts | apps/agents/creation.py:131-238 | An uninterrupted try ends in adopt with every expected path |
| Scaffold.PushableExactly | apps/agents/creation.py:131-171 | A repository is pushed to or adopted iff it is visible and empty, or its manifest names the agent, or it has nobody's manifest and only starter files; which refusal it is otherwise, and then no try changes it |
| Scaffold.TryIsARun | apps/agents/creation.py:198-238 | A try is the run of interleaved steps in which nothing comes between its calls; a call that leaves the repository as it was ends it (`RefusedCallEnds`), and a push cut off writes no more (`CutOffStops`) |
| Scaffold.RetriesConverge | apps/agents/creation.py:84-238 | After any number of tries cut off anywhere, one that is not ends in adopt with every expected path, all earlier content unchanged |
| Scaffold.Hosted.Scaffold | apps/agents/creation.py:198-238 | The push as one routine, cut off after any number of calls: when it succeeds, and that it reports the number of paths added |

## Left out

- Calls to Django, GitHub, mail and chat services, prompts, notice texts, event logs and audit rows: only their effect on the modelled rows is kept.
- The long poll `wait`: it only re-reads a task and expires it.
- Validation of a task's result: any predicate; its `enqueue_turn` is get-or-create by key, may refuse the turn or raise.
- AgentTasks.TaskTable.ExpireOverdue: takes overdue tasks in table order, where the query names no order.
- The auto rules of admission (`auto_rule`, `record_auto`) and `at_refusal`: they never decide whether a turn runs.
- Hours waited are whole clock units compared exactly, where the code divides seconds in floating point.
- DeskRuns.StrandedTurnIsDecided: the rules and what a turn says of itself do not change during a run, and a look is one step, which other requests come before or after.
- AdmissionDesk.RejectedInTime: assumes that the off-request clock keeps ticking every minute.
- AdmissionDesk.Desk.Look: takes rows in the order of their creation as stored; a failure other than in placing a turn is not modelled.
- Owner notices, the reasons not to reply to a sender, and the time between a hosted send and its record.
- NoticeTable.LowerMeans: folds the ASCII letters only; addresses with others are compared as written.
- Whether a leased notice is delivered once: a runner can send and die before it reports.
- Judge verdicts and scores mirrored beside iteration steps, and a document's summary, project and labels.
- RunIds: deletion of runs, and ids that outgrow the 255-character column.
- RunFork: artifacts and gates (never copied), and statuses set to null by an edit.
- `create_run`, `record_gate`, `record_decision`, `record_verdict` of the run store: single inserts.
- The role gates of routing; which runners a caller may add, which are in service and whether it may set `auto` are parameters, and the answers 403 and 422 for a runner it may not add are one refusal.
- Parsing of e-mail addresses in routing: a request carries the outcome.
- Sorting by source and actor is by code point, where a database may use another collation; one agent's rows are modelled, other agents' being filtered out of every query.
- Two routing writes at once: each is one step.
- Force pushes that take a branch back, path clashes between files and directories, and the manifest being read a moment after the tree.
