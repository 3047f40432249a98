# Production and publishing, proved

This project models how a post is planned, produced, reviewed, approved, scheduled and published, and
proves what holds of it on every interleaving. Each transaction and each conditional update of the
source is one atomic step; a queue is a set of messages that may be delayed, repeated or lost; sha256 is
injective; language-model output, provider replies, clocks and database read orders are arbitrary inputs.

The code that updates rows is modelled twice: as classes and methods with the source's loops
(`PublishingStore`, `GraphStore`, `TakeStore`, `TaskGraphValidator`, `PlanTasks`, `Kahn`, `Progress`,
`EventStream`, `Hub`, `Slots`), each proved to leave exactly the rows a function describes, and as
those functions, composed into state machines about which the theorems are proved. What the functions
mean is proved apart from them: the lemmas of `PublishingClaims`, `PublishingMoves`, `PublishingRounds`,
`GraphMoves`, `RevisionMoves`, `TakeMoves`, `TakeOutcomes`, `TaskGraphPlans`, `TaskGraphIssues`, `SlotChoice`,
`SlotMoves`, `ProgressCounts` and `EventOrder` say on the rows alone, of all steps at once, what each change is due to.

| part | files |
|---|---|
| approval, jobs and post status | `ApprovalChain`, `PostLifecycle`, `Publishing` (the state machine), `PublishingSafety`, `PublishingAgreement`, `PublishingHistory`, `PublishingCaptions`, `PublishingClaims`, `PublishingMoves`, `PublishingRounds`, `PublishingSlips`, `PublishingStore` |
| plans and the growing task graph | `Kahn`, `TaskGraph`, `TaskGraphShape`, `TaskGraphAcceptance`, `TaskGraphPlans`, `TaskGraphIssues`, `TaskGraphValidator`, `PlanTasks`, `LiveGraph`, `GraphMoves`, `GraphStore`, `Revisions` (the state machine), `RevisionMoves`, `RevisionChains`, `RevisionStatus`, `RevisionBounds`, `RevisionStart`, `RevisionSlips`, `ProductionEnds`, `NodeKeys`, `Progress`, `ProgressCounts` |
| the visual loop | `Takes` (the state machine), `TakeMoves`, `TakeOutcomes`, `TakeLineages`, `TakeOwnership`, `TakeProgress`, `TakeBounds`, `TakesEnd`, `TakeSlips`, `TakeStore` |
| slots | `Slots`, `SlotChoice`, `SlotRuns`, `SlotMoves` |
| realtime | `EventStream`, `EventOrder`, `Hub` |
| content hash | `CanonicalJson`, `JsonText`, `ContentHash` |
| rate-limit key | `Ipv6` |
| shared | `Options`, `Sorting` |

`dafny verify dfyconfig.toml` checks everything.

## Where the code does not do what it promises

Each of these is a lemma with a concrete input, beside the theorem that says exactly when the promise
holds.

- A teammate may put a platform on a day by hand before its variant was prepared for the approved copy
  (apps/api/src/services/publishing.ts:246-380 checks nothing of the variant's text): a caption the approved
  copy no longer has goes out (`PublishingCaptions.AStaleCaptionCanGoOut`). `PublishingCaptions.StepStaysFresh`
  shows that only this step, and a copy that changes under no lock, break it.
- A run that stalled moves its post into its task's status along any edge of the table, however late
  (apps/api/src/orchestrator/run-task.ts:137-148), and apps/api/src/orchestrator/post-status.ts:24-27 has edges from
  FAILED back into production. A post out on one platform and failed on another can so be DRAFTING again, for good
  (`PublishingSlips.ALateRunTakesAPublishedPostBack`, and from the runs' side
  `RevisionSlips.ALateRunTakesAFailedPostBack`). A post and its jobs agree exactly until such a landing:
  `PublishingAgreement.PostFollowsItsJobs`, `PublishingAgreement.LandedForGood`, `RevisionSlips.OnlyALateRunLands`.
- apps/api/src/publishing/publish-service.ts:220-224 says that what the guard passed is what goes out, as no edit
  touches a PUBLISHING post; a late review job changes its takes all the same, and the poll that finishes the attempt
  builds its payload from them (`PublishingSlips.ALateReviewChangesWhatAPollSends`).
  `PublishingHistory.PollsSendWhatWasClaimed` and `PublishingHistory.OnceOutContentStands` say exactly when it holds.
- QA's required move to PENDING_APPROVAL (apps/api/src/orchestrator/run-task.ts:393-420) throws when the post is
  not in QA: after a duplicate run updates the post's status late (`RevisionSlips.ALateRunMakesQaThrow`), or when
  people accept the best take of a Vault regenerate's task that never ran
  (`RevisionSlips.AcceptingATaskThatNeverRanMakesQaThrow`). `RevisionStatus.QaThrowsExactlyOutsideQa` and, on
  runs, `RevisionStatus.RunsThrowExactlyOutsideQa` are the exact conditions, `RevisionStatus.QaNeverThrows` one on the
  causes, and `TakeStore.AcceptedUnrunExactly` says which unrun tasks can be accepted.
- apps/api/src/orchestrator/visuals.ts:281-285 guards a regenerate by the take alone, not by its task: a review job
  that stalls until people kept its take gives it a second successor, in a task already resolved
  (`TakeSlips.AKeptTakeIsReplacedAgain`). `TakeBounds.OneSuccessorExactly` and `TakeBounds.SecondSuccessorExactly`.
- A review job that stalls while its take's place passes to another lineage still shows the take
  (apps/api/src/orchestrator/vault-takes.ts:255-309), and when people then accept the best take of the task the
  place shows two (`TakeSlips.ALatePromotionShowsTwoTakes`). `TakeLineages.EveryPlaceShowsOneTake` says exactly which
  acceptances do that, `TakeOwnership.FairRunsShowOneTake` what rules them out.
- `redirectVaultTask` does not look at its task's status, so a late run can leave a WAITING task that no sweep
  moves (`TakeSlips.ALateRedirectGetsStuck`). `TakeProgress.RedirectingKeepsWaitingExactly`, and for the other
  late jobs `TakeProgress.ShowingKeepsWaitingExactly` and `TakeProgress.VaultMovesExactly`.
- apps/api/src/publishing/slot-optimizer.ts:269-272 says every writer of `scheduledFor` reads the board; a manual
  retry (apps/api/src/services/publishing.ts:466-483) writes the current time without it
  (`SlotRuns.ARetryCanCrowdASlot`). `SlotRuns.SchedulingKeepsPostsApart` and `SlotRuns.MovingToNowKeepsSpacedExactly`.
- The key of an IPv6 address is documented as its /64; IPv4-mapped addresses share one /64 and keep their own keys
  (`Ipv6.SharingA64IsNotEnough`). `Ipv6.KeysAgreeExactly`.

## Model

| member | source | states |
|---|---|---|
| `ApprovalChain.ApprovalNeedsWholeChain` | packages/shared/src/approval-chain.ts:131-213 | any sequence of decisions by anyone that ends APPROVED collected on every step exactly minApprovals approvals, of distinct people whose role or id the step lists, none skipped |
| `ApprovalChain.ShortfallsAreExact` | packages/shared/src/approval-chain.ts:72-101 | chainShortfalls is empty if and only if some decisions by active members take a fresh request to APPROVED |
| `ApprovalChain.ApprovalStaysReachable` | packages/shared/src/approval-chain.ts:72-213 | from every reachable PENDING state of a chain without shortfalls, approval can still be reached; the decisions are computed |
| `ApprovalChain.SomeoneMayDecide` | packages/shared/src/approval-chain.ts:131-139 | while a chain without shortfalls is PENDING, some active member's decision on the current step is not rejected |
| `ApprovalChain.MayDecideExactly` | packages/shared/src/approval-chain.ts:56-139 | on a PENDING round with an open step a person is accepted if and only if their role or their id is listed on the step and no vote there is theirs; otherwise which of the four rejections they get |
| `ApprovalChain.EligibleAreTheActiveApprovers` | packages/shared/src/approval-chain.ts:62-77 | the people counted for a step are exactly the active members whose role or id is listed on it |
| `ApprovalChain.ShortfallsNameTheSteps` | packages/shared/src/approval-chain.ts:91-101 | a shortfall is reported for exactly the steps with fewer such members than approvals needed, with both numbers |
| `ApprovalChain.DecisionMoves` | packages/shared/src/approval-chain.ts:141-213 | a vote is recorded once; a round moves to the next step, ends APPROVED or waits by the distinct people who approved the step, and ends CHANGES_REQUESTED on a request for changes |
| `PostLifecycle.StatusForAnyOrder` | apps/api/src/orchestrator/publishing.ts:176-185 | the post status of a list of job statuses depends only on which statuses occur, in any order and number |
| `PostLifecycle.StatusTellsTheStatuses` | apps/api/src/orchestrator/publishing.ts:176-185 | of any list of job statuses: FAILED if and only if one FAILED; LIVE if and only if one is PUBLISHED and all but CANCELLED ones are; APPROVED if and only if all are CANCELLED; PUBLISHING if and only if none FAILED, one is PUBLISHING or PUBLISHED and not all that count are out; SCHEDULED otherwise |
| `PostLifecycle.StatusTellsTheRows` | apps/api/src/orchestrator/publishing.ts:152-185 | the same of job rows, a QUEUED one with a container counted as PUBLISHING |
| `PostLifecycle.WhereAPostMayGo` | apps/api/src/orchestrator/post-status.ts:20-51 | for each status, exactly the statuses a post may go to from it |
| `PostLifecycle.JobStepHasEdge` | apps/api/src/orchestrator/post-status.ts:20-51 | for any number of platforms, one job's step leaves the derived post status or moves it along an edge of POST_TRANSITIONS |
| `PostLifecycle.CancelWaitingHasEdge` | apps/api/src/orchestrator/publishing.ts:109-121 | so does calling all waiting jobs off at once |
| `PostLifecycle.CallOffWithHasEdge` | apps/api/src/publishing/outcomes.ts:299-394 | so does refusing one job together with the waiting ones |
| `PostLifecycle.CancelWaitingCallsAllOff` | apps/api/src/orchestrator/publishing.ts:100-121 | a post APPROVED or SCHEDULED by its jobs has only CANCELLED jobs once the waiting ones without a container are called off |
| `PublishingSafety.StepKeepsApproved` | apps/api/src/publishing/publish-service.ts:225-288 | every step keeps: what was claimed is what some fully approved round was opened on |
| `PublishingSafety.OnlyApprovedContentIsSent` | apps/api/src/publishing/guards.ts:125-163 | on every interleaving of decisions, edits, scheduling, claims, retries and polls, each entry into PUBLISHING carries the copy and takes of a round whose whole chain approved it, and each of its variants is the text the round saw or the one computed from its copy |
| `PublishingClaims.GoesOutExactly` | apps/api/src/publishing/publish-service.ts:225-288 | over all steps: something goes out if and only if a message on its job's attempt is claimed, nobody is archived, the latest round is APPROVED on exactly the copy, variants and takes the post holds, no banned word is used, the token is good and the payload complete; and what is then written |
| `PublishingClaims.NothingElseGoesOut` | apps/api/src/publishing/guards.ts:125-163 | so on every run each entry of what went out is from a step at which all that held |
| `PublishingClaims.ArchivedNeverGoesOut` | apps/api/src/publishing/guards.ts:125-136 | nothing goes out on any run once the campaign or the client is archived |
| `PublishingClaims.RefusedClaimLeaves` | apps/api/src/publishing/outcomes.ts:299-394 | what a claim leaves for each check that fails first: who is called off or FAILED, whether approval starts over or the agents get the post, and that nothing else changes |
| `PublishingMoves.ComesOntoASlotExactly` | apps/api/src/publishing/schedule.ts:486-619 | over all steps: a job comes onto a slot if and only if a plan or a teammate puts it there while the latest round is APPROVED and nobody archived, on a platform with a variant and no job that counts; its attempts count on, without a container |
| `PublishingMoves.ComesQueuedExactly` | apps/api/src/publishing/publish-service.ts:532-543 | a job is QUEUED exactly when its slot comes, when a FAILED one of nobody archived is retried, or when its attempt under way is put off |
| `PublishingMoves.ComesOutExactly` | apps/api/src/publishing/outcomes.ts:71-141 | a job is PUBLISHED exactly by its attempt under way |
| `PublishingMoves.FailsExactly` | apps/api/src/publishing/outcomes.ts:143-208 | a job FAILS exactly by its own attempt, or by a claim on it that the token, the payload or, once a container exists, the content stops |
| `PublishingMoves.CalledOffExactly` | apps/api/src/orchestrator/publishing.ts:100-149 | a job is CANCELLED exactly by hand, by a refused claim of it, or while it waits without a container when the post's content, approval or owner goes |
| `PublishingMoves.EveryJobWasGivenASlot` | apps/api/src/publishing/schedule.ts:486-619 | on every run each job a post gets came onto its slot at a step where the latest round stood APPROVED and nobody was archived |
| `PublishingMoves.NothingIsOutUnclaimed` | apps/api/src/publishing/publish-service.ts:225-288 | on every run a job is PUBLISHING or PUBLISHED only once a claim of just that attempt went through |
| `PublishingRounds.MakesMessagesExactly` | apps/api/src/publishing/publish-service.ts:532-587 | over all steps: a message is made exactly for the next attempt of a job that is put on the queue, re-driven, retried or put off |
| `PublishingRounds.OpensARoundExactly` | apps/api/src/orchestrator/approval-round.ts:64-94 | a round opens exactly when QA passes the post from QA, or when other content replaces what a round stood on; it is PENDING, on what the post then holds, and none it replaces stands |
| `PublishingRounds.GoesBackExactly` | apps/api/src/orchestrator/feedback.ts:212-345 | the agents get the post back exactly when an eligible person asks for changes, the copy no longer fits the takes, visuals are to be redone, or a claim finds banned words |
| `PublishingRounds.ContentChangesExactly` | apps/api/src/services/posts.ts:289-410 | copy and takes change exactly by agents at work, an edit or a promotion that is allowed, or under no lock; variants only when prepared |
| `PublishingRounds.PreparesExactly` | apps/api/src/publishing/schedule.ts:162-293 | preparing gives each platform its own text but where its job counts, plans just the platforms without one, and moves the round's hash exactly when it was of what the post held |
| `PublishingAgreement.StepKeepsAgreed` | apps/api/src/orchestrator/publishing.ts:199-229 | every single step, content drift included, keeps post status, jobs and rounds in agreement, so no sync is refused its edge, if and only if it is not a stalled run's status update landing on a post past production |
| `PublishingAgreement.PostFollowsItsJobs` | apps/api/src/orchestrator/publishing.ts:152-229 | throughout a run a publish-driven post status equals the one its jobs give, a post back in approval or production has only CANCELLED jobs, and the status is publish-driven exactly while the latest round is APPROVED: if and only if no stalled run's status update lands on the post past production |
| `PublishingAgreement.StatusTellsOnEveryRun` | apps/api/src/orchestrator/publishing.ts:152-229 | wherever a run without such a landing leads, what FAILED, LIVE, SCHEDULED and PUBLISHING say of the post's job rows, both ways |
| `PublishingAgreement.LandedForGood` | apps/api/src/orchestrator/run-task.ts:137-148 | a post so landed stays in a status of production on every run, no agent at work on it, its round still approved |
| `PublishingSlips.ALateRunTakesAPublishedPostBack` | apps/api/src/orchestrator/run-task.ts:137-148 | a run from a planned post: one platform PUBLISHED, one FAILED, and a stalled write moves the post back to DRAFTING |
| `PublishingSlips.ALateReviewChangesWhatAPollSends` | apps/api/src/publishing/publish-service.ts:390-447 | a run from a planned post: its takes change while an attempt is under way, so a poll of it sends what no guard passed |
| `PublishingHistory.StepMovesJobs` | apps/api/src/publishing/outcomes.ts:143-240 | what any step may do to a job row: attempts never fall, PUBLISHED stays, only a new attempt enters PUBLISHING, a job holding a container is never CANCELLED by an automatic step other than an archive, its container is cleared only when a CANCELLED row is scheduled anew, and a row comes onto a slot only with a new attempt and no container |
| `PublishingHistory.AttemptsOnlyGrow` | apps/api/src/publishing/outcomes.ts:51-59 | PublishJob.attempts never decreases on any run |
| `PublishingHistory.StaleRunsNeverClaim` | apps/api/src/publishing/schedule.ts:548-569 | once a row is on a slot, no message queued before can ever claim it or end an attempt, and its next message is new |
| `PublishingHistory.AttemptsAreNumberedOnce` | apps/api/src/publishing/publish-service.ts:212-288 | on every run, late jobs and drift included: every message names an attempt at most attempts + 1, and each attempt leaves QUEUED for PUBLISHING at most once, in order |
| `PublishingHistory.OnceOutContentStands` | apps/api/src/orchestrator/post-status.ts:29-63 | once one platform is out, the post's content stands throughout a run if and only if no drift changes it, and the post keeps a status that is out if and only if no stalled run's update lands on it |
| `PublishingHistory.PublishedStays` | apps/api/src/publishing/publish-service.ts:390-447 | PUBLISHED is absorbing on every run |
| `PublishingHistory.PollsSendWhatWasClaimed` | apps/api/src/publishing/publish-service.ts:390-447 | throughout a run what each claimed attempt under way, out or failed was built from is what the post holds (so a later poll sends what the guard passed) if and only if no drift changes the post meanwhile |
| `PublishingCaptions.StepStaysFresh` | apps/api/src/publishing/schedule.ts:218-268 | a step keeps every variant that counts on the approved copy's caption if and only if it is not a manual schedule of a platform whose variant lags the copy, nor a drift of the copy from under such a variant |
| `PublishingCaptions.OwnCaptionGoesOut` | apps/api/src/publishing/schedule.ts:162-293 | without such a manual schedule or drift, every variant sent has the caption of the approved copy's first entry for its platform, the main one when there is none, and its hashtags |
| `Publishing.VariantIsOwnText` | packages/shared/src/platform-rules.ts:288-291 | a variant has the caption of the first entry for its platform, the main one when there is none, and the copy's hashtags |
| `PublishingCaptions.AStaleCaptionCanGoOut` | apps/api/src/services/publishing.ts:246-380 | a concrete run where a manual schedule before prepareVariants sends a caption the approved copy no longer has |
| `PublishingStore.PostRows.TransitionPost` | apps/api/src/orchestrator/post-status.ts:92-103 | moves the post exactly when the table has the edge, and says whether it did |
| `PublishingStore.PostRows.SyncPostPublishStatus` | apps/api/src/orchestrator/publishing.ts:199-229 | leaves the rows the sync function gives, for any number of jobs read in any order |
| `PublishingStore.PostRows.CancelOpenRounds` | apps/api/src/orchestrator/approval-round.ts:111-121 | cancels exactly the reopenable rounds and returns 0 exactly when there were none |
| `PublishingStore.PostRows.OpenApprovalRound` | apps/api/src/orchestrator/approval-round.ts:64-94 | adds round N+1, PENDING, on the current content hash |
| `PublishingStore.PostRows.DecideRound` | apps/api/src/services/approvals.ts:209-274 | records a decision and moves the post as the chain says, or leaves everything |
| `PublishingStore.PostRows.CancelScheduledForPost` | apps/api/src/orchestrator/publishing.ts:109-121 | calls off exactly the waiting jobs without a container and says how many |
| `PublishingStore.PostRows.CancelScheduledWhere` | apps/api/src/orchestrator/publishing.ts:130-149 | for an archive: calls them off and brings the post in line, nothing when none waits |
| `PublishingStore.PostRows.ReopenApproval` | apps/api/src/orchestrator/vault-takes.ts:310-328 | content changed: rounds and waiting jobs are called off and a new round opened |
| `PublishingStore.PostRows.SendBackToAgents` | apps/api/src/orchestrator/feedback.ts:212-241 | reopenForRevision's rows |
| `PublishingStore.PostRows.DeriveVariants` | apps/api/src/publishing/schedule.ts:219-264 | the variant loop: rows created or rewritten unless their job counts, and whether any text changed |
| `PublishingStore.PostRows.PrepareVariantsIn` | apps/api/src/publishing/schedule.ts:162-293 | transaction A: the hash of the round is rewritten only when it matched before |
| `PublishingStore.PostRows.CommitScheduleIn` | apps/api/src/publishing/schedule.ts:486-619 | transaction B: nothing when stale; else a job per item with a slot, and the post in line |
| `PublishingStore.PostRows.PutOnSlots` | apps/api/src/publishing/schedule.ts:507-585 | the loop of transaction B, for items in any order: CANCELLED rows are reset with attempts + 1, rows that count are kept |
| `PublishingStore.PostRows.FailJobIn` | apps/api/src/publishing/outcomes.ts:143-184 | fails the job on this attempt only |
| `PublishingStore.PostRows.RefuseIn` | apps/api/src/publishing/outcomes.ts:263-394 | the guard's refusals: the job cancelled or failed, the waiting ones and the rounds called off where the guard asks |
| `PublishingStore.PostRows.CheckPublishGuards` | apps/api/src/publishing/guards.ts:125-265 | the first guard that fails, in the order the code checks them |
| `PublishingStore.PostRows.ClaimIn` | apps/api/src/publishing/publish-service.ts:225-288 | claims exactly when the message is on this attempt, every guard passes and the payload is whole; else refuses, fails or does nothing |
| `PublishingStore.PostRows.SettleIn` | apps/api/src/publishing/outcomes.ts:71-240 | stores a container, publishes or requeues, only on the attempt under way |
| `PublishingStore.PostRows.QueueDueIn` | apps/api/src/publishing/publish-service.ts:532-543 | moves every due SCHEDULED job to QUEUED and queues a message for each |
| `PublishingStore.PostRows.RedriveQueued` | apps/api/src/publishing/publish-service.ts:563-587 | re-drives or fails a QUEUED job whose message is over, by what the queue says of it |
| `Kahn.StuckIds` | packages/shared/src/task-graph.ts:310-344 | Kahn's loop with its ready stack returns exactly the ids on a cycle or behind one, each once, and none exactly for an acyclic graph |
| `Kahn.WhatIsLeftIsStuck` | packages/shared/src/task-graph.ts:322-343 | what the loop leaves unvisited is exactly what no numbering can order |
| `TaskGraph.IdsInjective` | packages/shared/src/task-graph.ts:55-92 | canonicalGraph's ids n1, n2, … never repeat |
| `TaskGraphShape.CanonicalIsShaped` | packages/shared/src/task-graph.ts:46-92 | canonicalGraph has one node per piece of work, each depending on exactly the one before, within maxGraphNodes |
| `TaskGraphShape.ShapedGraphsAgree` | packages/shared/src/task-graph.ts:55-92 | two graphs of that shape are the same up to ids, order and instructions |
| `TaskGraphAcceptance.StrategyIsFree` | packages/shared/src/task-graph.ts:171-344 | the checks force the strategy node's dependencies empty, though none checks them directly |
| `TaskGraphAcceptance.AcceptsExactlyTheCanonicalGraph` | packages/shared/src/task-graph.ts:171-344 | for distinct post refs nodeIssues accepts a graph if and only if it is canonicalGraph up to renaming ids, reordering nodes and changing instructions |
| `TaskGraphPlans.AcceptsExactlyTheRightPlans` | packages/shared/src/task-graph.ts:27-344 | said on the nodes: for distinct post refs nodeIssues accepts a graph if and only if ids differ, each node is by the agent of its action (Copywriter writes, Visual Director directs, Adapter adapts, Manager reviews, Strategist plans) and on its post, each enabled action has one node a post, and each waits for just the nearest enabled one before it |
| `TaskGraphPlans.TheCanonicalGraphIsRight` | packages/shared/src/task-graph.ts:46-92 | canonicalGraph is such a plan, for every set of enabled actions |
| `TaskGraphIssues.ReportsExactlyTheProblems` | packages/shared/src/task-graph.ts:171-307 | each line nodeIssues can report, cycles aside, is reported if and only if the problem it names is in the plan |
| `TaskGraphValidator.BuildCanonicalGraph` | packages/shared/src/task-graph.ts:55-92 | the loop builds canonicalGraph |
| `TaskGraphValidator.CheckDeps` | packages/shared/src/task-graph.ts:225-235 | the dependency issues of one node, in order |
| `TaskGraphValidator.CheckNodes` | packages/shared/src/task-graph.ts:195-236 | every node's own issues, in order |
| `TaskGraphValidator.CheckChain` | packages/shared/src/task-graph.ts:262-307 | one post's missing or doubled actions, then its wrong links |
| `TaskGraphValidator.CycleIssues` | packages/shared/src/task-graph.ts:310-344 | one issue naming exactly the stuck ids, or none for an acyclic graph |
| `TaskGraphValidator.NodeIssues` | packages/shared/src/task-graph.ts:171-259 | all issues in order, and none exactly when the graph is accepted |
| `PlanTasks.TopologicalOrder` | apps/api/src/orchestrator/graph.ts:26-40 | for distinct ids it throws exactly when no order exists; otherwise a permutation with dependencies first |
| `PlanTasks.CreateTasks` | apps/api/src/orchestrator/graph.ts:59-147 | over such an order no lookup of a dependency's row fails and each row depends on its node's dependencies |
| `PlanTasks.AcceptedIsOrderable` | packages/shared/src/task-graph.ts:171-344 | an accepted graph has distinct ids and an order |
| `PlanTasks.Instantiate` | apps/api/src/orchestrator/graph.ts:49-147 | approving an accepted plan never throws and makes every node a row after the rows it waits for |
| `LiveGraph.SpliceKeepsSound` | apps/api/src/orchestrator/feedback.ts:145-173 | splicing a direct behind a write that succeeds keeps the graph acyclic and every started task's dependencies done |
| `LiveGraph.StepKeepsSound` | apps/api/src/orchestrator/graph.ts:157-206 | so does every step: reads and updates of advance from stale lists, status moves, appended revisions, splices, retries, budget blocks and cancels |
| `LiveGraph.RunsInOrder` | apps/api/src/orchestrator/graph.ts:157-206 | on every run the live graph is acyclic and every task that left PENDING, other than by cancellation, has all its dependencies SUCCEEDED |
| `GraphMoves.StatusChangesExactly` | apps/api/src/orchestrator/run-task.ts:182-198 | over all steps: a task comes into each status exactly by the updates that name the one it was in, and never leaves SUCCEEDED or CANCELLED |
| `GraphMoves.RowsStayExactly` | apps/api/src/orchestrator/feedback.ts:145-173 | what a task is for never changes, and what it waits for only behind a write that gets a direct, in that one place |
| `GraphMoves.TasksAddedExactly` | apps/api/src/orchestrator/feedback.ts:110-173 | tasks are added only by a revision's chain and a splice, PENDING, each behind the one before, with QA's feedback for the first and the direct one |
| `GraphMoves.OnlyReadyTasksAreListed` | apps/api/src/orchestrator/graph.ts:157-179 | on every run, whatever advance may ever queue was PENDING with all its dependencies SUCCEEDED at some moment |
| `GraphStore.GraphRows.FindReady` | apps/api/src/orchestrator/graph.ts:164-172 | reads exactly the PENDING tasks whose dependencies have all SUCCEEDED |
| `GraphStore.GraphRows.QueueReady` | apps/api/src/orchestrator/graph.ts:174-179 | queues of a possibly stale list exactly the rows still PENDING |
| `GraphStore.GraphRows.UpdateStatus` | apps/api/src/orchestrator/run-task.ts:182-198 | the conditional update: moves the task exactly when it is in a status it names |
| `GraphStore.GraphRows.FinishWriteIn` | apps/api/src/orchestrator/run-task.ts:218-257 | the write succeeds and a direct is spliced in only when it did and the takes no longer fit |
| `GraphStore.GraphRows.AppendRevision` | apps/api/src/orchestrator/feedback.ts:110-136 | one task per action, each waiting for the one before; returns their ids |
| `GraphStore.GraphRows.SpliceDirectAfter` | apps/api/src/orchestrator/feedback.ts:145-173 | a direct between the write and whatever waited for it, nothing when the chain has one |
| `GraphStore.GraphRows.SweepBudget` | apps/api/src/orchestrator/sweeper.ts:104-118 | every BLOCKED_BUDGET task queued again, nothing else changed |
| `Revisions.RevisionActionsChain` | apps/api/src/orchestrator/feedback.ts:31-51 | with a Copywriter every target gives a chain of distinct actions in pipeline order, QA last |
| `RevisionMoves.RevisionRedoesExactly` | apps/api/src/orchestrator/feedback.ts:31-51 | for every target and pipeline exactly which actions are redone, in pipeline order, QA last |
| `RevisionMoves.RevisionOpensExactly` | apps/api/src/orchestrator/feedback.ts:110-241 | over all steps: a revision opens exactly when a running QA asks within its limit, or people do before anything is out; what it adds and where it takes the post |
| `RevisionMoves.PostMovesExactly` | apps/api/src/orchestrator/run-task.ts:137-148 | the post comes into a status exactly by a started run that saw it elsewhere, over an edge, each action into its own status; by a pass from QA; by feedback; or past production |
| `RevisionMoves.RunsGoOnExactly` | apps/api/src/orchestrator/run-task.ts:74-148 | a run starts its task, enters the post and counts QA's revisions, in that order and each only so |
| `RevisionMoves.WorkMovesExactly` | apps/api/src/orchestrator/run-task.ts:182-198 | over all steps: exactly what brings a task of the post into each status, and that no other task's step does |
| `RevisionStart.PlannedPostIsOnCourse` | apps/api/src/orchestrator/graph.ts:59-147 | every post of an accepted plan with write and qa starts in a state all revision theorems hold of |
| `RevisionChains.StepKeeps` | apps/api/src/orchestrator/feedback.ts:110-241 | every step keeps one chain a revision, linked in order, all but the last done, whatever runs overlap or come late |
| `RevisionChains.OnlyTheLastChainIsUnfinished` | apps/api/src/orchestrator/feedback.ts:94-136 | at most one chain of a post is unfinished and its number is Post.revision |
| `RevisionChains.PastProductionNothingIsLeft` | apps/api/src/orchestrator/run-task.ts:393-420 | a post in PENDING_APPROVAL, APPROVED, SCHEDULED or later has no unfinished, escalated or failed task |
| `RevisionChains.NoActionTwice` | apps/api/src/orchestrator/feedback.ts:94-107 | no two tasks of a post share action and revision, whatever runs overlap |
| `NodeKeys.NodeKeysAreUnique` | apps/api/src/orchestrator/feedback.ts:86-107 | from an accepted plan on, no two tasks of a graph share a node key, whatever was revised or spliced in and whichever planned row a key is anchored on; and baseNodeId of each key gives the planned node of its post and action when the plan has one |
| `NodeKeys.MadeOnce` | apps/api/src/orchestrator/feedback.ts:106-106 | a key tells the action and the revision it was made for, whatever rows it was made from |
| `RevisionStatus.QaThrowsExactlyOutsideQa` | apps/api/src/orchestrator/run-task.ts:393-420 | when QA can still succeed its required move throws if and only if the post is not in QA |
| `RevisionStatus.QaNeverThrows` | apps/api/src/orchestrator/run-task.ts:137-148 | while each run's status update lands before its task ends, and from the status it then sees, that never happens |
| `RevisionStatus.RunsThrowExactlyOutsideQa` | apps/api/src/orchestrator/run-task.ts:393-420 | on every run, late ones included, no QA send throws if and only if each one that can still succeed finds the post in QA |
| `RevisionSlips.OnlyALateRunLands` | apps/api/src/orchestrator/run-task.ts:137-148 | a status update that moves a post past production is of a run whose task has SUCCEEDED, on a FAILED post |
| `RevisionSlips.ALateRunTakesAFailedPostBack` | apps/api/src/orchestrator/run-task.ts:74-148 | a duplicate run of the write takes a post that failed to go out back to DRAFTING, all its tasks SUCCEEDED |
| `RevisionSlips.ALateRunMakesQaThrow` | apps/api/src/orchestrator/run-task.ts:74-148 | a duplicate run of the write that stalls before its status update makes QA's move throw |
| `RevisionSlips.AcceptingATaskThatNeverRanMakesQaThrow` | apps/api/src/orchestrator/visuals.ts:339-437 | accept_best on a direct task that failed before any run moved the post leaves it in CHANGES_REQUESTED, and QA's move then throws |
| `RevisionBounds.QaRevisesAtMostMaxTimes` | apps/api/src/orchestrator/run-task.ts:338-360 | QA opens at most MAX_QA_REVISIONS chains however stale the count a run acts on, no chain over four tasks |
| `RevisionBounds.AutomaticProductionIsBounded` | apps/api/src/orchestrator/run-task.ts:423-460 | with no human or guard step a post gets at most MAX_QA_REVISIONS + 1 chains of at most four tasks |
| `ProductionEnds.AutomaticStepFalls` | apps/api/src/orchestrator/run-task.ts:74-148 | every automatic step that changes the post's tasks, revision, runs or production status brings a number down, but for messages delivered again and tasks queued again |
| `ProductionEnds.ProductionEnds` | apps/api/src/orchestrator/run-task.ts:338-460 | so production ends: a planned post's automatic steps do at most 44 things for each of MAX_QA_REVISIONS + 1 chains, and three more for each such repeat |
| `Progress.BlockedTaskIds` | packages/shared/src/progress.ts:65-86 | the changed-flag loop ends with exactly the PENDING tasks behind a stopped one, transitively |
| `ProgressCounts.BlockedExactlyBehindAStop` | packages/shared/src/progress.ts:57-86 | an id is blocked if and only if PENDING rows lead from its row back to one that is ESCALATED, FAILED or CANCELLED |
| `ProgressCounts.EntriesCount` | packages/shared/src/progress.ts:92-110 | each number of an agent's entry is the number of its tasks in the statuses it is named for, and an agent has an entry exactly when one of its tasks is not CANCELLED |
| `Progress.BlockedSetIsUnique` | packages/shared/src/progress.ts:65-86 | that set is the only one there is |
| `Progress.AnyOrderBlocksTheSame` | packages/shared/src/progress.ts:65-86 | and does not depend on the order of the tasks |
| `Progress.PendingIsBlocked` | packages/shared/src/progress.ts:65-86 | on an acyclic graph with nothing in flight or ready, every PENDING task is blocked |
| `Progress.AggregateProgress` | packages/shared/src/progress.ts:92-110 | exactly one entry per agent with tasks, its counters those of its tasks, in pipeline order |
| `Progress.SettledExactlyAtRest` | apps/api/src/orchestrator/progress.ts:58-60 | isSettled holds of an agent's entry exactly when each of its tasks is done, escalated or blocked |
| `Progress.SettledExactlyWhenNothingMoves` | apps/api/src/orchestrator/progress.ts:58-72 | all agents of an acyclic graph are settled exactly when nothing is in flight and nothing is ready |
| `TakeLineages.EveryPlaceShowsOneTake` | apps/api/src/orchestrator/takes.ts:218-258 | on every run, whatever jobs come late: takes of a lineage share a place with growing versions and each place of the newest shot list shows a take; and no place ever shows two if and only if every accept_best that goes through finds no take on show of another lineage in the place of a pick, and no two picks in one place |
| `TakeLineages.AcceptKeepsOneExactly` | apps/api/src/orchestrator/visuals.ts:366-437 | acceptBestTake leaves one take a place exactly when its picks are so clear |
| `TakeOwnership.FairRunsShowOneTake` | apps/api/src/orchestrator/takes.ts:159-216 | while a post's places do not change under an unresolved direct task and no late job shows a take where the newest task has another lineage's, accept_best always finds its picks clear |
| `TakeOwnership.ShowingKeepsPlacesExactly` | apps/api/src/orchestrator/vault-takes.ts:255-309 | a review job that shows a take leaves the newest task's places one lineage each exactly when the take is of its place's lineage |
| `TakeProgress.WaitingIsNeverStuck` | apps/api/src/orchestrator/visual-sweep.ts:82-228 | every reachable WAITING direct task is settled, has a take IN_THE_LOOP selects and redrive acts on, or has a blocking take |
| `TakeProgress.RedirectingKeepsWaitingExactly` | apps/api/src/orchestrator/vault-takes.ts:57-101 | a redirect leaves a WAITING task something the sweep moves exactly when an accepted take of it is on show or on trial |
| `TakeProgress.ShowingKeepsWaitingExactly` | apps/api/src/orchestrator/vault-takes.ts:255-309 | showing an accepted take of an earlier task keeps the WAITING task on its course exactly when another of its takes still keeps it going, and leaves the sweep something to do exactly then or when it planned shots of which one is still open |
| `TakeProgress.HiddenMovesExactly` | apps/api/src/orchestrator/visual-sweep.ts:82-228 | with none of its takes on show, the sweep moves a task that planned shots exactly when a take of it is still open |
| `TakeProgress.VaultMovesExactly` | apps/api/src/orchestrator/visual-sweep.ts:118-212 | the sweep moves a Vault regenerate's task exactly when an accepted take of it is on show or on trial, or its newest trial take is neither replaced nor still to be directed |
| `TakeSlips.ALateRedirectGetsStuck` | apps/api/src/orchestrator/vault-takes.ts:57-101 | a whole run from a planned post: redirectVaultTask from a run that no longer holds its task, and dies before it directs the take it made, leaves a WAITING task no sweep moves |
| `TakeSlips.AKeptTakeIsReplacedAgain` | apps/api/src/orchestrator/visuals.ts:201-308 | a whole run from a planned post: two review jobs read one weak take, people keep it after the first replaced it, the second replaces it again in a resolved task |
| `TakeSlips.ALatePromotionShowsTwoTakes` | apps/api/src/orchestrator/vault-takes.ts:255-309 | a whole run from a planned post: a late job shows a take of a lineage its place has left, and after accept_best the place shows two |
| `TakeBounds.OneSuccessorExactly` | apps/api/src/orchestrator/visuals.ts:268-308 | on every run, no take gets two successors if and only if no review job acts on a take accept_best brought back after its successor was made |
| `TakeBounds.SecondSuccessorExactly` | apps/api/src/orchestrator/visuals.ts:281-285 | the transaction gives a take with a successor another exactly when accept_best brought it back and it is READY and shown as the job read it |
| `TakeBounds.ShotsGetBoundedTakes` | apps/api/src/orchestrator/visuals.ts:201-308 | on every run no chain of regenerations exceeds 1 + MAX_VISUAL_REGENERATIONS takes, and without such a late job that is all the takes a planned shot gets |
| `TakesEnd.StepFalls` | apps/api/src/orchestrator/visuals.ts:201-308 | every job of the visual loop leaves the takes alone or brings a number down, but for one that shows a take again whose trial is over |
| `TakesEnd.TheLoopEnds` | apps/api/src/orchestrator/visual-sweep.ts:82-228 | so the loop ends: at most 7 changes for each attempt each planned take may still come to |
| `TakeStore.BestTakeIsBest` | apps/api/src/orchestrator/visuals.ts:310-328 | the kept take has a file, nothing finished scored higher, and the take on show is replaced only by a strictly higher score |
| `TakeStore.KeepsTheHighestRated` | apps/api/src/orchestrator/visuals.ts:310-328 | of a lineage the task keeps its take rated highest, of equals the latest version; the take shown in a trial exactly when nothing is rated above it; and none exactly when there is neither |
| `TakeMoves.TakesMoveExactly` | apps/api/src/orchestrator/visuals.ts:201-437 | over all steps: exactly what brings a take into each status, puts it on show or takes it off, reviews it and ends its trial; what it is never changes |
| `TakeOutcomes.TakesAddedExactly` | apps/api/src/orchestrator/takes.ts:218-263 | takes are added exactly by a plan's shots, a review with attempts left, the Vault and a redirection; each is its lineage's next version, a planned one continuing the take on show in its place |
| `TakeOutcomes.TasksMoveExactly` | apps/api/src/orchestrator/take-completion.ts:48-64 | exactly what brings a direct task into each status |
| `TakeOutcomes.ReadsWereTrue` | apps/api/src/orchestrator/visuals.ts:201-266 | on every run, whatever a job goes by was so at some moment of it, however late the job acts |
| `TakeOutcomes.SucceededWasAccepted` | apps/api/src/orchestrator/take-completion.ts:48-64 | on every run a direct task SUCCEEDED only if at some moment every take of it on show had an accepting review, or people resolved it with a finished take for each of its lineages |
| `TakeOutcomes.OnlyDirectedTakesRender` | apps/api/src/orchestrator/vault-takes.ts:119-215 | on every run no take the Vault asked for is rendered before it has its direction |
| `TakeStore.OneSweepMovesIt` | apps/api/src/orchestrator/visual-sweep.ts:101-115 | with no live job one stale sweep queues a job for, or ends, every reachable WAITING task |
| `TakeStore.TakeTable.LineageBySlot` | apps/api/src/orchestrator/visuals.ts:152-161 | maps each place to the take that was on show in it |
| `TakeStore.TakeTable.PlanShotsIn` | apps/api/src/orchestrator/visuals.ts:146-183 | a take per shot continuing the lineage in its place; nothing when the task is no longer RUNNING |
| `TakeStore.TakeTable.RegenerateTakeIn` | apps/api/src/orchestrator/visuals.ts:268-308 | rejects the weak take and adds its successor, or nothing when it is no longer READY or not shown as read |
| `TakeStore.TakeTable.FailTakeIn` | apps/api/src/orchestrator/render-outcomes.ts:27-99 | a failed take and the task that waits on it move together |
| `TakeStore.AcceptedUnrunExactly` | apps/api/src/orchestrator/visuals.ts:339-356 | a direct task stopped before it ran has nothing to accept, except a Vault regenerate's, exactly when its lineage shows a take with a file |
| `TakeStore.TakeTable.PickBest` | apps/api/src/orchestrator/visuals.ts:339-364 | a take with a file for each lineage, or none exactly when the task has no takes or some lineage has no finished one |
| `TakeStore.TakeTable.AcceptPicks` | apps/api/src/orchestrator/visuals.ts:366-437 | the transaction, on takes picked before it: resolves the task exactly when it is still ESCALATED or FAILED |
| `TakeStore.TakeTable.AcceptBestTake` | apps/api/src/orchestrator/visuals.ts:339-437 | goes through exactly when the task can be resolved and every lineage has a finished take with a file; keeps each lineage's best and sets the others aside |
| `TakeStore.TakeTable.AwaitedTakes` | apps/api/src/orchestrator/take-completion.ts:26-35 | exactly the current takes and the newest of each lineage on trial |
| `TakeStore.TakeTable.BlockingTake` | apps/api/src/orchestrator/take-completion.ts:41-45 | finds an awaited take that failed or was refused exactly when there is one |
| `TakeStore.TakeTable.CompleteIfSettledIn` | apps/api/src/orchestrator/take-completion.ts:48-64 | succeeds the task exactly when it waits and is settled |
| `TakeStore.TakeTable.MoveOnWaitingTasks` | apps/api/src/orchestrator/visual-sweep.ts:214-228 | each listed waiting task succeeds when settled, is handed on when blocked, else stays; no other task moves |
| `EventStream.EachEventIsWrittenOnce` | apps/api/src/realtime/sse.ts:205-288 | an open stream without a resync writes no event twice, everything delivered and everything replayed, nothing else (without a Last-Event-ID, exactly what was delivered since it opened); so every event past the cursor exactly once if each row its replay missed is published to it |
| `EventOrder.WritesInOrder` | apps/api/src/realtime/sse.ts:151-288 | on every interleaving an open stream has written just the missed rows in id order, or one resync past 500 of them, then what was delivered since it opened and not replayed, in the order it arrived |
| `EventOrder.ReplaysOnlyTheMissed` | apps/api/src/realtime/sse.ts:158-164 | what is replayed are stored rows of the stream's channels with ids past the one the client last saw |
| `EventOrder.NothingAfterClose` | apps/api/src/realtime/sse.ts:211-217 | a closed stream writes nothing, whatever is still delivered |
| `EventStream.EventStreamState.SendEvent` | apps/api/src/realtime/sse.ts:219-223 | drops an event exactly when the replay wrote it, once |
| `EventStream.EventStreamState.OnLiveEvent` | apps/api/src/realtime/sse.ts:230-233 | holds an event back or sends it |
| `EventStream.EventStreamState.WriteReplay` | apps/api/src/realtime/sse.ts:166-187 | writes the rows in order and returns their ids, or one resync past the limit |
| `EventStream.EventStreamState.ReplayDone` | apps/api/src/realtime/sse.ts:275-282 | sends the held events in order and lets live ones flow |
| `Hub.RealtimeHub.Subscribe` | apps/api/src/realtime/hub.ts:177-198 | adds one subscription and keeps the channel index equal to the live subscriptions; a closed hub takes none |
| `Hub.RealtimeHub.Unsubscribe` | apps/api/src/realtime/hub.ts:190-197 | removes exactly that subscription, at most once, leaving no empty entry |
| `Hub.RealtimeHub.Dispatch` | apps/api/src/realtime/hub.ts:125-135 | reaches exactly the live subscriptions of the channel |
| `Hub.RealtimeHub.Close` | apps/api/src/realtime/hub.ts:202-212 | interrupts everyone once and leaves nothing behind |
| `Slots.IndexBoard` | apps/api/src/publishing/slot-optimizer.ts:154-166 | the per-day counts are those of the taken slots |
| `Slots.WindowAnswersLikeTheTable` | apps/api/src/publishing/slot-optimizer.ts:278-309 | a slot is open on the board read with a day's margin exactly when it is open on the whole job table |
| `Slots.OpenSlotsIndexed` | apps/api/src/publishing/slot-optimizer.ts:183-194 | the hour loop lists the day's open hours in time order, an hour daylight saving skips left out |
| `Slots.OpenSlotsAreTheOpenHours` | apps/api/src/publishing/slot-optimizer.ts:168-199 | what is listed is exactly the open hours, scored |
| `Slots.RankSlotsGivesTheBest` | apps/api/src/publishing/slot-optimizer.ts:226-249 | rankSlots gives exactly the best on offer in order, only near the target while any is open there, as many as asked or all |
| `Slots.BestSlotOfDayIsBest` | apps/api/src/publishing/slot-optimizer.ts:252-254 | the day's best open hour, the earliest of equals, and one whenever any hour is open |
| `Slots.DaysOf` | apps/api/src/publishing/slot-optimizer.ts:108-112 | every day of the range, in order |
| `Slots.CandidatesAreOpen` | apps/api/src/publishing/slot-optimizer.ts:257-330 | every candidate lies in the window from today on and is open on the whole table |
| `Slots.BestSlotOnIsOpen` | apps/api/src/publishing/slot-optimizer.ts:333-340 | bestSlotOn gives an hour of the day that is open on the whole table |
| `SlotChoice.OpenIsFree` | apps/api/src/publishing/slot-optimizer.ts:168-181 | a slot is open on the board exactly when it is half an hour away, four hours from every job of the lane that neither failed nor was called off, and on a local day with at most one of them |
| `SlotChoice.BestSlotOnIsBest` | apps/api/src/publishing/slot-optimizer.ts:333-340 | bestSlotOn gives the best free hour of the day on the whole table, the earliest of equals, whenever there is one |
| `SlotChoice.CandidatesAreTheBest` | apps/api/src/publishing/slot-optimizer.ts:257-330 | candidates gives, best first, the best free hours of the window, at most five, around the target while one is free there; it leaves an eligible hour out only for five better ones |
| `SlotRuns.OptimizerPicksTheFirst` | packages/shared/src/contracts/publisher.ts:79-85 | topSlotCandidate of a ranking is its first |
| `SlotRuns.SlotForIsOpen` | apps/api/src/publishing/schedule.ts:507-535 | the slot written is open on the whole table, whether the pick still was or the candidates were ranked again |
| `SlotMoves.SlotForExactly` | apps/api/src/publishing/schedule.ts:507-535 | a variant gets the slot picked for it while the table leaves it free, else the best eligible one there is now, and none exactly when nothing is eligible |
| `SlotMoves.TimesChangeExactly` | apps/api/src/services/publishing.ts:396-483 | over all steps: a job's time changes only to the slot found for a called off row or a move, or to now for a failed job retried late; only a job going out gets a time it went out at |
| `SlotMoves.StatusesChangeExactly` | apps/api/src/services/publishing.ts:396-520 | and exactly what brings a row into each status |
| `SlotMoves.RowsAreAddedExactly` | apps/api/src/publishing/schedule.ts:536-570 | a row is added exactly for a variant without one, when a slot is found, SCHEDULED on it |
| `SlotRuns.SchedulingKeepsPostsApart` | apps/api/src/publishing/schedule.ts:507-570 | on any run of scheduling, moves, cancellations, retries and publications, with picks from boards however old: a client's posts on a platform stay four hours apart and at most two a local day throughout if and only if each retry and each publication finds room at its moment |
| `SlotRuns.MovingToNowKeepsSpacedExactly` | apps/api/src/services/publishing.ts:466-483 | a retry, or a post going out, keeps the spacing exactly when the lane's other posts leave room at that instant |
| `SlotRuns.StepKeepsSpacedExactly` | apps/api/src/publishing/schedule.ts:507-570 | and every other step always keeps it |
| `SlotRuns.ARetryCanCrowdASlot` | apps/api/src/services/publishing.ts:466-483 | a manual retry, which takes no slot, can break that spacing, in a fair time zone |
| `CanonicalJson.CanonicalIffSame` | apps/api/src/orchestrator/approval-round.ts:17-26 | two values have one canonical form exactly when they differ at most in key order, at any depth |
| `JsonText.PutTells` | apps/api/src/orchestrator/approval-round.ts:17-26 | the text of a canonical value tells the value, whatever follows it |
| `JsonText.PrintTells` | apps/api/src/orchestrator/approval-round.ts:17-26 | canonicalJson prints two values alike exactly when they are equal up to key order |
| `ContentHash.HashTellsContent` | apps/api/src/orchestrator/approval-round.ts:35-61 | two content hashes agree exactly when the copy up to key order, each platform's caption and ordered hashtags, and the set of current assets agree |
| `Ipv6.ReadsEveryForm` | apps/api/src/lib/trusted-proxies.ts:172-187 | every text form of an address, full, compressed, with dotted tail or zone, reads as its eight hextets |
| `Ipv6.PlacesCount` | apps/api/src/lib/trusted-proxies.ts:172-187 | groups are read as hexadecimal in either case and octets as decimal, place by place |
| `Ipv6.KeysAgreeExactly` | apps/api/src/lib/trusted-proxies.ts:193-205 | two IPv6 texts share a key exactly when they are one IPv4-mapped address, or neither is mapped and they share a /64 |
| `Ipv6.MappedGetsTheIpv4Key` | apps/api/src/lib/trusted-proxies.ts:193-205 | an IPv4-mapped address gets the key of its IPv4 address |
| `Ipv6.SharingA64IsNotEnough` | apps/api/src/lib/trusted-proxies.ts:189-205 | two addresses of one /64 with different keys |

## Left out

- RevisionStatus.QaNeverThrows: the condition on a run's status updates is sufficient, and two lemmas of `RevisionSlips` break it; exact, on the state and on whole runs, are `QaThrowsExactlyOutsideQa` and `RunsThrowExactlyOutsideQa`.
- TakeProgress.WaitingIsNeverStuck: takes a shot list to have a shot, and one per place, as its contract asks; of the late jobs it asks exactly what the step lemmas beside it show is needed at that step, not what a whole run could still put right later.
- TakeLineages.EveryPlaceShowsOneTake: takes a shot list to have one shot per place.
- TakeOwnership.ShowingKeepsPlacesExactly: exact for the newest task's places being one lineage each, which is more than one take a place needs.
- PublishingAgreement.PostFollowsItsJobs: whether a task of the post is unfinished is one mark, set when a chain opens and cleared by the QA that ends it, as module RevisionChains shows of the task table.
- TakesEnd.TheLoopEnds: holds from one person's `accept_best` to the next, which brings takes back; a late job that shows a take again whose trial is over is not counted, nor bounded.
- EventStream.EachEventIsWrittenOnce: that each row the replay missed is later published to the stream is a condition on the world, as is that a PUBLISH arrives at most once.
- SlotRuns.SchedulingKeepsPostsApart: a retry or a publication, which take no slot lock, counts as coming after a slot transaction it overlaps.
- Ipv6.ReadsEveryForm: addresses are those the text forms spell; what the platform's own address check accepts is taken to be exactly these forms.
- The write action: a pipeline without a Copywriter gives revisions that are QA alone; the revision theorems require `write`, and `qa` where they speak of QA.
- Interleavings inside one transaction at READ COMMITTED: each transaction is atomic. Reads a job makes before its transaction are steps of their own.
- Slot instants inside the publishing state machine: `Publishing` lets any scheduled job become due at any time; times are modelled in `Slots` and `SlotRuns` only.
- Publish mode, dry runs, social accounts and the token guard's details: the token guard's answer and the banned-words hits are inputs of the guard.
- `lastError`, alerts, events, threads, audit rows and everything else that is only reported.
- `redriveLostSchedules` and transport retries: messages may be sent again at any time, with no bound on how often.
- SCORED posts, the `strategy` and `adapt` executions, and agents of later phases.
- Progress text, chat messages and batch announcements beyond when a batch is settled.
- Posts outside any plan keep their Vault trials, but how their first takes came to be is not modelled.
- Stream heartbeats, session checks, write backpressure and headers; a closed stream writes nothing.
- Slot scores are an arbitrary function of the hour; best-time priors and learned scores are not modelled, nor are candidates' reasons.
- Time zones are arbitrary assignments of days and hours to instants, each hour within 24 hours of its day's start; zones that skip a whole day are excluded.
- Authentication, permissions, storage, rendering, the web application and plan drafting.
