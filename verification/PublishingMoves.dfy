/** Which step moves a job, makes a message, opens or ends a round or writes the content, and when: said
    of every step at once, on the rows alone (the sources of module Publishing). */
module PublishingMoves {
  import opened Options
  import opened ApprovalChain
  import opened PostLifecycle
  import opened Publishing
  import opened PublishingAgreement
  import opened PublishingHistory
  import opened PublishingClaims

  // ---------------------------------------------------------------- what the steps look at

  predicate Unarchived(db: Db) {
    !db.campaignArchived && !db.clientArchived
  }

  predicate Stands(round: Round) {
    round.walk.status == Pending || round.walk.status == RoundStatus.Approved
  }

  predicate AnyStands(db: Db) {
    exists i :: 0 <= i < |db.rounds| && Stands(db.rounds[i])
  }

  predicate LatestApproved(db: Db) {
    |db.rounds| > 0 && db.rounds[|db.rounds| - 1].walk.status == RoundStatus.Approved
  }

  /** The platform has a variant, and no job but a called off one. */
  predicate FreeForASlot(db: Db, p: Platform) {
    p in db.variants && (p in db.jobs ==> db.jobs[p].status == JobStatus.Cancelled)
  }

  predicate Is(jobs: Jobs, p: Platform, status: JobStatus) {
    p in jobs && jobs[p].status == status
  }

  /** On no call to the platform yet: it may still be called off. */
  predicate Waits(jobs: Jobs, p: Platform) {
    (Is(jobs, p, JobStatus.Scheduled) || Is(jobs, p, Queued)) && jobs[p].containerId.None?
  }

  /** The Publisher's second transaction, on a plan it made while the same round stood approved. */
  predicate SlotByPlan(db: Db, step: Publishing.Step, p: Platform) {
    && step.SCommitSchedule? && step.plan in db.plans && p in step.plan.platforms && p in step.picked
    && db.status == PostStatus.Approved && Unarchived(db)
    && LatestApproved(db) && |db.rounds| == step.plan.round
    && FreeForASlot(db, p)
  }

  predicate SlotByHand(db: Db, step: Publishing.Step, p: Platform) {
    && step.SScheduleByHand? && step.p == p
    && db.status in {PostStatus.Approved, PostStatus.Scheduled, PostStatus.Publishing, Live, PostStatus.Failed} && Unarchived(db)
    && LatestApproved(db) && db.copy.Some?
    && p in db.platforms && p in db.takesType
    && FreeForASlot(db, p)
  }

  /** A teammate's copy is stored: before anything of the post is out, and with gaps only on a planned post. */
  predicate Edits(db: Db, step: Publishing.Step) {
    && step.SEditCopy? && !db.campaignArchived && db.copy.Some? && (step.gaps ==> db.planned)
    && db.status in {PendingApproval, PostStatus.Approved, PostStatus.Scheduled}
  }

  /** The post's takes become others: of a post outside any plan, before anything of it is out. */
  predicate Promotes(db: Db, step: Publishing.Step) {
    && step.SPromoteTake? && !db.planned
    && db.status !in {PostStatus.Publishing, Live, Scored, PostStatus.Failed}
    && (AnyStands(db) ==> db.status in {Qa, PendingApproval, PostStatus.Approved, PostStatus.Scheduled})
  }

  /** A claim on its attempt finds the content changed, or no longer approved, or banned words in it. */
  predicate ContentRefused(db: Db, step: Publishing.Step) {
    step.SClaim? && OnItsAttempt(db, step.run) && Unarchived(db) && (!ContentApproved(db) || step.checks.bannedHits)
  }

  predicate ClaimFails(db: Db, step: Publishing.Step) {
    && step.SClaim? && OnItsAttempt(db, step.run) && Unarchived(db)
    && if ContentRefused(db, step) then db.jobs[step.run.platform].containerId.Some?
       else step.checks.tokenFails || !step.checks.payloadOk
  }

  predicate ClaimCallsOff(db: Db, step: Publishing.Step) {
    && step.SClaim? && OnItsAttempt(db, step.run)
    && (!Unarchived(db) || (ContentRefused(db, step) && db.jobs[step.run.platform].containerId.None?))
  }

  /** A claim finds other content than was approved while nothing of the post is out. */
  predicate ClaimReopens(db: Db, step: Publishing.Step) {
    && ClaimCallsOff(db, step) && Unarchived(db) && !ContentApproved(db)
    && db.status in {PostStatus.Approved, PostStatus.Scheduled}
  }

  predicate ClaimSendsBack(db: Db, step: Publishing.Step) {
    && ClaimCallsOff(db, step) && Unarchived(db) && ContentApproved(db) && db.planned
    && db.status in {PostStatus.Approved, PostStatus.Scheduled}
  }

  /** Other content than a round stood on: approval starts over. */
  predicate Reopens(db: Db, step: Publishing.Step) {
    || (Edits(db, step) && !step.gaps && AnyStands(db))
    || (Promotes(db, step) && AnyStands(db))
    || ClaimReopens(db, step)
  }

  /** The agents have to work on the post again. */
  predicate SendsBack(db: Db, step: Publishing.Step) {
    || (Edits(db, step) && step.gaps)
    || (step.SReviseVisuals? && db.planned && !db.campaignArchived
        && db.status in {PendingApproval, PostStatus.Approved, PostStatus.Scheduled})
    || ClaimSendsBack(db, step)
  }

  predicate Archives(db: Db, step: Publishing.Step) {
    (step.SArchiveCampaign? && !db.campaignArchived) || (step.SArchiveClient? && !db.clientArchived)
  }

  /** What calls every waiting job of the post off. */
  predicate CallsWaitingOff(db: Db, step: Publishing.Step) {
    Reopens(db, step) || SendsBack(db, step) || ClaimCallsOff(db, step) || Archives(db, step)
  }

  // ---------------------------------------------------------------- the jobs after a step

  ghost function JobsAfter(db: Db, step: Publishing.Step): Jobs {
    match step
    case SCommitSchedule(plan, picked) =>
      db.jobs + map p | p in picked && SlotByPlan(db, step, p) :: ScheduledRow(db.jobs, p)
    case SScheduleByHand(p) =>
      if SlotByHand(db, step, p) then db.jobs[p := ScheduledRow(db.jobs, p)] else db.jobs
    case SQueueDue(due) =>
      map p | p in db.jobs ::
        if p in due && db.jobs[p].status == JobStatus.Scheduled then db.jobs[p].(status := Queued) else db.jobs[p]
    case SClaim(run, checks, _) =>
      if ClaimFails(db, step) then db.jobs[run.platform := Job(JobStatus.Failed, run.attempt, db.jobs[run.platform].containerId)]
      else if ClaimCallsOff(db, step) then CallOffWith(db.jobs, run.platform)
      else if OnItsAttempt(db, run)
        then db.jobs[run.platform := Job(JobStatus.Publishing, run.attempt, db.jobs[run.platform].containerId)]
      else db.jobs
    case SSettle(p, attempt, outcome) =>
      if Is(db.jobs, p, JobStatus.Publishing) && db.jobs[p].attempts == attempt
      then db.jobs[p := match outcome
                        case Container(c) => db.jobs[p].(containerId := Some(c))
                        case Out => db.jobs[p].(status := Published)
                        case TryAgain => db.jobs[p].(status := Queued)]
      else db.jobs
    case SFailJob(p, attempt) =>
      if p in db.jobs && OnAttempt(db.jobs[p], attempt)
      then db.jobs[p := Job(JobStatus.Failed, attempt, db.jobs[p].containerId)] else db.jobs
    case SRetry(p, resumed) =>
      if Retries(db, p)
      then db.jobs[p := Job(Queued, db.jobs[p].attempts, if db.jobs[p].containerId.Some? then Some(resumed) else None)] else db.jobs
    case SCancel(p) =>
      if Is(db.jobs, p, JobStatus.Failed) || Waits(db.jobs, p)
      then db.jobs[p := db.jobs[p].(status := JobStatus.Cancelled)] else db.jobs
    case _ => if CallsWaitingOff(db, step) then CancelWaiting(db.jobs) else db.jobs
  }

  predicate Retries(db: Db, p: Platform) {
    && Is(db.jobs, p, JobStatus.Failed) && Unarchived(db)
    && db.status in {PostStatus.Approved, PostStatus.Scheduled, PostStatus.Publishing, Live, PostStatus.Failed}
  }

  lemma StandsMeansReopenable(db: Db)
    ensures AnyStands(db) <==> HasReopenable(db)
  {
    if AnyStands(db) {
      var i :| 0 <= i < |db.rounds| && Stands(db.rounds[i]);
      assert db.rounds[i] in db.rounds && Reopenable(db.rounds[i]);
    }
    if HasReopenable(db) {
      var r :| r in db.rounds && Reopenable(r);
      var i :| 0 <= i < |db.rounds| && db.rounds[i] == r;
      assert Stands(db.rounds[i]);
    }
  }

  lemma SchedulingJobs(db: Db, step: Publishing.Step)
    requires step.SCommitSchedule? || step.SScheduleByHand?
    ensures Next(db, step).jobs == JobsAfter(db, step)
  {
    hide Sync;
    SyncsQueueNothing();
    if step.SCommitSchedule? {
      var plan, picked := step.plan, step.picked;
      forall p ensures SlotByPlan(db, step, p)
          <==> plan in db.plans && ScheduleDue(db, plan.round) && p in picked && p in plan.platforms && Schedulable(db, p)
      {
      }
      hide SlotByPlan, ScheduleDue, Schedulable, ScheduledRow;
      if plan in db.plans && ScheduleDue(db, plan.round) {
        assert Next(db, step).jobs == ScheduledJobs(db, plan, picked);
      }
    }
  }

  lemma SettlingJobs(db: Db, p: Platform, attempt: nat, outcome: Publishing.Outcome)
    ensures Settle(db, p, attempt, outcome).jobs == JobsAfter(db, SSettle(p, attempt, outcome))
  {
    hide Sync;
    if Is(db.jobs, p, JobStatus.Publishing) {
      SyncMovesNoJob(SetJob(db, p, db.jobs[p].(status := Published)));
      SyncMovesNoJob(SetJob(db, p, db.jobs[p].(status := Queued)));
    }
  }

  lemma FailingJobs(db: Db, p: Platform, attempt: nat, resumed: string)
    ensures FailJob(db, p, attempt).jobs == JobsAfter(db, SFailJob(p, attempt))
    ensures Retry(db, p, resumed).jobs == JobsAfter(db, SRetry(p, resumed))
  {
    hide Sync;
    SyncsQueueNothing();
  }

  lemma CancellingJobs(db: Db, p: Platform, due: set<Platform>)
    ensures Cancel(db, p).jobs == JobsAfter(db, SCancel(p))
    ensures QueueDue(db, due).jobs == JobsAfter(db, SQueueDue(due))
  {
    hide Sync;
    SyncsQueueNothing();
  }

  lemma ArchivingJobs(db: Db, step: Publishing.Step)
    requires step.SArchiveCampaign? || step.SArchiveClient?
    ensures Next(db, step).jobs == JobsAfter(db, step)
  {
    hide Sync, CancelPendingRounds;
    SyncsQueueNothing();
    if !(exists p :: p in db.jobs && NotYetOut(db.jobs[p])) {
      assert CancelWaiting(db.jobs) == db.jobs;
    }
  }

  lemma ApprovalJobs(db: Db, step: Publishing.Step)
    requires step.SEditCopy? || step.SReviseVisuals? || step.SPromoteTake?
    ensures Next(db, step).jobs == JobsAfter(db, step)
  {
    hide CancelRounds, CancelWaiting, CurrentContent, HasReopenable, AnyStands, OnItsAttempt, ContentApproved, Unarchived;
    StandsMeansReopenable(db);
  }

  /** Which of its outcomes a claim on its attempt has. */
  lemma ClaimingJobs(db: Db, step: Publishing.Step)
    requires step.SClaim?
    ensures Next(db, step).jobs == JobsAfter(db, step)
  {
    var run, checks, chain := step.run, step.checks, step.chain;
    var p := run.platform;
    hide Sync, CallOffWith, CancelRounds, CurrentContent;
    SyncsQueueNothing();
    if OnItsAttempt(db, run) {
      var guard := EvaluateGuards(db, checks);
      WhichGuard(db, checks);
      if guard.Some? {
        RefusingJobs(db, p, run.attempt, guard.value, chain);
      }
    }
  }

  lemma WhichGuard(db: Db, checks: Checks)
    ensures var guard := EvaluateGuards(db, checks);
      && (guard == Some(ArchivedGuard) <==> !Unarchived(db))
      && (guard in {Some(ApprovalGuard), Some(ContentHashGuard)} <==> Unarchived(db) && !ContentApproved(db))
      && (guard == Some(BannedWordsGuard) <==> Unarchived(db) && ContentApproved(db) && checks.bannedHits)
      && (guard == Some(TokenGuard) <==> Unarchived(db) && ContentApproved(db) && !checks.bannedHits && checks.tokenFails)
  {
  }

  lemma RefusingJobs(db: Db, p: Platform, attempt: nat, guard: Guard, chain: Chain)
    requires p in db.jobs && OnAttempt(db.jobs[p], attempt)
    ensures Refuse(db, p, attempt, guard, chain).jobs
         == if guard == TokenGuard || (guard != ArchivedGuard && db.jobs[p].containerId.Some?)
            then db.jobs[p := Job(JobStatus.Failed, attempt, db.jobs[p].containerId)]
            else CallOffWith(db.jobs, p)
  {
    hide Sync, CancelRounds, CurrentContent;
    SyncsQueueNothing();
    CancelWaitingTwice(db.jobs[p := db.jobs[p].(status := JobStatus.Cancelled)]);
    hide CancelWaiting;
  }

  lemma OtherJobs(db: Db, step: Publishing.Step)
    requires step.SAgentWork? || step.SEnter? || step.SSendForApproval? || step.SDecide? || step.SPrepareVariants? || step.SRedrive? || step.SDrift?
    ensures Next(db, step).jobs == JobsAfter(db, step)
  {
    hide Decide, CurrentContent, PreparedVariants, CanTransition, ScheduleDue, CallsWaitingOff, CancelWaiting;
    if step.SDecide? {
      DecidingMovesNoJob(db, step.round, step.actor, step.decision);
    }
    if CallsWaitingOff(db, step) {
      WhoCallsOff(db, step);
    }
  }

  lemma DecidingMovesNoJob(db: Db, r: nat, actor: Actor, decision: Decision)
    ensures Decide(db, r, actor, decision).jobs == db.jobs
  {
    hide Record, ChainRejection, CanTransition;
  }

  lemma WhoCallsOff(db: Db, step: Publishing.Step)
    requires CallsWaitingOff(db, step)
    ensures step.SEditCopy? || step.SReviseVisuals? || step.SPromoteTake? || step.SClaim? || step.SArchiveCampaign? || step.SArchiveClient?
    ensures step.SClaim? ==> ClaimCallsOff(db, step)
  {
    hide Unarchived, ContentApproved, OnItsAttempt, AnyStands;
  }

  lemma JobsMove(db: Db, step: Publishing.Step)
    ensures Next(db, step).jobs == JobsAfter(db, step)
  {
    hide JobsAfter, CommitSchedule, ScheduleByHand, ArchiveCampaign, ArchiveClient, EditCopy, ReviseVisuals, PromoteTake, Claim,
      Settle, FailJob, Retry, Cancel, QueueDue, AgentWork, EnterStatus, SendForApproval, Decide, PrepareVariants, Redrive;
    match step
    case SCommitSchedule(_, _) => SchedulingJobs(db, step);
    case SScheduleByHand(_) => SchedulingJobs(db, step);
    case SArchiveCampaign => ArchivingJobs(db, step);
    case SArchiveClient => ArchivingJobs(db, step);
    case SEditCopy(_, _, _) => ApprovalJobs(db, step);
    case SReviseVisuals => ApprovalJobs(db, step);
    case SPromoteTake(_, _) => ApprovalJobs(db, step);
    case SClaim(_, _, _) => ClaimingJobs(db, step);
    case SSettle(p, attempt, outcome) => SettlingJobs(db, p, attempt, outcome);
    case SFailJob(p, attempt) => FailingJobs(db, p, attempt, "");
    case SRetry(p, resumed) => FailingJobs(db, p, 0, resumed);
    case SCancel(p) => CancellingJobs(db, p, {});
    case SQueueDue(due) => CancellingJobs(db, "", due);
    case _ => OtherJobs(db, step);
  }

  // ---------------------------------------------------------------- when a job comes into a status

  ghost predicate Comes(db: Db, step: Publishing.Step, p: Platform, status: JobStatus) {
    Is(Next(db, step).jobs, p, status) && !Is(db.jobs, p, status)
  }

  /** A job comes onto a slot only while the latest round stands approved and nobody is archived: by a plan
      of the Publisher or a teammate's hand. A called off row counts its attempts on, without a container. */
  lemma ComesOntoASlotExactly(db: Db, step: Publishing.Step, p: Platform)
    ensures Comes(db, step, p, JobStatus.Scheduled) <==> SlotByPlan(db, step, p) || SlotByHand(db, step, p)
    ensures Comes(db, step, p, JobStatus.Scheduled) ==>
      Next(db, step).jobs[p] == Job(JobStatus.Scheduled, if p in db.jobs then db.jobs[p].attempts + 1 else 0, None)
  {
    hide Next, Unarchived, LatestApproved, ClaimFails, ClaimCallsOff, CallsWaitingOff, Retries;
    JobsMove(db, step);
  }

  /** A job is queued when its slot comes, when a teammate retries a failed one of nobody archived, or when
      its attempt under way is put off; it keeps its attempts. */
  lemma ComesQueuedExactly(db: Db, step: Publishing.Step, p: Platform)
    ensures Comes(db, step, p, Queued) <==>
      || (step.SQueueDue? && p in step.due && Is(db.jobs, p, JobStatus.Scheduled))
      || (step.SRetry? && step.p == p && Retries(db, p))
      || (step.SSettle? && step.p == p && step.outcome == TryAgain
          && Is(db.jobs, p, JobStatus.Publishing) && db.jobs[p].attempts == step.attempt)
    ensures Comes(db, step, p, Queued) ==> Next(db, step).jobs[p].attempts == db.jobs[p].attempts
  {
    hide Next, Unarchived, ClaimFails, ClaimCallsOff, CallsWaitingOff, SlotByPlan, SlotByHand;
    JobsMove(db, step);
  }

  /** A job is PUBLISHED when the platform took the attempt under way, and then only. */
  lemma ComesOutExactly(db: Db, step: Publishing.Step, p: Platform)
    ensures Comes(db, step, p, Published) <==>
      step.SSettle? && step.p == p && step.outcome == Out && Is(db.jobs, p, JobStatus.Publishing) && db.jobs[p].attempts == step.attempt
  {
    hide Next, Retries, ClaimFails, ClaimCallsOff, CallsWaitingOff, SlotByPlan, SlotByHand;
    JobsMove(db, step);
  }

  /** A job fails by its own attempt, or by a claim on it that the guard or the payload stops. */
  lemma FailsExactly(db: Db, step: Publishing.Step, p: Platform)
    ensures Comes(db, step, p, JobStatus.Failed) <==>
      || (step.SFailJob? && step.p == p && p in db.jobs
          && ((Is(db.jobs, p, Queued) && step.attempt == db.jobs[p].attempts + 1)
              || (Is(db.jobs, p, JobStatus.Publishing) && step.attempt == db.jobs[p].attempts)))
      || (ClaimFails(db, step) && step.run.platform == p)
  {
    hide Next, Retries, ContentRefused, CallsWaitingOff, SlotByPlan, SlotByHand, Unarchived;
    JobsMove(db, step);
  }

  /** A job is called off by a teammate, as failed or still waiting; by a claim of it that is refused; or
      while it waits, when the post's content, its approval or its owner goes. */
  lemma CalledOffExactly(db: Db, step: Publishing.Step, p: Platform)
    ensures Comes(db, step, p, JobStatus.Cancelled) <==>
      || (step.SCancel? && step.p == p && (Is(db.jobs, p, JobStatus.Failed) || Waits(db.jobs, p)))
      || (ClaimCallsOff(db, step) && step.run.platform == p)
      || (CallsWaitingOff(db, step) && Waits(db.jobs, p))
  {
    hide Next, Retries, SlotByPlan, SlotByHand, Unarchived, CallsWaitingOff, ContentRefused;
    JobsMove(db, step);
    if CallsWaitingOff(db, step) {
      WhoCallsOff(db, step);
    }
    if ClaimCallsOff(db, step) {
      RefusedCallsOff(db, step);
    }
  }

  lemma RefusedCallsOff(db: Db, step: Publishing.Step)
    requires ClaimCallsOff(db, step)
    ensures CallsWaitingOff(db, step)
  {
  }

  // ---------------------------------------------------------------- on every run

  ghost predicate GotItsSlotAt(db: Db, steps: seq<Publishing.Step>, p: Platform, i: nat) {
    && i < |steps|
    && var before := Exec(db, steps[..i]);
       p !in before.jobs && (SlotByPlan(before, steps[i], p) || SlotByHand(before, steps[i], p))
  }

  /** Every job a post ever gets on a run came onto its slot while the latest round stood approved, for a
      platform with a variant, of nobody archived. */
  lemma {:induction false} EveryJobWasGivenASlot(db: Db, steps: seq<Publishing.Step>, p: Platform)
    requires p !in db.jobs && p in Exec(db, steps).jobs
    ensures exists i: nat :: GotItsSlotAt(db, steps, p, i)
    decreases |steps|
  {
    hide Next, SlotByPlan, SlotByHand;
    var after := Next(db, steps[0]);
    if p in after.jobs {
      NewJobsAreOnASlot(db, steps[0], p);
      assert steps[..0] == [];
      assert GotItsSlotAt(db, steps, p, 0);
    } else {
      EveryJobWasGivenASlot(after, steps[1..], p);
      var i: nat :| GotItsSlotAt(after, steps[1..], p, i);
      assert steps[..i + 1][0] == steps[0] && steps[..i + 1][1..] == steps[1..][..i];
      assert GotItsSlotAt(db, steps, p, i + 1);
    }
  }

  lemma NewJobsAreOnASlot(db: Db, step: Publishing.Step, p: Platform)
    requires p !in db.jobs && p in Next(db, step).jobs
    ensures SlotByPlan(db, step, p) || SlotByHand(db, step, p)
  {
    hide Next, SlotByPlan, SlotByHand, ContentRefused, CallsWaitingOff, Unarchived;
    JobsMove(db, step);
  }

  ghost predicate WasClaimed(db: Db, p: Platform) {
    p in db.jobs && exists k :: 0 <= k < |db.sent| && db.sent[k].platform == p && db.sent[k].attempt == db.jobs[p].attempts
  }

  /** Whatever is under way or out was claimed, on the attempt its row counts. */
  ghost predicate AllClaimed(db: Db) {
    forall p :: Is(db.jobs, p, JobStatus.Publishing) || Is(db.jobs, p, Published) ==> WasClaimed(db, p)
  }

  lemma StepKeepsClaimed(db: Db, step: Publishing.Step)
    requires AllClaimed(db)
    ensures AllClaimed(Next(db, step))
  {
    var after := Next(db, step);
    hide Next, OnItsAttempt, MayGoOut, ChecksPass;
    GoesOutExactly(db, step);
    assert after.sent != db.sent ==> |after.sent| == |db.sent| + 1 && after.sent[..|db.sent|] == db.sent;
    forall p | Is(after.jobs, p, JobStatus.Publishing) || Is(after.jobs, p, Published) ensures WasClaimed(after, p) {
      UnderWayBefore(db, step, p);
      if after.sent != db.sent && step.run.platform == p {
        assert after.sent[|db.sent|].platform == p;
      } else {
        var k :| 0 <= k < |db.sent| && db.sent[k].platform == p && db.sent[k].attempt == db.jobs[p].attempts;
        assert after.sent[k] == db.sent[k];
      }
    }
  }

  /** A row under way or out was so before, on the same attempt, unless this step claimed it. */
  lemma UnderWayBefore(db: Db, step: Publishing.Step, p: Platform)
    requires var after := Next(db, step); Is(after.jobs, p, JobStatus.Publishing) || Is(after.jobs, p, Published)
    ensures (step.SClaim? && step.run.platform == p && Next(db, step).sent != db.sent)
      || ((Is(db.jobs, p, JobStatus.Publishing) || Is(db.jobs, p, Published)) && Next(db, step).jobs[p].attempts == db.jobs[p].attempts)
  {
    JobsMove(db, step);
    GoesOutExactly(db, step);
    if step.SClaim? && OnItsAttempt(db, step.run) && !ClaimFails(db, step) && !ClaimCallsOff(db, step) {
      ClaimGoesOrStops(db, step);
    }
    hide Next, Retries, SlotByPlan, SlotByHand, CallsWaitingOff, ClaimFails, ClaimCallsOff, MayGoOut, ChecksPass;
  }

  lemma ClaimGoesOrStops(db: Db, step: Publishing.Step)
    requires step.SClaim? && OnItsAttempt(db, step.run) && !ClaimFails(db, step) && !ClaimCallsOff(db, step)
    ensures MayGoOut(db) && ChecksPass(step.checks)
  {
  }

  /** On every run, a job is under way or PUBLISHED only once a claim of just that attempt went through. */
  lemma {:induction false} NothingIsOutUnclaimed(db: Db, steps: seq<Publishing.Step>)
    requires AllClaimed(db)
    ensures AllClaimed(Exec(db, steps))
    decreases |steps|
  {
    if steps != [] {
      hide Next, AllClaimed;
      StepKeepsClaimed(db, steps[0]);
      NothingIsOutUnclaimed(Next(db, steps[0]), steps[1..]);
    }
  }
}
