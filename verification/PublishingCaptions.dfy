/** Whether the caption that goes out is the one the approved copy has for its platform. The guard
    does not look at that: it compares the post with its round's hash, and a round hashes whatever
    text the variants held when it opened. */
module PublishingCaptions {
  import opened Options
  import opened ApprovalChain
  import opened PostLifecycle
  import opened Publishing
  import opened PublishingAgreement
  import opened PublishingHistory
  import PublishingMoves

  predicate FreshText(db: Db, p: Platform) {
    p in db.variants && db.copy.Some? && db.variants[p] == VariantCopyOf(db.copy.value, p)
  }

  /** Every job that counts is on a variant carrying the post's own caption. */
  ghost predicate JobsFresh(db: Db) {
    forall p :: Counts(db, p) ==> FreshText(db, p)
  }

  /** A plan can only still be carried out on the copy it was made from. */
  ghost predicate PlansFresh(db: Db) {
    forall plan :: plan in db.plans ==>
      && 1 <= plan.round <= |db.rounds|
      && (plan.round == |db.rounds| ==>
            !LatestIs(db, Pending)
            && (LatestIs(db, RoundStatus.Approved) ==> forall p :: p in plan.platforms ==> FreshText(db, p)))
  }

  ghost predicate SentFresh(sent: seq<Sent>) {
    forall k :: 0 <= k < |sent| ==>
      var s := sent[k];
      && s.content.copy.Some? && s.platform in s.content.variants
      && s.content.variants[s.platform] == VariantCopyOf(s.content.copy.value, s.platform)
  }

  ghost predicate Fresh(db: Db) {
    JobsFresh(db) && PlansFresh(db) && SentFresh(db.sent)
  }

  /** The manual schedule is the one step that checks nothing of the variant's text. */
  predicate StalePick(db: Db, step: Publishing.Step) {
    step.SScheduleByHand? && ScheduleByHand(db, step.p) != db && !FreshText(db, step.p)
  }

  lemma AllCalledOff(before: Db, after: Db)
    requires Fresh(before) && after.sent == before.sent && after.plans == before.plans
    requires forall p :: p in after.jobs ==> after.jobs[p].status == JobStatus.Cancelled
    requires PlansFresh(after)
    ensures Fresh(after)
  {
  }

  lemma PlansOutlived(before: Db, after: Db)
    requires PlansFresh(before) && after.plans == before.plans
    requires |before.rounds| < |after.rounds|
          || (|before.rounds| == |after.rounds| && !LatestIs(after, Pending) && !LatestIs(after, RoundStatus.Approved))
    ensures PlansFresh(after)
  {
  }

  lemma ApprovalStepsStayFresh(db: Db, copy: Option<Copy>, assetIds: set<string>, chain: Chain)
    requires Agreed(db) && Fresh(db) && (WaitsOrApproved(db.status) || !PublishDriven(db.status))
    ensures Fresh(Reopen(db.(copy := copy, assetIds := assetIds), chain))
    ensures Fresh(ReopenForRevision(db.(copy := copy, assetIds := assetIds)))
  {
    hide FreshText, StatusOfJobs, SentFresh;
    var changed := db.(copy := copy, assetIds := assetIds);
    WaitingCalledOff(db);
    PlansOutlived(db, Reopen(changed, chain));
    PlansOutlived(db, ReopenForRevision(changed));
    AllCalledOff(db, Reopen(changed, chain));
    AllCalledOff(db, ReopenForRevision(changed));
  }

  /** Jobs change, none of them to one that counts and did not. */
  lemma FewerJobsStayFresh(before: Db, after: Db)
    requires Fresh(before) && PlansFresh(after) && SentFresh(after.sent)
    requires after.copy == before.copy && after.variants == before.variants
    requires forall p :: Counts(after, p) ==> Counts(before, p) || FreshText(before, p)
    ensures Fresh(after)
  {
  }

  /** Nothing plans look at has changed. */
  lemma PlansUntouched(before: Db, after: Db)
    requires PlansFresh(before) && after.plans == before.plans && after.rounds == before.rounds
    requires after.copy == before.copy && after.variants == before.variants
    ensures PlansFresh(after)
  {
  }

  lemma SyncStaysFresh(db: Db)
    ensures Fresh(Sync(db)) <==> Fresh(db)
  {
    hide StatusOfJobs, VariantCopyOf;
    if Fresh(db) {
      PlansUntouched(db, Sync(db));
      FewerJobsStayFresh(db, Sync(db));
    }
    if Fresh(Sync(db)) {
      PlansUntouched(Sync(db), db);
      FewerJobsStayFresh(Sync(db), db);
    }
  }

  /** Jobs change and the post follows: fresh exactly when every job that counts now is. */
  lemma JobsChangedStayFresh(db: Db, jobs: Jobs)
    requires Fresh(db)
    ensures Fresh(Sync(db.(jobs := jobs))) <==> JobsFresh(db.(jobs := jobs))
  {
    hide StatusOfJobs, VariantCopyOf, Sync;
    var changed := db.(jobs := jobs);
    PlansUntouched(db, changed);
    SyncStaysFresh(changed);
  }

  lemma CountingJobsStayFresh(db: Db, jobs: Jobs)
    requires Fresh(db)
    requires forall p :: p in jobs && jobs[p].status != JobStatus.Cancelled ==> Counts(db, p) || FreshText(db, p)
    ensures Fresh(Sync(db.(jobs := jobs)))
  {
    hide StatusOfJobs, VariantCopyOf, Sync;
    JobsChangedStayFresh(db, jobs);
    forall p | Counts(db.(jobs := jobs), p) ensures FreshText(db.(jobs := jobs), p) {
      assert Counts(db, p) || FreshText(db, p);
    }
  }

  lemma OneJobStaysFresh(db: Db, p: Platform, job: Job)
    requires Fresh(db) && Counts(db, p)
    ensures Fresh(Sync(SetJob(db, p, job)))
  {
    hide StatusOfJobs, VariantCopyOf, Sync;
    CountingJobsStayFresh(db, db.jobs[p := job]);
  }

  lemma MoreRunsStayFresh(db: Db, runs: set<Run>)
    requires Fresh(db)
    ensures Fresh(db.(runs := runs))
  {
    hide VariantCopyOf;
    PlansUntouched(db, db.(runs := runs));
    FewerJobsStayFresh(db, db.(runs := runs));
  }

  // ---------------------------------------------------------------- the steps

  lemma FailJobStaysFresh(db: Db, p: Platform, attempt: nat)
    requires Fresh(db)
    ensures Fresh(FailJob(db, p, attempt))
  {
    hide Sync, Fresh;
    if p in db.jobs && OnAttempt(db.jobs[p], attempt) {
      OneJobStaysFresh(db, p, db.jobs[p].(status := JobStatus.Failed, attempts := attempt));
    }
  }

  lemma SettleStaysFresh(db: Db, p: Platform, attempt: nat, outcome: Publishing.Outcome)
    requires Agreed(db) && Fresh(db)
    ensures Fresh(Settle(db, p, attempt, outcome))
  {
    hide Sync, Fresh, Agreed;
    if p in db.jobs && db.jobs[p].status == JobStatus.Publishing && db.jobs[p].attempts == attempt {
      var job := db.jobs[p];
      match outcome
      case Container(c) =>
        PresentJob(db, p);
        SameStatusNeedsNoSync(db, p, job.(containerId := Some(c)));
        OneJobStaysFresh(db, p, job.(containerId := Some(c)));
      case Out => OneJobStaysFresh(db, p, job.(status := Published));
      case TryAgain =>
        OneJobStaysFresh(db, p, job.(status := Queued));
        MoreRunsStayFresh(Sync(SetJob(db, p, job.(status := Queued))), Settle(db, p, attempt, outcome).runs);
    }
  }

  lemma ByHandStaysFresh(db: Db, p: Platform, resumed: string)
    requires Fresh(db)
    ensures Fresh(Retry(db, p, resumed)) && Fresh(Cancel(db, p))
  {
    hide Sync, Fresh;
    if p in db.jobs && db.jobs[p].status != JobStatus.Cancelled {
      var job := db.jobs[p];
      OneJobStaysFresh(db, p, job.(status := JobStatus.Cancelled));
      var queued := job.(status := Queued, containerId := if job.containerId.Some? then Some(resumed) else None);
      OneJobStaysFresh(db, p, queued);
      MoreRunsStayFresh(Sync(SetJob(db, p, queued)), Retry(db, p, resumed).runs);
    }
  }

  lemma HandPickedIsFreshExactlyIfItsTextIs(db: Db, p: Platform)
    requires Fresh(db)
    ensures Fresh(ScheduleByHand(db, p)) <==> !StalePick(db, SScheduleByHand(p))
  {
    hide Sync, VariantCopyOf;
    var jobs := db.jobs[p := ScheduledRow(db.jobs, p)];
    if ScheduleByHand(db, p) != db {
      if FreshText(db, p) {
        CountingJobsStayFresh(db, jobs);
      } else {
        JobsChangedStayFresh(db, jobs);
        assert Counts(db.(jobs := jobs), p) && !FreshText(db.(jobs := jobs), p);
      }
    }
  }

  lemma CommitStaysFresh(db: Db, plan: Plan, picked: set<Platform>)
    requires Fresh(db)
    ensures Fresh(CommitSchedule(db, plan, picked))
  {
    hide Sync, VariantCopyOf;
    if plan in db.plans && ScheduleDue(db, plan.round) {
      CountingJobsStayFresh(db, ScheduledJobs(db, plan, picked));
    }
  }

  lemma PrepareStaysFresh(db: Db, round: nat)
    requires Agreed(db) && Fresh(db)
    ensures Fresh(PrepareVariants(db, round))
  {
    hide StatusOfJobs;
    if ScheduleDue(db, round) && db.copy.Some? {
      NoneLeftWhenApproved(db);
      var after := PrepareVariants(db, round);
      assert forall p :: FreshText(db, p) ==> FreshText(after, p);
      assert forall status :: LatestIs(after, status) <==> LatestIs(db, status);
    }
  }

  lemma QueueDueStaysFresh(db: Db, due: set<Platform>)
    requires Fresh(db)
    ensures Fresh(QueueDue(db, due))
  {
    hide VariantCopyOf;
    PlansUntouched(db, QueueDue(db, due));
    FewerJobsStayFresh(db, QueueDue(db, due));
  }

  lemma PlansBehind(before: Db, after: Db)
    requires PlansFresh(before) && after.plans == before.plans && |after.rounds| == |before.rounds|
    requires LatestIs(before, Pending)
    ensures PlansFresh(after)
  {
  }

  lemma OtherRowsStayFresh(before: Db, after: Db)
    requires Fresh(before) && PlansFresh(after)
    requires after.(rounds := before.rounds, status := before.status, atWork := before.atWork) == before
    ensures Fresh(after)
  {
    FewerJobsStayFresh(before, after);
  }

  /** A decision writes its round, the post's status and whether it goes back to the agents. */
  lemma DecideWrites(db: Db, r: nat, actor: Actor, decision: Decision) returns (rounds: seq<Round>, status: PostStatus, atWork: bool)
    ensures |rounds| == |db.rounds| && Decide(db, r, actor, decision) == db.(rounds := rounds, status := status, atWork := atWork)
  {
    hide Record, ChainRejection, CanTransition;
    var after := Decide(db, r, actor, decision);
    rounds, status, atWork := after.rounds, after.status, after.atWork;
  }

  lemma OpenRoundIsLatest(db: Db, r: nat, actor: Actor)
    requires Agreed(db) && r < |db.rounds| && ChainRejection(db.rounds[r].walk, actor).None?
    ensures LatestIs(db, Pending)
  {
    hide JobsFit, PublishingAgreement.StatusFits;
    assert Reopenable(db.rounds[r]);
  }

  lemma DecideRejected(db: Db, r: nat, actor: Actor, decision: Decision)
    requires r >= |db.rounds| || ChainRejection(db.rounds[r].walk, actor).Some?
    ensures Decide(db, r, actor, decision) == db
  {
    hide ChainRejection, Record;
  }

  lemma DecideStaysFresh(db: Db, r: nat, actor: Actor, decision: Decision)
    requires Agreed(db) && Fresh(db)
    ensures Fresh(Decide(db, r, actor, decision))
  {
    hide Decide, ChainRejection, Agreed, JobsFresh, SentFresh, PlansFresh, LatestIs;
    var after := Decide(db, r, actor, decision);
    if r < |db.rounds| && ChainRejection(db.rounds[r].walk, actor).None? {
      var rounds, status, atWork := DecideWrites(db, r, actor, decision);
      OpenRoundIsLatest(db, r, actor);
      PlansBehind(db, after);
      OtherRowsStayFresh(db, after);
    } else {
      DecideRejected(db, r, actor, decision);
    }
  }

  lemma RefuseStaysFresh(db: Db, p: Platform, attempt: nat, guard: Guard, chain: Chain)
    requires Agreed(db) && Fresh(db) && p in db.jobs && OnAttempt(db.jobs[p], attempt)
    ensures Fresh(Refuse(db, p, attempt, guard, chain))
  {
    hide VariantCopyOf, Sync, Agreed, Fresh;
    FailJobStaysFresh(db, p, attempt);
    CallingOffStaysFresh(db, p);
    if db.jobs[p].containerId.None? && db.status in {PostStatus.Approved, PostStatus.Scheduled} {
      NoneOutWhileWaiting(db, p);
      CancelWaitingTwice(db.jobs);
      ApprovalStepsStayFresh(db, db.copy, db.assetIds, chain);
      assert db.(copy := db.copy, assetIds := db.assetIds) == db;
    }
  }

  lemma NoneOutWhileWaiting(db: Db, p: Platform)
    requires Agreed(db) && p in db.jobs && db.jobs[p].containerId.None? && db.jobs[p].status != JobStatus.Cancelled
    requires db.status in {PostStatus.Approved, PostStatus.Scheduled}
    ensures CallOffWith(db.jobs, p) == CancelWaiting(db.jobs)
  {
    NoneOutUnlessFrozen(db.status, db.jobs);
  }

  lemma CallingOffStaysFresh(db: Db, p: Platform)
    requires Fresh(db)
    ensures Fresh(CallOff(db))
    ensures p in db.jobs ==> Fresh(Sync(db.(jobs := CallOffWith(db.jobs, p))))
  {
    hide VariantCopyOf, Sync;
    CountingJobsStayFresh(db, CancelWaiting(db.jobs));
    if p in db.jobs {
      CountingJobsStayFresh(db, CallOffWith(db.jobs, p));
    }
  }

  lemma ClaimStaysFresh(db: Db, run: Run, checks: Checks, chain: Chain)
    requires Agreed(db) && Fresh(db)
    ensures Fresh(Claim(db, run, checks, chain))
  {
    hide Sync, Refuse, FailJob, Agreed, Fresh;
    var p := run.platform;
    if run in db.runs && p in db.jobs && OnAttempt(db.jobs[p], run.attempt) {
      var guard := EvaluateGuards(db, checks);
      if guard.Some? {
        RefuseStaysFresh(db, p, run.attempt, guard.value, chain);
      } else if !checks.payloadOk {
        FailJobStaysFresh(db, p, run.attempt);
      } else {
        ClaimedStaysFresh(db, run);
      }
    }
  }

  lemma ClaimedStaysFresh(db: Db, run: Run)
    requires Fresh(db) && run.platform in db.jobs && OnAttempt(db.jobs[run.platform], run.attempt)
    requires |db.rounds| > 0
    ensures var p := run.platform;
            var resumed := db.jobs[p].status == JobStatus.Publishing;
            var claimed := SetJob(db, p, db.jobs[p].(status := JobStatus.Publishing, attempts := run.attempt))
                           .(sent := db.sent + [Sent(p, run.attempt, |db.rounds| - 1, CurrentContent(db), resumed)]);
            Fresh(if resumed then claimed else Sync(claimed))
  {
    hide Sync, VariantCopyOf;
    var p := run.platform;
    var s := Sent(p, run.attempt, |db.rounds| - 1, CurrentContent(db), db.jobs[p].status == JobStatus.Publishing);
    var claimed := SetJob(db, p, db.jobs[p].(status := JobStatus.Publishing, attempts := run.attempt))
                   .(sent := db.sent + [s]);
    assert FreshText(db, p);
    PlansUntouched(db, claimed);
    FewerJobsStayFresh(db, claimed);
    SyncStaysFresh(claimed);
  }

  lemma ArchiveStaysFresh(db: Db)
    requires Fresh(db)
    ensures Fresh(ArchiveCampaign(db)) && Fresh(ArchiveClient(db))
  {
    hide VariantCopyOf, CallOff;
    var campaign := db.(campaignArchived := true, rounds := CancelPendingRounds(db.rounds));
    FewerJobsStayFresh(db, campaign);
    CallingOffStaysFresh(campaign, "");
    var client := db.(clientArchived := true);
    FewerJobsStayFresh(db, client);
    CallingOffStaysFresh(client, "");
  }

  lemma NothingStandsInProduction(db: Db)
    requires Agreed(db) && InProduction(db.status)
    ensures !LatestIs(db, Pending) && !LatestIs(db, RoundStatus.Approved)
    ensures forall p :: p in db.jobs ==> db.jobs[p].status == JobStatus.Cancelled
  {
    hide StatusOfJobs;
  }

  lemma SameRoundsSameLatest(db: Db, after: Db)
    requires after.rounds == db.rounds
    ensures forall status :: LatestIs(after, status) == LatestIs(db, status)
  {
  }

  lemma FreshIsAll(db: Db)
    requires Fresh(db)
    ensures PlansFresh(db)
  {
    hide PlansFresh, JobsFresh, SentFresh;
  }

  lemma WorkStaysFresh(db: Db, status: PostStatus, copy: Option<Copy>, assetIds: set<string>)
    requires Agreed(db) && Fresh(db)
    ensures Fresh(AgentWork(db, status, copy, assetIds))
  {
    hide VariantCopyOf, StatusOfJobs, FreshText, JobsFresh, SentFresh, PlansFresh;
    if db.atWork && InProduction(status) {
      NothingStandsInProduction(db);
      hide Agreed, Fresh, LatestIs;
      var worked := AgentWork(db, status, copy, assetIds);
      assert LatestIs(worked, Pending) == LatestIs(db, Pending) by { SameRoundsSameLatest(db, worked); }
      assert LatestIs(worked, RoundStatus.Approved) == LatestIs(db, RoundStatus.Approved) by { SameRoundsSameLatest(db, worked); }
      FreshIsAll(db);
      PlansOutlived(db, worked);
      AllCalledOff(db, worked);
    }
  }

  lemma SendingStaysFresh(db: Db, chain: Chain)
    requires Agreed(db) && Fresh(db)
    ensures Fresh(SendForApproval(db, chain))
  {
    hide VariantCopyOf, StatusOfJobs, FreshText;
    if db.atWork && db.status == Qa {
      var sent := SendForApproval(db, chain);
      PlansOutlived(db, sent);
      AllCalledOff(db, sent);
    }
  }

  lemma EditStaysFresh(db: Db, edit: Copy, gaps: bool, chain: Chain)
    requires Agreed(db) && Fresh(db)
    ensures Fresh(EditCopy(db, edit, gaps, chain))
  {
    hide Fresh, Reopen, ReopenForRevision, StatusOfJobs;
    if !db.campaignArchived && WaitsOrApproved(db.status) {
      ApprovalStepsStayFresh(db, Some(edit), db.assetIds, chain);
      assert Reopenable(db.rounds[|db.rounds| - 1]);
      assert db.rounds[|db.rounds| - 1] in db.rounds;
    }
  }

  lemma PromoteStaysFresh(db: Db, assetIds: set<string>, chain: Chain)
    requires Agreed(db) && Fresh(db)
    ensures Fresh(PromoteTake(db, assetIds, chain))
  {
    hide Reopen, VariantCopyOf, StatusOfJobs;
    if !db.planned && !Frozen(db.status) {
      ApprovalStepsStayFresh(db, db.copy, assetIds, chain);
      FewerJobsStayFresh(db, db.(assetIds := assetIds));
    }
  }

  /** The drift leaves a job that counts, or a plan that may still be carried out, on another copy's text. */
  ghost predicate StaleDrift(db: Db, step: Publishing.Step) {
    step.SDrift? && !(JobsFresh(db.(copy := step.copy)) && PlansFresh(db.(copy := step.copy)))
  }

  lemma DriftStaysFresh(db: Db, copy: Option<Copy>, assetIds: set<string>)
    requires Fresh(db)
    ensures Fresh(db.(copy := copy, assetIds := assetIds)) <==> !StaleDrift(db, SDrift(copy, assetIds))
    ensures copy == db.copy ==> !StaleDrift(db, SDrift(copy, assetIds))
  {
    var drifted, after := db.(copy := copy), db.(copy := copy, assetIds := assetIds);
    assert forall p :: FreshText(drifted, p) == FreshText(after, p);
    assert forall p :: Counts(drifted, p) == Counts(after, p);
    assert forall status :: LatestIs(drifted, status) == LatestIs(after, status);
    assert copy == db.copy ==> drifted == db;
  }

  lemma EnterStaysFresh(db: Db, status: PostStatus)
    requires Fresh(db)
    ensures Fresh(EnterStatus(db, status))
  {
    hide VariantCopyOf;
    PlansUntouched(db, EnterStatus(db, status));
    FewerJobsStayFresh(db, EnterStatus(db, status));
  }

  lemma UnlandedStaysFresh(db: Db, step: Publishing.Step)
    requires Agreed(db) && Fresh(db)
    ensures Fresh(Next(db, step)) <==> !StalePick(db, step) && !StaleDrift(db, step)
  {
    hide Fresh, Agreed, Sync, ScheduleByHand, EnterStatus, JobsFresh, PlansFresh;
    match step
    case SAgentWork(status, copy, assetIds) => WorkStaysFresh(db, status, copy, assetIds);
    case SEnter(status) => EnterStaysFresh(db, status);
    case SSendForApproval(chain) => SendingStaysFresh(db, chain);
    case SDecide(r, actor, decision) => DecideStaysFresh(db, r, actor, decision);
    case SEditCopy(edit, gaps, chain) => EditStaysFresh(db, edit, gaps, chain);
    case SReviseVisuals =>
      if WaitsOrApproved(db.status) {
        ApprovalStepsStayFresh(db, db.copy, db.assetIds, []);
        assert db.(copy := db.copy, assetIds := db.assetIds) == db;
      }
    case SPromoteTake(assetIds, chain) => PromoteStaysFresh(db, assetIds, chain);
    case SPrepareVariants(round) => PrepareStaysFresh(db, round);
    case SCommitSchedule(plan, picked) => CommitStaysFresh(db, plan, picked);
    case SScheduleByHand(p) => HandPickedIsFreshExactlyIfItsTextIs(db, p);
    case SQueueDue(due) => QueueDueStaysFresh(db, due);
    case SRedrive(p) => MoreRunsStayFresh(db, Redrive(db, p).runs);
    case SClaim(run, checks, chain) => ClaimStaysFresh(db, run, checks, chain);
    case SSettle(p, attempt, outcome) => SettleStaysFresh(db, p, attempt, outcome);
    case SFailJob(p, attempt) => FailJobStaysFresh(db, p, attempt);
    case SRetry(p, resumed) => ByHandStaysFresh(db, p, resumed);
    case SCancel(p) => ByHandStaysFresh(db, p, "");
    case SArchiveCampaign => ArchiveStaysFresh(db);
    case SArchiveClient => ArchiveStaysFresh(db);
    case SDrift(copy, assetIds) => DriftStaysFresh(db, copy, assetIds);
  }

  /** A claim of a job that counts sends its fresh text. */
  lemma MoreSentStayFresh(db: Db, step: Publishing.Step)
    requires Fresh(db)
    ensures SentFresh(Next(db, step).sent)
  {
    hide Next;
    StepAdds(db, step);
    var after := Next(db, step);
    forall k | 0 <= k < |after.sent|
      ensures var s := after.sent[k];
        && s.content.copy.Some? && s.platform in s.content.variants
        && s.content.variants[s.platform] == VariantCopyOf(s.content.copy.value, s.platform)
    {
      if k < |db.sent| {
        assert after.sent[k] == db.sent[k];
      } else {
        assert Counts(db, after.sent[k].platform);
      }
    }
  }

  lemma RefuseCountsNone(db: Db, p: Platform, attempt: nat, guard: Guard, chain: Chain, q: Platform)
    requires p in db.jobs && OnAttempt(db.jobs[p], attempt) && Counts(Refuse(db, p, attempt, guard, chain), q)
    ensures Counts(db, q)
  {
    hide Refuse;
    PublishingMoves.RefusingJobs(db, p, attempt, guard, chain);
  }

  lemma ClaimCountsNone(db: Db, run: Run, checks: Checks, chain: Chain, q: Platform)
    requires Counts(Claim(db, run, checks, chain), q)
    ensures Counts(db, q)
  {
    hide Sync, CurrentContent, Refuse;
    SyncsQueueNothing();
    var p, guard := run.platform, EvaluateGuards(db, checks);
    if run in db.runs && p in db.jobs && OnAttempt(db.jobs[p], run.attempt) {
      if guard.Some? {
        RefuseCountsNone(db, p, run.attempt, guard.value, chain, q);
      }
    }
  }

  lemma JobStepsCountNone(db: Db, step: Publishing.Step, p: Platform)
    requires step.SQueueDue? || step.SSettle? || step.SFailJob? || step.SRetry? || step.SCancel? || step.SArchiveCampaign? || step.SArchiveClient?
    requires Counts(Next(db, step), p)
    ensures Counts(db, p)
  {
    hide Sync, CurrentContent, CancelPendingRounds, CanTransition;
    SyncsQueueNothing();
  }

  /** Only a schedule makes a row count that did not. */
  lemma NoneCountsAnew(db: Db, step: Publishing.Step, p: Platform)
    requires !step.SCommitSchedule? && !step.SScheduleByHand? && Counts(Next(db, step), p)
    ensures Counts(db, p)
  {
    if step.SClaim? {
      ClaimCountsNone(db, step.run, step.checks, step.chain, p);
    } else if MovesNoJob(step) {
      OtherStepsCallOff(db, step);
      hide Next;
    } else {
      JobStepsCountNone(db, step, p);
    }
  }

  lemma LandedStaysFresh(db: Db, step: Publishing.Step)
    requires Landed(db) && Fresh(db) && !step.SDrift?
    ensures Fresh(Next(db, step)) && !StalePick(db, step)
  {
    LandedStep(db, step);
    MoreSentStayFresh(db, step);
    hide VariantCopyOf, SentFresh;
    if step.SScheduleByHand? || step.SCommitSchedule? { NothingElseHappens(db, step); }
    hide Next, Landed;
    forall p | Counts(Next(db, step), p) ensures Counts(db, p) {
      if Next(db, step) != db { NoneCountsAnew(db, step, p); }
    }
    PlansUntouched(db, Next(db, step));
    FewerJobsStayFresh(db, Next(db, step));
  }

  /** Every step keeps captions fresh, except a teammate scheduling a platform whose variant does not
      carry the caption the post's copy has for it now, and a copy that drifts from under such a variant:
      these exactly break it. */
  lemma StepStaysFresh(db: Db, step: Publishing.Step)
    requires Quiet(db) && Fresh(db)
    ensures Fresh(Next(db, step)) <==> !StalePick(db, step) && !StaleDrift(db, step)
  {
    hide Fresh, Agreed, Landed, Next, StalePick, StaleDrift;
    if Agreed(db) {
      UnlandedStaysFresh(db, step);
    } else if step.SDrift? {
      DriftedStaysFresh(db, step.copy, step.assetIds);
    } else {
      LandedStaysFresh(db, step);
      NoDrift(db, step);
    }
  }

  lemma DriftedStaysFresh(db: Db, copy: Option<Copy>, assetIds: set<string>)
    requires Fresh(db)
    ensures Fresh(Next(db, SDrift(copy, assetIds))) <==> !StaleDrift(db, SDrift(copy, assetIds))
    ensures !StalePick(db, SDrift(copy, assetIds))
  {
    DriftStaysFresh(db, copy, assetIds);
  }

  lemma NoDrift(db: Db, step: Publishing.Step)
    requires !step.SDrift?
    ensures !StaleDrift(db, step)
  {}

  /** No step of the run is a stale pick, or drifts the copy from under a variant that counts. */
  ghost predicate FreshPicks(db: Db, steps: seq<Publishing.Step>)
    decreases |steps|
  {
    steps == []
    || (!StalePick(db, steps[0]) && !StaleDrift(db, steps[0]) && FreshPicks(Next(db, steps[0]), steps[1..]))
  }

  lemma {:induction false} ExecStaysFresh(db: Db, steps: seq<Publishing.Step>)
    requires Quiet(db) && Fresh(db) && FreshPicks(db, steps)
    ensures Fresh(Exec(db, steps))
    decreases |steps|
  {
    hide Fresh, Quiet, Next, StalePick, StaleDrift;
    if steps != [] {
      StepKeepsQuiet(db, steps[0]);
      StepStaysFresh(db, steps[0]);
      ExecStaysFresh(Next(db, steps[0]), steps[1..]);
    }
  }

  /** On such a run everything that goes out carries the approved copy's own caption for its platform (the first
      entry for it, the main caption when there is none) and its hashtags. */
  lemma OwnCaptionGoesOut(db: Db, steps: seq<Publishing.Step>)
    requires Initial(db) && FreshPicks(db, steps)
    ensures SentFresh(Exec(db, steps).sent)
    ensures var sent := Exec(db, steps).sent;
      forall k :: 0 <= k < |sent| ==>
        var content, p := sent[k].content, sent[k].platform;
        && content.copy.Some? && p in content.variants
        && var copy, text := content.copy.value, content.variants[p];
           var entries := copy.platformCaptions;
           && text.hashtags == copy.hashtags
           && (forall i :: 0 <= i < |entries| && entries[i].platform == p && (forall j :: 0 <= j < i ==> entries[j].platform != p)
                 ==> text.caption == entries[i].caption)
           && ((forall i :: 0 <= i < |entries| ==> entries[i].platform != p) ==> text.caption == copy.caption)
  {
    InitialIsAgreed(db);
    ExecStaysFresh(db, steps);
    var sent := Exec(db, steps).sent;
    hide Exec, FreshPicks, VariantCopyOf;
    forall k | 0 <= k < |sent| ensures sent[k].content.copy.Some? && sent[k].platform in sent[k].content.variants
      && OwnText(sent[k].content.copy.value, sent[k].platform, sent[k].content.variants[sent[k].platform])
    {
      VariantIsOwnText(sent[k].content.copy.value, sent[k].platform);
    }
  }

  // ---------------------------------------------------------------- the run that breaks it

  const TEAM_CHAIN: Chain := [ApprovalStep("brand", [Admin], [], 1)]
  const ADMIN := Actor("ada", Admin)
  const WORDING_A := Copy("a", [], [], "")
  const WORDING_B := Copy("b", [], [], "")
  const VARIANTS_A := map["ig" := Text("a", [])]
  const CONTENT_A := Content(Some(WORDING_A), map[], {})
  const MIXED_CONTENT := Content(Some(WORDING_B), VARIANTS_A, {})

  function WalkedTo(status: RoundStatus): ChainState {
    ChainState(TEAM_CHAIN, status, 0, [Vote(0, ADMIN, Approve)])
  }

  const UNTOUCHED := Db(Idea, None, {}, map[], [], map[], {}, {}, [], false, false, true, true, ["ig"], {"ig"})
  const FIRST_APPROVED := UNTOUCHED.(
    status := PostStatus.Approved, copy := Some(WORDING_A), atWork := false,
    rounds := [Round(WalkedTo(RoundStatus.Approved), CONTENT_A, CONTENT_A)])
  const EDITED := UNTOUCHED.(
    status := PendingApproval, copy := Some(WORDING_B), atWork := false, variants := VARIANTS_A, plans := {Plan(1, {"ig"})},
    rounds := [Round(WalkedTo(RoundStatus.Cancelled), CONTENT_A.(variants := VARIANTS_A), CONTENT_A),
               Round(ApprovalChain.Fresh(TEAM_CHAIN), MIXED_CONTENT, MIXED_CONTENT)])
  const SECOND_APPROVED := EDITED.(
    status := PostStatus.Approved,
    rounds := EDITED.rounds[1 := Round(WalkedTo(RoundStatus.Approved), MIXED_CONTENT, MIXED_CONTENT)])
  const ON_A_DAY := SECOND_APPROVED.(
    status := PostStatus.Scheduled, jobs := map["ig" := Job(JobStatus.Scheduled, 0, None)])
  const QUEUED := ON_A_DAY.(
    jobs := map["ig" := Job(Queued, 0, None)], runs := {Run("ig", 1)})

  /** Wording A is written and approved. */
  lemma WordingAIsApproved()
    ensures var drafted := Next(UNTOUCHED, SAgentWork(Qa, Some(WORDING_A), {}));
            Next(Next(drafted, SSendForApproval(TEAM_CHAIN)), SDecide(0, ADMIN, Approve)) == FIRST_APPROVED
  {
    var drafted := Next(UNTOUCHED, SAgentWork(Qa, Some(WORDING_A), {}));
    var asked := Next(drafted, SSendForApproval(TEAM_CHAIN));
    assert asked.rounds == [Round(ApprovalChain.Fresh(TEAM_CHAIN), CONTENT_A, CONTENT_A)];
    AdminApproves();
    assert Next(asked, SDecide(0, ADMIN, Approve)).rounds == FIRST_APPROVED.rounds;
  }

  lemma AdminApproves()
    ensures ChainRejection(ApprovalChain.Fresh(TEAM_CHAIN), ADMIN).None?
    ensures Record(ApprovalChain.Fresh(TEAM_CHAIN), ADMIN, Approve) == WalkedTo(RoundStatus.Approved)
  {
    assert Approvers([], 0) == {};
    assert Admin in TEAM_CHAIN[0].approverRoles;
  }

  /** Its variants are prepared, then the copy is edited to wording B. */
  lemma EditLeavesTheOldVariant()
    ensures Next(Next(FIRST_APPROVED, SPrepareVariants(1)), SEditCopy(WORDING_B, false, TEAM_CHAIN)) == EDITED
  {
    hide StatusOfJobs;
    var prepared := Next(FIRST_APPROVED, SPrepareVariants(1));
    var items := set p | p in FIRST_APPROVED.platforms && p in FIRST_APPROVED.takesType && !Counts(FIRST_APPROVED, p);
    assert prepared.plans == {Plan(1, items)};
    assert items == {"ig"};
    assert prepared.variants == VARIANTS_A;
    assert prepared.rounds == [Round(WalkedTo(RoundStatus.Approved), CONTENT_A.(variants := VARIANTS_A), CONTENT_A)];
    assert Reopenable(prepared.rounds[0]) && prepared.rounds[0] in prepared.rounds;
    assert CancelWaiting(prepared.jobs) == map[];
  }

  /** Wording B is approved too. */
  lemma WordingBIsApproved()
    ensures Next(EDITED, SDecide(1, ADMIN, Approve)) == SECOND_APPROVED
  {
    hide Record;
    AdminApproves();
  }

  /** A teammate puts the platform on a day before its variant is prepared again, and it is queued. */
  lemma OldVariantIsQueued()
    ensures Next(SECOND_APPROVED, SScheduleByHand("ig")) == ON_A_DAY
    ensures Next(ON_A_DAY, SQueueDue({"ig"})) == QUEUED
  {
    OldVariantIsPutOnADay();
    OldVariantIsDue();
  }

  lemma OldVariantIsPutOnADay()
    ensures Next(SECOND_APPROVED, SScheduleByHand("ig")) == ON_A_DAY
  {
    hide CountedStatuses, StatusOf;
    var jobs: Jobs := map["ig" := Job(JobStatus.Scheduled, 0, None)];
    OneScheduled();
    assert SECOND_APPROVED.jobs["ig" := ScheduledRow(SECOND_APPROVED.jobs, "ig")] == jobs;
  }

  lemma OldVariantIsDue()
    ensures Next(ON_A_DAY, SQueueDue({"ig"})) == QUEUED
  {
    var jobs: Jobs := map["ig" := Job(JobStatus.Scheduled, 0, None)];
    var moved := set p | p in jobs && p in {"ig"} && jobs[p].status == JobStatus.Scheduled;
    assert moved == {"ig"};
    assert Next(ON_A_DAY, SQueueDue({"ig"})).jobs == QUEUED.jobs;
    assert Next(ON_A_DAY, SQueueDue({"ig"})).runs == QUEUED.runs;
  }

  lemma OneScheduled()
    ensures StatusOfJobs(map["ig" := Job(JobStatus.Scheduled, 0, None)]) == PostStatus.Scheduled
  {
    var jobs: Jobs := map["ig" := Job(JobStatus.Scheduled, 0, None)];
    assert CountedPublishStatus(jobs["ig"]) in CountedStatuses(jobs);
    assert CountedStatuses(jobs) == {JobStatus.Scheduled};
    var active := CountedStatuses(jobs) - {JobStatus.Cancelled};
    assert JobStatus.Scheduled in active && Published !in active;
  }

  lemma OldVariantGoesOut()
    ensures var sent := Next(QUEUED, SClaim(Run("ig", 1), Checks(false, false, true), TEAM_CHAIN)).sent;
            |sent| == 1 && !SentFresh(sent)
  {
    hide StatusOfJobs;
    var sent := Next(QUEUED, SClaim(Run("ig", 1), Checks(false, false, true), TEAM_CHAIN)).sent;
    assert sent == [Sent("ig", 1, 1, MIXED_CONTENT, false)];
    assert sent[0].content.variants["ig"].caption != VariantCopyOf(WORDING_B, "ig").caption;
  }

  /** So the condition is needed: here a caption the approved copy no longer has goes out, on a run
      the guard lets through. */
  lemma AStaleCaptionCanGoOut()
    ensures exists db: Db, steps: seq<Publishing.Step> ::
              Initial(db) && NoneDrift(steps) && |Exec(db, steps).sent| == 1 && !SentFresh(Exec(db, steps).sent)
  {
    hide Next, SentFresh;
    WordingAIsApproved();
    EditLeavesTheOldVariant();
    WordingBIsApproved();
    OldVariantIsQueued();
    OldVariantGoesOut();
    var drafted := Next(UNTOUCHED, SAgentWork(Qa, Some(WORDING_A), {}));
    var asked := Next(drafted, SSendForApproval(TEAM_CHAIN));
    var prepared := Next(FIRST_APPROVED, SPrepareVariants(1));
    var end := Next(QUEUED, SClaim(Run("ig", 1), Checks(false, false, true), TEAM_CHAIN));
    var steps := [];
    assert Exec(end, steps) == end;
    steps := StepBefore(QUEUED, SClaim(Run("ig", 1), Checks(false, false, true), TEAM_CHAIN), steps);
    steps := StepBefore(ON_A_DAY, SQueueDue({"ig"}), steps);
    steps := StepBefore(SECOND_APPROVED, SScheduleByHand("ig"), steps);
    steps := StepBefore(EDITED, SDecide(1, ADMIN, Approve), steps);
    steps := StepBefore(prepared, SEditCopy(WORDING_B, false, TEAM_CHAIN), steps);
    steps := StepBefore(FIRST_APPROVED, SPrepareVariants(1), steps);
    steps := StepBefore(asked, SDecide(0, ADMIN, Approve), steps);
    steps := StepBefore(drafted, SSendForApproval(TEAM_CHAIN), steps);
    steps := StepBefore(UNTOUCHED, SAgentWork(Qa, Some(WORDING_A), {}), steps);
    assert Exec(UNTOUCHED, steps) == end;
  }

  ghost predicate NoneDrift(steps: seq<Publishing.Step>) {
    forall step :: step in steps ==> !step.SDrift?
  }

  /** A run with one more step in front. */
  lemma StepBefore(db: Db, step: Publishing.Step, steps: seq<Publishing.Step>) returns (longer: seq<Publishing.Step>)
    requires NoneDrift(steps) && !step.SDrift?
    ensures NoneDrift(longer) && Exec(db, longer) == Exec(Next(db, step), steps)
  {
    hide Next;
    longer := [step] + steps;
    assert longer[1..] == steps;
  }
}
