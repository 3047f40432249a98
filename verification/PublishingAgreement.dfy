/** Post status, rounds and jobs agree on every run of the publishing protocol, exactly until a stalled
    run's status update lands on a post that is past production. */
module PublishingAgreement {
  import opened Options
  import opened ApprovalChain
  import opened PostLifecycle
  import opened Publishing

  // ---------------------------------------------------------------- the invariant

  ghost predicate JobsFit(db: Db) {
    forall p :: p in db.jobs ==>
      p in db.variants && (db.jobs[p].status == JobStatus.Scheduled ==> db.jobs[p].containerId.None?)
  }

  /** A publish-driven status is the one its jobs give it; any other post has only CANCELLED jobs. */
  ghost predicate StatusFits(status: PostStatus, jobs: Jobs) {
    if PublishDriven(status) then status == StatusOfJobs(jobs)
    else status != Scored && forall p :: p in jobs ==> jobs[p].status == JobStatus.Cancelled
  }

  /** Only the latest round can be open or stand approved; it stands approved exactly while the post
      follows its jobs, and is open exactly while the post waits for it (an archive cancels it). */
  ghost predicate RoundsFit(db: Db) {
    && (forall i :: 0 <= i < |db.rounds| - 1 ==> !Reopenable(db.rounds[i]))
    && (PublishDriven(db.status) <==> LatestIs(db, RoundStatus.Approved))
    && (LatestIs(db, Pending) ==> db.status == PendingApproval)
    && (db.status == PendingApproval && !db.campaignArchived ==> LatestIs(db, Pending))
  }

  predicate ReachedPlatform(job: Job) {
    CountedPublishStatus(job) in {JobStatus.Publishing, Published, JobStatus.Failed}
  }

  ghost predicate Agreed(db: Db) {
    && JobsFit(db)
    && StatusFits(db.status, db.jobs)
    && RoundsFit(db)
    && (db.atWork ==> InProduction(db.status))
  }

  // ---------------------------------------------------------------- one job changing

  lemma NoneOutUnlessFrozen(status: PostStatus, jobs: Jobs)
    requires StatusFits(status, jobs) && !Frozen(status)
    ensures forall p :: p in jobs ==> !ReachedPlatform(jobs[p])
  {
    forall p | p in jobs ensures !ReachedPlatform(jobs[p]) {
      assert CountedPublishStatus(jobs[p]) in CountedStatuses(jobs);
    }
  }

  /** A job has its variant, and one that is not called off means the post follows its jobs. */
  lemma PresentJob(db: Db, p: Platform)
    requires Agreed(db) && p in db.jobs
    ensures p in db.variants
    ensures db.jobs[p].status != JobStatus.Cancelled ==> PublishDriven(db.status)
    ensures db.jobs[p].status == JobStatus.Scheduled ==> db.jobs[p].containerId.None?
    ensures PublishDriven(db.status) ==> StatusFits(db.status, db.jobs)
  {
  }

  lemma StatusOfIsDriven(jobs: Jobs)
    ensures PublishDriven(StatusOfJobs(jobs))
  {
  }

  /** Whatever changed the jobs, the sync follows them when the table has the edge. */
  lemma SyncFollows(db: Db, jobs: Jobs)
    requires StatusFits(db.status, db.jobs) && PublishDriven(db.status)
    requires StatusOfJobs(jobs) == StatusOfJobs(db.jobs)
          || CanTransition(StatusOfJobs(db.jobs), StatusOfJobs(jobs))
    ensures Sync(db.(jobs := jobs)).status == StatusOfJobs(jobs)
    ensures PublishDriven(StatusOfJobs(jobs))
  {
    hide StatusOf, CountedStatuses;
    StatusOfIsDriven(jobs);
  }

  /** A job's change that keeps its variant, and no container on a slot. */
  ghost predicate AllFit(db: Db, jobs: Jobs) {
    db.jobs.Keys <= jobs.Keys
    && forall p :: p in jobs ==> p in db.variants && (jobs[p].status == JobStatus.Scheduled ==> jobs[p].containerId.None?)
  }

  /** Jobs change and the post follows them. */
  lemma ChangeAndSync(db: Db, jobs: Jobs)
    requires Agreed(db) && PublishDriven(db.status) && AllFit(db, jobs)
    requires StatusOfJobs(jobs) == StatusOfJobs(db.jobs)
          || CanTransition(StatusOfJobs(db.jobs), StatusOfJobs(jobs))
    ensures Agreed(Sync(db.(jobs := jobs)))
  {
    hide StatusOfJobs;
    SyncFollows(db, jobs);
  }

  lemma SetAndSync(db: Db, p: Platform, job: Job)
    requires Agreed(db) && PublishDriven(db.status) && p in db.variants
    requires job.status == JobStatus.Scheduled ==> job.containerId.None?
    requires if p in db.jobs then JobStep(CountedPublishStatus(db.jobs[p]), CountedPublishStatus(job))
             else job.status == JobStatus.Scheduled
    ensures Agreed(Sync(SetJob(db, p, job)))
  {
    hide StatusOfJobs;
    JobStepHasEdge(db.jobs, p, job);
    ChangeAndSync(db, db.jobs[p := job]);
  }

  /** Messages and claims are no part of it. */
  lemma HistoryAside(db: Db, runs: set<Run>, sent: seq<Sent>)
    ensures Agreed(db.(runs := runs, sent := sent)) <==> Agreed(db)
  {
    hide StatusOfJobs;
  }

  // ---------------------------------------------------------------- the steps

  lemma FailJobKeeps(db: Db, p: Platform, attempt: nat)
    requires Agreed(db)
    ensures Agreed(FailJob(db, p, attempt))
  {
    hide StatusOfJobs;
    if p in db.jobs && OnAttempt(db.jobs[p], attempt) {
      SetAndSync(db, p, db.jobs[p].(status := JobStatus.Failed, attempts := attempt));
    }
  }

  lemma SettleKeeps(db: Db, p: Platform, attempt: nat, outcome: Publishing.Outcome)
    requires Agreed(db)
    ensures Agreed(Settle(db, p, attempt, outcome))
  {
    hide StatusOfJobs, JobsFit, RoundsFit, StatusFits;
    if p in db.jobs && db.jobs[p].status == JobStatus.Publishing && db.jobs[p].attempts == attempt {
      var job := db.jobs[p];
      PresentJob(db, p);
      match outcome
      case Container(c) =>
        SetAndSync(db, p, job.(containerId := Some(c)));
        SameStatusNeedsNoSync(db, p, job.(containerId := Some(c)));
      case Out => SetAndSync(db, p, job.(status := Published));
      case TryAgain =>
        SetAndSync(db, p, job.(status := Queued));
        HistoryAside(Sync(SetJob(db, p, job.(status := Queued))), Settle(db, p, attempt, outcome).runs, db.sent);
    }
  }

  /** A change that leaves the counted status alone leaves the post's alone. */
  lemma SameStatusNeedsNoSync(db: Db, p: Platform, job: Job)
    requires StatusFits(db.status, db.jobs) && PublishDriven(db.status)
    requires p in db.jobs && CountedPublishStatus(db.jobs[p]) == CountedPublishStatus(job)
    ensures CountedStatuses(db.jobs[p := job]) == CountedStatuses(db.jobs)
    ensures Sync(SetJob(db, p, job)) == SetJob(db, p, job)
  {
    var after := db.jobs[p := job];
    assert CountedPublishStatus(after[p]) == CountedPublishStatus(db.jobs[p]);
    forall s | s in CountedStatuses(db.jobs) ensures s in CountedStatuses(after) {
      var q :| q in db.jobs && CountedPublishStatus(db.jobs[q]) == s;
      assert CountedPublishStatus(after[q]) == s;
    }
    forall s | s in CountedStatuses(after) ensures s in CountedStatuses(db.jobs) {
      var q :| q in after && CountedPublishStatus(after[q]) == s;
      assert CountedPublishStatus(db.jobs[q]) == s;
    }
  }

  lemma RetryKeeps(db: Db, p: Platform, resumed: string)
    requires Agreed(db)
    ensures Agreed(Retry(db, p, resumed))
  {
    hide StatusOfJobs;
    if p in db.jobs && db.jobs[p].status == JobStatus.Failed && PublishDriven(db.status) && !Archived(db) {
      var job := db.jobs[p].(status := Queued,
                             containerId := if db.jobs[p].containerId.Some? then Some(resumed) else None);
      SetAndSync(db, p, job);
      HistoryAside(Sync(SetJob(db, p, job)), Retry(db, p, resumed).runs, db.sent);
    }
  }

  lemma CancelKeeps(db: Db, p: Platform)
    requires Agreed(db)
    ensures Agreed(Cancel(db, p))
  {
    hide StatusOfJobs;
    if p in db.jobs && (db.jobs[p].status == JobStatus.Failed || NotYetOut(db.jobs[p])) {
      SetAndSync(db, p, db.jobs[p].(status := JobStatus.Cancelled));
    }
  }

  lemma ScheduleByHandKeeps(db: Db, p: Platform)
    requires Agreed(db)
    ensures Agreed(ScheduleByHand(db, p))
  {
    hide StatusOfJobs;
    if ScheduleByHand(db, p) != db {
      SetAndSync(db, p, ScheduledRow(db.jobs, p));
    }
  }

  lemma QueueDueKeeps(db: Db, due: set<Platform>)
    requires Agreed(db)
    ensures Agreed(QueueDue(db, due))
  {
    hide StatusOf;
    var after := QueueDue(db, due);
    if exists p :: p in db.jobs && db.jobs[p].status == JobStatus.Scheduled {
      var p :| p in db.jobs && db.jobs[p].status == JobStatus.Scheduled;
      PresentJob(db, p);
    }
    QueuedStillWait(db.jobs, after.jobs);
  }

  predicate Waits(job: Job) {
    CountedPublishStatus(job) in {JobStatus.Scheduled, Queued}
  }

  lemma WaitingSwapped(before: Jobs, after: Jobs)
    requires before.Keys == after.Keys
    requires forall p :: p in before ==> before[p] == after[p] || (Waits(before[p]) && Waits(after[p]))
    ensures forall s :: s in CountedStatuses(before) && s != JobStatus.Scheduled && s != Queued
                        ==> s in CountedStatuses(after)
    ensures JobStatus.Scheduled in CountedStatuses(before) || Queued in CountedStatuses(before)
            ==> JobStatus.Scheduled in CountedStatuses(after) || Queued in CountedStatuses(after)
  {
    forall s | s in CountedStatuses(before)
      ensures s in CountedStatuses(after)
              || (s in {JobStatus.Scheduled, Queued}
                  && (JobStatus.Scheduled in CountedStatuses(after) || Queued in CountedStatuses(after)))
    {
      var p :| p in before && CountedPublishStatus(before[p]) == s;
      assert CountedPublishStatus(after[p]) in CountedStatuses(after);
    }
  }

  /** A job handed to publish.run counts as waiting, as it did before. */
  lemma QueuedStillWait(before: Jobs, after: Jobs)
    requires before.Keys == after.Keys
    requires forall p :: p in before ==> before[p] == after[p] || (Waits(before[p]) && Waits(after[p]))
    ensures StatusOfJobs(before) == StatusOfJobs(after)
  {
    hide StatusOf, CountedStatuses;
    WaitingSwapped(before, after);
    WaitingSwapped(after, before);
    SameButWaiting(CountedStatuses(before), CountedStatuses(after));
  }

  lemma SameButWaiting(b: set<JobStatus>, a: set<JobStatus>)
    requires forall s :: s != JobStatus.Scheduled && s != Queued ==> (s in a <==> s in b)
    requires JobStatus.Scheduled in b || Queued in b <==> JobStatus.Scheduled in a || Queued in a
    ensures StatusOf(b) == StatusOf(a)
  {
    var x, y := b - {JobStatus.Cancelled}, a - {JobStatus.Cancelled};
    if x == {} || x == {Published} || y == {} || y == {Published} {
      assert JobStatus.Scheduled in x <==> JobStatus.Scheduled in b;
      assert Queued in x <==> Queued in b;
      assert JobStatus.Scheduled in y <==> JobStatus.Scheduled in a;
      assert Queued in y <==> Queued in a;
      assert x == y;
    }
  }

  lemma CommitScheduleKeeps(db: Db, plan: Plan, picked: set<Platform>)
    requires Agreed(db)
    ensures Agreed(CommitSchedule(db, plan, picked))
  {
    hide StatusOf;
    if ScheduleDue(db, plan.round) {
      var jobs := ScheduledJobs(db, plan, picked);
      NoneLeftWhenApproved(db);
      forall p | p in jobs ensures jobs[p].status in {JobStatus.Cancelled, JobStatus.Scheduled}
                                && CountedPublishStatus(jobs[p]) == jobs[p].status {}
      OnlyWaitingOrCancelled(jobs);
      ChangeAndSync(db, jobs);
    }
  }

  lemma NoneLeftWhenApproved(db: Db)
    requires StatusFits(db.status, db.jobs) && db.status == PostStatus.Approved
    ensures forall p :: p in db.jobs ==> db.jobs[p].status == JobStatus.Cancelled
  {
    var counted := CountedStatuses(db.jobs);
    assert counted == counted - {JobStatus.Cancelled} + (counted * {JobStatus.Cancelled});
    forall p | p in db.jobs ensures db.jobs[p].status == JobStatus.Cancelled {
      assert CountedPublishStatus(db.jobs[p]) in counted;
    }
  }

  lemma OnlyWaitingOrCancelled(jobs: Jobs)
    requires forall p :: p in jobs ==> CountedPublishStatus(jobs[p]) in {JobStatus.Cancelled, JobStatus.Scheduled}
    ensures StatusOfJobs(jobs) in {PostStatus.Approved, PostStatus.Scheduled}
  {
    var active := CountedStatuses(jobs) - {JobStatus.Cancelled};
    assert Published !in CountedStatuses(jobs) && JobStatus.Failed !in CountedStatuses(jobs);
    assert active != {Published} by {
      assert Published !in active;
    }
  }

  // ---------------------------------------------------------------- approval opened again

  /** Approval, production and promotion all end with the post outside its jobs' reach, every job
      called off; then only rounds remain to be looked at. */
  lemma OutOfPublishing(before: Db, after: Db)
    requires Agreed(before)
    requires after.variants == before.variants && after.jobs.Keys == before.jobs.Keys
    requires forall p :: p in after.jobs ==> after.jobs[p].status == JobStatus.Cancelled
    requires !PublishDriven(after.status) && after.status != Scored && RoundsFit(after) && (after.atWork ==> InProduction(after.status))
    ensures Agreed(after)
  {
  }

  lemma WaitingCalledOff(db: Db)
    requires Agreed(db) && (WaitsOrApproved(db.status) || !PublishDriven(db.status))
    ensures forall p :: p in db.jobs ==> CancelWaiting(db.jobs)[p].status == JobStatus.Cancelled
  {
    if PublishDriven(db.status) {
      CancelWaitingCallsAllOff(db.jobs);
    }
  }

  lemma ReopenFits(db: Db, chain: Chain)
    ensures RoundsFit(Reopen(db, chain)) && RoundsFit(ReopenForRevision(db))
  {
  }

  lemma ReopenKeeps(db: Db, copy: Option<Copy>, assetIds: set<string>, chain: Chain)
    requires Agreed(db) && WaitsOrApproved(db.status)
    ensures Agreed(Reopen(db.(copy := copy, assetIds := assetIds), chain))
    ensures Agreed(ReopenForRevision(db.(copy := copy, assetIds := assetIds)))
  {
    hide RoundsFit, StatusOfJobs;
    var changed := db.(copy := copy, assetIds := assetIds);
    WaitingCalledOff(db);
    ReopenFits(changed, chain);
    OutOfPublishing(db, Reopen(changed, chain));
    OutOfPublishing(db, ReopenForRevision(changed));
  }

  lemma AgentWorkKeeps(db: Db, status: PostStatus, copy: Option<Copy>, assetIds: set<string>)
    requires Agreed(db)
    ensures Agreed(AgentWork(db, status, copy, assetIds))
  {
    if db.atWork && InProduction(status) {
      OutOfPublishing(db, AgentWork(db, status, copy, assetIds));
    }
  }

  lemma EnterKeeps(db: Db, status: PostStatus)
    requires Agreed(db) && !Lands(db, SEnter(status))
    ensures Agreed(EnterStatus(db, status))
  {
    hide StatusOfJobs;
  }

  lemma SendForApprovalKeeps(db: Db, chain: Chain)
    requires Agreed(db)
    ensures Agreed(SendForApproval(db, chain))
  {
    if db.atWork && db.status == Qa {
      var after := SendForApproval(db, chain);
      assert !LatestIs(db, Pending) && !LatestIs(db, RoundStatus.Approved);
      assert forall i :: 0 <= i < |db.rounds| ==> after.rounds[i] == db.rounds[i];
      OutOfPublishing(db, after);
    }
  }

  lemma DecideKeeps(db: Db, r: nat, actor: Actor, decision: Decision)
    requires Agreed(db)
    ensures Agreed(Decide(db, r, actor, decision))
  {
    hide StatusOfJobs, Record;
    if r < |db.rounds| && ChainRejection(db.rounds[r].walk, actor).None? {
      assert Reopenable(db.rounds[r]);
      assert r == |db.rounds| - 1 && db.status == PendingApproval;
      NothingScheduledMeansApproved(db.jobs);
      DecisionNeverCancels(db.rounds[r].walk, actor, decision);
    }
  }

  lemma DecisionNeverCancels(walk: ChainState, actor: Actor, decision: Decision)
    requires ChainRejection(walk, actor).None?
    ensures Record(walk, actor, decision).status in {Pending, RoundStatus.Approved, RoundStatus.ChangesRequested}
  {
  }

  lemma NothingScheduledMeansApproved(jobs: Jobs)
    ensures (forall p :: p in jobs ==> jobs[p].status == JobStatus.Cancelled) ==> StatusOfJobs(jobs) == PostStatus.Approved
  {
    if forall p :: p in jobs ==> jobs[p].status == JobStatus.Cancelled {
      assert CountedStatuses(jobs) - {JobStatus.Cancelled} == {};
    }
  }

  lemma EditCopyKeeps(db: Db, copy: Copy, gaps: bool, chain: Chain)
    requires Agreed(db)
    ensures Agreed(EditCopy(db, copy, gaps, chain))
  {
    hide JobsFit, StatusFits;
    if !db.campaignArchived && WaitsOrApproved(db.status) {
      ReopenKeeps(db, Some(copy), db.assetIds, chain);
      assert Reopenable(db.rounds[|db.rounds| - 1]);
      assert db.rounds[|db.rounds| - 1] in db.rounds;
    }
  }

  lemma PromoteTakeKeeps(db: Db, assetIds: set<string>, chain: Chain)
    requires Agreed(db)
    ensures Agreed(PromoteTake(db, assetIds, chain))
  {
    hide StatusOfJobs;
    if !db.planned && !Frozen(db.status) && HasReopenable(db) && CanTransition(db.status, PendingApproval) {
      var r :| r in db.rounds && Reopenable(r);
      var i :| 0 <= i < |db.rounds| && db.rounds[i] == r;
      assert i == |db.rounds| - 1;
      ReopenKeeps(db, db.copy, assetIds, chain);
    }
  }

  lemma PrepareVariantsKeeps(db: Db, round: nat)
    requires Agreed(db)
    ensures Agreed(PrepareVariants(db, round))
  {
    hide StatusOfJobs;
    if ScheduleDue(db, round) {
      NoneOutUnlessFrozen(db.status, db.jobs);
    }
  }

  // ---------------------------------------------------------------- archives, refusals, claims

  lemma CallOffKeeps(db: Db)
    requires Agreed(db)
    ensures Agreed(CallOff(db))
  {
    hide StatusOf;
    if p :| p in db.jobs && NotYetOut(db.jobs[p]) {
      PresentJob(db, p);
      CancelWaitingHasEdge(db.jobs);
      ChangeAndSync(db, CancelWaiting(db.jobs));
    }
  }

  lemma ArchiveCampaignKeeps(db: Db)
    requires Agreed(db)
    ensures Agreed(ArchiveCampaign(db))
  {
    hide StatusFits;
    var archived := db.(campaignArchived := true, rounds := CancelPendingRounds(db.rounds));
    assert RoundsFit(archived);
    CallOffKeeps(archived);
  }

  lemma CalledOffAndSynced(db: Db, p: Platform)
    requires Agreed(db) && p in db.jobs && CountedPublishStatus(db.jobs[p]) in {Queued, JobStatus.Publishing}
    ensures Agreed(Sync(db.(jobs := CallOffWith(db.jobs, p))))
  {
    hide StatusOf;
    PresentJob(db, p);
    CallOffWithHasEdge(db.jobs, p);
    ChangeAndSync(db, CallOffWith(db.jobs, p));
  }

  lemma RefuseKeeps(db: Db, p: Platform, attempt: nat, guard: Guard, chain: Chain)
    requires Agreed(db) && p in db.jobs && OnAttempt(db.jobs[p], attempt)
    ensures Agreed(Refuse(db, p, attempt, guard, chain))
  {
    hide StatusOf, JobsFit, RoundsFit;
    FailJobKeeps(db, p, attempt);
    CalledOffAndSynced(db, p);
    if db.jobs[p].containerId.None? && db.status in {PostStatus.Approved, PostStatus.Scheduled} {
      // Nothing of the post is out, so its own job is one of the waiting ones.
      NoneOutUnlessFrozen(db.status, db.jobs);
      assert CallOffWith(db.jobs, p) == CancelWaiting(db.jobs);
      ReopenKeeps(db, db.copy, db.assetIds, chain);
      CancelWaitingTwice(db.jobs);
      assert db.(copy := db.copy, assetIds := db.assetIds) == db;
    }
  }

  lemma CancelWaitingTwice(jobs: Jobs)
    ensures CancelWaiting(CancelWaiting(jobs)) == CancelWaiting(jobs)
  {
  }

  lemma ClaimedKeeps(db: Db, run: Run)
    requires Agreed(db) && run.platform in db.jobs && OnAttempt(db.jobs[run.platform], run.attempt)
    requires |db.rounds| > 0
    ensures var p := run.platform;
            var resumed := db.jobs[p].status == JobStatus.Publishing;
            var claimed := SetJob(db, p, db.jobs[p].(status := JobStatus.Publishing, attempts := run.attempt))
                           .(sent := db.sent + [Sent(p, run.attempt, |db.rounds| - 1, CurrentContent(db), resumed)]);
            Agreed(if resumed then claimed else Sync(claimed))
  {
    hide StatusOfJobs, RoundsFit, JobsFit;
    var p := run.platform;
    var job := db.jobs[p].(status := JobStatus.Publishing, attempts := run.attempt);
    PresentJob(db, p);
    SetAndSync(db, p, job);
    var synced := Sync(SetJob(db, p, job));
    if db.jobs[p].status == JobStatus.Publishing {
      SameStatusNeedsNoSync(db, p, job);
    }
    HistoryAside(synced, db.runs, db.sent + [Sent(p, run.attempt, |db.rounds| - 1, CurrentContent(db), db.jobs[p].status == JobStatus.Publishing)]);
  }

  lemma ClaimKeeps(db: Db, run: Run, checks: Checks, chain: Chain)
    requires Agreed(db)
    ensures Agreed(Claim(db, run, checks, chain))
  {
    hide Agreed, Refuse, Sync;
    var p := run.platform;
    if run in db.runs && p in db.jobs && OnAttempt(db.jobs[p], run.attempt) {
      var guard := EvaluateGuards(db, checks);
      if guard.Some? {
        RefuseKeeps(db, p, run.attempt, guard.value, chain);
      } else if !checks.payloadOk {
        FailJobKeeps(db, p, run.attempt);
      } else {
        ClaimedKeeps(db, run);
      }
    }
  }

  // ---------------------------------------------------------------- every run

  /** A stalled run moves a post back into production that was past it. */
  predicate Lands(db: Db, step: Publishing.Step) {
    step.SEnter? && !InProduction(db.status) && EnterStatus(db, step.status) != db
  }

  lemma UnlandedKeeps(db: Db, step: Publishing.Step)
    requires Agreed(db) && !Lands(db, step)
    ensures Agreed(Next(db, step))
  {
    hide Agreed, Lands;
    match step
    case SAgentWork(status, copy, assetIds) => AgentWorkKeeps(db, status, copy, assetIds);
    case SEnter(status) => EnterKeeps(db, status);
    case SSendForApproval(chain) => SendForApprovalKeeps(db, chain);
    case SDecide(r, actor, decision) => DecideKeeps(db, r, actor, decision);
    case SEditCopy(edit, gaps, chain) => EditCopyKeeps(db, edit, gaps, chain);
    case SReviseVisuals =>
      if WaitsOrApproved(db.status) {
        ReopenKeeps(db, db.copy, db.assetIds, []);
        assert db.(copy := db.copy, assetIds := db.assetIds) == db;
      }
    case SPromoteTake(assetIds, chain) => PromoteTakeKeeps(db, assetIds, chain);
    case SPrepareVariants(round) => PrepareVariantsKeeps(db, round);
    case SCommitSchedule(plan, picked) => CommitScheduleKeeps(db, plan, picked);
    case SScheduleByHand(p) => ScheduleByHandKeeps(db, p);
    case SQueueDue(due) => QueueDueKeeps(db, due);
    case SRedrive(p) => HistoryAside(db, Redrive(db, p).runs, db.sent);
    case SClaim(run, checks, chain) => ClaimKeeps(db, run, checks, chain);
    case SSettle(p, attempt, outcome) => SettleKeeps(db, p, attempt, outcome);
    case SFailJob(p, attempt) => FailJobKeeps(db, p, attempt);
    case SRetry(p, resumed) => RetryKeeps(db, p, resumed);
    case SCancel(p) => CancelKeeps(db, p);
    case SArchiveCampaign => ArchiveCampaignKeeps(db);
    case SArchiveClient => ArchiveClientKeeps(db);
    case SDrift(copy, assetIds) => DriftKeeps(db, copy, assetIds);
  }

  lemma DriftKeeps(db: Db, copy: Option<Copy>, assetIds: set<string>)
    requires Agreed(db)
    ensures Agreed(db.(copy := copy, assetIds := assetIds))
  {
    hide StatusOfJobs;
  }

  lemma ArchiveClientKeeps(db: Db)
    requires Agreed(db)
    ensures Agreed(ArchiveClient(db))
  {
    hide StatusOfJobs;
    CallOffKeeps(db.(clientArchived := true));
  }

  // ---------------------------------------------------------------- what a post and its jobs agree on

  /** While the status is publish-driven it is the one its jobs give it (so no sync was ever refused an
      edge), which is exactly while the latest round stands approved; a post in approval or with the
      agents has only CANCELLED jobs. */
  predicate Follows(db: Db) {
    && (PublishDriven(db.status) ==> db.status == StatusOfJobs(db.jobs))
    && (!PublishDriven(db.status) ==> forall p :: p in db.jobs ==> db.jobs[p].status == JobStatus.Cancelled)
    && (PublishDriven(db.status) <==> LatestIs(db, RoundStatus.Approved))
  }

  /** Only a FAILED post has such edges, and its round still stands approved. */
  lemma LandingIsFromFailed(db: Db, step: Publishing.Step)
    requires Agreed(db) && Lands(db, step)
    ensures db.status == PostStatus.Failed && !Follows(Next(db, step)) && Landed(Next(db, step))
  {
    hide StatusOfJobs;
  }

  /** One step keeps the agreement exactly when it is no such landing. */
  lemma StepKeepsAgreed(db: Db, step: Publishing.Step)
    requires Agreed(db)
    ensures Agreed(Next(db, step)) <==> !Lands(db, step)
    ensures Follows(Next(db, step)) <==> !Lands(db, step)
  {
    hide Agreed, Lands, Next, Follows;
    if Lands(db, step) {
      LandingIsFromFailed(db, step);
      if Agreed(Next(db, step)) { AgreedFollows(Next(db, step)); }
    } else {
      UnlandedKeeps(db, step);
      AgreedFollows(Next(db, step));
    }
  }

  lemma AgreedFollows(db: Db)
    requires Agreed(db)
    ensures Follows(db)
  {
    hide StatusOfJobs;
  }

  // ---------------------------------------------------------------- a post that was moved back

  /** In a status of production, with no agent at work on it and its round still approved. */
  ghost predicate Landed(db: Db) {
    && db.planned && !db.atWork && EnteredByRun(db.status)
    && (forall i :: 0 <= i < |db.rounds| - 1 ==> !Reopenable(db.rounds[i]))
    && LatestIs(db, RoundStatus.Approved)
  }

  lemma SyncsStayOut()
    ensures forall d: Db {:trigger Sync(d)} :: !PublishDriven(d.status) ==> Sync(d) == d
  {}

  lemma RoundsStayLanded(db: Db, r: nat, actor: Actor, decision: Decision)
    requires Landed(db)
    ensures Decide(db, r, actor, decision) == db
    ensures CancelPendingRounds(db.rounds) == db.rounds
  {
    if r < |db.rounds| && ChainRejection(db.rounds[r].walk, actor).None? {
      assert Reopenable(db.rounds[r]);
    }
  }

  /** Nothing but jobs, messages, claims and archive marks is different. */
  predicate Untouched(db: Db, after: Db) {
    && EnteredByRun(after.status) && after.rounds == db.rounds && after.variants == db.variants && after.plans == db.plans
    && after.atWork == db.atWork && after.planned == db.planned && after.copy == db.copy && after.assetIds == db.assetIds
  }

  lemma RefuseStaysLanded(db: Db, p: Platform, attempt: nat, guard: Guard, chain: Chain)
    requires Landed(db) && p in db.jobs
    ensures Untouched(db, Refuse(db, p, attempt, guard, chain))
  {
    hide Sync, CallOffWith, LatestIs;
    SyncsStayOut();
  }

  lemma ClaimStaysLanded(db: Db, run: Run, checks: Checks, chain: Chain)
    requires Landed(db)
    ensures Untouched(db, Claim(db, run, checks, chain))
  {
    hide Sync, CurrentContent, EvaluateGuards, Refuse;
    SyncsStayOut();
    var p := run.platform;
    if p in db.jobs && EvaluateGuards(db, checks).Some? {
      RefuseStaysLanded(db, p, run.attempt, EvaluateGuards(db, checks).value, chain);
    }
  }

  /** Not sent for approval, edited, revised, scheduled or retried any more. */
  lemma NothingElseHappens(db: Db, step: Publishing.Step)
    requires Landed(db)
    requires step.SSendForApproval? || step.SEditCopy? || step.SReviseVisuals? || step.SPromoteTake? || step.SPrepareVariants?
          || step.SCommitSchedule? || step.SScheduleByHand? || step.SRetry?
    ensures Next(db, step) == db
  {
    hide Sync, ScheduledJobs, PreparedVariants, HasReopenable, Reopen, ReopenForRevision;
  }

  lemma QueueStaysLanded(db: Db, due: set<Platform>, p: Platform)
    requires EnteredByRun(db.status)
    ensures Untouched(db, QueueDue(db, due)) && Untouched(db, Redrive(db, p))
  {}

  lemma SettleStaysLanded(db: Db, p: Platform, attempt: nat, outcome: Publishing.Outcome)
    requires EnteredByRun(db.status)
    ensures Untouched(db, Settle(db, p, attempt, outcome)) && Untouched(db, FailJob(db, p, attempt))
  {
    hide Sync;
    SyncsStayOut();
  }

  lemma CancelStaysLanded(db: Db, p: Platform)
    requires EnteredByRun(db.status)
    ensures Untouched(db, Cancel(db, p)) && Untouched(db, ArchiveClient(db))
  {
    hide Sync, CancelWaiting;
    SyncsStayOut();
  }

  lemma ArchiveStaysLanded(db: Db)
    requires Landed(db)
    ensures Untouched(db, ArchiveCampaign(db))
  {
    hide Sync, CancelWaiting;
    SyncsStayOut();
    RoundsStayLanded(db, 0, Actor("", Admin), Approve);
    hide CancelPendingRounds;
  }

  /** What one step leaves of such a post: everything but jobs and messages, content drift aside. */
  lemma LandedStep(db: Db, step: Publishing.Step)
    requires Landed(db)
    ensures Landed(Next(db, step))
    ensures !step.SDrift? ==> Untouched(db, Next(db, step))
    ensures step.SDrift? ==> Untouched(db, Next(db, step).(copy := db.copy, assetIds := db.assetIds))
  {
    hide Decide, Claim, ArchiveCampaign, QueueDue, Settle, FailJob, Cancel, ArchiveClient, EditCopy, PromoteTake, PrepareVariants, CommitSchedule, ScheduleByHand, Retry;
    if step.SDecide? {
      RoundsStayLanded(db, step.round, step.actor, step.decision);
    } else if step.SClaim? {
      ClaimStaysLanded(db, step.run, step.checks, step.chain);
    } else if step.SArchiveCampaign? {
      ArchiveStaysLanded(db);
    } else if step.SQueueDue? || step.SRedrive? {
      QueueStaysLanded(db, if step.SQueueDue? then step.due else {}, if step.SRedrive? then step.p else "");
    } else if step.SSettle? || step.SFailJob? {
      SettleStaysLanded(db, step.p, step.attempt, if step.SSettle? then step.outcome else Out);
    } else if step.SCancel? || step.SArchiveClient? {
      CancelStaysLanded(db, if step.SCancel? then step.p else "");
    } else if !(step.SAgentWork? || step.SEnter? || step.SDrift?) {
      NothingElseHappens(db, step);
    }
  }

  /** Nothing ever takes it out of production again, and no agent works on it there. */
  lemma {:induction false} LandedForGood(db: Db, steps: seq<Publishing.Step>)
    requires Landed(db)
    ensures Landed(Exec(db, steps))
    decreases |steps|
  {
    hide Next, Landed;
    if steps != [] {
      LandedStep(db, steps[0]);
      LandedForGood(Next(db, steps[0]), steps[1..]);
    }
  }

  // ---------------------------------------------------------------- every run

  predicate NoneLands(db: Db, steps: seq<Publishing.Step>)
    decreases |steps|
  {
    steps == [] || (!Lands(db, steps[0]) && NoneLands(Next(db, steps[0]), steps[1..]))
  }

  predicate AlwaysFollows(db: Db, steps: seq<Publishing.Step>)
    decreases |steps|
  {
    Follows(db) && (steps != [] ==> AlwaysFollows(Next(db, steps[0]), steps[1..]))
  }

  /** Agreed until a landing, and landed for good after it. */
  ghost predicate Quiet(db: Db) {
    Agreed(db) || Landed(db)
  }

  lemma StepKeepsQuiet(db: Db, step: Publishing.Step)
    requires Quiet(db)
    ensures Quiet(Next(db, step))
  {
    hide Agreed, Lands, Next, Follows, Landed;
    if Agreed(db) {
      if Lands(db, step) { LandingIsFromFailed(db, step); } else { UnlandedKeeps(db, step); }
    } else {
      LandedForGood(db, [step]);
      assert Exec(db, [step]) == Next(db, step) by { assert [step][1..] == []; }
    }
  }

  lemma InitialIsAgreed(db: Db)
    requires Initial(db)
    ensures Agreed(db)
  {}

  lemma {:induction false} ExecKeepsQuiet(db: Db, steps: seq<Publishing.Step>)
    requires Quiet(db)
    ensures Quiet(Exec(db, steps))
    decreases |steps|
  {
    hide Quiet, Next;
    if steps != [] {
      StepKeepsQuiet(db, steps[0]);
      ExecKeepsQuiet(Next(db, steps[0]), steps[1..]);
    }
  }

  lemma {:induction false} AgreedFollowsExactly(db: Db, steps: seq<Publishing.Step>)
    requires Agreed(db)
    ensures AlwaysFollows(db, steps) <==> NoneLands(db, steps)
    ensures NoneLands(db, steps) ==> Agreed(Exec(db, steps))
    decreases |steps|
  {
    hide Agreed, Lands, Next, Follows;
    AgreedFollows(db);
    if steps != [] {
      StepKeepsAgreed(db, steps[0]);
      if !Lands(db, steps[0]) {
        AgreedFollowsExactly(Next(db, steps[0]), steps[1..]);
      }
    }
  }

  /** Through the whole of any run, content drift included, a post and its jobs agree exactly when no
      stalled run's status update lands on it past production. */
  lemma PostFollowsItsJobs(db: Db, steps: seq<Publishing.Step>)
    requires Initial(db)
    ensures AlwaysFollows(db, steps) <==> NoneLands(db, steps)
  {
    InitialIsAgreed(db);
    AgreedFollowsExactly(db, steps);
  }

  /** What a post's status says of its job rows: FAILED as soon as one platform failed, LIVE once all that
      count are out, SCHEDULED while all that count wait. */
  ghost predicate StatusTells(status: PostStatus, jobs: Jobs) {
    && (status == PostStatus.Failed <==> exists p :: p in jobs && jobs[p].status == JobStatus.Failed)
    && (status == Live <==>
          && (exists p :: p in jobs && jobs[p].status == Published)
          && (forall p :: p in jobs ==> jobs[p].status == Published || jobs[p].status == JobStatus.Cancelled))
    && (status == PostStatus.Scheduled <==>
          && (exists p :: p in jobs && jobs[p].status != JobStatus.Cancelled)
          && (forall p :: p in jobs ==> jobs[p].status == JobStatus.Scheduled || jobs[p].status == JobStatus.Cancelled
                                        || (jobs[p].status == Queued && jobs[p].containerId.None?)))
    && (status == PostStatus.Publishing <==>
          && (forall p :: p in jobs ==> jobs[p].status != JobStatus.Failed)
          && (exists p :: p in jobs && (jobs[p].status == JobStatus.Publishing || jobs[p].status == Published
                                        || (jobs[p].status == Queued && jobs[p].containerId.Some?)))
          && (exists p :: p in jobs && jobs[p].status != Published && jobs[p].status != JobStatus.Cancelled))
  }

  lemma AgreedTells(db: Db)
    requires Agreed(db)
    ensures StatusTells(db.status, db.jobs)
  {
    StatusTellsTheRows(db.jobs);
    hide StatusOfJobs;
  }

  /** So it says wherever a run without a landing leads. */
  lemma StatusTellsOnEveryRun(db: Db, steps: seq<Publishing.Step>)
    requires Initial(db) && NoneLands(db, steps)
    ensures StatusTells(Exec(db, steps).status, Exec(db, steps).jobs)
  {
    InitialIsAgreed(db);
    AgreedFollowsExactly(db, steps);
    AgreedTells(Exec(db, steps));
  }
}
