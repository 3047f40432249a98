/** What one run of the publishing protocol can never undo (module Publishing). */
module PublishingHistory {
  import opened Options
  import opened ApprovalChain
  import opened PostLifecycle
  import opened Publishing
  import opened PublishingAgreement

  // ---------------------------------------------------------------- one job across one step

  /** How one step may change a job that is already there. */
  ghost predicate JobMoves(before: Job, after: Job, byHand: bool, archived: bool) {
    && before.attempts <= after.attempts
    && (before.status == Published ==> after == before)
    // only a new attempt enters PUBLISHING
    && (after.status == JobStatus.Publishing && after.attempts == before.attempts
        ==> before.status == JobStatus.Publishing)
    // what reached the platform is only forgotten when a called off row is scheduled anew
    && (before.containerId.Some? && after.containerId.None?
        ==> before.status == JobStatus.Cancelled && after.status == JobStatus.Scheduled
            && before.attempts < after.attempts)
    // and only a teammate dropping a failed job, or an archive, calls such a job off
    && (before.containerId.Some? && before.status != JobStatus.Cancelled && after.status == JobStatus.Cancelled
        ==> archived || (byHand && before.status == JobStatus.Failed))
    // a row comes onto a slot, and from off the platform onto it, only with a new attempt
    && (after.status == JobStatus.Scheduled ==> before == after || (before.attempts < after.attempts && after.containerId.None?))
    && (ReachedPlatform(after) && after.attempts == before.attempts && !(before.status == JobStatus.Scheduled && before.containerId.Some?)
        ==> ReachedPlatform(before))
  }

  ghost predicate AllMove(before: Jobs, after: Jobs, byHand: bool, archived: bool) {
    before.Keys <= after.Keys
    && forall p :: p in after ==>
         if p in before then JobMoves(before[p], after[p], byHand, archived) else after[p] == Job(JobStatus.Scheduled, 0, None)
  }

  lemma SyncKeepsRows(db: Db)
    ensures Sync(db).(status := db.status) == db
  {
  }

  lemma CancelWaitingMoves(jobs: Jobs, byHand: bool, archived: bool)
    ensures AllMove(jobs, CancelWaiting(jobs), byHand, archived)
  {
  }

  lemma FailJobMoves(db: Db, p: Platform, attempt: nat)
    ensures AllMove(db.jobs, FailJob(db, p, attempt).jobs, false, Archived(db))
  {
    hide Sync;
    if p in db.jobs && OnAttempt(db.jobs[p], attempt) {
      SyncKeepsRows(SetJob(db, p, db.jobs[p].(status := JobStatus.Failed, attempts := attempt)));
    }
  }

  lemma CallOffWithMoves(db: Db, p: Platform)
    requires p in db.jobs && db.jobs[p].status in {Queued, JobStatus.Publishing}
    requires db.jobs[p].containerId.None? || Archived(db)
    ensures AllMove(db.jobs, CallOffWith(db.jobs, p), false, Archived(db))
  {
  }

  lemma RefuseMoves(db: Db, p: Platform, attempt: nat, guard: Guard, chain: Chain)
    requires p in db.jobs && OnAttempt(db.jobs[p], attempt) && (guard == ArchivedGuard ==> Archived(db))
    ensures AllMove(db.jobs, Refuse(db, p, attempt, guard, chain).jobs, false, Archived(db))
  {
    hide Sync, FailJob, JobMoves;
    FailJobMoves(db, p, attempt);
    SyncKeepsRows(db.(jobs := CallOffWith(db.jobs, p)));
    if db.jobs[p].containerId.None? || Archived(db) {
      CallOffWithMoves(db, p);
      CancelWaitingTwice(db.jobs[p := db.jobs[p].(status := JobStatus.Cancelled)]);
    }
  }

  lemma ClaimMoves(db: Db, run: Run, checks: Checks, chain: Chain)
    ensures AllMove(db.jobs, Claim(db, run, checks, chain).jobs, false, Archived(db))
  {
    hide Sync, FailJob, Refuse;
    var p := run.platform;
    if run in db.runs && p in db.jobs && OnAttempt(db.jobs[p], run.attempt) {
      var guard := EvaluateGuards(db, checks);
      if guard.Some? {
        RefuseMoves(db, p, run.attempt, guard.value, chain);
      } else if !checks.payloadOk {
        FailJobMoves(db, p, run.attempt);
      } else {
        var claimed := SetJob(db, p, db.jobs[p].(status := JobStatus.Publishing, attempts := run.attempt));
        SyncKeepsRows(claimed.(sent := db.sent + [Sent(p, run.attempt, |db.rounds| - 1, CurrentContent(db), false)]));
      }
    }
  }

  lemma SettleMoves(db: Db, p: Platform, attempt: nat, outcome: Publishing.Outcome)
    ensures AllMove(db.jobs, Settle(db, p, attempt, outcome).jobs, false, Archived(db))
  {
    hide Sync;
    if p in db.jobs {
      SyncKeepsRows(SetJob(db, p, db.jobs[p].(status := Published)));
      SyncKeepsRows(SetJob(db, p, db.jobs[p].(status := Queued)));
    }
  }

  lemma RetryMoves(db: Db, p: Platform, resumed: string)
    ensures AllMove(db.jobs, Retry(db, p, resumed).jobs, true, Archived(db))
  {
    hide Sync;
    if p in db.jobs {
      var job := db.jobs[p];
      SyncKeepsRows(SetJob(db, p, job.(status := Queued, containerId := if job.containerId.Some? then Some(resumed) else None)));
    }
  }

  lemma CancelMoves(db: Db, p: Platform)
    ensures AllMove(db.jobs, Cancel(db, p).jobs, true, Archived(db))
  {
    hide Sync;
    if p in db.jobs {
      SyncKeepsRows(SetJob(db, p, db.jobs[p].(status := JobStatus.Cancelled)));
    }
  }

  lemma ByHandMoves(db: Db, p: Platform)
    ensures AllMove(db.jobs, ScheduleByHand(db, p).jobs, true, Archived(db))
  {
    hide Sync;
    SyncKeepsRows(SetJob(db, p, ScheduledRow(db.jobs, p)));
  }

  predicate ByHand(step: Publishing.Step) {
    step.SRetry? || step.SCancel? || step.SScheduleByHand?
  }

  lemma SchedulingMoves(db: Db, plan: Plan, picked: set<Platform>)
    ensures AllMove(db.jobs, CommitSchedule(db, plan, picked).jobs, false, Archived(db))
  {
    hide Sync;
    SyncKeepsRows(db.(jobs := ScheduledJobs(db, plan, picked)));
  }

  lemma QueueingMoves(db: Db, due: set<Platform>)
    ensures AllMove(db.jobs, QueueDue(db, due).jobs, false, Archived(db))
  {}

  lemma SameJobsMove(jobs: Jobs, byHand: bool, archived: bool)
    ensures AllMove(jobs, jobs, byHand, archived)
  {
  }

  /** The steps that at most call waiting jobs off. */
  predicate MovesNoJob(step: Publishing.Step) {
    !(step.SCommitSchedule? || step.SQueueDue? || step.SScheduleByHand? || step.SClaim? || step.SSettle?
      || step.SFailJob? || step.SRetry? || step.SCancel? || step.SArchiveCampaign? || step.SArchiveClient?)
  }

  lemma SyncMovesNoJob(db: Db)
    ensures Sync(db).jobs == db.jobs
  {
    hide StatusOfJobs;
  }

  predicate OfApproval(step: Publishing.Step) {
    step.SDecide? || step.SEditCopy? || step.SReviseVisuals? || step.SPromoteTake?
  }

  ghost predicate CallsOffAtMost(db: Db, after: Db) {
    (after.jobs == db.jobs || after.jobs == CancelWaiting(db.jobs)) && after.runs == db.runs && after.sent == db.sent
  }

  lemma ReopeningCallsOff(db: Db, copy: Option<Copy>, assetIds: set<string>, chain: Chain)
    ensures CallsOffAtMost(db, Reopen(db.(copy := copy, assetIds := assetIds), chain))
    ensures CallsOffAtMost(db, ReopenForRevision(db.(copy := copy, assetIds := assetIds)))
  {
    hide CancelWaiting, CancelRounds;
  }

  lemma DecidingCallsNoneOff(db: Db, r: nat, actor: Actor, decision: Decision)
    ensures CallsOffAtMost(db, Decide(db, r, actor, decision))
  {
    hide Record, ChainRejection, CancelWaiting, CanTransition;
  }

  /** The steps of approval at most call waiting jobs off, and queue nothing. */
  lemma ApprovalCallsOff(db: Db, step: Publishing.Step)
    requires OfApproval(step)
    ensures CallsOffAtMost(db, Next(db, step))
  {
    hide CancelWaiting, HasReopenable, CanTransition, Decide, Reopen, ReopenForRevision;
    match step
    case SDecide(r, actor, decision) => DecidingCallsNoneOff(db, r, actor, decision);
    case SEditCopy(edit, gaps, chain) =>
      ReopeningCallsOff(db, Some(edit), db.assetIds, chain);
      assert db.(copy := Some(edit), assetIds := db.assetIds) == db.(copy := Some(edit));
    case SReviseVisuals =>
      ReopeningCallsOff(db, db.copy, db.assetIds, []);
      assert db.(copy := db.copy, assetIds := db.assetIds) == db;
    case SPromoteTake(assetIds, chain) =>
      ReopeningCallsOff(db, db.copy, assetIds, chain);
      assert db.(copy := db.copy, assetIds := assetIds) == db.(assetIds := assetIds);
  }

  lemma OtherStepsCallOff(db: Db, step: Publishing.Step)
    requires MovesNoJob(step)
    ensures Next(db, step).jobs == db.jobs || Next(db, step).jobs == CancelWaiting(db.jobs)
  {
    if OfApproval(step) {
      ApprovalCallsOff(db, step);
    } else {
      hide PreparedVariants, CurrentContent, CanTransition, ScheduleDue;
    }
  }

  lemma OtherStepsMove(db: Db, step: Publishing.Step)
    requires MovesNoJob(step)
    ensures AllMove(db.jobs, Next(db, step).jobs, ByHand(step), Archived(db))
  {
    hide AllMove, Next, CancelWaiting;
    OtherStepsCallOff(db, step);
    CancelWaitingMoves(db.jobs, false, Archived(db));
    SameJobsMove(db.jobs, false, Archived(db));
  }

  /** Every step, in every state, content drift included. */
  lemma StepMovesJobs(db: Db, step: Publishing.Step)
    ensures AllMove(db.jobs, Next(db, step).jobs, ByHand(step), Archived(db))
  {
    hide Record, ChainRejection, CancelRounds, PreparedVariants, CurrentContent, ArchiveCampaign, ArchiveClient;
    hide AllMove, CallOff, Claim, Settle, FailJob, Retry, Cancel, CommitSchedule, ScheduleByHand, QueueDue;
    match step
    case SCommitSchedule(plan, picked) => SchedulingMoves(db, plan, picked);
    case SQueueDue(due) => QueueingMoves(db, due);
    case SScheduleByHand(p) => ByHandMoves(db, p);
    case SClaim(run, checks, chain) => ClaimMoves(db, run, checks, chain);
    case SSettle(p, attempt, outcome) => SettleMoves(db, p, attempt, outcome);
    case SFailJob(p, attempt) => FailJobMoves(db, p, attempt);
    case SRetry(p, resumed) => RetryMoves(db, p, resumed);
    case SCancel(p) => CancelMoves(db, p);
    case SArchiveCampaign => ArchiveMoves(db);
    case SArchiveClient => ArchiveMoves(db);
    case _ => OtherStepsMove(db, step);
  }

  lemma ArchiveMoves(db: Db)
    ensures AllMove(db.jobs, ArchiveCampaign(db).jobs, false, Archived(db))
    ensures AllMove(db.jobs, ArchiveClient(db).jobs, false, Archived(db))
  {
    hide Sync;
    var campaign := db.(campaignArchived := true, rounds := CancelPendingRounds(db.rounds));
    var client := db.(clientArchived := true);
    SyncKeepsRows(campaign.(jobs := CancelWaiting(db.jobs)));
    SyncKeepsRows(client.(jobs := CancelWaiting(db.jobs)));
  }

  // ---------------------------------------------------------------- attempts and messages

  lemma {:induction false} AttemptsOnlyGrow(db: Db, steps: seq<Publishing.Step>, p: Platform)
    requires p in db.jobs
    ensures p in Exec(db, steps).jobs && db.jobs[p].attempts <= Exec(db, steps).jobs[p].attempts
    decreases |steps|
  {
    hide Next;
    if steps != [] {
      StepMovesJobs(db, steps[0]);
      AttemptsOnlyGrow(Next(db, steps[0]), steps[1..], p);
    }
  }

  /** The job is past attempt `n`: it will never be on it, or on an earlier one, again. */
  predicate Past(job: Job, n: nat) {
    n < job.attempts || (n == job.attempts && job.status != JobStatus.Publishing)
  }

  lemma {:induction false} PastForGood(db: Db, steps: seq<Publishing.Step>, p: Platform, n: nat)
    requires p in db.jobs && Past(db.jobs[p], n)
    ensures p in Exec(db, steps).jobs && Past(Exec(db, steps).jobs[p], n)
    decreases |steps|
  {
    hide Next;
    if steps != [] {
      StepMovesJobs(db, steps[0]);
      PastForGood(Next(db, steps[0]), steps[1..], p, n);
    }
  }

  /** No message names a later attempt than a job's next one, and none made before a job was put on
      its slot names that next attempt. */
  ghost predicate RunsFit(jobs: Jobs, runs: set<Run>) {
    forall r :: r in runs ==>
      && r.platform in jobs
      && 1 <= r.attempt <= jobs[r.platform].attempts + 1
      && (jobs[r.platform].status == JobStatus.Scheduled ==> r.attempt <= jobs[r.platform].attempts)
  }

  /** Attempts only grow, and each enters PUBLISHING from QUEUED at most once. */
  ghost predicate SentFits(jobs: Jobs, sent: seq<Sent>) {
    && (forall k :: 0 <= k < |sent| ==>
          sent[k].platform in jobs && sent[k].attempt <= jobs[sent[k].platform].attempts)
    && (forall i, k :: 0 <= i < k < |sent| && sent[i].platform == sent[k].platform ==>
          sent[i].attempt <= sent[k].attempt && (sent[i].attempt == sent[k].attempt ==> sent[k].resumed))
  }

  /** A row waiting on its slot has no container yet. */
  ghost predicate SlotsFit(jobs: Jobs) {
    forall p :: p in jobs && jobs[p].status == JobStatus.Scheduled ==> jobs[p].containerId.None?
  }

  ghost predicate Numbered(db: Db) {
    SlotsFit(db.jobs) && RunsFit(db.jobs, db.runs) && SentFits(db.jobs, db.sent)
  }

  /** The messages a step makes are for rows that are on no slot any more. */
  ghost predicate NewRunsFit(db: Db, after: Db) {
    forall r :: r in after.runs && r !in db.runs ==>
      && r.platform in after.jobs && 1 <= r.attempt <= after.jobs[r.platform].attempts + 1
      && after.jobs[r.platform].status != JobStatus.Scheduled
  }

  /** What a step adds to the claims: none, or one on its row's attempt, of what the post holds. */
  ghost predicate NewSentFits(db: Db, after: Db) {
    after.sent == db.sent
    || (|after.sent| == |db.sent| + 1 && after.sent[..|db.sent|] == db.sent
        && var s := after.sent[|db.sent|];
           && s.platform in db.jobs && OnAttempt(db.jobs[s.platform], s.attempt)
           && (s.resumed <==> db.jobs[s.platform].status == JobStatus.Publishing)
           && s.platform in after.jobs && after.jobs[s.platform].attempts == s.attempt
           && s.content == CurrentContent(db) == CurrentContent(after))
  }

  lemma RefuseQueuesNothing(db: Db, p: Platform, attempt: nat, guard: Guard, chain: Chain)
    requires p in db.jobs
    ensures Refuse(db, p, attempt, guard, chain).runs == db.runs && Refuse(db, p, attempt, guard, chain).sent == db.sent
  {
    hide Sync, CallOffWith, CancelWaiting;
    SyncsQueueNothing();
  }

  lemma SyncsQueueNothing()
    ensures forall d: Db {:trigger Sync(d)} :: Sync(d).runs == d.runs && Sync(d).sent == d.sent && Sync(d).jobs == d.jobs
  {
    hide StatusOfJobs;
  }

  lemma ClaimAdds(db: Db, run: Run, checks: Checks, chain: Chain)
    ensures NewRunsFit(db, Claim(db, run, checks, chain)) && NewSentFits(db, Claim(db, run, checks, chain))
  {
    hide Sync, Refuse, FailJob;
    var p := run.platform;
    if run in db.runs && p in db.jobs && OnAttempt(db.jobs[p], run.attempt) {
      var guard := EvaluateGuards(db, checks);
      if guard.Some? {
        RefuseQueuesNothing(db, p, run.attempt, guard.value, chain);
      } else if !checks.payloadOk {
        FailQueuesNothing(db, p, run.attempt);
      } else {
        var s := Sent(p, run.attempt, |db.rounds| - 1, CurrentContent(db), db.jobs[p].status == JobStatus.Publishing);
        var claimed := SetJob(db, p, db.jobs[p].(status := JobStatus.Publishing, attempts := run.attempt)).(sent := db.sent + [s]);
        SyncKeepsRows(claimed);
        assert (db.sent + [s])[..|db.sent|] == db.sent;
      }
    }
  }

  lemma FailQueuesNothing(db: Db, p: Platform, attempt: nat)
    ensures FailJob(db, p, attempt).runs == db.runs && FailJob(db, p, attempt).sent == db.sent
  {
    hide StatusOfJobs;
  }

  lemma QueueingAdds(db: Db, due: set<Platform>, p: Platform)
    ensures NewRunsFit(db, QueueDue(db, due)) && NewSentFits(db, QueueDue(db, due))
    ensures NewRunsFit(db, Redrive(db, p)) && NewSentFits(db, Redrive(db, p))
  {}

  lemma TryingAgainAdds(db: Db, p: Platform, attempt: nat, outcome: Publishing.Outcome, resumed: string)
    ensures NewRunsFit(db, Settle(db, p, attempt, outcome)) && NewSentFits(db, Settle(db, p, attempt, outcome))
    ensures NewRunsFit(db, Retry(db, p, resumed)) && NewSentFits(db, Retry(db, p, resumed))
  {
    hide Sync;
    SyncsQueueNothing();
  }

  lemma OthersQueueNothing(db: Db, step: Publishing.Step)
    requires !(step.SClaim? || step.SQueueDue? || step.SRedrive? || step.SSettle? || step.SRetry? || step.SFailJob?)
    ensures Next(db, step).runs == db.runs && Next(db, step).sent == db.sent
  {
    if OfApproval(step) {
      ApprovalCallsOff(db, step);
    } else {
      hide Sync, CancelWaiting, ScheduledJobs, CancelPendingRounds, CurrentContent, PreparedVariants, CanTransition, ScheduleDue;
      SyncsQueueNothing();
    }
  }

  lemma StepAdds(db: Db, step: Publishing.Step)
    ensures NewRunsFit(db, Next(db, step)) && NewSentFits(db, Next(db, step))
  {
    hide NewRunsFit, NewSentFits, Claim, Settle, QueueDue, Redrive, Retry;
    match step
    case SClaim(run, checks, chain) => ClaimAdds(db, run, checks, chain);
    case SQueueDue(due) => QueueingAdds(db, due, "");
    case SRedrive(p) => QueueingAdds(db, {}, p);
    case SSettle(p, attempt, outcome) => TryingAgainAdds(db, p, attempt, outcome, "");
    case SRetry(p, resumed) => TryingAgainAdds(db, p, 0, Out, resumed);
    case SFailJob(p, attempt) =>
      FailQueuesNothing(db, p, attempt);
      NothingAdded(db, Next(db, step));
    case _ =>
      OthersQueueNothing(db, step);
      NothingAdded(db, Next(db, step));
  }

  lemma NothingAdded(db: Db, after: Db)
    requires after.runs == db.runs && after.sent == db.sent
    ensures NewRunsFit(db, after) && NewSentFits(db, after)
  {}

  lemma AddingKeepsNumbered(db: Db, after: Db, byHand: bool)
    requires Numbered(db) && AllMove(db.jobs, after.jobs, byHand, Archived(db)) && NewRunsFit(db, after) && NewSentFits(db, after)
    ensures Numbered(after)
  {
    hide CurrentContent;
    forall r | r in after.runs
      ensures r.platform in after.jobs && 1 <= r.attempt <= after.jobs[r.platform].attempts + 1
      ensures after.jobs[r.platform].status == JobStatus.Scheduled ==> r.attempt <= after.jobs[r.platform].attempts
    {}
    forall k | 0 <= k < |db.sent| ensures after.sent[k] == db.sent[k] {
      assert after.sent[..|db.sent|][k] == after.sent[k];
    }
  }

  /** Every step in every state: a stalled run's landing, content drift and all. */
  lemma StepKeepsNumbered(db: Db, step: Publishing.Step)
    requires Numbered(db)
    ensures Numbered(Next(db, step))
  {
    hide Next, Numbered, AllMove, NewRunsFit, NewSentFits;
    StepMovesJobs(db, step);
    StepAdds(db, step);
    AddingKeepsNumbered(db, Next(db, step), ByHand(step));
  }

  lemma {:induction false} ExecKeepsNumbered(db: Db, steps: seq<Publishing.Step>)
    requires Numbered(db)
    ensures Numbered(Exec(db, steps))
    decreases |steps|
  {
    hide Next, Numbered;
    if steps != [] {
      StepKeepsNumbered(db, steps[0]);
      ExecKeepsNumbered(Next(db, steps[0]), steps[1..]);
    }
  }

  /** Once a job is on a slot, no message queued for it earlier (before a cancel, say) can ever claim
      it or end an attempt of it, and the message it will be queued with is a new one. */
  lemma StaleRunsNeverClaim(db: Db, steps: seq<Publishing.Step>, run: Run)
    requires Numbered(db) && run in db.runs && db.jobs[run.platform].status == JobStatus.Scheduled
    ensures run.platform in Exec(db, steps).jobs
    ensures !OnAttempt(Exec(db, steps).jobs[run.platform], run.attempt)
    ensures NextRun(db.jobs, run.platform) !in db.runs
  {
    PastForGood(db, steps, run.platform, run.attempt);
  }

  /** On every run: each message names an attempt at most one past its job's, no attempt leaves QUEUED
      for PUBLISHING twice, and claims of one platform go out in the order of their attempts. */
  lemma AttemptsAreNumberedOnce(db: Db, steps: seq<Publishing.Step>)
    requires Initial(db)
    ensures var end := Exec(db, steps);
            && (forall r :: r in end.runs ==>
                  r.platform in end.jobs && 1 <= r.attempt <= end.jobs[r.platform].attempts + 1)
            && (forall i, k :: 0 <= i < k < |end.sent| && end.sent[i].platform == end.sent[k].platform ==>
                  && end.sent[i].attempt <= end.sent[k].attempt
                  && (!end.sent[k].resumed ==> end.sent[i].attempt < end.sent[k].attempt))
  {
    ExecKeepsNumbered(db, steps);
  }

  // ---------------------------------------------------------------- once out

  lemma FrozenContentStays(db: Db, step: Publishing.Step)
    requires Frozen(db.status) && !db.atWork && !step.SDrift?
    ensures CurrentContent(Next(db, step)) == CurrentContent(db)
  {
    hide Sync, StatusOfJobs, CancelWaiting, CallOffWith, PreparedVariants, Record, ChainRejection, CancelRounds,
      ScheduledJobs, CancelPendingRounds;
    SyncsKeepContent(db);
  }

  lemma SyncsKeepContent(db: Db)
    ensures forall d: Db {:trigger Sync(d)} :: CurrentContent(Sync(d)) == CurrentContent(d)
  {
  }

  /** With one job on the platform, or past it, only drift can change what the post holds: until a
      landing the post is frozen, and after one nobody touches it. */
  lemma OnlyDriftChanges(db: Db, step: Publishing.Step, p: Platform)
    requires Quiet(db) && p in db.jobs && ReachedPlatform(db.jobs[p]) && !step.SDrift?
    ensures CurrentContent(Next(db, step)) == CurrentContent(db)
  {
    hide Next, StatusOfJobs;
    if Agreed(db) {
      if !Frozen(db.status) { NoneOutUnlessFrozen(db.status, db.jobs); }
      FrozenContentStays(db, step);
    } else {
      LandedStep(db, step);
    }
  }

  /** The drift changes what the post holds. */
  predicate Drifts(db: Db, step: Publishing.Step) {
    step.SDrift? && (step.copy != db.copy || step.assetIds != db.assetIds)
  }

  predicate NoneDrifts(db: Db, steps: seq<Publishing.Step>)
    decreases |steps|
  {
    steps == [] || (!Drifts(db, steps[0]) && NoneDrifts(Next(db, steps[0]), steps[1..]))
  }

  /** The content is the same after each step of the run. */
  predicate ContentStands(db: Db, steps: seq<Publishing.Step>)
    decreases |steps|
  {
    steps != [] ==> CurrentContent(Next(db, steps[0])) == CurrentContent(db) && ContentStands(Next(db, steps[0]), steps[1..])
  }

  predicate StaysOut(db: Db, steps: seq<Publishing.Step>)
    decreases |steps|
  {
    && db.status in {PostStatus.Publishing, Live, PostStatus.Failed}
    && (steps != [] ==> StaysOut(Next(db, steps[0]), steps[1..]))
  }

  lemma PublishedMeansFrozen(db: Db, p: Platform)
    requires Agreed(db) && p in db.jobs && db.jobs[p].status == Published
    ensures db.status in {PostStatus.Publishing, Live, PostStatus.Failed}
  {
    assert CountedPublishStatus(db.jobs[p]) in CountedStatuses(db.jobs);
    assert Published in CountedStatuses(db.jobs) - {JobStatus.Cancelled};
  }

  /** PUBLISHED is absorbing on every run. */
  lemma {:induction false} PublishedStays(db: Db, steps: seq<Publishing.Step>, p: Platform)
    requires p in db.jobs && db.jobs[p].status == Published
    ensures p in Exec(db, steps).jobs && Exec(db, steps).jobs[p] == db.jobs[p]
    decreases |steps|
  {
    hide Next;
    if steps != [] {
      StepMovesJobs(db, steps[0]);
      PublishedStays(Next(db, steps[0]), steps[1..], p);
    }
  }

  lemma {:induction false} OutContentStands(db: Db, steps: seq<Publishing.Step>, p: Platform)
    requires Quiet(db) && p in db.jobs && db.jobs[p].status == Published
    ensures ContentStands(db, steps) <==> NoneDrifts(db, steps)
    ensures Agreed(db) ==> (StaysOut(db, steps) <==> NoneLands(db, steps))
    decreases |steps|
  {
    hide Quiet, Agreed, Next, CurrentContent, Lands;
    if Agreed(db) { PublishedMeansFrozen(db, p); }
    if steps != [] {
      StepKeepsQuiet(db, steps[0]);
      StepMovesJobs(db, steps[0]);
      DriftChangesExactly(db, steps[0], p);
      OutContentStands(Next(db, steps[0]), steps[1..], p);
      LandingLeaves(db, steps[0]);
    }
  }

  /** Once one platform is out, what the other platforms get is what the first one got, exactly while no
      drift changes the post; and the post stays out exactly while no stalled run lands on it. */
  lemma OnceOutContentStands(start: Db, before: seq<Publishing.Step>, steps: seq<Publishing.Step>, p: Platform)
    requires Initial(start) && p in Exec(start, before).jobs && Exec(start, before).jobs[p].status == Published
    ensures var db := Exec(start, before);
      && (ContentStands(db, steps) <==> NoneDrifts(db, steps))
      && (NoneLands(start, before) ==> (StaysOut(db, steps) <==> NoneLands(db, steps)))
  {
    InitialIsAgreed(start);
    ExecKeepsQuiet(start, before);
    AgreedFollowsExactly(start, before);
    OutContentStands(Exec(start, before), steps, p);
  }

  lemma DriftChangesExactly(db: Db, step: Publishing.Step, p: Platform)
    requires Quiet(db) && p in db.jobs && ReachedPlatform(db.jobs[p])
    ensures CurrentContent(Next(db, step)) == CurrentContent(db) <==> !Drifts(db, step)
  {
    hide Quiet;
    if !step.SDrift? {
      OnlyDriftChanges(db, step, p);
    }
  }

  lemma LandingLeaves(db: Db, step: Publishing.Step)
    ensures Lands(db, step) ==> Next(db, step).status !in {PostStatus.Publishing, Live, PostStatus.Failed}
    ensures Agreed(db) && !Lands(db, step) ==> Agreed(Next(db, step))
  {
    hide Agreed;
    if Agreed(db) && !Lands(db, step) { UnlandedKeeps(db, step); }
  }

  // ---------------------------------------------------------------- what a poll sends

  /** Claimed attempt `k` is under way, out, or failed. */
  predicate Holds(db: Db, k: nat) {
    k < |db.sent|
    && var s := db.sent[k];
       s.platform in db.jobs && db.jobs[s.platform].attempts == s.attempt && ReachedPlatform(db.jobs[s.platform])
  }

  /** What each such attempt was claimed with is what the post still holds, so what a later poll of it
      sends is what the guard passed. */
  ghost predicate ContentHeld(db: Db) {
    forall k: nat :: Holds(db, k) ==> db.sent[k].content == CurrentContent(db)
  }

  /** The drift changes what a claimed attempt was built from. */
  ghost predicate DriftsUnderWay(db: Db, step: Publishing.Step) {
    Drifts(db, step) && exists k: nat :: Holds(db, k)
  }

  lemma HeldBefore(db: Db, step: Publishing.Step, k: nat)
    requires Numbered(db) && Holds(Next(db, step), k) && k < |db.sent|
    ensures Holds(db, k) && Next(db, step).sent[k] == db.sent[k]
  {
    hide Next;
    StepMovesJobs(db, step);
    StepAdds(db, step);
    assert Next(db, step).sent[..|db.sent|][k] == Next(db, step).sent[k];
  }

  lemma StepKeepsContentExactly(db: Db, step: Publishing.Step)
    requires Quiet(db) && Numbered(db) && ContentHeld(db)
    ensures ContentHeld(Next(db, step)) <==> !DriftsUnderWay(db, step)
  {
    hide Quiet, Next, Numbered, Holds, CurrentContent;
    var after := Next(db, step);
    if DriftsUnderWay(db, step) {
      var k: nat :| Holds(db, k);
      DriftHolds(db, step, k);
    } else {
      forall k: nat | Holds(after, k) ensures k < |after.sent| && after.sent[k].content == CurrentContent(after) {
        NewSentIsHeld(db, step, k);
      }
    }
  }

  lemma DriftHolds(db: Db, step: Publishing.Step, k: nat)
    requires Drifts(db, step) && Holds(db, k) && db.sent[k].content == CurrentContent(db)
    ensures Holds(Next(db, step), k) && Next(db, step).sent[k].content != CurrentContent(Next(db, step))
  {}

  lemma NewSentIsHeld(db: Db, step: Publishing.Step, k: nat)
    requires Quiet(db) && Numbered(db) && ContentHeld(db) && !DriftsUnderWay(db, step) && Holds(Next(db, step), k)
    ensures k < |Next(db, step).sent| && Next(db, step).sent[k].content == CurrentContent(Next(db, step))
  {
    hide Quiet, Next, CurrentContent;
    if k < |db.sent| {
      HeldBefore(db, step, k);
      DriftChangesExactly(db, step, db.sent[k].platform);
    } else {
      StepAdds(db, step);
    }
  }

  ghost predicate AlwaysHeld(db: Db, steps: seq<Publishing.Step>)
    decreases |steps|
  {
    ContentHeld(db) && (steps != [] ==> AlwaysHeld(Next(db, steps[0]), steps[1..]))
  }

  ghost predicate NoneDriftsUnderWay(db: Db, steps: seq<Publishing.Step>)
    decreases |steps|
  {
    steps == [] || (!DriftsUnderWay(db, steps[0]) && NoneDriftsUnderWay(Next(db, steps[0]), steps[1..]))
  }

  lemma {:induction false} HeldExactly(db: Db, steps: seq<Publishing.Step>)
    requires Quiet(db) && Numbered(db) && ContentHeld(db)
    ensures AlwaysHeld(db, steps) <==> NoneDriftsUnderWay(db, steps)
    decreases |steps|
  {
    hide Quiet, Numbered, ContentHeld, Next, DriftsUnderWay;
    if steps != [] {
      StepKeepsContentExactly(db, steps[0]);
      StepKeepsQuiet(db, steps[0]);
      StepKeepsNumbered(db, steps[0]);
      if !DriftsUnderWay(db, steps[0]) {
        HeldExactly(Next(db, steps[0]), steps[1..]);
      }
    }
  }

  /** Through the whole of any run, what a claimed attempt was built from is what the post holds, exactly
      when no drift changes the post with such an attempt under way, out or failed. */
  lemma PollsSendWhatWasClaimed(db: Db, steps: seq<Publishing.Step>)
    requires Initial(db)
    ensures AlwaysHeld(db, steps) <==> NoneDriftsUnderWay(db, steps)
  {
    InitialIsAgreed(db);
    HeldExactly(db, steps);
  }
}
