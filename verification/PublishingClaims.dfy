/** What a claim that goes through means, and what one that is refused leaves
    (apps/api/src/publishing/guards.ts, publish-service.ts, outcomes.ts), in terms of the rows alone. */
module PublishingClaims {
  import opened Options
  import opened ApprovalChain
  import opened PostLifecycle
  import opened Publishing
  import opened PublishingAgreement
  import opened PublishingHistory

  // ---------------------------------------------------------------- what goes out

  /** A message the queue holds, on its job's attempt: waiting for it, or under way on it already. */
  predicate OnItsAttempt(db: Db, run: Run) {
    && run in db.runs && run.platform in db.jobs
    && var job := db.jobs[run.platform];
       (job.status == Queued && run.attempt == job.attempts + 1) || (job.status == JobStatus.Publishing && run.attempt == job.attempts)
  }

  /** The post may go out: of nobody archived, its latest round approved on exactly what it holds. */
  predicate MayGoOut(db: Db) {
    && !db.campaignArchived && !db.clientArchived
    && |db.rounds| > 0
    && db.rounds[|db.rounds| - 1].walk.status == RoundStatus.Approved
    && db.rounds[|db.rounds| - 1].contentHash.copy == db.copy
    && db.rounds[|db.rounds| - 1].contentHash.variants == db.variants
    && db.rounds[|db.rounds| - 1].contentHash.assetIds == db.assetIds
  }

  predicate ChecksPass(checks: Checks) {
    !checks.bannedHits && !checks.tokenFails && checks.payloadOk
  }

  /** Something goes out exactly when a message on its job's attempt is claimed, the post may go out, its text
      uses no banned word, its token is good and its payload complete. */
  lemma GoesOutExactly(db: Db, step: Publishing.Step)
    ensures Next(db, step).sent != db.sent
       <==> step.SClaim? && OnItsAttempt(db, step.run) && MayGoOut(db) && ChecksPass(step.checks)
    ensures Next(db, step).sent != db.sent ==>
      var run, after := step.run, Next(db, step);
      && after.sent == db.sent + [Sent(run.platform, run.attempt, |db.rounds| - 1, Content(db.copy, db.variants, db.assetIds),
                                       db.jobs[run.platform].status == JobStatus.Publishing)]
      && after.jobs == db.jobs[run.platform := Job(JobStatus.Publishing, run.attempt, db.jobs[run.platform].containerId)]
      && after.rounds == db.rounds && after.runs == db.runs && after.copy == db.copy && after.variants == db.variants && after.assetIds == db.assetIds
  {
    if step.SClaim? {
      ClaimGoesOutExactly(db, step.run, step.checks, step.chain);
      hide Claim;
    } else {
      OthersSendNothing(db, step);
    }
  }

  lemma OthersSendNothing(db: Db, step: Publishing.Step)
    requires !step.SClaim?
    ensures Next(db, step).sent == db.sent
  {
    match step
    case SQueueDue(due) =>
    case SRedrive(p) =>
    case SSettle(p, attempt, outcome) => SettlingSendsNothing(db, p, attempt, outcome, "");
    case SRetry(p, resumed) => SettlingSendsNothing(db, p, 0, Out, resumed);
    case SFailJob(p, attempt) => FailQueuesNothing(db, p, attempt);
    case _ => OthersQueueNothing(db, step);
  }

  lemma SettlingSendsNothing(db: Db, p: Platform, attempt: nat, outcome: Publishing.Outcome, resumed: string)
    ensures Settle(db, p, attempt, outcome).sent == db.sent && Retry(db, p, resumed).sent == db.sent
  {
    hide Sync;
    SyncsQueueNothing();
  }

  lemma ClaimGoesOutExactly(db: Db, run: Run, checks: Checks, chain: Chain)
    ensures var after := Claim(db, run, checks, chain);
      && (after.sent != db.sent <==> OnItsAttempt(db, run) && MayGoOut(db) && ChecksPass(checks))
      && (after.sent != db.sent ==>
            && after.sent == db.sent + [Sent(run.platform, run.attempt, |db.rounds| - 1, Content(db.copy, db.variants, db.assetIds),
                                             db.jobs[run.platform].status == JobStatus.Publishing)]
            && after.jobs == db.jobs[run.platform := Job(JobStatus.Publishing, run.attempt, db.jobs[run.platform].containerId)]
            && after.rounds == db.rounds && after.runs == db.runs && after.copy == db.copy && after.variants == db.variants && after.assetIds == db.assetIds)
  {
    hide Sync, Refuse, FailJob;
    var p := run.platform;
    if run in db.runs && p in db.jobs && OnAttempt(db.jobs[p], run.attempt) {
      var guard := EvaluateGuards(db, checks);
      assert guard.None? <==> MayGoOut(db) && !checks.bannedHits && !checks.tokenFails;
      if guard.Some? {
        RefuseQueuesNothing(db, p, run.attempt, guard.value, chain);
      } else if !checks.payloadOk {
        FailQueuesNothing(db, p, run.attempt);
      } else {
        var s := Sent(p, run.attempt, |db.rounds| - 1, CurrentContent(db), db.jobs[p].status == JobStatus.Publishing);
        var claimed := SetJob(db, p, db.jobs[p].(status := JobStatus.Publishing, attempts := run.attempt)).(sent := db.sent + [s]);
        SyncKeepsRows(claimed);
        assert db.sent + [s] != db.sent;
      }
    }
  }

  // ---------------------------------------------------------------- on every run

  /** Entry `k` of what went out is from that step of the run. */
  ghost predicate WentOutAt(db: Db, steps: seq<Publishing.Step>, k: nat, i: nat) {
    && i < |steps| && steps[i].SClaim?
    && var before := Exec(db, steps[..i]);
       && |before.sent| == k && OnItsAttempt(before, steps[i].run) && MayGoOut(before) && ChecksPass(steps[i].checks)
  }

  /** Whatever went out on a run did so at a step where the post was of nobody archived, approved on exactly what
      it held, without a banned word, its token good and its payload complete. */
  lemma {:induction false} NothingElseGoesOut(db: Db, steps: seq<Publishing.Step>, k: nat)
    requires |db.sent| <= k < |Exec(db, steps).sent|
    ensures exists i: nat :: WentOutAt(db, steps, k, i)
    decreases |steps|
  {
    hide Next, MayGoOut, OnItsAttempt, ChecksPass;
    var after := Next(db, steps[0]);
    GoesOutExactly(db, steps[0]);
    if k < |after.sent| {
      assert steps[..0] == [];
      assert WentOutAt(db, steps, k, 0);
    } else {
      NothingElseGoesOut(after, steps[1..], k);
      var i: nat :| WentOutAt(after, steps[1..], k, i);
      assert steps[..i + 1][0] == steps[0] && steps[..i + 1][1..] == steps[1..][..i];
      assert WentOutAt(db, steps, k, i + 1);
    }
  }

  /** Once the campaign or the client is archived nothing goes out any more, on any run. */
  lemma {:induction false} ArchivedNeverGoesOut(db: Db, steps: seq<Publishing.Step>)
    requires db.campaignArchived || db.clientArchived
    ensures Exec(db, steps).sent == db.sent
    decreases |steps|
  {
    if steps != [] {
      GoesOutExactly(db, steps[0]);
      ArchiveLasts(db, steps[0]);
      hide Next;
      ArchivedNeverGoesOut(Next(db, steps[0]), steps[1..]);
    }
  }

  /** Neither archive mark is taken away. */
  predicate MarksLast(db: Db, after: Db) {
    (db.campaignArchived ==> after.campaignArchived) && (db.clientArchived ==> after.clientArchived)
  }

  lemma ArchiveLasts(db: Db, step: Publishing.Step)
    ensures MarksLast(db, Next(db, step))
  {
    if step.SClaim? {
      ClaimKeepsArchives(db, step.run, step.checks, step.chain);
    } else if step.SDecide? {
      DecideKeepsArchives(db, step.round, step.actor, step.decision);
    } else if step.SEditCopy? {
      ApprovalKeepsArchives(db, step.edit, step.gaps, {}, step.chain);
    } else if step.SPromoteTake? {
      ApprovalKeepsArchives(db, Copy("", [], [], ""), false, step.assetIds, step.chain);
    } else if step.SArchiveCampaign? || step.SArchiveClient? || step.SCommitSchedule? || step.SScheduleByHand? {
      MarkingKeepsArchives(db, step);
    } else if step.SSettle? || step.SFailJob? || step.SRetry? || step.SCancel? {
      SettlingKeepsArchives(db, step);
    }
    hide Claim, Decide, EditCopy, PromoteTake, ArchiveCampaign, ArchiveClient, CommitSchedule, ScheduleByHand, Settle, FailJob, Retry, Cancel,
      PreparedVariants, CancelRounds, CancelWaiting;
  }

  lemma MarkingKeepsArchives(db: Db, step: Publishing.Step)
    requires step.SArchiveCampaign? || step.SArchiveClient? || step.SCommitSchedule? || step.SScheduleByHand?
    ensures MarksLast(db, Next(db, step))
  {
    hide Sync, CancelWaiting, ScheduledJobs, CancelPendingRounds;
    SyncsKeepArchives();
  }

  lemma SettlingKeepsArchives(db: Db, step: Publishing.Step)
    requires step.SSettle? || step.SFailJob? || step.SRetry? || step.SCancel?
    ensures MarksLast(db, Next(db, step))
  {
    hide Sync;
    SyncsKeepArchives();
  }

  lemma SyncsKeepArchives()
    ensures forall d: Db {:trigger Sync(d)} ::
      Sync(d).campaignArchived == d.campaignArchived && Sync(d).clientArchived == d.clientArchived
  {
    hide StatusOfJobs;
  }

  lemma ApprovalKeepsArchives(db: Db, edit: Copy, gaps: bool, assetIds: set<string>, chain: Chain)
    ensures MarksLast(db, EditCopy(db, edit, gaps, chain)) && MarksLast(db, PromoteTake(db, assetIds, chain))
  {
    hide CancelWaiting, CancelRounds, CurrentContent, HasReopenable, CanTransition;
  }

  lemma DecideKeepsArchives(db: Db, r: nat, actor: Actor, decision: Decision)
    ensures MarksLast(db, Decide(db, r, actor, decision))
  {
    hide Record, ChainRejection, CanTransition;
  }

  lemma ClaimKeepsArchives(db: Db, run: Run, checks: Checks, chain: Chain)
    ensures MarksLast(db, Claim(db, run, checks, chain))
  {
    hide CallOffWith, CancelWaiting, CancelRounds, CurrentContent, Sync;
    SyncsKeepArchives();
  }

  // ---------------------------------------------------------------- what a refused claim leaves

  /** The latest round stands approved on exactly what the post holds. */
  predicate ContentApproved(db: Db) {
    && |db.rounds| > 0 && db.rounds[|db.rounds| - 1].walk.status == RoundStatus.Approved
    && db.rounds[|db.rounds| - 1].contentHash == Content(db.copy, db.variants, db.assetIds)
  }

  /** The job FAILED on this attempt, the post with it, and nothing else changed. */
  predicate FailsOn(db: Db, after: Db, run: Run) {
    run.platform in db.jobs
    && after == db.(status := PostStatus.Failed,
                    jobs := db.jobs[run.platform := Job(JobStatus.Failed, run.attempt, db.jobs[run.platform].containerId)])
  }

  /** The job and whatever still waits without a container are CANCELLED; no other job changes. */
  predicate CalledOff(db: Db, after: Db, p: Platform) {
    && after.jobs.Keys == db.jobs.Keys
    && forall q :: q in db.jobs ==>
         after.jobs[q] == if q == p || (db.jobs[q].status in {JobStatus.Scheduled, Queued} && db.jobs[q].containerId.None?)
                          then db.jobs[q].(status := JobStatus.Cancelled) else db.jobs[q]
  }

  /** No round is open or stands approved. */
  predicate NoneStands(rounds: seq<Round>) {
    forall i :: 0 <= i < |rounds| ==> rounds[i].walk.status != Pending && rounds[i].walk.status != RoundStatus.Approved
  }

  /** Approval starts over: what stood is cancelled, and a new PENDING round is on what the post holds. */
  predicate ApprovalStartsOver(db: Db, after: Db, chain: Chain) {
    && after.status == PendingApproval && |after.rounds| == |db.rounds| + 1
    && NoneStands(after.rounds[..|db.rounds|])
    && after.rounds[|db.rounds|].walk == ChainState(chain, Pending, 0, [])
    && after.rounds[|db.rounds|].contentHash == Content(after.copy, after.variants, after.assetIds)
  }

  /** The agents get the post back: what stood is cancelled, and no round is opened. */
  predicate GoesBackToAgents(db: Db, after: Db) {
    && after.status == PostStatus.ChangesRequested && after.atWork && |after.rounds| == |db.rounds| && NoneStands(after.rounds)
  }

  lemma FailingLeaves(db: Db, run: Run)
    requires Agreed(db) && OnItsAttempt(db, run)
    ensures FailsOn(db, FailJob(db, run.platform, run.attempt), run)
  {
    var p := run.platform;
    var jobs := db.jobs[p := Job(JobStatus.Failed, run.attempt, db.jobs[p].containerId)];
    SetAndSync(db, p, jobs[p]);
    StatusTellsTheRows(jobs);
    SyncKeepsRows(SetJob(db, p, jobs[p]));
    PresentJob(db, p);
    assert jobs[p].status == JobStatus.Failed;
    hide StatusOfJobs;
  }

  lemma CancelledRoundsStandNot(rounds: seq<Round>)
    ensures NoneStands(CancelRounds(rounds)) && |CancelRounds(rounds)| == |rounds|
  {
  }

  lemma CallingOffLeaves(db: Db, p: Platform)
    requires p in db.jobs
    ensures CalledOff(db, db.(jobs := CallOffWith(db.jobs, p)), p)
    ensures CalledOff(db, Sync(db.(jobs := CallOffWith(db.jobs, p))), p)
    ensures Sync(db.(jobs := CallOffWith(db.jobs, p))).rounds == db.rounds
  {
    hide Sync;
    SyncKeepsRows(db.(jobs := CallOffWith(db.jobs, p)));
  }

  lemma ReopeningLeaves(db: Db, p: Platform, chain: Chain)
    requires p in db.jobs
    ensures var calledOff := db.(jobs := CallOffWith(db.jobs, p));
      && ApprovalStartsOver(db, Reopen(calledOff, chain), chain) && CalledOff(db, Reopen(calledOff, chain), p)
      && GoesBackToAgents(db, ReopenForRevision(calledOff)) && CalledOff(db, ReopenForRevision(calledOff), p)
  {
    CancelledRoundsStandNot(db.rounds);
    CancelWaitingTwice(db.jobs[p := db.jobs[p].(status := JobStatus.Cancelled)]);
    hide CancelRounds;
    assert (CancelRounds(db.rounds) + [Round(Fresh(chain), CurrentContent(db), CurrentContent(db))])[..|db.rounds|] == CancelRounds(db.rounds);
  }

  /** What each failing check leaves of a claim on its attempt, the first that fails deciding. */
  lemma RefusedClaimLeaves(db: Db, run: Run, checks: Checks, chain: Chain)
    requires Agreed(db) && OnItsAttempt(db, run)
    ensures var after, held := Claim(db, run, checks, chain), db.jobs[run.platform].containerId.Some?;
      // of an archived campaign or client
      && (Archived(db) <==> db.campaignArchived || db.clientArchived)
      && (Archived(db) ==> CalledOff(db, after, run.platform) && after.rounds == db.rounds)
      // not approved, or changed since: approval starts over while nothing of the post is out
      && (!Archived(db) && !ContentApproved(db) ==>
            if held then FailsOn(db, after, run)
            else CalledOff(db, after, run.platform)
                 && if db.status == PostStatus.Scheduled then ApprovalStartsOver(db, after, chain) else after.rounds == db.rounds)
      // uses a banned word: the agents revise it while nothing of the post is out
      && (!Archived(db) && ContentApproved(db) && checks.bannedHits ==>
            if held then FailsOn(db, after, run)
            else CalledOff(db, after, run.platform)
                 && if db.status == PostStatus.Scheduled && db.planned then GoesBackToAgents(db, after) else after.rounds == db.rounds)
      // its token is no good, or its payload not complete
      && (!Archived(db) && ContentApproved(db) && !checks.bannedHits && (checks.tokenFails || !checks.payloadOk) ==> FailsOn(db, after, run))
  {
    WhichRefusal(db, run, checks, chain);
    hide Claim, Refuse, Agreed, FailJob, CalledOff, FailsOn, ApprovalStartsOver, GoesBackToAgents, ContentApproved;
    if Archived(db) {
      GuardLeaves(db, run, ArchivedGuard, chain);
    } else if !ContentApproved(db) {
      GuardLeaves(db, run, ApprovalGuard, chain);
      GuardLeaves(db, run, ContentHashGuard, chain);
    } else if checks.bannedHits {
      GuardLeaves(db, run, BannedWordsGuard, chain);
    } else {
      GuardLeaves(db, run, TokenGuard, chain);
      FailingLeaves(db, run);
    }
  }

  lemma WhichRefusal(db: Db, run: Run, checks: Checks, chain: Chain)
    requires OnItsAttempt(db, run)
    ensures var p, after := run.platform, Claim(db, run, checks, chain);
      && (Archived(db) ==> after == Refuse(db, p, run.attempt, ArchivedGuard, chain))
      && (!Archived(db) && !ContentApproved(db) ==>
            after == Refuse(db, p, run.attempt, ApprovalGuard, chain) || after == Refuse(db, p, run.attempt, ContentHashGuard, chain))
      && (!Archived(db) && ContentApproved(db) && checks.bannedHits ==> after == Refuse(db, p, run.attempt, BannedWordsGuard, chain))
      && (!Archived(db) && ContentApproved(db) && !checks.bannedHits && (checks.tokenFails || !checks.payloadOk) ==>
            after == Refuse(db, p, run.attempt, TokenGuard, chain) || after == FailJob(db, p, run.attempt))
  {
    hide Refuse, FailJob, Sync;
  }

  lemma GuardLeaves(db: Db, run: Run, guard: Guard, chain: Chain)
    requires Agreed(db) && OnItsAttempt(db, run)
    ensures var after, held := Refuse(db, run.platform, run.attempt, guard, chain), db.jobs[run.platform].containerId.Some?;
      match guard
      case ArchivedGuard => CalledOff(db, after, run.platform) && after.rounds == db.rounds
      case TokenGuard => FailsOn(db, after, run)
      case BannedWordsGuard =>
        if held then FailsOn(db, after, run)
        else CalledOff(db, after, run.platform)
             && if db.status == PostStatus.Scheduled && db.planned then GoesBackToAgents(db, after) else after.rounds == db.rounds
      case _ =>
        if held then FailsOn(db, after, run)
        else CalledOff(db, after, run.platform)
             && if db.status == PostStatus.Scheduled then ApprovalStartsOver(db, after, chain) else after.rounds == db.rounds
  {
    hide Sync, FailJob, Reopen, ReopenForRevision, Agreed, CallOffWith, CalledOff, FailsOn, ApprovalStartsOver, GoesBackToAgents;
    var p := run.platform;
    FailingLeaves(db, run);
    CallingOffLeaves(db, p);
    ReopeningLeaves(db, p, chain);
    NotApprovedOnly(db, p);
  }

  /** A post with a job that is not CANCELLED is not just APPROVED. */
  lemma NotApprovedOnly(db: Db, p: Platform)
    requires Agreed(db) && p in db.jobs && db.jobs[p].status != JobStatus.Cancelled
    ensures db.status != PostStatus.Approved
  {
    StatusTellsTheRows(db.jobs);
    hide StatusOfJobs;
  }
}
