/** Which step makes a message, opens or ends a round, hands the post to the agents or writes what it
    holds, and when: said of every step at once, on the rows alone (the sources of module Publishing). */
module PublishingRounds {
  import opened Options
  import opened ApprovalChain
  import opened PostLifecycle
  import opened Publishing
  import opened PublishingAgreement
  import opened PublishingHistory
  import opened PublishingClaims
  import opened PublishingMoves

  // ---------------------------------------------------------------- messages

  /** The step asks for another attempt of the message's job: of one that is now QUEUED. */
  predicate AsksFor(db: Db, step: Publishing.Step, run: Run) {
    && run.platform in db.jobs && run.attempt == db.jobs[run.platform].attempts + 1
    && (|| (step.SQueueDue? && run.platform in step.due && Is(db.jobs, run.platform, JobStatus.Scheduled))
        || (step.SRedrive? && run.platform == step.p && Is(db.jobs, run.platform, Queued))
        || (step.SRetry? && run.platform == step.p && Retries(db, step.p))
        || (step.SSettle? && run.platform == step.p && step.outcome == TryAgain
            && Is(db.jobs, step.p, JobStatus.Publishing) && db.jobs[step.p].attempts == step.attempt))
  }

  /** The messages a step makes are those it asks for, each of its job's next attempt; none is taken back. */
  lemma MakesMessagesExactly(db: Db, step: Publishing.Step, run: Run)
    ensures run in Next(db, step).runs <==> run in db.runs || AsksFor(db, step, run)
  {
    match step
    case SClaim(r, checks, chain) => ClaimingQueuesNothing(db, r, checks, chain);
    case SFailJob(p, attempt) => FailQueuesNothing(db, p, attempt);
    case SSettle(p, attempt, outcome) => SettlingAsks(db, p, attempt, outcome, "", run);
    case SRetry(p, resumed) => SettlingAsks(db, p, 0, Out, resumed, run);
    case SQueueDue(due) => QueueingAsks(db, due, "", run);
    case SRedrive(p) => QueueingAsks(db, {}, p, run);
    case _ => OthersQueueNothing(db, step);
  }

  lemma ClaimingQueuesNothing(db: Db, run: Run, checks: Checks, chain: Chain)
    ensures Claim(db, run, checks, chain).runs == db.runs
  {
    hide Sync, Refuse, FailJob;
    var p := run.platform;
    if p in db.jobs {
      SyncsQueueNothing();
      FailQueuesNothing(db, p, run.attempt);
      forall guard ensures Refuse(db, p, run.attempt, guard, chain).runs == db.runs {
        RefuseQueuesNothing(db, p, run.attempt, guard, chain);
      }
    }
  }

  lemma SettlingAsks(db: Db, p: Platform, attempt: nat, outcome: Publishing.Outcome, resumed: string, run: Run)
    ensures run in Settle(db, p, attempt, outcome).runs <==> run in db.runs || AsksFor(db, SSettle(p, attempt, outcome), run)
    ensures run in Retry(db, p, resumed).runs <==> run in db.runs || AsksFor(db, SRetry(p, resumed), run)
  {
    hide Sync;
    SyncsQueueNothing();
  }

  lemma QueueingAsks(db: Db, due: set<Platform>, p: Platform, run: Run)
    ensures run in QueueDue(db, due).runs <==> run in db.runs || AsksFor(db, SQueueDue(due), run)
    ensures run in Redrive(db, p).runs <==> run in db.runs || AsksFor(db, SRedrive(p), run)
  {
    var moved := set q | q in db.jobs && q in due && db.jobs[q].status == JobStatus.Scheduled;
    assert QueueDue(db, due).runs == db.runs + set q | q in moved :: NextRun(db.jobs, q);
    if run.platform in moved {
      assert NextRun(db.jobs, run.platform).platform == run.platform;
    }
  }

  // ---------------------------------------------------------------- rounds

  /** QA passed the post: its task is unfinished, and put the post in QA. */
  predicate SendsForApproval(db: Db, step: Publishing.Step) {
    step.SSendForApproval? && db.atWork && db.status == Qa
  }

  /** A vote that counts on a PENDING round, `ends` when it decides the round. */
  predicate Decides(db: Db, step: Publishing.Step) {
    && step.SDecide? && step.round < |db.rounds|
    && ChainRejection(db.rounds[step.round].walk, step.actor).None?
  }

  function ChainOf(step: Publishing.Step): Chain {
    match step
    case SSendForApproval(chain) => chain
    case SEditCopy(_, _, chain) => chain
    case SPromoteTake(_, chain) => chain
    case SClaim(_, _, chain) => chain
    case _ => []
  }

  /** A round is opened when QA passes the post, and when other content replaces what a round stood on. It
      is one, PENDING at the first step of the client's chain, on what the post then holds; where it replaces
      others none of them stands any more. */
  lemma OpensARoundExactly(db: Db, step: Publishing.Step)
    ensures var after := Next(db, step);
      && (|after.rounds| > |db.rounds| <==> SendsForApproval(db, step) || Reopens(db, step))
      && (|after.rounds| > |db.rounds| ==>
            && |after.rounds| == |db.rounds| + 1 && after.status == PendingApproval
            && after.rounds[|db.rounds|].walk == ChainState(ChainOf(step), Pending, 0, [])
            && after.rounds[|db.rounds|].contentHash == Content(after.copy, after.variants, after.assetIds))
      && (Reopens(db, step) ==> NoneStands(after.rounds[..|db.rounds|]))
  {
    match step
    case SClaim(_, _, _) => ClaimingRounds(db, step);
    case SEditCopy(_, _, _) => EditingRounds(db, step);
    case SPromoteTake(_, _) => EditingRounds(db, step);
    case SSendForApproval(chain) => hide CurrentContent, CanTransition;
    case _ => OtherRounds(db, step);
  }

  /** The rest of what Reopen leaves. */
  lemma ReopeningRounds(db: Db, chain: Chain)
    ensures var after := Reopen(db, chain);
      && |after.rounds| == |db.rounds| + 1 && after.status == PendingApproval
      && after.rounds[|db.rounds|].walk == ChainState(chain, Pending, 0, [])
      && after.rounds[|db.rounds|].contentHash == Content(after.copy, after.variants, after.assetIds)
      && NoneStands(after.rounds[..|db.rounds|])
  {
    CancelledRoundsStandNot(db.rounds);
    hide CancelRounds, CancelWaiting;
    assert Reopen(db, chain).rounds[..|db.rounds|] == CancelRounds(db.rounds);
  }

  lemma EditingRounds(db: Db, step: Publishing.Step)
    requires step.SEditCopy? || step.SPromoteTake?
    ensures var after := Next(db, step);
      && (Reopens(db, step) ==>
            && |after.rounds| == |db.rounds| + 1 && after.status == PendingApproval
            && after.rounds[|db.rounds|].walk == ChainState(ChainOf(step), Pending, 0, [])
            && after.rounds[|db.rounds|].contentHash == Content(after.copy, after.variants, after.assetIds)
            && NoneStands(after.rounds[..|db.rounds|]))
      && (!Reopens(db, step) ==> |after.rounds| == |db.rounds|)
  {
    StandsMeansReopenable(db);
    hide Reopen, HasReopenable, AnyStands, NoneStands, CancelWaiting;
    if step.SEditCopy? {
      ReopeningRounds(db.(copy := Some(step.edit)), step.chain);
    } else {
      ReopeningRounds(db.(assetIds := step.assetIds), step.chain);
    }
  }

  lemma ClaimingRounds(db: Db, step: Publishing.Step)
    requires step.SClaim?
    ensures var after := Next(db, step);
      && (ClaimReopens(db, step) ==>
            && |after.rounds| == |db.rounds| + 1 && after.status == PendingApproval
            && after.rounds[|db.rounds|].walk == ChainState(ChainOf(step), Pending, 0, [])
            && after.rounds[|db.rounds|].contentHash == Content(after.copy, after.variants, after.assetIds)
            && NoneStands(after.rounds[..|db.rounds|]))
      && (ClaimSendsBack(db, step) ==> |after.rounds| == |db.rounds| && NoneStands(after.rounds) && after.status == PostStatus.ChangesRequested && after.atWork)
      && (!ClaimReopens(db, step) && !ClaimSendsBack(db, step) ==> after.rounds == db.rounds && after.atWork == db.atWork)
  {
    hide Sync, Refuse, FailJob, NoneStands, EvaluateGuards;
    var run, checks, chain := step.run, step.checks, step.chain;
    SyncsKeepRounds();
    if OnItsAttempt(db, run) {
      WhichGuard(db, checks);
      FailingKeepsRounds(db, run.platform, run.attempt);
      var guard := EvaluateGuards(db, checks);
      if guard.Some? {
        RefusingRounds(db, run.platform, run.attempt, guard.value, chain);
      }
    }
  }

  lemma FailingKeepsRounds(db: Db, p: Platform, attempt: nat)
    ensures FailJob(db, p, attempt).rounds == db.rounds && FailJob(db, p, attempt).atWork == db.atWork
  {
    hide Sync;
    SyncsKeepRounds();
  }

  /** What a refusal leaves of the rounds, by the guard. */
  lemma RefusingRounds(db: Db, p: Platform, attempt: nat, guard: Guard, chain: Chain)
    requires p in db.jobs
    ensures var after, held := Refuse(db, p, attempt, guard, chain), db.jobs[p].containerId.Some?;
      var early := !held && db.status in {PostStatus.Approved, PostStatus.Scheduled};
      if guard in {ApprovalGuard, ContentHashGuard} && early then
        && |after.rounds| == |db.rounds| + 1 && after.status == PendingApproval
        && after.rounds[|db.rounds|].walk == ChainState(chain, Pending, 0, [])
        && after.rounds[|db.rounds|].contentHash == Content(after.copy, after.variants, after.assetIds)
        && NoneStands(after.rounds[..|db.rounds|])
      else if guard == BannedWordsGuard && early && db.planned then
        |after.rounds| == |db.rounds| && NoneStands(after.rounds) && after.status == PostStatus.ChangesRequested && after.atWork
      else after.rounds == db.rounds && after.atWork == db.atWork
  {
    hide Sync, FailJob, Reopen, CallOffWith, CancelWaiting, CancelRounds, NoneStands;
    SyncsKeepRounds();
    FailingKeepsRounds(db, p, attempt);
    ReopeningRounds(db.(jobs := CallOffWith(db.jobs, p)), chain);
    CancelledRoundsStandNot(db.rounds);
  }

  lemma SyncsKeepRounds()
    ensures forall d: Db {:trigger Sync(d)} :: Sync(d).rounds == d.rounds && Sync(d).atWork == d.atWork
  {
    hide StatusOfJobs;
  }

  lemma OtherRounds(db: Db, step: Publishing.Step)
    requires !(step.SClaim? || step.SEditCopy? || step.SPromoteTake? || step.SSendForApproval?)
    ensures |Next(db, step).rounds| == |db.rounds|
  {
    if step.SDecide? || step.SReviseVisuals? {
      hide Record, ChainRejection, CanTransition, CancelWaiting;
    } else {
      hide Sync, CancelWaiting, ScheduledJobs, CurrentContent, PreparedVariants, CanTransition, ScheduleDue;
      SyncsKeepRounds();
    }
  }

  // ---------------------------------------------------------------- the agents' work

  /** An eligible person asks for changes on an open round of a planned post that waits for approval. */
  predicate AsksForChanges(db: Db, step: Publishing.Step) {
    && Decides(db, step) && step.decision == RequestChanges
    && db.planned && db.status == PendingApproval
  }

  /** The agents get the post back when a person asks for changes, when its copy no longer fits its takes,
      when its visuals are to be redone, and when a claim finds banned words in it. */
  lemma GoesBackExactly(db: Db, step: Publishing.Step)
    requires !db.atWork
    ensures Next(db, step).atWork <==> SendsBack(db, step) || AsksForChanges(db, step)
    ensures Next(db, step).atWork ==> Next(db, step).status == PostStatus.ChangesRequested
  {
    match step
    case SClaim(_, _, _) => ClaimingRounds(db, step);
    case SDecide(r, actor, decision) => DecidingHandsOver(db, r, actor, decision);
    case SEditCopy(_, _, _) => RevisingHandsOver(db, step);
    case SReviseVisuals => RevisingHandsOver(db, step);
    case SPromoteTake(_, _) => RevisingHandsOver(db, step);
    case _ => OthersHandNothingOver(db, step);
  }

  lemma DecidingHandsOver(db: Db, r: nat, actor: Actor, decision: Decision)
    requires !db.atWork
    ensures Decide(db, r, actor, decision).atWork <==> AsksForChanges(db, SDecide(r, actor, decision))
    ensures Decide(db, r, actor, decision).atWork ==> Decide(db, r, actor, decision).status == PostStatus.ChangesRequested
  {
    hide ChainRejection, CountApprovals;
  }

  lemma RevisingHandsOver(db: Db, step: Publishing.Step)
    requires !db.atWork && (step.SEditCopy? || step.SReviseVisuals? || step.SPromoteTake?)
    ensures Next(db, step).atWork <==> SendsBack(db, step)
    ensures Next(db, step).atWork ==> Next(db, step).status == PostStatus.ChangesRequested
  {
    hide CancelRounds, CancelWaiting, CurrentContent, HasReopenable, CanTransition;
  }

  lemma OthersHandNothingOver(db: Db, step: Publishing.Step)
    requires !db.atWork && !(step.SClaim? || step.SDecide? || step.SEditCopy? || step.SReviseVisuals? || step.SPromoteTake?)
    ensures !Next(db, step).atWork && !SendsBack(db, step) && !AsksForChanges(db, step)
  {
    hide Sync, CancelWaiting, ScheduledJobs, CurrentContent, PreparedVariants, CanTransition, ScheduleDue, CancelPendingRounds;
    SyncsKeepRounds();
  }

  // ---------------------------------------------------------------- what the post holds

  predicate AgentsStore(db: Db, step: Publishing.Step) {
    step.SAgentWork? && db.atWork && step.status in {Idea, Drafting, Visualizing, Adapting, Qa, PostStatus.ChangesRequested}
  }

  /** Prepared once a round stands approved: the texts of the platforms that take the post's type. */
  predicate Prepares(db: Db, step: Publishing.Step) {
    && step.SPrepareVariants? && db.status == PostStatus.Approved && Unarchived(db)
    && LatestApproved(db) && |db.rounds| == step.round && db.copy.Some?
  }

  /** The copy and the takes change by the agents while they work, by a teammate's edit or promotion, and
      otherwise only under no lock at all. */
  lemma ContentChangesExactly(db: Db, step: Publishing.Step)
    ensures var after := Next(db, step);
      && after.copy == (if AgentsStore(db, step) then step.copy
                        else if Edits(db, step) then Some(step.edit)
                        else if step.SDrift? then step.copy else db.copy)
      && after.assetIds == (if AgentsStore(db, step) || Promotes(db, step) || step.SDrift? then step.assetIds else db.assetIds)
      && (!Prepares(db, step) ==> after.variants == db.variants)
  {
    match step
    case SClaim(run, checks, chain) => ClaimKeepsContent(db, run, checks, chain);
    case SEditCopy(_, _, _) => EditingContent(db, step);
    case SPromoteTake(_, _) => EditingContent(db, step);
    case SDecide(r, actor, decision) => DecidingKeepsContent(db, r, actor, decision);
    case _ => OtherContent(db, step);
  }

  lemma EditingContent(db: Db, step: Publishing.Step)
    requires step.SEditCopy? || step.SPromoteTake?
    ensures var after := Next(db, step);
      && after.copy == (if Edits(db, step) then Some(step.edit) else db.copy)
      && after.assetIds == (if Promotes(db, step) then step.assetIds else db.assetIds)
      && after.variants == db.variants
  {
    StandsMeansReopenable(db);
    hide CancelWaiting, CancelRounds, CurrentContent, HasReopenable, AnyStands;
  }

  lemma DecidingKeepsContent(db: Db, r: nat, actor: Actor, decision: Decision)
    ensures var after := Decide(db, r, actor, decision);
      after.copy == db.copy && after.variants == db.variants && after.assetIds == db.assetIds
  {
    hide Record, ChainRejection, CanTransition;
  }

  lemma OtherContent(db: Db, step: Publishing.Step)
    requires !(step.SClaim? || step.SEditCopy? || step.SPromoteTake? || step.SDecide?)
    ensures var after := Next(db, step);
      && after.copy == (if AgentsStore(db, step) || step.SDrift? then step.copy else db.copy)
      && after.assetIds == (if AgentsStore(db, step) || step.SDrift? then step.assetIds else db.assetIds)
      && (!Prepares(db, step) ==> after.variants == db.variants)
  {
    if step.SCommitSchedule? || step.SScheduleByHand? || step.SArchiveCampaign? || step.SArchiveClient? {
      CallingOffKeepsContent(db, step);
    } else if step.SQueueDue? || step.SRedrive? || step.SSettle? || step.SFailJob? || step.SRetry? || step.SCancel? {
      SettlingKeepsContent(db, step);
    } else {
      hide CurrentContent, PreparedVariants, CancelWaiting, CancelRounds, CanTransition;
    }
    hide CommitSchedule, ScheduleByHand, ArchiveCampaign, ArchiveClient, QueueDue, Redrive, Settle, FailJob, Retry, Cancel;
  }

  ghost predicate KeepsContent(db: Db, after: Db) {
    after.copy == db.copy && after.variants == db.variants && after.assetIds == db.assetIds
  }

  lemma CallingOffKeepsContent(db: Db, step: Publishing.Step)
    requires step.SCommitSchedule? || step.SScheduleByHand? || step.SArchiveCampaign? || step.SArchiveClient?
    ensures KeepsContent(db, Next(db, step))
  {
    hide Sync, CancelWaiting, ScheduledJobs, CancelPendingRounds, ScheduleDue, LatestIs;
    SyncsKeepContent();
  }

  lemma SettlingKeepsContent(db: Db, step: Publishing.Step)
    requires step.SQueueDue? || step.SRedrive? || step.SSettle? || step.SFailJob? || step.SRetry? || step.SCancel?
    ensures KeepsContent(db, Next(db, step))
  {
    hide Sync;
    SyncsKeepContent();
  }

  lemma SyncsKeepContent()
    ensures forall d: Db {:trigger Sync(d)} :: Sync(d).copy == d.copy && Sync(d).variants == d.variants && Sync(d).assetIds == d.assetIds
  {
    hide StatusOfJobs;
  }

  lemma ClaimKeepsContent(db: Db, run: Run, checks: Checks, chain: Chain)
    ensures var after := Claim(db, run, checks, chain);
      after.copy == db.copy && after.variants == db.variants && after.assetIds == db.assetIds
  {
    hide Sync, Refuse, FailJob;
    SyncsKeepContent();
    if run.platform in db.jobs {
      forall guard ensures var after := Refuse(db, run.platform, run.attempt, guard, chain);
        after.copy == db.copy && after.variants == db.variants && after.assetIds == db.assetIds
      {
        RefusingKeepsContent(db, run.platform, run.attempt, guard, chain);
      }
      FailingKeepsContent(db, run.platform, run.attempt);
    }
  }

  lemma RefusingKeepsContent(db: Db, p: Platform, attempt: nat, guard: Guard, chain: Chain)
    requires p in db.jobs
    ensures var after := Refuse(db, p, attempt, guard, chain);
      after.copy == db.copy && after.variants == db.variants && after.assetIds == db.assetIds
  {
    hide Sync, FailJob, CallOffWith, CancelWaiting, CancelRounds, CurrentContent;
    SyncsKeepContent();
    FailingKeepsContent(db, p, attempt);
  }

  lemma FailingKeepsContent(db: Db, p: Platform, attempt: nat)
    ensures var after := FailJob(db, p, attempt);
      after.copy == db.copy && after.variants == db.variants && after.assetIds == db.assetIds
  {
    hide Sync;
    SyncsKeepContent();
  }

  /** Preparing gives every platform that takes the post its own text, but for those whose job counts: they
      keep what they were approved with. The round's hash follows when it was of what the post held. */
  lemma PreparesExactly(db: Db, step: Publishing.Step)
    requires Prepares(db, step)
    ensures var after, r := Next(db, step), step.round - 1;
      && (forall p :: p in after.variants <==> p in db.variants || (p in db.platforms && p in db.takesType))
      && (forall p :: p in after.variants ==>
            if p in db.variants && (p !in db.platforms || p !in db.takesType || (p in db.jobs && db.jobs[p].status != JobStatus.Cancelled))
            then after.variants[p] == db.variants[p]
            else OwnText(db.copy.value, p, after.variants[p]))
      && (exists plan :: plan in after.plans && plan.round == step.round
            && forall p :: p in plan.platforms <==>
                 p in db.platforms && p in db.takesType && (p in db.jobs ==> db.jobs[p].status == JobStatus.Cancelled))
      && |after.rounds| == |db.rounds| && after.rounds[..r] == db.rounds[..r] && after.rounds[r].walk == db.rounds[r].walk
      && after.rounds[r].contentHash == (if db.rounds[r].contentHash == Content(db.copy, db.variants, db.assetIds)
                                         then Content(after.copy, after.variants, after.assetIds) else db.rounds[r].contentHash)
  {
    hide VariantCopyOf, OwnText;
    forall p ensures OwnText(db.copy.value, p, VariantCopyOf(db.copy.value, p)) {
      VariantIsOwnText(db.copy.value, p);
    }
    var items := set p | p in db.platforms && p in db.takesType && !Counts(db, p);
    assert Plan(step.round, items) in Next(db, step).plans;
  }
}
