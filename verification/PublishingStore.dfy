/** The publishing transactions as they run: statements that update the post's rows one after the
    other. Each leaves exactly the rows its step of module Publishing describes, so what is proved
    about runs of those steps holds of runs of these methods. */
module PublishingStore {
  import opened Options
  import opened ApprovalChain
  import opened PostLifecycle
  import opened Publishing

  /** The rows once these platforms had their turn. */
  function Put(jobs: Jobs, chosen: set<Platform>, turns: seq<Platform>): Jobs {
    jobs + map p | p in turns && p in chosen :: ScheduledRow(jobs, p)
  }

  /** The platforms that are free for a slot and picked for one. */
  function Chosen(db: Db, picked: set<Platform>): set<Platform> {
    set p | p in picked && Schedulable(db, p)
  }

  lemma PutMore(jobs: Jobs, chosen: set<Platform>, turns: seq<Platform>, p: Platform)
    ensures Put(jobs, chosen, turns + [p])
         == if p in chosen then Put(jobs, chosen, turns)[p := ScheduledRow(jobs, p)] else Put(jobs, chosen, turns)
    ensures var rows := Put(jobs, chosen, turns);
      if p in turns && p in chosen then p in rows && rows[p] == ScheduledRow(jobs, p)
      else (p in rows <==> p in jobs) && (p in jobs ==> rows[p] == jobs[p])
  {
    hide ScheduledRow;
  }

  /** The next platform's turn, decided on the rows as they are by then. */
  lemma PutOne(db: Db, picked: set<Platform>, turns: seq<Platform>, p: Platform)
    ensures var chosen, rows := Chosen(db, picked), Put(db.jobs, Chosen(db, picked), turns);
      Put(db.jobs, chosen, turns + [p])
      == if p in db.variants && (p !in rows || rows[p].status == JobStatus.Cancelled) && p in picked
         then rows[p := Job(JobStatus.Scheduled, if p in rows then rows[p].attempts + 1 else 0, None)] else rows
  {
    PutMore(db.jobs, Chosen(db, picked), turns, p);
    hide Put;
    var rows := Put(db.jobs, Chosen(db, picked), turns);
    if p in turns && p in Chosen(db, picked) {
      assert rows[p := ScheduledRow(db.jobs, p)] == rows;
    }
  }

  lemma NoTurnYet(db: Db, picked: set<Platform>)
    ensures Put(db.jobs, Chosen(db, picked), []) == db.jobs
  {
  }

  lemma PutAll(db: Db, plan: Plan, picked: set<Platform>, items: seq<Platform>)
    requires plan.platforms == set p | p in items
    ensures Put(db.jobs, Chosen(db, picked), items) == ScheduledJobs(db, plan, picked)
  {
    hide Schedulable, ScheduledRow;
  }

  /** One post with its rounds, variants and jobs, and the two queues that name it. */
  class PostRows {
    var status: PostStatus
    var copy: Option<Copy>
    var assetIds: set<string>
    var variants: map<Platform, Text>
    var rounds: seq<Round>
    var jobs: Jobs
    var campaignArchived: bool
    var clientArchived: bool
    const planned: bool
    const platforms: seq<Platform>
    const takesType: set<Platform>

    /** Whether a task of the post is unfinished, which the task table says. */
    ghost var atWork: bool
    /** The messages and plans handed out so far, and the claims that passed. */
    ghost var plans: set<Plan>
    ghost var runs: set<Run>
    ghost var sent: seq<Sent>

    constructor (planned: bool, platforms: seq<Platform>, takesType: set<Platform>)
      ensures Initial(Rows()) && Rows().planned == planned
      ensures Rows().platforms == platforms && Rows().takesType == takesType
    {
      status, copy, assetIds, variants, rounds, jobs := Idea, None, {}, map[], [], map[];
      campaignArchived, clientArchived := false, false;
      atWork, plans, runs, sent := true, {}, {}, [];
      this.planned, this.platforms, this.takesType := planned, platforms, takesType;
    }

    ghost function Rows(): Db
      reads this
    {
      Db(status, copy, assetIds, variants, rounds, jobs, plans, runs, sent,
         campaignArchived, clientArchived, atWork, planned, platforms, takesType)
    }

    // -------------------------------------------------------------- post status

    /** transitionPost: the conditional update. */
    method TransitionPost(to: PostStatus) returns (moved: bool)
      modifies `status
      ensures moved <==> CanTransition(old(status), to)
      ensures status == if moved then to else old(status)
    {
      moved := status in TransitionsTo(to);
      if moved {
        status := to;
      }
    }

    method SyncPostPublishStatus()
      modifies `status
      ensures Rows() == Sync(old(Rows()))
    {
      if !PublishDriven(status) {
        return;
      }
      var statuses: seq<JobStatus>, unread := [], jobs.Keys;
      while unread != {}
        invariant unread <= jobs.Keys && status == old(status)
        invariant (set s | s in statuses) == set p | p in jobs && p !in unread :: CountedPublishStatus(jobs[p])
        decreases |unread|
      {
        var p :| p in unread;
        ghost var before := statuses;
        statuses := statuses + [CountedPublishStatus(jobs[p])];
        unread := unread - {p};
        assert (set s | s in statuses) == (set s | s in before) + {CountedPublishStatus(jobs[p])};
      }
      StatusForAnyOrder(statuses);
      assert (set s | s in statuses) == CountedStatuses(jobs);
      var target := PostStatusForJobs(statuses);
      if target == status {
        return;
      }
      var moved := TransitionPost(target);
    }

    // -------------------------------------------------------------- rounds

    /** cancelOpenRounds: returns how many rounds it cancelled. */
    method CancelOpenRounds() returns (cancelled: nat)
      modifies `rounds
      ensures rounds == CancelRounds(old(rounds))
      ensures cancelled == 0 <==> !HasReopenable(old(Rows()))
    {
      cancelled := 0;
      for i := 0 to |rounds|
        invariant |rounds| == |old(rounds)|
        invariant forall k :: 0 <= k < i ==> rounds[k] == CancelRounds(old(rounds))[k]
        invariant forall k :: i <= k < |rounds| ==> rounds[k] == old(rounds)[k]
        invariant cancelled == 0 <==> forall k :: 0 <= k < i ==> !Reopenable(old(rounds)[k])
      {
        if rounds[i].walk.status == Pending || rounds[i].walk.status == RoundStatus.Approved {
          rounds := rounds[i := rounds[i].(walk := rounds[i].walk.(status := RoundStatus.Cancelled))];
          cancelled := cancelled + 1;
        }
      }
    }

    method OpenApprovalRound(chain: Chain)
      modifies `rounds
      ensures Rows() == OpenRound(old(Rows()), chain)
    {
      var hash := Content(copy, variants, assetIds);
      rounds := rounds + [Round(ChainState(chain, Pending, 0, []), hash, hash)];
    }

    /** decide and approveAll on one round; `false` when nothing was recorded. */
    method DecideRound(r: nat, actor: Actor, decision: Decision) returns (recorded: bool)
      modifies `rounds, `status, `atWork
      ensures Rows() == Decide(old(Rows()), r, actor, decision)
      ensures !recorded ==> Rows() == old(Rows())
    {
      if r >= |rounds| {
        return false;
      }
      match NextStateAfterDecision(rounds[r].walk, actor, decision)
      case Rejected(_) => return false;
      case Decided(outcome) =>
        var before := rounds;
        var walk := rounds[r].walk;
        walk := walk.(votes := walk.votes + [Vote(outcome.decidedStep, actor, decision)]);
        walk := walk.(status := outcome.status, currentStep := outcome.currentStep);
        rounds := rounds[r := rounds[r].(walk := walk)];
        if outcome.status == Pending {
          return true;
        }
        var to := if outcome.status == RoundStatus.Approved then PostStatus.Approved else PostStatus.ChangesRequested;
        var moved := false;
        if planned || outcome.status == RoundStatus.Approved {
          moved := TransitionPost(to);
        }
        if moved && to == PostStatus.ChangesRequested {
          atWork := true;
        }
        if !moved {
          // the transaction throws: nothing of it stays
          rounds := before;
        }
        return moved;
    }

    // -------------------------------------------------------------- jobs called off

    /** cancelScheduledForPost */
    method CancelScheduledForPost() returns (count: nat)
      modifies `jobs
      ensures jobs == CancelWaiting(old(jobs))
      ensures count == |set p | p in old(jobs) && NotYetOut(old(jobs)[p])|
    {
      var waiting := set p | p in jobs && NotYetOut(jobs[p]);
      jobs := map p | p in jobs :: if p in waiting then jobs[p].(status := JobStatus.Cancelled) else jobs[p];
      count := |waiting|;
    }

    method CancelScheduledWhere()
      modifies `jobs, `status
      ensures Rows() == CallOff(old(Rows()))
    {
      if exists p :: p in jobs && NotYetOut(jobs[p]) {
        var count := CancelScheduledForPost();
        SyncPostPublishStatus();
      }
    }

    /** Content changed: rounds and waiting jobs are called off, and approval starts over. */
    method ReopenApproval(chain: Chain)
      modifies `rounds, `jobs, `status
      requires CanTransition(status, PendingApproval)
      ensures Rows() == Reopen(old(Rows()), chain)
    {
      var cancelled := CancelOpenRounds();
      var count := CancelScheduledForPost();
      var moved := TransitionPost(PendingApproval);
      OpenApprovalRound(chain);
    }

    /** reopenForRevision: back to the agents by way of PENDING_APPROVAL. */
    method SendBackToAgents()
      modifies `rounds, `jobs, `status, `atWork
      requires CanTransition(status, PendingApproval)
      ensures Rows() == ReopenForRevision(old(Rows()))
    {
      var cancelled := CancelOpenRounds();
      var count := CancelScheduledForPost();
      var moved := TransitionPost(PendingApproval);
      moved := TransitionPost(PostStatus.ChangesRequested);
      atWork := true;
    }

    // -------------------------------------------------------------- publisher.schedule

    /** scheduleDue */
    predicate StillDue(round: nat)
      reads this
    {
      status == PostStatus.Approved && !campaignArchived && !clientArchived && |rounds| == round
      && |rounds| > 0 && rounds[|rounds| - 1].walk.status == RoundStatus.Approved
    }

    /** One turn of prepareVariants' loop: the platform's variant created, or rewritten unless its job
        counts (`keeps`). */
    method DeriveVariant(p: Platform, text: Text, keeps: bool) returns (changed: bool)
      modifies `variants
      ensures variants == if p in old(variants) && keeps then old(variants) else old(variants)[p := text]
      ensures changed <==> variants != old(variants)
    {
      if p !in variants || (!keeps && variants[p] != text) {
        variants := variants[p := text];
        assert p !in old(variants) || variants[p] != old(variants)[p];
        return true;
      }
      return false;
    }

    /** The loop. Returns whether any text changed and the platforms that may be put on a slot. */
    method DeriveVariants(copy: Copy) returns (changed: bool, items: set<Platform>)
      modifies `variants
      ensures variants == PreparedVariants(old(Rows()), copy)
      ensures items == set p | p in platforms && p in takesType && !Counts(old(Rows()), p)
      ensures !changed ==> variants == old(variants)
    {
      changed, items := false, {};
      ghost var before := variants;
      ghost var counts := set p | p in jobs && jobs[p].status != JobStatus.Cancelled;
      for i := 0 to |platforms|
        invariant variants.Keys == before.Keys + (set p | p in platforms[..i] && p in takesType)
        invariant forall p :: p in variants ==>
                    variants[p] == if p in before && (p in counts || p !in platforms[..i] || p !in takesType)
                                   then before[p] else VariantCopyOf(copy, p)
        invariant items == set p | p in platforms[..i] && p in takesType && p !in counts
        invariant !changed ==> variants == before
      {
        var p := platforms[i];
        assert platforms[..i + 1] == platforms[..i] + [p];
        if p in takesType {
          var keeps := p in jobs && jobs[p].status != JobStatus.Cancelled;
          var rewritten := DeriveVariant(p, VariantCopyOf(copy, p), keeps);
          changed := changed || rewritten;
          items := if keeps then items else items + {p};
        }
      }
      assert platforms[..|platforms|] == platforms;
    }

    /** prepareVariants: transaction A. */
    method PrepareVariantsIn(round: nat) returns (plan: Option<Plan>)
      modifies `variants, `rounds, `plans
      ensures Rows() == PrepareVariants(old(Rows()), round)
      ensures plan.Some? ==> plan.value in plans
    {
      hide PreparedVariants, Counts, VariantCopyOf;
      if !StillDue(round) || copy.None? {
        return None;
      }
      var hashBefore := Content(copy, variants, assetIds);
      var changed, items := DeriveVariants(copy.value);
      if changed && hashBefore == rounds[round - 1].contentHash {
        rounds := rounds[round - 1 := rounds[round - 1].(contentHash := Content(copy, variants, assetIds))];
      }
      plans := plans + {Plan(round, items)};
      plan := Some(Plan(round, items));
    }

    /** commitSchedule: transaction B, over the plan's items in the order the worker holds them;
        `picked` are the ones that find a slot and an account. */
    method CommitScheduleIn(plan: Plan, items: seq<Platform>, picked: set<Platform>)
      requires plan in plans && plan.platforms == set p | p in items
      modifies `jobs, `status
      ensures Rows() == CommitSchedule(old(Rows()), plan, picked)
    {
      hide Sync, ScheduledJobs;
      if !StillDue(plan.round) {
        return;
      }
      PutOnSlots(plan, items, picked);
      SyncPostPublishStatus();
    }

    method PutOnSlots(plan: Plan, items: seq<Platform>, picked: set<Platform>)
      requires plan.platforms == set p | p in items
      modifies `jobs
      ensures jobs == ScheduledJobs(old(Rows()), plan, picked)
    {
      hide Put, Chosen, ScheduledJobs;
      ghost var db := Rows();
      assert Put(db.jobs, Chosen(db, picked), []) == jobs by { NoTurnYet(db, picked); }
      for i := 0 to |items|
        invariant jobs == Put(db.jobs, Chosen(db, picked), items[..i])
      {
        var p := items[i];
        assert items[..i + 1] == items[..i] + [p];
        PutOne(db, picked, items[..i], p);
        if p in variants && (p !in jobs || jobs[p].status == JobStatus.Cancelled) && p in picked {
          jobs := jobs[p := Job(JobStatus.Scheduled, if p in jobs then jobs[p].attempts + 1 else 0, None)];
        }
      }
      assert items[..|items|] == items;
      PutAll(db, plan, picked, items);
    }

    // -------------------------------------------------------------- publish.run

    method FailJobIn(p: Platform, attempt: nat) returns (failed: bool)
      modifies `jobs, `status
      ensures Rows() == FailJob(old(Rows()), p, attempt)
      ensures failed <==> p in old(jobs) && OnAttempt(old(jobs)[p], attempt)
    {
      failed := p in jobs && OnAttempt(jobs[p], attempt);
      if failed {
        jobs := jobs[p := jobs[p].(status := JobStatus.Failed, attempts := attempt)];
        SyncPostPublishStatus();
      }
    }

    /** refuseIn and holdBackArchivedIn. */
    method RefuseIn(p: Platform, attempt: nat, guard: Guard, chain: Chain)
      requires p in jobs && OnAttempt(jobs[p], attempt)
      modifies `jobs, `status, `rounds, `atWork
      ensures Rows() == Refuse(old(Rows()), p, attempt, guard, chain)
    {
      hide Sync, FailJob, CancelRounds, CancelWaiting, OpenRound, Reopen, ReopenForRevision;
      if guard == TokenGuard || (guard != ArchivedGuard && jobs[p].containerId.Some?) {
        var failed := FailJobIn(p, attempt);
        return;
      }
      ghost var db := Rows();
      jobs := jobs[p := jobs[p].(status := JobStatus.Cancelled)];
      var count := CancelScheduledForPost();
      assert Rows() == db.(jobs := CallOffWith(db.jobs, p));
      var waiting := status == PostStatus.Approved || status == PostStatus.Scheduled;
      if guard != ArchivedGuard && waiting && guard == BannedWordsGuard && planned {
        SendBackToAgents();
      } else if guard != ArchivedGuard && waiting && guard != BannedWordsGuard {
        ReopenApproval(chain);
      } else {
        SyncPostPublishStatus();
      }
    }

    /** checkPublishGuards on this post's rows. */
    method CheckPublishGuards(checks: Checks) returns (failure: Option<Guard>)
      ensures failure == EvaluateGuards(Rows(), checks)
      ensures failure.None? ==>
                && |rounds| > 0 && rounds[|rounds| - 1].walk.status == RoundStatus.Approved
                && rounds[|rounds| - 1].contentHash == CurrentContent(Rows())
    {
      if campaignArchived || clientArchived {
        return Some(ArchivedGuard);
      }
      if |rounds| == 0 || rounds[|rounds| - 1].walk.status != RoundStatus.Approved {
        return Some(ApprovalGuard);
      }
      if rounds[|rounds| - 1].contentHash != Content(copy, variants, assetIds) {
        return Some(ContentHashGuard);
      }
      return if checks.bannedHits then Some(BannedWordsGuard)
             else if checks.tokenFails then Some(TokenGuard) else None;
    }

    /** claim: `true` when the job goes out on this attempt. */
    method ClaimIn(run: Run, checks: Checks, chain: Chain) returns (claimed: bool)
      requires run in runs
      modifies `jobs, `status, `rounds, `sent, `atWork
      ensures Rows() == Claim(old(Rows()), run, checks, chain)
      ensures claimed ==> EvaluateGuards(old(Rows()), checks).None? && |sent| == |old(sent)| + 1
    {
      var p := run.platform;
      if p !in jobs || !OnAttempt(jobs[p], run.attempt) {
        return false;
      }
      var guard := CheckPublishGuards(checks);
      if guard.Some? {
        RefuseIn(p, run.attempt, guard.value, chain);
        return false;
      }
      if !checks.payloadOk {
        var failed := FailJobIn(p, run.attempt);
        return false;
      }
      var queued := jobs[p].status == Queued;
      sent := sent + [Sent(p, run.attempt, |rounds| - 1, CurrentContent(Rows()), !queued)];
      jobs := jobs[p := jobs[p].(status := JobStatus.Publishing, attempts := run.attempt)];
      if queued {
        SyncPostPublishStatus();
      }
      return true;
    }

    /** saveContainer, recordPublished and retryLater; `false` when the attempt is over. */
    method SettleIn(p: Platform, attempt: nat, outcome: Publishing.Outcome) returns (done: bool)
      modifies `jobs, `status, `runs
      ensures Rows() == Settle(old(Rows()), p, attempt, outcome)
      ensures !done ==> Rows() == old(Rows())
    {
      if p !in jobs || jobs[p].status != JobStatus.Publishing || jobs[p].attempts != attempt {
        return false;
      }
      match outcome {
        case Container(c) => jobs := jobs[p := jobs[p].(containerId := Some(c))];
        case Out =>
          jobs := jobs[p := jobs[p].(status := Published)];
          SyncPostPublishStatus();
        case TryAgain =>
          jobs := jobs[p := jobs[p].(status := Queued)];
          SyncPostPublishStatus();
          runs := runs + {Run(p, attempt + 1)};
      }
      return true;
    }

    // -------------------------------------------------------------- tick.publish

    /** queueDue: one update moves every due job, then each is enqueued. */
    method QueueDueIn(due: set<Platform>) returns (queued: nat)
      modifies `jobs, `runs
      ensures Rows() == QueueDue(old(Rows()), due)
      ensures queued == |set p | p in old(jobs) && p in due && old(jobs)[p].status == JobStatus.Scheduled|
    {
      var moved := set p | p in jobs && p in due && jobs[p].status == JobStatus.Scheduled;
      jobs := map p | p in jobs :: if p in moved then jobs[p].(status := Queued) else jobs[p];
      EnqueueRuns(moved);
      assert (set p | p in moved :: NextRun(jobs, p)) == (set p | p in moved :: NextRun(old(jobs), p));
      queued := |moved|;
    }

    /** enqueueRun for each job the update returned. */
    method EnqueueRuns(moved: set<Platform>)
      requires moved <= jobs.Keys
      modifies `runs
      ensures runs == old(runs) + set p | p in moved :: NextRun(jobs, p)
    {
      var toQueue := moved;
      while toQueue != {}
        invariant toQueue <= moved
        invariant runs == old(runs) + set p | p in moved && p !in toQueue :: NextRun(jobs, p)
        decreases |toQueue|
      {
        var p :| p in toQueue;
        runs := runs + {Run(p, jobs[p].attempts + 1)};
        toQueue := toQueue - {p};
      }
    }

    /** redriveQueued: what to do with a QUEUED job depends on its run and on the re-driven one.
        `first` and `sweep` are the queue's answers about them: absent, over, or still to run. */
    method RedriveQueued(p: Platform, first: RunState, sweep: RunState) returns (stalled: bool)
      requires p in jobs && jobs[p].status == Queued
      modifies `jobs, `status, `runs
      ensures var attempt := old(jobs)[p].attempts + 1;
              Rows() == if first == Missing || (first == Over && sweep == Missing) then Redrive(old(Rows()), p)
                        else if first == Over && sweep == Over then FailJob(old(Rows()), p, attempt)
                        else old(Rows())
      ensures stalled ==> first == Over && sweep == Over
    {
      var attempt := jobs[p].attempts + 1;
      if first == Missing {
        runs := runs + {Run(p, attempt)};
        return false;
      }
      if first != Over {
        return false;
      }
      if sweep == Missing {
        runs := runs + {Run(p, attempt)};
        return false;
      }
      if sweep != Over {
        return false;
      }
      stalled := FailJobIn(p, attempt);
    }
  }

  /** What the queue knows of a run's id: nothing, that it will still run, or that it is over. */
  datatype RunState = Missing | Live | Over
}
