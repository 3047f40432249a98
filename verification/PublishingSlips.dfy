/** Runs of the publishing protocol on which something acts on a post it has long left: a stalled run's
    status update, and a late review job's change to the takes. */
module PublishingSlips {
  import opened Options
  import opened ApprovalChain
  import opened PostLifecycle
  import opened Publishing
  import opened PublishingAgreement
  import opened PublishingHistory

  // ---------------------------------------------------------------- runs

  ghost predicate Reaches(db: Db, end: Db) {
    exists steps: seq<Publishing.Step> :: Exec(db, steps) == end
  }

  lemma {:induction false} ExecInTurn(db: Db, steps: seq<Publishing.Step>, last: Publishing.Step)
    ensures Exec(db, steps + [last]) == Next(Exec(db, steps), last)
    decreases |steps|
  {
    hide Next;
    if steps == [] {
      assert steps + [last] == [last] && [last][1..] == [];
    } else {
      ExecInTurn(Next(db, steps[0]), steps[1..], last);
      assert (steps + [last])[1..] == steps[1..] + [last];
    }
  }

  lemma Onward(db: Db, mid: Db, step: Publishing.Step)
    requires Reaches(db, mid)
    ensures Reaches(db, Next(mid, step))
  {
    hide Next;
    var steps: seq<Publishing.Step> :| Exec(db, steps) == mid;
    ExecInTurn(db, steps, step);
  }

  // ---------------------------------------------------------------- a post on two platforms goes out on one

  const CHAIN: Chain := [ApprovalStep("brand", [Admin], [], 1)]
  const ADMIN := Actor("ada", Admin)
  const WORDING := Copy("a", [], [], "")
  const TEXT := Text("a", [])
  const BOTH: set<Platform> := {"fb", "ig"}
  const OPENED_ON := Content(Some(WORDING), map[], {"take"})
  const PREPARED := OPENED_ON.(variants := map["fb" := TEXT, "ig" := TEXT])

  function Walk(status: RoundStatus): ChainState {
    ChainState(CHAIN, status, 0, [Vote(0, ADMIN, Approve)])
  }

  const PLANNED := Db(Idea, None, {}, map[], [], map[], {}, {}, [], false, false, true, true, ["fb", "ig"], BOTH)
  const DRAFTED := PLANNED.(status := Qa, copy := Some(WORDING), assetIds := {"take"})
  const ASKED := DRAFTED.(status := PendingApproval, atWork := false, rounds := [Round(Fresh(CHAIN), OPENED_ON, OPENED_ON)])
  const APPROVED := ASKED.(status := PostStatus.Approved, rounds := [Round(Walk(RoundStatus.Approved), OPENED_ON, OPENED_ON)])
  const READIED := APPROVED.(variants := PREPARED.variants, plans := {Plan(1, BOTH)},
                             rounds := [Round(Walk(RoundStatus.Approved), PREPARED, OPENED_ON)])

  function Going(status: PostStatus, fb: Job, ig: Job): Db {
    READIED.(status := status, jobs := map["fb" := fb, "ig" := ig])
  }

  const WAITING := Job(JobStatus.Scheduled, 0, None)
  const QUEUED := Job(Queued, 0, None)
  const RUNS := {Run("fb", 1), Run("ig", 1)}
  const CLAIM := Sent("ig", 1, 0, PREPARED, false)
  const ON_SLOTS := Going(PostStatus.Scheduled, WAITING, WAITING)
  const DUE := Going(PostStatus.Scheduled, QUEUED, QUEUED).(runs := RUNS)
  const CLAIMED := Going(PostStatus.Publishing, QUEUED, Job(JobStatus.Publishing, 1, None)).(runs := RUNS, sent := [CLAIM])
  const HALF_OUT := Going(PostStatus.Publishing, QUEUED, Job(Published, 1, None)).(runs := RUNS, sent := [CLAIM])
  const HALF_FAILED := Going(PostStatus.Failed, Job(JobStatus.Failed, 1, None), Job(Published, 1, None)).(runs := RUNS, sent := [CLAIM])

  lemma TwoStatuses(fb: Job, ig: Job)
    ensures CountedStatuses(map["fb" := fb, "ig" := ig]) == {CountedPublishStatus(fb), CountedPublishStatus(ig)}
  {
    var jobs: Jobs := map["fb" := fb, "ig" := ig];
    assert jobs["fb"] == fb && jobs["ig"] == ig;
    assert CountedPublishStatus(jobs["fb"]) in CountedStatuses(jobs) && CountedPublishStatus(jobs["ig"]) in CountedStatuses(jobs);
  }

  lemma StatusesOfTwo()
    ensures StatusOf({JobStatus.Scheduled, JobStatus.Scheduled}) == PostStatus.Scheduled
    ensures StatusOf({Queued, JobStatus.Publishing}) == PostStatus.Publishing
    ensures StatusOf({Queued, Published}) == PostStatus.Publishing
    ensures StatusOf({JobStatus.Failed, Published}) == PostStatus.Failed
  {
    assert {JobStatus.Scheduled, JobStatus.Scheduled} - {JobStatus.Cancelled} == {JobStatus.Scheduled};
    assert {Queued, JobStatus.Publishing} - {JobStatus.Cancelled} == {Queued, JobStatus.Publishing};
    assert {Queued, Published} - {JobStatus.Cancelled} == {Queued, Published};
    assert {JobStatus.Failed, Published} - {JobStatus.Cancelled} == {JobStatus.Failed, Published};
    assert JobStatus.Scheduled !in {Published} && Queued !in {Published} && JobStatus.Failed !in {Published};
  }

  lemma IsApproved()
    ensures Next(PLANNED, SAgentWork(Qa, Some(WORDING), {"take"})) == DRAFTED
    ensures Next(DRAFTED, SSendForApproval(CHAIN)) == ASKED
    ensures Next(ASKED, SDecide(0, ADMIN, Approve)) == APPROVED
  {
    assert Approvers([], 0) == {};
    assert Admin in CHAIN[0].approverRoles;
    assert Record(Fresh(CHAIN), ADMIN, Approve) == Walk(RoundStatus.Approved);
  }

  lemma IsReadied()
    ensures Next(APPROVED, SPrepareVariants(1)) == READIED
  {
    var items := set p | p in APPROVED.platforms && p in APPROVED.takesType && !Counts(APPROVED, p);
    assert items == BOTH;
    assert PreparedVariants(APPROVED, WORDING) == PREPARED.variants;
  }

  lemma IsScheduled()
    ensures Next(READIED, SCommitSchedule(Plan(1, BOTH), BOTH)) == ON_SLOTS
  {
    hide StatusOf, CountedStatuses;
    var jobs := ScheduledJobs(READIED, Plan(1, BOTH), BOTH);
    assert jobs == map["fb" := WAITING, "ig" := WAITING];
    TwoStatuses(WAITING, WAITING);
    StatusesOfTwo();
  }

  lemma IsDue()
    ensures Next(ON_SLOTS, SQueueDue(BOTH)) == DUE
  {
    var moved := set p | p in ON_SLOTS.jobs && p in BOTH && ON_SLOTS.jobs[p].status == JobStatus.Scheduled;
    assert moved == BOTH;
    assert (set p | p in moved :: NextRun(ON_SLOTS.jobs, p)) == RUNS;
  }

  lemma IsClaimed()
    ensures Next(DUE, SClaim(Run("ig", 1), Checks(false, false, true), CHAIN)) == CLAIMED
  {
    hide StatusOf, CountedStatuses;
    var job := Job(JobStatus.Publishing, 1, None);
    assert DUE.jobs["ig" := job] == map["fb" := QUEUED, "ig" := job];
    TwoStatuses(QUEUED, job);
    StatusesOfTwo();
  }

  lemma IsHalfOut()
    ensures Next(CLAIMED, SSettle("ig", 1, Out)) == HALF_OUT
  {
    hide StatusOf, CountedStatuses;
    var job := Job(Published, 1, None);
    assert CLAIMED.jobs["ig" := job] == map["fb" := QUEUED, "ig" := job];
    TwoStatuses(QUEUED, job);
    StatusesOfTwo();
  }

  lemma FailingIsAnEdge()
    ensures CanTransition(PostStatus.Publishing, PostStatus.Failed)
  {}

  lemma IsHalfFailed()
    ensures Next(HALF_OUT, SFailJob("fb", 1)) == HALF_FAILED
  {
    hide StatusOf, CountedStatuses;
    var fb, ig := Job(JobStatus.Failed, 1, None), Job(Published, 1, None);
    assert HALF_OUT.jobs["fb" := fb] == map["fb" := fb, "ig" := ig];
    TwoStatuses(fb, ig);
    StatusesOfTwo();
    hide TransitionsTo, CountedPublishStatus;
    assert CanTransition(PostStatus.Publishing, PostStatus.Failed) by { FailingIsAnEdge(); }
  }

  lemma ReachesClaimed()
    ensures Initial(PLANNED) && Reaches(PLANNED, CLAIMED)
  {
    hide Next;
    assert Exec(PLANNED, []) == PLANNED;
    IsApproved();
    Onward(PLANNED, PLANNED, SAgentWork(Qa, Some(WORDING), {"take"}));
    Onward(PLANNED, DRAFTED, SSendForApproval(CHAIN));
    Onward(PLANNED, ASKED, SDecide(0, ADMIN, Approve));
    IsReadied();
    Onward(PLANNED, APPROVED, SPrepareVariants(1));
    IsScheduled();
    Onward(PLANNED, READIED, SCommitSchedule(Plan(1, BOTH), BOTH));
    IsDue();
    Onward(PLANNED, ON_SLOTS, SQueueDue(BOTH));
    IsClaimed();
    Onward(PLANNED, DUE, SClaim(Run("ig", 1), Checks(false, false, true), CHAIN));
  }

  lemma ReachesHalfFailed()
    ensures Initial(PLANNED) && Reaches(PLANNED, HALF_FAILED)
  {
    hide Next, Reaches;
    ReachesClaimed();
    IsHalfOut();
    Onward(PLANNED, CLAIMED, SSettle("ig", 1, Out));
    IsHalfFailed();
    Onward(PLANNED, HALF_OUT, SFailJob("fb", 1));
  }

  // ---------------------------------------------------------------- what goes wrong

  /** One platform is out, the other failed; then a run of the write that stalled since the first draft
      moves the post back to DRAFTING. Its status follows its jobs no more, a platform is out of a post in
      production, and no step takes it out of there again (LandedForGood). */
  lemma ALateRunTakesAPublishedPostBack()
    ensures exists db: Db, mid: Db ::
      && Initial(db) && Reaches(db, mid) && Lands(mid, SEnter(Drafting)) && Agreed(mid)
      && var end := Next(mid, SEnter(Drafting));
         && end.status == Drafting && Landed(end) && !Follows(end)
         && "ig" in end.jobs && end.jobs["ig"].status == Published
  {
    ReachesHalfFailed();
    var end := Next(HALF_FAILED, SEnter(Drafting));
    hide Reaches;
    assert Agreed(HALF_FAILED) by { HalfFailedIsAgreed(); }
    LandingIsFromFailed(HALF_FAILED, SEnter(Drafting));
    assert end.jobs["ig"].status == Published;
  }

  lemma HalfFailedIsAgreed()
    ensures Agreed(HALF_FAILED)
  {
    hide StatusOf, CountedStatuses;
    TwoStatuses(Job(JobStatus.Failed, 1, None), Job(Published, 1, None));
    StatusesOfTwo();
  }

  /** A late review job takes the take away while an attempt is under way: the poll that finishes it builds
      its payload from a post the guard never passed. */
  lemma ALateReviewChangesWhatAPollSends()
    ensures exists db: Db, mid: Db, drift: Publishing.Step ::
      && Initial(db) && Reaches(db, mid) && DriftsUnderWay(mid, drift) && drift.copy == mid.copy
      && var end := Next(mid, drift);
         && |end.sent| == 1 && Holds(end, 0) && "ig" in end.jobs && end.jobs["ig"].status == JobStatus.Publishing
         && end.sent[0].content != CurrentContent(end)
  {
    ReachesClaimed();
    var drift := SDrift(Some(WORDING), {});
    hide Reaches;
    assert Holds(CLAIMED, 0);
    assert "take" in CLAIMED.assetIds;
    assert DriftsUnderWay(CLAIMED, drift);
    var end := Next(CLAIMED, drift);
    assert "take" in end.sent[0].content.assetIds && "take" !in CurrentContent(end).assetIds;
  }
}
