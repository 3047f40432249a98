/** Post statuses, the edges between them (apps/api/src/orchestrator/post-status.ts) and the status
    a post's publish jobs give it (apps/api/src/orchestrator/publishing.ts). */
module PostLifecycle {
  import opened Options

  datatype PostStatus =
    | Idea | Drafting | Visualizing | Adapting | Qa
    | PendingApproval | ChangesRequested
    | Approved | Scheduled | Publishing | Live | Scored | Failed

  /** POST_TRANSITIONS: the statuses a post may move to `to` from. */
  function TransitionsTo(to: PostStatus): set<PostStatus> {
    match to
    case Idea => {}
    case Drafting => {Idea, Drafting, ChangesRequested, Qa, PostStatus.Failed}
    case Visualizing => {Idea, Drafting, Visualizing, ChangesRequested, Qa, PostStatus.Failed}
    case Adapting => {Drafting, Visualizing, Adapting, ChangesRequested, Qa, PostStatus.Failed}
    case Qa => {Drafting, Visualizing, Adapting, Qa, PostStatus.Failed}
    case PendingApproval => {Qa, PendingApproval, PostStatus.Approved, PostStatus.Scheduled}
    case ChangesRequested => {PendingApproval}
    case Approved => {PendingApproval, PostStatus.Scheduled, PostStatus.Publishing, PostStatus.Failed}
    case Scheduled => {PostStatus.Approved, PostStatus.Scheduled, PostStatus.Publishing, PostStatus.Failed}
    case Publishing => {PostStatus.Scheduled, PostStatus.Publishing, PostStatus.Failed, Live}
    case Live => {PostStatus.Publishing, PostStatus.Failed}
    case Scored => {Live, Scored}
    case Failed => {Idea, Drafting, Visualizing, Adapting, Qa,
                    PostStatus.Approved, PostStatus.Scheduled, PostStatus.Publishing}
  }

  predicate CanTransition(from: PostStatus, to: PostStatus) {
    from in TransitionsTo(to)
  }

  /** Statuses the agents work in, before a round opens or after one sent the post back. */
  predicate InProduction(status: PostStatus) {
    status in {Idea, Drafting, Visualizing, Adapting, Qa, PostStatus.ChangesRequested}
  }

  /** PUBLISH_DRIVEN_STATUSES */
  predicate PublishDriven(status: PostStatus) {
    status in {PostStatus.Approved, PostStatus.Scheduled, PostStatus.Publishing, Live, PostStatus.Failed}
  }

  /** COPY_EDITABLE_STATUSES, which are also the statuses a visual revision may start from. */
  predicate WaitsOrApproved(status: PostStatus) {
    status in {PendingApproval, PostStatus.Approved, PostStatus.Scheduled}
  }

  /** FROZEN_POST_STATUSES */
  predicate Frozen(status: PostStatus) {
    status in {PostStatus.Publishing, Live, Scored, PostStatus.Failed}
  }

  // ---------------------------------------------------------------- publish jobs

  type Platform = string

  datatype JobStatus = Scheduled | Queued | Publishing | Published | Failed | Cancelled

  /** A PublishJob row: what of it decides how it moves. */
  datatype Job = Job(status: JobStatus, attempts: nat, containerId: Option<string>)

  function CountedPublishStatus(job: Job): JobStatus {
    if job.status == Queued && job.containerId.Some? then JobStatus.Publishing else job.status
  }

  /** NOT_YET_OUT */
  predicate NotYetOut(job: Job) {
    (job.status == JobStatus.Scheduled || job.status == Queued) && job.containerId.None?
  }

  function Active(statuses: seq<JobStatus>): seq<JobStatus> {
    if statuses == [] then []
    else (if statuses[0] != JobStatus.Cancelled then [statuses[0]] else []) + Active(statuses[1..])
  }

  function PostStatusForJobs(statuses: seq<JobStatus>): PostStatus {
    var active := Active(statuses);
    if active == [] then PostStatus.Approved
    else if forall s | s in active :: s == Published then Live
    else if JobStatus.Failed in active then PostStatus.Failed
    else if exists s | s in active :: s == JobStatus.Publishing || s == Published then PostStatus.Publishing
    else PostStatus.Scheduled
  }

  /** The same decision on the set of statuses that occur: order and repetition don't matter. */
  function StatusOf(present: set<JobStatus>): PostStatus {
    var active := present - {JobStatus.Cancelled};
    if active == {} then PostStatus.Approved
    else if active == {Published} then Live
    else if JobStatus.Failed in active then PostStatus.Failed
    else if JobStatus.Publishing in active || Published in active then PostStatus.Publishing
    else PostStatus.Scheduled
  }

  lemma {:induction false} ActiveMembers(statuses: seq<JobStatus>)
    ensures forall s :: s in Active(statuses) <==> s in statuses && s != JobStatus.Cancelled
  {
    if statuses != [] {
      ActiveMembers(statuses[1..]);
      assert statuses == [statuses[0]] + statuses[1..];
    }
  }

  lemma StatusForAnyOrder(statuses: seq<JobStatus>)
    ensures PostStatusForJobs(statuses) == StatusOf(set s | s in statuses)
  {
    ActiveMembers(statuses);
    var active := Active(statuses);
    var present := (set s | s in statuses) - {JobStatus.Cancelled};
    assert forall s :: s in active <==> s in present;
    if active != [] {
      assert active[0] in present;
      if forall s | s in active :: s == Published {
        assert present == {Published};
      }
    }
  }

  type Jobs = map<Platform, Job>

  function CountedStatuses(jobs: Jobs): set<JobStatus> {
    set p | p in jobs :: CountedPublishStatus(jobs[p])
  }

  function StatusOfJobs(jobs: Jobs): PostStatus {
    StatusOf(CountedStatuses(jobs))
  }

  /** Every way one job's counted status changes, whoever changes it. */
  predicate JobStep(from: JobStatus, to: JobStatus) {
    match from
    case Scheduled => to in {JobStatus.Scheduled, Queued, JobStatus.Cancelled}
    case Queued => to in {Queued, JobStatus.Publishing, JobStatus.Failed, JobStatus.Cancelled}
    case Publishing => to != JobStatus.Scheduled
    case Published => to == Published
    case Failed => to in {JobStatus.Failed, Queued, JobStatus.Publishing, JobStatus.Cancelled}
    case Cancelled => to in {JobStatus.Cancelled, JobStatus.Scheduled}
  }

  lemma EdgeForSets(rest: set<JobStatus>, from: JobStatus, to: JobStatus)
    requires JobStep(from, to)
    ensures StatusOf(rest + {from}) == StatusOf(rest + {to})
         || CanTransition(StatusOf(rest + {from}), StatusOf(rest + {to}))
  {
    var x, y := rest + {from} - {JobStatus.Cancelled}, rest + {to} - {JobStatus.Cancelled};
    assert from in rest + {from} && to in rest + {to};
    if y == {} || y == {Published} || x == {} || x == {Published} {
      assert from in x || from == JobStatus.Cancelled;
      assert to in y || to == JobStatus.Cancelled;
      assert forall s :: s in rest && s != JobStatus.Cancelled ==> s in x && s in y;
    }
  }

  /** One job's step, whatever the post's other platforms are doing, needs only an edge the table
      has; so bringing the post in line never silently does nothing. */
  lemma JobStepHasEdge(jobs: Jobs, p: Platform, job: Job)
    requires p in jobs ==> JobStep(CountedPublishStatus(jobs[p]), CountedPublishStatus(job))
    requires p !in jobs ==> job.status == JobStatus.Scheduled
    ensures StatusOfJobs(jobs[p := job]) == StatusOfJobs(jobs)
         || CanTransition(StatusOfJobs(jobs), StatusOfJobs(jobs[p := job]))
  {
    var rest := set q | q in jobs && q != p :: CountedPublishStatus(jobs[q]);
    var to := CountedPublishStatus(job);
    var after := jobs[p := job];
    assert CountedStatuses(after) == rest + {to} by {
      assert after[p] == job;
      forall s | s in rest ensures s in CountedStatuses(after) {
        var q :| q in jobs && q != p && CountedPublishStatus(jobs[q]) == s;
        assert after[q] == jobs[q];
      }
    }
    if p in jobs {
      assert CountedStatuses(jobs) == rest + {CountedPublishStatus(jobs[p])};
      EdgeForSets(rest, CountedPublishStatus(jobs[p]), to);
    } else {
      assert CountedStatuses(jobs) == rest;
      EdgeForSets(rest, JobStatus.Cancelled, to);
      assert StatusOf(rest) == StatusOf(rest + {JobStatus.Cancelled}) by {
        assert rest - {JobStatus.Cancelled} == rest + {JobStatus.Cancelled} - {JobStatus.Cancelled};
      }
    }
  }

  /** cancelScheduledForPost: every job that is not yet out is called off, no other is touched. */
  function CancelWaiting(jobs: Jobs): Jobs {
    map p | p in jobs :: if NotYetOut(jobs[p]) then jobs[p].(status := JobStatus.Cancelled) else jobs[p]
  }

  /** Calling off one job that may be under way, and every waiting one with it. */
  function CallOffWith(jobs: Jobs, p: Platform): Jobs
    requires p in jobs
  {
    CancelWaiting(jobs[p := jobs[p].(status := JobStatus.Cancelled)])
  }

  lemma EdgeForCallOff(before: set<JobStatus>, after: set<JobStatus>)
    requires Published in before <==> Published in after
    requires JobStatus.Failed in before <==> JobStatus.Failed in after
    requires JobStatus.Publishing in after ==> JobStatus.Publishing in before
    requires JobStatus.Scheduled !in after && Queued !in after
    ensures StatusOf(after) == StatusOf(before) || CanTransition(StatusOf(before), StatusOf(after))
  {
    var x, y := before - {JobStatus.Cancelled}, after - {JobStatus.Cancelled};
    assert Published in x <==> Published in before;
    assert JobStatus.Failed in x <==> JobStatus.Failed in before;
    assert Published in y <==> Published in after;
    assert JobStatus.Failed in y <==> JobStatus.Failed in after;
    if JobStatus.Failed !in before && JobStatus.Publishing !in after {
      forall s | s in y ensures s == Published {
        assert s in after && s != JobStatus.Cancelled;
        match s
        case _ =>
      }
      assert y == if Published in after then {Published} else {};
    }
  }

  lemma CancelWaitingHasEdge(jobs: Jobs)
    requires forall p :: p in jobs && jobs[p].status == JobStatus.Scheduled ==> jobs[p].containerId.None?
    ensures StatusOfJobs(CancelWaiting(jobs)) == StatusOfJobs(jobs)
         || CanTransition(StatusOfJobs(jobs), StatusOfJobs(CancelWaiting(jobs)))
  {
    var after := CancelWaiting(jobs);
    forall p | p in jobs && !NotYetOut(jobs[p])
      ensures CountedPublishStatus(jobs[p]) in CountedStatuses(after)
    {
      assert after[p] == jobs[p];
    }
    forall p | p in after && after[p].status != JobStatus.Cancelled
      ensures CountedPublishStatus(after[p]) in CountedStatuses(jobs)
    {
      assert after[p] == jobs[p];
    }
    EdgeForCallOff(CountedStatuses(jobs), CountedStatuses(after));
  }

  lemma CallOffWithHasEdge(jobs: Jobs, p: Platform)
    requires p in jobs && CountedPublishStatus(jobs[p]) !in {Published, JobStatus.Failed}
    requires forall q :: q in jobs && jobs[q].status == JobStatus.Scheduled ==> jobs[q].containerId.None?
    ensures StatusOfJobs(CallOffWith(jobs, p)) == StatusOfJobs(jobs)
         || CanTransition(StatusOfJobs(jobs), StatusOfJobs(CallOffWith(jobs, p)))
  {
    var after := CallOffWith(jobs, p);
    forall q | q in jobs && q != p && !NotYetOut(jobs[q])
      ensures CountedPublishStatus(jobs[q]) in CountedStatuses(after)
    {
      assert after[q] == jobs[q];
    }
    forall q | q in after && after[q].status != JobStatus.Cancelled
      ensures CountedPublishStatus(after[q]) in CountedStatuses(jobs)
    {
      assert after[q] == jobs[q];
    }
    EdgeForCallOff(CountedStatuses(jobs), CountedStatuses(after));
  }

  /** A post whose jobs are all waiting or called off has nothing left once they are called off. */
  lemma CancelWaitingCallsAllOff(jobs: Jobs)
    requires StatusOfJobs(jobs) in {PostStatus.Approved, PostStatus.Scheduled}
    requires forall p :: p in jobs && jobs[p].status == JobStatus.Scheduled ==> jobs[p].containerId.None?
    ensures forall p :: p in jobs ==> CancelWaiting(jobs)[p].status == JobStatus.Cancelled
  {
    forall p | p in jobs ensures CancelWaiting(jobs)[p].status == JobStatus.Cancelled {
      assert CountedPublishStatus(jobs[p]) in CountedStatuses(jobs);
    }
  }

  // ---------------------------------------------------------------- what the table and the jobs' status say

  /** Where a post may go from each status. */
  lemma WhereAPostMayGo(to: PostStatus)
    ensures CanTransition(Idea, to) <==> to in {Drafting, Visualizing, PostStatus.Failed}
    ensures CanTransition(Drafting, to) <==> to in {Drafting, Visualizing, Adapting, Qa, PostStatus.Failed}
    ensures CanTransition(Visualizing, to) <==> to in {Visualizing, Adapting, Qa, PostStatus.Failed}
    ensures CanTransition(Adapting, to) <==> to in {Adapting, Qa, PostStatus.Failed}
    ensures CanTransition(Qa, to) <==> to in {Drafting, Visualizing, Adapting, Qa, PendingApproval, PostStatus.Failed}
    ensures CanTransition(PendingApproval, to) <==> to in {PendingApproval, ChangesRequested, PostStatus.Approved}
    ensures CanTransition(ChangesRequested, to) <==> to in {Drafting, Visualizing, Adapting}
    ensures CanTransition(PostStatus.Approved, to) <==> to in {PendingApproval, PostStatus.Scheduled, PostStatus.Failed}
    ensures CanTransition(PostStatus.Scheduled, to)
       <==> to in {PendingApproval, PostStatus.Approved, PostStatus.Scheduled, PostStatus.Publishing, PostStatus.Failed}
    ensures CanTransition(PostStatus.Publishing, to)
       <==> to in {PostStatus.Approved, PostStatus.Scheduled, PostStatus.Publishing, Live, PostStatus.Failed}
    ensures CanTransition(Live, to) <==> to in {PostStatus.Publishing, Scored}
    ensures CanTransition(Scored, to) <==> to == Scored
    ensures CanTransition(PostStatus.Failed, to)
       <==> to in {Drafting, Visualizing, Adapting, Qa, PostStatus.Approved, PostStatus.Scheduled, PostStatus.Publishing, Live}
  {
  }

  /** What the status of a post says of its jobs' statuses, in any order and number. */
  lemma StatusTellsTheStatuses(statuses: seq<JobStatus>)
    ensures PostStatusForJobs(statuses) == PostStatus.Approved <==> forall i :: 0 <= i < |statuses| ==> statuses[i] == JobStatus.Cancelled
    ensures PostStatusForJobs(statuses) == PostStatus.Failed <==> JobStatus.Failed in statuses
    ensures PostStatusForJobs(statuses) == Live
       <==> Published in statuses && forall i :: 0 <= i < |statuses| ==> statuses[i] == Published || statuses[i] == JobStatus.Cancelled
    ensures PostStatusForJobs(statuses) == PostStatus.Publishing
       <==> && JobStatus.Failed !in statuses
            && (JobStatus.Publishing in statuses
                || (Published in statuses && (JobStatus.Scheduled in statuses || Queued in statuses)))
    ensures PostStatusForJobs(statuses) == PostStatus.Scheduled
       <==> && JobStatus.Failed !in statuses && JobStatus.Publishing !in statuses && Published !in statuses
            && (JobStatus.Scheduled in statuses || Queued in statuses)
  {
    ActiveMembers(statuses);
    var active := Active(statuses);
    if active != [] {
      assert active[0] in active && active[0] in statuses;
    }
    forall i | 0 <= i < |statuses| && statuses[i] != JobStatus.Cancelled ensures statuses[i] in active {}
    hide Active;
    if active != [] && !(forall s | s in active :: s == Published) {
      var s :| s in active && s != Published;
      assert s in statuses;
    }
  }

  /** The same of the rows, where a QUEUED job that holds a container counts as going out. */
  lemma StatusTellsTheRows(jobs: Jobs)
    ensures StatusOfJobs(jobs) == PostStatus.Approved <==> forall p :: p in jobs ==> jobs[p].status == JobStatus.Cancelled
    ensures StatusOfJobs(jobs) == PostStatus.Failed <==> exists p :: p in jobs && jobs[p].status == JobStatus.Failed
    ensures StatusOfJobs(jobs) == Live
       <==> && (exists p :: p in jobs && jobs[p].status == Published)
            && (forall p :: p in jobs ==> jobs[p].status == Published || jobs[p].status == JobStatus.Cancelled)
    ensures StatusOfJobs(jobs) == PostStatus.Scheduled
       <==> && (forall p :: p in jobs ==> jobs[p].status == JobStatus.Scheduled || jobs[p].status == JobStatus.Cancelled
                                          || (jobs[p].status == Queued && jobs[p].containerId.None?))
            && (exists p :: p in jobs && jobs[p].status != JobStatus.Cancelled)
    ensures StatusOfJobs(jobs) in {PostStatus.Approved, PostStatus.Failed, Live, PostStatus.Scheduled, PostStatus.Publishing}
  {
    var counted := CountedStatuses(jobs);
    forall p | p in jobs ensures CountedPublishStatus(jobs[p]) in counted {}
    StatusTellsThePresent(counted);
    hide StatusOf, CountedStatuses;
    if forall p :: p in jobs ==> jobs[p].status == JobStatus.Cancelled {
      assert forall s :: s in counted ==> s == JobStatus.Cancelled;
    }
  }

  lemma StatusTellsThePresent(present: set<JobStatus>)
    ensures StatusOf(present) == PostStatus.Approved <==> forall s :: s in present ==> s == JobStatus.Cancelled
    ensures StatusOf(present) == PostStatus.Failed <==> JobStatus.Failed in present
    ensures StatusOf(present) == Live <==> Published in present && forall s :: s in present ==> s == Published || s == JobStatus.Cancelled
    ensures StatusOf(present) == PostStatus.Scheduled
       <==> && (exists s :: s in present && s != JobStatus.Cancelled)
            && forall s :: s in present ==> s == JobStatus.Scheduled || s == Queued || s == JobStatus.Cancelled
  {
    var active := present - {JobStatus.Cancelled};
    assert forall s :: s in active <==> s in present && s != JobStatus.Cancelled;
    if Published in present && forall s :: s in present ==> s == Published || s == JobStatus.Cancelled {
      assert active == {Published};
    }
    if active == {Published} {
      assert Published in active;
    }
    if active != {} {
      var s :| s in active;
    }
    if StatusOf(present) == PostStatus.Scheduled {
      forall s | s in present ensures s == JobStatus.Scheduled || s == Queued || s == JobStatus.Cancelled {
        match s
        case _ =>
      }
    }
  }
}
