/** A direct task never waits for nothing: one that is WAITING is settled, or the sweep moves it
    (apps/api/src/orchestrator/visual-sweep.ts, take-completion.ts). */
module TakeProgress {
  import opened Options
  import opened Takes
  import opened TakeLineages
  import G = LiveGraph

  // ---------------------------------------------------------------- the invariant

  predicate Accepted(take: Take) {
    take.status == Ready && take.review.Some? && take.review.value.verdict == Accept
  }

  predicate Trial(take: Take, no: TaskNo) {
    Of(take, no) && take.onTrial && !take.isCurrent
  }

  /** Nothing more will come of the take on its own. */
  predicate Spent(take: Take) {
    take.status == TakeStatus.Failed || take.status == Rejected || Accepted(take)
  }

  predicate HasCurrent(takes: TakeRows, no: TaskNo) {
    exists t :: 0 <= t < |takes| && Of(takes[t], no) && takes[t].isCurrent
  }

  predicate Newest(takes: TakeRows, no: TaskNo, t: TakeId) {
    t < |takes| && Trial(takes[t], no) && forall u :: t < u < |takes| ==> !Trial(takes[u], no)
  }

  /** Neither judged weak and replaced, nor still to be directed. */
  predicate Alive(take: Take) {
    !(take.status == Rejected && take.review.Some?) && !(take.status == Queued && take.pendingDirection)
  }

  /** The newest trial take is under way, failed, or waits for its verdict to be acted on. */
  predicate LiveTrial(takes: TakeRows, no: TaskNo) {
    exists t :: 0 <= t < |takes| && Newest(takes, no, t) && Alive(takes[t])
  }

  /** A take the review accepted is on show or about to be. */
  predicate AcceptedLive(takes: TakeRows, no: TaskNo) {
    exists t :: 0 <= t < |takes| && Of(takes[t], no) && Accepted(takes[t]) && (takes[t].isCurrent || takes[t].onTrial)
  }

  /** A task that works on a Vault take: one lineage, only its newest trial take still open, and what
      left its trial accepted. */
  ghost predicate VaultShape(takes: TakeRows, no: TaskNo) {
    && (forall t, u :: 0 <= t < |takes| && 0 <= u < |takes| && Of(takes[t], no) && Of(takes[u], no) ==> takes[t].root == takes[u].root)
    && (forall t :: 0 <= t < |takes| && Of(takes[t], no) ==>
          (takes[t].isCurrent ==> !takes[t].onTrial) && (!takes[t].onTrial ==> Accepted(takes[t])))
    && (forall t, u :: 0 <= t < u < |takes| && Trial(takes[t], no) && Trial(takes[u], no) ==> Spent(takes[t]))
  }

  predicate VaultWaits(takes: TakeRows, no: TaskNo) {
    AcceptedLive(takes, no) || LiveTrial(takes, no)
  }

  /** A task that plans a shot list: its takes are never on trial. */
  ghost predicate DirectShape(takes: TakeRows, no: TaskNo) {
    forall t :: 0 <= t < |takes| && Of(takes[t], no) ==> !takes[t].onTrial && !takes[t].pendingDirection
  }

  /** While it waits some take is on show, each still to come, accepted, or failed without a review. */
  predicate DirectWaits(takes: TakeRows, no: TaskNo) {
    && HasCurrent(takes, no)
    && forall t :: 0 <= t < |takes| && Of(takes[t], no) && takes[t].isCurrent ==> !(takes[t].status == Rejected && takes[t].review.Some?)
  }

  ghost predicate TaskFits(takes: TakeRows, no: TaskNo, waiting: bool) {
    if HasVaultTake(takes, no) then VaultShape(takes, no) && (waiting ==> VaultWaits(takes, no))
    else DirectShape(takes, no) && (waiting ==> DirectWaits(takes, no))
  }

  ghost predicate Moving(s: State) {
    s.tasks != [] && s.tasks[|s.tasks| - 1] != G.Succeeded
    ==> TaskFits(s.takes, |s.tasks| - 1, s.tasks[|s.tasks| - 1] == G.Waiting)
  }

  // ---------------------------------------------------------------- what the sweep moves

  /** The take the sweep finds in the loop and acts on. */
  ghost predicate Redriven(takes: TakeRows, no: TaskNo, t: TakeId) {
    t < |takes| && Of(takes[t], no) && InTheLoop(takes[t]) && RedriveActs(takes[t])
  }

  /** Something the sweep does for a WAITING task that has no live job. */
  ghost predicate SweepMoves(takes: TakeRows, no: TaskNo) {
    Settled(takes, no) || (exists t: TakeId :: Redriven(takes, no, t)) || (exists t: TakeId :: Blocking(takes, no, t))
  }

  lemma {:induction false} FindNewest(takes: TakeRows, no: TaskNo, upTo: nat) returns (t: TakeId)
    requires upTo <= |takes| && exists u :: 0 <= u < upTo && Trial(takes[u], no)
    ensures t < upTo && Trial(takes[t], no) && forall u :: t < u < upTo ==> !Trial(takes[u], no)
    decreases upTo
  {
    if Trial(takes[upTo - 1], no) {
      t := upTo - 1;
    } else {
      t := FindNewest(takes, no, upTo - 1);
    }
  }

  lemma NewestHasNewestVersion(takes: TakeRows, no: TaskNo, t: TakeId)
    requires Lineages(takes) && Newest(takes, no, t)
    ensures NewestTrial(takes, no, t)
  {
    forall u | 0 <= u < |takes| && Trial(takes[u], no) && takes[u].root == takes[t].root
      ensures takes[u].version <= takes[t].version
    {
      assert LineageFits(takes, t);
    }
  }

  lemma LaterIsNewer(takes: TakeRows, t: TakeId, u: TakeId)
    requires Lineages(takes) && t < u < |takes| && takes[t].root == takes[u].root
    ensures takes[t].version < takes[u].version
  {
    assert LineageFits(takes, u);
  }

  /** In one lineage the trial take of the newest version is the newest row. */
  lemma NewestVersionIsNewest(takes: TakeRows, no: TaskNo, t: TakeId)
    requires Lineages(takes) && VaultShape(takes, no) && NewestTrial(takes, no, t)
    ensures Newest(takes, no, t)
  {
    forall u | t < u < |takes| ensures !Trial(takes[u], no) {
      if Trial(takes[u], no) {
        LaterIsNewer(takes, t, u);
      }
    }
  }

  lemma DirectMoves(takes: TakeRows, no: TaskNo)
    requires DirectShape(takes, no) && DirectWaits(takes, no)
    ensures SweepMoves(takes, no)
  {
    if forall t :: 0 <= t < |takes| && Of(takes[t], no) && takes[t].isCurrent ==> Accepted(takes[t]) {
      assert Settled(takes, no);
    } else {
      var t :| 0 <= t < |takes| && Of(takes[t], no) && takes[t].isCurrent && !Accepted(takes[t]);
      assert Redriven(takes, no, t) || Blocking(takes, no, t);
    }
  }

  lemma VaultMoves(takes: TakeRows, no: TaskNo)
    requires Lineages(takes) && VaultShape(takes, no) && VaultWaits(takes, no)
    ensures SweepMoves(takes, no)
  {
    if HasCurrent(takes, no) {
      assert Settled(takes, no);
    } else if AcceptedLive(takes, no) {
      var t :| 0 <= t < |takes| && Of(takes[t], no) && Accepted(takes[t]) && (takes[t].isCurrent || takes[t].onTrial);
      assert Redriven(takes, no, t);
    } else {
      var t :| 0 <= t < |takes| && Newest(takes, no, t) && Alive(takes[t]);
      NewestHasNewestVersion(takes, no, t);
      assert Redriven(takes, no, t) || Blocking(takes, no, t);
    }
  }

  lemma OpenTrialIsNewest(takes: TakeRows, no: TaskNo, t: TakeId)
    requires VaultShape(takes, no) && t < |takes| && Of(takes[t], no) && !Spent(takes[t])
    ensures Newest(takes, no, t)
  {
    forall u | t < u < |takes| ensures !Trial(takes[u], no) {}
  }

  /** The sweep moves a task that works on a Vault take exactly when an accepted take of it is on show or
      on trial, or its newest trial take is neither replaced nor still to be directed. */
  lemma VaultMovesExactly(takes: TakeRows, no: TaskNo)
    requires Lineages(takes) && VaultShape(takes, no)
    ensures SweepMoves(takes, no) <==> VaultWaits(takes, no)
  {
    if VaultWaits(takes, no) {
      VaultMoves(takes, no);
    }
    hide VaultWaits, VaultShape, Lineages;
    if SweepMoves(takes, no) {
      MovedMeansWaits(takes, no);
    }
  }

  lemma MovedMeansWaits(takes: TakeRows, no: TaskNo)
    requires Lineages(takes) && VaultShape(takes, no) && SweepMoves(takes, no)
    ensures VaultWaits(takes, no)
  {
    if Settled(takes, no) {
      var t :| 0 <= t < |takes| && Of(takes[t], no) && takes[t].isCurrent;
      assert Accepted(takes[t]);
    } else if exists t: TakeId :: Redriven(takes, no, t) {
      var t: TakeId :| Redriven(takes, no, t);
      if !Accepted(takes[t]) {
        OpenTrialIsNewest(takes, no, t);
      }
    } else {
      var t: TakeId :| Blocking(takes, no, t);
      if !takes[t].isCurrent {
        NewestVersionIsNewest(takes, no, t);
      }
    }
  }

  // ---------------------------------------------------------------- what is asked of a run

  /** Showing a take of an earlier task leaves a WAITING one something to wait on: a take on show in
      another place or, for a Vault regenerate, a trial that goes on. */
  predicate StillWaits(takes: TakeRows, no: TaskNo, t: TakeId)
    requires t < |takes|
  {
    AcceptedElsewhere(takes, no, t) || LiveTrial(takes, no)
  }

  predicate AcceptedElsewhere(takes: TakeRows, no: TaskNo, t: TakeId)
    requires t < |takes|
  {
    || (exists v :: 0 <= v < |takes| && Of(takes[v], no) && takes[v].isCurrent && takes[v].place != takes[t].place)
    || (exists v :: 0 <= v < |takes| && Of(takes[v], no) && Accepted(takes[v]) && takes[v].onTrial)
  }

  /** What a transaction on something read earlier needs for a WAITING task to have something to wait on;
      each condition is exact (ShowingKeepsWaitingExactly, RedirectingKeepsWaitingExactly and
      VaultMovesExactly). */
  ghost predicate Attended(s: State, step: Step) {
    match step
    case SActOnReview(t, onTrial, _) =>
      Promotes(s, t, onTrial) && s.tasks != [] && s.tasks[|s.tasks| - 1] == G.Waiting && !Of(s.takes[t], |s.tasks| - 1)
      ==> StillWaits(s.takes, |s.tasks| - 1, t)
    case SRedirectVault(no, last) => NoneQueued(no, last) in s.noted && TaskIs(s, no, G.Waiting) ==> AcceptedLive(s.takes, no)
    case SResumeVault(t) =>
      AlreadyDirected(t) in s.noted && t < |s.takes| && s.takes[t].task.Some? && TaskIs(s, s.takes[t].task.value, G.Running)
      ==> VaultWaits(s.takes, s.takes[t].task.value)
    case _ => true
  }

  /** A shot list has a shot, and one per place. */
  ghost predicate HasShots(step: Step) {
    step.SPlanShots? ==> step.shots != [] && Distinct(step.shots)
  }

  ghost predicate AllShots(steps: seq<Step>) {
    forall step :: step in steps ==> HasShots(step)
  }

  ghost predicate AllAttended(s: State, steps: seq<Step>)
    decreases |steps|
  {
    steps == [] || (Attended(s, steps[0]) && AllAttended(Next(s, steps[0]), steps[1..]))
  }

  // ---------------------------------------------------------------- one row changes

  /** Rows that differ in status, file, review and direction only. */
  ghost predicate SameKinds(before: TakeRows, after: TakeRows) {
    |after| == |before| && forall i :: 0 <= i < |before| ==>
      after[i] == before[i].(status := after[i].status, file := after[i].file, review := after[i].review,
                             pendingDirection := after[i].pendingDirection)
  }

  /** A take that is still open changes its status, its file, its review or its direction. */
  ghost predicate OpenChange(before: Take, after: Take) {
    && before.review.None? && !Spent(before)
    && after == before.(status := after.status, file := after.file, review := after.review, pendingDirection := after.pendingDirection)
    && (after.status == Rejected ==> after.review.None?)
    && (after.pendingDirection ==> before.pendingDirection)
    && (after.pendingDirection && after.status == Queued ==> before.status == Queued)
  }

  lemma SameKindsSameMarks(before: TakeRows, after: TakeRows, no: TaskNo)
    requires SameKinds(before, after)
    ensures HasVaultTake(after, no) <==> HasVaultTake(before, no)
    ensures HasCurrent(after, no) <==> HasCurrent(before, no)
    ensures forall i: TakeId :: Newest(after, no, i) <==> Newest(before, no, i)
  {
    assert forall i :: 0 <= i < |before| ==> Of(after[i], no) == Of(before[i], no) && Trial(after[i], no) == Trial(before[i], no)
                                             && after[i].isCurrent == before[i].isCurrent && after[i].origin == before[i].origin;
  }

  lemma OpenVaultRow(takes: TakeRows, no: TaskNo, t: TakeId, take: Take)
    requires VaultShape(takes, no) && t < |takes| && OpenChange(takes[t], take)
    ensures VaultShape(takes[t := take], no)
    ensures VaultWaits(takes, no) ==> VaultWaits(takes[t := take], no)
  {
    var after := takes[t := take];
    SameKindsSameMarks(takes, after, no);
    hide Newest, HasVaultTake, HasCurrent;
    assert forall i :: 0 <= i < |takes| ==> Of(after[i], no) == Of(takes[i], no) && Trial(after[i], no) == Trial(takes[i], no);
    if AcceptedLive(takes, no) {
      var i :| 0 <= i < |takes| && Of(takes[i], no) && Accepted(takes[i]) && (takes[i].isCurrent || takes[i].onTrial);
      assert i != t && after[i] == takes[i];
    } else if LiveTrial(takes, no) {
      var i :| 0 <= i < |takes| && Newest(takes, no, i) && Alive(takes[i]);
      assert Newest(after, no, i) && Alive(after[i]);
    }
  }

  lemma OpenDirectRow(takes: TakeRows, no: TaskNo, t: TakeId, take: Take)
    requires DirectShape(takes, no) && t < |takes| && OpenChange(takes[t], take)
    ensures DirectShape(takes[t := take], no)
    ensures DirectWaits(takes, no) ==> DirectWaits(takes[t := take], no)
  {
    SameKindsSameMarks(takes, takes[t := take], no);
    hide HasCurrent;
  }

  lemma OpenRowMoves(s: State, t: TakeId, take: Take)
    requires Moving(s) && t < |s.takes| && OpenChange(s.takes[t], take)
    ensures Moving(SetTake(s, t, take))
  {
    hide VaultShape, VaultWaits, DirectShape, DirectWaits, OpenChange;
    if s.tasks != [] && s.tasks[|s.tasks| - 1] != G.Succeeded {
      var no := |s.tasks| - 1;
      assert SameKinds(s.takes, s.takes[t := take]) by { assert OpenChange(s.takes[t], take); SameButOne(s.takes, t, take); }
      SameKindsSameMarks(s.takes, s.takes[t := take], no);
      hide HasVaultTake;
      if HasVaultTake(s.takes, no) {
        OpenVaultRow(s.takes, no, t, take);
      } else {
        OpenDirectRow(s.takes, no, t, take);
      }
    }
  }

  lemma SameButOne(takes: TakeRows, t: TakeId, take: Take)
    requires t < |takes| && OpenChange(takes[t], take)
    ensures SameKinds(takes, takes[t := take])
  {
  }

  lemma LeavesWaiting(takes: TakeRows, no: TaskNo)
    requires TaskFits(takes, no, true)
    ensures TaskFits(takes, no, false)
  {
  }

  /** The last task's status changes, not to WAITING. */
  lemma TaskStatusMoves(s: State, no: TaskNo, to: G.TaskStatus)
    requires Moving(s) && TasksFit(s) && no < |s.tasks| && s.tasks[no] != G.Succeeded && to != G.Waiting
    ensures Moving(s.(tasks := s.tasks[no := to]))
  {
    hide TaskFits;
    assert no == |s.tasks| - 1;
    if s.tasks[no] == G.Waiting {
      LeavesWaiting(s.takes, no);
    }
  }

  // ---------------------------------------------------------------- rows of other tasks

  /** Nothing of the task's own takes has changed, and no take of it is new. */
  ghost predicate Aside(before: TakeRows, after: TakeRows, no: TaskNo) {
    && |before| <= |after|
    && (forall i :: 0 <= i < |before| ==> Of(after[i], no) == Of(before[i], no) && (Of(before[i], no) ==> after[i] == before[i]))
    && (forall i :: |before| <= i < |after| ==> !Of(after[i], no))
  }

  lemma AsideFits(before: TakeRows, after: TakeRows, no: TaskNo, waiting: bool)
    requires TaskFits(before, no, waiting) && Aside(before, after, no)
    ensures TaskFits(after, no, waiting)
  {
    assert HasVaultTake(after, no) <==> HasVaultTake(before, no) by { AsideHas(before, after, no); }
    hide HasVaultTake;
    if HasVaultTake(before, no) {
      AsideVault(before, after, no);
    } else if waiting {
      AsideDirect(before, after, no);
    }
  }

  lemma AsideHas(before: TakeRows, after: TakeRows, no: TaskNo)
    requires Aside(before, after, no)
    ensures HasVaultTake(after, no) <==> HasVaultTake(before, no)
    ensures HasCurrent(before, no) ==> HasCurrent(after, no)
  {
    if HasVaultTake(before, no) {
      var v :| 0 <= v < |before| && Of(before[v], no) && before[v].origin == FromVault;
      assert after[v] == before[v];
    }
    if HasCurrent(before, no) {
      var v :| 0 <= v < |before| && Of(before[v], no) && before[v].isCurrent;
      assert after[v] == before[v];
    }
  }

  lemma AsideDirect(before: TakeRows, after: TakeRows, no: TaskNo)
    requires DirectWaits(before, no) && Aside(before, after, no)
    ensures DirectWaits(after, no)
  {
    AsideHas(before, after, no);
    hide HasCurrent;
  }

  lemma AsideVault(before: TakeRows, after: TakeRows, no: TaskNo)
    requires VaultShape(before, no) && Aside(before, after, no)
    ensures VaultShape(after, no)
    ensures VaultWaits(before, no) ==> VaultWaits(after, no)
  {
    assert forall i :: 0 <= i < |before| ==> Trial(after[i], no) == Trial(before[i], no);
    if AcceptedLive(before, no) {
      var i :| 0 <= i < |before| && Of(before[i], no) && Accepted(before[i]) && (before[i].isCurrent || before[i].onTrial);
      assert after[i] == before[i];
    } else if LiveTrial(before, no) {
      var i :| 0 <= i < |before| && Newest(before, no, i) && Alive(before[i]);
      assert after[i] == before[i] && Newest(after, no, i);
    }
  }

  lemma AsideMoves(s: State, after: State)
    requires Moving(s) && after.tasks == s.tasks
    requires s.tasks != [] ==> Aside(s.takes, after.takes, |s.tasks| - 1)
    ensures Moving(after)
  {
    hide TaskFits, Aside;
    if s.tasks != [] && s.tasks[|s.tasks| - 1] != G.Succeeded {
      AsideFits(s.takes, after.takes, |s.tasks| - 1, s.tasks[|s.tasks| - 1] == G.Waiting);
    }
  }

  // ---------------------------------------------------------------- the other steps

  lemma AddTaskMoves(s: State)
    requires Moving(s) && TasksFit(s)
    ensures Moving(AddTask(s))
  {
    if AddTask(s) != s {
      assert forall t :: 0 <= t < |s.takes| ==> !Of(s.takes[t], |s.tasks|);
    }
  }

  lemma PlannedFits(s: State, no: TaskNo, shots: seq<Place>)
    requires Moving(s) && TasksFit(s) && TaskIs(s, no, G.Running) && !HasVaultTake(s.takes, no) && shots != []
    ensures TaskFits(PlanShots(s, no, shots).takes, no, true)
  {
    var superseded := Supersede(s.takes, no);
    var cleared := NoneCurrent(superseded);
    var after, n := TakesFor(superseded, cleared, no, shots), |s.takes|;
    ShotTakes(superseded, cleared, no, shots);
    DirectorTakes(superseded, cleared, no, shots);
    assert DirectShape(s.takes, no);
    hide TakesFor, MaxVersion, ParentAt;
    assert !HasVaultTake(after, no);
    assert Of(after[n], no) && after[n].isCurrent by {
      assert ShotTake(superseded, after[n + 0], n, no, shots[0]);
    }
    assert DirectShape(after, no) && DirectWaits(after, no);
  }

  lemma PlanMoves(s: State, no: TaskNo, shots: seq<Place>)
    requires Moving(s) && TasksFit(s) && shots != []
    ensures Moving(PlanShots(s, no, shots))
  {
    hide TaskFits;
    if TaskIs(s, no, G.Running) && !HasVaultTake(s.takes, no) {
      assert no == |s.tasks| - 1;
      PlannedFits(s, no, shots);
    }
  }

  lemma SameVaultTakes(before: TakeRows, after: TakeRows, no: TaskNo)
    requires |before| <= |after|
    requires forall t :: 0 <= t < |before| ==> after[t].task == before[t].task && after[t].origin == before[t].origin
    requires forall t :: |before| <= t < |after| ==> after[t].origin != FromVault
    ensures HasVaultTake(after, no) <==> HasVaultTake(before, no)
  {
    if HasVaultTake(before, no) {
      var v :| 0 <= v < |before| && Of(before[v], no) && before[v].origin == FromVault;
      assert Of(after[v], no) && after[v].origin == FromVault;
    }
  }

  // ---------------------------------------------------------------- regenerating

  /** A rejected take with its successor behind it. */
  ghost predicate Followed(before: TakeRows, after: TakeRows, t: TakeId, onTrial: bool) {
    && |after| == |before| + 1 && t < |before|
    && after[t] == before[t].(status := Rejected, isCurrent := false)
    && (forall i :: 0 <= i < |before| && i != t ==> after[i] == before[i])
    && var next := after[|before|];
       && next.task == before[t].task && next.root == before[t].root && next.onTrial == onTrial && next.isCurrent == !onTrial
       && next.status == Queued && next.review.None? && !next.pendingDirection && next.origin == FromReview
  }

  lemma RegeneratedRows(s: State, t: TakeId, onTrial: bool)
    requires CanRegenerate(s, t, onTrial)
    ensures Followed(s.takes, RegenerateTake(s, t, onTrial).takes, t, onTrial)
  {
    hide MaxVersion;
  }

  lemma FollowedVaultFits(before: TakeRows, after: TakeRows, t: TakeId, no: TaskNo, onTrial: bool)
    requires Followed(before, after, t, onTrial) && VaultShape(before, no) && Of(before[t], no)
    requires before[t].status == Ready && before[t].review.Some? && before[t].review.value.verdict == Regenerate
    requires before[t].onTrial ==> onTrial
    ensures VaultShape(after, no) && VaultWaits(after, no)
  {
    var n := |before|;
    assert before[t].onTrial && Trial(before[t], no) && Trial(after[n], no);
    forall i, j | 0 <= i < j < |after| && Trial(after[i], no) && Trial(after[j], no) ensures Spent(after[i]) {
      if i != t {
        assert Trial(before[i], no);
        assert i < t || t < i;
      }
    }
    assert Newest(after, no, n) && Alive(after[n]);
  }

  lemma FollowedDirectFits(before: TakeRows, after: TakeRows, t: TakeId, no: TaskNo)
    requires Followed(before, after, t, false) && DirectShape(before, no) && Of(before[t], no)
    ensures DirectShape(after, no) && (DirectWaits(before, no) ==> DirectWaits(after, no))
  {
    assert Of(after[|before|], no) && after[|before|].isCurrent;
  }

  lemma RegenerateMoves(s: State, t: TakeId, onTrial: bool)
    requires Moving(s) && ReadsFit(s) && Weak(s, t) && Reviewed(t, onTrial) in s.noted
    ensures Moving(RegenerateTake(s, t, onTrial))
  {
    if CanRegenerate(s, t, onTrial) && s.tasks != [] {
      var after, no := RegenerateTake(s, t, onTrial), |s.tasks| - 1;
      RegeneratedRows(s, t, onTrial);
      assert ReadFits(s.takes, Reviewed(t, onTrial));
      hide RegenerateTake;
      SameVaultTakes(s.takes, after.takes, no);
      hide VaultShape, VaultWaits, DirectShape, DirectWaits, HasVaultTake;
      assert after.tasks == s.tasks by { RegenerateKeepsTasks(s, t, onTrial); }
      if s.tasks[no] == G.Succeeded {
      } else if !Of(s.takes[t], no) {
        hide Moving;
        AsideMoves(s, after);
      } else if HasVaultTake(s.takes, no) {
        FollowedVaultFits(s.takes, after.takes, t, no, onTrial);
      } else {
        FollowedDirectFits(s.takes, after.takes, t, no);
      }
    }
  }

  lemma RegenerateKeepsTasks(s: State, t: TakeId, onTrial: bool)
    ensures RegenerateTake(s, t, onTrial).tasks == s.tasks
  {
  }

  // ---------------------------------------------------------------- showing an accepted take

  /** One take shown, and whatever was on show in its place or lineage no more. */
  ghost predicate Shown(before: TakeRows, after: TakeRows, t: TakeId) {
    && |after| == |before| && t < |before|
    && after[t] == before[t].(isCurrent := true, onTrial := false)
    && forall i :: 0 <= i < |after| && i != t ==>
         after[i] == before[i].(isCurrent := before[i].isCurrent && before[i].root != before[t].root && before[i].place != before[t].place)
  }

  lemma PromotedRows(s: State, t: TakeId, published: bool)
    requires t < |s.takes| && s.takes[t].task.Some? && s.takes[t].status == Ready && !s.takes[t].isCurrent
    ensures Shown(s.takes, Promote(s, t, published).takes, t) && Promote(s, t, published).tasks == s.tasks
  {
    hide CurrentOf;
  }

  /** Trials lose nothing of the task's when a take is shown, unless it is the take. */
  lemma ShownTrials(before: TakeRows, after: TakeRows, t: TakeId, no: TaskNo)
    requires Shown(before, after, t) && VaultShape(before, no)
    ensures forall i :: 0 <= i < |after| && i != t ==> Trial(after[i], no) == Trial(before[i], no)
    ensures !Trial(after[t], no)
  {
    forall i | 0 <= i < |after| && i != t ensures Trial(after[i], no) == Trial(before[i], no) {
      assert Of(before[i], no) && before[i].isCurrent ==> !before[i].onTrial;
    }
  }

  lemma ShownVaultShape(before: TakeRows, after: TakeRows, t: TakeId, no: TaskNo)
    requires Shown(before, after, t) && VaultShape(before, no) && Accepted(before[t])
    ensures VaultShape(after, no)
  {
    ShownTrials(before, after, t, no);
    assert forall i :: 0 <= i < |after| ==> Of(after[i], no) == Of(before[i], no) && after[i].root == before[i].root;
  }

  lemma ShownLiveTrial(before: TakeRows, after: TakeRows, t: TakeId, no: TaskNo)
    requires Shown(before, after, t) && VaultShape(before, no) && !Of(before[t], no)
    ensures LiveTrial(after, no) <==> LiveTrial(before, no)
  {
    ShownTrials(before, after, t, no);
    hide VaultShape, Trial;
    assert forall i: TakeId :: Newest(after, no, i) <==> Newest(before, no, i);
    assert forall i :: 0 <= i < |after| ==> Alive(after[i]) == Alive(before[i]);
  }

  lemma ShownAccepted(before: TakeRows, after: TakeRows, t: TakeId, no: TaskNo)
    requires Shown(before, after, t) && Lineages(before) && VaultShape(before, no) && !Of(before[t], no)
    ensures AcceptedLive(after, no) <==> AcceptedElsewhere(before, no, t)
  {
    hide Lineages;
    if exists v :: 0 <= v < |before| && Of(before[v], no) && before[v].isCurrent && before[v].place != before[t].place {
      var v :| 0 <= v < |before| && Of(before[v], no) && before[v].isCurrent && before[v].place != before[t].place;
      PlacesApart(before, v, t);
      assert after[v].isCurrent && Accepted(after[v]) && Of(after[v], no);
    } else if exists v :: 0 <= v < |before| && Of(before[v], no) && Accepted(before[v]) && before[v].onTrial {
      var v :| 0 <= v < |before| && Of(before[v], no) && Accepted(before[v]) && before[v].onTrial;
      assert after[v].onTrial && Of(after[v], no) && Accepted(after[v]);
    }
    hide Shown, VaultShape, Accepted;
    if AcceptedLive(after, no) {
      AcceptedWasElsewhere(before, after, t, no);
    }
  }

  lemma AcceptedWasElsewhere(before: TakeRows, after: TakeRows, t: TakeId, no: TaskNo)
    requires Shown(before, after, t) && !Of(before[t], no) && AcceptedLive(after, no)
    ensures AcceptedElsewhere(before, no, t)
  {
    var v :| 0 <= v < |after| && Of(after[v], no) && Accepted(after[v]) && (after[v].isCurrent || after[v].onTrial);
    assert v != t && Of(before[v], no) && Accepted(before[v]);
    assert before[v].onTrial || (before[v].isCurrent && before[v].place != before[t].place);
  }

  /** Showing a take of another task leaves a Vault regenerate waiting for something exactly when
      StillWaits says so. */
  lemma ShownVaultWaits(before: TakeRows, after: TakeRows, t: TakeId, no: TaskNo)
    requires Shown(before, after, t) && Lineages(before) && VaultShape(before, no) && !Of(before[t], no)
    ensures VaultWaits(after, no) <==> StillWaits(before, no, t)
  {
    hide Shown, Lineages, VaultShape, LiveTrial, AcceptedLive;
    ShownLiveTrial(before, after, t, no);
    ShownAccepted(before, after, t, no);
  }

  /** A direct task that plans shots has no trial, so only a take on show elsewhere is left to it. */
  lemma ShownDirectWaits(before: TakeRows, after: TakeRows, t: TakeId, no: TaskNo)
    requires Shown(before, after, t) && Lineages(before) && DirectShape(before, no) && DirectWaits(before, no) && !Of(before[t], no)
    ensures DirectWaits(after, no) <==> StillWaits(before, no, t)
  {
    assert !LiveTrial(before, no);
    if StillWaits(before, no, t) {
      var v :| 0 <= v < |before| && Of(before[v], no) && before[v].isCurrent && before[v].place != before[t].place;
      PlacesApart(before, v, t);
      assert after[v].isCurrent && Of(after[v], no);
    }
    if HasCurrent(after, no) {
      var v :| 0 <= v < |after| && Of(after[v], no) && after[v].isCurrent;
      assert Of(before[v], no) && before[v].isCurrent && before[v].place != before[t].place;
    }
  }

  predicate HasOpen(takes: TakeRows, no: TaskNo) {
    exists v :: 0 <= v < |takes| && Of(takes[v], no) && Supersedable(takes[v])
  }

  /** With none of its takes on show, the sweep moves a task that planned shots exactly when a take of it is
      still open. */
  lemma HiddenMovesExactly(takes: TakeRows, no: TaskNo)
    requires DirectShape(takes, no) && !HasCurrent(takes, no)
    ensures SweepMoves(takes, no) <==> HasOpen(takes, no)
  {
    if HasOpen(takes, no) {
      var v :| 0 <= v < |takes| && Of(takes[v], no) && Supersedable(takes[v]);
      assert Redriven(takes, no, v);
    }
  }

  lemma ShowingKeepsMovingExactly(s: State, t: TakeId, published: bool, no: TaskNo)
    requires Moving(s) && Lineages(s.takes) && no == |s.tasks| - 1 && TaskIs(s, no, G.Waiting)
    requires t < |s.takes| && s.takes[t].task.Some? && !Of(s.takes[t], no) && Accepted(s.takes[t]) && !s.takes[t].isCurrent
    ensures Moving(Promote(s, t, published)) <==> StillWaits(s.takes, no, t)
  {
    var after := Promote(s, t, published);
    PromotedRows(s, t, published);
    hide Promote, VaultShape, VaultWaits, DirectShape, DirectWaits, StillWaits, Lineages;
    SameVaultTakes(s.takes, after.takes, no);
    hide HasVaultTake;
    if HasVaultTake(s.takes, no) {
      ShownVaultShape(s.takes, after.takes, t, no);
      ShownVaultWaits(s.takes, after.takes, t, no);
    } else {
      ShownDirectShape(s.takes, after.takes, t, no);
      ShownDirectWaits(s.takes, after.takes, t, no);
    }
  }

  /** Showing an accepted take of an earlier task leaves the WAITING one on its course exactly when StillWaits
      says so; and leaves the sweep something to do exactly then, or when it planned shots of which one is
      still open (it can then only end by being handed to people: LosingTheShowIsFinal). */
  lemma ShowingKeepsWaitingExactly(s: State, t: TakeId, published: bool, no: TaskNo)
    requires Moving(s) && Grounded(s) && no == |s.tasks| - 1 && TaskIs(s, no, G.Waiting)
    requires t < |s.takes| && s.takes[t].task.Some? && !Of(s.takes[t], no) && Accepted(s.takes[t]) && !s.takes[t].isCurrent
    ensures Moving(Promote(s, t, published)) <==> StillWaits(s.takes, no, t)
    ensures SweepMoves(Promote(s, t, published).takes, no)
       <==> StillWaits(s.takes, no, t) || (!HasVaultTake(s.takes, no) && HasOpen(s.takes, no))
  {
    ShowingKeepsMovingExactly(s, t, published, no);
    var after := Promote(s, t, published);
    PromotedRows(s, t, published);
    PromoteKeepsLineages(s, t, published);
    hide Promote, VaultShape, VaultWaits, DirectShape, DirectWaits, StillWaits, Lineages, Covered, TrialsHidden, TasksFit, SweepMoves, HasOpen;
    hide HasVaultTake;
    if HasVaultTake(s.takes, no) {
      ShownVaultShape(s.takes, after.takes, t, no);
      ShownVaultWaits(s.takes, after.takes, t, no);
      VaultMovesExactly(after.takes, no);
    } else {
      ShownDirectMoves(s.takes, after.takes, t, no);
    }
  }

  lemma ShownDirectMoves(before: TakeRows, after: TakeRows, t: TakeId, no: TaskNo)
    requires Shown(before, after, t) && Lineages(before) && DirectShape(before, no) && DirectWaits(before, no) && !Of(before[t], no)
    ensures SweepMoves(after, no) <==> StillWaits(before, no, t) || HasOpen(before, no)
  {
    ShownDirectWaits(before, after, t, no);
    ShownDirectShape(before, after, t, no);
    if StillWaits(before, no, t) {
      DirectMoves(after, no);
    } else {
      ShownOpen(before, after, t, no);
      hide StillWaits, SweepMoves, HasOpen, DirectWaits, HasCurrent;
      if HasCurrent(after, no) { ShownLeftWaits(before, after, t, no); }
      HiddenMovesExactly(after, no);
    }
  }

  lemma ShownLeftWaits(before: TakeRows, after: TakeRows, t: TakeId, no: TaskNo)
    requires Shown(before, after, t) && DirectWaits(before, no) && !Of(before[t], no) && HasCurrent(after, no)
    ensures DirectWaits(after, no)
  {
    forall v | 0 <= v < |after| && Of(after[v], no) && after[v].isCurrent
      ensures !(after[v].status == Rejected && after[v].review.Some?)
    {
      assert Of(before[v], no) && before[v].isCurrent;
    }
  }

  lemma ShownOpen(before: TakeRows, after: TakeRows, t: TakeId, no: TaskNo)
    requires Shown(before, after, t)
    ensures HasOpen(after, no) <==> HasOpen(before, no)
  {
    assert forall v :: 0 <= v < |before| ==> Of(after[v], no) == Of(before[v], no) && Supersedable(after[v]) == Supersedable(before[v]);
  }

  lemma ActKeepsHidden(s: State, t: TakeId, onTrial: bool, published: bool, no: TaskNo)
    requires ReadsFit(s) && !HasVaultTake(s.takes, no) && !HasCurrent(s.takes, no)
    ensures !HasCurrent(ActOnReview(s, t, onTrial, published).takes, no)
  {
    hide MaxVersion, CurrentOf, HasVaultTake;
    if Reviewed(t, onTrial) in s.noted {
      assert ReadFits(s.takes, Reviewed(t, onTrial));
      hide ReadsFit;
      var after := ActOnReview(s, t, onTrial, published).takes;
      forall v | 0 <= v < |after| && Of(after[v], no) ensures !after[v].isCurrent {
        assert v < |s.takes| ==> Of(s.takes[v], no) && !s.takes[v].isCurrent;
      }
    }
  }

  lemma RedirectKeepsHidden(s: State, of: TaskNo, last: TakeId, no: TaskNo)
    requires !HasCurrent(s.takes, no)
    ensures !HasCurrent(RedirectVault(s, of, last).takes, no)
  {
    hide MaxVersion, CurrentOf;
    var after := RedirectVault(s, of, last).takes;
    forall v | 0 <= v < |after| && Of(after[v], no) ensures !after[v].isCurrent {
      assert v < |s.takes| ==> Of(s.takes[v], no) && !s.takes[v].isCurrent;
    }
  }

  /** A WAITING task that planned shots and has lost every take on show never settles: it ends only by being
      handed to people. */
  lemma LosingTheShowIsFinal(s: State, step: Step, no: TaskNo)
    requires TasksFit(s) && ReadsFit(s) && no == |s.tasks| - 1 && TaskIs(s, no, G.Waiting)
    requires !HasVaultTake(s.takes, no) && !HasCurrent(s.takes, no)
    ensures !HasCurrent(Next(s, step).takes, no) && !Settled(Next(s, step).takes, no)
  {
    if step.SActOnReview? {
      ActKeepsHidden(s, step.t, step.onTrial, step.published, no);
    } else if step.SRedirectVault? {
      RedirectKeepsHidden(s, step.no, step.last, no);
    } else {
      OthersKeepHidden(s, step, no);
    }
  }

  lemma OthersKeepHidden(s: State, step: Step, no: TaskNo)
    requires TasksFit(s) && no == |s.tasks| - 1 && TaskIs(s, no, G.Waiting) && !HasCurrent(s.takes, no)
    requires !step.SActOnReview? && !step.SRedirectVault?
    ensures !HasCurrent(Next(s, step).takes, no)
  {
    hide MaxVersion, CurrentOf, LineageInFlight, HasRival, LastVault, VaultQueued, PicksFit, HasVaultTake, TakesFor, Revived, Settled;
    var after := Next(s, step).takes;
    forall v | 0 <= v < |after| && Of(after[v], no) ensures !after[v].isCurrent {
      assert v < |s.takes| ==> Of(s.takes[v], no) && !s.takes[v].isCurrent;
    }
  }

  lemma ShownDirectShape(before: TakeRows, after: TakeRows, t: TakeId, no: TaskNo)
    requires Shown(before, after, t) && DirectShape(before, no)
    ensures DirectShape(after, no)
  {
  }

  lemma PromoteKeepsLineages(s: State, t: TakeId, published: bool)
    requires Lineages(s.takes) && t < |s.takes|
    ensures Lineages(Promote(s, t, published).takes)
  {
    hide Lineages, CurrentOf;
    LineagesKept(s.takes, Promote(s, t, published).takes);
  }

  lemma PromoteKeepsTasks(s: State, t: TakeId, published: bool)
    requires t < |s.takes|
    ensures Promote(s, t, published).tasks == s.tasks
  {}

  lemma PromotedWasATrial(s: State, t: TakeId, onTrial: bool)
    requires TasksFit(s) && ReadsFit(s) && Promotes(s, t, onTrial) && s.tasks != []
    ensures s.takes[t].task.Some? && HasVaultTake(s.takes, s.takes[t].task.value)
  {
    assert ReadFits(s.takes, Reviewed(t, onTrial));
  }

  lemma PromoteMoves(s: State, t: TakeId, onTrial: bool, published: bool)
    requires Moving(s) && Grounded(s) && ReadsFit(s) && Promotes(s, t, onTrial) && Attended(s, SActOnReview(t, onTrial, published))
    ensures Moving(Promote(s, t, published))
  {
    hide Promote, Lineages, Covered, TrialsHidden, TasksFit, TaskFits, StillWaits, ReadsFit, HasVaultTake;
    PromoteKeepsTasks(s, t, published);
    if s.tasks != [] {
      var after, no := Promote(s, t, published), |s.tasks| - 1;
      PromotedWasATrial(s, t, onTrial);
      PromotedRows(s, t, published);
      if s.tasks[no] == G.Waiting && !Of(s.takes[t], no) {
        ShowingKeepsMovingExactly(s, t, published, no);
      } else if s.tasks[no] != G.Succeeded {
        SameVaultTakes(s.takes, after.takes, no);
        ShownFits(s.takes, after.takes, t, no, s.tasks[no] == G.Waiting);
      }
    }
  }

  /** Showing a take of the task itself, or while it does not wait. */
  lemma ShownFits(before: TakeRows, after: TakeRows, t: TakeId, no: TaskNo, waiting: bool)
    requires TaskFits(before, no, waiting) && Shown(before, after, t) && Accepted(before[t])
    requires HasVaultTake(after, no) <==> HasVaultTake(before, no)
    requires waiting ==> Of(before[t], no)
    requires Of(before[t], no) ==> HasVaultTake(before, no)
    ensures TaskFits(after, no, waiting)
  {
    hide HasVaultTake;
    if HasVaultTake(before, no) {
      ShownVaultShape(before, after, t, no);
      if waiting {
        assert AcceptedLive(after, no) by {
          assert Of(after[t], no) && Accepted(after[t]) && after[t].isCurrent;
        }
      }
    } else {
      ShownDirectShape(before, after, t, no);
    }
  }

  lemma ActMoves(s: State, t: TakeId, onTrial: bool, published: bool)
    requires Moving(s) && Grounded(s) && ReadsFit(s) && Attended(s, SActOnReview(t, onTrial, published))
    ensures Moving(ActOnReview(s, t, onTrial, published))
  {
    hide Moving, Promote, RegenerateTake, Lineages, Covered, TrialsHidden, ReadsFit;
    if ActOnReview(s, t, onTrial, published) != s {
      var take := s.takes[t];
      if take.review.value.verdict == Accept {
        if Promotes(s, t, onTrial) {
          PromoteMoves(s, t, onTrial, published);
        } else {
          PromoteUnlessShown(s, t, published);
        }
      } else if Weak(s, t) {
        RegenerateMoves(s, t, onTrial);
      } else if take.task.Some? {
        TaskStatusMoves(s, take.task.value, G.Escalated);
      } else {
        NoTasks(s, t);
        NoTasksMove(SetTake(s, t, take.(status := Rejected)));
      }
    }
  }

  lemma NoTasks(s: State, t: TakeId)
    requires TasksFit(s) && t < |s.takes| && s.takes[t].task.None?
    ensures s.tasks == []
  {
  }

  lemma NoTasksMove(s: State)
    requires s.tasks == []
    ensures Moving(s)
  {
  }

  // ---------------------------------------------------------------- Vault takes

  lemma AssetMoves(s: State, asset: TakeId)
    requires Moving(s) && TasksFit(s)
    ensures Moving(RegenerateAsset(s, asset))
  {
    var after := RegenerateAsset(s, asset);
    if after.takes != s.takes {
      if s.planned {
        var n, no := |s.takes|, |s.tasks|;
        assert forall t :: 0 <= t < n ==> !Of(after.takes[t], no);
        assert Trial(after.takes[n], no) && after.takes[n].origin == FromVault;
        assert VaultShape(after.takes, no);
      } else {
        NoTasksMove(after);
      }
    }
  }

  /** What redirecting leaves of each row: the task's open takes are spent, and a new one is open. */
  ghost predicate Redirected(before: TakeRows, after: TakeRows, no: TaskNo, root: TakeId) {
    && |after| == |before| + 1
    && (forall i :: 0 <= i < |before| ==>
          && after[i] == before[i].(status := after[i].status)
          && (!Of(before[i], no) ==> after[i] == before[i])
          && (Of(before[i], no) && before[i].onTrial ==> Spent(after[i]))
          && (Accepted(before[i]) <==> Accepted(after[i])))
    && (var next := after[|before|];
        && next.root == root && Trial(next, no) && next.status == Queued && next.pendingDirection && next.review.None?
        && next.origin == FromVault)
  }

  lemma SupersededRow(takes: TakeRows, no: TaskNo, i: nat)
    requires i < |takes|
    ensures var row := Supersede(takes, no)[i];
      && row == takes[i].(status := row.status)
      && (!Of(takes[i], no) ==> row == takes[i])
      && (Of(takes[i], no) && takes[i].onTrial ==> Spent(row))
      && (Accepted(takes[i]) <==> Accepted(row))
  {
  }

  lemma RedirectedRows(s: State, no: TaskNo, last: TakeId)
    requires NoneQueued(no, last) in s.noted && last < |s.takes|
    ensures Redirected(s.takes, RedirectVault(s, no, last).takes, no, s.takes[last].root)
    ensures RedirectVault(s, no, last).tasks == s.tasks
  {
    var superseded, parent := RedirectedRow(s, no, last);
    var after := RedirectVault(s, no, last).takes;
    hide RedirectVault, MaxVersion;
    assert after[|s.takes|].root == superseded[parent].root == superseded[last].root == s.takes[last].root;
    hide NewTake, Supersede;
    forall i | 0 <= i < |s.takes|
      ensures after[i] == s.takes[i].(status := after[i].status)
      ensures !Of(s.takes[i], no) ==> after[i] == s.takes[i]
      ensures Of(s.takes[i], no) && s.takes[i].onTrial ==> Spent(after[i])
      ensures Accepted(s.takes[i]) <==> Accepted(after[i])
    {
      assert after[i] == after[..|s.takes|][i];
      SupersededRow(s.takes, no, i);
    }
  }

  lemma RedirectedShape(before: TakeRows, after: TakeRows, no: TaskNo, root: TakeId)
    requires VaultShape(before, no) && Redirected(before, after, no, root)
    requires forall t :: 0 <= t < |before| && Of(before[t], no) ==> before[t].root == root
    ensures VaultShape(after, no)
  {
    var n := |before|;
    forall t, u | 0 <= t < u < |after| && Trial(after[t], no) && Trial(after[u], no) ensures Spent(after[t]) {
      assert t < n && Of(before[t], no) && before[t].onTrial;
    }
  }

  lemma RedirectedTrial(before: TakeRows, after: TakeRows, no: TaskNo, root: TakeId)
    requires Redirected(before, after, no, root)
    ensures !LiveTrial(after, no)
  {
    assert Trial(after[|before|], no) && !Alive(after[|before|]);
    assert forall t: TakeId :: Newest(after, no, t) ==> t == |before|;
  }

  lemma RedirectedAccepted(before: TakeRows, after: TakeRows, no: TaskNo, root: TakeId)
    requires Redirected(before, after, no, root)
    ensures AcceptedLive(after, no) <==> AcceptedLive(before, no)
  {
    assert !Accepted(after[|before|]);
    hide Accepted, Spent, Trial;
    if AcceptedLive(before, no) {
      var t :| 0 <= t < |before| && Of(before[t], no) && Accepted(before[t]) && (before[t].isCurrent || before[t].onTrial);
      assert Of(after[t], no) && Accepted(after[t]);
    }
    if AcceptedLive(after, no) {
      var t :| 0 <= t < |after| && Of(after[t], no) && Accepted(after[t]) && (after[t].isCurrent || after[t].onTrial);
      assert t < |before| && Of(before[t], no);
    }
  }

  /** The new take is the newest and still to be directed, so only an accepted one keeps the task going. */
  lemma RedirectedWaits(before: TakeRows, after: TakeRows, no: TaskNo, root: TakeId)
    requires Redirected(before, after, no, root)
    ensures VaultWaits(after, no) <==> AcceptedLive(before, no)
  {
    hide Redirected, LiveTrial, AcceptedLive;
    RedirectedTrial(before, after, no, root);
    RedirectedAccepted(before, after, no, root);
  }

  lemma RedirectedIsVault(before: TakeRows, after: TakeRows, no: TaskNo, last: TakeId)
    requires last < |before| && Redirected(before, after, no, before[last].root) && Of(before[last], no) && before[last].origin == FromVault
    ensures HasVaultTake(before, no) && HasVaultTake(after, no)
  {
    assert Of(after[last], no) && after[last].origin == FromVault;
  }

  /** A redirect leaves a WAITING task something the sweep moves exactly when an accepted take of it is on
      show or on trial. */
  lemma RedirectingKeepsWaitingExactly(s: State, no: TaskNo, last: TakeId)
    requires Moving(s) && Grounded(s) && ReadsFit(s) && TaskIs(s, no, G.Waiting) && NoneQueued(no, last) in s.noted
    ensures SweepMoves(RedirectVault(s, no, last).takes, no) <==> AcceptedLive(s.takes, no)
  {
    assert ReadFits(s.takes, NoneQueued(no, last)) && no == |s.tasks| - 1;
    var after := RedirectVault(s, no, last);
    RedirectedRows(s, no, last);
    RedirectKeepsGrounded(s, no, last);
    hide RedirectVault, Covered, TrialsHidden, TasksFit, Lineages, ReadsFit, OneCurrent;
    RedirectedSweep(s.takes, after.takes, no, last);
  }

  lemma RedirectedSweep(before: TakeRows, after: TakeRows, no: TaskNo, last: TakeId)
    requires last < |before| && Redirected(before, after, no, before[last].root) && Of(before[last], no) && before[last].origin == FromVault
    requires TaskFits(before, no, true) && Lineages(after)
    ensures SweepMoves(after, no) <==> AcceptedLive(before, no)
  {
    RedirectedIsVault(before, after, no, last);
    hide HasVaultTake, SweepMoves, Lineages, Redirected, VaultWaits, AcceptedLive;
    RedirectedShape(before, after, no, before[last].root);
    hide VaultShape;
    RedirectedWaits(before, after, no, before[last].root);
    VaultMovesExactly(after, no);
  }

  lemma RedirectedFits(before: TakeRows, after: TakeRows, no: TaskNo, last: TakeId, waiting: bool)
    requires last < |before| && Redirected(before, after, no, before[last].root) && Of(before[last], no) && before[last].origin == FromVault
    requires TaskFits(before, no, waiting) && (waiting ==> AcceptedLive(before, no))
    ensures TaskFits(after, no, waiting)
  {
    RedirectedIsVault(before, after, no, last);
    assert forall t :: 0 <= t < |before| && Of(before[t], no) ==> before[t].root == before[last].root;
    hide HasVaultTake, VaultWaits, AcceptedLive, VaultShape, Redirected;
    RedirectedShape(before, after, no, before[last].root);
    RedirectedWaits(before, after, no, before[last].root);
  }

  lemma RedirectedAside(before: TakeRows, after: TakeRows, no: TaskNo, root: TakeId, other: TaskNo)
    requires Redirected(before, after, no, root) && other != no
    ensures Aside(before, after, other)
  {
  }

  lemma RedirectMoves(s: State, no: TaskNo, last: TakeId)
    requires Moving(s) && TasksFit(s) && ReadsFit(s) && Attended(s, SRedirectVault(no, last))
    ensures Moving(RedirectVault(s, no, last))
  {
    hide TasksFit, AcceptedLive, HasVaultTake, VaultQueued;
    if NoneQueued(no, last) in s.noted && s.tasks != [] {
      assert ReadFits(s.takes, NoneQueued(no, last));
      var after, newest := RedirectVault(s, no, last), |s.tasks| - 1;
      RedirectedRows(s, no, last);
      hide RedirectVault, ReadsFit, TaskFits, Redirected;
      if no != newest {
        RedirectedAside(s.takes, after.takes, no, s.takes[last].root, newest);
        hide Moving, Aside;
        AsideMoves(s, after);
      } else if s.tasks[no] != G.Succeeded {
        RedirectedFits(s.takes, after.takes, no, last, s.tasks[no] == G.Waiting);
      }
    }
  }

  lemma StartsWaitingMoves(s: State, no: TaskNo)
    requires TaskIs(s, no, G.Running) ==> HasVaultTake(s.takes, no) && VaultWaits(s.takes, no)
    requires Moving(s) && TasksFit(s)
    ensures Moving(StartsWaiting(s, Some(no)))
  {
    hide HasVaultTake, VaultWaits;
    if TaskIs(s, no, G.Running) {
      assert no == |s.tasks| - 1;
    }
  }

  lemma PendingIsVault(takes: TakeRows, no: TaskNo, t: TakeId)
    requires TaskFits(takes, no, false) && t < |takes| && Of(takes[t], no) && takes[t].pendingDirection
    ensures HasVaultTake(takes, no)
  {
  }

  /** The Vault take the task is to wait on is its newest, and directed. */
  lemma DirectedWaits(takes: TakeRows, no: TaskNo, t: TakeId)
    requires VaultShape(takes, no) && t < |takes| && Of(takes[t], no) && takes[t].status == Queued && !takes[t].pendingDirection
    ensures VaultWaits(takes, no)
  {
    OpenTrialIsNewest(takes, no, t);
    assert Alive(takes[t]);
  }

  lemma DirectedMoves(s: State, t: TakeId)
    requires Moving(s) && TasksFit(s) && ReviewsFit(s.takes)
    ensures Moving(DirectVaultTake(s, t))
  {
    if t < |s.takes| && s.takes[t].status == Queued && s.takes[t].pendingDirection {
      var take, task := s.takes[t].(pendingDirection := false), s.takes[t].task;
      var directed := SetTake(s, t, take);
      OpenRowMoves(s, t, take);
      hide VaultShape, DirectShape, HasVaultTake, VaultWaits, ReviewsFit;
      if task.Some? && TaskIs(s, task.value, G.Running) {
        assert task.value == |s.tasks| - 1;
        PendingIsVault(s.takes, task.value, t);
        SameVaultTakes(s.takes, directed.takes, task.value);
        DirectedWaits(directed.takes, task.value, t);
        StartsWaitingMoves(directed, task.value);
      }
    }
  }

  lemma ResumedMoves(s: State, t: TakeId)
    requires Moving(s) && TasksFit(s) && ReadsFit(s) && Attended(s, SResumeVault(t))
    ensures Moving(ResumeVault(s, t))
  {
    hide Moving, TasksFit;
    if ResumeVault(s, t) != s {
      assert ReadFits(s.takes, AlreadyDirected(t));
      VaultHere(s.takes, t);
      StartsWaitingMoves(s, s.takes[t].task.value);
    }
  }

  lemma FailMoves(s: State, t: TakeId, to: TakeStatus)
    requires Moving(s) && TasksFit(s)
    ensures Moving(FailTake(s, t, to))
  {
    hide TaskFits, Moving;
    if FailTake(s, t, to) != s {
      var take := s.takes[t].(status := to);
      OpenRowMoves(s, t, take);
      var failed := SetTake(s, t, take);
      if take.task.Some? && TaskIs(s, take.task.value, G.Waiting) {
        TaskStatusMoves(failed, take.task.value, if to == Rejected then G.Escalated else G.Failed);
      }
    }
  }

  // ---------------------------------------------------------------- every step

  /** Only a take that was READY has a review. */
  ghost predicate ReviewsFit(takes: TakeRows) {
    forall t :: 0 <= t < |takes| && takes[t].review.Some? ==> takes[t].status == Ready || takes[t].status == Rejected
  }

  lemma PlanKeepsReviews(s: State, no: TaskNo, shots: seq<Place>)
    requires ReviewsFit(s.takes)
    ensures ReviewsFit(PlanShots(s, no, shots).takes)
  {
    var superseded := Supersede(s.takes, no);
    DirectorTakes(superseded, NoneCurrent(superseded), no, shots);
    hide TakesFor;
  }

  lemma ActKeepsReviews(s: State, t: TakeId, onTrial: bool, published: bool)
    requires ReviewsFit(s.takes)
    ensures ReviewsFit(ActOnReview(s, t, onTrial, published).takes)
  {
    hide MaxVersion, CurrentOf;
  }

  lemma AcceptKeepsReviews(s: State, no: TaskNo, picks: map<TakeId, TakeId>)
    requires ReviewsFit(s.takes)
    ensures ReviewsFit(AcceptBest(s, no, picks).takes)
  {
    hide PicksFit, Revived;
  }

  lemma StepKeepsReviews(s: State, step: Step)
    requires ReviewsFit(s.takes)
    ensures ReviewsFit(Next(s, step).takes)
  {
    if step.SPlanShots? {
      PlanKeepsReviews(s, step.no, step.shots);
    } else if step.SActOnReview? {
      ActKeepsReviews(s, step.t, step.onTrial, step.published);
    } else if step.SAcceptBest? {
      AcceptKeepsReviews(s, step.no, step.picks);
    } else {
      hide MaxVersion, CurrentOf, Settled, LineageInFlight, HasRival, LastVault, HasVaultTake, VaultQueued, PlanShots, ActOnReview, AcceptBest;
    }
  }

  lemma NotingMoves(s: State, noted: set<Read>)
    requires Moving(s)
    ensures Moving(s.(noted := noted))
  {
    hide TaskFits;
  }

  lemma StepMoves(s: State, step: Step)
    requires Moving(s) && Grounded(s) && ReadsFit(s) && ReviewsFit(s.takes) && HasShots(step) && Attended(s, step)
    ensures Moving(Next(s, step))
  {
    hide Moving, PlanShots, ActOnReview, AcceptBest, RegenerateAsset, RedirectVault, AddTask, FailTake, StartsWaiting, SetTake, Settled;
    hide Lineages, Covered, TrialsHidden, DirectVaultTake, ResumeVault, ReadsFit, Attended, TasksFit;
    match step
    case SAddTask => AddTaskMoves(s);
    case SQueueTask(no) => if TaskIs(s, no, G.Pending) { TaskStatusMoves(s, no, G.Queued); }
    case SMoveTask(no, move) => if MoveTask(s, no, move) != s { TaskStatusMoves(s, no, G.MovesTo(move)); }
    case SPlanShots(no, shots) => PlanMoves(s, no, shots);
    case SSubmit(t) => if Submit(s, t) != s { OpenRowMoves(s, t, s.takes[t].(status := Rendering)); }
    case SRendered(t) => if Rendered(s, t) != s { OpenRowMoves(s, t, s.takes[t].(status := Ready, file := true)); }
    case SFailTake(t, to) => FailMoves(s, t, to);
    case SStoreReview(t, review) => if StoreReview(s, t, review) != s { OpenRowMoves(s, t, s.takes[t].(review := Some(review))); }
    case SReadReview(t) => NotingMoves(s, Next(s, step).noted);
    case SActOnReview(t, onTrial, published) => ActMoves(s, t, onTrial, published);
    case SReadSettled(no) => NotingMoves(s, Next(s, step).noted);
    case SComplete(no) => if TaskIs(s, no, G.Waiting) { TaskStatusMoves(s, no, G.Succeeded); }
    case SReadBest(no, picks) => NotingMoves(s, Next(s, step).noted);
    case SAcceptBest(no, picks) => AcceptMoves(s, no, picks);
    case SRegenerateAsset(asset) => AssetMoves(s, asset);
    case SReadVaultTakes(no) => NotingMoves(s, Next(s, step).noted);
    case SRedirectVault(no, last) => RedirectMoves(s, no, last);
    case SDirectVaultTake(t) => DirectedMoves(s, t);
    case SReadDirected(t) => NotingMoves(s, Next(s, step).noted);
    case SResumeVault(t) => ResumedMoves(s, t);
  }

  lemma AcceptMoves(s: State, no: TaskNo, picks: map<TakeId, TakeId>)
    requires Moving(s) && TasksFit(s)
    ensures Moving(AcceptBest(s, no, picks))
  {
    hide TaskFits, PicksFit, Revived;
  }

  lemma {:induction false} ExecMoves(s: State, steps: seq<Step>)
    requires Moving(s) && Grounded(s) && ReadsFit(s) && TrialsFit(s.takes) && ReviewsFit(s.takes)
    requires AllShots(steps) && AllAttended(s, steps)
    ensures Moving(Exec(s, steps)) && Grounded(Exec(s, steps))
    decreases |steps|
  {
    hide Moving, Grounded, ReviewsFit, Next, Attended, ReadsFit, TrialsFit;
    if steps != [] {
      StepMoves(s, steps[0]);
      assert PlacesOnce(steps[0]);
      StepKeepsOneExactly(s, steps[0]);
      StepKeepsReads(s, steps[0]);
      StepKeepsReviews(s, steps[0]);
      ExecMoves(Next(s, steps[0]), steps[1..]);
    }
  }

  /** In every reachable state a WAITING direct task is settled, or has a take the sweep finds in the
      loop and acts on, or one that blocks it: with no live job left, one sweep moves it. */
  lemma WaitingIsNeverStuck(s: State, steps: seq<Step>, no: TaskNo)
    requires Initial(s) && AllShots(steps) && AllAttended(s, steps) && TaskIs(Exec(s, steps), no, G.Waiting)
    ensures SweepMoves(Exec(s, steps).takes, no)
  {
    hide Exec, AllAttended, SweepMoves;
    ExecMoves(s, steps);
    StillMoves(Exec(s, steps), no);
  }

  lemma StillMoves(s: State, no: TaskNo)
    requires Moving(s) && Grounded(s) && TaskIs(s, no, G.Waiting)
    ensures SweepMoves(s.takes, no)
  {
    hide SweepMoves, Lineages, VaultShape, VaultWaits, DirectShape, DirectWaits;
    if HasVaultTake(s.takes, no) {
      VaultMoves(s.takes, no);
    } else {
      DirectMoves(s.takes, no);
    }
  }
}
