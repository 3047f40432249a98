/** Which step of the visual loop adds takes or moves the task that waits for them, and what on every run a
    task that SUCCEEDED, a take that renders and a job's read were due to. */
module TakeOutcomes {
  import opened Options
  import opened Takes
  import opened TakeMoves
  import G = LiveGraph

  // ---------------------------------------------------------------- takes are added

  predicate UnderWay(take: Take) {
    || take.status == Queued || take.status == Rendering
    || (take.task.None? && take.onTrial && take.status == Ready && !take.isCurrent)
  }

  /** The Vault regenerates a take: all work on the post is done, nothing of the lineage is under way, and no
      other lineage shows a take in its place. */
  predicate Regenerates(s: State, step: Step) {
    && step.SRegenerateAsset? && step.asset < |s.takes|
    && (forall no :: 0 <= no < |s.tasks| ==> s.tasks[no] == G.Succeeded)
    && (forall u :: 0 <= u < |s.takes| && s.takes[u].root == s.takes[step.asset].root ==> !UnderWay(s.takes[u]))
    && (forall u :: 0 <= u < |s.takes| && s.takes[u].isCurrent && s.takes[u].place == s.takes[step.asset].place
          ==> s.takes[u].root == s.takes[step.asset].root)
  }

  /** A take not yet submitted. */
  predicate IsNew(take: Take, task: Option<TaskNo>, place: Place, origin: Origin, attempt: nat) {
    && take.task == task && take.place == place && take.origin == origin && take.attempt == attempt
    && take.status == Queued && !take.file && take.review.None?
  }

  /** Its lineage's next version. */
  ghost predicate IsNewest(takes: TakeRows, take: Take) {
    forall u :: 0 <= u < |takes| && takes[u].root == take.root ==> takes[u].version < take.version
  }

  /** It continues the lineage of the last take on show in its place, or starts one. */
  ghost predicate ContinuesThePlace(takes: TakeRows, take: Take, no: TakeId) {
    if exists u :: 0 <= u < |takes| && takes[u].isCurrent && takes[u].place == take.place
    then exists u :: 0 <= u < |takes| && takes[u].isCurrent && takes[u].place == take.place && take.root == takes[u].root
           && forall v :: u < v < |takes| && takes[v].isCurrent ==> takes[v].place != take.place
    else take.root == no
  }

  lemma {:induction false} ParentIsTheLast(takes: TakeRows, place: Place)
    ensures var parent := ParentAt(takes, place);
            parent.Some? ==> forall v :: parent.value < v < |takes| && takes[v].isCurrent ==> takes[v].place != place
  {
    if takes != [] {
      var n := |takes| - 1;
      ParentIsTheLast(takes[..n], place);
      assert forall v :: 0 <= v < n ==> takes[..n][v] == takes[v];
    }
  }

  ghost predicate IsPlanned(replaced: TakeRows, takes: TakeRows, take: Take, no: TaskNo, place: Place, n: TakeId) {
    && IsNew(take, Some(no), place, FromDirector, 1) && take.isCurrent && !take.onTrial && !take.pendingDirection
    && take.successorOf.None? && ContinuesThePlace(replaced, take, n) && IsNewest(takes, take)
  }

  lemma NextIsPlanned(replaced: TakeRows, takes: TakeRows, no: TaskNo, place: Place)
    requires |replaced| <= |takes| && forall u :: 0 <= u < |replaced| ==> takes[u].root == replaced[u].root
    ensures IsPlanned(replaced, takes,
                      NewTake(takes, ParentAt(replaced, place), Some(no), place, true, FromDirector, 1, false, false, None), no, place, |takes|)
  {
    ParentIsTheLast(replaced, place);
    hide ParentAt, MaxVersion;
  }

  lemma {:induction false} PlannedTakes(replaced: TakeRows, takes: TakeRows, no: TaskNo, shots: seq<Place>, k: nat)
    requires |replaced| <= |takes| && k < |shots| && forall u :: 0 <= u < |replaced| ==> takes[u].root == replaced[u].root
    requires |TakesFor(replaced, takes, no, shots)| == |takes| + |shots|
    ensures IsPlanned(replaced, takes, TakesFor(replaced, takes, no, shots)[|takes| + k], no, shots[k], |takes| + k)
    decreases |shots|
  {
    var first := NewTake(takes, ParentAt(replaced, shots[0]), Some(no), shots[0], true, FromDirector, 1, false, false, None);
    var more := takes + [first];
    var rest := TakesFor(replaced, more, no, shots[1..]);
    TakesForKeeps(replaced, more, no, shots[1..]);
    if k == 0 {
      NextIsPlanned(replaced, takes, no, shots[0]);
      assert rest[|takes|] == more[|takes|];
    } else {
      hide NewTake, ParentAt, TakesFor;
      PlannedTakes(replaced, more, no, shots[1..], k - 1);
      OlderIsPlanned(replaced, takes, first, rest[|takes| + k], no, shots[k], |takes| + k);
    }
  }

  lemma OlderIsPlanned(replaced: TakeRows, takes: TakeRows, first: Take, take: Take, no: TaskNo, place: Place, n: TakeId)
    requires IsPlanned(replaced, takes + [first], take, no, place, n)
    ensures IsPlanned(replaced, takes, take, no, place, n)
  {
    assert forall u :: 0 <= u < |takes| ==> (takes + [first])[u] == takes[u];
  }

  /** Superseding changes no take's place, lineage, version or show. */
  lemma SupersededIsPlanned(s: State, take: Take, no: TaskNo, place: Place, n: TakeId)
    requires var superseded := Supersede(s.takes, no); IsPlanned(superseded, NoneCurrent(superseded), take, no, place, n)
    ensures IsPlanned(s.takes, s.takes, take, no, place, n)
  {
    hide Supersedable;
    var superseded := Supersede(s.takes, no);
    forall u | 0 <= u < |s.takes|
      ensures superseded[u].isCurrent == s.takes[u].isCurrent && superseded[u].place == s.takes[u].place
      ensures superseded[u].root == s.takes[u].root == NoneCurrent(superseded)[u].root
      ensures NoneCurrent(superseded)[u].version == s.takes[u].version
    {
    }
    hide Supersede, NoneCurrent;
  }

  /** What the one take a step adds is. */
  ghost predicate IsAdded(s: State, step: Step, take: Take) {
    && IsNewest(s.takes, take)
    && (Replaces(s, step) ==>
          var weak := s.takes[step.t];
          && IsNew(take, weak.task, weak.place, FromReview, weak.attempt + 1) && take.root == weak.root && take.successorOf == Some(step.t)
          && (take.isCurrent <==> !step.onTrial) && (take.onTrial <==> step.onTrial) && !take.pendingDirection)
    && (Regenerates(s, step) ==>
          && IsNew(take, if s.planned then Some(|s.tasks|) else None, s.takes[step.asset].place, FromVault, 1)
          && take.root == s.takes[step.asset].root && IsAsked(take))
    && (Redirects(s, step) ==>
          && IsNew(take, Some(step.no), s.takes[step.last].place, FromVault, 1)
          && take.root == s.takes[step.last].root && IsAsked(take))
  }

  /** On trial and still to be directed, as the Vault asks for takes. */
  predicate IsAsked(take: Take) {
    !take.isCurrent && take.onTrial && take.pendingDirection && take.successorOf.None?
  }

  /** Takes are added by a plan, one for each of its shots, by a review that wants another attempt, by the Vault
      and by its task's redirection; each QUEUED, as its lineage's newest version. */
  lemma TakesAddedExactly(s: State, step: Step)
    ensures var after, n := Next(s, step).takes, |s.takes|;
      && |after| == n + (if StoresShots(s, step) then |step.shots|
                         else if Replaces(s, step) || Regenerates(s, step) || Redirects(s, step) then 1 else 0)
      && (StoresShots(s, step) ==> forall k :: 0 <= k < |step.shots| ==> IsPlanned(s.takes, s.takes, after[n + k], step.no, step.shots[k], n + k))
      && (Replaces(s, step) || Regenerates(s, step) || Redirects(s, step) ==> IsAdded(s, step, after[n]))
  {
    match step
    case SPlanShots(no, shots) => PlanAdds(s, no, shots);
    case SActOnReview(t, onTrial, published) => ReviewAdds(s, step);
    case SRegenerateAsset(asset) => VaultAdds(s, asset);
    case SRedirectVault(no, last) => RedirectAdds(s, no, last);
    case _ => OthersAddNone(s, step);
  }

  lemma PlanAdds(s: State, no: TaskNo, shots: seq<Place>)
    ensures var after, n, step := PlanShots(s, no, shots).takes, |s.takes|, SPlanShots(no, shots);
      && |after| == n + (if StoresShots(s, step) then |shots| else 0)
      && (StoresShots(s, step) ==> forall k :: 0 <= k < |shots| ==> IsPlanned(s.takes, s.takes, after[n + k], no, shots[k], n + k))
  {
    hide TakesFor, IsPlanned;
    var superseded := Supersede(s.takes, no);
    TakesForKeeps(superseded, NoneCurrent(superseded), no, shots);
    if StoresShots(s, SPlanShots(no, shots)) {
      forall k | 0 <= k < |shots|
        ensures IsPlanned(s.takes, s.takes, TakesFor(superseded, NoneCurrent(superseded), no, shots)[|s.takes| + k], no, shots[k], |s.takes| + k)
      {
        assert forall u :: 0 <= u < |superseded| ==> NoneCurrent(superseded)[u].root == superseded[u].root;
        PlannedTakes(superseded, NoneCurrent(superseded), no, shots, k);
        SupersededIsPlanned(s, TakesFor(superseded, NoneCurrent(superseded), no, shots)[|s.takes| + k], no, shots[k], |s.takes| + k);
      }
    }
    hide Supersede, NoneCurrent;
  }

  lemma ReviewAdds(s: State, step: Step)
    requires step.SActOnReview?
    ensures |Next(s, step).takes| == |s.takes| + (if Replaces(s, step) then 1 else 0)
    ensures Replaces(s, step) ==> IsAdded(s, step, Next(s, step).takes[|s.takes|])
  {
    hide CurrentOf;
    if Replaces(s, step) {
      var rejected := s.takes[step.t := s.takes[step.t].(status := Rejected, isCurrent := false)];
      assert forall u :: 0 <= u < |s.takes| ==> rejected[u].root == s.takes[u].root && rejected[u].version == s.takes[u].version;
      hide MaxVersion;
    }
  }

  lemma VaultAdds(s: State, asset: TakeId)
    ensures var after, step := RegenerateAsset(s, asset), SRegenerateAsset(asset);
      && |after.takes| == |s.takes| + (if Regenerates(s, step) then 1 else 0)
      && (Regenerates(s, step) ==> IsAdded(s, step, after.takes[|s.takes|]))
  {
    hide MaxVersion;
  }

  lemma RedirectAdds(s: State, no: TaskNo, last: TakeId)
    ensures var after, step := RedirectVault(s, no, last), SRedirectVault(no, last);
      && |after.takes| == |s.takes| + (if Redirects(s, step) then 1 else 0)
      && (Redirects(s, step) ==> IsAdded(s, step, after.takes[|s.takes|]))
  {
    hide MaxVersion, CurrentOf, Supersedable;
    if Redirects(s, SRedirectVault(no, last)) {
      var superseded := Supersede(s.takes, no);
      assert forall u :: 0 <= u < |s.takes| ==> superseded[u].root == s.takes[u].root && superseded[u].version == s.takes[u].version;
      hide Supersede;
    }
  }

  lemma OthersAddNone(s: State, step: Step)
    requires !(step.SPlanShots? || step.SActOnReview? || step.SRegenerateAsset? || step.SRedirectVault?)
    ensures |Next(s, step).takes| == |s.takes|
    ensures !StoresShots(s, step) && !Replaces(s, step) && !Regenerates(s, step) && !Redirects(s, step)
  {
    hide Settled, PicksFit, HasVaultTake, VaultQueued, LastVault, AllDone, AfterAccept, Revived;
  }

  // ---------------------------------------------------------------- the task that waits

  predicate Waits(s: State, task: Option<TaskNo>, no: TaskNo) {
    task == Some(no) && TaskIn(s, no, {G.Waiting})
  }

  /** A take fails for good, and the task that waits for it with it. */
  predicate FailsWith(s: State, step: Step, no: TaskNo, to: TakeStatus) {
    step.SFailTake? && step.to == to && step.t < |s.takes| && Fails(s.takes[step.t]) && Waits(s, s.takes[step.t].task, no)
  }

  /** A take asked for by the Vault has its direction: stored now, or before an earlier run was cut off. */
  predicate Directs(s: State, step: Step, no: TaskNo) {
    || (step.SDirectVaultTake? && step.t < |s.takes| && s.takes[step.t].status == Queued && s.takes[step.t].pendingDirection
        && s.takes[step.t].task == Some(no))
    || (step.SResumeVault? && AlreadyDirected(step.t) in s.noted && step.t < |s.takes| && s.takes[step.t].task == Some(no))
  }

  predicate TaskTakes(s: State, step: Step, no: TaskNo, to: G.TaskStatus) {
    match to
    case Pending => false
    case Queued =>
      || (step.SQueueTask? && step.no == no && TaskIn(s, no, {G.Pending}))
      || (step.SMoveTask? && step.no == no && step.move.Requeue?
          && TaskIn(s, no, {G.Running, G.BlockedBudget, G.Escalated, G.Failed}) && TaskIn(s, no, {step.move.from}))
    case Running => step.SMoveTask? && step.no == no && step.move == G.Start && TaskIn(s, no, {G.Queued})
    case Waiting => (StoresShots(s, step) && step.no == no) || (Directs(s, step, no) && TaskIn(s, no, {G.Running}))
    case Succeeded =>
      || (step.SComplete? && step.no == no && AllSettled(no) in s.noted && TaskIn(s, no, {G.Waiting}))
      || (AcceptsBest(s, step) && step.no == no)
    case Escalated =>
      || FailsWith(s, step, no, Rejected)
      || (GivesUp(s, step) && s.takes[step.t].task == Some(no) && TaskIn(s, no, {G.Queued, G.Running, G.Waiting}))
      || (step.SMoveTask? && step.no == no && step.move == G.HandOff(G.Escalated) && TaskIn(s, no, {G.Queued, G.Running, G.Waiting}))
    case Failed =>
      || FailsWith(s, step, no, TakeStatus.Failed)
      || (step.SMoveTask? && step.no == no && step.move.HandOff? && step.move.to != G.Escalated
          && TaskIn(s, no, {G.Queued, G.Running, G.Waiting}))
    case BlockedBudget => step.SMoveTask? && step.no == no && step.move == G.Block && TaskIn(s, no, {G.Queued, G.Running})
    case Cancelled => false
  }

  /** A direct task waits once its shots are stored or directed, is done once its takes were found accepted or
      people keep the best, and goes to people when a take fails for good or is refused once too often. */
  lemma TasksMoveExactly(s: State, step: Step, no: TaskNo, to: G.TaskStatus)
    requires no < |s.tasks| && s.tasks[no] != to
    ensures no < |Next(s, step).tasks|
    ensures Next(s, step).tasks[no] == to <==> TaskTakes(s, step, no, to)
  {
    match step
    case SMoveTask(n, move) => MovesTask(s, n, move, no, to);
    case SPlanShots(n, shots) => PlanMovesTask(s, n, shots, no, to);
    case SActOnReview(_, _, _) => ReviewMovesTask(s, step, no, to);
    case SFailTake(t, status) => FailMovesTask(s, t, status, no, to);
    case SDirectVaultTake(_) => DirectMovesTask(s, step, no, to);
    case SResumeVault(_) => DirectMovesTask(s, step, no, to);
    case _ => OthersMoveTask(s, step, no, to);
  }

  lemma MovesTask(s: State, n: TaskNo, move: G.Move, no: TaskNo, to: G.TaskStatus)
    requires no < |s.tasks| && s.tasks[no] != to
    ensures no < |MoveTask(s, n, move).tasks|
    ensures MoveTask(s, n, move).tasks[no] == to <==> TaskTakes(s, SMoveTask(n, move), no, to)
  {
    hide Acts, GivesUp;
    NoReview(s, SMoveTask(n, move));
  }

  lemma PlanMovesTask(s: State, n: TaskNo, shots: seq<Place>, no: TaskNo, to: G.TaskStatus)
    requires no < |s.tasks| && s.tasks[no] != to
    ensures no < |PlanShots(s, n, shots).tasks|
    ensures PlanShots(s, n, shots).tasks[no] == to <==> TaskTakes(s, SPlanShots(n, shots), no, to)
  {
    hide TakesFor, Supersede, NoneCurrent, Acts, GivesUp;
    NoReview(s, SPlanShots(n, shots));
  }

  lemma ReviewMovesTask(s: State, step: Step, no: TaskNo, to: G.TaskStatus)
    requires no < |s.tasks| && s.tasks[no] != to && step.SActOnReview?
    ensures no < |Next(s, step).tasks|
    ensures Next(s, step).tasks[no] == to <==> TaskTakes(s, step, no, to)
  {
    hide CurrentOf, NewTake;
  }

  lemma FailMovesTask(s: State, t: TakeId, status: TakeStatus, no: TaskNo, to: G.TaskStatus)
    requires no < |s.tasks| && s.tasks[no] != to
    ensures no < |FailTake(s, t, status).tasks|
    ensures FailTake(s, t, status).tasks[no] == to <==> TaskTakes(s, SFailTake(t, status), no, to)
  {
    hide Acts, GivesUp;
    NoReview(s, SFailTake(t, status));
  }

  lemma DirectMovesTask(s: State, step: Step, no: TaskNo, to: G.TaskStatus)
    requires no < |s.tasks| && s.tasks[no] != to && (step.SDirectVaultTake? || step.SResumeVault?)
    ensures no < |Next(s, step).tasks|
    ensures Next(s, step).tasks[no] == to <==> TaskTakes(s, step, no, to)
  {
    hide Acts, GivesUp;
    NoReview(s, step);
  }

  lemma OthersMoveTask(s: State, step: Step, no: TaskNo, to: G.TaskStatus)
    requires no < |s.tasks| && s.tasks[no] != to
    requires !(step.SMoveTask? || step.SPlanShots? || step.SActOnReview? || step.SFailTake? || step.SDirectVaultTake? || step.SResumeVault?)
    ensures no < |Next(s, step).tasks|
    ensures Next(s, step).tasks[no] == to <==> TaskTakes(s, step, no, to)
  {
    hide AfterAccept, Revived, NewTake, HasRival, LineageInFlight, CurrentOf, Supersede, Settled, PicksFit, HasVaultTake, VaultQueued,
      LastVault, Acts, GivesUp;
    NoReview(s, step);
  }

  // ---------------------------------------------------------------- what a job read was true

  /** Every take of the task on show is finished and was accepted, and there is one. */
  predicate AllAccepted(s: State, no: TaskNo) {
    && (exists t :: 0 <= t < |s.takes| && s.takes[t].task == Some(no) && s.takes[t].isCurrent)
    && forall t :: 0 <= t < |s.takes| && s.takes[t].task == Some(no) && s.takes[t].isCurrent ==>
         s.takes[t].status == Ready && s.takes[t].review.Some? && s.takes[t].review.value.verdict == Accept
  }

  /** A finished take for each of the task's lineages, and for no other. */
  ghost predicate PicksFinished(s: State, no: TaskNo, picks: map<TakeId, TakeId>) {
    && picks != map[]
    && (forall root :: root in picks <==> exists t :: 0 <= t < |s.takes| && s.takes[t].task == Some(no) && s.takes[t].root == root)
    && forall root :: root in picks ==>
         && picks[root] < |s.takes| && s.takes[picks[root]].root == root
         && s.takes[picks[root]].file && s.takes[picks[root]].status in {Ready, Rejected}
  }

  ghost predicate TrueNow(s: State, read: Read) {
    match read
    case Reviewed(t, onTrial) =>
      && t < |s.takes| && s.takes[t].review.Some? && s.takes[t].onTrial == onTrial
      && if s.takes[t].task.None? then onTrial else TaskIn(s, s.takes[t].task.value, {G.Waiting})
    case NoneQueued(no, last) =>
      && last < |s.takes| && s.takes[last].task == Some(no) && s.takes[last].origin == FromVault
      && forall t :: 0 <= t < |s.takes| && s.takes[t].task == Some(no) && s.takes[t].origin == FromVault ==> t <= last && s.takes[t].status != Queued
    case AlreadyDirected(t) =>
      t < |s.takes| && s.takes[t].origin == FromVault && s.takes[t].status == Queued && !s.takes[t].pendingDirection
    case AllSettled(no) => AllAccepted(s, no)
    case Picked(no, picks) => PicksFinished(s, no, picks)
  }

  lemma {:induction false} LastVaultIsLast(takes: TakeRows, no: TaskNo)
    requires HasVaultTake(takes, no)
    ensures forall t :: 0 <= t < |takes| && takes[t].task == Some(no) && takes[t].origin == FromVault ==> t <= LastVault(takes, no)
  {
    var n := |takes| - 1;
    if !(Of(takes[n], no) && takes[n].origin == FromVault) {
      var t :| 0 <= t < |takes| && Of(takes[t], no) && takes[t].origin == FromVault;
      assert takes[..n][t] == takes[t];
      LastVaultIsLast(takes[..n], no);
      assert forall u :: 0 <= u < n ==> takes[..n][u] == takes[u];
    }
  }

  lemma NewReadsAreTrue(s: State, step: Step, read: Read)
    requires read in Next(s, step).noted && read !in s.noted
    ensures TrueNow(s, read)
  {
    match step
    case SReadVaultTakes(no) => if HasVaultTake(s.takes, no) { LastVaultIsLast(s.takes, no); } hide LastVault;
    case SReadBest(no, picks) => if PicksFit(s.takes, no, picks) { PicksWereFinished(s, no, picks); } hide PicksFit, PicksFinished;
    case SReadReview(_) =>
    case SReadSettled(_) =>
    case SReadDirected(_) =>
    case SActOnReview(_, _, _) => hide TrueNow, CurrentOf, NewTake;
    case _ => hide TrueNow, PlanShots, AcceptBest, NewTake, CurrentOf, HasRival, LineageInFlight, Supersede, HandOffFor;
      PlansReadNothing(s, step);
  }

  lemma PlansReadNothing(s: State, step: Step)
    ensures step.SPlanShots? ==> Next(s, step).noted == s.noted
    ensures step.SAcceptBest? ==> Next(s, step).noted == s.noted
    ensures step.SFailTake? ==> Next(s, step).noted == s.noted
  {
    hide TakesFor, NoneCurrent, Supersede, AfterAccept, Revived;
  }

  lemma PicksWereFinished(s: State, no: TaskNo, picks: map<TakeId, TakeId>)
    requires PicksFit(s.takes, no, picks)
    ensures PicksFinished(s, no, picks)
  {
  }

  ghost predicate TrueAt(s: State, steps: seq<Step>, read: Read, i: nat) {
    i < |steps| && TrueNow(Exec(s, steps[..i]), read)
  }

  /** Whatever a job goes by on a run was so at some moment of it, however much later the job acts. */
  lemma {:induction false} ReadsWereTrue(s: State, steps: seq<Step>, read: Read)
    requires read in Exec(s, steps).noted && read !in s.noted
    ensures exists i: nat :: TrueAt(s, steps, read, i)
    decreases |steps|
  {
    hide Next, TrueNow;
    if steps != [] {
      var after := Next(s, steps[0]);
      if read in after.noted {
        NewReadsAreTrue(s, steps[0], read);
        assert steps[..0] == [];
        assert TrueAt(s, steps, read, 0);
      } else {
        ReadsWereTrue(after, steps[1..], read);
        var i: nat :| TrueAt(after, steps[1..], read, i);
        assert steps[..i + 1][0] == steps[0] && steps[..i + 1][1..] == steps[1..][..i];
        assert TrueAt(s, steps, read, i + 1);
      }
    }
  }

  // ---------------------------------------------------------------- what a run comes to

  lemma NewTasksAreNotDone(s: State, step: Step, no: TaskNo)
    requires |s.tasks| <= no < |Next(s, step).tasks|
    ensures Next(s, step).tasks[no] == G.Pending
  {
    match step
    case SRegenerateAsset(asset) => hide NewTake, HasRival, LineageInFlight;
    case SActOnReview(_, _, _) => hide CurrentOf, NewTake;
    case SPlanShots(n, shots) => hide TakesFor, Supersede, NoneCurrent;
    case SAcceptBest(n, picks) => hide AfterAccept, Revived;
    case _ => hide NewTake, CurrentOf, Supersede, Settled, PicksFit;
  }

  ghost predicate DoneAt(s: State, steps: seq<Step>, no: TaskNo, i: nat) {
    i < |steps| && TaskTakes(Exec(s, steps[..i]), steps[i], no, G.Succeeded)
  }

  lemma {:induction false} SomeStepEndsIt(s: State, steps: seq<Step>, no: TaskNo)
    requires !TaskIn(s, no, {G.Succeeded}) && TaskIn(Exec(s, steps), no, {G.Succeeded})
    ensures exists i: nat :: DoneAt(s, steps, no, i)
    decreases |steps|
  {
    hide Next, TaskTakes;
    if steps != [] {
      var after := Next(s, steps[0]);
      if TaskIn(after, no, {G.Succeeded}) {
        if no < |s.tasks| {
          TasksMoveExactly(s, steps[0], no, G.Succeeded);
        } else {
          NewTasksAreNotDone(s, steps[0], no);
        }
        assert steps[..0] == [];
        assert DoneAt(s, steps, no, 0);
      } else {
        SomeStepEndsIt(after, steps[1..], no);
        var i: nat :| DoneAt(after, steps[1..], no, i);
        assert steps[..i + 1][0] == steps[0] && steps[..i + 1][1..] == steps[1..][..i];
        assert DoneAt(s, steps, no, i + 1);
      }
    }
  }

  /** At that moment every take of the task on show was accepted. */
  ghost predicate AcceptedAt(s: State, steps: seq<Step>, no: TaskNo, i: nat) {
    i <= |steps| && AllAccepted(Exec(s, steps[..i]), no)
  }

  /** At that moment people had the task resolved with a finished take for each of its lineages. */
  ghost predicate ResolvedAt(s: State, steps: seq<Step>, no: TaskNo, i: nat) {
    && i < |steps| && steps[i].SAcceptBest? && steps[i].no == no && TaskIn(Exec(s, steps[..i]), no, {G.Escalated, G.Failed})
    && exists j: nat :: j <= i && PicksFinished(Exec(s, steps[..j]), no, steps[i].picks)
  }

  /** On every run, a direct task SUCCEEDED only if at some moment every take of it on show had been accepted by
      its review, or people resolved it with finished takes they kept. */
  lemma SucceededWasAccepted(s: State, steps: seq<Step>, no: TaskNo)
    requires Initial(s) && TaskIn(Exec(s, steps), no, {G.Succeeded})
    ensures exists i: nat :: AcceptedAt(s, steps, no, i) || ResolvedAt(s, steps, no, i)
  {
    hide Next, AllAccepted, PicksFinished;
    SomeStepEndsIt(s, steps, no);
    var i: nat :| DoneAt(s, steps, no, i);
    var before := steps[..i];
    if steps[i].SComplete? {
      ReadsWereTrue(s, before, AllSettled(no));
      var j: nat :| TrueAt(s, before, AllSettled(no), j);
      assert before[..j] == steps[..j];
      assert AcceptedAt(s, steps, no, j);
    } else {
      ReadsWereTrue(s, before, Picked(no, steps[i].picks));
      var j: nat :| TrueAt(s, before, Picked(no, steps[i].picks), j);
      assert before[..j] == steps[..j];
      assert ResolvedAt(s, steps, no, i);
    }
  }

  /** A take the Vault asked for is not worked on before it is directed. */
  ghost predicate Undirected(take: Take) {
    take.pendingDirection ==> !take.file && take.status in {Queued, TakeStatus.Failed, Rejected}
  }

  ghost predicate OnlyDirected(s: State) {
    && (forall t :: 0 <= t < |s.takes| ==> Undirected(s.takes[t]))
    && (forall no, picks: map<TakeId, TakeId>, root :: Picked(no, picks) in s.noted && root in picks ==> picks[root] < |s.takes| && s.takes[picks[root]].file)
  }

  lemma StepKeepsDirected(s: State, step: Step)
    requires OnlyDirected(s)
    ensures OnlyDirected(Next(s, step))
  {
    hide Next, IsMoved, IsAdded, IsPlanned, TrueNow, Replaces, Regenerates, Redirects, StoresShots, Undirected;
    var after := Next(s, step);
    TakesAddedExactly(s, step);
    forall t | 0 <= t < |s.takes| ensures t < |after.takes| && Undirected(after.takes[t]) && (s.takes[t].file ==> after.takes[t].file) {
      TakesMoveExactly(s, step, t);
      MovedStaysDirected(s, step, t, after.takes[t]);
    }
    forall t | |s.takes| <= t < |after.takes| ensures Undirected(after.takes[t]) {
      AddedIsUndirected(s, step, after, t);
    }
    forall no, picks: map<TakeId, TakeId>, root | Picked(no, picks) in after.noted && root in picks
      ensures picks[root] < |after.takes| && after.takes[picks[root]].file
    {
      if Picked(no, picks) !in s.noted {
        NewReadsAreTrue(s, step, Picked(no, picks));
        NotedPicksHaveFiles(s, no, picks);
      }
    }
  }

  lemma NotedPicksHaveFiles(s: State, no: TaskNo, picks: map<TakeId, TakeId>)
    requires TrueNow(s, Picked(no, picks))
    ensures forall root :: root in picks ==> picks[root] < |s.takes| && s.takes[picks[root]].file
  {
  }

  lemma MovedStaysDirected(s: State, step: Step, t: TakeId, after: Take)
    requires OnlyDirected(s) && t < |s.takes| && IsMoved(s, step, t, after)
    ensures Undirected(after) && (s.takes[t].file ==> after.file)
  {
    hide Promotes, Replaces, GivesUp, Acts, StoresShots, Redirects, MakesRoom, SetAside, GoesOnShow, LeavesTheShow, EndsTrial;
    var before := s.takes[t];
    assert Undirected(before);
    assert before.status == after.status || TakesStatus(s, step, t, after.status);
    if IsPick(s, step, t) {
      var root :| root in step.picks && step.picks[root] == t;
    }
  }

  lemma AddedIsUndirected(s: State, step: Step, after: State, t: TakeId)
    requires after == Next(s, step) && |s.takes| <= t < |after.takes|
    ensures Undirected(after.takes[t])
  {
    TakesAddedExactly(s, step);
    hide Next, Replaces, Regenerates, Redirects, ContinuesThePlace, IsNewest;
    if StoresShots(s, step) {
      var k := t - |s.takes|;
      assert IsPlanned(s.takes, s.takes, after.takes[|s.takes| + k], step.no, step.shots[k], |s.takes| + k);
    }
  }

  /** On every run, a take that is rendered, finished or has a file had its direction first. */
  lemma {:induction false} OnlyDirectedTakesRender(s: State, steps: seq<Step>)
    requires OnlyDirected(s)
    ensures OnlyDirected(Exec(s, steps))
    decreases |steps|
  {
    if steps != [] {
      hide Next, OnlyDirected;
      StepKeepsDirected(s, steps[0]);
      OnlyDirectedTakesRender(Next(s, steps[0]), steps[1..]);
    }
  }
}
