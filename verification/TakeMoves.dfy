/** Which step of the visual loop puts a take on show, ends it, adds one or moves the task that waits for
    it, and when: said of every step of module Takes at once, on the rows alone. */
module TakeMoves {
  import opened Options
  import opened Takes
  import G = LiveGraph

  // ---------------------------------------------------------------- what the steps look at

  predicate TaskIn(s: State, no: TaskNo, statuses: set<G.TaskStatus>) {
    no < |s.tasks| && s.tasks[no] in statuses
  }

  predicate AskedByVault(s: State, no: TaskNo) {
    exists u :: 0 <= u < |s.takes| && s.takes[u].task == Some(no) && s.takes[u].origin == FromVault
  }

  /** A plan's shots are stored: its task is RUNNING, and no Vault regenerate's. */
  predicate StoresShots(s: State, step: Step) {
    step.SPlanShots? && TaskIn(s, step.no, {G.Running}) && !AskedByVault(s, step.no)
  }

  predicate Redirects(s: State, step: Step) {
    step.SRedirectVault? && NoneQueued(step.no, step.last) in s.noted && step.last < |s.takes|
  }

  /** A review job acts on what it read. */
  predicate Acts(s: State, step: Step, verdict: Verdict) {
    && step.SActOnReview? && Reviewed(step.t, step.onTrial) in s.noted && step.t < |s.takes|
    && s.takes[step.t].review.Some? && s.takes[step.t].review.value.verdict == verdict
  }

  /** An accepted take on trial goes on show; outside any plan only while the post is not past taking it and
      shows no newer take of the lineage. */
  predicate Promotes(s: State, step: Step) {
    && Acts(s, step, Accept) && step.onTrial
    && var take := s.takes[step.t];
       && take.status == Ready && !take.isCurrent
       && (take.task.None? ==>
             && !step.published
             && forall u :: 0 <= u < |s.takes| && s.takes[u].isCurrent && s.takes[u].root == take.root ==> s.takes[u].version <= take.version)
  }

  /** A take to regenerate with attempts left is replaced, if it is on show just as the job read. */
  predicate Replaces(s: State, step: Step) {
    && Acts(s, step, Regenerate) && s.takes[step.t].attempt < s.lastAttempt
    && s.takes[step.t].status == Ready && s.takes[step.t].isCurrent == !step.onTrial
  }

  /** One without attempts left: people decide when a task waits for it, and outside any plan it is set aside. */
  predicate GivesUp(s: State, step: Step) {
    Acts(s, step, Regenerate) && s.takes[step.t].attempt >= s.lastAttempt
  }

  predicate AcceptsBest(s: State, step: Step) {
    step.SAcceptBest? && TaskIn(s, step.no, {G.Escalated, G.Failed}) && Picked(step.no, step.picks) in s.noted
  }

  predicate IsPick(s: State, step: Step, t: TakeId) {
    AcceptsBest(s, step) && t in step.picks.Values
  }

  /** Still under way, or finished without being accepted. */
  predicate Open(take: Take) {
    take.status == Queued || take.status == Rendering
    || (take.status == Ready && !(take.review.Some? && take.review.value.verdict == Accept))
  }

  /** New takes of the task replace it. */
  predicate MakesRoom(s: State, step: Step, t: TakeId)
    requires t < |s.takes|
  {
    (StoresShots(s, step) || Redirects(s, step)) && s.takes[t].task == Some(step.no) && Open(s.takes[t])
  }

  /** Not picked, and of a lineage something else was picked for or on trial for the task. */
  predicate SetAside(s: State, step: Step, t: TakeId)
    requires t < |s.takes|
  {
    && AcceptsBest(s, step) && t !in step.picks.Values
    && (|| (s.takes[t].root in step.picks && s.takes[t].status in {Queued, Rendering})
        || (s.takes[t].task == Some(step.no) && s.takes[t].onTrial && s.takes[t].status == Ready))
  }

  // ---------------------------------------------------------------- a take's status

  predicate TakesStatus(s: State, step: Step, t: TakeId, to: TakeStatus)
    requires t < |s.takes|
  {
    match to
    case Queued => false
    case Rendering => step.SSubmit? && step.t == t && s.takes[t].status == Queued && !s.takes[t].pendingDirection
    case Ready => (step.SRendered? && step.t == t && s.takes[t].status == Rendering) || IsPick(s, step, t)
    case Failed => step.SFailTake? && step.t == t && step.to == TakeStatus.Failed && Fails(s.takes[t])
    case Rejected =>
      || (step.SFailTake? && step.t == t && step.to == Rejected && Fails(s.takes[t]))
      || MakesRoom(s, step, t)
      || (Replaces(s, step) && step.t == t)
      || (GivesUp(s, step) && step.t == t && s.takes[t].task.None? && s.takes[t].status == Ready && !s.takes[t].isCurrent)
      || SetAside(s, step, t)
  }

  /** A take may fail until it is reviewed. */
  predicate Fails(take: Take) {
    (take.status == Queued || take.status == Rendering || take.status == Ready) && take.review.None?
  }

  // ---------------------------------------------------------------- who is on show

  predicate GoesOnShow(s: State, step: Step, t: TakeId)
    requires t < |s.takes|
  {
    (Promotes(s, step) && step.t == t) || IsPick(s, step, t)
  }

  predicate LeavesTheShow(s: State, step: Step, t: TakeId)
    requires t < |s.takes|
  {
    || StoresShots(s, step)
    || (Replaces(s, step) && step.t == t)
    || (Promotes(s, step) && step.t != t && (s.takes[t].root == s.takes[step.t].root || s.takes[t].place == s.takes[step.t].place))
    || (AcceptsBest(s, step) && t !in step.picks.Values && (s.takes[t].root in step.picks || SetAside(s, step, t)))
  }

  predicate EndsTrial(s: State, step: Step, t: TakeId)
    requires t < |s.takes|
  {
    || IsPick(s, step, t)
    || (Acts(s, step, Accept) && step.t == t && step.onTrial && s.takes[t].status == Ready && !s.takes[t].isCurrent)
  }

  // ---------------------------------------------------------------- on one take already there

  /** What one step may make of a take. */
  predicate IsMoved(s: State, step: Step, t: TakeId, after: Take)
    requires t < |s.takes|
  {
    var before := s.takes[t];
    // what it is never changes
    && after.task == before.task && after.root == before.root && after.place == before.place && after.version == before.version
    && after.origin == before.origin && after.attempt == before.attempt && after.successorOf == before.successorOf
    && (forall to :: before.status != to ==> (after.status == to <==> TakesStatus(s, step, t, to)))
    && (after.file <==> before.file || (step.SRendered? && step.t == t && before.status == Rendering))
    && (after.review == if step.SStoreReview? && step.t == t && before.status == Ready && before.review.None?
                        then Some(step.review) else before.review)
    && (!before.isCurrent ==> (after.isCurrent <==> GoesOnShow(s, step, t)))
    && (before.isCurrent ==> (after.isCurrent <==> !LeavesTheShow(s, step, t)))
    // a trial ends when its take is promoted, kept, or read too late to be
    && (after.onTrial <==> before.onTrial && !EndsTrial(s, step, t))
    && (after.pendingDirection <==> before.pendingDirection && !(step.SDirectVaultTake? && step.t == t && before.status == Queued))
  }

  lemma TakesMoveExactly(s: State, step: Step, t: TakeId)
    requires t < |s.takes|
    ensures t < |Next(s, step).takes| && IsMoved(s, step, t, Next(s, step).takes[t])
  {
    match step
    case SPlanShots(no, shots) => PlanningMoves(s, no, shots, t);
    case SActOnReview(u, onTrial, published) => ReviewMoves(s, step, t);
    case SAcceptBest(no, picks) => AcceptingMoves(s, no, picks, t);
    case SRedirectVault(no, last) => RedirectingMoves(s, no, last, t);
    case SRegenerateAsset(asset) =>
      StayMoves(s, step, t);
      hide NewTake, HasRival, LineageInFlight, IsMoved;
    case _ => OthersMove(s, step, t);
  }

  lemma {:induction false} TakesForKeeps(replaced: TakeRows, takes: TakeRows, no: TaskNo, shots: seq<Place>)
    requires |replaced| <= |takes|
    ensures takes <= TakesFor(replaced, takes, no, shots) && |TakesFor(replaced, takes, no, shots)| == |takes| + |shots|
    decreases |shots|
  {
    if shots != [] {
      hide NewTake;
      TakesForKeeps(replaced,
                    takes + [NewTake(takes, ParentAt(replaced, shots[0]), Some(no), shots[0], true, FromDirector, 1, false, false, None)],
                    no, shots[1..]);
    }
  }

  lemma NoReview(s: State, step: Step)
    requires !step.SActOnReview?
    ensures (forall verdict :: !Acts(s, step, verdict)) && !Promotes(s, step) && !Replaces(s, step) && !GivesUp(s, step)
  {
  }

  lemma NoAcceptance(s: State, step: Step)
    requires !step.SAcceptBest?
    ensures !AcceptsBest(s, step) && forall t :: !IsPick(s, step, t)
    ensures forall t :: 0 <= t < |s.takes| ==> !SetAside(s, step, t)
  {
  }

  lemma NoRoomMade(s: State, step: Step)
    requires !step.SPlanShots? && !step.SRedirectVault?
    ensures !StoresShots(s, step) && forall t :: 0 <= t < |s.takes| ==> !MakesRoom(s, step, t)
  {
  }

  lemma PlanningMoves(s: State, no: TaskNo, shots: seq<Place>, t: TakeId)
    requires t < |s.takes|
    ensures t < |PlanShots(s, no, shots).takes| && IsMoved(s, SPlanShots(no, shots), t, PlanShots(s, no, shots).takes[t])
  {
    var step := SPlanShots(no, shots);
    PlanningLeaves(s, no, shots, t);
    NoReview(s, step);
    NoAcceptance(s, step);
    hide Acts, Promotes, Replaces, GivesUp, AcceptsBest, IsPick, SetAside, PlanShots, StoresShots;
  }

  lemma PlanningLeaves(s: State, no: TaskNo, shots: seq<Place>, t: TakeId)
    requires t < |s.takes|
    ensures t < |PlanShots(s, no, shots).takes|
    ensures var after := PlanShots(s, no, shots).takes[t];
            if StoresShots(s, SPlanShots(no, shots))
            then after == s.takes[t].(isCurrent := false,
                                      status := if Of(s.takes[t], no) && Supersedable(s.takes[t]) then Rejected else s.takes[t].status)
            else after == s.takes[t]
  {
    var superseded := Supersede(s.takes, no);
    TakesForKeeps(superseded, NoneCurrent(superseded), no, shots);
    hide TakesFor, Supersedable;
  }

  lemma RedirectingMoves(s: State, no: TaskNo, last: TakeId, t: TakeId)
    requires t < |s.takes|
    ensures t < |RedirectVault(s, no, last).takes| && IsMoved(s, SRedirectVault(no, last), t, RedirectVault(s, no, last).takes[t])
  {
    hide NewTake, CurrentOf;
  }

  lemma AcceptingMoves(s: State, no: TaskNo, picks: map<TakeId, TakeId>, t: TakeId)
    requires t < |s.takes|
    ensures t < |AcceptBest(s, no, picks).takes| && IsMoved(s, SAcceptBest(no, picks), t, AcceptBest(s, no, picks).takes[t])
  {
    var step := SAcceptBest(no, picks);
    hide Acts, Promotes, Replaces, GivesUp, StoresShots, MakesRoom, Fails, AcceptBest;
    NoReview(s, step);
    NoRoomMade(s, step);
    AcceptingLeaves(s, no, picks, t);
  }

  lemma AcceptingLeaves(s: State, no: TaskNo, picks: map<TakeId, TakeId>, t: TakeId)
    requires t < |s.takes|
    ensures t < |AcceptBest(s, no, picks).takes|
    ensures AcceptBest(s, no, picks).takes[t]
         == if AcceptsBest(s, SAcceptBest(no, picks)) then AfterAccept(s.takes[t], t, no, picks) else s.takes[t]
  {
    hide AfterAccept, Revived;
  }

  lemma {:induction false} CurrentOfIsNewest(takes: TakeRows, root: TakeId)
    ensures var onShow := CurrentOf(takes, root);
      && (onShow.None? <==> forall u :: 0 <= u < |takes| && takes[u].isCurrent ==> takes[u].root != root)
      && (onShow.Some? ==> forall u :: 0 <= u < |takes| && takes[u].isCurrent && takes[u].root == root ==> takes[u].version <= takes[onShow.value].version)
  {
    if takes != [] {
      var n := |takes| - 1;
      CurrentOfIsNewest(takes[..n], root);
      assert forall u :: 0 <= u < n ==> takes[..n][u] == takes[u];
    }
  }

  lemma ReviewMoves(s: State, step: Step, t: TakeId)
    requires t < |s.takes| && step.SActOnReview?
    ensures t < |Next(s, step).takes| && IsMoved(s, step, t, Next(s, step).takes[t])
  {
    if Acts(s, step, Accept) {
      AcceptedMoves(s, step, t);
    } else if Acts(s, step, Regenerate) {
      RefusedMoves(s, step, t);
    }
    hide Promote, RegenerateTake, Escalate, IsMoved;
    if !Acts(s, step, Accept) && !Acts(s, step, Regenerate) {
      StayMoves(s, step, t);
    }
  }

  lemma AcceptedMoves(s: State, step: Step, t: TakeId)
    requires t < |s.takes| && Acts(s, step, Accept)
    ensures t < |Next(s, step).takes| && IsMoved(s, step, t, Next(s, step).takes[t])
  {
    AcceptedLeaves(s, step, t);
    NoAcceptance(s, step);
    NoRoomMade(s, step);
    NotBoth(s, step);
    hide Next, AcceptsBest, IsPick, SetAside, StoresShots, MakesRoom, Fails, Replaces, GivesUp;
  }

  predicate ShareAPlace(a: Take, b: Take) {
    a.root == b.root || a.place == b.place
  }

  lemma AcceptedLeaves(s: State, step: Step, t: TakeId)
    requires t < |s.takes| && Acts(s, step, Accept)
    ensures t < |Next(s, step).takes|
    ensures var before := s.takes[t];
      Next(s, step).takes[t]
      == if step.t == t && step.onTrial && before.status == Ready && !before.isCurrent
         then before.(onTrial := false, isCurrent := Promotes(s, step))
         else if step.t != t && Promotes(s, step) && ShareAPlace(before, s.takes[step.t]) then before.(isCurrent := false)
         else before
  {
    hide CurrentOf, RegenerateTake;
    CurrentOfIsNewest(s.takes, s.takes[step.t].root);
  }

  lemma RefusedMoves(s: State, step: Step, t: TakeId)
    requires t < |s.takes| && Acts(s, step, Regenerate)
    ensures t < |Next(s, step).takes| && IsMoved(s, step, t, Next(s, step).takes[t])
  {
    hide NewTake, Promote, AcceptsBest, IsPick, SetAside, StoresShots, MakesRoom, Fails, Promotes;
    NoAcceptance(s, step);
    NoRoomMade(s, step);
    NotBoth(s, step);
  }

  lemma NotBoth(s: State, step: Step)
    ensures Acts(s, step, Accept) ==> !Replaces(s, step) && !GivesUp(s, step)
    ensures Acts(s, step, Regenerate) ==> !Promotes(s, step) && !Acts(s, step, Accept)
  {
  }

  /** Nothing the step does concerns takes. */
  predicate Quiet(s: State, step: Step) {
    || (step.SActOnReview? && !Acts(s, step, Accept) && !Acts(s, step, Regenerate))
    || !(step.SPlanShots? || step.SActOnReview? || step.SAcceptBest? || step.SRedirectVault? || step.SSubmit? || step.SRendered?
         || step.SFailTake? || step.SStoreReview? || step.SDirectVaultTake?)
  }

  lemma StayMoves(s: State, step: Step, t: TakeId)
    requires t < |s.takes| && Quiet(s, step)
    ensures IsMoved(s, step, t, s.takes[t])
  {
  }

  lemma OthersMove(s: State, step: Step, t: TakeId)
    requires t < |s.takes|
    requires !(step.SPlanShots? || step.SActOnReview? || step.SAcceptBest? || step.SRedirectVault? || step.SRegenerateAsset?)
    ensures t < |Next(s, step).takes| && IsMoved(s, step, t, Next(s, step).takes[t])
  {
    match step
    case SSubmit(u) => RenderMoves(s, step, t);
    case SRendered(u) => RenderMoves(s, step, t);
    case SFailTake(u, to) => FailingMoves(s, u, to, t);
    case SStoreReview(u, review) => StoringMoves(s, step, t);
    case SDirectVaultTake(u) => StoringMoves(s, step, t);
    case _ =>
      StayMoves(s, step, t);
      hide IsMoved, Settled, PicksFit, HasVaultTake, VaultQueued, LastVault, AllDone;
  }

  lemma RenderMoves(s: State, step: Step, t: TakeId)
    requires t < |s.takes| && (step.SSubmit? || step.SRendered?)
    ensures t < |Next(s, step).takes| && IsMoved(s, step, t, Next(s, step).takes[t])
  {
    hide Acts, Promotes, Replaces, GivesUp, AcceptsBest, IsPick, SetAside, StoresShots, MakesRoom;
    NoReview(s, step);
    NoAcceptance(s, step);
    NoRoomMade(s, step);
  }

  lemma FailingMoves(s: State, u: TakeId, to: TakeStatus, t: TakeId)
    requires t < |s.takes|
    ensures t < |FailTake(s, u, to).takes| && IsMoved(s, SFailTake(u, to), t, FailTake(s, u, to).takes[t])
  {
    hide Acts, Promotes, Replaces, GivesUp, AcceptsBest, IsPick, SetAside, StoresShots, MakesRoom;
    NoReview(s, SFailTake(u, to));
    NoAcceptance(s, SFailTake(u, to));
    NoRoomMade(s, SFailTake(u, to));
  }

  lemma StoringMoves(s: State, step: Step, t: TakeId)
    requires t < |s.takes| && (step.SStoreReview? || step.SDirectVaultTake?)
    ensures t < |Next(s, step).takes| && IsMoved(s, step, t, Next(s, step).takes[t])
  {
    hide Acts, Promotes, Replaces, GivesUp, AcceptsBest, IsPick, SetAside, StoresShots, MakesRoom;
    NoReview(s, step);
    NoAcceptance(s, step);
    NoRoomMade(s, step);
  }
}
