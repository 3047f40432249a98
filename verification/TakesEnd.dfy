/** The visual loop ends (module Takes): a number that every change a job makes to the takes brings down,
    but for the jobs that make new lineages' takes. */
module TakesEnd {
  import opened Options
  import opened Takes

  /** How far a take is from its end at this attempt, the trial it is on included. */
  function StageLeft(take: Take): nat {
    (match take.status
     case Queued => if take.pendingDirection then 5 else 4
     case Rendering => 3
     case Ready => if take.review.None? then 2 else 1
     case Failed => 0
     case Rejected => 0)
    + if take.onTrial then 1 else 0
  }

  predicate Closed(take: Take) {
    take.status == TakeStatus.Failed || take.status == Rejected
  }

  const ATTEMPT: nat := 7

  /** Each attempt still allowed may bring one more take. */
  function Left(take: Take, lastAttempt: nat): nat {
    if Closed(take) then 0
    else StageLeft(take) + if take.attempt < lastAttempt then (lastAttempt - take.attempt) * ATTEMPT else 0
  }

  function LeftOf(takes: TakeRows, lastAttempt: nat): nat {
    if takes == [] then 0 else LeftOf(takes[..|takes| - 1], lastAttempt) + Left(takes[|takes| - 1], lastAttempt)
  }

  /** What makes takes that follow no weak one: a run of the Visual Director, or a person in the Vault. */
  predicate Plans(step: Step) {
    step.SPlanShots? || step.SRegenerateAsset? || step.SRedirectVault?
  }

  /** A review job that shows a take whose trial is over: it read the take before. */
  predicate Repromotes(s: State, step: Step) {
    step.SActOnReview? && step.onTrial && step.t < |s.takes| && !s.takes[step.t].onTrial
    && s.takes[step.t].review.Some? && s.takes[step.t].review.value.verdict == Accept
  }

  // ---------------------------------------------------------------- sums

  lemma LeftOfOneMore(takes: TakeRows, take: Take, lastAttempt: nat)
    ensures LeftOf(takes + [take], lastAttempt) == LeftOf(takes, lastAttempt) + Left(take, lastAttempt)
  {
    assert (takes + [take])[..|takes|] == takes;
  }

  /** Every row has as little left as before, one of them less. */
  lemma {:induction false} RowsFall(before: TakeRows, after: TakeRows, lastAttempt: nat)
    requires |after| == |before| && forall t :: 0 <= t < |before| ==> Left(after[t], lastAttempt) <= Left(before[t], lastAttempt)
    ensures LeftOf(after, lastAttempt) <= LeftOf(before, lastAttempt)
    ensures (exists t :: 0 <= t < |before| && Left(after[t], lastAttempt) < Left(before[t], lastAttempt))
            ==> LeftOf(after, lastAttempt) < LeftOf(before, lastAttempt)
    decreases |before|
  {
    if before != [] {
      var n := |before| - 1;
      assert forall t :: 0 <= t < n ==> before[..n][t] == before[t] && after[..n][t] == after[t];
      RowsFall(before[..n], after[..n], lastAttempt);
      if exists t :: 0 <= t < |before| && Left(after[t], lastAttempt) < Left(before[t], lastAttempt) {
        var t :| 0 <= t < |before| && Left(after[t], lastAttempt) < Left(before[t], lastAttempt);
        if t < n {
          assert Left(after[..n][t], lastAttempt) < Left(before[..n][t], lastAttempt);
        }
      }
    }
  }

  lemma TakeFalls(takes: TakeRows, t: TakeId, take: Take, lastAttempt: nat)
    requires t < |takes| && Left(take, lastAttempt) < Left(takes[t], lastAttempt)
    ensures LeftOf(takes[t := take], lastAttempt) < LeftOf(takes, lastAttempt)
  {
    var after := takes[t := take];
    assert Left(after[t], lastAttempt) < Left(takes[t], lastAttempt);
    RowsFall(takes, after, lastAttempt);
  }

  // ---------------------------------------------------------------- the steps

  ghost predicate Falls(s: State, after: State) {
    after.lastAttempt == s.lastAttempt
    && (after.takes == s.takes || LeftOf(after.takes, s.lastAttempt) < LeftOf(s.takes, s.lastAttempt))
  }

  lemma SetFalls(s: State, t: TakeId, take: Take)
    requires t < |s.takes| && Left(take, s.lastAttempt) < Left(s.takes[t], s.lastAttempt)
    ensures Falls(s, SetTake(s, t, take))
  {
    TakeFalls(s.takes, t, take, s.lastAttempt);
  }

  /** The next take has one attempt less. */
  lemma RegenerateFalls(s: State, t: TakeId, onTrial: bool)
    requires CanRegenerate(s, t, onTrial) && s.takes[t].attempt < s.lastAttempt
    ensures Falls(s, RegenerateTake(s, t, onTrial))
  {
    var take, after := s.takes[t], RegenerateTake(s, t, onTrial);
    var rejected := s.takes[t := take.(status := Rejected, isCurrent := false)];
    var next := after.takes[|s.takes|];
    OneTakeChanges(s.takes, t, rejected[t], s.lastAttempt);
    LeftOfOneMore(rejected, next, s.lastAttempt);
    assert (s.lastAttempt - take.attempt) * ATTEMPT == (s.lastAttempt - (take.attempt + 1)) * ATTEMPT + ATTEMPT;
  }

  lemma {:induction false} OneTakeChanges(takes: TakeRows, t: TakeId, take: Take, lastAttempt: nat)
    requires t < |takes|
    ensures LeftOf(takes[t := take], lastAttempt) == LeftOf(takes, lastAttempt) - Left(takes[t], lastAttempt) + Left(take, lastAttempt)
    ensures Left(takes[t], lastAttempt) <= LeftOf(takes, lastAttempt)
  {
    var n := |takes| - 1;
    if t < n {
      OneTakeChanges(takes[..n], t, take, lastAttempt);
      assert takes[t := take][..n] == takes[..n][t := take];
    } else {
      assert takes[t := take][..n] == takes[..n];
    }
  }

  lemma PromoteFalls(s: State, t: TakeId, published: bool)
    requires t < |s.takes| && s.takes[t].status == Ready && !s.takes[t].isCurrent
    ensures var after := Promote(s, t, published);
      && after.lastAttempt == s.lastAttempt
      && (if s.takes[t].onTrial then LeftOf(after.takes, s.lastAttempt) < LeftOf(s.takes, s.lastAttempt)
          else LeftOf(after.takes, s.lastAttempt) <= LeftOf(s.takes, s.lastAttempt))
  {
    var after := Promote(s, t, published);
    assert s.takes[t].onTrial ==> Left(after.takes[t], s.lastAttempt) < Left(s.takes[t], s.lastAttempt);
    RowsFall(s.takes, after.takes, s.lastAttempt);
  }

  lemma WeakFalls(s: State, t: TakeId, onTrial: bool, published: bool)
    requires t < |s.takes| && s.takes[t].review.Some? && s.takes[t].review.value.verdict == Regenerate
    ensures Falls(s, ActOnReview(s, t, onTrial, published))
  {
    if Reviewed(t, onTrial) in s.noted {
      if Weak(s, t) {
        if CanRegenerate(s, t, onTrial) {
          RegenerateFalls(s, t, onTrial);
        }
      } else if s.takes[t].task.None? && s.takes[t].status == Ready && !s.takes[t].isCurrent {
        SetFalls(s, t, s.takes[t].(status := Rejected));
      }
    }
  }

  lemma ActFalls(s: State, t: TakeId, onTrial: bool, published: bool)
    requires !Repromotes(s, SActOnReview(t, onTrial, published))
    ensures Falls(s, ActOnReview(s, t, onTrial, published))
  {
    if Reviewed(t, onTrial) in s.noted && t < |s.takes| && s.takes[t].review.Some? {
      if s.takes[t].review.value.verdict == Accept {
        if onTrial && s.takes[t].status == Ready && !s.takes[t].isCurrent {
          PromoteFalls(s, t, published);
        }
      } else {
        WeakFalls(s, t, onTrial, published);
      }
    }
  }

  lemma RepromotedLeft(s: State, t: TakeId, published: bool)
    ensures LeftOf(ActOnReview(s, t, true, published).takes, s.lastAttempt) <= LeftOf(s.takes, s.lastAttempt)
      || (t < |s.takes| && s.takes[t].onTrial)
    ensures ActOnReview(s, t, true, published).lastAttempt == s.lastAttempt
  {
    if Reviewed(t, true) in s.noted && t < |s.takes| && !s.takes[t].onTrial && s.takes[t].review.Some? {
      if s.takes[t].review.value.verdict == Accept {
        if s.takes[t].status == Ready && !s.takes[t].isCurrent {
          PromoteFalls(s, t, published);
        }
      } else {
        WeakFalls(s, t, true, published);
      }
    }
  }

  lemma RenderFalls(s: State, t: TakeId)
    ensures Falls(s, Submit(s, t)) && Falls(s, Rendered(s, t))
  {
    if t < |s.takes| && s.takes[t].status == Queued {
      SetFalls(s, t, s.takes[t].(status := Rendering));
    }
    if t < |s.takes| && s.takes[t].status == Rendering {
      SetFalls(s, t, s.takes[t].(status := Ready, file := true));
    }
  }

  lemma FailFalls(s: State, t: TakeId, to: TakeStatus)
    ensures Falls(s, FailTake(s, t, to))
  {
    if FailTake(s, t, to) != s {
      SetFalls(s, t, s.takes[t].(status := to));
    }
  }

  lemma StoreFalls(s: State, t: TakeId, review: Review)
    ensures Falls(s, StoreReview(s, t, review))
  {
    if StoreReview(s, t, review) != s {
      SetFalls(s, t, s.takes[t].(review := Some(review)));
    }
  }

  lemma DirectFalls(s: State, t: TakeId)
    ensures Falls(s, DirectVaultTake(s, t))
  {
    if DirectVaultTake(s, t) != s {
      SetFalls(s, t, s.takes[t].(pendingDirection := false));
    }
  }

  /** Every job of the loop leaves the takes as they are or brings the number down; one that shows again a
      take whose trial is over changes at most what is on show. */
  lemma StepFalls(s: State, step: Step)
    requires !Plans(step) && !step.SAcceptBest?
    ensures var after := Next(s, step);
      if Repromotes(s, step) then LeftOf(after.takes, s.lastAttempt) <= LeftOf(s.takes, s.lastAttempt) && after.lastAttempt == s.lastAttempt
      else Falls(s, after)
  {
    hide LeftOf, ActOnReview, Submit, Rendered, FailTake, StoreReview, DirectVaultTake, Settled, PicksFit, HasVaultTake, VaultQueued, LastVault;
    match step
    case SActOnReview(t, onTrial, published) =>
      hide Falls;
      if Repromotes(s, step) { RepromotedLeft(s, t, published); } else { ActFalls(s, t, onTrial, published); }
    case SSubmit(t) => RenderFalls(s, t);
    case SRendered(t) => RenderFalls(s, t);
    case SFailTake(t, to) => FailFalls(s, t, to);
    case SStoreReview(t, review) => StoreFalls(s, t, review);
    case SDirectVaultTake(t) => DirectFalls(s, t);
    case _ =>
  }

  // ---------------------------------------------------------------- every run

  /** What a new take that follows no weak one may cost. */
  function Each(lastAttempt: nat): nat {
    (if lastAttempt > 1 then (lastAttempt - 1) * ATTEMPT else 0) + ATTEMPT
  }

  lemma NewIsAtMost(take: Take, lastAttempt: nat)
    requires take.attempt == 1
    ensures Left(take, lastAttempt) <= Each(lastAttempt)
  {}

  lemma OneMoreTimes(n: nat, each: nat)
    ensures (n + 1) * each == n * each + each
  {}

  lemma {:induction false} ShotsLeft(replaced: TakeRows, takes: TakeRows, no: TaskNo, shots: seq<Place>, lastAttempt: nat)
    requires |replaced| <= |takes|
    ensures var after := TakesFor(replaced, takes, no, shots);
      |after| == |takes| + |shots| && LeftOf(after, lastAttempt) <= LeftOf(takes, lastAttempt) + |shots| * Each(lastAttempt)
    decreases |shots|
  {
    if shots != [] {
      var take := NewTake(takes, ParentAt(replaced, shots[0]), Some(no), shots[0], true, FromDirector, 1, false, false, None);
      LeftOfOneMore(takes, take, lastAttempt);
      NewIsAtMost(take, lastAttempt);
      hide NewTake, Left, LeftOf, Each, ParentAt;
      ShotsLeft(replaced, takes + [take], no, shots[1..], lastAttempt);
      OneMoreTimes(|shots[1..]|, Each(lastAttempt));
    }
  }

  lemma SupersededLeft(takes: TakeRows, no: TaskNo, lastAttempt: nat)
    ensures LeftOf(Supersede(takes, no), lastAttempt) <= LeftOf(takes, lastAttempt)
    ensures LeftOf(NoneCurrent(takes), lastAttempt) <= LeftOf(takes, lastAttempt)
  {
    RowsFall(takes, Supersede(takes, no), lastAttempt);
    RowsFall(takes, NoneCurrent(takes), lastAttempt);
  }

  /** At most this much more is left, a new take's worth for each row more. */
  ghost predicate Costs(s: State, after: State) {
    && |s.takes| <= |after.takes| && after.lastAttempt == s.lastAttempt
    && LeftOf(after.takes, s.lastAttempt) <= LeftOf(s.takes, s.lastAttempt) + (|after.takes| - |s.takes|) * Each(s.lastAttempt)
  }

  lemma ShotsCost(s: State, no: TaskNo, shots: seq<Place>)
    ensures Costs(s, PlanShots(s, no, shots))
  {
    hide LeftOf, Each, TakesFor, Supersede, NoneCurrent, HasVaultTake;
    var superseded := Supersede(s.takes, no);
    SupersededLeft(s.takes, no, s.lastAttempt);
    SupersededLeft(superseded, no, s.lastAttempt);
    ShotsLeft(superseded, NoneCurrent(superseded), no, shots, s.lastAttempt);
  }

  lemma VaultCosts(s: State, asset: TakeId)
    ensures Costs(s, RegenerateAsset(s, asset))
  {
    hide LeftOf, Each, MaxVersion, LineageInFlight, HasRival, AllDone;
    var after := RegenerateAsset(s, asset);
    if |after.takes| != |s.takes| {
      OneNewCosts(s.takes, after.takes, s.lastAttempt);
    }
  }

  lemma RedirectCosts(s: State, no: TaskNo, last: TakeId)
    ensures Costs(s, RedirectVault(s, no, last))
  {
    hide LeftOf, Each, MaxVersion, Supersede, CurrentOf;
    var after := RedirectVault(s, no, last);
    if |after.takes| != |s.takes| {
      SupersededLeft(s.takes, no, s.lastAttempt);
      OneNewCosts(Supersede(s.takes, no), after.takes, s.lastAttempt);
    }
  }

  /** New takes cost what they may come to; what they replace is over. */
  lemma PlanCosts(s: State, step: Step)
    requires Plans(step)
    ensures Costs(s, Next(s, step))
  {
    hide Costs, PlanShots, RegenerateAsset, RedirectVault;
    match step
    case SPlanShots(no, shots) => ShotsCost(s, no, shots);
    case SRegenerateAsset(asset) => VaultCosts(s, asset);
    case SRedirectVault(no, last) => RedirectCosts(s, no, last);
  }

  lemma OneNewCosts(takes: TakeRows, after: TakeRows, lastAttempt: nat)
    requires |after| == |takes| + 1 && after[..|takes|] == takes && after[|takes|].attempt == 1
    ensures LeftOf(after, lastAttempt) <= LeftOf(takes, lastAttempt) + Each(lastAttempt)
  {
    LeftOfOneMore(takes, after[|takes|], lastAttempt);
    assert takes + [after[|takes|]] == after;
    NewIsAtMost(after[|takes|], lastAttempt);
  }

  /** The steps of a run at which a job changed a take. */
  function Changes(s: State, steps: seq<Step>): nat
    decreases |steps|
  {
    if steps == [] then 0
    else
      var after := Next(s, steps[0]);
      (if Plans(steps[0]) || Repromotes(s, steps[0]) || after.takes == s.takes then 0 else 1) + Changes(after, steps[1..])
  }

  /** The takes made that follow no weak one. */
  function Planned(s: State, steps: seq<Step>): nat
    decreases |steps|
  {
    if steps == [] then 0
    else
      var after := Next(s, steps[0]);
      (if Plans(steps[0]) && |after.takes| > |s.takes| then |after.takes| - |s.takes| else 0) + Planned(after, steps[1..])
  }

  ghost predicate NoneAccepted(steps: seq<Step>) {
    forall step :: step in steps ==> !step.SAcceptBest?
  }

  /** Until people take the best so far: however jobs repeat and interleave, they change the takes at most
      7 times for each attempt each planned take may still come to, showing again a take whose trial is
      over aside. */
  lemma {:induction false} TheLoopEnds(s: State, steps: seq<Step>)
    requires NoneAccepted(steps)
    ensures Changes(s, steps) + LeftOf(Exec(s, steps).takes, s.lastAttempt)
         <= LeftOf(s.takes, s.lastAttempt) + Planned(s, steps) * Each(s.lastAttempt)
    decreases |steps|
  {
    hide Next, LeftOf, Each;
    if steps != [] {
      var after := Next(s, steps[0]);
      TheLoopEnds(after, steps[1..]) by {
        assert NoneAccepted(steps[1..]);
      }
      var each, planned := Each(s.lastAttempt), Planned(after, steps[1..]);
      if Plans(steps[0]) {
        PlanCosts(s, steps[0]);
        assert (|after.takes| - |s.takes| + planned) * each == (|after.takes| - |s.takes|) * each + planned * each;
      } else {
        StepFalls(s, steps[0]);
      }
    }
  }
}
