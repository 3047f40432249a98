/** How many takes one planned shot can get (module Takes; apps/api/src/orchestrator/visuals.ts). */
module TakeBounds {
  import opened Options
  import opened Takes
  import opened TakeLineages
  import G = LiveGraph

  // ---------------------------------------------------------------- the invariant

  /** A successor is the next attempt of the weak take it names; that one is over, unless accept_best
      brought it back. */
  ghost predicate SuccessorFits(s: State, t: TakeId)
    requires t < |s.takes|
  {
    var take := s.takes[t];
    && 1 <= take.attempt <= s.lastAttempt
    && (take.successorOf.Some? ==>
          var weak := take.successorOf.value;
          && weak < t && take.attempt == s.takes[weak].attempt + 1
          && take.root == s.takes[weak].root && take.place == s.takes[weak].place
          && (s.takes[weak].status == Rejected || weak in s.revived))
  }

  ghost predicate Bounded(s: State) {
    && s.lastAttempt >= 1
    && forall t :: 0 <= t < |s.takes| ==> SuccessorFits(s, t)
  }

  predicate HasSuccessor(takes: TakeRows, t: TakeId) {
    exists u :: 0 <= u < |takes| && takes[u].successorOf == Some(t)
  }

  predicate OneSuccessorEach(takes: TakeRows) {
    forall t, u :: 0 <= t < u < |takes| && takes[t].successorOf.Some? ==> takes[t].successorOf != takes[u].successorOf
  }

  /** Rows keep what makes them successors, and one that is over comes back only by accept_best. */
  ghost predicate SameSuccessors(s: State, after: State) {
    && |s.takes| <= |after.takes| && after.lastAttempt == s.lastAttempt && s.revived <= after.revived
    && forall t :: 0 <= t < |s.takes| ==>
         && after.takes[t].attempt == s.takes[t].attempt && after.takes[t].successorOf == s.takes[t].successorOf
         && after.takes[t].root == s.takes[t].root && after.takes[t].place == s.takes[t].place
         && (s.takes[t].status == Rejected ==> after.takes[t].status == Rejected || t in after.revived)
  }

  /** New rows are first attempts. */
  ghost predicate NewAreFirst(s: State, after: State) {
    && |s.takes| <= |after.takes|
    && forall t :: |s.takes| <= t < |after.takes| ==> after.takes[t].attempt == 1 && after.takes[t].successorOf.None?
  }

  lemma OldRowsFit(s: State, after: State)
    requires Bounded(s) && SameSuccessors(s, after)
    ensures forall t :: 0 <= t < |s.takes| ==> SuccessorFits(after, t)
  {
    forall t | 0 <= t < |s.takes| ensures SuccessorFits(after, t) {
      assert SuccessorFits(s, t);
    }
  }

  lemma FirstAttemptsFit(s: State, after: State)
    requires Bounded(s) && SameSuccessors(s, after) && NewAreFirst(s, after)
    ensures Bounded(after) && (OneSuccessorEach(after.takes) <==> OneSuccessorEach(s.takes))
  {
    OldRowsFit(s, after);
    assert OneSuccessorEach(after.takes) <==> OneSuccessorEach(s.takes) by { SameDoubles(s, after); }
    hide SameSuccessors, OneSuccessorEach;
    forall t | 0 <= t < |after.takes| ensures SuccessorFits(after, t) {}
  }

  lemma SameDoubles(s: State, after: State)
    requires SameSuccessors(s, after) && NewAreFirst(s, after)
    ensures OneSuccessorEach(after.takes) <==> OneSuccessorEach(s.takes)
  {
    if OneSuccessorEach(after.takes) {
      forall t, u | 0 <= t < u < |s.takes| && s.takes[t].successorOf.Some? ensures s.takes[t].successorOf != s.takes[u].successorOf {
        assert after.takes[t].successorOf != after.takes[u].successorOf;
      }
    }
  }

  // ---------------------------------------------------------------- the steps that make no successor

  lemma {:induction false} ShotsAreFirstAttempts(replaced: TakeRows, takes: TakeRows, no: TaskNo, shots: seq<Place>)
    requires |replaced| <= |takes|
    ensures var after := TakesFor(replaced, takes, no, shots);
            && |takes| <= |after| && (forall t :: 0 <= t < |takes| ==> after[t] == takes[t])
            && forall t :: |takes| <= t < |after| ==> after[t].attempt == 1 && after[t].successorOf.None?
    decreases |shots|
  {
    if shots != [] {
      var first := NewTake(takes, ParentAt(replaced, shots[0]), Some(no), shots[0], true, FromDirector, 1, false, false, None);
      ShotsAreFirstAttempts(replaced, takes + [first], no, shots[1..]);
      assert TakesFor(replaced, takes, no, shots)[|takes|] == (takes + [first])[|takes|];
    }
  }

  lemma PlanMakesFirst(s: State, no: TaskNo, shots: seq<Place>)
    ensures SameSuccessors(s, PlanShots(s, no, shots)) && NewAreFirst(s, PlanShots(s, no, shots))
  {
    var superseded := Supersede(s.takes, no);
    ShotsAreFirstAttempts(superseded, NoneCurrent(superseded), no, shots);
    hide TakesFor;
  }

  lemma VaultMakesFirst(s: State, no: TaskNo, last: TakeId, asset: TakeId)
    ensures SameSuccessors(s, RedirectVault(s, no, last)) && NewAreFirst(s, RedirectVault(s, no, last))
    ensures SameSuccessors(s, RegenerateAsset(s, asset)) && NewAreFirst(s, RegenerateAsset(s, asset))
  {
    hide MaxVersion, CurrentOf, LineageInFlight, HasRival;
  }

  lemma AcceptMakesNone(s: State, no: TaskNo, picks: map<TakeId, TakeId>)
    ensures SameSuccessors(s, AcceptBest(s, no, picks)) && NewAreFirst(s, AcceptBest(s, no, picks))
  {
    hide PicksFit;
  }

  lemma PromoteMakesNone(s: State, t: TakeId, published: bool)
    requires t < |s.takes|
    ensures SameSuccessors(s, Promote(s, t, published)) && NewAreFirst(s, Promote(s, t, published))
  {
    hide CurrentOf;
  }

  /** The transaction makes a successor: only a review job's, on its way to regenerateTake. */
  predicate Regenerates(s: State, step: Step) {
    step.SActOnReview? && Reviewed(step.t, step.onTrial) in s.noted && Weak(s, step.t) && CanRegenerate(s, step.t, step.onTrial)
  }

  lemma ActMakesNone(s: State, t: TakeId, onTrial: bool, published: bool)
    requires !Regenerates(s, SActOnReview(t, onTrial, published))
    ensures var after := ActOnReview(s, t, onTrial, published); SameSuccessors(s, after) && NewAreFirst(s, after)
  {
    if Reviewed(t, onTrial) in s.noted && t < |s.takes| {
      PromoteMakesNone(s, t, published);
      hide Promote;
    }
  }

  lemma OtherStepsMakeNone(s: State, step: Step)
    requires !Regenerates(s, step)
    ensures SameSuccessors(s, Next(s, step)) && NewAreFirst(s, Next(s, step))
  {
    hide SameSuccessors, NewAreFirst, ActOnReview, AcceptBest, RegenerateAsset, RedirectVault, PlanShots;
    if step.SPlanShots? {
      PlanMakesFirst(s, step.no, step.shots);
    } else if step.SActOnReview? {
      ActMakesNone(s, step.t, step.onTrial, step.published);
    } else if step.SAcceptBest? {
      AcceptMakesNone(s, step.no, step.picks);
    } else if step.SRegenerateAsset? {
      VaultMakesFirst(s, 0, 0, step.asset);
    } else if step.SRedirectVault? {
      VaultMakesFirst(s, step.no, step.last, 0);
    } else {
      RowStepsMakeNone(s, step);
    }
  }

  lemma RowStepsMakeNone(s: State, step: Step)
    requires !step.SPlanShots? && !step.SActOnReview? && !step.SAcceptBest? && !step.SRegenerateAsset? && !step.SRedirectVault?
    ensures SameSuccessors(s, Next(s, step)) && NewAreFirst(s, Next(s, step))
  {
    hide Settled, HasVaultTake, VaultQueued, LastVault, PlanShots, ActOnReview, AcceptBest, RegenerateAsset, RedirectVault;
  }

  // ---------------------------------------------------------------- the step that makes one

  /** The review job acts on a take that has a successor, back on show since accept_best took it. */
  predicate RegeneratesRevived(s: State, step: Step) {
    Regenerates(s, step) && step.t in s.revived && HasSuccessor(s.takes, step.t)
  }

  /** A take that has a successor gets another exactly when accept_best has brought it back from REJECTED and
      it is still READY, and on show or not, as the job read it. */
  lemma SecondSuccessorExactly(s: State, step: Step)
    requires Bounded(s)
    ensures Regenerates(s, step) && HasSuccessor(s.takes, step.t) <==> RegeneratesRevived(s, step)
  {
    if Regenerates(s, step) && HasSuccessor(s.takes, step.t) {
      var u :| 0 <= u < |s.takes| && s.takes[u].successorOf == Some(step.t);
      assert SuccessorFits(s, u);
    }
  }

  /** What regenerateTake leaves. */
  ghost predicate AddsSuccessor(s: State, after: State, t: TakeId) {
    && t < |s.takes| && |after.takes| == |s.takes| + 1 && after.lastAttempt == s.lastAttempt && after.revived == s.revived
    && after.takes[t] == s.takes[t].(status := Rejected, isCurrent := false)
    && (forall i :: 0 <= i < |s.takes| && i != t ==> after.takes[i] == s.takes[i])
    && var next := after.takes[|s.takes|];
       next.attempt == s.takes[t].attempt + 1 && next.successorOf == Some(t) && next.root == s.takes[t].root && next.place == s.takes[t].place
  }

  lemma RegenerateAdds(s: State, step: Step)
    requires Regenerates(s, step)
    ensures AddsSuccessor(s, Next(s, step), step.t)
  {
    hide MaxVersion;
  }

  lemma RegenerateBounded(s: State, step: Step)
    requires Bounded(s) && Regenerates(s, step)
    ensures Bounded(Next(s, step))
    ensures OneSuccessorEach(Next(s, step).takes) <==> OneSuccessorEach(s.takes) && !HasSuccessor(s.takes, step.t)
  {
    RegenerateAdds(s, step);
    var after := Next(s, step);
    hide Next;
    AddedDoubles(s, after, step.t);
    OldRowsFit(s, after);
    hide OneSuccessorEach, HasSuccessor;
    assert SuccessorFits(s, step.t);
    forall t | 0 <= t < |after.takes| ensures SuccessorFits(after, t) {}
  }

  lemma AddedDoubles(s: State, after: State, t: TakeId)
    requires AddsSuccessor(s, after, t)
    ensures OneSuccessorEach(after.takes) <==> OneSuccessorEach(s.takes) && !HasSuccessor(s.takes, t)
  {
    var n := |s.takes|;
    assert forall i :: 0 <= i < n ==> after.takes[i].successorOf == s.takes[i].successorOf;
    if OneSuccessorEach(after.takes) {
      forall i, j | 0 <= i < j < n && s.takes[i].successorOf.Some? ensures s.takes[i].successorOf != s.takes[j].successorOf {
        assert after.takes[i].successorOf != after.takes[j].successorOf;
      }
      forall i | 0 <= i < n ensures s.takes[i].successorOf != Some(t) {
        assert after.takes[i].successorOf.Some? ==> after.takes[i].successorOf != after.takes[n].successorOf;
      }
    }
  }

  // ---------------------------------------------------------------- every run

  lemma StepBounded(s: State, step: Step)
    requires Bounded(s)
    ensures Bounded(Next(s, step)) && Next(s, step).lastAttempt == s.lastAttempt
    ensures OneSuccessorEach(Next(s, step).takes) <==> OneSuccessorEach(s.takes) && !RegeneratesRevived(s, step)
  {
    hide Bounded, Next, OneSuccessorEach, HasSuccessor, Regenerates;
    SecondSuccessorExactly(s, step);
    if Regenerates(s, step) {
      RegenerateBounded(s, step);
      RegenerateAdds(s, step);
    } else {
      OtherStepsMakeNone(s, step);
      FirstAttemptsFit(s, Next(s, step));
    }
  }

  /** No review job of the run acts on a take accept_best brought back after its successor was made. */
  ghost predicate NoneRevivedAgain(s: State, steps: seq<Step>)
    decreases |steps|
  {
    steps == [] || (!RegeneratesRevived(s, steps[0]) && NoneRevivedAgain(Next(s, steps[0]), steps[1..]))
  }

  lemma {:induction false} ExecBounded(s: State, steps: seq<Step>)
    requires Bounded(s)
    ensures Bounded(Exec(s, steps)) && Exec(s, steps).lastAttempt == s.lastAttempt
    ensures OneSuccessorEach(Exec(s, steps).takes) <==> OneSuccessorEach(s.takes) && NoneRevivedAgain(s, steps)
    decreases |steps|
  {
    hide Bounded, Next, OneSuccessorEach, RegeneratesRevived;
    if steps != [] {
      StepBounded(s, steps[0]);
      ExecBounded(Next(s, steps[0]), steps[1..]);
    }
  }

  /** On every run, whatever jobs repeat or come late: no take gets two successors if and only if no review
      job acts on a take accept_best brought back after its successor was made. */
  lemma OneSuccessorExactly(s: State, steps: seq<Step>)
    requires Initial(s)
    ensures OneSuccessorEach(Exec(s, steps).takes) <==> NoneRevivedAgain(s, steps)
  {
    ExecBounded(s, steps);
  }

  /** The attempts of one planned shot up to a take: the take, the weak one it replaced, and so on. */
  ghost function Attempts(takes: TakeRows, t: TakeId): (chain: seq<TakeId>)
    requires t < |takes| && forall u :: 0 <= u < |takes| && takes[u].successorOf.Some? ==> takes[u].successorOf.value < u
    decreases t
  {
    match takes[t].successorOf
    case None => [t]
    case Some(weak) => Attempts(takes, weak) + [t]
  }

  lemma {:induction false} AttemptsAreNumbered(s: State, t: TakeId)
    requires Bounded(s) && t < |s.takes|
    requires forall u :: 0 <= u < |s.takes| && s.takes[u].successorOf.Some? ==> s.takes[u].successorOf.value < u
    ensures |Attempts(s.takes, t)| <= s.takes[t].attempt
    decreases t
  {
    assert SuccessorFits(s, t);
    if s.takes[t].successorOf.Some? {
      AttemptsAreNumbered(s, s.takes[t].successorOf.value);
    }
  }

  /** On every run no chain of regenerations is longer than 1 + MAX_VISUAL_REGENERATIONS; with one successor
      each, that is all the takes a planned shot gets. */
  lemma ShotsGetBoundedTakes(s: State, steps: seq<Step>)
    requires Initial(s)
    ensures var takes := Exec(s, steps).takes;
            && (forall t :: 0 <= t < |takes| && takes[t].successorOf.Some? ==> takes[t].successorOf.value < t)
            && (forall t :: 0 <= t < |takes| ==> |Attempts(takes, t)| <= s.lastAttempt)
            && (NoneRevivedAgain(s, steps) ==> OneSuccessorEach(takes))
  {
    ExecBounded(s, steps);
    var end := Exec(s, steps);
    hide Exec, NoneRevivedAgain, OneSuccessorEach;
    forall t | 0 <= t < |end.takes| ensures end.takes[t].successorOf.Some? ==> end.takes[t].successorOf.value < t {
      assert SuccessorFits(end, t);
    }
    forall t | 0 <= t < |end.takes| ensures |Attempts(end.takes, t)| <= s.lastAttempt {
      AttemptsAreNumbered(end, t);
      assert SuccessorFits(end, t);
    }
  }
}
