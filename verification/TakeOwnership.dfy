/** When people's accept_best finds its picks clear (module TakeLineages): as long as each place keeps
    one lineage while a direct task is unresolved. */
module TakeOwnership {
  import opened Options
  import opened Takes
  import opened TakeLineages
  import G = LiveGraph

  /** The takes of the task, and the takes on show in their places, are one lineage per place. */
  ghost predicate Own(takes: TakeRows, no: TaskNo) {
    forall t, u :: 0 <= t < |takes| && 0 <= u < |takes| && Of(takes[t], no)
      && (Of(takes[u], no) || takes[u].isCurrent) && takes[u].place == takes[t].place
      ==> takes[u].root == takes[t].root
  }

  ghost predicate Placed(s: State) {
    Grounded(s) && OneCurrent(s.takes) && (s.tasks != [] ==> Own(s.takes, |s.tasks| - 1))
  }

  // ---------------------------------------------------------------- what is asked of a run

  /** The take is of the lineage the newest task's takes in its place are of. */
  predicate OfThePlacesLineage(s: State, t: TakeId)
    requires t < |s.takes|
  {
    s.tasks != [] ==> forall v :: 0 <= v < |s.takes| && Of(s.takes[v], |s.tasks| - 1) && s.takes[v].place == s.takes[t].place
                                  ==> s.takes[v].root == s.takes[t].root
  }

  /** A shot list has one shot per place of the post's copy, which does not change while a direct task is
      unresolved; and a late review job shows no take where the newest task has another lineage's. */
  ghost predicate Fair(s: State, step: Step) {
    match step
    case SPlanShots(no, shots) =>
      && shots != [] && Distinct(shots)
      && (HasTakes(s.takes, no) ==> s.latest == set p | p in shots)
    case SActOnReview(t, onTrial, _) => Promotes(s, t, onTrial) ==> OfThePlacesLineage(s, t)
    case _ => true
  }

  ghost predicate AllFair(s: State, steps: seq<Step>)
    decreases |steps|
  {
    steps == [] || (Fair(s, steps[0]) && AllFair(Next(s, steps[0]), steps[1..]))
  }

  // ---------------------------------------------------------------- picks

  /** What acceptBestTake picked for a task that is still open is a pick for every lineage it has now. */
  ghost predicate PicksStand(s: State) {
    forall no: TaskNo, picks: map<TakeId, TakeId> :: Picked(no, picks) in s.noted ==>
      no < |s.tasks| && (s.tasks[no] != G.Succeeded ==> PicksHold(s.takes, no, picks))
  }

  ghost predicate Filled(takes: TakeRows, no: TaskNo, place: Place) {
    exists v :: 0 <= v < |takes| && Of(takes[v], no) && takes[v].place == place
  }

  /** A task that planned shots has a take in every place of its list. */
  ghost predicate PlansCover(s: State) {
    var no := |s.tasks| - 1;
    s.tasks != [] && s.tasks[no] != G.Succeeded && HasTakes(s.takes, no) && !HasVaultTake(s.takes, no)
    ==> forall place :: place in s.latest ==> Filled(s.takes, no, place)
  }

  /** Rows keep lineage and file, and the task's new rows are of lineages it had. */
  ghost predicate SameRoots(before: TakeRows, after: TakeRows, no: TaskNo) {
    && |before| <= |after|
    && (forall t :: 0 <= t < |before| ==>
          after[t].task == before[t].task && after[t].root == before[t].root && after[t].place == before[t].place
          && after[t].origin == before[t].origin && (before[t].file ==> after[t].file))
    && (forall t :: |before| <= t < |after| && Of(after[t], no) ==>
          exists v :: 0 <= v < |before| && Of(before[v], no) && before[v].root == after[t].root)
  }

  lemma PicksStillHold(before: TakeRows, after: TakeRows, no: TaskNo, picks: map<TakeId, TakeId>)
    requires PicksHold(before, no, picks) && SameRoots(before, after, no)
    ensures PicksHold(after, no, picks)
  {
    forall t | 0 <= t < |after| && Of(after[t], no) ensures after[t].root in picks {
      assert t < |before| ==> Of(before[t], no);
    }
    forall root | root in picks ensures exists t :: 0 <= t < |after| && Of(after[t], no) && after[t].root == root {
      var v :| 0 <= v < |before| && Of(before[v], no) && before[v].root == root;
      assert Of(after[v], no);
    }
  }

  // ---------------------------------------------------------------- planning

  lemma OnlyOneShown(takes: TakeRows, place: Place, c: TakeId)
    requires OneCurrent(takes) && c < |takes| && takes[c].isCurrent && takes[c].place == place
    ensures ParentAt(takes, place) == Some(c)
  {
    var p := ParentAt(takes, place);
    assert p.Some? && takes[p.value].isCurrent && takes[p.value].place == place;
  }

  /** A shot of a repeated run carries on the lineage its task's earlier takes in the place are of. */
  lemma RerunShot(s: State, no: TaskNo, shots: seq<Place>, after: TakeRows, t: TakeId, k: nat)
    requires Placed(s) && no == |s.tasks| - 1 && Fair(s, SPlanShots(no, shots))
    requires PlannedFrom(s.takes, Supersede(s.takes, no), after, no, shots)
    requires t < |s.takes| && Of(s.takes[t], no) && k < |shots| && after[|s.takes| + k].place == s.takes[t].place
    ensures after[|s.takes| + k].root == s.takes[t].root
  {
    hide Placed, Fair, Supersede, ParentAt;
    assert ShotTake(Supersede(s.takes, no), after[|s.takes| + k], |s.takes| + k, no, shots[k]);
    RerunKeepsRoot(s, no, shots, t, k);
  }

  lemma DistinctPlaces(before: TakeRows, replaced: TakeRows, after: TakeRows, no: TaskNo, shots: seq<Place>, j: nat, k: nat)
    requires PlannedFrom(before, replaced, after, no, shots) && Distinct(shots) && j < |shots| && k < |shots|
    requires after[|before| + j].place == after[|before| + k].place
    ensures j == k
  {
    assert ShotTake(replaced, after[|before| + j], |before| + j, no, shots[j]);
    assert ShotTake(replaced, after[|before| + k], |before| + k, no, shots[k]);
  }

  /** Each new take carries on the lineage of the take that was in its place, so a repeated run of the
      task stays within its lineages. */
  lemma PlannedOwn(s: State, no: TaskNo, shots: seq<Place>)
    requires Placed(s) && no == |s.tasks| - 1 && Fair(s, SPlanShots(no, shots))
    ensures var superseded := Supersede(s.takes, no);
            Own(TakesFor(superseded, NoneCurrent(superseded), no, shots), no)
  {
    var superseded, n := Supersede(s.takes, no), |s.takes|;
    var after := TakesFor(superseded, NoneCurrent(superseded), no, shots);
    PlannedFromThese(s, no, shots);
    hide TakesFor, NoneCurrent, Supersede, ShotTake, Lineages, OneCurrent, Covered, TasksFit;
    assert Own(s.takes, no) && Distinct(shots);
    hide Placed, Fair, Distinct;
    forall t, u | 0 <= t < |after| && 0 <= u < |after| && Of(after[t], no)
                  && (Of(after[u], no) || after[u].isCurrent) && after[u].place == after[t].place
      ensures after[u].root == after[t].root
    {
      if t < n && u < n {
        assert Of(s.takes[t], no) && Of(s.takes[u], no);
      } else if t >= n && u >= n {
        DistinctPlaces(s.takes, superseded, after, no, shots, t - n, u - n);
      } else if t >= n {
        RerunShot(s, no, shots, after, u, t - n);
      } else {
        RerunShot(s, no, shots, after, t, u - n);
      }
    }
  }

  lemma RerunKeepsRoot(s: State, no: TaskNo, shots: seq<Place>, t: TakeId, k: nat)
    requires Placed(s) && no == |s.tasks| - 1 && Fair(s, SPlanShots(no, shots))
    requires t < |s.takes| && Of(s.takes[t], no) && k < |shots| && shots[k] == s.takes[t].place
    ensures var parent := ParentAt(Supersede(s.takes, no), shots[k]);
            parent.Some? && Supersede(s.takes, no)[parent.value].root == s.takes[t].root
  {
    assert HasTakes(s.takes, no);
    assert shots[k] in s.latest;
    assert Shows(s.takes, shots[k]);
    var c :| 0 <= c < |s.takes| && s.takes[c].isCurrent && s.takes[c].place == shots[k];
    var superseded := Supersede(s.takes, no);
    assert OneCurrent(superseded);
    OnlyOneShown(superseded, shots[k], c);
  }

  // ---------------------------------------------------------------- the other steps

  lemma MarksKeepOwn(before: TakeRows, after: TakeRows, no: TaskNo)
    requires Own(before, no) && SameMarks(before, after)
    ensures Own(after, no)
  {
  }

  lemma PromotedOwn(s: State, t: TakeId, published: bool)
    requires Placed(s) && t < |s.takes| && s.tasks != [] && OfThePlacesLineage(s, t)
    ensures Own(Promote(s, t, published).takes, |s.tasks| - 1)
  {
    hide Grounded, OneCurrent, CurrentOf;
    var after := Promote(s, t, published).takes;
    assert forall i :: 0 <= i < |s.takes| ==> after[i].root == s.takes[i].root && after[i].place == s.takes[i].place
                                              && after[i].task == s.takes[i].task && (after[i].isCurrent ==> s.takes[i].isCurrent || i == t);
  }

  /** Showing a take leaves the newest task's places one lineage each exactly when its takes in that place
      are of the take's lineage. */
  lemma ShowingKeepsPlacesExactly(s: State, t: TakeId, published: bool)
    requires Placed(s) && s.planned && t < |s.takes| && s.takes[t].status == Ready && !s.takes[t].isCurrent
    ensures Placed(Promote(s, t, published)) <==> OfThePlacesLineage(s, t)
  {
    if OfThePlacesLineage(s, t) {
      PromoteKeepsGrounded(s, t, published);
      PromotedOwn(s, t, published);
    } else {
      var no := |s.tasks| - 1;
      var v :| 0 <= v < |s.takes| && Of(s.takes[v], no) && s.takes[v].place == s.takes[t].place && s.takes[v].root != s.takes[t].root;
      var after := Promote(s, t, published);
      hide Lineages, OneCurrent, Covered, TrialsHidden, CurrentOf;
      assert s.takes[t].task.Some? by { TakesOfPlannedHaveTasks(s, t); }
      assert Of(after.takes[v], no) && after.takes[t].isCurrent && after.tasks == s.tasks;
      assert after.takes[v].place == after.takes[t].place && after.takes[v].root != after.takes[t].root;
      assert !Own(after.takes, no);
    }
  }

  lemma TakesOfPlannedHaveTasks(s: State, t: TakeId)
    requires TasksFit(s) && s.planned && t < |s.takes|
    ensures s.takes[t].task.Some?
  {
  }

  lemma RegenerateOwn(s: State, t: TakeId, onTrial: bool)
    requires Placed(s) && CanRegenerate(s, t, onTrial)
    ensures s.tasks != [] ==> Own(RegenerateTake(s, t, onTrial).takes, |s.tasks| - 1)
  {
    hide Grounded, MaxVersion;
    var after, n := RegenerateTake(s, t, onTrial).takes, |s.takes|;
    assert after[n].root == s.takes[t].root && after[n].place == s.takes[t].place && after[n].task == s.takes[t].task;
    assert after[n].isCurrent ==> s.takes[t].isCurrent;
    assert forall i :: 0 <= i < n && i != t ==> after[i] == s.takes[i];
  }

  /** A lineage of the task has a take of the task in the same place as any of its takes. */
  lemma PickOwn(s: State, no: TaskNo, picks: map<TakeId, TakeId>, root: TakeId) returns (t: TakeId)
    requires Placed(s) && PicksHold(s.takes, no, picks) && root in picks
    ensures t < |s.takes| && Of(s.takes[t], no) && s.takes[t].root == root && s.takes[t].place == s.takes[picks[root]].place
  {
    t :| 0 <= t < |s.takes| && Of(s.takes[t], no) && s.takes[t].root == root;
    SameRootSamePlace(s.takes, t, picks[root]);
  }

  lemma RootsApart(takes: TakeRows, no: TaskNo, t: TakeId, u: TakeId)
    requires Own(takes, no) && t < |takes| && u < |takes| && Of(takes[t], no) && (Of(takes[u], no) || takes[u].isCurrent)
    requires takes[t].root != takes[u].root
    ensures takes[t].place != takes[u].place
  {
  }


  /** The picks of the newest task are clear: each is in a place of the task's own lineage. */
  lemma OwnPicksAreClear(s: State, no: TaskNo, picks: map<TakeId, TakeId>)
    requires Placed(s) && no == |s.tasks| - 1 && PicksHold(s.takes, no, picks)
    ensures PicksFound(s.takes, picks) && Clear(s.takes, picks)
  {
    hide Grounded, Own;
    forall root, other | root in picks && other in picks && root != other
      ensures s.takes[picks[root]].place != s.takes[picks[other]].place
    {
      var t := PickOwn(s, no, picks, root);
      var u := PickOwn(s, no, picks, other);
      RootsApart(s.takes, no, t, u);
    }
    forall root, u | root in picks && 0 <= u < |s.takes| && s.takes[u].isCurrent && s.takes[u].place == s.takes[picks[root]].place
      ensures s.takes[u].root == root
    {
      var t := PickOwn(s, no, picks, root);
      if s.takes[u].root != root {
        RootsApart(s.takes, no, t, u);
      }
    }
  }

  lemma FairAcceptsAreClear(s: State, step: Step)
    requires Placed(s) && PicksStand(s)
    ensures AcceptsClear(s, step)
  {
    if step.SAcceptBest? && Fires(s, step.no, step.picks) {
      OneTaskMoves(s, step.no, G.Succeeded);
      assert PicksHold(s.takes, step.no, step.picks);
      OwnPicksAreClear(s, step.no, step.picks);
    }
  }

  lemma AcceptedOwn(s: State, no: TaskNo, picks: map<TakeId, TakeId>)
    requires Placed(s) && no == |s.tasks| - 1 && Fires(s, no, picks) && PicksHold(s.takes, no, picks)
    ensures Own(AcceptBest(s, no, picks).takes, no)
  {
    AcceptedRows(s, no, picks);
    hide AcceptBest, Grounded, PicksHold;
    var after := AcceptBest(s, no, picks).takes;
    forall t, u | 0 <= t < |after| && 0 <= u < |after| && Of(after[t], no)
                  && (Of(after[u], no) || after[u].isCurrent) && after[u].place == after[t].place
      ensures after[u].root == after[t].root
    {
      if u in picks.Values {
        PickedRoot(s, no, picks, u, t);
      }
    }
  }

  lemma PickedRoot(s: State, no: TaskNo, picks: map<TakeId, TakeId>, u: TakeId, t: TakeId)
    requires Placed(s) && no == |s.tasks| - 1 && PicksHold(s.takes, no, picks)
    requires u in picks.Values && u < |s.takes| && t < |s.takes| && Of(s.takes[t], no) && s.takes[u].place == s.takes[t].place
    ensures s.takes[u].root == s.takes[t].root
  {
    hide Lineages;
    var root :| root in picks && picks[root] == u;
    var own := PickOwn(s, no, picks, root);
  }

  lemma RedirectOwn(s: State, no: TaskNo, last: TakeId)
    requires Placed(s) && ReadsFit(s) && NoneQueued(no, last) in s.noted && last < |s.takes|
    requires RedirectVault(s, no, last).takes[|s.takes|].root == s.takes[last].root
    ensures s.tasks != [] ==> Own(RedirectVault(s, no, last).takes, |s.tasks| - 1)
  {
    hide Grounded, OneCurrent, MaxVersion, CurrentOf;
    var after, n := RedirectVault(s, no, last).takes, |s.takes|;
    assert ReadFits(s.takes, NoneQueued(no, last));
    assert after[n].task == Some(no) && after[n].place == s.takes[last].place && !after[n].isCurrent;
    assert forall i :: 0 <= i < n ==> after[i].root == s.takes[i].root && after[i].place == s.takes[i].place
                                      && after[i].task == s.takes[i].task && after[i].isCurrent == s.takes[i].isCurrent;
  }

  // ---------------------------------------------------------------- picks on every step

  /** Rows of a step: the newest task keeps its lineages, and no finished task comes back. */
  ghost predicate KeepsRoots(s: State, after: State) {
    && |s.tasks| <= |after.tasks|
    && (forall no :: 0 <= no < |s.tasks| && s.tasks[no] == G.Succeeded ==> after.tasks[no] == G.Succeeded)
    && ((s.tasks != [] && s.tasks[|s.tasks| - 1] != G.Succeeded && HasTakes(s.takes, |s.tasks| - 1))
        ==> SameRoots(s.takes, after.takes, |s.tasks| - 1))
  }

  lemma RootsKeepPicks(s: State, after: State)
    requires TasksFit(s) && PicksStand(s) && KeepsRoots(s, after)
    requires forall read :: read in after.noted && read !in s.noted && read.Picked? ==> PicksHold(s.takes, read.no, read.picks) && after.takes == s.takes
    ensures PicksStand(after)
  {
    hide SameRoots, PicksHold;
    forall no: TaskNo, picks: map<TakeId, TakeId> | Picked(no, picks) in after.noted
      ensures no < |after.tasks| && (after.tasks[no] != G.Succeeded ==> PicksHold(after.takes, no, picks))
    {
      if Picked(no, picks) in s.noted {
        if after.tasks[no] != G.Succeeded {
          PicksHaveTakes(s.takes, no, picks);
          PicksStillHold(s.takes, after.takes, no, picks);
        }
      } else {
        PicksHaveTakes(s.takes, no, picks);
      }
    }
  }

  lemma PicksHaveTakes(takes: TakeRows, no: TaskNo, picks: map<TakeId, TakeId>)
    requires PicksHold(takes, no, picks)
    ensures HasTakes(takes, no)
  {
    var root :| root in picks;
  }

  lemma PlanKeepsPicks(s: State, no: TaskNo, shots: seq<Place>)
    requires Placed(s) && PicksStand(s) && PlansCover(s) && Fair(s, SPlanShots(no, shots))
    ensures PicksStand(PlanShots(s, no, shots)) && PlansCover(PlanShots(s, no, shots))
  {
    hide PicksStand, PlansCover, Lineages, OneCurrent, Covered, Own, HasVaultTake;
    if TaskIs(s, no, G.Running) && !HasVaultTake(s.takes, no) {
      var after := PlanShots(s, no, shots);
      ShotsMade(s, no, shots);
      hide PlanShots;
      if HasTakes(s.takes, no) {
        RerunRoots(s, no, shots, after.takes);
      }
      assert no == |s.tasks| - 1;
      hide Placed, Fair, PlannedFrom;
      PlannedCover(s, after, no, shots);
      PlanPicksStand(s, after, no);
    }
  }

  ghost predicate ShotRows(takes: TakeRows, n: nat, no: TaskNo, shots: seq<Place>) {
    |takes| == n + |shots| && forall k :: 0 <= k < |shots| ==> takes[n + k].place == shots[k] && Of(takes[n + k], no)
  }

  lemma ShotsMade(s: State, no: TaskNo, shots: seq<Place>)
    requires TaskIs(s, no, G.Running) && !HasVaultTake(s.takes, no)
    ensures var after, n := PlanShots(s, no, shots), |s.takes|;
      && PlannedFrom(s.takes, Supersede(s.takes, no), after.takes, no, shots)
      && (forall t :: 0 <= t < n ==> after.takes[t].file == s.takes[t].file && after.takes[t].origin == s.takes[t].origin)
      && ShotRows(after.takes, n, no, shots)
  {
    PlannedFromThese(s, no, shots);
    SupersededFiles(s.takes, no, shots);
    hide TakesFor, Supersede, NoneCurrent, PlannedFrom;
    PlannedShotRows(s.takes, Supersede(s.takes, no), PlanShots(s, no, shots).takes, no, shots);
  }

  lemma PlannedShotRows(before: TakeRows, replaced: TakeRows, after: TakeRows, no: TaskNo, shots: seq<Place>)
    requires PlannedFrom(before, replaced, after, no, shots)
    ensures ShotRows(after, |before|, no, shots)
  {
    forall k | 0 <= k < |shots| ensures after[|before| + k].place == shots[k] && Of(after[|before| + k], no) {
      assert ShotTake(replaced, after[|before| + k], |before| + k, no, shots[k]);
    }
  }

  lemma PlanPicksStand(s: State, after: State, no: TaskNo)
    requires Placed(s) && PicksStand(s) && no == |s.tasks| - 1 && TaskIs(s, no, G.Running)
    requires after.tasks == s.tasks[no := G.Waiting] && after.noted == s.noted
    requires HasTakes(s.takes, no) ==> SameRoots(s.takes, after.takes, no)
    ensures PicksStand(after)
  {
    hide Lineages, OneCurrent, Covered, Own, HasTakes, SameRoots, PicksStand;
    RootsKeepPicks(s, after);
  }

  lemma RerunIsOfTheNewest(s: State, no: TaskNo, shots: seq<Place>)
    requires Placed(s) && Fair(s, SPlanShots(no, shots)) && TaskIs(s, no, G.Running) && !HasVaultTake(s.takes, no) && HasTakes(s.takes, no)
    ensures no == |s.tasks| - 1 && s.latest == set p | p in shots
  {
    hide OneCurrent, Covered, Own;
  }

  lemma RerunRoots(s: State, no: TaskNo, shots: seq<Place>, after: TakeRows)
    requires Placed(s) && PlansCover(s) && Fair(s, SPlanShots(no, shots)) && TaskIs(s, no, G.Running) && !HasVaultTake(s.takes, no)
    requires HasTakes(s.takes, no) && PlannedFrom(s.takes, Supersede(s.takes, no), after, no, shots)
    requires forall t :: 0 <= t < |s.takes| ==> after[t].file == s.takes[t].file && after[t].origin == s.takes[t].origin
    requires ShotRows(after, |s.takes|, no, shots)
    ensures SameRoots(s.takes, after, no)
  {
    hide Placed, Fair, Lineages, OneCurrent, Covered, Own, TasksFit, Supersede, ShotTake, HasVaultTake;
    var n := |s.takes|;
    RerunIsOfTheNewest(s, no, shots);
    forall t | n <= t < |after| && Of(after[t], no)
      ensures exists v :: 0 <= v < n && Of(s.takes[v], no) && s.takes[v].root == after[t].root
    {
      assert shots[t - n] in s.latest;
      assert Filled(s.takes, no, shots[t - n]);
      var v :| 0 <= v < n && Of(s.takes[v], no) && s.takes[v].place == shots[t - n];
      RerunShot(s, no, shots, after, v, t - n);
    }
  }

  lemma SupersededFiles(takes: TakeRows, no: TaskNo, shots: seq<Place>)
    ensures var superseded := Supersede(takes, no);
            var after := TakesFor(superseded, NoneCurrent(superseded), no, shots);
      |takes| <= |after| && forall t :: 0 <= t < |takes| ==> after[t].file == takes[t].file && after[t].origin == takes[t].origin
  {
    var superseded := Supersede(takes, no);
    ShotTakes(superseded, NoneCurrent(superseded), no, shots);
  }

  lemma PlannedCover(s: State, after: State, no: TaskNo, shots: seq<Place>)
    requires no == |s.tasks| - 1 && |after.tasks| == |s.tasks| && after.latest == set p | p in shots
    requires ShotRows(after.takes, |s.takes|, no, shots)
    ensures PlansCover(after)
  {
    forall place | place in after.latest ensures Filled(after.takes, no, place) {
      var k :| 0 <= k < |shots| && shots[k] == place;
      assert after.takes[|s.takes| + k].place == place;
    }
  }

  /** No new list, and new rows of the newest task only beside others of it. */
  lemma SameListCovers(s: State, after: State)
    requires PlansCover(s) && KeepsRoots(s, after) && after.latest == s.latest && |after.tasks| == |s.tasks|
    requires s.tasks != [] ==> (HasTakes(s.takes, |s.tasks| - 1) || !HasTakes(after.takes, |s.tasks| - 1) || HasVaultTake(after.takes, |s.tasks| - 1))
    ensures PlansCover(after)
  {
    if s.tasks != [] && after.tasks[|s.tasks| - 1] != G.Succeeded && HasTakes(s.takes, |s.tasks| - 1) && !HasVaultTake(after.takes, |s.tasks| - 1) {
      var no := |s.tasks| - 1;
      assert !HasVaultTake(s.takes, no) by {
        if HasVaultTake(s.takes, no) {
          RootsKeepVault(s.takes, after.takes, no);
        }
      }
      forall place | place in after.latest ensures Filled(after.takes, no, place) {
        assert Filled(s.takes, no, place);
        var v :| 0 <= v < |s.takes| && Of(s.takes[v], no) && s.takes[v].place == place;
        assert Of(after.takes[v], no) && after.takes[v].place == place;
      }
    }
  }

  lemma RootsKeepVault(before: TakeRows, after: TakeRows, no: TaskNo)
    requires SameRoots(before, after, no) && HasVaultTake(before, no)
    ensures HasVaultTake(after, no)
  {
    var v :| 0 <= v < |before| && Of(before[v], no) && before[v].origin == FromVault;
    assert Of(after[v], no) && after[v].origin == FromVault;
  }

  /** What one of the newest task's takes adds, or a row of another task. */
  ghost predicate ActedRows(before: TakeRows, after: TakeRows, t: TakeId) {
    && t < |before| && |before| <= |after| <= |before| + 1
    && (forall i :: 0 <= i < |before| ==>
          after[i].task == before[i].task && after[i].root == before[i].root && after[i].place == before[i].place
          && after[i].origin == before[i].origin && after[i].file == before[i].file)
    && (|after| > |before| ==> after[|before|].task == before[t].task && after[|before|].root == before[t].root)
  }

  lemma ActedRowsOf(s: State, t: TakeId, onTrial: bool, published: bool)
    requires t < |s.takes|
    ensures ActedRows(s.takes, ActOnReview(s, t, onTrial, published).takes, t)
  {
    PromotedRows(s, t, published);
    RegeneratedRows(s, t, onTrial);
    hide Promote, RegenerateTake;
  }

  lemma PromotedRows(s: State, t: TakeId, published: bool)
    requires t < |s.takes|
    ensures ActedRows(s.takes, Promote(s, t, published).takes, t)
  {
    hide CurrentOf;
  }

  lemma RegeneratedRows(s: State, t: TakeId, onTrial: bool)
    requires t < |s.takes|
    ensures ActedRows(s.takes, RegenerateTake(s, t, onTrial).takes, t)
  {
    hide MaxVersion;
  }

  lemma ActedTasks(s: State, t: TakeId, onTrial: bool, published: bool)
    ensures var after := ActOnReview(s, t, onTrial, published).tasks;
      |after| == |s.tasks| && forall no :: 0 <= no < |after| ==> s.tasks[no] == G.Succeeded ==> after[no] == G.Succeeded
  {
    hide Promote, RegenerateTake;
    if t < |s.takes| {
      ShownTasks(s, t, onTrial, published);
    }
  }

  lemma ShownTasks(s: State, t: TakeId, onTrial: bool, published: bool)
    requires t < |s.takes|
    ensures Promote(s, t, published).tasks == s.tasks && RegenerateTake(s, t, onTrial).tasks == s.tasks
  {}

  lemma ActKeepsRoots(s: State, t: TakeId, onTrial: bool, published: bool)
    ensures var after := ActOnReview(s, t, onTrial, published);
      KeepsRoots(s, after) && (s.tasks != [] ==> HasTakes(s.takes, |s.tasks| - 1) || !HasTakes(after.takes, |s.tasks| - 1))
  {
    var after := ActOnReview(s, t, onTrial, published);
    ActedTasks(s, t, onTrial, published);
    if t < |s.takes| {
      ActedRowsOf(s, t, onTrial, published);
      hide ActOnReview;
      if s.tasks != [] {
        ActedRoots(s.takes, after.takes, t, |s.tasks| - 1);
      }
    }
  }

  lemma ActedRoots(before: TakeRows, after: TakeRows, t: TakeId, no: TaskNo)
    requires ActedRows(before, after, t)
    ensures SameRoots(before, after, no) && (HasTakes(after, no) ==> HasTakes(before, no))
  {
    if HasTakes(after, no) {
      var v :| 0 <= v < |after| && Of(after[v], no);
      assert Of(before[if v < |before| then v else t], no);
    }
  }

  lemma RedirectKeepsRoots(s: State, no: TaskNo, last: TakeId)
    requires TasksFit(s) && ReadsFit(s)
    ensures var after := RedirectVault(s, no, last);
      KeepsRoots(s, after) && (s.tasks != [] ==> HasTakes(s.takes, |s.tasks| - 1) || !HasTakes(after.takes, |s.tasks| - 1))
  {
    if NoneQueued(no, last) in s.noted && last < |s.takes| {
      assert ReadFits(s.takes, NoneQueued(no, last));
      var superseded, parent := RedirectedRow(s, no, last);
      var after := RedirectVault(s, no, last);
      hide RedirectVault, MaxVersion, ReadsFit;
      assert forall i :: 0 <= i < |s.takes| ==> after.takes[i] == superseded[i];
      if s.tasks != [] && HasTakes(after.takes, |s.tasks| - 1) {
        var v :| 0 <= v < |after.takes| && Of(after.takes[v], |s.tasks| - 1);
        assert Of(s.takes[if v < |s.takes| then v else last], |s.tasks| - 1);
      }
    }
  }

  lemma AssetKeepsPicks(s: State, asset: TakeId)
    requires TasksFit(s) && PicksStand(s) && PlansCover(s)
    ensures PicksStand(RegenerateAsset(s, asset)) && PlansCover(RegenerateAsset(s, asset))
  {
    hide MaxVersion, LineageInFlight, HasRival, PicksHold;
    var after := RegenerateAsset(s, asset);
    if after != s && s.tasks != [] {
      assert s.tasks[|s.tasks| - 1] == G.Succeeded;
    }
    RootsKeepPicks(s, after);
    if after.tasks != s.tasks {
      assert Of(after.takes[|s.takes|], |s.tasks|) && after.takes[|s.takes|].origin == FromVault;
    }
  }

  lemma AddTaskKeepsPicks(s: State)
    requires TasksFit(s) && PicksStand(s) && PlansCover(s)
    ensures PicksStand(AddTask(s)) && PlansCover(AddTask(s))
  {
    hide PicksHold;
    var after := AddTask(s);
    RootsKeepPicks(s, after);
    if after.tasks != s.tasks {
      assert forall t :: 0 <= t < |s.takes| ==> !Of(s.takes[t], |s.tasks|);
    }
  }

  lemma RowsKeepPicks(s: State, step: Step)
    requires TasksFit(s) && PicksStand(s) && PlansCover(s)
    requires ChangesRows(step)
    ensures PicksStand(Next(s, step)) && PlansCover(Next(s, step))
  {
    RowStepsKeepRoots(s, step);
    if step.SReadBest? {
      assert Next(s, step).takes == s.takes;
    }
    NewPicksFit(s, step);
    hide Next, KeepsRoots;
    RootsKeepPicks(s, Next(s, step));
    SameListCovers(s, Next(s, step));
  }

  lemma NewPicksFit(s: State, step: Step)
    requires ChangesRows(step)
    ensures forall read :: read in Next(s, step).noted && read !in s.noted && read.Picked? ==>
      PicksHold(s.takes, read.no, read.picks) && Next(s, step).takes == s.takes
  {
    hide PicksHold, Settled, HasVaultTake, VaultQueued, LastVault, Revived;
  }

  /** The rows there were, of the same tasks and lineages, and no others. */
  ghost predicate SameRows(before: TakeRows, after: TakeRows) {
    |after| == |before| && forall t :: 0 <= t < |before| ==>
      after[t].task == before[t].task && after[t].root == before[t].root && after[t].place == before[t].place
      && after[t].origin == before[t].origin && (before[t].file ==> after[t].file)
  }

  predicate ChangesRows(step: Step) {
    !step.SPlanShots? && !step.SActOnReview? && !step.SRedirectVault? && !step.SRegenerateAsset? && !step.SAddTask?
  }

  lemma RowStepsKeepRows(s: State, step: Step)
    requires ChangesRows(step)
    ensures SameRows(s.takes, Next(s, step).takes)
  {
    hide PicksFit, Settled, HasVaultTake, VaultQueued, LastVault, Revived;
  }

  lemma RowStepsKeepTasks(s: State, step: Step)
    requires ChangesRows(step)
    ensures var after := Next(s, step);
      && after.latest == s.latest && |after.tasks| == |s.tasks|
      && forall no :: 0 <= no < |s.tasks| && s.tasks[no] == G.Succeeded ==> after.tasks[no] == G.Succeeded
  {
    hide PicksFit, Settled, HasVaultTake, VaultQueued, LastVault, Revived, Supersedable;
  }

  lemma RowStepsKeepRoots(s: State, step: Step)
    requires ChangesRows(step)
    ensures var after := Next(s, step);
      && KeepsRoots(s, after) && after.latest == s.latest && |after.tasks| == |s.tasks|
      && (s.tasks != [] ==> HasTakes(s.takes, |s.tasks| - 1) || !HasTakes(after.takes, |s.tasks| - 1))
  {
    RowStepsKeepRows(s, step);
    RowStepsKeepTasks(s, step);
    var after := Next(s, step);
    hide Next;
    if s.tasks != [] && HasTakes(after.takes, |s.tasks| - 1) {
      var v :| 0 <= v < |after.takes| && Of(after.takes[v], |s.tasks| - 1);
      assert Of(s.takes[v], |s.tasks| - 1);
    }
  }

  lemma StepKeepsPicks(s: State, step: Step)
    requires Placed(s) && ReadsFit(s) && PicksStand(s) && PlansCover(s) && Fair(s, step)
    ensures PicksStand(Next(s, step)) && PlansCover(Next(s, step))
  {
    hide PicksStand, PlansCover, ReadsFit, Lineages, OneCurrent, Covered, Own, TasksFit, ActOnReview, RedirectVault, RegenerateAsset, AddTask, PlanShots;
    if step.SPlanShots? {
      PlanKeepsPicks(s, step.no, step.shots);
    } else if step.SActOnReview? {
      ActKeepsRoots(s, step.t, step.onTrial, step.published);
      ActKeepsLists(s, step.t, step.onTrial, step.published);
      RootsKeepPicks(s, Next(s, step));
      SameListCovers(s, Next(s, step));
    } else if step.SRedirectVault? {
      RedirectKeepsRoots(s, step.no, step.last);
      RedirectKeepsLists(s, step.no, step.last);
      RootsKeepPicks(s, Next(s, step));
      SameListCovers(s, Next(s, step));
    } else if step.SRegenerateAsset? {
      AssetKeepsPicks(s, step.asset);
    } else if step.SAddTask? {
      AddTaskKeepsPicks(s);
    } else {
      RowsKeepPicks(s, step);
    }
  }

  lemma ActKeepsLists(s: State, t: TakeId, onTrial: bool, published: bool)
    ensures var after := ActOnReview(s, t, onTrial, published);
      after.latest == s.latest && |after.tasks| == |s.tasks| && after.noted == s.noted
  {
  }

  lemma RedirectKeepsLists(s: State, no: TaskNo, last: TakeId)
    ensures var after := RedirectVault(s, no, last); after.latest == s.latest && after.tasks == s.tasks && after.noted == s.noted
  {
  }

  // ---------------------------------------------------------------- every step

  lemma AssetOwn(s: State, asset: TakeId)
    requires Placed(s)
    ensures var after := RegenerateAsset(s, asset); after.tasks != [] ==> Own(after.takes, |after.tasks| - 1)
  {
    hide LineageInFlight, HasRival, MaxVersion, Lineages, Covered, OneCurrent;
    var after, n := RegenerateAsset(s, asset), |s.takes|;
    if after != s && after.tasks != [] {
      assert forall i :: 0 <= i < n ==> after.takes[i] == s.takes[i];
      assert |after.tasks| == |s.tasks| + 1;
      forall t, u | 0 <= t < |after.takes| && 0 <= u < |after.takes| && Of(after.takes[t], |s.tasks|)
                    && (Of(after.takes[u], |s.tasks|) || after.takes[u].isCurrent) && after.takes[u].place == after.takes[t].place
        ensures after.takes[u].root == after.takes[t].root
      {
        assert t == n;
        if u < n {
          assert !Of(s.takes[u], |s.tasks|) && s.takes[u].isCurrent && s.takes[u].place == s.takes[asset].place;
          assert !HasRival(s.takes, s.takes[asset].root, s.takes[asset].place);
          NoRival(s.takes, s.takes[asset].root, s.takes[asset].place, u);
        }
      }
    }
  }

  lemma NoRival(takes: TakeRows, root: TakeId, place: Place, u: TakeId)
    requires !HasRival(takes, root, place) && u < |takes| && takes[u].isCurrent && takes[u].place == place
    ensures takes[u].root == root
  {}

  lemma PlanOwn(s: State, no: TaskNo, shots: seq<Place>)
    requires Placed(s) && Fair(s, SPlanShots(no, shots))
    ensures var after := PlanShots(s, no, shots); after.tasks != [] ==> Own(after.takes, |after.tasks| - 1)
  {
    hide Own, OneCurrent, Lineages, Covered, TrialsHidden, TakesFor, Supersede, NoneCurrent;
    if TaskIs(s, no, G.Running) && !HasVaultTake(s.takes, no) {
      OneTaskMoves(s, no, G.Waiting);
      PlannedOwn(s, no, shots);
    }
  }

  lemma ActOwn(s: State, t: TakeId, onTrial: bool, published: bool)
    requires Placed(s) && Fair(s, SActOnReview(t, onTrial, published))
    ensures var after := ActOnReview(s, t, onTrial, published); after.tasks != [] ==> Own(after.takes, |after.tasks| - 1)
  {
    ActedTasks(s, t, onTrial, published);
    hide Own, OneCurrent, Grounded, Promote, RegenerateTake;
    if ActOnReview(s, t, onTrial, published) != s && s.tasks != [] {
      if s.takes[t].review.value.verdict == Accept {
        if Promotes(s, t, onTrial) {
          PromotedOwn(s, t, published);
        } else {
          PromoteUnlessShown(s, t, published);
        }
      } else {
        if CanRegenerate(s, t, onTrial) {
          RegenerateOwn(s, t, onTrial);
        } else {
          NotRegenerated(s, t, onTrial);
        }
        MarksKeepOwn(s.takes, s.takes[t := s.takes[t].(status := Rejected)], |s.tasks| - 1);
      }
    }
  }

  lemma NotRegenerated(s: State, t: TakeId, onTrial: bool)
    requires !CanRegenerate(s, t, onTrial)
    ensures RegenerateTake(s, t, onTrial) == s
  {}

  lemma AcceptOwn(s: State, no: TaskNo, picks: map<TakeId, TakeId>)
    requires Placed(s) && PicksStand(s)
    ensures var after := AcceptBest(s, no, picks); after.tasks != [] ==> Own(after.takes, |after.tasks| - 1)
  {
    hide Own, OneCurrent, Lineages, Covered, TrialsHidden;
    if Fires(s, no, picks) {
      OneTaskMoves(s, no, G.Succeeded);
      AcceptedOwn(s, no, picks);
    }
  }

  lemma RedirectedOwn(s: State, no: TaskNo, last: TakeId)
    requires Placed(s) && ReadsFit(s)
    ensures var after := RedirectVault(s, no, last); after.tasks != [] ==> Own(after.takes, |after.tasks| - 1)
  {
    RedirectKeepsLists(s, no, last);
    if NoneQueued(no, last) in s.noted && last < |s.takes| {
      var superseded, parent := RedirectedRow(s, no, last);
      hide RedirectVault, Own, OneCurrent, Grounded;
      RedirectOwn(s, no, last);
    }
  }

  predicate ChangesMarks(step: Step) {
    step.SPlanShots? || step.SActOnReview? || step.SAcceptBest? || step.SRegenerateAsset? || step.SRedirectVault? || step.SAddTask?
  }

  lemma OtherStepsKeepMarks(s: State, step: Step)
    requires !ChangesMarks(step)
    ensures SameMarks(s.takes, Next(s, step).takes) && |Next(s, step).tasks| == |s.tasks|
  {
    hide Settled, PicksFit, HasVaultTake, VaultQueued, LastVault;
  }

  lemma AddedOwn(s: State)
    requires Placed(s)
    ensures var after := AddTask(s); after.tasks != [] ==> Own(after.takes, |after.tasks| - 1)
  {
    hide Lineages, OneCurrent, Covered;
    if AddTask(s) != s {
      assert forall t :: 0 <= t < |s.takes| ==> !Of(s.takes[t], |s.tasks|);
    }
  }

  lemma StepKeepsOwn(s: State, step: Step)
    requires Placed(s) && ReadsFit(s) && PicksStand(s) && Fair(s, step)
    ensures Next(s, step).tasks != [] ==> Own(Next(s, step).takes, |Next(s, step).tasks| - 1)
  {
    hide Own, PlanShots, ActOnReview, AcceptBest, RegenerateAsset, RedirectVault, AddTask, PicksStand, ReadsFit, Grounded, OneCurrent;
    if step.SPlanShots? {
      PlanOwn(s, step.no, step.shots);
    } else if step.SActOnReview? {
      ActOwn(s, step.t, step.onTrial, step.published);
    } else if step.SAcceptBest? {
      AcceptOwn(s, step.no, step.picks);
    } else if step.SRegenerateAsset? {
      AssetOwn(s, step.asset);
    } else if step.SRedirectVault? {
      RedirectedOwn(s, step.no, step.last);
    } else if step.SAddTask? {
      AddedOwn(s);
    } else {
      OtherStepsKeepMarks(s, step);
      hide Next;
      if s.tasks != [] {
        MarksKeepOwn(s.takes, Next(s, step).takes, |s.tasks| - 1);
      }
    }
  }

  lemma StepKeepsPlaced(s: State, step: Step)
    requires Placed(s) && ReadsFit(s) && PicksStand(s) && Fair(s, step)
    ensures Placed(Next(s, step)) && AcceptsClear(s, step)
  {
    assert PlacesOnce(step);
    StepKeepsOwn(s, step);
    FairAcceptsAreClear(s, step);
    hide Own, Next, Grounded, OneCurrent, PicksStand, ReadsFit, AcceptsClear;
    StepKeepsOneExactly(s, step);
  }

  /** While a post's places stay what they are until a direct task is resolved, and no late review job shows a
      take where the newest task has another lineage's, accept_best always finds its picks clear; so every
      place shows one take. */
  lemma {:induction false} FairRunsKeepClear(s: State, steps: seq<Step>)
    requires Placed(s) && ReadsFit(s) && TrialsFit(s.takes) && PicksStand(s) && PlansCover(s) && AllFair(s, steps)
    ensures AllAcceptsClear(s, steps) && AlwaysOne(s, steps)
    decreases |steps|
  {
    hide Grounded, Own, OneCurrent, Next, Fair, ReadsFit, TrialsFit, PicksStand, PlansCover, AcceptsClear;
    if steps != [] {
      StepKeepsPlaced(s, steps[0]);
      StepKeepsReads(s, steps[0]);
      StepKeepsPicks(s, steps[0]);
      FairRunsKeepClear(Next(s, steps[0]), steps[1..]);
    }
  }

  lemma FairRunsShowOneTake(s: State, steps: seq<Step>)
    requires Initial(s) && AllFair(s, steps)
    ensures AllAcceptsClear(s, steps) && AlwaysOne(s, steps)
  {
    FairRunsKeepClear(s, steps);
  }
}
