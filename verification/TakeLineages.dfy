/** Lineages of takes, and the take a post shows in each place (module Takes). */
module TakeLineages {
  import opened Options
  import opened Takes
  import G = LiveGraph

  // ---------------------------------------------------------------- the invariant

  /** All takes of a lineage fill the place of its first, with versions that grow. */
  ghost predicate LineageFits(takes: TakeRows, t: TakeId)
    requires t < |takes|
  {
    && takes[t].root <= t
    && takes[takes[t].root].root == takes[t].root && takes[takes[t].root].place == takes[t].place
    && forall u :: 0 <= u < t && takes[u].root == takes[t].root ==> takes[u].version < takes[t].version
  }

  ghost predicate Lineages(takes: TakeRows) {
    forall t :: 0 <= t < |takes| ==> LineageFits(takes, t)
  }

  /** No place shows two takes. */
  ghost predicate OneCurrent(takes: TakeRows) {
    forall i, j :: 0 <= i < j < |takes| && takes[i].isCurrent && takes[j].isCurrent ==> takes[i].place != takes[j].place
  }

  ghost predicate Shows(takes: TakeRows, place: Place) {
    exists t :: 0 <= t < |takes| && takes[t].isCurrent && takes[t].place == place
  }

  /** Every place of the newest shot list shows one. */
  ghost predicate Covered(takes: TakeRows, latest: set<Place>) {
    forall place :: place in latest ==> Shows(takes, place)
  }

  /** At most the last direct task is unfinished, and takes name tasks there are. */
  ghost predicate TasksFit(s: State) {
    && (forall no :: 0 <= no < |s.tasks| - 1 ==> s.tasks[no] == G.Succeeded)
    && (forall t :: 0 <= t < |s.takes| && s.takes[t].task.Some? ==> s.takes[t].task.value < |s.tasks|)
    && (s.planned ==> forall t :: 0 <= t < |s.takes| ==> s.takes[t].task.Some?)
    && (!s.planned ==> s.tasks == [])
  }

  /** A take on trial is not on show. */
  ghost predicate TrialsHidden(takes: TakeRows) {
    forall t :: 0 <= t < |takes| && takes[t].onTrial ==> !takes[t].isCurrent
  }

  /** What every run keeps, whatever jobs come late. */
  ghost predicate Grounded(s: State) {
    Lineages(s.takes) && TrialsHidden(s.takes) && Covered(s.takes, s.latest) && TasksFit(s)
  }

  // ---------------------------------------------------------------- what was read

  /** What stays true of a read, however late it is acted on. */
  ghost predicate ReadFits(takes: TakeRows, read: Read) {
    match read
    case Reviewed(t, onTrial) =>
      && t < |takes| && takes[t].review.Some? && (takes[t].onTrial ==> onTrial)
      && (onTrial && takes[t].task.Some? ==> HasVaultTake(takes, takes[t].task.value))
    case NoneQueued(no, last) => last < |takes| && Of(takes[last], no) && takes[last].origin == FromVault
    case AlreadyDirected(t) => t < |takes| && takes[t].origin == FromVault
    case AllSettled(_) => true
    case Picked(_, picks) => PicksFound(takes, picks)
  }

  /** Each pick is a take of the lineage it was picked for. */
  predicate PicksFound(takes: TakeRows, picks: map<TakeId, TakeId>) {
    forall root :: root in picks ==> picks[root] < |takes| && takes[picks[root]].root == root
  }

  ghost predicate ReadsFit(s: State) {
    forall read :: read in s.noted ==> ReadFits(s.takes, read)
  }

  /** A task's take is on trial only for a Vault regenerate. */
  ghost predicate TrialsFit(takes: TakeRows) {
    forall t :: 0 <= t < |takes| && takes[t].onTrial && takes[t].task.Some? ==> HasVaultTake(takes, takes[t].task.value)
  }

  /** Rows keep their task, lineage and origin, and a trial or a missing review only ends. */
  ghost predicate RowsLast(before: TakeRows, after: TakeRows) {
    |before| <= |after| && forall t :: 0 <= t < |before| ==>
      && after[t].task == before[t].task && after[t].origin == before[t].origin && after[t].root == before[t].root
      && (after[t].onTrial ==> before[t].onTrial) && (before[t].review.Some? ==> after[t].review.Some?)
  }

  lemma VaultTakesLast(before: TakeRows, after: TakeRows, no: TaskNo)
    requires RowsLast(before, after) && HasVaultTake(before, no)
    ensures HasVaultTake(after, no)
  {
    var v :| 0 <= v < |before| && Of(before[v], no) && before[v].origin == FromVault;
    assert Of(after[v], no) && after[v].origin == FromVault;
  }

  lemma ReadsLast(s: State, after: State)
    requires ReadsFit(s) && TrialsFit(s.takes) && RowsLast(s.takes, after.takes)
    requires forall read :: read in after.noted && read !in s.noted ==> ReadFits(s.takes, read)
    requires forall t :: |s.takes| <= t < |after.takes| && after.takes[t].onTrial && after.takes[t].task.Some? ==>
               after.takes[t].origin == FromVault || HasVaultTake(s.takes, after.takes[t].task.value)
    ensures ReadsFit(after) && TrialsFit(after.takes)
  {
    forall no | HasVaultTake(s.takes, no) ensures HasVaultTake(after.takes, no) {
      VaultTakesLast(s.takes, after.takes, no);
    }
    hide HasVaultTake;
    forall read | read in after.noted ensures ReadFits(after.takes, read) {
      assert ReadFits(s.takes, read);
    }
    forall t | 0 <= t < |after.takes| && after.takes[t].onTrial && after.takes[t].task.Some?
      ensures HasVaultTake(after.takes, after.takes[t].task.value)
    {
      if t >= |s.takes| && after.takes[t].origin == FromVault {
        VaultHere(after.takes, t);
      }
    }
  }

  lemma VaultHere(takes: TakeRows, t: TakeId)
    requires t < |takes| && takes[t].task.Some? && takes[t].origin == FromVault
    ensures HasVaultTake(takes, takes[t].task.value)
  {
  }

  lemma NotingKeepsReads(s: State, read: Read)
    requires ReadsFit(s) && TrialsFit(s.takes) && ReadFits(s.takes, read)
    ensures ReadsFit(Note(s, read)) && TrialsFit(Note(s, read).takes)
  {
    ReadsLast(s, Note(s, read));
  }

  lemma ReadingKeepsReads(s: State, step: Step)
    requires ReadsFit(s) && TrialsFit(s.takes)
    requires step.SReadReview? || step.SReadSettled? || step.SReadVaultTakes? || step.SReadDirected? || step.SReadBest?
    ensures ReadsFit(Next(s, step)) && TrialsFit(Next(s, step).takes)
  {
    hide ReadsFit, Settled;
    if Next(s, step) != s {
      match step
      case SReadReview(t) => NotingKeepsReads(s, Reviewed(t, s.takes[t].onTrial));
      case SReadSettled(no) => NotingKeepsReads(s, AllSettled(no));
      case SReadVaultTakes(no) => NotingKeepsReads(s, NoneQueued(no, LastVault(s.takes, no)));
      case SReadDirected(t) => NotingKeepsReads(s, AlreadyDirected(t));
      case SReadBest(no, picks) => NotingKeepsReads(s, Picked(no, picks));
    }
  }

  lemma ActKeepsReads(s: State, t: TakeId, onTrial: bool, published: bool)
    requires ReadsFit(s) && TrialsFit(s.takes)
    ensures ReadsFit(ActOnReview(s, t, onTrial, published)) && TrialsFit(ActOnReview(s, t, onTrial, published).takes)
  {
    hide HasVaultTake, ActOnReview, RowsLast;
    if Reviewed(t, onTrial) in s.noted {
      assert ReadFits(s.takes, Reviewed(t, onTrial));
      hide ReadsFit, TrialsFit;
      ActKeepsRows(s, t, onTrial, published);
      ReadsLast(s, ActOnReview(s, t, onTrial, published));
    } else {
      NotReadStays(s, t, onTrial, published);
    }
  }

  lemma NotReadStays(s: State, t: TakeId, onTrial: bool, published: bool)
    requires Reviewed(t, onTrial) !in s.noted
    ensures ActOnReview(s, t, onTrial, published) == s
  {}

  /** The rows keep, and at most one more follows the take. */
  lemma ActKeepsRows(s: State, t: TakeId, onTrial: bool, published: bool)
    requires t < |s.takes|
    ensures var after := ActOnReview(s, t, onTrial, published);
      && RowsLast(s.takes, after.takes) && after.noted == s.noted && |after.takes| <= |s.takes| + 1
      && (|after.takes| > |s.takes| ==>
            after.takes[|s.takes|].task == s.takes[t].task && after.takes[|s.takes|].onTrial == onTrial)
  {
    PromoteKeepsRows(s, t, published);
    RegenerateKeepsRows(s, t, onTrial);
    hide Promote, RegenerateTake;
  }

  lemma RegenerateKeepsRows(s: State, t: TakeId, onTrial: bool)
    requires t < |s.takes|
    ensures var after := RegenerateTake(s, t, onTrial);
      && RowsLast(s.takes, after.takes) && after.noted == s.noted && |after.takes| <= |s.takes| + 1
      && (|after.takes| > |s.takes| ==>
            after.takes[|s.takes|].task == s.takes[t].task && after.takes[|s.takes|].onTrial == onTrial)
  {
    hide MaxVersion;
  }

  lemma PromoteKeepsRows(s: State, t: TakeId, published: bool)
    requires t < |s.takes|
    ensures var after := Promote(s, t, published);
      RowsLast(s.takes, after.takes) && |after.takes| == |s.takes| && after.noted == s.noted
  {
    hide CurrentOf;
  }

  lemma RedirectKeepsReads(s: State, no: TaskNo, last: TakeId)
    requires ReadsFit(s) && TrialsFit(s.takes)
    ensures ReadsFit(RedirectVault(s, no, last)) && TrialsFit(RedirectVault(s, no, last).takes)
  {
    hide ReadsFit, TrialsFit, CurrentOf, MaxVersion;
    ReadsLast(s, RedirectVault(s, no, last));
  }

  lemma PlanKeepsReads(s: State, no: TaskNo, shots: seq<Place>)
    requires ReadsFit(s) && TrialsFit(s.takes)
    ensures ReadsFit(PlanShots(s, no, shots)) && TrialsFit(PlanShots(s, no, shots).takes)
  {
    hide ReadsFit, TrialsFit;
    if PlanShots(s, no, shots) != s {
      var superseded := Supersede(s.takes, no);
      DirectorTakes(superseded, NoneCurrent(superseded), no, shots);
      hide TakesFor;
      ReadsLast(s, PlanShots(s, no, shots));
    }
  }

  lemma AcceptKeepsReads(s: State, no: TaskNo, picks: map<TakeId, TakeId>)
    requires ReadsFit(s) && TrialsFit(s.takes)
    ensures ReadsFit(AcceptBest(s, no, picks)) && TrialsFit(AcceptBest(s, no, picks).takes)
  {
    hide ReadsFit, TrialsFit, PicksHold, Revived;
    ReadsLast(s, AcceptBest(s, no, picks));
  }

  lemma AssetKeepsReads(s: State, asset: TakeId)
    requires ReadsFit(s) && TrialsFit(s.takes)
    ensures ReadsFit(RegenerateAsset(s, asset)) && TrialsFit(RegenerateAsset(s, asset).takes)
  {
    hide ReadsFit, TrialsFit, MaxVersion, LineageInFlight, HasRival;
    ReadsLast(s, RegenerateAsset(s, asset));
  }

  lemma StepKeepsReads(s: State, step: Step)
    requires ReadsFit(s) && TrialsFit(s.takes)
    ensures ReadsFit(Next(s, step)) && TrialsFit(Next(s, step).takes)
  {
    hide ActOnReview, RedirectVault, PlanShots, AcceptBest, RegenerateAsset;
    if step.SReadReview? || step.SReadSettled? || step.SReadVaultTakes? || step.SReadDirected? || step.SReadBest? {
      ReadingKeepsReads(s, step);
    } else if step.SActOnReview? {
      ActKeepsReads(s, step.t, step.onTrial, step.published);
    } else if step.SRedirectVault? {
      RedirectKeepsReads(s, step.no, step.last);
    } else if step.SPlanShots? {
      PlanKeepsReads(s, step.no, step.shots);
    } else if step.SAcceptBest? {
      AcceptKeepsReads(s, step.no, step.picks);
    } else if step.SRegenerateAsset? {
      AssetKeepsReads(s, step.asset);
    } else {
      hide ReadsFit, TrialsFit, HasVaultTake;
      ReadsLast(s, Next(s, step));
    }
  }

  // ---------------------------------------------------------------- frames

  /** Nothing these properties look at has changed. */
  ghost predicate SameMarks(a: TakeRows, b: TakeRows) {
    |a| == |b| && forall t :: 0 <= t < |a| ==>
      a[t].root == b[t].root && a[t].place == b[t].place && a[t].version == b[t].version
      && a[t].task == b[t].task && a[t].isCurrent == b[t].isCurrent && (b[t].onTrial ==> a[t].onTrial)
  }

  ghost predicate SameLineages(a: TakeRows, b: TakeRows) {
    |a| == |b| && forall t :: 0 <= t < |a| ==>
      a[t].root == b[t].root && a[t].place == b[t].place && a[t].version == b[t].version
  }

  lemma LineagesKept(a: TakeRows, b: TakeRows)
    requires Lineages(a) && SameLineages(a, b)
    ensures Lineages(b)
  {
    forall t | 0 <= t < |b| ensures LineageFits(b, t) {
      assert LineageFits(a, t);
    }
  }

  /** Task statuses change without a finished task coming back. */
  ghost predicate TasksMove(before: seq<G.TaskStatus>, after: seq<G.TaskStatus>) {
    |before| == |after| && forall no :: 0 <= no < |before| - 1 ==> (before[no] == G.Succeeded ==> after[no] == G.Succeeded)
  }

  lemma MarksKeepGrounded(s: State, after: State)
    requires Grounded(s) && SameMarks(s.takes, after.takes) && TasksMove(s.tasks, after.tasks)
    requires after.latest == s.latest && after.planned == s.planned
    ensures Grounded(after) && (OneCurrent(s.takes) ==> OneCurrent(after.takes))
  {
    LineagesKept(s.takes, after.takes);
    forall place | place in after.latest ensures Shows(after.takes, place) {
      assert Shows(s.takes, place);
      var t :| 0 <= t < |s.takes| && s.takes[t].isCurrent && s.takes[t].place == place;
      assert after.takes[t].isCurrent && after.takes[t].place == place;
    }
  }

  lemma OneTaskMoves(s: State, no: TaskNo, to: G.TaskStatus)
    requires TasksFit(s) && no < |s.tasks| && s.tasks[no] != G.Succeeded
    ensures no == |s.tasks| - 1 && TasksMove(s.tasks, s.tasks[no := to])
  {
  }

  lemma SameRootSamePlace(takes: TakeRows, t: TakeId, u: TakeId)
    requires Lineages(takes) && t < |takes| && u < |takes| && takes[t].root == takes[u].root
    ensures takes[t].place == takes[u].place
  {
    assert LineageFits(takes, t) && LineageFits(takes, u);
  }

  // ---------------------------------------------------------------- a new take

  /** createTake keeps lineages, when it fills its parent's place. */
  lemma NewTakeFits(takes: TakeRows, take: Take)
    requires Lineages(takes)
    requires take.root == |takes| || (take.root < |takes| && takes[take.root].root == take.root && takes[take.root].place == take.place)
    requires take.version == MaxVersion(takes, take.root) + 1
    ensures Lineages(takes + [take])
  {
    var after := takes + [take];
    forall t | 0 <= t < |after| ensures LineageFits(after, t) {
      if t < |takes| {
        assert LineageFits(takes, t);
      }
    }
  }

  lemma ChildFits(takes: TakeRows, parent: TakeId, take: Take)
    requires Lineages(takes) && parent < |takes|
    requires take.root == takes[parent].root && take.place == takes[parent].place && take.version == MaxVersion(takes, take.root) + 1
    ensures Lineages(takes + [take])
  {
    assert LineageFits(takes, parent);
    NewTakeFits(takes, take);
  }

  // ---------------------------------------------------------------- planning

  /** What each take of a new shot list is. */
  ghost predicate ShotTake(replaced: TakeRows, take: Take, i: nat, no: TaskNo, place: Place) {
    && take.task == Some(no) && take.place == place && take.isCurrent
    && take.root == (match ParentAt(replaced, place)
                     case Some(c) => replaced[c].root
                     case None => i)
  }

  lemma {:induction false} ShotTakes(replaced: TakeRows, takes: TakeRows, no: TaskNo, shots: seq<Place>)
    requires |replaced| <= |takes| && forall t :: 0 <= t < |replaced| ==> takes[t].root == replaced[t].root
    ensures var after := TakesFor(replaced, takes, no, shots);
            && |after| == |takes| + |shots|
            && (forall t :: 0 <= t < |takes| ==> after[t] == takes[t])
            && (forall k :: 0 <= k < |shots| ==> ShotTake(replaced, after[|takes| + k], |takes| + k, no, shots[k]))
    decreases |shots|
  {
    if shots != [] {
      var first := NewTake(takes, ParentAt(replaced, shots[0]), Some(no), shots[0], true, FromDirector, 1, false, false, None);
      ShotTakes(replaced, takes + [first], no, shots[1..]);
      var after := TakesFor(replaced, takes, no, shots);
      assert ShotTake(replaced, first, |takes|, no, shots[0]);
      forall k | 0 <= k < |shots| ensures ShotTake(replaced, after[|takes| + k], |takes| + k, no, shots[k]) {
        if k > 0 {
          assert shots[1..][k - 1] == shots[k];
          assert after[|takes + [first]| + (k - 1)] == after[|takes| + k];
        } else {
          assert after[|takes|] == (takes + [first])[|takes|];
        }
      }
    }
  }

  /** The takes of a shot list are open and not on trial. */
  lemma {:induction false} DirectorTakes(replaced: TakeRows, takes: TakeRows, no: TaskNo, shots: seq<Place>)
    requires |replaced| <= |takes|
    ensures var after := TakesFor(replaced, takes, no, shots);
            && |takes| <= |after| && (forall t :: 0 <= t < |takes| ==> after[t] == takes[t])
            && forall t :: |takes| <= t < |after| ==>
                 after[t].origin == FromDirector && !after[t].onTrial && !after[t].pendingDirection && after[t].status == Queued && after[t].review.None?
    decreases |shots|
  {
    if shots != [] {
      var first := NewTake(takes, ParentAt(replaced, shots[0]), Some(no), shots[0], true, FromDirector, 1, false, false, None);
      DirectorTakes(replaced, takes + [first], no, shots[1..]);
      var after := TakesFor(replaced, takes, no, shots);
      assert after[|takes|] == (takes + [first])[|takes|];
    }
  }

  lemma {:induction false} PlannedLineages(replaced: TakeRows, takes: TakeRows, no: TaskNo, shots: seq<Place>)
    requires |replaced| <= |takes| && Lineages(takes)
    requires forall t :: 0 <= t < |replaced| ==> takes[t].root == replaced[t].root && takes[t].place == replaced[t].place
    ensures Lineages(TakesFor(replaced, takes, no, shots))
    decreases |shots|
  {
    if shots != [] {
      var parent := ParentAt(replaced, shots[0]);
      var first := NewTake(takes, parent, Some(no), shots[0], true, FromDirector, 1, false, false, None);
      if parent.Some? {
        ChildFits(takes, parent.value, first);
      } else {
        NewTakeFits(takes, first);
      }
      PlannedLineages(replaced, takes + [first], no, shots[1..]);
    }
  }

  /** What planning leaves: the rows there were, none on show, then one row a shot. */
  ghost predicate PlannedFrom(before: TakeRows, replaced: TakeRows, after: TakeRows, no: TaskNo, shots: seq<Place>) {
    && |after| == |before| + |shots|
    && (forall i :: 0 <= i < |before| ==>
          after[i].root == before[i].root && after[i].place == before[i].place && after[i].task == before[i].task && !after[i].isCurrent)
    && (forall k :: 0 <= k < |shots| ==> ShotTake(replaced, after[|before| + k], |before| + k, no, shots[k]))
  }

  lemma PlannedFromThese(s: State, no: TaskNo, shots: seq<Place>)
    ensures var superseded := Supersede(s.takes, no);
            PlannedFrom(s.takes, superseded, TakesFor(superseded, NoneCurrent(superseded), no, shots), no, shots)
  {
    hide ShotTake;
    var superseded := Supersede(s.takes, no);
    ShotTakes(superseded, NoneCurrent(superseded), no, shots);
  }

  /** The rows after planning: the old ones, none of them on show, and one per shot. */
  ghost predicate Planned(s: State, after: TakeRows, no: TaskNo, shots: seq<Place>) {
    && |after| == |s.takes| + |shots|
    && (forall t :: 0 <= t < |s.takes| ==> after[t].task == s.takes[t].task && !after[t].isCurrent)
    && (forall t :: |s.takes| <= t < |after| ==> after[t].task == Some(no) && after[t].isCurrent && after[t].place == shots[t - |s.takes|])
  }

  lemma PlannedRows(s: State, no: TaskNo, shots: seq<Place>)
    ensures var superseded := Supersede(s.takes, no);
            Planned(s, TakesFor(superseded, NoneCurrent(superseded), no, shots), no, shots)
  {
    var superseded, n := Supersede(s.takes, no), |s.takes|;
    var after := TakesFor(superseded, NoneCurrent(superseded), no, shots);
    PlannedFromThese(s, no, shots);
    hide TakesFor, NoneCurrent, Supersede;
    forall t | n <= t < |after| ensures after[t].task == Some(no) && after[t].isCurrent && after[t].place == shots[t - n] {
      assert ShotTake(superseded, after[n + (t - n)], t, no, shots[t - n]);
    }
  }

  lemma PlannedShows(s: State, after: TakeRows, no: TaskNo, shots: seq<Place>)
    requires Planned(s, after, no, shots)
    ensures Covered(after, set p | p in shots) && (Distinct(shots) ==> OneCurrent(after))
  {
    forall place | place in (set p | p in shots) ensures Shows(after, place) {
      var k :| 0 <= k < |shots| && shots[k] == place;
      assert after[|s.takes| + k].place == place;
    }
  }

  lemma PlannedHidden(s: State, no: TaskNo, shots: seq<Place>)
    requires TrialsHidden(s.takes)
    ensures TrialsHidden(PlanShots(s, no, shots).takes)
  {
    var superseded := Supersede(s.takes, no);
    DirectorTakes(superseded, NoneCurrent(superseded), no, shots);
    hide TakesFor;
  }

  lemma PlanKeepsGrounded(s: State, no: TaskNo, shots: seq<Place>)
    requires Grounded(s)
    ensures var after := PlanShots(s, no, shots);
      Grounded(after) && (OneCurrent(s.takes) && Distinct(shots) ==> OneCurrent(after.takes))
  {
    PlannedHidden(s, no, shots);
    if TaskIs(s, no, G.Running) && !HasVaultTake(s.takes, no) {
      var superseded := Supersede(s.takes, no);
      var cleared := NoneCurrent(superseded);
      OneTaskMoves(s, no, G.Waiting);
      LineagesKept(s.takes, cleared);
      PlannedLineages(superseded, cleared, no, shots);
      PlannedRows(s, no, shots);
      hide Lineages, TakesFor, Supersede, NoneCurrent, OneCurrent, Covered, TrialsHidden;
      PlannedShows(s, PlanShots(s, no, shots).takes, no, shots);
    }
  }

  // ---------------------------------------------------------------- the review's verdict

  lemma PlacesApart(takes: TakeRows, t: TakeId, u: TakeId)
    requires Lineages(takes) && t < |takes| && u < |takes| && takes[t].place != takes[u].place
    ensures takes[t].root != takes[u].root
  {
    assert LineageFits(takes, t) && LineageFits(takes, u);
  }

  /** The review job's transaction shows the take. */
  predicate Promotes(s: State, t: TakeId, onTrial: bool) {
    && Reviewed(t, onTrial) in s.noted && onTrial && t < |s.takes|
    && s.takes[t].review.Some? && s.takes[t].review.value.verdict == Accept
    && s.takes[t].status == Ready && !s.takes[t].isCurrent
  }

  lemma PromoteKeepsGrounded(s: State, t: TakeId, published: bool)
    requires Grounded(s) && t < |s.takes|
    ensures var after := Promote(s, t, published); Grounded(after) && (OneCurrent(s.takes) ==> OneCurrent(after.takes))
  {
    hide CurrentOf;
    PromotedShows(s, t, published);
    hide OneCurrent, Covered;
    LineagesKept(s.takes, Promote(s, t, published).takes);
  }

  lemma PromotedShows(s: State, t: TakeId, published: bool)
    requires Grounded(s) && t < |s.takes|
    ensures var after := Promote(s, t, published).takes;
      Covered(after, s.latest) && (OneCurrent(s.takes) ==> OneCurrent(after))
  {
    hide CurrentOf;
    var after, take := Promote(s, t, published).takes, s.takes[t];
    forall place | place in s.latest ensures Shows(after, place) {
      assert Shows(s.takes, place);
      var c :| 0 <= c < |s.takes| && s.takes[c].isCurrent && s.takes[c].place == place;
      if place == take.place {
        assert after[if take.isCurrent then t else if after[t].isCurrent then t else c].isCurrent;
      } else {
        PlacesApart(s.takes, c, t);
        assert after[c].isCurrent;
      }
    }
  }

  lemma PromoteUnlessShown(s: State, t: TakeId, published: bool)
    requires t < |s.takes| && (s.takes[t].isCurrent || s.takes[t].status != Ready)
    ensures Promote(s, t, published) == s
  {
  }

  lemma RegenerateKeepsGrounded(s: State, t: TakeId, onTrial: bool)
    requires Grounded(s)
    ensures var after := RegenerateTake(s, t, onTrial); Grounded(after) && (OneCurrent(s.takes) ==> OneCurrent(after.takes))
  {
    if CanRegenerate(s, t, onTrial) {
      var rejected := s.takes[t := s.takes[t].(status := Rejected, isCurrent := false)];
      var after, n := RegenerateTake(s, t, onTrial), |s.takes|;
      LineagesKept(s.takes, rejected);
      ChildFits(rejected, t, after.takes[n]);
      hide Lineages, MaxVersion;
      assert forall i :: 0 <= i < n && i != t ==> after.takes[i] == s.takes[i];
      forall place | place in s.latest ensures Shows(after.takes, place) {
        assert Shows(s.takes, place);
        var c :| 0 <= c < n && s.takes[c].isCurrent && s.takes[c].place == place;
        assert after.takes[if c == t then n else c].isCurrent && after.takes[if c == t then n else c].place == place;
      }
    }
  }

  // ---------------------------------------------------------------- people

  /** acceptBestTake's transaction goes through. */
  predicate Fires(s: State, no: TaskNo, picks: map<TakeId, TakeId>) {
    no < |s.tasks| && s.tasks[no] in {G.Escalated, G.Failed} && Picked(no, picks) in s.noted
  }

  /** What accept_best leaves on show: the picks, and what lineages without a pick showed. */
  lemma AcceptedRows(s: State, no: TaskNo, picks: map<TakeId, TakeId>)
    requires Fires(s, no, picks) && TrialsHidden(s.takes)
    ensures var after := AcceptBest(s, no, picks);
            && SameLineages(s.takes, after.takes) && TrialsHidden(after.takes)
            && after.tasks == s.tasks[no := G.Succeeded] && after.latest == s.latest && after.planned == s.planned
            && forall t :: 0 <= t < |s.takes| ==>
                 && after.takes[t].task == s.takes[t].task
                 && (after.takes[t].isCurrent <==> t in picks.Values || (s.takes[t].isCurrent && s.takes[t].root !in picks))
  {
    hide Revived;
  }

  /** No pick shares its place with another pick, or with a take on show of another lineage. */
  predicate Clear(takes: TakeRows, picks: map<TakeId, TakeId>)
    requires PicksFound(takes, picks)
  {
    && (forall root, other :: root in picks && other in picks && root != other ==> takes[picks[root]].place != takes[picks[other]].place)
    && (forall root, u :: root in picks && 0 <= u < |takes| && takes[u].isCurrent && takes[u].place == takes[picks[root]].place
                          ==> takes[u].root == root)
  }

  lemma ClearKeepsOne(s: State, no: TaskNo, picks: map<TakeId, TakeId>)
    requires Fires(s, no, picks) && TrialsHidden(s.takes) && PicksFound(s.takes, picks) && OneCurrent(s.takes) && Clear(s.takes, picks)
    ensures OneCurrent(AcceptBest(s, no, picks).takes)
  {
    AcceptedRows(s, no, picks);
    var after := AcceptBest(s, no, picks).takes;
    hide AcceptBest, TrialsHidden;
    forall i, j | 0 <= i < j < |after| && after[i].isCurrent && after[j].isCurrent ensures after[i].place != after[j].place {
      if i in picks.Values {
        var root :| root in picks && picks[root] == i;
        if j in picks.Values {
          var other :| other in picks && picks[other] == j;
          assert root != other;
        }
      } else if j in picks.Values {
        var other :| other in picks && picks[other] == j;
      }
    }
  }

  lemma OneMeansClear(s: State, no: TaskNo, picks: map<TakeId, TakeId>)
    requires Fires(s, no, picks) && TrialsHidden(s.takes) && Lineages(s.takes) && PicksFound(s.takes, picks)
    requires OneCurrent(AcceptBest(s, no, picks).takes)
    ensures Clear(s.takes, picks)
  {
    AcceptedRows(s, no, picks);
    var after := AcceptBest(s, no, picks).takes;
    hide AcceptBest, TrialsHidden;
    forall root | root in picks ensures after[picks[root]].isCurrent {
      assert picks[root] in picks.Values;
    }
    forall root, u | root in picks && 0 <= u < |s.takes| && s.takes[u].isCurrent && s.takes[u].place == s.takes[picks[root]].place
      ensures s.takes[u].root == root
    {
      var own := s.takes[u].root;
      if own in picks {
        SameRootSamePlace(s.takes, u, picks[own]);
      } else {
        assert after[u].isCurrent;
      }
    }
  }

  /** accept_best leaves one take a place exactly when its picks are clear of each other and of what else is
      on show. */
  lemma AcceptKeepsOneExactly(s: State, no: TaskNo, picks: map<TakeId, TakeId>)
    requires Fires(s, no, picks) && Grounded(s) && PicksFound(s.takes, picks) && OneCurrent(s.takes)
    ensures OneCurrent(AcceptBest(s, no, picks).takes) <==> Clear(s.takes, picks)
  {
    if Clear(s.takes, picks) {
      ClearKeepsOne(s, no, picks);
    }
    hide Clear;
    if OneCurrent(AcceptBest(s, no, picks).takes) {
      OneMeansClear(s, no, picks);
    }
  }

  lemma AcceptedCovered(s: State, no: TaskNo, picks: map<TakeId, TakeId>)
    requires Grounded(s) && Fires(s, no, picks) && PicksFound(s.takes, picks)
    ensures Covered(AcceptBest(s, no, picks).takes, s.latest)
  {
    AcceptedRows(s, no, picks);
    var after := AcceptBest(s, no, picks).takes;
    hide AcceptBest, TrialsHidden;
    forall place | place in s.latest ensures Shows(after, place) {
      assert Shows(s.takes, place);
      var c :| 0 <= c < |s.takes| && s.takes[c].isCurrent && s.takes[c].place == place;
      if s.takes[c].root in picks {
        var pick := picks[s.takes[c].root];
        assert pick in picks.Values;
        SameRootSamePlace(s.takes, pick, c);
        assert after[pick].isCurrent && after[pick].place == place;
      } else {
        assert after[c].isCurrent;
      }
    }
  }

  lemma AcceptKeepsGrounded(s: State, no: TaskNo, picks: map<TakeId, TakeId>)
    requires Grounded(s) && ReadsFit(s)
    ensures Grounded(AcceptBest(s, no, picks))
  {
    if Fires(s, no, picks) {
      assert ReadFits(s.takes, Picked(no, picks));
      OneTaskMoves(s, no, G.Succeeded);
      AcceptedCovered(s, no, picks);
      AcceptedRows(s, no, picks);
      hide OneCurrent, Covered, AcceptBest, PicksFound;
      LineagesKept(s.takes, AcceptBest(s, no, picks).takes);
    }
  }

  lemma AssetKeepsGrounded(s: State, asset: TakeId)
    requires Grounded(s)
    ensures var after := RegenerateAsset(s, asset); Grounded(after) && (OneCurrent(s.takes) ==> OneCurrent(after.takes))
  {
    hide LineageInFlight, HasRival, MaxVersion;
    var after := RegenerateAsset(s, asset);
    if |after.takes| != |s.takes| {
      ChildFits(s.takes, asset, after.takes[|s.takes|]);
      hide Lineages;
      ShownStay(s.takes, after.takes, s.latest);
    }
  }

  /** A new row that is not on show hides nothing and adds nothing to what is. */
  lemma ShownStay(before: TakeRows, after: TakeRows, latest: set<Place>)
    requires Covered(before, latest) && |after| == |before| + 1 && !after[|before|].isCurrent
    requires forall i :: 0 <= i < |before| ==> after[i] == before[i]
    ensures Covered(after, latest) && (OneCurrent(before) ==> OneCurrent(after))
  {
    forall place | place in latest ensures Shows(after, place) {
      assert Shows(before, place);
      var c :| 0 <= c < |before| && before[c].isCurrent && before[c].place == place;
      assert after[c].isCurrent;
    }
  }

  lemma RedirectedRow(s: State, no: TaskNo, last: TakeId) returns (superseded: TakeRows, parent: TakeId)
    requires NoneQueued(no, last) in s.noted && last < |s.takes|
    ensures superseded == Supersede(s.takes, no) && SameMarks(s.takes, superseded)
    ensures parent < |s.takes| && superseded[parent].root == superseded[last].root
    ensures var after := RedirectVault(s, no, last);
      && after.latest == s.latest && after.tasks == s.tasks && after.planned == s.planned
      && |after.takes| == |s.takes| + 1 && after.takes[..|s.takes|] == superseded
      && !after.takes[|s.takes|].isCurrent
      && after.takes[|s.takes|] == NewTake(superseded, Some(parent), Some(no), superseded[last].place, false, FromVault, 1, true, true, None)
  {
    hide MaxVersion;
    superseded := Supersede(s.takes, no);
    var onShow := CurrentOf(superseded, s.takes[last].root);
    parent := if onShow.Some? then onShow.value else last;
  }

  lemma RedirectedTasksFit(s: State, no: TaskNo, last: TakeId)
    requires TasksFit(s) && ReadsFit(s) && TrialsHidden(s.takes)
    ensures TasksFit(RedirectVault(s, no, last)) && TrialsHidden(RedirectVault(s, no, last).takes)
  {
    hide MaxVersion, CurrentOf;
    if NoneQueued(no, last) in s.noted {
      assert ReadFits(s.takes, NoneQueued(no, last));
    }
  }

  lemma RedirectKeepsGrounded(s: State, no: TaskNo, last: TakeId)
    requires Grounded(s) && ReadsFit(s)
    ensures var after := RedirectVault(s, no, last); Grounded(after) && (OneCurrent(s.takes) ==> OneCurrent(after.takes))
  {
    if NoneQueued(no, last) in s.noted && last < |s.takes| {
      var after := RedirectVault(s, no, last);
      var superseded, parent := RedirectedRow(s, no, last);
      RedirectedTasksFit(s, no, last);
      hide RedirectVault, TasksFit, TrialsHidden, Covered, OneCurrent;
      MarksKeepGrounded(s, s.(takes := superseded)) by { assert TasksMove(s.tasks, s.tasks); }
      hide Lineages, MaxVersion, SameMarks;
      SameRootSamePlace(superseded, parent, last);
      ChildFits(superseded, parent, after.takes[|s.takes|]);
      assert after.takes == superseded + [after.takes[|s.takes|]];
      ShownStay(superseded, after.takes, s.latest);
    }
  }

  // ---------------------------------------------------------------- every step

  /** A step keeps what is grounded, and one take a place. */
  ghost predicate Keeps(s: State, after: State) {
    Grounded(after) && (OneCurrent(s.takes) ==> OneCurrent(after.takes))
  }

  lemma RowStepKeeps(s: State, t: TakeId, take: Take)
    requires Grounded(s) && t < |s.takes|
    requires take.root == s.takes[t].root && take.place == s.takes[t].place && take.version == s.takes[t].version
    requires take.task == s.takes[t].task && take.isCurrent == s.takes[t].isCurrent && take.onTrial == s.takes[t].onTrial
    ensures Keeps(s, SetTake(s, t, take))
  {
    hide Grounded;
    MarksKeepGrounded(s, SetTake(s, t, take));
  }

  lemma TaskMoveKeeps(s: State, no: TaskNo, to: G.TaskStatus)
    requires Grounded(s) && no < |s.tasks| && s.tasks[no] != G.Succeeded
    ensures Keeps(s, s.(tasks := s.tasks[no := to]))
  {
    OneTaskMoves(s, no, to);
    hide Grounded;
    MarksKeepGrounded(s, s.(tasks := s.tasks[no := to]));
  }

  lemma WaitingKeeps(s: State, task: Option<TaskNo>)
    requires Grounded(s)
    ensures Keeps(s, StartsWaiting(s, task))
  {
    hide Grounded;
    if task.Some? && TaskIs(s, task.value, G.Running) {
      TaskMoveKeeps(s, task.value, G.Waiting);
    }
  }

  lemma FailKeeps(s: State, t: TakeId, to: TakeStatus)
    requires Grounded(s)
    ensures Keeps(s, FailTake(s, t, to))
  {
    hide Grounded;
    MarksKeepGrounded(s, FailTake(s, t, to));
  }

  lemma NotingKeeps(s: State, noted: set<Read>)
    requires Grounded(s)
    ensures Keeps(s, s.(noted := noted))
  {
  }

  lemma AddTaskKeeps(s: State)
    requires Grounded(s)
    ensures Keeps(s, AddTask(s))
  {
    hide Lineages, OneCurrent, Covered;
  }

  lemma ActKeeps(s: State, t: TakeId, onTrial: bool, published: bool)
    requires Grounded(s)
    ensures Keeps(s, ActOnReview(s, t, onTrial, published))
  {
    hide Grounded, Promote, RegenerateTake, OneCurrent;
    if ActOnReview(s, t, onTrial, published) != s {
      PromoteKeepsGrounded(s, t, published);
      RegenerateKeepsGrounded(s, t, onTrial);
      RowStepKeeps(s, t, s.takes[t].(status := Rejected));
      if s.takes[t].task.Some? && Escalate(s, s.takes[t].task.value) != s {
        TaskMoveKeeps(s, s.takes[t].task.value, G.Escalated);
      }
    }
  }

  /** A shot list has one shot per place. */
  ghost predicate PlacesOnce(step: Step) {
    step.SPlanShots? ==> Distinct(step.shots)
  }

  /** An accept_best that goes through finds its picks clear. */
  predicate AcceptsClear(s: State, step: Step) {
    step.SAcceptBest? && Fires(s, step.no, step.picks) && PicksFound(s.takes, step.picks) ==> Clear(s.takes, step.picks)
  }

  lemma StepKeeps(s: State, step: Step)
    requires Grounded(s) && ReadsFit(s) && !step.SAcceptBest? && PlacesOnce(step)
    ensures Keeps(s, Next(s, step))
  {
    hide Grounded, Keeps, PlanShots, ActOnReview, RegenerateAsset, RedirectVault, AddTask, FailTake, StartsWaiting, SetTake, Settled;
    match step
    case SAddTask => AddTaskKeeps(s);
    case SQueueTask(no) => if TaskIs(s, no, G.Pending) { TaskMoveKeeps(s, no, G.Queued); } else { SameKeeps(s); }
    case SMoveTask(no, move) => if MoveTask(s, no, move) != s { TaskMoveKeeps(s, no, G.MovesTo(move)); } else { SameKeeps(s); }
    case SPlanShots(no, shots) => PlanKeeps(s, no, shots);
    case SSubmit(t) => if Submit(s, t) != s { RowStepKeeps(s, t, s.takes[t].(status := Rendering)); } else { SameKeeps(s); }
    case SRendered(t) => if Rendered(s, t) != s { RowStepKeeps(s, t, s.takes[t].(status := Ready, file := true)); } else { SameKeeps(s); }
    case SFailTake(t, to) => FailKeeps(s, t, to);
    case SStoreReview(t, review) =>
      if StoreReview(s, t, review) != s { RowStepKeeps(s, t, s.takes[t].(review := Some(review))); } else { SameKeeps(s); }
    case SReadReview(t) => NotingKeeps(s, Next(s, step).noted);
    case SActOnReview(t, onTrial, published) => ActKeeps(s, t, onTrial, published);
    case SReadSettled(no) => NotingKeeps(s, Next(s, step).noted);
    case SComplete(no) => if Complete(s, no) != s { TaskMoveKeeps(s, no, G.Succeeded); } else { SameKeeps(s); }
    case SReadBest(no, picks) => NotingKeeps(s, Next(s, step).noted);
    case SRegenerateAsset(asset) => AssetKeeps(s, asset);
    case SReadVaultTakes(no) => NotingKeeps(s, Next(s, step).noted);
    case SRedirectVault(no, last) => RedirectKeeps(s, no, last);
    case SReadDirected(t) => NotingKeeps(s, Next(s, step).noted);
    case SDirectVaultTake(t) => DirectKeeps(s, t);
    case SResumeVault(t) => if t < |s.takes| { WaitingKeeps(s, s.takes[t].task); SameKeeps(s); } else { SameKeeps(s); }
  }

  lemma SameKeeps(s: State)
    requires Grounded(s)
    ensures Keeps(s, s)
  {
  }

  lemma PlanKeeps(s: State, no: TaskNo, shots: seq<Place>)
    requires Grounded(s) && Distinct(shots)
    ensures Keeps(s, PlanShots(s, no, shots))
  {
    PlanKeepsGrounded(s, no, shots);
  }

  lemma AssetKeeps(s: State, asset: TakeId)
    requires Grounded(s)
    ensures Keeps(s, RegenerateAsset(s, asset))
  {
    AssetKeepsGrounded(s, asset);
  }

  lemma RedirectKeeps(s: State, no: TaskNo, last: TakeId)
    requires Grounded(s) && ReadsFit(s)
    ensures Keeps(s, RedirectVault(s, no, last))
  {
    RedirectKeepsGrounded(s, no, last);
  }

  lemma DirectKeeps(s: State, t: TakeId)
    requires Grounded(s)
    ensures Keeps(s, DirectVaultTake(s, t))
  {
    hide Grounded, StartsWaiting;
    if t < |s.takes| {
      var directed := SetTake(s, t, s.takes[t].(pendingDirection := false));
      RowStepKeeps(s, t, s.takes[t].(pendingDirection := false));
      WaitingKeeps(directed, s.takes[t].task);
    }
    assert DirectVaultTake(s, t) == s ==> Keeps(s, s);
  }

  /** Every step, accept_best included: what is grounded stays, and one take a place exactly when accept_best
      finds its picks clear. */
  lemma StepKeepsOneExactly(s: State, step: Step)
    requires Grounded(s) && ReadsFit(s) && PlacesOnce(step)
    ensures Grounded(Next(s, step))
    ensures OneCurrent(s.takes) ==> (OneCurrent(Next(s, step).takes) <==> AcceptsClear(s, step))
  {
    if step.SAcceptBest? {
      AcceptKeepsGrounded(s, step.no, step.picks);
      if Fires(s, step.no, step.picks) && OneCurrent(s.takes) {
        assert ReadFits(s.takes, Picked(step.no, step.picks));
        AcceptKeepsOneExactly(s, step.no, step.picks);
      }
      hide Grounded, AcceptBest, Clear;
    } else {
      StepKeeps(s, step);
      hide Next, Grounded;
    }
  }

  // ---------------------------------------------------------------- every run

  ghost predicate AllPlacesOnce(steps: seq<Step>) {
    forall step :: step in steps ==> PlacesOnce(step)
  }

  ghost predicate AlwaysOne(s: State, steps: seq<Step>)
    decreases |steps|
  {
    OneCurrent(s.takes) && (steps != [] ==> AlwaysOne(Next(s, steps[0]), steps[1..]))
  }

  predicate AllAcceptsClear(s: State, steps: seq<Step>)
    decreases |steps|
  {
    steps == [] || (AcceptsClear(s, steps[0]) && AllAcceptsClear(Next(s, steps[0]), steps[1..]))
  }

  lemma {:induction false} ExecKeepsGrounded(s: State, steps: seq<Step>)
    requires Grounded(s) && ReadsFit(s) && TrialsFit(s.takes) && AllPlacesOnce(steps)
    ensures Grounded(Exec(s, steps)) && ReadsFit(Exec(s, steps)) && TrialsFit(Exec(s, steps).takes)
    ensures OneCurrent(s.takes) ==> (AlwaysOne(s, steps) <==> AllAcceptsClear(s, steps))
    decreases |steps|
  {
    hide Grounded, Next, ReadsFit, TrialsFit, OneCurrent, AcceptsClear, PlacesOnce;
    if steps != [] {
      StepKeepsOneExactly(s, steps[0]);
      StepKeepsReads(s, steps[0]);
      ExecKeepsGrounded(Next(s, steps[0]), steps[1..]);
    }
  }

  /** Through planning, regeneration, trials, promotion and accept_best, whatever jobs come late: the takes
      of a lineage fill one place with growing versions, and every place of the newest shot list shows a
      take. And no place ever shows two exactly when every accept_best that goes through finds no take on
      show of another lineage in the place of a pick, and no two picks in one place. */
  lemma EveryPlaceShowsOneTake(s: State, steps: seq<Step>)
    requires Initial(s) && AllPlacesOnce(steps)
    ensures var end := Exec(s, steps);
            && (forall t, u :: 0 <= t < u < |end.takes| && end.takes[t].root == end.takes[u].root ==>
                  end.takes[t].place == end.takes[u].place && end.takes[t].version < end.takes[u].version)
            && (forall place :: place in end.latest ==> Shows(end.takes, place))
    ensures AlwaysOne(s, steps) <==> AllAcceptsClear(s, steps)
  {
    ExecKeepsGrounded(s, steps);
    var end := Exec(s, steps);
    hide Exec, AlwaysOne, AllAcceptsClear;
    forall t, u | 0 <= t < u < |end.takes| && end.takes[t].root == end.takes[u].root
      ensures end.takes[t].place == end.takes[u].place && end.takes[t].version < end.takes[u].version
    {
      SameRootSamePlace(end.takes, t, u);
      assert LineageFits(end.takes, u);
    }
  }
}
