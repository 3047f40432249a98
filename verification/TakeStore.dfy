/** The asset and task tables as the visual loop's code updates them
    (apps/api/src/orchestrator/{visuals,takes,take-completion,vault-takes,render-outcomes,visual-sweep}.ts):
    each method leaves the rows its step of module Takes describes. */
module TakeStore {
  import opened Options
  import opened Takes
  import opened TakeLineages
  import opened TakeProgress
  import G = LiveGraph

  // ---------------------------------------------------------------- bestTake

  function Score(take: Take): int {
    if take.review.Some? then take.review.value.score else -1
  }

  /** A higher score, or the same score and a later version. */
  predicate Beats(a: Take, b: Take) {
    Score(a) > Score(b) || (Score(a) == Score(b) && a.version > b.version)
  }

  predicate Competes(takes: TakeRows, no: TaskNo, root: TakeId, t: TakeId) {
    t < |takes| && Of(takes[t], no) && takes[t].root == root && Finished(takes[t])
  }

  /** The best finished take of a task in one lineage. */
  function Best(takes: TakeRows, no: TaskNo, root: TakeId): (best: Option<TakeId>)
    ensures best.Some? ==> Competes(takes, no, root, best.value)
  {
    if takes == [] then None
    else
      var n := |takes| - 1;
      var rest := Best(takes[..n], no, root);
      if Competes(takes, no, root, n) && (rest.None? || Beats(takes[n], takes[rest.value])) then Some(n) else rest
  }

  predicate TrialLineage(takes: TakeRows, no: TaskNo, root: TakeId) {
    exists t :: 0 <= t < |takes| && Of(takes[t], no) && takes[t].root == root && takes[t].onTrial
  }

  /** The take on show, which competes while the lineage is on trial. */
  function Incumbent(takes: TakeRows, no: TaskNo, root: TakeId): (incumbent: Option<TakeId>)
    ensures incumbent.Some? ==> incumbent.value < |takes| && takes[incumbent.value].root == root
  {
    if TrialLineage(takes, no, root) then CurrentOf(takes, root) else None
  }

  /** bestTake, of one lineage of the task. */
  function BestTake(takes: TakeRows, no: TaskNo, root: TakeId): (pick: Option<TakeId>)
    ensures pick.Some? ==> pick.value < |takes| && takes[pick.value].root == root && Finished(takes[pick.value])
  {
    var best, incumbent := Best(takes, no, root), Incumbent(takes, no, root);
    if incumbent.None? || !Finished(takes[incumbent.value]) then best
    else if best.Some? && Score(takes[best.value]) > Score(takes[incumbent.value]) then best
    else incumbent
  }

  lemma {:induction false} BestIsBest(takes: TakeRows, no: TaskNo, root: TakeId)
    ensures var best := Best(takes, no, root);
      && (best.None? <==> forall t: TakeId :: !Competes(takes, no, root, t))
      && (best.Some? ==> forall t: TakeId :: Competes(takes, no, root, t) ==> !Beats(takes[t], takes[best.value]))
  {
    if takes != [] {
      var n := |takes| - 1;
      BestIsBest(takes[..n], no, root);
      forall t: TakeId | t < n ensures Competes(takes, no, root, t) == Competes(takes[..n], no, root, t) {
        assert takes[..n][t] == takes[t];
      }
    }
  }

  /** What people keep of a lineage has a file; nothing finished of it, nor the take on show, scored
      higher; and the take on show is only replaced by a strictly higher score. */
  lemma BestTakeIsBest(takes: TakeRows, no: TaskNo, root: TakeId)
    ensures var pick, incumbent := BestTake(takes, no, root), Incumbent(takes, no, root);
      && (pick.None? <==> (forall t: TakeId :: !Competes(takes, no, root, t)) && (incumbent.None? || !Finished(takes[incumbent.value])))
      && (pick.Some? ==>
            && takes[pick.value].file
            && (Competes(takes, no, root, pick.value) || pick == incumbent)
            && (forall t: TakeId :: Competes(takes, no, root, t) ==> Score(takes[t]) <= Score(takes[pick.value]))
            && ((incumbent.Some? && Finished(takes[incumbent.value]) && pick != incumbent)
                ==> Score(takes[pick.value]) > Score(takes[incumbent.value])))
  {
    BestIsBest(takes, no, root);
  }

  // ---------------------------------------------------------------- the same, on the rows

  predicate HasFile(take: Take) {
    take.file && take.status != Queued && take.status != Rendering && take.status != TakeStatus.Failed
  }

  /** A finished take of the task in the lineage. */
  predicate MayBeKept(takes: TakeRows, no: TaskNo, root: TakeId, t: TakeId) {
    t < |takes| && takes[t].task == Some(no) && takes[t].root == root && HasFile(takes[t])
  }

  /** The newest take of the lineage that is on show. */
  predicate IsShown(takes: TakeRows, root: TakeId, t: TakeId) {
    t < |takes| && takes[t].root == root && takes[t].isCurrent
    && forall u :: 0 <= u < |takes| && takes[u].root == root && takes[u].isCurrent && u != t ==> takes[u].version < takes[t].version
  }

  /** A finished one that a trial of the task is held against. */
  predicate IsDefended(takes: TakeRows, no: TaskNo, root: TakeId, t: TakeId) {
    IsShown(takes, root, t) && HasFile(takes[t])
    && exists u :: 0 <= u < |takes| && takes[u].task == Some(no) && takes[u].root == root && takes[u].onTrial
  }

  function Rated(take: Take): int {
    match take.review
    case None => -1
    case Some(review) => review.score
  }

  lemma {:induction false} CurrentOfIsShown(takes: TakeRows, root: TakeId, t: TakeId)
    requires IsShown(takes, root, t)
    ensures CurrentOf(takes, root) == Some(t)
  {
    var n := |takes| - 1;
    assert forall u :: 0 <= u < n ==> takes[..n][u] == takes[u];
    if t < n {
      assert IsShown(takes[..n], root, t);
      CurrentOfIsShown(takes[..n], root, t);
    }
  }

  /** A task keeps of a lineage its take rated highest, the latest of equals, unless the take on show
      in a trial is rated as high: then that one. Without either it keeps none. */
  lemma KeepsTheHighestRated(takes: TakeRows, no: TaskNo, root: TakeId)
    requires CurrentOf(takes, root).Some? ==> IsShown(takes, root, CurrentOf(takes, root).value)
    ensures var pick := BestTake(takes, no, root);
      && (pick.None? <==> forall t: TakeId :: !MayBeKept(takes, no, root, t) && !IsDefended(takes, no, root, t))
      && (pick.Some? ==> forall t: TakeId :: MayBeKept(takes, no, root, t) ==> Rated(takes[t]) <= Rated(takes[pick.value]))
      && (pick.Some? && !IsDefended(takes, no, root, pick.value) ==>
            && MayBeKept(takes, no, root, pick.value)
            && (forall t: TakeId :: MayBeKept(takes, no, root, t) && Rated(takes[t]) == Rated(takes[pick.value]) ==>
                  takes[t].version <= takes[pick.value].version)
            && (forall t: TakeId :: IsDefended(takes, no, root, t) ==> Rated(takes[t]) < Rated(takes[pick.value])))
      && (forall t: TakeId ::
            (IsDefended(takes, no, root, t)
             && (forall u: TakeId :: MayBeKept(takes, no, root, u) ==> Rated(takes[u]) <= Rated(takes[t])))
            ==> pick == Some(t))
  {
    hide CurrentOf, Best;
    BestIsBest(takes, no, root);
    forall t: TakeId ensures MayBeKept(takes, no, root, t) <==> Competes(takes, no, root, t) {
    }
    forall t: TakeId ensures IsDefended(takes, no, root, t)
                        <==> Incumbent(takes, no, root) == Some(t) && Finished(takes[t])
    {
      if IsShown(takes, root, t) {
        CurrentOfIsShown(takes, root, t);
      }
    }
    hide MayBeKept, IsDefended, Competes, Incumbent;
  }

  predicate HasLineage(takes: TakeRows, no: TaskNo, root: TakeId) {
    exists t :: 0 <= t < |takes| && Of(takes[t], no) && takes[t].root == root
  }

  /** The task has takes, and each of its lineages one to keep. */
  predicate CanPickBest(takes: TakeRows, no: TaskNo) {
    HasTakes(takes, no) && forall t :: 0 <= t < |takes| && Of(takes[t], no) ==> BestTake(takes, no, takes[t].root).Some?
  }

  /** acceptBestTake goes through: the task is for people to resolve, and there is a take to keep for each lineage. */
  predicate CanAcceptBest(s: State, no: TaskNo) {
    no < |s.tasks| && s.tasks[no] in {G.Escalated, G.Failed} && CanPickBest(s.takes, no)
  }

  /** The task is queued, and handed off before any run of it starts. */
  function StoppedUnrun(s: State, no: TaskNo): State {
    Next(Next(s, SQueueTask(no)), SMoveTask(no, G.HandOff(G.Failed)))
  }

  /** A direct task stopped before it ran has nothing to accept, unless it is a Vault regenerate's whose
      lineage shows a take with a file: that one competes, so the task SUCCEEDS without having run. */
  lemma AcceptedUnrunExactly(s: State, asset: TakeId)
    requires Grounded(s) && s.planned && AllDone(s) && asset < |s.takes|
    ensures !CanAcceptBest(StoppedUnrun(AddTask(s), |s.tasks|), |s.tasks|)
    ensures RegenerateAsset(s, asset) != s ==>
      var onShow := CurrentOf(s.takes, s.takes[asset].root);
      CanAcceptBest(StoppedUnrun(RegenerateAsset(s, asset), |s.tasks|), |s.tasks|) <==> onShow.Some? && Finished(s.takes[onShow.value])
  {
    hide Lineages, Covered, TrialsHidden, BestTake, Best, Incumbent, CurrentOf, NewTake, LineageInFlight, HasRival;
    var no := |s.tasks|;
    assert !HasTakes(s.takes, no);
    assert StoppedUnrun(AddTask(s), no).takes == s.takes;
    if RegenerateAsset(s, asset) != s {
      var after := RegenerateAsset(s, asset);
      var stopped := StoppedUnrun(after, no);
      assert stopped.takes == after.takes && stopped.tasks == s.tasks + [G.Failed];
      UnrunVaultPick(s, asset);
      var n := |s.takes|;
      VaultTakeIs(s, asset);
      assert Of(after.takes[n], no) && HasTakes(after.takes, no);
      assert forall t :: 0 <= t < n ==> after.takes[t] == s.takes[t] && !Of(after.takes[t], no);
    }
  }

  lemma VaultTakeIs(s: State, asset: TakeId)
    requires s.planned && asset < |s.takes| && RegenerateAsset(s, asset) != s
    ensures var after, n := RegenerateAsset(s, asset).takes, |s.takes|;
      && |after| == n + 1 && after[..n] == s.takes && Of(after[n], |s.tasks|) && after[n].onTrial && !after[n].isCurrent
      && after[n].status == Queued && after[n].root == s.takes[asset].root
  {
    hide MaxVersion;
  }

  /** Only the take on show competes. */
  lemma UnrunVaultPick(s: State, asset: TakeId)
    requires TasksFit(s) && s.planned && asset < |s.takes| && RegenerateAsset(s, asset) != s
    ensures var root, onShow := s.takes[asset].root, CurrentOf(s.takes, s.takes[asset].root);
      BestTake(RegenerateAsset(s, asset).takes, |s.tasks|, root)
      == if onShow.Some? && Finished(s.takes[onShow.value]) then onShow else None
  {
    var takes, n, no, root := RegenerateAsset(s, asset).takes, |s.takes|, |s.tasks|, s.takes[asset].root;
    VaultTakeIs(s, asset);
    hide RegenerateAsset;
    BestIsBest(takes, no, root);
    hide Best;
    assert forall t: TakeId :: t < n ==> takes[t] == takes[..n][t] && !Of(takes[t], no);
    assert forall t: TakeId :: !Competes(takes, no, root, t);
    assert TrialLineage(takes, no, root);
    assert CurrentOf(takes, root) == CurrentOf(takes[..n], root);
  }

  predicate IsDropped(take: Take, t: TakeId, picks: map<TakeId, TakeId>) {
    take.root in picks && t !in picks.Values && (take.isCurrent || take.status in {Queued, Rendering})
  }

  function Drop(take: Take, dropped: bool): Take {
    if dropped then take.(isCurrent := false) else take
  }

  function Stop(take: Take, dropped: bool): Take {
    if dropped && take.status in {Queued, Rendering} then take.(status := Rejected) else take
  }

  function EndTrial(take: Take, no: TaskNo, keep: bool): Take {
    if Of(take, no) && take.onTrial && take.status == Ready && !keep then take.(status := Rejected, isCurrent := false) else take
  }

  function SetAside(take: Take, t: TakeId, no: TaskNo, picks: map<TakeId, TakeId>): Take {
    var dropped := IsDropped(take, t, picks);
    EndTrial(Stop(Drop(take, dropped), dropped), no, t in picks.Values)
  }

  function Kept(take: Take): Take {
    take.(isCurrent := true, status := Ready, onTrial := false)
  }

  lemma AcceptSplits(take: Take, t: TakeId, no: TaskNo, picks: map<TakeId, TakeId>)
    ensures AfterAccept(take, t, no, picks)
         == if t in picks.Values then Kept(SetAside(take, t, no, picks)) else SetAside(take, t, no, picks)
  {}

  // ---------------------------------------------------------------- moveOnWaitingTasks

  function HandedOff(status: TakeStatus): G.TaskStatus {
    if status == Rejected then G.Escalated else G.Failed
  }

  /** A WAITING task once the sweep looked at it: done when settled, handed on when a take blocks it. */
  ghost predicate MovedOn(takes: TakeRows, no: TaskNo, before: G.TaskStatus, after: G.TaskStatus) {
    if before != G.Waiting then after == before
    else if Settled(takes, no) then after == G.Succeeded
    else if exists t: TakeId :: Blocking(takes, no, t) then exists t: TakeId :: Blocking(takes, no, t) && after == HandedOff(takes[t].status)
    else after == before
  }

  /** With no live job left, one sweep moves every reachable WAITING task: it queues a job for one of its
      takes, or moveOnWaitingTasks ends it. */
  lemma OneSweepMovesIt(s: State, steps: seq<Step>, no: TaskNo, after: G.TaskStatus)
    requires Initial(s) && AllShots(steps) && AllAttended(s, steps) && TaskIs(Exec(s, steps), no, G.Waiting)
    requires MovedOn(Exec(s, steps).takes, no, G.Waiting, after)
    ensures (exists t :: Redriven(Exec(s, steps).takes, no, t)) || after != G.Waiting
  {
    hide Exec, AllAttended, Redriven, Settled, Blocking;
    WaitingIsNeverStuck(s, steps, no);
  }

  class TakeTable {
    var takes: TakeRows
    var tasks: seq<G.TaskStatus>
    const planned: bool
    const lastAttempt: nat
    ghost var noted: set<Read>
    ghost var latest: set<Place>
    ghost var revived: set<TakeId>

    constructor (s: State)
      ensures Now() == s
    {
      takes, tasks, planned, lastAttempt := s.takes, s.tasks, s.planned, s.lastAttempt;
      noted, latest, revived := s.noted, s.latest, s.revived;
    }

    ghost function Now(): State
      reads this
    {
      State(takes, tasks, planned, lastAttempt, noted, latest, revived)
    }

    /** createTake: returns the new row's number. */
    method CreateTake(parent: Option<TakeId>, task: Option<TaskNo>, place: Place, isCurrent: bool,
                      origin: Origin, attempt: nat, onTrial: bool, pendingDirection: bool, successorOf: Option<TakeId>)
        returns (created: TakeId)
      requires parent.Some? ==> parent.value < |takes|
      modifies `takes
      ensures created == |old(takes)|
      ensures takes == old(takes) + [NewTake(old(takes), parent, task, place, isCurrent, origin, attempt, onTrial, pendingDirection, successorOf)]
    {
      created := |takes|;
      takes := takes + [NewTake(takes, parent, task, place, isCurrent, origin, attempt, onTrial, pendingDirection, successorOf)];
    }

    /** lineageBySlot: the replaced current take of each place. */
    method LineageBySlot() returns (bySlot: map<Place, TakeId>)
      ensures forall place :: ParentAt(takes, place) == if place in bySlot then Some(bySlot[place]) else None
    {
      bySlot := map[];
      for t := 0 to |takes|
        invariant forall place :: ParentAt(takes[..t], place) == if place in bySlot then Some(bySlot[place]) else None
      {
        assert takes[..t + 1][..t] == takes[..t];
        if takes[t].isCurrent {
          bySlot := bySlot[takes[t].place := t];
        }
      }
      assert takes[..|takes|] == takes;
    }

    /** The transaction of directShots: each shot continues the lineage of the take in its place. */
    method PlanShotsIn(no: TaskNo, shots: seq<Place>) returns (created: seq<TakeId>)
      modifies this
      ensures Now() == PlanShots(old(Now()), no, shots)
      ensures created == [] || |created| == |shots|
    {
      created := [];
      if !(no < |tasks| && tasks[no] == G.Running) || HasVaultTake(takes, no) {
        return;
      }
      tasks := tasks[no := G.Waiting];
      takes := Supersede(takes, no);
      ghost var replaced := takes;
      var bySlot := LineageBySlot();
      takes := NoneCurrent(takes);
      for i := 0 to |shots|
        invariant |takes| >= |replaced| && |created| == i
        invariant noted == old(noted) && latest == old(latest) && revived == old(revived)
        invariant tasks == old(tasks)[no := G.Waiting]
        invariant TakesFor(replaced, takes, no, shots[i..]) == TakesFor(replaced, NoneCurrent(replaced), no, shots)
      {
        var place := shots[i];
        assert shots[i..][0] == place && shots[i..][1..] == shots[i + 1..];
        var parent := if place in bySlot then Some(bySlot[place]) else None;
        assert parent == ParentAt(replaced, place);
        var take := CreateTake(parent, Some(no), place, true, FromDirector, 1, false, false, None);
        created := created + [take];
      }
      assert shots[0..] == shots && shots[|shots|..] == [];
      latest := set p | p in shots;
    }

    /** The transaction of regenerateTake, for a take read as on trial or not. */
    method RegenerateTakeIn(t: TakeId, onTrial: bool) returns (next: Option<TakeId>)
      requires t < |takes|
      modifies `takes
      ensures Now() == RegenerateTake(old(Now()), t, onTrial)
      ensures next.Some? <==> CanRegenerate(old(Now()), t, onTrial)
    {
      var take := takes[t];
      if take.status != Ready || take.isCurrent != !onTrial {
        return None;
      }
      takes := takes[t := take.(status := Rejected, isCurrent := false)];
      var created := CreateTake(Some(t), take.task, take.place, !onTrial, FromReview, take.attempt + 1, onTrial, false, Some(t));
      next := Some(created);
    }

    /** failTake: the take and the task that waits on it move together. */
    method FailTakeIn(t: TakeId, to: TakeStatus) returns (failed: bool)
      modifies `takes, `tasks
      ensures Now() == FailTake(old(Now()), t, to)
      ensures failed ==> t < |takes| && takes[t].status == to
    {
      failed := t < |takes| && takes[t].status in {Queued, Rendering, Ready} && takes[t].review.None? && to in {TakeStatus.Failed, Rejected};
      if failed {
        takes := takes[t := takes[t].(status := to)];
        var task := takes[t].task;
        if task.Some? && task.value < |tasks| && tasks[task.value] == G.Waiting {
          tasks := tasks[task.value := HandedOff(to)];
        }
      }
    }

    // -------------------------------------------------------------- acceptBestTake

    /** The lineages of the task's takes, each once. */
    method Roots(no: TaskNo) returns (roots: seq<TakeId>)
      ensures forall root :: root in roots <==> HasLineage(takes, no, root)
    {
      roots := [];
      for t := 0 to |takes|
        invariant forall root :: root in roots <==> HasLineage(takes[..t], no, root)
      {
        assert takes[..t + 1][..t] == takes[..t];
        ghost var before := roots;
        if takes[t].task == Some(no) && takes[t].root !in roots {
          roots := roots + [takes[t].root];
        }
        forall root ensures root in roots <==> HasLineage(takes[..t + 1], no, root) {
          LineageSoFar(takes, t, no, root);
        }
      }
      assert takes[..|takes|] == takes;
    }

    /** Each lineage's best take; none when some lineage has no finished one. */
    method BestOfEach(no: TaskNo, roots: seq<TakeId>) returns (best: Option<map<TakeId, TakeId>>)
      ensures best.Some? <==> forall root :: root in roots ==> BestTake(takes, no, root).Some?
      ensures best.Some? ==> best.value.Keys == (set root | root in roots)
      ensures best.Some? ==> forall root :: root in best.value ==> BestTake(takes, no, root) == Some(best.value[root])
    {
      var picks: map<TakeId, TakeId> := map[];
      for i := 0 to |roots|
        invariant forall root :: root in picks <==> root in roots[..i]
        invariant forall root :: root in picks ==> BestTake(takes, no, root) == Some(picks[root])
      {
        var pick := BestTake(takes, no, roots[i]);
        if pick.None? {
          assert roots[i] in roots;
          return None;
        }
        picks := picks[roots[i] := pick.value];
      }
      assert roots[..|roots|] == roots;
      best := Some(picks);
    }

    /** What acceptBestTake reads: a take to keep for each lineage, unless one of them has none. */
    method PickBest(no: TaskNo) returns (picks: Option<map<TakeId, TakeId>>)
      ensures picks.Some? <==> CanPickBest(takes, no)
      ensures picks.Some? ==> PicksFit(takes, no, picks.value)
      ensures picks.Some? ==> forall root :: root in picks.value ==> BestTake(takes, no, root) == Some(picks.value[root])
    {
      hide BestTake;
      var roots := Roots(no);
      picks := BestOfEach(no, roots);
      RootsTell(takes, no, roots);
      if roots == [] {
        return None;
      }
      if picks.Some? {
        PicksOfRootsFit(takes, no, roots, picks.value);
      }
    }

    /** acceptBestTake's transaction, on what was picked before it. */
    method AcceptPicks(no: TaskNo, picks: map<TakeId, TakeId>) returns (done: bool)
      requires Picked(no, picks) in noted
      requires forall root :: root in picks ==> picks[root] < |takes|
      modifies this
      ensures Now() == AcceptBest(old(Now()), no, picks)
      ensures done <==> no < |old(tasks)| && old(tasks)[no] in {G.Escalated, G.Failed}
    {
      done := no < |tasks| && tasks[no] in {G.Escalated, G.Failed};
      if done {
        tasks := tasks[no := G.Succeeded];
        revived := revived + Revived(takes, picks);
        KeepPicks(no, picks);
      }
    }

    /** acceptBestTake: no row changes unless the task can be resolved with the takes it has. */
    method AcceptBestTake(no: TaskNo) returns (picks: Option<map<TakeId, TakeId>>)
      modifies this
      ensures picks.Some? <==> CanAcceptBest(old(Now()), no)
      ensures picks.None? ==> takes == old(takes) && tasks == old(tasks)
      ensures picks.Some? ==> Now() == AcceptBest(ReadBest(old(Now()), no, picks.value), no, picks.value)
      ensures picks.Some? ==> PicksFit(old(takes), no, picks.value)
      ensures picks.Some? ==> forall root :: root in picks.value ==> BestTake(old(takes), no, root) == Some(picks.value[root])
    {
      hide BestTake;
      picks := PickBest(no);
      if picks.Some? {
        noted := noted + {Picked(no, picks.value)};
        var done := AcceptPicks(no, picks.value);
        if !done {
          return None;
        }
      }
    }

    /** The lineages' other takes leave the show, and those under way or on trial are set aside. */
    method SetOthersAside(no: TaskNo, picks: map<TakeId, TakeId>)
      modifies `takes
      ensures |takes| == |old(takes)|
      ensures forall t :: 0 <= t < |takes| ==> takes[t] == SetAside(old(takes)[t], t, no, picks)
    {
      hide IsDropped, Drop, Stop, EndTrial;
      var rows := takes;
      var dropped := set t | 0 <= t < |rows| && IsDropped(rows[t], t, picks);
      rows := seq(|rows|, t requires 0 <= t < |rows| => Drop(rows[t], t in dropped));
      rows := seq(|rows|, t requires 0 <= t < |rows| => Stop(rows[t], t in dropped));
      rows := seq(|rows|, t requires 0 <= t < |rows| => EndTrial(rows[t], no, t in picks.Values));
      takes := rows;
    }

    /** The row updates of acceptBestTake. */
    method KeepPicks(no: TaskNo, picks: map<TakeId, TakeId>)
      requires forall root :: root in picks ==> picks[root] < |takes|
      modifies `takes
      ensures takes == seq(|old(takes)|, t requires 0 <= t < |old(takes)| => AfterAccept(old(takes)[t], t, no, picks))
    {
      hide SetAside, AfterAccept;
      SetOthersAside(no, picks);
      ghost var setAside := takes;
      var keep := picks.Values;
      var left := keep;
      while left != {}
        invariant left <= keep && |takes| == |setAside| == |old(takes)|
        invariant forall t :: 0 <= t < |takes| ==> takes[t] == if t in keep - left then Kept(setAside[t]) else setAside[t]
        decreases |left|
      {
        var t :| t in left;
        takes := takes[t := Kept(takes[t])];
        left := left - {t};
      }
      forall t | 0 <= t < |takes| ensures takes[t] == AfterAccept(old(takes)[t], t, no, picks) {
        AcceptSplits(old(takes)[t], t, no, picks);
      }
    }

    // -------------------------------------------------------------- a WAITING task ends

    /** awaitedTakes: the current takes, and the newest of each lineage still on trial. */
    method AwaitedTakes(no: TaskNo) returns (awaited: seq<TakeId>)
      requires Lineages(takes)
      ensures forall t: TakeId :: t in awaited <==> Awaited(takes, no, t)
    {
      var newestOnTrial: map<TakeId, TakeId> := map[];
      awaited := [];
      for t := 0 to |takes|
        invariant forall u: TakeId :: u in awaited <==> u < t && Of(takes[u], no) && takes[u].isCurrent
        invariant forall root :: root in newestOnTrial ==> newestOnTrial[root] < t && takes[newestOnTrial[root]].root == root
        invariant forall root :: root in newestOnTrial ==> OnTrial(takes, no, newestOnTrial[root])
        invariant forall u: TakeId :: u < t && OnTrial(takes, no, u) ==>
          takes[u].root in newestOnTrial && u <= newestOnTrial[takes[u].root]
      {
        if takes[t].task == Some(no) {
          if takes[t].isCurrent {
            awaited := awaited + [t];
          } else if takes[t].onTrial {
            var root := takes[t].root;
            assert LineageFits(takes, t);
            if root !in newestOnTrial || takes[t].version > takes[newestOnTrial[root]].version {
              newestOnTrial := newestOnTrial[root := t];
            }
          }
        }
      }
      NewestAreAwaited(takes, no, newestOnTrial, awaited);
      var roots := newestOnTrial.Keys;
      ghost var current := awaited;
      while roots != {}
        invariant roots <= newestOnTrial.Keys
        invariant forall t: TakeId :: t in awaited <==> t in current || exists root :: root in newestOnTrial.Keys - roots && newestOnTrial[root] == t
        decreases |roots|
      {
        var root :| root in roots;
        awaited := awaited + [newestOnTrial[root]];
        roots := roots - {root};
      }
    }

    /** blockingTake */
    method BlockingTake(no: TaskNo) returns (blocked: Option<TakeId>)
      requires Lineages(takes)
      ensures blocked.Some? ==> Blocking(takes, no, blocked.value)
      ensures blocked.None? ==> forall t: TakeId :: !Blocking(takes, no, t)
    {
      var awaited := AwaitedTakes(no);
      for i := 0 to |awaited|
        invariant forall k :: 0 <= k < i ==> !Blocking(takes, no, awaited[k])
      {
        var t := awaited[i];
        assert t in awaited;
        if takes[t].status == TakeStatus.Failed || (takes[t].status == Rejected && takes[t].review.None?) {
          return Some(t);
        }
      }
      blocked := None;
    }

    /** completeIfSettled */
    method CompleteIfSettledIn(no: TaskNo) returns (done: bool)
      modifies `tasks, `noted
      ensures Now() == if Settled(takes, no) then Complete(ReadSettled(old(Now()), no), no) else old(Now())
      ensures done <==> TaskIs(old(Now()), no, G.Waiting) && Settled(takes, no)
    {
      if !Settled(takes, no) {
        return false;
      }
      noted := noted + {AllSettled(no)};
      done := no < |tasks| && tasks[no] == G.Waiting;
      if done {
        tasks := tasks[no := G.Succeeded];
      }
    }

    /** moveOnWaitingTasks: each task it is given, if it still waits, ends when its takes let it. */
    method MoveOnWaitingTasks(ids: seq<TaskNo>) returns (moved: nat)
      requires Lineages(takes)
      modifies `tasks, `noted
      ensures |tasks| == |old(tasks)|
      ensures forall no :: 0 <= no < |tasks| ==>
        if no in ids then MovedOn(takes, no, old(tasks)[no], tasks[no]) else tasks[no] == old(tasks)[no]
    {
      hide Lineages, Settled;
      moved := 0;
      for i := 0 to |ids|
        invariant |tasks| == |old(tasks)|
        invariant forall no :: 0 <= no < |tasks| ==>
          if no in ids[..i] then MovedOn(takes, no, old(tasks)[no], tasks[no]) else tasks[no] == old(tasks)[no]
      {
        var no := ids[i];
        assert ids[..i + 1] == ids[..i] + [no];
        if no < |tasks| && tasks[no] == G.Waiting {
          var done := CompleteIfSettledIn(no);
          if done {
            moved := moved + 1;
          } else {
            var blocked := BlockingTake(no);
            if blocked.Some? {
              tasks := tasks[no := HandedOff(takes[blocked.value].status)];
              moved := moved + 1;
            }
          }
        }
      }
      assert ids[..|ids|] == ids;
    }
  }

  predicate OnTrial(takes: TakeRows, no: TaskNo, t: TakeId) {
    t < |takes| && Of(takes[t], no) && takes[t].onTrial && !takes[t].isCurrent
  }

  lemma LineageSoFar(takes: TakeRows, t: nat, no: TaskNo, root: TakeId)
    requires t < |takes|
    ensures HasLineage(takes[..t + 1], no, root) <==> HasLineage(takes[..t], no, root) || (Of(takes[t], no) && takes[t].root == root)
  {
    var before, after := takes[..t], takes[..t + 1];
    assert after == before + [takes[t]];
    if HasLineage(before, no, root) {
      var u :| 0 <= u < |before| && Of(before[u], no) && before[u].root == root;
      assert after[u] == before[u];
    }
    assert after[t] == takes[t];
  }

  lemma RootsTell(takes: TakeRows, no: TaskNo, roots: seq<TakeId>)
    requires forall root :: root in roots <==> HasLineage(takes, no, root)
    ensures roots == [] <==> !HasTakes(takes, no)
    ensures CanPickBest(takes, no) <==> roots != [] && forall root :: root in roots ==> BestTake(takes, no, root).Some?
  {
    hide BestTake;
    forall t | 0 <= t < |takes| && Of(takes[t], no) ensures takes[t].root in roots {}
    if roots != [] {
      assert roots[0] in roots;
    }
  }

  lemma PicksOfRootsFit(takes: TakeRows, no: TaskNo, roots: seq<TakeId>, picks: map<TakeId, TakeId>)
    requires roots != [] && forall root :: root in roots <==> HasLineage(takes, no, root)
    requires picks.Keys == set root | root in roots
    requires forall root :: root in picks ==> BestTake(takes, no, root) == Some(picks[root])
    ensures PicksFit(takes, no, picks)
  {
    hide BestTake;
    assert roots[0] in picks;
    forall t | 0 <= t < |takes| && Of(takes[t], no) ensures takes[t].root in picks {
      assert HasLineage(takes, no, takes[t].root);
    }
    forall root | root in picks ensures exists t :: 0 <= t < |takes| && Of(takes[t], no) && takes[t].root == root {
      assert HasLineage(takes, no, root);
    }
  }

  /** The map holds each lineage's newest take on trial. */
  lemma NewestAreAwaited(takes: TakeRows, no: TaskNo, newest: map<TakeId, TakeId>, current: seq<TakeId>)
    requires Lineages(takes)
    requires forall u: TakeId :: u in current <==> u < |takes| && Of(takes[u], no) && takes[u].isCurrent
    requires forall root :: root in newest ==> OnTrial(takes, no, newest[root]) && takes[newest[root]].root == root
    requires forall u: TakeId :: OnTrial(takes, no, u) ==> takes[u].root in newest && u <= newest[takes[u].root]
    ensures forall t: TakeId :: Awaited(takes, no, t) <==> t in current || exists root :: root in newest && newest[root] == t
  {
    forall t: TakeId | NewestTrial(takes, no, t) ensures exists root :: root in newest && newest[root] == t {
      var root := takes[t].root;
      assert OnTrial(takes, no, t);
      assert LineageFits(takes, newest[root]);
      assert newest[root] == t;
    }
    forall root | root in newest ensures NewestTrial(takes, no, newest[root]) {
      var t := newest[root];
      forall u | 0 <= u < |takes| && Of(takes[u], no) && takes[u].onTrial && !takes[u].isCurrent && takes[u].root == root
        ensures takes[u].version <= takes[t].version
      {
        assert OnTrial(takes, no, u);
        assert LineageFits(takes, t);
      }
    }
  }
}
