/** Runs of the visual loop on which a job acts on what it read too long ago. */
module TakeSlips {
  import opened Options
  import opened Takes
  import opened TakeLineages
  import opened TakeProgress
  import opened TakeBounds
  import G = LiveGraph

  lemma {:induction false} ExecInTurn(s: State, first: seq<Step>, then_: seq<Step>)
    ensures Exec(s, first + then_) == Exec(Exec(s, first), then_)
    decreases |first|
  {
    hide Next;
    if first == [] {
      assert first + then_ == then_;
    } else {
      ExecInTurn(Next(s, first[0]), first[1..], then_);
      assert (first + then_)[1..] == first[1..] + then_;
    }
  }

  lemma ExecOne(s: State, step: Step)
    ensures Exec(s, [step]) == Next(s, step)
  {
    hide Next;
    assert [step][1..] == [];
  }

  lemma ExecTwo(s: State, one: Step, two: Step)
    ensures Exec(s, [one, two]) == Next(Next(s, one), two)
  {
    hide Next;
    ExecOne(s, one);
    ExecOne(Next(s, one), two);
    ExecInTurn(s, [one], [two]);
    assert [one] + [two] == [one, two];
  }

  // ---------------------------------------------------------------- two successors of one take

  const FIRST := Take(Some(0), 0, "1/-", 1, TakeStatus.Queued, false, None, true, FromDirector, 1, false, false, None)
  const JUDGED := FIRST.(status := Ready, file := true, review := Some(Review(Regenerate, 5)))
  const SECOND := Take(Some(0), 0, "1/-", 2, TakeStatus.Queued, false, None, true, FromReview, 2, false, false, Some(0))
  const WORSE := SECOND.(status := Ready, file := true, review := Some(Review(Regenerate, 3)))
  const THIRD := SECOND.(version := 3)

  /** MAX_VISUAL_REGENERATIONS is 1. */
  function At(takes: TakeRows, task: G.TaskStatus, noted: set<Read>, revived: set<TakeId>): State {
    State(takes, [task], true, 2, noted, {"1/-"}, revived)
  }

  const START := State([], [], true, 2, {}, {}, {})
  const PLANNED := At([FIRST], G.Waiting, {}, {})
  const REVIEWED := At([JUDGED], G.Waiting, {Reviewed(0, false)}, {})
  const REPLACED := At([JUDGED.(status := Rejected, isCurrent := false), SECOND], G.Waiting, {Reviewed(0, false)}, {})
  const REVIEWED_AGAIN :=
    At([JUDGED.(status := Rejected, isCurrent := false), WORSE], G.Waiting, {Reviewed(0, false), Reviewed(1, false)}, {})
  const ESCALATED := REVIEWED_AGAIN.(tasks := [G.Escalated])
  const PICKED := ESCALATED.(noted := ESCALATED.noted + {Picked(0, map[0 := 0])})
  const ACCEPTED := At([JUDGED, WORSE.(isCurrent := false)], G.Succeeded, PICKED.noted, {0})
  const REPLACED_AGAIN :=
    ACCEPTED.(takes := [JUDGED.(status := Rejected, isCurrent := false), WORSE.(isCurrent := false), THIRD])

  const PLANNING := [SAddTask, SQueueTask(0)] + [SMoveTask(0, G.Start), SPlanShots(0, ["1/-"])]

  lemma Plans()
    ensures Exec(START, PLANNING) == PLANNED
  {
    ExecInTurn(START, [SAddTask, SQueueTask(0)], [SMoveTask(0, G.Start), SPlanShots(0, ["1/-"])]);
    ExecTwo(START, SAddTask, SQueueTask(0));
    var queued := Next(Next(START, SAddTask), SQueueTask(0));
    ExecTwo(queued, SMoveTask(0, G.Start), SPlanShots(0, ["1/-"]));
    var running := Next(queued, SMoveTask(0, G.Start));
    hide Exec;
    assert running == START.(tasks := [G.Running]);
    assert TakesFor([], [], 0, ["1/-"]) == [FIRST] by {
      assert ["1/-"][1..] == [];
    }
    assert NoneCurrent(Supersede([], 0)) == [];
    assert (set p | p in ["1/-"]) == {"1/-"};
  }

  /** A take rendered, judged, and the job that judged it past its read. */
  function Judging(t: TakeId, score: int): seq<Step> {
    [SSubmit(t), SRendered(t)] + [SStoreReview(t, Review(Regenerate, score)), SReadReview(t)]
  }

  lemma ExecJudging(s: State, t: TakeId, score: int)
    ensures Exec(s, Judging(t, score))
         == Next(Next(Next(Next(s, SSubmit(t)), SRendered(t)), SStoreReview(t, Review(Regenerate, score))), SReadReview(t))
  {
    hide Next;
    ExecInTurn(s, [SSubmit(t), SRendered(t)], [SStoreReview(t, Review(Regenerate, score)), SReadReview(t)]);
    ExecTwo(s, SSubmit(t), SRendered(t));
    ExecTwo(Next(Next(s, SSubmit(t)), SRendered(t)), SStoreReview(t, Review(Regenerate, score)), SReadReview(t));
  }

  lemma FirstIsJudged()
    ensures Exec(PLANNED, Judging(0, 5)) == REVIEWED
  {
    ExecJudging(PLANNED, 0, 5);
    hide Exec;
    assert Next(PLANNED, SSubmit(0)) == At([FIRST.(status := Rendering)], G.Waiting, {}, {});
  }

  lemma FirstIsReplaced()
    ensures Next(REVIEWED, SActOnReview(0, false, false)) == REPLACED
  {
    assert MaxVersion([JUDGED.(status := Rejected, isCurrent := false)], 0) == 1 by {
      assert [JUDGED.(status := Rejected, isCurrent := false)][..0] == [];
    }
  }

  lemma SecondIsJudged()
    ensures Exec(REPLACED, Judging(1, 3)) == REVIEWED_AGAIN
  {
    ExecJudging(REPLACED, 1, 3);
    hide Exec;
    var rejected := JUDGED.(status := Rejected, isCurrent := false);
    assert Next(REPLACED, SSubmit(1)) == At([rejected, SECOND.(status := Rendering)], G.Waiting, {Reviewed(0, false)}, {});
  }

  lemma SecondIsLast()
    ensures Next(REVIEWED_AGAIN, SActOnReview(1, false, false)) == ESCALATED
  {
  }

  lemma FirstIsKept()
    ensures Next(ESCALATED, SReadBest(0, map[0 := 0])) == PICKED
    ensures Next(PICKED, SAcceptBest(0, map[0 := 0])) == ACCEPTED
  {
    var picks: map<TakeId, TakeId> := map[0 := 0];
    assert 0 in picks && picks[0] == 0;
    assert Of(ESCALATED.takes[0], 0);
    assert PicksFit(ESCALATED.takes, 0, picks);
    FirstIsAccepted();
  }

  lemma FirstIsAccepted()
    ensures Next(PICKED, SAcceptBest(0, map[0 := 0])) == ACCEPTED
  {
    var picks: map<TakeId, TakeId> := map[0 := 0];
    assert 0 in picks && picks[0] == 0 && picks.Values == {0};
    assert Revived(ESCALATED.takes, picks) == {0};
  }

  lemma FirstIsReplacedAgain()
    ensures Next(ACCEPTED, SActOnReview(0, false, false)) == REPLACED_AGAIN
  {
    var rejected := [JUDGED.(status := Rejected, isCurrent := false), WORSE.(isCurrent := false)];
    assert rejected[..1][..0] == [] && rejected[..1] == [rejected[0]];
    assert MaxVersion(rejected[..1], 0) == 1;
    assert MaxVersion(rejected, 0) == 2;
    assert ACCEPTED.takes[0 := rejected[0]] == rejected;
    assert rejected + [THIRD] == REPLACED_AGAIN.takes;
  }

  const SECOND_SUCCESSOR: seq<Step> :=
    PLANNING + (Judging(0, 5) + ([SActOnReview(0, false, false)] + (Judging(1, 3)
      + ([SActOnReview(1, false, false)]
        + ([SReadBest(0, map[0 := 0]), SAcceptBest(0, map[0 := 0])] + [SActOnReview(0, false, false)])))))

  /** Two review jobs read one weak take. One replaces it; the replacement is weak too, at the last attempt,
      and people keep the first. The other job then replaces it again: a second successor, still to render
      and on show, for a task that is resolved. */
  lemma AKeptTakeIsReplacedAgain()
    ensures Initial(START) && TaskIs(Exec(START, SECOND_SUCCESSOR), 0, G.Succeeded)
    ensures var takes := Exec(START, SECOND_SUCCESSOR).takes;
      !OneSuccessorEach(takes) && |takes| == 3 && takes[2].isCurrent && takes[2].status == TakeStatus.Queued
  {
    hide Exec, Next;
    var act, last := [SActOnReview(0, false, false)], [SActOnReview(1, false, false)];
    var keep := [SReadBest(0, map[0 := 0]), SAcceptBest(0, map[0 := 0])];
    ExecInTurn(START, PLANNING, Judging(0, 5) + (act + (Judging(1, 3) + (last + (keep + act)))));
    ExecInTurn(PLANNED, Judging(0, 5), act + (Judging(1, 3) + (last + (keep + act))));
    ExecInTurn(REVIEWED, act, Judging(1, 3) + (last + (keep + act)));
    ExecInTurn(REPLACED, Judging(1, 3), last + (keep + act));
    ExecInTurn(REVIEWED_AGAIN, last, keep + act);
    ExecInTurn(ESCALATED, keep, act);
    Plans();
    FirstIsJudged();
    ExecOne(REVIEWED, act[0]);
    FirstIsReplaced();
    SecondIsJudged();
    ExecOne(REVIEWED_AGAIN, last[0]);
    SecondIsLast();
    ExecTwo(ESCALATED, keep[0], keep[1]);
    FirstIsKept();
    ExecOne(ACCEPTED, act[0]);
    FirstIsReplacedAgain();
    assert Exec(START, SECOND_SUCCESSOR) == REPLACED_AGAIN;
    assert REPLACED_AGAIN.takes[1].successorOf == REPLACED_AGAIN.takes[2].successorOf == Some(0);
  }

  // ---------------------------------------------------------------- longer runs, piece by piece

  /** Some run, of lists with one shot a place, leads there. */
  ghost predicate Reaches(s: State, end: State) {
    exists steps: seq<Step> :: AllShots(steps) && Exec(s, steps) == end
  }

  lemma Onward(s: State, mid: State, step: Step)
    requires Reaches(s, mid) && HasShots(step)
    ensures Reaches(s, Next(mid, step))
  {
    hide Next;
    var steps: seq<Step> :| AllShots(steps) && Exec(s, steps) == mid;
    ExecInTurn(s, steps, [step]);
    ExecOne(mid, step);
    assert AllShots(steps + [step]);
  }

  /** A task added, queued and started. */
  lemma Started(s: State, mid: State)
    requires Reaches(s, mid) && mid.planned && AllDone(mid)
    ensures Reaches(s, mid.(tasks := mid.tasks + [G.Running]))
  {
    var no := |mid.tasks|;
    Onward(s, mid, SAddTask);
    var added := mid.(tasks := mid.tasks + [G.Pending]);
    assert Next(mid, SAddTask) == added;
    Onward(s, added, SQueueTask(no));
    var queued := mid.(tasks := mid.tasks + [G.Queued]);
    assert added.tasks[no := G.Queued] == queued.tasks;
    Onward(s, queued, SMoveTask(no, G.Start));
    assert queued.tasks[no := G.Running] == mid.tasks + [G.Running];
  }

  function Shot(takes: TakeRows, no: TaskNo, place: Place): Take {
    NewTake(NoneCurrent(takes), ParentAt(takes, place), Some(no), place, true, FromDirector, 1, false, false, None)
  }

  /** Its one shot planned. */
  lemma OneShotPlanned(s: State, mid: State, no: TaskNo, place: Place)
    requires Reaches(s, mid) && TaskIs(mid, no, G.Running) && !HasTakes(mid.takes, no)
    ensures Reaches(s, mid.(tasks := mid.tasks[no := G.Waiting], latest := {place}, takes := NoneCurrent(mid.takes) + [Shot(mid.takes, no, place)]))
  {
    var step := SPlanShots(no, [place]);
    assert Distinct([place]);
    Onward(s, mid, step);
    assert Supersede(mid.takes, no) == mid.takes;
    assert [place][1..] == [];
    assert (set p | p in [place]) == {place};
    assert TakesFor(mid.takes, NoneCurrent(mid.takes), no, [place]) == NoneCurrent(mid.takes) + [Shot(mid.takes, no, place)];
    hide TakesFor, Reaches;
    assert Next(mid, step)
        == mid.(tasks := mid.tasks[no := G.Waiting], latest := {place}, takes := NoneCurrent(mid.takes) + [Shot(mid.takes, no, place)]);
  }

  function RenderedFile(take: Take): Take {
    take.(status := Ready, file := true)
  }

  lemma TakeRendered(s: State, mid: State, t: TakeId)
    requires Reaches(s, mid) && t < |mid.takes| && mid.takes[t].status == TakeStatus.Queued && !mid.takes[t].pendingDirection
    ensures Reaches(s, mid.(takes := mid.takes[t := RenderedFile(mid.takes[t])]))
  {
    Onward(s, mid, SSubmit(t));
    Onward(s, Next(mid, SSubmit(t)), SRendered(t));
    hide Reaches;
    assert Next(Next(mid, SSubmit(t)), SRendered(t)).takes == mid.takes[t := RenderedFile(mid.takes[t])];
  }

  function Good(take: Take): Take {
    RenderedFile(take).(review := Some(Review(Accept, 8)))
  }

  /** A take rendered, and accepted by its review. */
  lemma TakeAccepted(s: State, mid: State, t: TakeId)
    requires Reaches(s, mid) && t < |mid.takes| && mid.takes[t].status == TakeStatus.Queued && !mid.takes[t].pendingDirection
    requires mid.takes[t].review.None?
    ensures Reaches(s, mid.(takes := mid.takes[t := Good(mid.takes[t])]))
  {
    TakeRendered(s, mid, t);
    var rendered := mid.(takes := mid.takes[t := RenderedFile(mid.takes[t])]);
    Onward(s, rendered, SStoreReview(t, Review(Accept, 8)));
    hide Reaches;
    assert Next(rendered, SStoreReview(t, Review(Accept, 8))).takes == mid.takes[t := Good(mid.takes[t])];
  }

  lemma TaskSettles(s: State, mid: State, no: TaskNo)
    requires Reaches(s, mid) && TaskIs(mid, no, G.Waiting) && Settled(mid.takes, no)
    ensures Reaches(s, mid.(tasks := mid.tasks[no := G.Succeeded], noted := mid.noted + {AllSettled(no)}))
  {
    Onward(s, mid, SReadSettled(no));
    Onward(s, Note(mid, AllSettled(no)), SComplete(no));
  }

  // ---------------------------------------------------------------- a post with one take, and a Vault regenerate of it

  const ORIGINAL := Take(Some(0), 0, "2/-", 1, Ready, true, Some(Review(Accept, 8)), true, FromDirector, 1, false, false, None)
  const SHOWING := State([ORIGINAL], [G.Succeeded], true, 2, {AllSettled(0)}, {"2/-"}, {})
  const VAULT := Take(Some(1), 0, "2/-", 2, TakeStatus.Queued, false, None, false, FromVault, 1, true, false, None)
  const DIRECTED := SHOWING.(takes := [ORIGINAL, VAULT], tasks := [G.Succeeded, G.Waiting])

  lemma ReachesShowing()
    ensures Reaches(START, SHOWING)
  {
    assert Reaches(START, START) by { assert Exec(START, []) == START && AllShots([]); }
    Started(START, START);
    var running := START.(tasks := [G.Running]);
    assert START.tasks + [G.Running] == running.tasks;
    OneShotPlanned(START, running, 0, "2/-");
    var shot := ORIGINAL.(status := TakeStatus.Queued, file := false, review := None);
    assert NoneCurrent([]) == [] && Shot([], 0, "2/-") == shot;
    var planned := State([shot], [G.Waiting], true, 2, {}, {"2/-"}, {});
    assert running.tasks[0 := G.Waiting] == planned.tasks && [] + [shot] == planned.takes;
    TakeAccepted(START, planned, 0);
    var accepted := planned.(takes := [ORIGINAL]);
    assert planned.takes[0 := Good(shot)] == accepted.takes;
    assert Of(accepted.takes[0], 0) && Settled(accepted.takes, 0);
    TaskSettles(START, accepted, 0);
    assert accepted.tasks[0 := G.Succeeded] == SHOWING.tasks && {} + {AllSettled(0)} == SHOWING.noted;
  }

  lemma VaultVersion()
    ensures MaxVersion([ORIGINAL], 0) == 1 && MaxVersion([ORIGINAL, VAULT], 0) == 2
  {
    assert [ORIGINAL][..0] == [] && [ORIGINAL, VAULT][..1] == [ORIGINAL];
  }

  lemma ReachesDirected()
    ensures Reaches(START, DIRECTED)
  {
    ReachesShowing();
    VaultVersion();
    var asked := SHOWING.(takes := [ORIGINAL, VAULT.(pendingDirection := true)], tasks := [G.Succeeded, G.Pending]);
    hide Reaches, MaxVersion;
    Onward(START, SHOWING, SRegenerateAsset(0));
    assert Next(SHOWING, SRegenerateAsset(0)) == asked;
    Onward(START, asked, SQueueTask(1));
    var queued := asked.(tasks := [G.Succeeded, G.Queued]);
    assert Next(asked, SQueueTask(1)) == queued;
    Onward(START, queued, SMoveTask(1, G.Start));
    var running := asked.(tasks := [G.Succeeded, G.Running]);
    assert Next(queued, SMoveTask(1, G.Start)) == running;
    Onward(START, running, SDirectVaultTake(1));
    assert Next(running, SDirectVaultTake(1)) == DIRECTED;
  }

  // ---------------------------------------------------------------- two takes in one place

  const STEPPED_IN := VAULT.(status := Ready, file := true, review := Some(Review(Accept, 8)), isCurrent := true, onTrial := false)
  const SETTLED_TWICE: set<Read> := {AllSettled(0), Reviewed(1, true), AllSettled(1)}
  const REGENERATED := SHOWING.(takes := [ORIGINAL.(isCurrent := false), STEPPED_IN], tasks := [G.Succeeded, G.Succeeded], noted := SETTLED_TWICE)

  /** The regenerated take is accepted and shown; two jobs read it while it was on trial. */
  lemma ReachesRegenerated()
    ensures Reaches(START, REGENERATED)
  {
    ReachesDirected();
    TakeAccepted(START, DIRECTED, 1);
    hide Reaches;
    var accepted := DIRECTED.(takes := [ORIGINAL, Good(VAULT)]);
    assert DIRECTED.takes[1 := Good(VAULT)] == accepted.takes;
    Onward(START, accepted, SReadReview(1));
    var noted := accepted.(noted := {AllSettled(0), Reviewed(1, true)});
    assert Next(accepted, SReadReview(1)) == noted;
    Onward(START, noted, SActOnReview(1, true, false));
    var shown := noted.(takes := REGENERATED.takes);
    assert Next(noted, SActOnReview(1, true, false)) == shown;
    assert Of(shown.takes[1], 1) && !Of(shown.takes[0], 1) && Settled(shown.takes, 1);
    TaskSettles(START, shown, 1);
    assert shown.tasks[1 := G.Succeeded] == REGENERATED.tasks && shown.noted + {AllSettled(1)} == SETTLED_TWICE;
  }

  const OTHER := Take(Some(2), 2, "1/-", 1, Ready, true, Some(Review(Accept, 8)), true, FromDirector, 1, false, false, None)
  const DROPPED := REGENERATED.(takes := [ORIGINAL.(isCurrent := false), STEPPED_IN.(isCurrent := false), OTHER],
                                tasks := [G.Succeeded, G.Succeeded, G.Succeeded], noted := SETTLED_TWICE + {AllSettled(2)}, latest := {"1/-"})

  /** The scene is dropped from the copy. */
  lemma ReachesDropped()
    ensures Reaches(START, DROPPED)
  {
    ReachesRegenerated();
    Started(START, REGENERATED);
    hide Reaches;
    var running := REGENERATED.(tasks := [G.Succeeded, G.Succeeded, G.Running]);
    assert REGENERATED.tasks + [G.Running] == running.tasks;
    OneShotPlanned(START, running, 2, "1/-");
    var shot := OTHER.(status := TakeStatus.Queued, file := false, review := None);
    OtherIsNew();
    var rest := [ORIGINAL.(isCurrent := false), STEPPED_IN.(isCurrent := false)];
    var planned := running.(tasks := [G.Succeeded, G.Succeeded, G.Waiting], latest := {"1/-"}, takes := rest + [shot]);
    assert running.tasks[2 := G.Waiting] == planned.tasks && NoneCurrent(running.takes) == rest;
    TakeAccepted(START, planned, 2);
    var accepted := planned.(takes := rest + [OTHER]);
    assert planned.takes[2 := Good(shot)] == accepted.takes;
    assert Of(accepted.takes[2], 2) && Settled(accepted.takes, 2);
    TaskSettles(START, accepted, 2);
    assert accepted.tasks[2 := G.Succeeded] == DROPPED.tasks && accepted.takes == DROPPED.takes;
  }

  lemma OtherIsNew()
    ensures Shot(REGENERATED.takes, 2, "1/-") == OTHER.(status := TakeStatus.Queued, file := false, review := None)
  {
    NewLineage(REGENERATED.takes, 2, "1/-");
  }

  /** A shot in a place nothing shows starts a lineage. */
  lemma NewLineage(takes: TakeRows, no: TaskNo, place: Place)
    requires forall t :: 0 <= t < |takes| ==> takes[t].root < |takes| && !(takes[t].isCurrent && takes[t].place == place)
    ensures Shot(takes, no, place)
         == Take(Some(no), |takes|, place, 1, TakeStatus.Queued, false, None, true, FromDirector, 1, false, false, None)
  {
    assert ParentAt(takes, place).None?;
    NoVersions(NoneCurrent(takes), |takes|);
  }

  lemma {:induction false} NoVersions(takes: TakeRows, root: TakeId)
    requires forall t :: 0 <= t < |takes| ==> takes[t].root != root
    ensures MaxVersion(takes, root) == 0
  {
    if takes != [] {
      NoVersions(takes[..|takes| - 1], root);
    }
  }

  const BACK := Take(Some(3), 3, "2/-", 1, Ready, true, None, true, FromDirector, 1, false, false, None)
  const RETURNED := DROPPED.(
    takes := [ORIGINAL.(isCurrent := false), STEPPED_IN.(isCurrent := false), OTHER.(isCurrent := false), BACK],
    tasks := [G.Succeeded, G.Succeeded, G.Succeeded, G.Failed], latest := {"2/-"})

  /** It comes back, so its place has a new lineage, whose review fails. */
  lemma ReachesReturned()
    ensures Reaches(START, RETURNED)
  {
    ReachesDropped();
    Started(START, DROPPED);
    hide Reaches;
    var running := DROPPED.(tasks := [G.Succeeded, G.Succeeded, G.Succeeded, G.Running]);
    assert DROPPED.tasks + [G.Running] == running.tasks;
    OneShotPlanned(START, running, 3, "2/-");
    NewLineage(DROPPED.takes, 3, "2/-");
    var shot := BACK.(status := TakeStatus.Queued, file := false);
    var rest := RETURNED.takes[..3];
    var planned := running.(tasks := [G.Succeeded, G.Succeeded, G.Succeeded, G.Waiting], latest := {"2/-"}, takes := rest + [shot]);
    assert running.tasks[3 := G.Waiting] == planned.tasks && NoneCurrent(running.takes) == rest;
    TakeRendered(START, planned, 3);
    var rendered := planned.(takes := RETURNED.takes);
    assert planned.takes[3 := RenderedFile(shot)] == rendered.takes;
    Onward(START, rendered, SMoveTask(3, G.HandOff(G.Failed)));
    assert Next(rendered, SMoveTask(3, G.HandOff(G.Failed))) == RETURNED;
  }

  const REPROMOTED := RETURNED.(takes := [ORIGINAL.(isCurrent := false), STEPPED_IN, OTHER.(isCurrent := false), BACK.(isCurrent := false)])
  const PICKED_BACK := REPROMOTED.(noted := REPROMOTED.noted + {Picked(3, map[3 := 3])})

  lemma ReturnedIsRepromoted()
    ensures Next(RETURNED, SActOnReview(1, true, false)) == REPROMOTED
    ensures Next(REPROMOTED, SReadBest(3, map[3 := 3])) == PICKED_BACK
  {
    assert Promote(RETURNED, 1, false).takes == REPROMOTED.takes;
    RepromotedIsPicked();
  }

  lemma RepromotedIsPicked()
    ensures Next(REPROMOTED, SReadBest(3, map[3 := 3])) == PICKED_BACK
  {
    var picks: map<TakeId, TakeId> := map[3 := 3];
    assert 3 in picks && picks[3] == 3 && Of(REPROMOTED.takes[3], 3);
    assert PicksFit(REPROMOTED.takes, 3, picks);
  }

  lemma PickIsNotClear()
    ensures Fires(PICKED_BACK, 3, map[3 := 3]) && PicksFound(PICKED_BACK.takes, map[3 := 3]) && !Clear(PICKED_BACK.takes, map[3 := 3])
    ensures Grounded(PICKED_BACK) && OneCurrent(PICKED_BACK.takes)
  {
    var picks: map<TakeId, TakeId> := map[3 := 3];
    var takes := PICKED_BACK.takes;
    assert 3 in picks && picks[3] == 3 && picks.Keys == {3};
    assert takes[1].isCurrent && takes[1].place == takes[picks[3]].place && takes[1].root != 3;
    PickedBackIsGrounded();
    hide Grounded, OneCurrent;
  }

  lemma PickedBackIsGrounded()
    ensures Grounded(PICKED_BACK) && OneCurrent(PICKED_BACK.takes)
  {
    var takes := PICKED_BACK.takes;
    assert LineageFits(takes, 0) && LineageFits(takes, 1) && LineageFits(takes, 2) && LineageFits(takes, 3);
    assert Shows(takes, "2/-");
  }

  lemma AcceptingShowsTwo()
    ensures !OneCurrent(Next(PICKED_BACK, SAcceptBest(3, map[3 := 3])).takes)
  {
    PickIsNotClear();
    hide Grounded, OneCurrent, Clear, AcceptBest;
    AcceptKeepsOneExactly(PICKED_BACK, 3, map[3 := 3]);
  }

  /** A late job shows a take of a lineage its place has left, and when people then keep the best take of the
      new lineage the place shows two. */
  lemma ALatePromotionShowsTwoTakes()
    ensures exists steps: seq<Step> :: Initial(START) && AllShots(steps) && !OneCurrent(Exec(START, steps).takes)
  {
    hide Reaches, Next, OneCurrent;
    ReachesReturned();
    ReturnedIsRepromoted();
    Onward(START, RETURNED, SActOnReview(1, true, false));
    Onward(START, REPROMOTED, SReadBest(3, map[3 := 3]));
    Onward(START, PICKED_BACK, SAcceptBest(3, map[3 := 3]));
    AcceptingShowsTwo();
    ShowsTwo(Next(PICKED_BACK, SAcceptBest(3, map[3 := 3])));
  }

  lemma ShowsTwo(end: State)
    requires Reaches(START, end) && !OneCurrent(end.takes)
    ensures exists steps: seq<Step> :: Initial(START) && AllShots(steps) && !OneCurrent(Exec(START, steps).takes)
  {
    hide Exec, OneCurrent;
    var steps: seq<Step> :| AllShots(steps) && Exec(START, steps) == end;
  }

  // ---------------------------------------------------------------- a task nothing moves

  const FAILED_VAULT := VAULT.(status := TakeStatus.Failed)
  const RETRIED := VAULT.(version := 3)
  const READ_ONCE: set<Read> := {AllSettled(0), NoneQueued(1, 1)}

  function Retrying(takes: TakeRows, task: G.TaskStatus): State {
    DIRECTED.(takes := takes, tasks := [G.Succeeded, task], noted := READ_ONCE)
  }

  const RETRY := Retrying([ORIGINAL, FAILED_VAULT, RETRIED], G.Waiting)

  lemma RetriedVersion()
    ensures MaxVersion([ORIGINAL, FAILED_VAULT], 0) == 2
    ensures CurrentOf([ORIGINAL, FAILED_VAULT], 0) == Some(0)
  {
    VaultVersion();
    assert [ORIGINAL][..0] == [] && [ORIGINAL, FAILED_VAULT][..1] == [ORIGINAL];
  }

  lemma RetriedIsMade()
    ensures Next(Retrying([ORIGINAL, FAILED_VAULT], G.Running), SRedirectVault(1, 1))
         == Retrying([ORIGINAL, FAILED_VAULT, RETRIED.(pendingDirection := true)], G.Running)
  {
    RetriedVersion();
    hide MaxVersion, CurrentOf;
    assert Supersede([ORIGINAL, FAILED_VAULT], 1) == [ORIGINAL, FAILED_VAULT];
  }

  /** Its first take failed to render, and people retry the task. */
  lemma ReachesRetried()
    ensures Reaches(START, Retrying([ORIGINAL, FAILED_VAULT], G.Running))
  {
    ReachesDirected();
    hide Reaches;
    Onward(START, DIRECTED, SFailTake(1, TakeStatus.Failed));
    var failed := DIRECTED.(takes := [ORIGINAL, FAILED_VAULT], tasks := [G.Succeeded, G.Failed]);
    assert Next(DIRECTED, SFailTake(1, TakeStatus.Failed)) == failed;
    Onward(START, failed, SMoveTask(1, G.Requeue(G.Failed)));
    var queued := failed.(tasks := [G.Succeeded, G.Queued]);
    assert Next(failed, SMoveTask(1, G.Requeue(G.Failed))) == queued;
    Onward(START, queued, SMoveTask(1, G.Start));
    var running := failed.(tasks := [G.Succeeded, G.Running]);
    assert Next(queued, SMoveTask(1, G.Start)) == running;
    Onward(START, running, SReadVaultTakes(1));
    var read := Retrying([ORIGINAL, FAILED_VAULT], G.Running);
    assert Of(running.takes[1], 1) && HasVaultTake(running.takes, 1);
    assert Next(running, SReadVaultTakes(1)) == read;
  }

  /** The second take is to render and the task WAITING. Another run of the same retry read the takes before
      the second was made. */
  lemma ReachesRetry()
    ensures Reaches(START, RETRY)
  {
    ReachesRetried();
    hide Reaches;
    var read := Retrying([ORIGINAL, FAILED_VAULT], G.Running);
    Onward(START, read, SRedirectVault(1, 1));
    RetriedIsMade();
    var made := Retrying([ORIGINAL, FAILED_VAULT, RETRIED.(pendingDirection := true)], G.Running);
    Onward(START, made, SDirectVaultTake(2));
    assert Next(made, SDirectVaultTake(2)) == RETRY;
  }

  lemma RetryFits()
    ensures Grounded(RETRY) && ReadsFit(RETRY)
  {
    var takes := RETRY.takes;
    assert LineageFits(takes, 0) && LineageFits(takes, 1) && LineageFits(takes, 2);
    assert takes[0].isCurrent && Shows(takes, "2/-");
    assert ReadFits(takes, NoneQueued(1, 1));
  }

  lemma RetryMoves()
    ensures Moving(RETRY)
  {
    var takes := RETRY.takes;
    assert takes[1].origin == FromVault && Of(takes[1], 1) && HasVaultTake(takes, 1);
    assert Newest(takes, 1, 2) && Alive(takes[2]) && LiveTrial(takes, 1);
    hide HasVaultTake, LiveTrial;
    assert VaultShape(takes, 1);
  }

  /** Redirecting a Vault take without looking at its task can leave a WAITING task that nothing ever moves:
      the sweep leaves a take still to be directed to its task's run, and when the late run dies before it
      directs the take it made, there is none. */
  lemma ALateRedirectGetsStuck()
    ensures exists steps: seq<Step> ::
              && Initial(START) && AllShots(steps)
              && TaskIs(Exec(START, steps), 1, G.Waiting) && !SweepMoves(Exec(START, steps).takes, 1)
  {
    hide SweepMoves, Exec, Moving, Grounded, ReadsFit;
    ReachesRetry();
    RetryFits();
    RetryMoves();
    var end := Next(RETRY, SRedirectVault(1, 1));
    Onward(START, RETRY, SRedirectVault(1, 1));
    RedirectedRows(RETRY, 1, 1);
    assert !AcceptedLive(RETRY.takes, 1);
    RedirectingKeepsWaitingExactly(RETRY, 1, 1);
    assert TaskIs(end, 1, G.Waiting);
    var steps: seq<Step> :| AllShots(steps) && Exec(START, steps) == end;
  }
}
