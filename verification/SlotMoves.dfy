/** Which write of the job table gives a job its slot or moves it, and to what: said of every step of module
    SlotRuns at once, on the rows alone. */
module SlotMoves {
  import opened Options
  import opened PostLifecycle
  import opened Sorting
  import opened Slots
  import opened SlotChoice
  import opened SlotRuns

  // ---------------------------------------------------------------- the slot a commit gives

  /** Nothing eligible is better, and there is nothing at all only when nothing is eligible. */
  ghost predicate IsBestNow(
      z: Zone, score: int -> int, rows: seq<Row>, lane: Lane, window: (int, int), target: Option<int>, now: int, at: Option<int>) {
    match at
    case None => forall slot :: !Eligible(z, score, rows, lane, window, target, now, slot)
    case Some(t) =>
      exists best: Slot :: best.at == t && Eligible(z, score, rows, lane, window, target, now, best)
        && forall slot :: Eligible(z, score, rows, lane, window, target, now, slot) ==> slot == best || Better(z, target, best, slot)
  }

  /** A variant gets the slot picked for it while the table leaves it free; once it does not, the best there is
      now; and without a pick none. */
  lemma SlotForExactly(
      z: Zone, score: int -> int, rows: seq<Row>, lane: Lane, pick: Option<int>, window: (int, int), target: Option<int>, now: int)
    requires Fair(z) && AllTimely(z, rows, lane, now) && (pick.Some? ==> InReach(z, pick.value))
    ensures var at := SlotFor(z, score, rows, lane, pick, window, target, now);
      && (pick.None? || IsFree(z, rows, lane, None, now, pick.value) ==> at == pick)
      && (pick.Some? && !IsFree(z, rows, lane, None, now, pick.value) ==> IsBestNow(z, score, rows, lane, window, target, now, at))
  {
    hide IsFree, Candidates, Eligible, Better, SlotIsFree, AllTimely;
    if pick.Some? {
      SlotIsFreeExactly(z, rows, lane, pick.value, now);
      if !IsFree(z, rows, lane, None, now, pick.value) {
        var best := Candidates(z, score, rows, lane, window, target, now);
        CandidatesAreTheBest(z, score, rows, lane, window, target, now);
        if best != [] {
          CandidatesInOrder(z, score, rows, lane, window, target, now);
          OptimizerPicksTheFirst(best);
          FirstIsBest(z, score, rows, lane, window, target, now, best);
        }
      }
    }
  }

  lemma FirstIsBest(
      z: Zone, score: int -> int, rows: seq<Row>, lane: Lane, window: (int, int), target: Option<int>, now: int, best: seq<Entry>)
    requires best != [] && forall i, j :: 0 <= i < j < |best| ==> Better(z, target, best[i].slot, best[j].slot)
    requires forall k :: 0 <= k < |best| ==> Eligible(z, score, rows, lane, window, target, now, best[k].slot)
    requires forall slot :: Eligible(z, score, rows, lane, window, target, now, slot) && !Has(best, slot) ==>
               forall k :: 0 <= k < |best| ==> Better(z, target, best[k].slot, slot)
    ensures IsBestNow(z, score, rows, lane, window, target, now, Some(best[0].slot.at))
  {
    hide Eligible, Better;
    forall slot | Eligible(z, score, rows, lane, window, target, now, slot) ensures slot == best[0].slot || Better(z, target, best[0].slot, slot) {
      if Has(best, slot) {
        var k :| 0 <= k < |best| && best[k].slot == slot;
      }
    }
  }

  lemma CandidatesInOrder(
      z: Zone, score: int -> int, rows: seq<Row>, lane: Lane, window: (int, int), target: Option<int>, now: int)
    requires Fair(z)
    ensures InOrder(Before, Candidates(z, score, rows, lane, window, target, now))
  {
    var days := RemainingWindowDays(z, window, now);
    if days != [] {
      WindowDays(z, window, now, 0);
      RankSlotsGivesTheBest(z, score, BoardOfDays(z, rows, lane, None, days[0], days[|days| - 1]), now, days, target, CANDIDATES);
    }
  }

  // ---------------------------------------------------------------- what a write does to a row

  /** The slot the step found, if it looks for one. */
  function Found(zones: Zones, scores: Scores, rows: seq<Row>, step: Step): Option<int> {
    match step
    case Commit(lane, _, pick, window, target, now) => SlotFor(zones(lane), scores(lane), rows, lane, pick, window, target, now)
    case PutOnDay(lane, _, day, now) =>
      var slot := BestSlotOn(zones(lane), scores(lane), rows, lane, None, day, now);
      if slot.None? then None else Some(slot.value.at)
    case Move(job, day, now) =>
      if job >= |rows| then None
      else
        var slot := BestSlotOn(zones(rows[job].lane), scores(rows[job].lane), rows, rows[job].lane, Some(job), day, now);
        if slot.None? then None else Some(slot.value.at)
    case _ => None
  }

  predicate Schedules(step: Step) {
    step.Commit? || step.PutOnDay?
  }

  predicate Was(rows: seq<Row>, i: nat, status: JobStatus) {
    i < |rows| && rows[i].status == status
  }

  /** The called off row takes the slot found. */
  predicate Reuses(zones: Zones, scores: Scores, rows: seq<Row>, step: Step, i: nat) {
    && Schedules(step) && step.reuse == Some(i) && Was(rows, i, JobStatus.Cancelled) && rows[i].lane == step.lane
    && Found(zones, scores, rows, step).Some?
  }

  predicate Moves(zones: Zones, scores: Scores, rows: seq<Row>, step: Step, i: nat) {
    step.Move? && step.job == i && Was(rows, i, JobStatus.Scheduled) && Found(zones, scores, rows, step).Some?
  }

  /** A row is added exactly for a variant that has none yet, when a slot is found: SCHEDULED on it. */
  lemma RowsAreAddedExactly(zones: Zones, scores: Scores, rows: seq<Row>, step: Step)
    ensures var after, found := After(zones, scores, rows, step), Found(zones, scores, rows, step);
      if Schedules(step) && step.reuse == None && found.Some?
      then |after| == |rows| + 1 && after[|rows|] == Row(step.lane, JobStatus.Scheduled, found.value, None)
      else |after| == |rows|
  {
    hide SlotFor, BestSlotOn;
  }

  /** A row's time is the slot it was given or moved to, or now for a failed job retried late; only a job going
      out gets a time it went out at. */
  lemma TimesChangeExactly(zones: Zones, scores: Scores, rows: seq<Row>, step: Step, i: nat)
    requires i < |rows|
    ensures i < |After(zones, scores, rows, step)|
    ensures var before, after := rows[i], After(zones, scores, rows, step)[i];
      && after.lane == before.lane
      && after.scheduledFor == (if Reuses(zones, scores, rows, step, i) || Moves(zones, scores, rows, step, i)
                                then Found(zones, scores, rows, step).value
                                else if step.Retry? && step.job == i && before.status == JobStatus.Failed && before.scheduledFor < step.now
                                then step.now else before.scheduledFor)
      && after.publishedAt == (if step.GoOut? && step.job == i && before.status == JobStatus.Publishing then Some(step.now)
                               else if Reuses(zones, scores, rows, step, i) then None else before.publishedAt)
  {
    hide SlotFor, BestSlotOn;
  }

  /** A job comes into a status by a slot, its retry, its progress, its end, or being called off; one that is
      out stays so. */
  predicate Comes(zones: Zones, scores: Scores, rows: seq<Row>, step: Step, i: nat, to: JobStatus)
    requires i < |rows|
  {
    var advances := step.Advance? && step.job == i && step.to == to && rows[i].status in {JobStatus.Scheduled, Queued, JobStatus.Publishing};
    match to
    case Scheduled => Reuses(zones, scores, rows, step, i) || advances
    case Queued => (step.Retry? && step.job == i && rows[i].status == JobStatus.Failed) || advances
    case Publishing => advances
    case Published => step.GoOut? && step.job == i && rows[i].status == JobStatus.Publishing
    case Failed => step.Release? && step.job == i && step.to == to && rows[i].status != Published
    case Cancelled => step.Release? && step.job == i && step.to == to && rows[i].status != Published
  }

  lemma StatusesChangeExactly(zones: Zones, scores: Scores, rows: seq<Row>, step: Step, i: nat, to: JobStatus)
    requires i < |rows| && rows[i].status != to
    ensures i < |After(zones, scores, rows, step)|
    ensures After(zones, scores, rows, step)[i].status == to <==> Comes(zones, scores, rows, step, i, to)
  {
    hide SlotFor, BestSlotOn;
  }
}
