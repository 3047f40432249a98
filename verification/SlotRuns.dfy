/** What scheduling keeps of the calendar over whole runs: posts at least four hours apart and at most
    two a day (apps/api/src/publishing/schedule.ts, transaction B; services/publishing.ts). */
module SlotRuns {
  import opened Options
  import opened PostLifecycle
  import opened Slots
  import opened Sorting

  type Zones = Lane -> Zone
  type Scores = Lane -> (int -> int)

  /** One write of PublishJob.scheduledFor, status or publishedAt. The first three are made under the client's
      slot lock; a write without it that commits while one of them is under way counts as coming after it. */
  datatype Step =
    | Commit(lane: Lane, reuse: Option<nat>, pick: Option<int>, window: (int, int), target: Option<int>, now: int)
    | PutOnDay(lane: Lane, reuse: Option<nat>, day: int, now: int)
    | Move(job: nat, day: int, now: int)
    | Release(job: nat, to: JobStatus)
    | Advance(job: nat, to: JobStatus)
    | Retry(job: nat, now: int)
    | GoOut(job: nat, now: int)

  /** topSlotCandidate: the first of the highest score. */
  function TopFrom(best: Entry, others: seq<Entry>): Entry
    decreases |others|
  {
    if others == [] then best
    else TopFrom(if others[0].slot.score > best.slot.score then others[0] else best, others[1..])
  }

  /** optimizerPick */
  function OptimizerPick(candidates: seq<Entry>): Option<int> {
    if candidates == [] then None else Some(TopFrom(candidates[0], candidates[1..]).slot.at)
  }

  /** The optimizer's pick is the ranking's first. */
  lemma OptimizerPicksTheFirst(candidates: seq<Entry>)
    requires candidates != [] && InOrder(Before, candidates)
    ensures OptimizerPick(candidates) == Some(candidates[0].slot.at)
  {
    TopIsTheFirst(candidates[0], candidates[1..]);
  }

  lemma {:induction false} TopIsTheFirst(best: Entry, others: seq<Entry>)
    requires forall e :: e in others ==> Before(best, e)
    ensures TopFrom(best, others) == best
  {
    if others != [] {
      assert others[0] in others;
      TopIsTheFirst(best, others[1..]);
    }
  }

  /** The slot a variant gets: its pick while still free, else the best candidate there is now. */
  function SlotFor(z: Zone, score: int -> int, rows: seq<Row>, lane: Lane, pick: Option<int>, window: (int, int),
      target: Option<int>, now: int): Option<int>
  {
    if pick.Some? && !SlotIsFree(z, rows, lane, pick.value, now)
    then OptimizerPick(Candidates(z, score, rows, lane, window, target, now))
    else pick
  }

  /** A new row, or the variant's cancelled one, reset onto the slot; a row that counts keeps its own. */
  function PutOn(rows: seq<Row>, lane: Lane, job: Option<nat>, at: int): seq<Row> {
    var row := Row(lane, JobStatus.Scheduled, at, None);
    if job.None? then rows + [row]
    else if job.value < |rows| && rows[job.value].lane == lane && rows[job.value].status == JobStatus.Cancelled
      then rows[job.value := row]
    else rows
  }

  function After(zones: Zones, scores: Scores, rows: seq<Row>, step: Step): seq<Row> {
    match step
    case Commit(lane, job, pick, window, target, now) =>
      var at := SlotFor(zones(lane), scores(lane), rows, lane, pick, window, target, now);
      if at.None? then rows else PutOn(rows, lane, job, at.value)
    case PutOnDay(lane, job, day, now) =>
      var slot := BestSlotOn(zones(lane), scores(lane), rows, lane, None, day, now);
      if slot.None? then rows else PutOn(rows, lane, job, slot.value.at)
    case Move(job, day, now) =>
      if job >= |rows| || rows[job].status != JobStatus.Scheduled then rows else
      var lane := rows[job].lane;
      var slot := BestSlotOn(zones(lane), scores(lane), rows, lane, Some(job), day, now);
      if slot.None? then rows else rows[job := rows[job].(scheduledFor := slot.value.at)]
    case Release(job, to) =>
      if job < |rows| && rows[job].status != JobStatus.Published && to in {JobStatus.Cancelled, JobStatus.Failed}
      then rows[job := rows[job].(status := to)] else rows
    case Advance(job, to) =>
      if job < |rows| && Holds(rows[job]) && rows[job].status != JobStatus.Published
         && to in {JobStatus.Scheduled, JobStatus.Queued, JobStatus.Publishing}
      then rows[job := rows[job].(status := to)] else rows
    case Retry(job, now) => if CanRetry(rows, job) then rows[job := Retried(rows[job], now)] else rows
    case GoOut(job, now) => if CanGoOut(rows, job) then rows[job := Out(rows[job], now)] else rows
  }

  predicate CanRetry(rows: seq<Row>, job: nat) {
    job < |rows| && rows[job].status == JobStatus.Failed
  }

  /** services/publishing.ts retry: a failed job due earlier is queued for now, whatever else is near. */
  function Retried(row: Row, now: int): Row {
    row.(status := JobStatus.Queued, scheduledFor := if row.scheduledFor < now then now else row.scheduledFor)
  }

  predicate CanGoOut(rows: seq<Row>, job: nat) {
    job < |rows| && rows[job].status == JobStatus.Publishing
  }

  /** recordPublished: the post occupies the moment it went out. */
  function Out(row: Row, now: int): Row {
    row.(status := JobStatus.Published, publishedAt := Some(now))
  }

  function Exec(zones: Zones, scores: Scores, rows: seq<Row>, steps: seq<Step>): seq<Row>
    decreases |steps|
  {
    if steps == [] then rows else Exec(zones, scores, After(zones, scores, rows, steps[0]), steps[1..])
  }

  // ---- spacing ----

  predicate Held(rows: seq<Row>, lane: Lane, i: nat) {
    i < |rows| && Reads(rows[i], lane, None)
  }

  predicate KeptApart(rows: seq<Row>, lane: Lane, i: nat, j: nat) {
    Held(rows, lane, i) && Held(rows, lane, j) ==> Apart(TakenAt(rows[i]), TakenAt(rows[j]))
  }

  predicate OnDay(z: Zone, rows: seq<Row>, lane: Lane, i: nat, day: int) {
    Held(rows, lane, i) && z.dayOf(TakenAt(rows[i])) == day
  }

  /** Of one client and platform: any two posts four hours apart, no three on one local day. */
  ghost predicate Spaced(z: Zone, rows: seq<Row>, lane: Lane) {
    && (forall i: nat, j: nat :: i < j < |rows| ==> KeptApart(rows, lane, i, j))
    && (forall i: nat, j: nat, k: nat, day: int ::
          i < j < k < |rows| && OnDay(z, rows, lane, i, day) && OnDay(z, rows, lane, j, day) ==> !OnDay(z, rows, lane, k, day))
  }

  /** By that moment: what is out is PUBLISHED, and every slot an hour of its day or already past. */
  ghost predicate InTime(zones: Zones, rows: seq<Row>, past: int) {
    forall i :: 0 <= i < |rows| ==>
      Timely(zones(rows[i].lane), rows[i], past) && (rows[i].publishedAt.Some? ==> rows[i].status == JobStatus.Published)
  }

  ghost predicate AllSpaced(zones: Zones, rows: seq<Row>) {
    forall lane: Lane :: Spaced(zones(lane), rows, lane)
  }

  ghost predicate Tidy(zones: Zones, rows: seq<Row>, past: int) {
    InTime(zones, rows, past) && AllSpaced(zones, rows)
  }

  lemma {:induction false} BoardHas(rows: seq<Row>, lane: Lane, exclude: Option<nat>, i: nat)
    requires Held(rows, lane, i) && exclude != Some(i)
    ensures TakenAt(rows[i]) in Board(rows, lane, exclude, None)
  {
    var last := |rows| - 1;
    if i < last {
      assert rows[..last][i] == rows[i];
      BoardHas(rows[..last], lane, exclude, i);
    }
  }

  lemma {:induction false} OneOnTheDay(z: Zone, rows: seq<Row>, lane: Lane, exclude: Option<nat>, i: nat, day: int)
    requires OnDay(z, rows, lane, i, day) && exclude != Some(i)
    ensures CountOn(z, Board(rows, lane, exclude, None), day) >= 1
  {
    var last := |rows| - 1;
    if i < last {
      assert rows[..last][i] == rows[i];
      OneOnTheDay(z, rows[..last], lane, exclude, i, day);
    }
    BoardGrows(z, rows, lane, exclude, day);
  }

  lemma {:induction false} TwoOnTheDay(z: Zone, rows: seq<Row>, lane: Lane, exclude: Option<nat>, i: nat, j: nat, day: int)
    requires i < j && OnDay(z, rows, lane, i, day) && OnDay(z, rows, lane, j, day)
    requires exclude != Some(i) && exclude != Some(j)
    ensures CountOn(z, Board(rows, lane, exclude, None), day) >= 2
  {
    var last := |rows| - 1;
    assert rows[..last][i] == rows[i];
    if j < last {
      assert rows[..last][j] == rows[j];
      TwoOnTheDay(z, rows[..last], lane, exclude, i, j, day);
    } else {
      OneOnTheDay(z, rows[..last], lane, exclude, i, day);
    }
    BoardGrows(z, rows, lane, exclude, day);
  }

  lemma BoardGrows(z: Zone, rows: seq<Row>, lane: Lane, exclude: Option<nat>, day: int)
    requires rows != []
    ensures var last := |rows| - 1;
      CountOn(z, Board(rows, lane, exclude, None), day) == CountOn(z, Board(rows[..last], lane, exclude, None), day)
        + (if exclude != Some(last) && OnDay(z, rows, lane, last, day) then 1 else 0)
  {
    var last := |rows| - 1;
    TakenOneMore(z, Board(rows[..last], lane, exclude, None), TakenAt(rows[last]), 0);
  }

  /** The lane's other posts leave room for a post of the job at that instant. */
  predicate HasRoom(z: Zone, rows: seq<Row>, lane: Lane, job: nat, at: int) {
    var board := Board(rows, lane, Some(job), None);
    AllApart(board, at) && CountOn(z, board, z.dayOf(at)) < MAX_PER_DAY
  }

  lemma RoomKeepsSpaced(z: Zone, rows: seq<Row>, lane: Lane, job: nat, row: Row)
    requires job < |rows| && Spaced(z, rows, lane)
    requires Reads(row, lane, None) ==> HasRoom(z, rows, lane, job, TakenAt(row))
    ensures Spaced(z, rows[job := row], lane)
  {
    var after := rows[job := row];
    var board := Board(rows, lane, Some(job), None);
    forall i: nat, j: nat | i < j < |rows| ensures KeptApart(after, lane, i, j) {
      assert KeptApart(rows, lane, i, j);
      if i == job && Held(after, lane, i) && Held(after, lane, j) {
        BoardHas(rows, lane, Some(job), j);
      } else if j == job && Held(after, lane, i) && Held(after, lane, j) {
        BoardHas(rows, lane, Some(job), i);
      }
    }
    forall i: nat, j: nat, k: nat, day: int
      | i < j < k < |rows| && OnDay(z, after, lane, i, day) && OnDay(z, after, lane, j, day)
      ensures !OnDay(z, after, lane, k, day)
    {
      if OnDay(z, after, lane, k, day) {
        var one, other := if i == job then j else i, if k == job then j else k;
        if job in {i, j, k} {
          TwoOnTheDay(z, rows, lane, Some(job), one, other, day);
        } else {
          assert OnDay(z, rows, lane, i, day) && OnDay(z, rows, lane, j, day) && OnDay(z, rows, lane, k, day);
        }
        assert false;
      }
    }
  }

  lemma {:induction false} OnTheBoard(rows: seq<Row>, lane: Lane, exclude: Option<nat>, b: nat) returns (i: nat)
    requires b < |Board(rows, lane, exclude, None)|
    ensures Held(rows, lane, i) && exclude != Some(i) && TakenAt(rows[i]) == Board(rows, lane, exclude, None)[b]
  {
    var last := |rows| - 1;
    if b < |Board(rows[..last], lane, exclude, None)| {
      i := OnTheBoard(rows[..last], lane, exclude, b);
    } else {
      i := last;
    }
  }

  lemma {:induction false} OneOfTheDay(z: Zone, rows: seq<Row>, lane: Lane, exclude: Option<nat>, day: int) returns (i: nat)
    requires CountOn(z, Board(rows, lane, exclude, None), day) >= 1
    ensures exclude != Some(i) && OnDay(z, rows, lane, i, day)
  {
    var last := |rows| - 1;
    BoardGrows(z, rows, lane, exclude, day);
    if exclude != Some(last) && OnDay(z, rows, lane, last, day) {
      i := last;
    } else {
      i := OneOfTheDay(z, rows[..last], lane, exclude, day);
    }
  }

  lemma {:induction false} TwoOfTheDay(z: Zone, rows: seq<Row>, lane: Lane, exclude: Option<nat>, day: int) returns (i: nat, j: nat)
    requires CountOn(z, Board(rows, lane, exclude, None), day) >= 2
    ensures i < j && exclude !in {Some(i), Some(j)} && OnDay(z, rows, lane, i, day) && OnDay(z, rows, lane, j, day)
  {
    var last := |rows| - 1;
    BoardGrows(z, rows, lane, exclude, day);
    if exclude != Some(last) && OnDay(z, rows, lane, last, day) {
      i := OneOfTheDay(z, rows[..last], lane, exclude, day);
      j := last;
    } else {
      i, j := TwoOfTheDay(z, rows[..last], lane, exclude, day);
    }
  }

  lemma SpacedLeavesRoom(z: Zone, rows: seq<Row>, lane: Lane, job: nat, row: Row)
    requires job < |rows| && Reads(row, lane, None) && Spaced(z, rows[job := row], lane)
    ensures HasRoom(z, rows, lane, job, TakenAt(row))
  {
    var after, board, day := rows[job := row], Board(rows, lane, Some(job), None), z.dayOf(TakenAt(row));
    forall b | 0 <= b < |board| ensures Apart(board[b], TakenAt(row)) {
      var i := OnTheBoard(rows, lane, Some(job), b);
      assert Held(after, lane, i) && Held(after, lane, job);
      assert KeptApart(after, lane, if i < job then i else job, if i < job then job else i);
    }
    if CountOn(z, board, day) >= 2 {
      var i, j := TwoOfTheDay(z, rows, lane, Some(job), day);
      assert OnDay(z, after, lane, i, day) && OnDay(z, after, lane, j, day) && OnDay(z, after, lane, job, day);
      assert false;
    }
  }

  /** A row that comes to hold an instant keeps its lane spaced exactly when the others leave room for it. */
  lemma HoldingKeepsSpacedExactly(z: Zone, rows: seq<Row>, lane: Lane, job: nat, row: Row)
    requires job < |rows| && Spaced(z, rows, lane) && Reads(row, lane, None)
    ensures Spaced(z, rows[job := row], lane) <==> HasRoom(z, rows, lane, job, TakenAt(row))
  {
    if HasRoom(z, rows, lane, job, TakenAt(row)) {
      RoomKeepsSpaced(z, rows, lane, job, row);
    }
    if Spaced(z, rows[job := row], lane) {
      SpacedLeavesRoom(z, rows, lane, job, row);
    }
  }

  /** A change that moves no slot keeps every lane spaced. */
  lemma SameSlotKeepsSpaced(z: Zone, rows: seq<Row>, lane: Lane, job: nat, row: Row)
    requires job < |rows| && Spaced(z, rows, lane)
    requires Reads(row, lane, None) ==> Reads(rows[job], lane, None) && TakenAt(row) == TakenAt(rows[job])
    ensures Spaced(z, rows[job := row], lane)
  {
    var after := rows[job := row];
    forall i: nat, j: nat | i < j < |rows| ensures KeptApart(after, lane, i, j) {
      assert KeptApart(rows, lane, i, j);
    }
    forall i: nat, day: int | OnDay(z, after, lane, i, day) ensures OnDay(z, rows, lane, i, day) {}
  }

  /** A row that holds nothing is not on the board, whether left out or not. */
  lemma {:induction false} IdleRowsAreOff(rows: seq<Row>, lane: Lane, job: nat)
    requires job >= |rows| || !Holds(rows[job])
    ensures Board(rows, lane, Some(job), None) == Board(rows, lane, None, None)
  {
    if rows != [] {
      var last := |rows| - 1;
      assert job < last ==> rows[..last][job] == rows[job];
      IdleRowsAreOff(rows[..last], lane, job);
    }
  }

  lemma IdleRowKeepsTidy(zones: Zones, rows: seq<Row>, lane: Lane, at: int, past: int)
    requires Tidy(zones, rows, past) && InReach(zones(lane), at)
    ensures Tidy(zones, rows + [Row(lane, JobStatus.Cancelled, at, None)], past)
  {
    var more := rows + [Row(lane, JobStatus.Cancelled, at, None)];
    forall of: Lane ensures Spaced(zones(of), more, of) {
      assert Spaced(zones(of), rows, of);
      forall i: nat | i < |more| ensures Held(more, of, i) <==> Held(rows, of, i) {}
      forall i: nat, j: nat | i < j < |more| ensures KeptApart(more, of, i, j) {
        if j < |rows| {
          assert KeptApart(rows, of, i, j);
        }
      }
      forall i: nat, day: int ensures OnDay(zones(of), more, of, i, day) <==> OnDay(zones(of), rows, of, i, day) {}
    }
  }

  lemma ReplaceKeepsTidy(zones: Zones, rows: seq<Row>, job: nat, row: Row, past: int)
    requires Tidy(zones, rows, past) && job < |rows| && row.lane == rows[job].lane
    requires row.publishedAt.None? && InReach(zones(row.lane), row.scheduledFor)
    requires HasRoom(zones(row.lane), rows, row.lane, job, row.scheduledFor)
    ensures Tidy(zones, rows[job := row], past)
  {
    forall lane: Lane ensures Spaced(zones(lane), rows[job := row], lane) {
      assert Spaced(zones(lane), rows, lane);
      if lane == row.lane {
        RoomKeepsSpaced(zones(lane), rows, lane, job, row);
      } else {
        SameSlotKeepsSpaced(zones(lane), rows, lane, job, row);
      }
    }
  }

  lemma PutOnKeepsTidy(zones: Zones, rows: seq<Row>, lane: Lane, job: Option<nat>, at: int, now: int, past: int)
    requires Tidy(zones, rows, past) && InReach(zones(lane), at)
    requires IsSlotOpen(zones(lane), Board(rows, lane, None, None), now, at)
    ensures Tidy(zones, PutOn(rows, lane, job, at), past)
  {
    var row := Row(lane, JobStatus.Scheduled, at, None);
    if job.None? {
      var idle := Row(lane, JobStatus.Cancelled, at, None);
      IdleRowKeepsTidy(zones, rows, lane, at, past);
      assert (rows + [idle])[..|rows|] == rows;
      IdleRowsAreOff(rows + [idle], lane, |rows|);
      ReplaceKeepsTidy(zones, rows + [idle], |rows|, row, past);
      assert (rows + [idle])[|rows| := row] == rows + [row];
    } else if PutOn(rows, lane, job, at) != rows {
      IdleRowsAreOff(rows, lane, job.value);
      ReplaceKeepsTidy(zones, rows, job.value, row, past);
    }
  }

  /** A pick is some hour of the client's calendar: one a board offered, however long ago. */
  ghost predicate PickIsAnHour(zones: Zones, step: Step) {
    step.Commit? && step.pick.Some? ==>
      exists day: int, hour: nat :: zones(step.lane).hourOf(day, hour) == step.pick
  }

  lemma {:induction false} TopIsAmong(best: Entry, others: seq<Entry>)
    ensures TopFrom(best, others) == best || TopFrom(best, others) in others
    decreases |others|
  {
    if others != [] {
      TopIsAmong(if others[0].slot.score > best.slot.score then others[0] else best, others[1..]);
      assert others == [others[0]] + others[1..];
    }
  }

  lemma TimelyLater(zones: Zones, rows: seq<Row>, lane: Lane, past: int, now: int)
    requires InTime(zones, rows, past) && past <= now
    ensures AllTimely(zones(lane), rows, lane, now)
  {}

  /** Whichever way a variant gets its slot, it is open on the whole table when written. */
  lemma SlotForIsOpen(zones: Zones, scores: Scores, rows: seq<Row>, step: Step, past: int)
    requires step.Commit? && Fair(zones(step.lane)) && InTime(zones, rows, past) && past <= step.now && PickIsAnHour(zones, step)
    ensures var at := SlotFor(zones(step.lane), scores(step.lane), rows, step.lane, step.pick, step.window, step.target, step.now);
      at.Some? ==>
        && InReach(zones(step.lane), at.value)
        && IsSlotOpen(zones(step.lane), Board(rows, step.lane, None, None), step.now, at.value)
  {
    var Commit(lane, job, pick, window, target, now) := step;
    var z := zones(lane);
    TimelyLater(zones, rows, lane, past, now);
    if pick.Some? {
      var day: int, hour: nat :| z.hourOf(day, hour) == pick;
      assert FairHour(z, day, hour);
      if SlotIsFree(z, rows, lane, pick.value, now) {
        WindowAnswersLikeTheTable(z, rows, lane, None, pick.value, pick.value, now, pick.value);
      } else {
        var found := Candidates(z, scores(lane), rows, lane, window, target, now);
        if found != [] {
          TopIsAmong(found[0], found[1..]);
          CandidatesAreOpen(z, scores(lane), rows, lane, window, target, now, TopFrom(found[0], found[1..]));
        }
      }
    }
  }

  lemma StatusStepKeepsTidy(zones: Zones, rows: seq<Row>, job: nat, to: JobStatus, past: int)
    requires Tidy(zones, rows, past) && job < |rows| && rows[job].status != JobStatus.Published
    requires Holds(rows[job].(status := to)) ==> Holds(rows[job])
    ensures Tidy(zones, rows[job := rows[job].(status := to)], past)
  {
    forall lane: Lane ensures Spaced(zones(lane), rows[job := rows[job].(status := to)], lane) {
      assert Spaced(zones(lane), rows, lane);
      SameSlotKeepsSpaced(zones(lane), rows, lane, job, rows[job].(status := to));
    }
  }

  // ---- a retry, and going out ----

  /** A post that goes out, or is retried, where the lane's other posts leave room. */
  predicate Roomy(zones: Zones, rows: seq<Row>, step: Step) {
    match step
    case Retry(job, now) =>
      CanRetry(rows, job) ==> HasRoom(zones(rows[job].lane), rows, rows[job].lane, job, TakenAt(Retried(rows[job], now)))
    case GoOut(job, now) => CanGoOut(rows, job) ==> HasRoom(zones(rows[job].lane), rows, rows[job].lane, job, now)
    case _ => true
  }

  /** The latest moment a post was moved to. */
  function Past(step: Step, past: int): int {
    if (step.Retry? || step.GoOut?) && step.now > past then step.now else past
  }

  /** Slots are assigned at a moment after those posts were already moved to. */
  predicate Ordered(step: Step, past: int) {
    step.Commit? || step.PutOnDay? || step.Move? ==> past <= step.now
  }

  /** Of the lane's instants, only this row's changes. */
  lemma HoldingKeepsAllSpacedExactly(zones: Zones, rows: seq<Row>, job: nat, row: Row)
    requires AllSpaced(zones, rows) && job < |rows| && row.lane == rows[job].lane && Holds(row)
    ensures AllSpaced(zones, rows[job := row]) <==> HasRoom(zones(row.lane), rows, row.lane, job, TakenAt(row))
  {
    HoldingKeepsSpacedExactly(zones(row.lane), rows, row.lane, job, row);
    forall lane: Lane | lane != row.lane ensures Spaced(zones(lane), rows[job := row], lane) {
      SameSlotKeepsSpaced(zones(lane), rows, lane, job, row);
    }
  }

  /** A retry, or a post going out, keeps every lane spaced exactly when the other posts leave room for it. */
  lemma MovingToNowKeepsSpacedExactly(zones: Zones, scores: Scores, rows: seq<Row>, step: Step, past: int)
    requires Tidy(zones, rows, past) && (step.Retry? || step.GoOut?)
    ensures AllSpaced(zones, After(zones, scores, rows, step)) <==> Roomy(zones, rows, step)
    ensures InTime(zones, After(zones, scores, rows, step), Past(step, past))
  {
    hide AllSpaced, HasRoom;
    match step
    case Retry(job, now) =>
      if CanRetry(rows, job) {
        assert rows[job].publishedAt.None?;
        HoldingKeepsAllSpacedExactly(zones, rows, job, Retried(rows[job], now));
      }
    case GoOut(job, now) =>
      if CanGoOut(rows, job) {
        HoldingKeepsAllSpacedExactly(zones, rows, job, Out(rows[job], now));
      }
  }

  lemma AssignKeepsTidy(zones: Zones, scores: Scores, rows: seq<Row>, step: Step, past: int)
    requires (forall lane: Lane :: Fair(zones(lane))) && Tidy(zones, rows, past) && PickIsAnHour(zones, step) && Ordered(step, past)
    requires step.Commit? || step.PutOnDay? || step.Move?
    ensures Tidy(zones, After(zones, scores, rows, step), past)
  {
    match step
    case Commit(lane, job, pick, window, target, now) =>
      SlotForIsOpen(zones, scores, rows, step, past);
      var at := SlotFor(zones(lane), scores(lane), rows, lane, pick, window, target, now);
      if at.Some? {
        PutOnKeepsTidy(zones, rows, lane, job, at.value, now, past);
      }
    case PutOnDay(lane, job, day, now) =>
      TimelyLater(zones, rows, lane, past, now);
      var slot := BestSlotOn(zones(lane), scores(lane), rows, lane, None, day, now);
      if slot.Some? {
        BestSlotOnIsOpen(zones(lane), scores(lane), rows, lane, None, day, now);
        PutOnKeepsTidy(zones, rows, lane, job, slot.value.at, now, past);
      }
    case Move(job, day, now) =>
      if job < |rows| && rows[job].status == JobStatus.Scheduled {
        var lane := rows[job].lane;
        TimelyLater(zones, rows, lane, past, now);
        var slot := BestSlotOn(zones(lane), scores(lane), rows, lane, Some(job), day, now);
        if slot.Some? {
          BestSlotOnIsOpen(zones(lane), scores(lane), rows, lane, Some(job), day, now);
          ReplaceKeepsTidy(zones, rows, job, rows[job].(scheduledFor := slot.value.at), past);
        }
      }
  }

  /** A step keeps the calendar spaced exactly when what it moves to the present finds room there. */
  lemma StepKeepsSpacedExactly(zones: Zones, scores: Scores, rows: seq<Row>, step: Step, past: int)
    requires (forall lane: Lane :: Fair(zones(lane))) && Tidy(zones, rows, past) && PickIsAnHour(zones, step) && Ordered(step, past)
    ensures InTime(zones, After(zones, scores, rows, step), Past(step, past))
    ensures AllSpaced(zones, After(zones, scores, rows, step)) <==> Roomy(zones, rows, step)
  {
    match step
    case Release(job, to) =>
      if job < |rows| && rows[job].status != JobStatus.Published && to in {JobStatus.Cancelled, JobStatus.Failed} {
        StatusStepKeepsTidy(zones, rows, job, to, past);
      }
    case Advance(job, to) =>
      if job < |rows| && Holds(rows[job]) && rows[job].status != JobStatus.Published {
        StatusStepKeepsTidy(zones, rows, job, to, past);
      }
    case Retry(_, _) => MovingToNowKeepsSpacedExactly(zones, scores, rows, step, past);
    case GoOut(_, _) => MovingToNowKeepsSpacedExactly(zones, scores, rows, step, past);
    case _ => AssignKeepsTidy(zones, scores, rows, step, past);
  }

  /** What is taken of a run: picks were hours of the calendar, and the clock does not run back. */
  ghost predicate Possible(zones: Zones, steps: seq<Step>, past: int)
    decreases |steps|
  {
    steps != [] ==>
      PickIsAnHour(zones, steps[0]) && Ordered(steps[0], past) && Possible(zones, steps[1..], Past(steps[0], past))
  }

  /** Every retry and every publication finds room at its moment. */
  predicate AllRoomy(zones: Zones, scores: Scores, rows: seq<Row>, steps: seq<Step>)
    decreases |steps|
  {
    steps != [] ==> Roomy(zones, rows, steps[0]) && AllRoomy(zones, scores, After(zones, scores, rows, steps[0]), steps[1..])
  }

  ghost predicate AlwaysSpaced(zones: Zones, scores: Scores, rows: seq<Row>, steps: seq<Step>)
    decreases |steps|
  {
    && AllSpaced(zones, rows)
    && (steps != [] ==> AlwaysSpaced(zones, scores, After(zones, scores, rows, steps[0]), steps[1..]))
  }

  /** Whatever was picked on however old a board: every client's posts on a platform stay at least four
      hours apart and at most two on a local day, through the whole run, exactly when each retry and each
      publication finds room at its moment. */
  lemma {:induction false} SchedulingKeepsPostsApart(zones: Zones, scores: Scores, rows: seq<Row>, steps: seq<Step>, past: int)
    requires (forall lane: Lane :: Fair(zones(lane))) && Tidy(zones, rows, past) && Possible(zones, steps, past)
    ensures AlwaysSpaced(zones, scores, rows, steps) <==> AllRoomy(zones, scores, rows, steps)
    decreases |steps|
  {
    hide AllSpaced, InTime, After, Roomy, PickIsAnHour;
    if steps != [] {
      var after := After(zones, scores, rows, steps[0]);
      StepKeepsSpacedExactly(zones, scores, rows, steps[0], past);
      if AllSpaced(zones, after) {
        SchedulingKeepsPostsApart(zones, scores, after, steps[1..], Past(steps[0], past));
      } else {
        assert !AlwaysSpaced(zones, scores, after, steps[1..]);
      }
    }
  }

  // ---- where one does not ----

  /** Coordinated Universal Time, where no hour is ever skipped. */
  function Utc(): Zone {
    Zone(at => at / DAY, day => day * DAY, (day: int, hour: nat) => if hour < HOURS_PER_DAY then Some(day * DAY + hour * HOUR) else None)
  }

  lemma UtcIsFair()
    ensures Fair(Utc())
  {
    forall day: int, hour: nat ensures FairHour(Utc(), day, hour) {
      if hour < HOURS_PER_DAY {
        assert (day * DAY + hour * HOUR) / DAY == day;
      }
    }
  }

  /** A manual retry takes no slot: with a post three hours later, it breaks the spacing. */
  lemma ARetryCanCrowdASlot(scores: Scores)
    ensures exists rows: seq<Row>, retry: Step ::
      && Fair(Utc()) && Tidy(_ => Utc(), rows, 0) && |rows| == 2 && retry.Retry? && CanRetry(rows, retry.job)
      && !AllSpaced(_ => Utc(), After(_ => Utc(), scores, rows, retry))
  {
    var lane := Lane("client", "INSTAGRAM");
    var rows := [Row(lane, JobStatus.Failed, 0, None), Row(lane, JobStatus.Scheduled, 5 * HOUR, None)];
    var zones: Zones := _ => Utc();
    UtcIsFair();
    assert Tidy(zones, rows, 0) by {
      forall of: Lane ensures Spaced(Utc(), rows, of) {
        assert !Held(rows, of, 0);
      }
    }
    var after := After(zones, scores, rows, Retry(0, 2 * HOUR));
    assert !KeptApart(after, lane, 0, 1);
    assert !Spaced(zones(lane), after, lane);
    assert CanRetry(rows, Retry(0, 2 * HOUR).job);
  }
}
