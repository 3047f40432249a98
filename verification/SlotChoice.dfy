/** Which slots a client is offered, said on the job table itself: its rows, the clock and the scores. */
module SlotChoice {
  import opened Options
  import opened PostLifecycle
  import opened Sorting
  import opened Slots

  const MINUTE_MS := 60_000
  const HOUR_MS := 3_600_000

  // ---------------------------------------------------------------- an open slot

  function Gap(one: int, other: int): nat {
    if one < other then other - one else one - other
  }

  /** The row is another job of the lane that goes, or went, out: neither failed nor called off. */
  predicate Counts(rows: seq<Row>, i: nat, lane: Lane, exclude: Option<nat>)
    requires i < |rows|
  {
    && exclude != Some(i) && rows[i].lane == lane
    && rows[i].status != JobStatus.Failed && rows[i].status != JobStatus.Cancelled
  }

  /** When it does: at the time it is planned for, unless it is out already. */
  function GoesAt(row: Row): int {
    match row.publishedAt
    case Some(out) => out
    case None => row.scheduledFor
  }

  predicate IsOutOn(z: Zone, rows: seq<Row>, i: nat, lane: Lane, exclude: Option<nat>, day: int)
    requires i < |rows|
  {
    Counts(rows, i, lane, exclude) && z.dayOf(GoesAt(rows[i])) == day
  }

  ghost function OutOnDay(z: Zone, rows: seq<Row>, lane: Lane, exclude: Option<nat>, day: int): set<nat> {
    set i: nat | i < |rows| && IsOutOn(z, rows, i, lane, exclude, day)
  }

  /** At least half an hour from now, four hours from every other job that counts, on a local day with
      at most one of them. */
  ghost predicate IsFree(z: Zone, rows: seq<Row>, lane: Lane, exclude: Option<nat>, now: int, at: int) {
    && at - now >= 30 * MINUTE_MS
    && (forall i :: 0 <= i < |rows| && Counts(rows, i, lane, exclude) ==> Gap(GoesAt(rows[i]), at) >= 4 * HOUR_MS)
    && |OutOnDay(z, rows, lane, exclude, z.dayOf(at))| <= 1
  }

  lemma EarlierRowsStay(z: Zone, rows: seq<Row>, lane: Lane, exclude: Option<nat>, day: int, i: nat)
    requires rows != [] && i < |rows| - 1
    ensures IsOutOn(z, rows, i, lane, exclude, day) <==> IsOutOn(z, rows[..|rows| - 1], i, lane, exclude, day)
  {
  }

  /** The last row adds itself to its day, or nothing. */
  lemma OneRowMore(z: Zone, rows: seq<Row>, lane: Lane, exclude: Option<nat>, day: int)
    requires rows != []
    ensures var last := |rows| - 1;
            |OutOnDay(z, rows, lane, exclude, day)|
            == |OutOnDay(z, rows[..last], lane, exclude, day)| + if IsOutOn(z, rows, last, lane, exclude, day) then 1 else 0
  {
    hide IsOutOn;
    var last := |rows| - 1;
    forall i: nat | i < last
      ensures IsOutOn(z, rows, i, lane, exclude, day) <==> IsOutOn(z, rows[..last], i, lane, exclude, day)
    {
      EarlierRowsStay(z, rows, lane, exclude, day, i);
    }
    var out, earlier := OutOnDay(z, rows, lane, exclude, day), OutOnDay(z, rows[..last], lane, exclude, day);
    if IsOutOn(z, rows, last, lane, exclude, day) {
      assert out == earlier + {last};
    } else {
      assert out == earlier;
    }
  }

  lemma {:induction false} BoardCounts(z: Zone, rows: seq<Row>, lane: Lane, exclude: Option<nat>, day: int)
    ensures CountOn(z, Board(rows, lane, exclude, None), day) == |OutOnDay(z, rows, lane, exclude, day)|
  {
    hide CountOn;
    if rows == [] {
      NoRows(z, lane, exclude, day);
    } else {
      hide OutOnDay;
      var last := |rows| - 1;
      BoardCounts(z, rows[..last], lane, exclude, day);
      OneRowMore(z, rows, lane, exclude, day);
      TakenOneMore(z, Board(rows[..last], lane, exclude, None), TakenAt(rows[last]), 0);
    }
  }

  lemma NoRows(z: Zone, lane: Lane, exclude: Option<nat>, day: int)
    ensures CountOn(z, [], day) == 0 && OutOnDay(z, [], lane, exclude, day) == {}
  {
  }

  lemma {:induction false} BoardIsApart(z: Zone, rows: seq<Row>, lane: Lane, exclude: Option<nat>, at: int)
    ensures AllApart(Board(rows, lane, exclude, None), at)
       <==> forall i :: 0 <= i < |rows| && Counts(rows, i, lane, exclude) ==> Gap(GoesAt(rows[i]), at) >= 4 * HOUR_MS
  {
    if rows != [] {
      var last := |rows| - 1;
      var earlier := rows[..last];
      BoardIsApart(z, earlier, lane, exclude, at);
      if Counts(rows, last, lane, exclude) {
        TakenOneMore(z, Board(earlier, lane, exclude, None), TakenAt(rows[last]), at);
      }
      assert forall i: nat :: i < last ==> (Counts(rows, i, lane, exclude) <==> Counts(earlier, i, lane, exclude));
    }
  }

  /** A slot is open on the whole board exactly when the table leaves it free. */
  lemma OpenIsFree(z: Zone, rows: seq<Row>, lane: Lane, exclude: Option<nat>, now: int, at: int)
    ensures IsSlotOpen(z, Board(rows, lane, exclude, None), now, at) <==> IsFree(z, rows, lane, exclude, now, at)
  {
    BoardIsApart(z, rows, lane, exclude, at);
    BoardCounts(z, rows, lane, exclude, z.dayOf(at));
  }

  /** slotIsFree reads no more than the day around the slot, and answers for the whole table. */
  lemma SlotIsFreeExactly(z: Zone, rows: seq<Row>, lane: Lane, at: int, now: int)
    requires Fair(z) && AllTimely(z, rows, lane, now) && InReach(z, at)
    ensures SlotIsFree(z, rows, lane, at, now) <==> IsFree(z, rows, lane, None, now, at)
  {
    WindowAnswersLikeTheTable(z, rows, lane, None, at, at, now, at);
    OpenIsFree(z, rows, lane, None, now, at);
  }

  // ---------------------------------------------------------------- an hour on offer

  /** One of the day's hours the client's clock has, free, with its score. */
  ghost predicate FreeHour(
      z: Zone, score: int -> int, rows: seq<Row>, lane: Lane, exclude: Option<nat>, now: int, day: int, slot: Slot) {
    && (exists hour: nat :: hour < 24 && z.hourOf(day, hour) == Some(slot.at))
    && IsFree(z, rows, lane, exclude, now, slot.at)
    && slot.score == score(slot.at)
  }

  /** The board read for a range of days lists the same open hours of them as the table does. */
  lemma OpenHourIsFree(
      z: Zone, score: int -> int, rows: seq<Row>, lane: Lane, exclude: Option<nat>, first: int, last: int, now: int, day: int, slot: Slot)
    requires Fair(z) && AllTimely(z, rows, lane, now) && first <= day <= last
    ensures IsOpenHour(z, score, BoardOfDays(z, rows, lane, exclude, first, last), now, day, HOURS_PER_DAY, slot)
       <==> FreeHour(z, score, rows, lane, exclude, now, day, slot)
  {
    hide IsFree, IsSlotOpen;
    if exists hour: nat :: hour < 24 && z.hourOf(day, hour) == Some(slot.at) {
      var hour: nat :| hour < 24 && z.hourOf(day, hour) == Some(slot.at);
      assert FairHour(z, day, hour);
      StartsFollow(z, first, day);
      StartsFollow(z, day + 1, last + 1);
      assert Within(z, slot.at);
      WindowAnswersLikeTheTable(z, rows, lane, exclude, z.start(first), z.start(last + 1), now, slot.at);
      OpenIsFree(z, rows, lane, exclude, now, slot.at);
    }
  }

  /** bestSlotOn gives the best free hour of the day, the earliest of equals, whenever there is one. */
  lemma BestSlotOnIsBest(
      z: Zone, score: int -> int, rows: seq<Row>, lane: Lane, exclude: Option<nat>, day: int, now: int)
    requires Fair(z) && AllTimely(z, rows, lane, now)
    ensures var best := BestSlotOn(z, score, rows, lane, exclude, day, now);
      && (best.Some? ==> FreeHour(z, score, rows, lane, exclude, now, day, best.value))
      && (forall slot :: FreeHour(z, score, rows, lane, exclude, now, day, slot) ==>
            best.Some? && (slot == best.value || slot.score < best.value.score
              || (slot.score == best.value.score && best.value.at < slot.at)))
  {
    hide FreeHour, IsOpenHour, BestSlotOfDay, BoardOfDays;
    BestSlotOfDayIsBest(z, score, BoardOfDays(z, rows, lane, exclude, day, day), now, day);
    forall slot
      ensures IsOpenHour(z, score, BoardOfDays(z, rows, lane, exclude, day, day), now, day, HOURS_PER_DAY, slot)
         <==> FreeHour(z, score, rows, lane, exclude, now, day, slot)
    {
      OpenHourIsFree(z, score, rows, lane, exclude, day, day, now, day, slot);
    }
  }

  /** A free hour of the window, from the client's today on. */
  ghost predicate OnOffer(z: Zone, score: int -> int, rows: seq<Row>, lane: Lane, window: (int, int), now: int, slot: Slot) {
    && window.0 <= z.dayOf(slot.at) <= window.1 && z.dayOf(now) <= z.dayOf(slot.at)
    && FreeHour(z, score, rows, lane, None, now, z.dayOf(slot.at), slot)
  }

  /** How many days from the post's target, none when it has none. */
  function DaysOff(z: Zone, target: Option<int>, slot: Slot): nat {
    match target
    case None => 0
    case Some(day) => Gap(z.dayOf(slot.at), day)
  }

  predicate OnPlan(z: Zone, target: Option<int>, slot: Slot) {
    target.Some? && DaysOff(z, target, slot) <= 1
  }

  /** The higher score, then the day nearer the target, then the earlier hour. */
  predicate Better(z: Zone, target: Option<int>, a: Slot, b: Slot) {
    if a.score != b.score then a.score > b.score
    else if DaysOff(z, target, a) != DaysOff(z, target, b) then DaysOff(z, target, a) < DaysOff(z, target, b)
    else a.at < b.at
  }

  /** Of the days around the target, while any of their hours is free. */
  ghost predicate Eligible(
      z: Zone, score: int -> int, rows: seq<Row>, lane: Lane, window: (int, int), target: Option<int>, now: int, slot: Slot) {
    && OnOffer(z, score, rows, lane, window, now, slot)
    && (OnPlan(z, target, slot)
        || forall other :: OnOffer(z, score, rows, lane, window, now, other) ==> !OnPlan(z, target, other))
  }

  ghost predicate Has(best: seq<Entry>, slot: Slot) {
    exists k :: 0 <= k < |best| && best[k].slot == slot
  }

  lemma OfferedIsEligible(
      z: Zone, score: int -> int, rows: seq<Row>, lane: Lane, window: (int, int), target: Option<int>, now: int, e: Entry)
    requires Fair(z) && AllTimely(z, rows, lane, now) && RemainingWindowDays(z, window, now) != []
    ensures var days := RemainingWindowDays(z, window, now);
            IsOpenEntry(z, score, BoardOfDays(z, rows, lane, None, days[0], days[|days| - 1]), now, days, target, e)
            <==> OnOffer(z, score, rows, lane, window, now, e.slot) && e.offset == OffsetOf(target, z.dayOf(e.slot.at))
  {
    var days := RemainingWindowDays(z, window, now);
    var first, last := days[0], days[|days| - 1];
    var taken := BoardOfDays(z, rows, lane, None, first, last);
    hide BoardOfDays, IsOpenHour, FreeHour, AllTimely;
    var here := z.dayOf(e.slot.at);
    WindowDays(z, window, now, here);
    if IsOpenEntry(z, score, taken, now, days, target, e) {
      var day :| day in days && e.offset == OffsetOf(target, day) && IsOpenHour(z, score, taken, now, day, HOURS_PER_DAY, e.slot);
      LiesOnItsDay(z, score, taken, now, day, e.slot);
    }
    if first <= here <= last {
      OpenHourIsFree(z, score, rows, lane, None, first, last, now, here, e.slot);
    }
  }

  lemma WindowDays(z: Zone, window: (int, int), now: int, day: int)
    ensures var days := RemainingWindowDays(z, window, now);
            && (day in days <==> window.0 <= day <= window.1 && z.dayOf(now) <= day)
            && (day in days ==> days[0] <= day <= days[|days| - 1])
            && Ascending(days)
  {
    var days := RemainingWindowDays(z, window, now);
    if window.0 <= day <= window.1 && z.dayOf(now) <= day {
      assert days[day - days[0]] == day;
    }
  }

  lemma NearIsOnPlan(z: Zone, target: Option<int>, e: Entry)
    requires e.offset == OffsetOf(target, z.dayOf(e.slot.at))
    ensures IsNear(e) <==> OnPlan(z, target, e.slot)
    ensures Distance(e) == DaysOff(z, target, e.slot)
  {
  }

  /** An eligible hour, with its distance from the target worked out. */
  ghost predicate Fits(
      z: Zone, score: int -> int, rows: seq<Row>, lane: Lane, window: (int, int), target: Option<int>, now: int, e: Entry) {
    Eligible(z, score, rows, lane, window, target, now, e.slot) && e.offset == OffsetOf(target, z.dayOf(e.slot.at))
  }

  lemma BeforeIsBetter(z: Zone, target: Option<int>, a: Entry, b: Entry)
    requires a.offset == OffsetOf(target, z.dayOf(a.slot.at)) && b.offset == OffsetOf(target, z.dayOf(b.slot.at))
    ensures Before(a, b) <==> Better(z, target, a.slot, b.slot)
  {
    NearIsOnPlan(z, target, a);
    NearIsOnPlan(z, target, b);
  }

  lemma BestOnes(
      z: Zone, score: int -> int, rows: seq<Row>, lane: Lane, window: (int, int), target: Option<int>, now: int, best: seq<Entry>)
    requires InOrder(Before, best) && forall e :: e in best ==> Fits(z, score, rows, lane, window, target, now, e)
    requires forall e :: Fits(z, score, rows, lane, window, target, now, e) && e !in best ==>
               |best| == 5 && forall b :: b in best ==> Before(b, e)
    ensures forall i, j :: 0 <= i < j < |best| ==> Better(z, target, best[i].slot, best[j].slot)
    ensures forall k :: 0 <= k < |best| ==> Eligible(z, score, rows, lane, window, target, now, best[k].slot)
    ensures forall slot :: Eligible(z, score, rows, lane, window, target, now, slot) && !Has(best, slot) ==>
              |best| == 5 && forall k :: 0 <= k < |best| ==> Better(z, target, best[k].slot, slot)
  {
    hide Eligible, Before, Better, OffsetOf;
    forall k | 0 <= k < |best| ensures Fits(z, score, rows, lane, window, target, now, best[k]) {
    }
    forall i, j | 0 <= i < j < |best| ensures Better(z, target, best[i].slot, best[j].slot) {
      BeforeIsBetter(z, target, best[i], best[j]);
    }
    forall slot | Eligible(z, score, rows, lane, window, target, now, slot) && !Has(best, slot)
      ensures |best| == 5 && forall k :: 0 <= k < |best| ==> Better(z, target, best[k].slot, slot)
    {
      var e := Entry(slot, OffsetOf(target, z.dayOf(slot.at)));
      assert Fits(z, score, rows, lane, window, target, now, e) && e !in best;
      forall k | 0 <= k < |best| ensures Better(z, target, best[k].slot, slot) {
        BeforeIsBetter(z, target, best[k], e);
      }
    }
  }

  lemma OfferedExactly(
      z: Zone, score: int -> int, rows: seq<Row>, lane: Lane, window: (int, int), target: Option<int>, now: int, e: Entry)
    requires Fair(z) && AllTimely(z, rows, lane, now) && RemainingWindowDays(z, window, now) != []
    ensures var days := RemainingWindowDays(z, window, now);
            Offered(z, score, BoardOfDays(z, rows, lane, None, days[0], days[|days| - 1]), now, days, target, e)
            <==> Fits(z, score, rows, lane, window, target, now, e)
  {
    hide IsOpenEntry, OnOffer, BoardOfDays, RemainingWindowDays, AllTimely, IsNear, OnPlan, OffsetOf;
    var days := RemainingWindowDays(z, window, now);
    var taken := BoardOfDays(z, rows, lane, None, days[0], days[|days| - 1]);
    forall other: Entry
      ensures IsOpenEntry(z, score, taken, now, days, target, other)
         <==> OnOffer(z, score, rows, lane, window, now, other.slot) && other.offset == OffsetOf(target, z.dayOf(other.slot.at))
      ensures other.offset == OffsetOf(target, z.dayOf(other.slot.at)) ==> (IsNear(other) <==> OnPlan(z, target, other.slot))
    {
      OfferedIsEligible(z, score, rows, lane, window, target, now, other);
      if other.offset == OffsetOf(target, z.dayOf(other.slot.at)) {
        NearIsOnPlan(z, target, other);
      }
    }
    forall slot: Slot
      ensures OnOffer(z, score, rows, lane, window, now, slot) && OnPlan(z, target, slot) ==>
        exists other :: IsOpenEntry(z, score, taken, now, days, target, other) && IsNear(other) && other.slot == slot
    {
      var other := Entry(slot, OffsetOf(target, z.dayOf(slot.at)));
      assert OnOffer(z, score, rows, lane, window, now, slot) ==> IsOpenEntry(z, score, taken, now, days, target, other);
    }
  }

  /** candidates gives the best of the free hours a post may go out at: at most five, best first, on
      the days around its target while any hour there is free; and an eligible hour is left out only
      when five better ones were given. */
  lemma CandidatesAreTheBest(
      z: Zone, score: int -> int, rows: seq<Row>, lane: Lane, window: (int, int), target: Option<int>, now: int)
    requires Fair(z) && AllTimely(z, rows, lane, now)
    ensures var best := Candidates(z, score, rows, lane, window, target, now);
      && |best| <= 5
      && (forall i, j :: 0 <= i < j < |best| ==> Better(z, target, best[i].slot, best[j].slot))
      && (forall k :: 0 <= k < |best| ==> Eligible(z, score, rows, lane, window, target, now, best[k].slot))
      && (forall slot :: Eligible(z, score, rows, lane, window, target, now, slot) && !Has(best, slot) ==>
            |best| == 5 && forall k :: 0 <= k < |best| ==> Better(z, target, best[k].slot, slot))
  {
    var best := Candidates(z, score, rows, lane, window, target, now);
    var days := RemainingWindowDays(z, window, now);
    if days == [] {
      NoDaysLeft(z, score, rows, lane, window, target, now);
    } else {
      hide Fits, Eligible, Offered, BoardOfDays, RankSlots, RemainingWindowDays, AllTimely, Better, Before;
      var taken := BoardOfDays(z, rows, lane, None, days[0], days[|days| - 1]);
      WindowDays(z, window, now, 0);
      RankSlotsGivesTheBest(z, score, taken, now, days, target, CANDIDATES);
      forall e: Entry
        ensures Offered(z, score, taken, now, days, target, e) <==> Fits(z, score, rows, lane, window, target, now, e)
      {
        OfferedExactly(z, score, rows, lane, window, target, now, e);
      }
      BestOnes(z, score, rows, lane, window, target, now, best);
    }
  }

  lemma NoDaysLeft(
      z: Zone, score: int -> int, rows: seq<Row>, lane: Lane, window: (int, int), target: Option<int>, now: int)
    requires RemainingWindowDays(z, window, now) == []
    ensures forall slot :: !Eligible(z, score, rows, lane, window, target, now, slot)
    ensures Candidates(z, score, rows, lane, window, target, now) == []
  {
    forall slot ensures !Eligible(z, score, rows, lane, window, target, now, slot) {
      WindowDays(z, window, now, z.dayOf(slot.at));
    }
  }
}
