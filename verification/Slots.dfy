/** The slot optimizer: which hours of a client's calendar are open on a platform, and which of them
    are best (apps/api/src/publishing/slot-optimizer.ts). Instants are milliseconds; days are counted. */
module Slots {
  import opened Options
  import opened PostLifecycle
  import opened Sorting

  const HOUR := 3_600_000
  const DAY := 24 * HOUR
  /** SLOT_RULES */
  const SPACING := 4 * HOUR
  const LEAD := 30 * 60_000
  const MAX_PER_DAY := 2
  const HOURS_PER_DAY: nat := 24
  const TARGET_DATE_TOLERANCE_DAYS := 1

  /** A client's time zone: the local day of an instant, the start of a day, and the instant of an hour
      of a day (none for an hour daylight saving skips). */
  datatype Zone = Zone(dayOf: int -> int, start: int -> int, hourOf: (int, nat) -> Option<int>)

  /** At most 24 hours into its day, as every full hour of a day of up to 25 hours is. */
  predicate InReach(z: Zone, at: int) {
    at <= z.start(z.dayOf(at)) + DAY
  }

  ghost predicate Within(z: Zone, at: int) {
    z.start(z.dayOf(at)) <= at < z.start(z.dayOf(at) + 1)
  }

  ghost predicate FairHour(z: Zone, day: int, hour: nat) {
    z.hourOf(day, hour).Some? ==> z.dayOf(z.hourOf(day, hour).value) == day && InReach(z, z.hourOf(day, hour).value)
  }

  ghost predicate HoursFollow(z: Zone, day: int, first: nat, second: nat) {
    (first < second && z.hourOf(day, first).Some? && z.hourOf(day, second).Some?)
    ==> z.hourOf(day, first).value < z.hourOf(day, second).value
  }

  /** What a time zone is taken to be: days follow one another, hours lie in their day, in order. */
  ghost predicate Fair(z: Zone) {
    && (forall at: int :: Within(z, at))
    && (forall day: int :: z.start(day) < z.start(day + 1))
    && (forall day: int, hour: nat :: FairHour(z, day, hour))
    && (forall day: int, first: nat, second: nat :: HoursFollow(z, day, first, second))
  }

  // ---- the board ----

  /** Slots are shared out per client and platform. */
  datatype Lane = Lane(client: string, platform: string)

  /** A PublishJob row, as the board reads it. */
  datatype Row = Row(lane: Lane, status: JobStatus, scheduledFor: int, publishedAt: Option<int>)

  /** SLOT_HOLDING_STATUSES */
  predicate Holds(row: Row) {
    row.status in {JobStatus.Scheduled, JobStatus.Queued, JobStatus.Publishing, JobStatus.Published}
  }

  /** A published post occupies the moment it actually went out. */
  function TakenAt(row: Row): int {
    if row.publishedAt.Some? then row.publishedAt.value else row.scheduledFor
  }

  /** The instants a read covers; none for the whole table. */
  type Window = Option<(int, int)>

  predicate Covers(window: Window, at: int) {
    window.Some? ==> window.value.0 <= at <= window.value.1
  }

  /** loadBoard's where clause. */
  predicate Reads(row: Row, lane: Lane, window: Window) {
    && row.lane == lane && Holds(row)
    && (Covers(window, row.scheduledFor) || (row.publishedAt.Some? && Covers(window, row.publishedAt.value)))
  }

  /** loadBoard's range, with a day's margin either side. */
  function Margins(from: int, to: int): Window {
    Some((from - DAY, to + DAY))
  }

  /** loadBoard: when the lane's other posts go, or went, out. */
  function Board(rows: seq<Row>, lane: Lane, exclude: Option<nat>, window: Window): seq<int> {
    if rows == [] then [] else
    var last := |rows| - 1;
    var earlier := Board(rows[..last], lane, exclude, window);
    if exclude != Some(last) && Reads(rows[last], lane, window) then earlier + [TakenAt(rows[last])] else earlier
  }

  function CountOn(z: Zone, taken: seq<int>, day: int): nat {
    if taken == [] then 0 else
    CountOn(z, taken[..|taken| - 1], day) + (if z.dayOf(taken[|taken| - 1]) == day then 1 else 0)
  }

  predicate Apart(one: int, other: int) {
    one - other >= SPACING || other - one >= SPACING
  }

  predicate AllApart(taken: seq<int>, at: int) {
    forall i :: 0 <= i < |taken| ==> Apart(taken[i], at)
  }

  /** isSlotOpen, of what is taken: late enough, far enough from every other post, on a day not yet full. */
  predicate IsSlotOpen(z: Zone, taken: seq<int>, now: int, at: int) {
    at >= now + LEAD && AllApart(taken, at) && CountOn(z, taken, z.dayOf(at)) < MAX_PER_DAY
  }

  /** The board with each taken slot's local day worked out once. */
  datatype BoardIndex = BoardIndex(earliest: int, takenMs: seq<int>, perDay: map<int, nat>)

  function PerDay(perDay: map<int, nat>, day: int): nat {
    if day in perDay then perDay[day] else 0
  }

  ghost predicate IndexOf(z: Zone, taken: seq<int>, now: int, index: BoardIndex) {
    && index.earliest == now + LEAD
    && index.takenMs == taken
    && (forall day: int :: PerDay(index.perDay, day) == CountOn(z, taken, day))
  }

  method IndexBoard(z: Zone, taken: seq<int>, now: int) returns (index: BoardIndex)
    ensures IndexOf(z, taken, now, index)
  {
    var perDay: map<int, nat> := map[];
    for i := 0 to |taken|
      invariant forall day: int :: PerDay(perDay, day) == CountOn(z, taken[..i], day)
    {
      assert taken[..i + 1][..i] == taken[..i];
      var day := z.dayOf(taken[i]);
      perDay := perDay[day := PerDay(perDay, day) + 1];
    }
    assert taken[..|taken|] == taken;
    index := BoardIndex(now + LEAD, taken, perDay);
  }

  predicate OpenAt(index: BoardIndex, at: int, day: int) {
    if at < index.earliest then false
    else if exists i :: 0 <= i < |index.takenMs| && !Apart(index.takenMs[i], at) then false
    else PerDay(index.perDay, day) < MAX_PER_DAY
  }

  // ---- a windowed read answers like the whole table ----

  /** What is out is out by now, and a slot is an hour of its day or already past (a manual retry's). */
  predicate Timely(z: Zone, row: Row, now: int) {
    && (row.publishedAt.Some? ==> row.publishedAt.value <= now)
    && (InReach(z, row.scheduledFor) || row.scheduledFor <= now)
  }

  ghost predicate AllTimely(z: Zone, rows: seq<Row>, lane: Lane, now: int) {
    forall i :: 0 <= i < |rows| && rows[i].lane == lane ==> Timely(z, rows[i], now)
  }

  /** A row left unread is on another day, and far away. */
  lemma UnreadIsElsewhere(z: Zone, row: Row, lane: Lane, from: int, to: int, now: int, at: int)
    requires Fair(z) && Timely(z, row, now)
    requires from <= at <= to && now <= at && InReach(z, at)
    requires Reads(row, lane, None) && !Reads(row, lane, Margins(from, to))
    ensures Apart(TakenAt(row), at) && z.dayOf(TakenAt(row)) != z.dayOf(at)
  {
    assert Within(z, at) && Within(z, TakenAt(row));
  }

  lemma {:induction false} MarginsSuffice(
      z: Zone, rows: seq<Row>, lane: Lane, exclude: Option<nat>, from: int, to: int, now: int, at: int)
    requires Fair(z) && AllTimely(z, rows, lane, now)
    requires from <= at <= to && now <= at && InReach(z, at)
    ensures AllApart(Board(rows, lane, exclude, Margins(from, to)), at) == AllApart(Board(rows, lane, exclude, None), at)
    ensures CountOn(z, Board(rows, lane, exclude, Margins(from, to)), z.dayOf(at))
         == CountOn(z, Board(rows, lane, exclude, None), z.dayOf(at))
  {
    if rows != [] {
      var last := |rows| - 1;
      MarginsSuffice(z, rows[..last], lane, exclude, from, to, now, at);
      var row, window := rows[last], Margins(from, to);
      if exclude != Some(last) && Reads(row, lane, None) {
        TakenOneMore(z, Board(rows[..last], lane, exclude, None), TakenAt(row), at);
        if Reads(row, lane, window) {
          TakenOneMore(z, Board(rows[..last], lane, exclude, window), TakenAt(row), at);
        } else {
          UnreadIsElsewhere(z, row, lane, from, to, now, at);
        }
      }
    }
  }

  lemma TakenOneMore(z: Zone, taken: seq<int>, one: int, at: int)
    ensures AllApart(taken + [one], at) == (AllApart(taken, at) && Apart(one, at))
    ensures forall day: int :: CountOn(z, taken + [one], day) == CountOn(z, taken, day) + (if z.dayOf(one) == day then 1 else 0)
  {
    var more := taken + [one];
    assert more[..|more| - 1] == taken && more[|more| - 1] == one;
    if AllApart(more, at) {
      forall i | 0 <= i < |taken| ensures Apart(taken[i], at) {
        assert more[i] == taken[i];
      }
    }
  }

  /** loadBoard's margin is enough: a slot is open on the board it reads exactly when it is open on the
      whole job table. */
  lemma WindowAnswersLikeTheTable(
      z: Zone, rows: seq<Row>, lane: Lane, exclude: Option<nat>, from: int, to: int, now: int, at: int)
    requires Fair(z) && AllTimely(z, rows, lane, now)
    requires from <= at <= to && InReach(z, at)
    ensures IsSlotOpen(z, Board(rows, lane, exclude, Margins(from, to)), now, at)
       <==> IsSlotOpen(z, Board(rows, lane, exclude, None), now, at)
  {
    if now <= at {
      MarginsSuffice(z, rows, lane, exclude, from, to, now, at);
    }
  }

  // ---- ranking ----

  /** A candidate; the score is in thousandths, as it is rounded to. */
  datatype Slot = Slot(at: int, score: int)
  datatype Entry = Entry(slot: Slot, offset: Option<int>)

  /** The open ones of the first hours of a day, in time order. */
  function OpenSlots(z: Zone, score: int -> int, taken: seq<int>, now: int, day: int, hours: nat): seq<Slot> {
    if hours == 0 then [] else
    var start := z.hourOf(day, hours - 1);
    OpenSlots(z, score, taken, now, day, hours - 1)
      + (if start.Some? && IsSlotOpen(z, taken, now, start.value) then [Slot(start.value, score(start.value))] else [])
  }

  method OpenSlotsIndexed(z: Zone, score: int -> int, index: BoardIndex, day: int, ghost taken: seq<int>, ghost now: int)
      returns (slots: seq<Slot>)
    requires Fair(z) && IndexOf(z, taken, now, index)
    ensures slots == OpenSlots(z, score, taken, now, day, HOURS_PER_DAY)
  {
    slots := [];
    for hour := 0 to HOURS_PER_DAY
      invariant slots == OpenSlots(z, score, taken, now, day, hour)
    {
      var start := z.hourOf(day, hour);
      assert FairHour(z, day, hour);
      if start.None? { continue; }
      if !OpenAt(index, start.value, day) { continue; }
      slots := slots + [Slot(start.value, score(start.value))];
    }
  }

  /** An hour of the day that is open, scored. */
  ghost predicate IsOpenHour(z: Zone, score: int -> int, taken: seq<int>, now: int, day: int, hours: nat, slot: Slot) {
    exists hour: nat :: hour < hours && z.hourOf(day, hour) == Some(slot.at)
      && IsSlotOpen(z, taken, now, slot.at) && slot.score == score(slot.at)
  }

  lemma {:induction false} OpenSlotsAreTheOpenHours(
      z: Zone, score: int -> int, taken: seq<int>, now: int, day: int, hours: nat, slot: Slot)
    ensures slot in OpenSlots(z, score, taken, now, day, hours) <==> IsOpenHour(z, score, taken, now, day, hours, slot)
  {
    if hours > 0 {
      OpenSlotsAreTheOpenHours(z, score, taken, now, day, hours - 1, slot);
    }
  }

  ghost predicate InTimeOrder(slots: seq<Slot>) {
    forall i, j :: 0 <= i < j < |slots| ==> slots[i].at < slots[j].at
  }

  lemma {:induction false} OpenSlotsInTimeOrder(z: Zone, score: int -> int, taken: seq<int>, now: int, day: int, hours: nat)
    requires Fair(z)
    ensures InTimeOrder(OpenSlots(z, score, taken, now, day, hours))
  {
    if hours > 0 {
      OpenSlotsInTimeOrder(z, score, taken, now, day, hours - 1);
      var slots := OpenSlots(z, score, taken, now, day, hours - 1);
      forall i | 0 <= i < |slots| && z.hourOf(day, hours - 1).Some?
        ensures slots[i].at < z.hourOf(day, hours - 1).value
      {
        OpenSlotsAreTheOpenHours(z, score, taken, now, day, hours - 1, slots[i]);
        var hour: nat :| hour < hours - 1 && z.hourOf(day, hour) == Some(slots[i].at);
        assert HoursFollow(z, day, hour, hours - 1);
      }
    }
  }

  function WithOffset(slots: seq<Slot>, offset: Option<int>): (entries: seq<Entry>)
    ensures |entries| == |slots| && forall i :: 0 <= i < |slots| ==> entries[i] == Entry(slots[i], offset)
  {
    if slots == [] then [] else [Entry(slots[0], offset)] + WithOffset(slots[1..], offset)
  }

  function OffsetOf(target: Option<int>, day: int): Option<int> {
    if target.None? then None else Some(day - target.value)
  }

  /** Every open slot of the days, with its distance from the target. */
  function OpenEntries(z: Zone, score: int -> int, taken: seq<int>, now: int, days: seq<int>, target: Option<int>): seq<Entry> {
    if days == [] then [] else
    WithOffset(OpenSlots(z, score, taken, now, days[0], HOURS_PER_DAY), OffsetOf(target, days[0]))
      + OpenEntries(z, score, taken, now, days[1..], target)
  }

  function Distance(entry: Entry): nat {
    if entry.offset.None? then 0 else if entry.offset.value < 0 then -entry.offset.value else entry.offset.value
  }

  predicate IsNear(entry: Entry) {
    entry.offset.Some? && Distance(entry) <= TARGET_DATE_TOLERANCE_DAYS
  }

  function Near(entries: seq<Entry>): (near: seq<Entry>)
    ensures forall e :: e in near <==> e in entries && IsNear(e)
  {
    if entries == [] then [] else
    assert entries == [entries[0]] + entries[1..];
    (if IsNear(entries[0]) then [entries[0]] else []) + Near(entries[1..])
  }

  function Pool(entries: seq<Entry>): seq<Entry> {
    if Near(entries) != [] then Near(entries) else entries
  }

  /** The sort's order: score, then closeness to the target, then time. */
  predicate Before(a: Entry, b: Entry) {
    || a.slot.score > b.slot.score
    || (a.slot.score == b.slot.score && Distance(a) < Distance(b))
    || (a.slot.score == b.slot.score && Distance(a) == Distance(b) && a.slot.at < b.slot.at)
  }

  /** rankSlots */
  function RankSlots(z: Zone, score: int -> int, taken: seq<int>, now: int, days: seq<int>, target: Option<int>, limit: nat)
    : seq<Entry>
  {
    var ranked := Sort(Before, Pool(OpenEntries(z, score, taken, now, days, target)));
    if |ranked| <= limit then ranked else ranked[..limit]
  }

  /** bestSlotOfDay: every slot is as far from no target. */
  function BestSlotOfDay(z: Zone, score: int -> int, taken: seq<int>, now: int, day: int): Option<Slot> {
    var ranked := Sort(Before, WithOffset(OpenSlots(z, score, taken, now, day, HOURS_PER_DAY), None));
    if ranked == [] then None else Some(ranked[0].slot)
  }

  ghost predicate TimesDiffer(entries: seq<Entry>) {
    forall i, j :: 0 <= i < j < |entries| ==> entries[i].slot.at != entries[j].slot.at
  }

  lemma BeforeIsStrict()
    ensures IsStrict(Before)
  {
  }

  lemma DifferentTimesCompare(entries: seq<Entry>)
    requires TimesDiffer(entries)
    ensures Comparable(Before, entries)
  {
  }

  /** On one of the days, an open hour of it. */
  ghost predicate IsOpenEntry(
      z: Zone, score: int -> int, taken: seq<int>, now: int, days: seq<int>, target: Option<int>, e: Entry) {
    exists day :: day in days && e.offset == OffsetOf(target, day)
      && IsOpenHour(z, score, taken, now, day, HOURS_PER_DAY, e.slot)
  }

  lemma {:induction false} OpenEntriesAreOpen(
      z: Zone, score: int -> int, taken: seq<int>, now: int, days: seq<int>, target: Option<int>, e: Entry)
    ensures e in OpenEntries(z, score, taken, now, days, target) <==> IsOpenEntry(z, score, taken, now, days, target, e)
  {
    if days != [] {
      var slots := OpenSlots(z, score, taken, now, days[0], HOURS_PER_DAY);
      var first := WithOffset(slots, OffsetOf(target, days[0]));
      assert days == [days[0]] + days[1..];
      OpenEntriesAreOpen(z, score, taken, now, days[1..], target, e);
      OpenSlotsAreTheOpenHours(z, score, taken, now, days[0], HOURS_PER_DAY, e.slot);
      assert e in first <==> e.slot in slots && e.offset == OffsetOf(target, days[0]);
    }
  }

  predicate Ascending(days: seq<int>) {
    forall i, j :: 0 <= i < j < |days| ==> days[i] < days[j]
  }

  lemma {:induction false} OpenEntriesDiffer(
      z: Zone, score: int -> int, taken: seq<int>, now: int, days: seq<int>, target: Option<int>)
    requires Fair(z) && Ascending(days)
    ensures TimesDiffer(OpenEntries(z, score, taken, now, days, target))
  {
    if days != [] {
      OpenEntriesDiffer(z, score, taken, now, days[1..], target);
      OpenSlotsInTimeOrder(z, score, taken, now, days[0], HOURS_PER_DAY);
      var first := WithOffset(OpenSlots(z, score, taken, now, days[0], HOURS_PER_DAY), OffsetOf(target, days[0]));
      var rest := OpenEntries(z, score, taken, now, days[1..], target);
      forall a, b | a in first && b in rest ensures a.slot.at != b.slot.at {
        OpenSlotsAreTheOpenHours(z, score, taken, now, days[0], HOURS_PER_DAY, a.slot);
        OpenEntriesAreOpen(z, score, taken, now, days[1..], target, b);
        LiesOnItsDay(z, score, taken, now, days[0], a.slot);
        var day :| day in days[1..] && IsOpenHour(z, score, taken, now, day, HOURS_PER_DAY, b.slot);
        LiesOnItsDay(z, score, taken, now, day, b.slot);
      }
      var all := first + rest;
      forall i, j | 0 <= i < j < |all| ensures all[i].slot.at != all[j].slot.at {
        if i < |first| <= j {
          assert all[i] in first && all[j] in rest;
        }
      }
    }
  }

  lemma LiesOnItsDay(z: Zone, score: int -> int, taken: seq<int>, now: int, day: int, slot: Slot)
    requires Fair(z) && IsOpenHour(z, score, taken, now, day, HOURS_PER_DAY, slot)
    ensures z.dayOf(slot.at) == day && InReach(z, slot.at)
  {
    var hour: nat :| hour < HOURS_PER_DAY && z.hourOf(day, hour) == Some(slot.at);
    assert FairHour(z, day, hour);
  }

  lemma {:induction false} NearDiffer(entries: seq<Entry>)
    requires TimesDiffer(entries)
    ensures TimesDiffer(Near(entries))
  {
    if entries != [] {
      var rest := entries[1..];
      forall i, j | 0 <= i < j < |rest| ensures rest[i].slot.at != rest[j].slot.at {
        assert rest[i] == entries[i + 1] && rest[j] == entries[j + 1];
      }
      NearDiffer(rest);
      forall e | e in Near(rest) ensures e.slot.at != entries[0].slot.at {
        assert e in rest;
      }
    }
  }

  /** What rankSlots may offer: open entries; only those near the target while there are any. */
  ghost predicate Offered(
      z: Zone, score: int -> int, taken: seq<int>, now: int, days: seq<int>, target: Option<int>, e: Entry) {
    && IsOpenEntry(z, score, taken, now, days, target, e)
    && (IsNear(e) || forall other :: IsOpenEntry(z, score, taken, now, days, target, other) ==> !IsNear(other))
  }

  lemma PoolIsOffered(
      z: Zone, score: int -> int, taken: seq<int>, now: int, days: seq<int>, target: Option<int>, e: Entry)
    ensures e in Pool(OpenEntries(z, score, taken, now, days, target)) <==> Offered(z, score, taken, now, days, target, e)
  {
    var entries := OpenEntries(z, score, taken, now, days, target);
    forall other ensures other in entries <==> IsOpenEntry(z, score, taken, now, days, target, other) {
      OpenEntriesAreOpen(z, score, taken, now, days, target, other);
    }
    if Near(entries) != [] {
      assert Near(entries)[0] in Near(entries);
    }
  }

  lemma FirstOnesAreTaken(ranked: seq<Entry>, limit: nat)
    requires limit <= |ranked|
    ensures forall j :: 0 <= j < limit ==> ranked[j] in ranked[..limit]
  {
    forall j | 0 <= j < limit ensures ranked[j] in ranked[..limit] {
      assert ranked[..limit][j] == ranked[j];
    }
  }

  /** rankSlots offers exactly the best: in order, each on offer, as many as asked or all there are, and
      nothing on offer it leaves out comes before anything it gives. */
  lemma RankSlotsGivesTheBest(
      z: Zone, score: int -> int, taken: seq<int>, now: int, days: seq<int>, target: Option<int>, limit: nat)
    requires Fair(z) && Ascending(days)
    ensures var best := RankSlots(z, score, taken, now, days, target, limit);
      && |best| <= limit
      && InOrder(Before, best)
      && (forall e :: e in best ==> Offered(z, score, taken, now, days, target, e))
      && (forall e :: Offered(z, score, taken, now, days, target, e) && e !in best
            ==> |best| == limit && forall b :: b in best ==> Before(b, e))
  {
    var entries := OpenEntries(z, score, taken, now, days, target);
    var pool := Pool(entries);
    OpenEntriesDiffer(z, score, taken, now, days, target);
    NearDiffer(entries);
    BeforeIsStrict();
    DifferentTimesCompare(pool);
    SortInOrder(Before, pool);
    var ranked := Sort(Before, pool);
    var best := RankSlots(z, score, taken, now, days, target, limit);
    forall e ensures e in ranked <==> Offered(z, score, taken, now, days, target, e) {
      PoolIsOffered(z, score, taken, now, days, target, e);
      SortHas(Before, pool, e);
    }
    forall e | e in ranked && e !in best
      ensures |best| == limit && forall b :: b in best ==> Before(b, e)
    {
      var j :| 0 <= j < |ranked| && ranked[j] == e;
      FirstOnesAreTaken(ranked, |best|);
      forall b | b in best ensures Before(b, e) {
        var i :| 0 <= i < |best| && best[i] == b;
        assert ranked[i] == b;
      }
    }
  }

  /** bestSlotOfDay is the day's best open hour, and there is one when any hour is open. */
  lemma BestSlotOfDayIsBest(z: Zone, score: int -> int, taken: seq<int>, now: int, day: int)
    requires Fair(z)
    ensures var best := BestSlotOfDay(z, score, taken, now, day);
      && (best.Some? ==> IsOpenHour(z, score, taken, now, day, HOURS_PER_DAY, best.value))
      && (forall slot :: IsOpenHour(z, score, taken, now, day, HOURS_PER_DAY, slot) ==>
            best.Some? && (slot == best.value || slot.score < best.value.score
              || (slot.score == best.value.score && best.value.at < slot.at)))
  {
    var slots := OpenSlots(z, score, taken, now, day, HOURS_PER_DAY);
    var entries := WithOffset(slots, None);
    OpenSlotsInTimeOrder(z, score, taken, now, day, HOURS_PER_DAY);
    forall i, j | 0 <= i < j < |entries| ensures entries[i].slot.at != entries[j].slot.at {
      assert slots[i].at < slots[j].at;
    }
    BeforeIsStrict();
    DifferentTimesCompare(entries);
    SortInOrder(Before, entries);
    var ranked := Sort(Before, entries);
    forall slot ensures Entry(slot, None) in ranked <==> IsOpenHour(z, score, taken, now, day, HOURS_PER_DAY, slot) {
      OpenSlotsAreTheOpenHours(z, score, taken, now, day, HOURS_PER_DAY, slot);
      SortHas(Before, entries, Entry(slot, None));
    }
    if ranked != [] {
      SortHas(Before, entries, ranked[0]);
      assert ranked[0] == Entry(ranked[0].slot, None);
    }
  }

  // ---- reading the table ----

  /** daysOf */
  method DaysOf(start: int, end: int) returns (days: seq<int>)
    ensures days == Days(start, end)
  {
    days := [];
    var day := start;
    while day <= end
      invariant |days| == day - start || (days == [] && end < start)
      invariant day <= end + 1 || days == []
      invariant forall i :: 0 <= i < |days| ==> days[i] == start + i
      decreases end - day
    {
      days := days + [day];
      day := day + 1;
    }
  }

  function Days(start: int, end: int): seq<int> {
    if end < start then [] else seq(end + 1 - start, i => start + i)
  }

  /** remainingWindowDays: the window's days from today on. */
  function RemainingWindowDays(z: Zone, window: (int, int), now: int): seq<int> {
    var today := z.dayOf(now);
    Days(if window.0 > today then window.0 else today, window.1)
  }

  /** The board read for whole days. */
  function BoardOfDays(z: Zone, rows: seq<Row>, lane: Lane, exclude: Option<nat>, first: int, last: int): seq<int> {
    Board(rows, lane, exclude, Margins(z.start(first), z.start(last + 1)))
  }

  /** SLOT_RULES.candidates */
  const CANDIDATES: nat := 5

  /** candidates */
  function Candidates(
      z: Zone, score: int -> int, rows: seq<Row>, lane: Lane, window: (int, int), target: Option<int>, now: int): seq<Entry>
  {
    var days := RemainingWindowDays(z, window, now);
    if days == [] then [] else
    RankSlots(z, score, BoardOfDays(z, rows, lane, None, days[0], days[|days| - 1]), now, days, target, CANDIDATES)
  }

  /** bestSlotOn */
  function BestSlotOn(z: Zone, score: int -> int, rows: seq<Row>, lane: Lane, exclude: Option<nat>, day: int, now: int)
    : Option<Slot>
  {
    BestSlotOfDay(z, score, BoardOfDays(z, rows, lane, exclude, day, day), now, day)
  }

  /** slotIsFree */
  predicate SlotIsFree(z: Zone, rows: seq<Row>, lane: Lane, at: int, now: int) {
    IsSlotOpen(z, Board(rows, lane, None, Margins(at, at)), now, at)
  }

  lemma {:induction false} StartsFollow(z: Zone, day: int, later: int)
    requires Fair(z) && day <= later
    ensures z.start(day) <= z.start(later)
    decreases later - day
  {
    if day < later {
      StartsFollow(z, day + 1, later);
      assert z.start(day) < z.start(day + 1);
    }
  }

  /** An open hour of a day in the range the board was read for is open on the whole table. */
  lemma OpenHourIsOpenOnTheTable(
      z: Zone, score: int -> int, rows: seq<Row>, lane: Lane, exclude: Option<nat>, first: int, last: int, now: int, day: int, slot: Slot)
    requires Fair(z) && AllTimely(z, rows, lane, now) && first <= day <= last
    requires IsOpenHour(z, score, BoardOfDays(z, rows, lane, exclude, first, last), now, day, HOURS_PER_DAY, slot)
    ensures InReach(z, slot.at) && IsSlotOpen(z, Board(rows, lane, exclude, None), now, slot.at)
  {
    LiesOnItsDay(z, score, BoardOfDays(z, rows, lane, exclude, first, last), now, day, slot);
    StartsFollow(z, first, day);
    StartsFollow(z, day + 1, last + 1);
    assert Within(z, slot.at);
    WindowAnswersLikeTheTable(z, rows, lane, exclude, z.start(first), z.start(last + 1), now, slot.at);
  }

  /** Every candidate is an hour of the window, from today on, that the whole table leaves open. */
  lemma CandidatesAreOpen(
      z: Zone, score: int -> int, rows: seq<Row>, lane: Lane, window: (int, int), target: Option<int>, now: int, e: Entry)
    requires Fair(z) && AllTimely(z, rows, lane, now)
    requires e in Candidates(z, score, rows, lane, window, target, now)
    ensures InReach(z, e.slot.at) && IsSlotOpen(z, Board(rows, lane, None, None), now, e.slot.at)
    ensures window.0 <= z.dayOf(e.slot.at) <= window.1 && z.dayOf(now) <= z.dayOf(e.slot.at)
  {
    var days := RemainingWindowDays(z, window, now);
    var first, last := days[0], days[|days| - 1];
    var taken := BoardOfDays(z, rows, lane, None, first, last);
    RankSlotsGivesTheBest(z, score, taken, now, days, target, CANDIDATES);
    assert Offered(z, score, taken, now, days, target, e);
    var day :| day in days && e.offset == OffsetOf(target, day) && IsOpenHour(z, score, taken, now, day, HOURS_PER_DAY, e.slot);
    LiesOnItsDay(z, score, taken, now, day, e.slot);
    OpenHourIsOpenOnTheTable(z, score, rows, lane, None, first, last, now, day, e.slot);
  }

  /** bestSlotOn gives an hour of the day that the whole table leaves open. */
  lemma BestSlotOnIsOpen(
      z: Zone, score: int -> int, rows: seq<Row>, lane: Lane, exclude: Option<nat>, day: int, now: int)
    requires Fair(z) && AllTimely(z, rows, lane, now)
    requires BestSlotOn(z, score, rows, lane, exclude, day, now).Some?
    ensures var at := BestSlotOn(z, score, rows, lane, exclude, day, now).value.at;
      z.dayOf(at) == day && InReach(z, at) && IsSlotOpen(z, Board(rows, lane, exclude, None), now, at)
  {
    var taken := BoardOfDays(z, rows, lane, exclude, day, day);
    BestSlotOfDayIsBest(z, score, taken, now, day);
    var slot := BestSlotOfDay(z, score, taken, now, day).value;
    LiesOnItsDay(z, score, taken, now, day, slot);
    OpenHourIsOpenOnTheTable(z, score, rows, lane, exclude, day, day, now, day, slot);
  }
}
