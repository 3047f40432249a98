/** The order an event stream writes in (apps/api/src/realtime/sse.ts): what its client missed, as it
    happened, then what is published meanwhile and after, as it arrives. */
module EventOrder {
  import opened Options
  import opened EventStream

  /** The events a run delivers, in order. */
  function Live(steps: seq<Step>): seq<Event> {
    if steps == [] then [] else (if steps[0].SDeliver? then [steps[0].event] else []) + Live(steps[1..])
  }

  function FramesOf(events: seq<Event>): (frames: seq<Frame>)
    ensures |frames| == |events| && forall i :: 0 <= i < |events| ==> frames[i] == EventFrame(events[i].id)
  {
    seq(|events|, i requires 0 <= i < |events| => EventFrame(events[i].id))
  }

  /** The events that were not replayed, in order. */
  function Fresh(events: seq<Event>, replayed: set<EventId>): seq<Event> {
    if events == [] then []
    else
      var last := events[|events| - 1];
      Fresh(events[..|events| - 1], replayed) + (if last.id in replayed then [] else [last])
  }

  /** The replay's part of what is written: every missed row, or one resync past 500 of them. */
  ghost predicate IsReplay(out: seq<Frame>, rows: seq<Event>) {
    if |rows| <= 500 then out == FramesOf(rows) else exists newest :: out == [ResyncFrame(newest)]
  }

  ghost function Replayed(rows: seq<Event>): set<EventId> {
    if |rows| <= 500 then IdsOf(rows) else {}
  }

  ghost predicate NoneRepeats(events: seq<Event>) {
    forall i, j :: 0 <= i < j < |events| ==> events[i].id != events[j].id
  }

  ghost predicate EachOnce(w: World, live: seq<Event>) {
    (forall e :: e in live ==> e.id in w.delivered) && NoneRepeats(live)
  }

  ghost predicate IsWrittenInOrder(out: seq<Frame>, rows: seq<Event>, live: seq<Event>) {
    exists replay :: IsReplay(replay, rows) && out == replay + FramesOf(Fresh(live, Replayed(rows)))
  }

  /** An open stream, once `live` was delivered to it. */
  ghost predicate InOrderSoFar(w: World, live: seq<Event>) {
    && EachOnce(w, live) && !w.stream.finished
    && match w.phase
       case Waiting => w.stream.out == [] && w.stream.held == Some(live) && w.stream.replayed == {}
       case Queried(rows) => w.stream.out == [] && w.stream.held == Some(live) && w.stream.replayed == {}
       case Written(rows) => IsReplay(w.stream.out, rows) && w.stream.held == Some(live) && w.stream.replayed == {}
       case Flowing(rows) =>
         IsWrittenInOrder(w.stream.out, rows, live) && w.stream.held == None && w.stream.replayed == Replayed(rows) - IdsOf(live)
  }

  lemma FramesFirst(out: seq<Frame>, rows: seq<Event>)
    requires rows != []
    ensures (out + [EventFrame(rows[0].id)]) + FramesOf(rows[1..]) == out + FramesOf(rows)
  {
    assert FramesOf(rows) == [EventFrame(rows[0].id)] + FramesOf(rows[1..]);
  }

  lemma {:induction false} WritesRowsInOrder(s: Stream, rows: seq<Event>)
    requires !s.finished
    ensures WriteRows(s, rows) == s.(out := s.out + FramesOf(rows))
    decreases |rows|
  {
    hide FramesOf;
    if rows == [] {
      assert FramesOf(rows) == [] && s.out + [] == s.out;
    } else {
      FramesFirst(s.out, rows);
      WritesRowsInOrder(Write(s, EventFrame(rows[0].id)), rows[1..]);
    }
  }

  /** One more live event keeps the order. */
  lemma SendsInOrder(s: Stream, event: Event, rows: seq<Event>, live: seq<Event>)
    requires !s.finished && IsWrittenInOrder(s.out, rows, live) && s.replayed == Replayed(rows) - IdsOf(live)
    requires forall e :: e in live ==> e.id != event.id
    ensures var after := Send(s, event);
      && IsWrittenInOrder(after.out, rows, live + [event]) && after.replayed == Replayed(rows) - IdsOf(live + [event])
      && !after.finished && after.held == s.held
  {
    var more := live + [event];
    var replay :| IsReplay(replay, rows) && s.out == replay + FramesOf(Fresh(live, Replayed(rows)));
    assert more[..|more| - 1] == live;
    assert IdsOf(more) == IdsOf(live) + {event.id};
    hide IsReplay, Replayed, IdsOf;
    if event.id in s.replayed {
      assert Fresh(more, Replayed(rows)) == Fresh(live, Replayed(rows)) + [];
    } else {
      assert FramesOf(Fresh(live, Replayed(rows)) + [event]) == FramesOf(Fresh(live, Replayed(rows))) + [EventFrame(event.id)];
      assert Send(s, event).out == replay + FramesOf(Fresh(more, Replayed(rows)));
    }
  }

  lemma {:induction false} SendsAllInOrder(s: Stream, events: seq<Event>, rows: seq<Event>, live: seq<Event>)
    requires !s.finished && IsWrittenInOrder(s.out, rows, live) && s.replayed == Replayed(rows) - IdsOf(live)
    requires NoneRepeats(live + events)
    ensures var after := SendAll(s, events);
      && IsWrittenInOrder(after.out, rows, live + events) && after.replayed == Replayed(rows) - IdsOf(live + events)
      && !after.finished && after.held == s.held
    decreases |events|
  {
    hide IsWrittenInOrder, Replayed, IdsOf;
    if events == [] {
      assert live + events == live;
    } else {
      forall e | e in live ensures e.id != events[0].id {
        var i :| 0 <= i < |live| && live[i] == e;
        assert (live + events)[i] == e && (live + events)[|live|] == events[0];
      }
      SendsInOrder(s, events[0], rows, live);
      assert (live + [events[0]]) + events[1..] == live + events;
      SendsAllInOrder(Send(s, events[0]), events[1..], rows, live + [events[0]]);
    }
  }

  lemma ReplayedOnly(out: seq<Frame>, rows: seq<Event>)
    requires IsReplay(out, rows)
    ensures IsWrittenInOrder(out, rows, []) && Replayed(rows) - IdsOf([]) == Replayed(rows)
  {
    assert FramesOf(Fresh([], Replayed(rows))) == [] && out + [] == out;
  }

  lemma FlowSendsHeld(w: World, live: seq<Event>)
    requires w.phase.Written? && !w.stream.finished && w.stream.held == Some(live)
    ensures Next(w, SFlow) == w.(phase := Flowing(w.phase.rows),
                                 stream := SendAll(w.stream.(replayed := Replayed(w.phase.rows), held := None), live))
  {
    hide SendAll, IdsOf;
  }

  lemma FlowsInOrder(w: World, live: seq<Event>)
    requires InOrderSoFar(w, live) && w.phase.Written?
    ensures InOrderSoFar(Next(w, SFlow), live)
  {
    var rows := w.phase.rows;
    ReplayedOnly(w.stream.out, rows);
    FlowSendsHeld(w, live);
    hide IsReplay, IsWrittenInOrder, IdsOf, Next, SendAll, Replayed, NoneRepeats;
    assert [] + live == live;
    SendsAllInOrder(w.stream.(replayed := Replayed(rows), held := None), live, rows, []);
  }

  lemma DeliversInOrder(w: World, live: seq<Event>, event: Event)
    requires InOrderSoFar(w, live) && Possible(w, SDeliver(event))
    ensures InOrderSoFar(Next(w, SDeliver(event)), live + [event])
  {
    if w.phase.Flowing? {
      SendsInOrder(w.stream, event, w.phase.rows, live);
      hide IsWrittenInOrder;
    }
  }

  lemma StepKeepsOrder(w: World, live: seq<Event>, step: Step)
    requires InOrderSoFar(w, live) && Possible(w, step) && step != SClose
    ensures InOrderSoFar(Next(w, step), live + Live([step]))
  {
    assert [step][1..] == [] && Live([step]) == if step.SDeliver? then [step.event] else [];
    assert live + [] == live;
    match step
    case SDeliver(event) => DeliversInOrder(w, live, event);
    case SFlow => if w.phase.Written? { FlowsInOrder(w, live); }
    case SWrite(newest) =>
      if w.phase.Queried? {
        WritesRowsInOrder(w.stream, w.phase.rows);
        assert [] + FramesOf(w.phase.rows) == FramesOf(w.phase.rows);
      }
    case _ =>
  }

  /** Once its connection is closed a stream writes nothing, whatever is still delivered to it. */
  lemma {:induction false} NothingAfterClose(w: World, steps: seq<Step>)
    requires w.stream.finished && w.stream.held == None && w.stream.replayed == {}
    ensures Exec(w, steps).stream == w.stream
    decreases |steps|
  {
    if steps != [] {
      ClosedStays(w, steps[0]);
      hide Next;
      NothingAfterClose(Next(w, steps[0]), steps[1..]);
    }
  }

  lemma {:induction false} ClosedWritesNoRows(s: Stream, rows: seq<Event>)
    requires s.finished
    ensures WriteRows(s, rows) == s
    decreases |rows|
  {
    if rows != [] {
      ClosedWritesNoRows(s, rows[1..]);
    }
  }

  lemma ClosedStays(w: World, step: Step)
    requires w.stream.finished && w.stream.held == None && w.stream.replayed == {}
    ensures Next(w, step).stream == w.stream
  {
    if step.SWrite? && w.phase.Queried? {
      ClosedWritesNoRows(w.stream, w.phase.rows);
    }
  }

  lemma {:induction false} RunKeepsOrder(w: World, live: seq<Event>, steps: seq<Step>)
    requires InOrderSoFar(w, live) && AllPossible(w, steps) && !Exec(w, steps).stream.finished
    ensures InOrderSoFar(Exec(w, steps), live + Live(steps))
    decreases |steps|
  {
    hide InOrderSoFar, Possible, Next;
    if steps == [] {
      assert live + [] == live;
    } else if steps[0] == SClose {
      ClosesForGood(w, steps);
    } else {
      StepKeepsOrder(w, live, steps[0]);
      RunKeepsOrder(Next(w, steps[0]), live + Live([steps[0]]), steps[1..]);
      assert [steps[0]][1..] == [] && Live([steps[0]]) + Live(steps[1..]) == Live(steps);
      assert (live + Live([steps[0]])) + Live(steps[1..]) == live + Live(steps);
    }
  }

  lemma ClosesForGood(w: World, steps: seq<Step>)
    requires steps != [] && steps[0] == SClose
    ensures Exec(w, steps).stream.finished
  {
    NothingAfterClose(Next(w, SClose), steps[1..]);
  }

  /** On every interleaving, an open stream that flows has written just this: the missed rows in the order of
      their ids, or one resync when there are more than 500; then, in the order they arrived, the events
      delivered to it since it opened that were not among those rows. */
  lemma WritesInOrder(w: World, steps: seq<Step>)
    requires Opened(w) && AllPossible(w, steps)
    requires !Exec(w, steps).stream.finished && Exec(w, steps).phase.Flowing?
    ensures IsWrittenInOrder(Exec(w, steps).stream.out, Exec(w, steps).phase.rows, Live(steps))
  {
    assert InOrderSoFar(w, []);
    RunKeepsOrder(w, [], steps);
    assert [] + Live(steps) == Live(steps);
  }

  /** What is replayed are stored rows of the stream's channels, past the id the client last saw. */
  lemma ReplaysOnlyTheMissed(w: World, steps: seq<Step>)
    requires Opened(w) && AllPossible(w, steps) && Exec(w, steps).phase.Flowing?
    ensures var end := Exec(w, steps);
      forall e :: e in end.phase.rows ==> e in end.rows && e.channel in w.channels && w.cursor.Some? && w.cursor.value < e.id
  {
    assert HeldFits([], {});
    var arrived := ExecFits(w, {}, steps);
    var end := Exec(w, steps);
    hide Exec;
    assert forall e :: e in end.phase.rows ==> Missed(end, e);
  }
}
