/** One server-sent event stream (apps/api/src/realtime/sse.ts): rows replayed from the table, live
    events held back meanwhile, each event written once. */
module EventStream {
  import opened Options

  type EventId = nat
  type Channel = string

  datatype Event = Event(id: EventId, channel: Channel)

  /** SSE_REPLAY_LIMIT */
  const REPLAY_LIMIT := 500

  datatype Frame = EventFrame(id: EventId) | ResyncFrame(id: EventId)

  // ---------------------------------------------------------------- the stream's own state

  /** The closure state of streamEvents: `held` is the live events held back (None once they flow),
      `replayed` the ids the replay wrote that have not come back live, `out` what was written. */
  datatype Stream = Stream(held: Option<seq<Event>>, replayed: set<EventId>, finished: bool, out: seq<Frame>)

  const OPENED := Stream(Some([]), {}, false, [])

  function Write(s: Stream, frame: Frame): Stream {
    if s.finished then s else s.(out := s.out + [frame])
  }

  function Send(s: Stream, event: Event): Stream {
    if event.id in s.replayed then s.(replayed := s.replayed - {event.id}) else Write(s, EventFrame(event.id))
  }

  function SendAll(s: Stream, events: seq<Event>): Stream
    decreases |events|
  {
    if events == [] then s else SendAll(Send(s, events[0]), events[1..])
  }

  /** A live event from the hub. */
  function OnEvent(s: Stream, event: Event): Stream {
    if s.finished then s
    else match s.held
      case Some(held) => s.(held := Some(held + [event]))
      case None => Send(s, event)
  }

  function WriteRows(s: Stream, rows: seq<Event>): Stream
    decreases |rows|
  {
    if rows == [] then s else WriteRows(Write(s, EventFrame(rows[0].id)), rows[1..])
  }

  /** replay: the missed rows, or one resync when there are too many. */
  function Replay(s: Stream, rows: seq<Event>, newest: EventId): Stream {
    if |rows| > REPLAY_LIMIT then Write(s, ResyncFrame(newest)) else WriteRows(s, rows)
  }

  function IdsOf(rows: seq<Event>): set<EventId> {
    set e | e in rows :: e.id
  }

  /** The replay is done: what was held is sent, and live events flow. */
  function Flow(s: Stream, replayed: set<EventId>): Stream {
    if s.finished || s.held.None? then s
    else SendAll(s.(replayed := replayed, held := None), s.held.value)
  }

  function Finish(s: Stream): Stream {
    s.(finished := true, held := None, replayed := {})
  }

  /** streamEvents' closure, as the handlers update it. */
  class EventStreamState {
    var held: Option<seq<Event>>
    var replayed: set<EventId>
    var finished: bool
    var out: seq<Frame>

    ghost function State(): Stream
      reads this
    {
      Stream(held, replayed, finished, out)
    }

    constructor ()
      ensures State() == OPENED
    {
      held, replayed, finished, out := Some([]), {}, false, [];
    }

    method WriteFrame(frame: Frame)
      modifies `out
      ensures State() == Write(old(State()), frame)
    {
      if !finished {
        out := out + [frame];
      }
    }

    method SendEvent(event: Event)
      modifies `out, `replayed
      ensures State() == Send(old(State()), event)
    {
      if event.id in replayed {
        replayed := replayed - {event.id};
        return;
      }
      WriteFrame(EventFrame(event.id));
    }

    method OnLiveEvent(event: Event)
      modifies this
      ensures State() == OnEvent(old(State()), event)
    {
      if finished {
        return;
      }
      if held.Some? {
        held := Some(held.value + [event]);
      } else {
        SendEvent(event);
      }
    }

    /** The replay's writes; returns the ids it wrote. */
    method WriteReplay(rows: seq<Event>, newest: EventId) returns (ids: set<EventId>)
      modifies `out
      ensures State() == Replay(old(State()), rows, newest)
      ensures ids == if |rows| > REPLAY_LIMIT then {} else IdsOf(rows)
    {
      ids := {};
      if |rows| > REPLAY_LIMIT {
        WriteFrame(ResyncFrame(newest));
        return;
      }
      for i := 0 to |rows|
        invariant WriteRows(State(), rows[i..]) == WriteRows(old(State()), rows)
        invariant ids == IdsOf(rows[..i])
        invariant held == old(held) && replayed == old(replayed) && finished == old(finished)
      {
        assert rows[i..][1..] == rows[i + 1..];
        assert rows[..i + 1] == rows[..i] + [rows[i]];
        ids := ids + {rows[i].id};
        WriteFrame(EventFrame(rows[i].id));
      }
      assert rows[..|rows|] == rows;
    }

    method ReplayDone(ids: set<EventId>)
      modifies this
      ensures State() == Flow(old(State()), ids)
    {
      if finished || held.None? {
        return;
      }
      var pending := held.value;
      replayed := ids;
      held := None;
      ghost var opening := State();
      for i := 0 to |pending|
        invariant SendAll(State(), pending[i..]) == SendAll(opening, pending)
        invariant held == None && !finished
      {
        assert pending[i..][1..] == pending[i + 1..];
        SendEvent(pending[i]);
      }
    }

    method Close()
      modifies this
      ensures State() == Finish(old(State()))
    {
      finished := true;
      held := None;
      replayed := {};
    }
  }

  // ---------------------------------------------------------------- the world around it

  datatype Phase = Waiting | Queried(rows: seq<Event>) | Written(rows: seq<Event>) | Flowing(rows: seq<Event>)

  /** The rows committed so far, those whose PUBLISH has reached the stream, and the stream. `cursor` is
      the client's Last-Event-ID, if it sent one. */
  datatype World = World(rows: set<Event>, delivered: set<EventId>, channels: set<Channel>, cursor: Option<EventId>,
                         phase: Phase, stream: Stream)

  predicate Missed(w: World, e: Event) {
    e in w.rows && e.channel in w.channels && w.cursor.Some? && e.id > w.cursor.value
  }

  /** What the replay query returns on the rows there are: all it looks for, in id order. */
  ghost predicate IsReplayOf(w: World, rows: seq<Event>) {
    && (forall e :: e in rows <==> Missed(w, e))
    && (forall i, j :: 0 <= i < j < |rows| ==> rows[i].id < rows[j].id)
  }

  datatype Step =
    | SInsert(event: Event)
    | SDeliver(event: Event)      // hub dispatch to this stream
    | SQuery(rows: seq<Event>)
    | SSkip                       // no Last-Event-ID: nothing is replayed
    | SWrite(newest: EventId)
    | SFlow
    | SClose

  /** Ids are unique, a PUBLISH follows its row's insert and arrives at most once, and the hub only
      hands a stream events of its channels. */
  ghost predicate Possible(w: World, step: Step) {
    match step
    case SInsert(event) => forall e :: e in w.rows ==> e.id != event.id
    case SDeliver(event) => event in w.rows && event.id !in w.delivered && event.channel in w.channels
    case SQuery(rows) => w.cursor.Some? && IsReplayOf(w, rows)
    case SSkip => w.cursor.None?
    case _ => true
  }

  function Next(w: World, step: Step): World {
    match step
    case SInsert(event) => w.(rows := w.rows + {event})
    case SDeliver(event) => w.(delivered := w.delivered + {event.id}, stream := OnEvent(w.stream, event))
    case SQuery(rows) => if w.phase.Waiting? then w.(phase := Queried(rows)) else w
    case SSkip => if w.phase.Waiting? then w.(phase := Written([])) else w
    case SWrite(newest) =>
      if w.phase.Queried? then w.(phase := Written(w.phase.rows), stream := Replay(w.stream, w.phase.rows, newest)) else w
    case SFlow =>
      if w.phase.Written?
      then w.(phase := Flowing(w.phase.rows),
              stream := Flow(w.stream, if |w.phase.rows| > REPLAY_LIMIT then {} else IdsOf(w.phase.rows)))
      else w
    case SClose => w.(stream := Finish(w.stream))
  }

  function Exec(w: World, steps: seq<Step>): World
    decreases |steps|
  {
    if steps == [] then w else Exec(Next(w, steps[0]), steps[1..])
  }

  ghost predicate AllPossible(w: World, steps: seq<Step>)
    decreases |steps|
  {
    steps == [] || (Possible(w, steps[0]) && AllPossible(Next(w, steps[0]), steps[1..]))
  }

  /** A stream just opened, with a Last-Event-ID or without, on whatever was inserted and published before. */
  predicate Opened(w: World) {
    && w.phase.Waiting? && w.stream == OPENED
    && forall e, f :: e in w.rows && f in w.rows && e.id == f.id ==> e == f
  }

  // ---------------------------------------------------------------- what every run keeps

  ghost predicate NoneTwice(out: seq<Frame>) {
    forall i, j :: 0 <= i < j < |out| ==> out[i] != out[j]
  }

  predicate IsWritten(out: seq<Frame>, id: EventId) {
    EventFrame(id) in out
  }

  /** The events held back: those delivered since the stream opened, each once. */
  ghost predicate HeldFits(held: seq<Event>, arrived: set<EventId>) {
    && (forall e :: e in held ==> e.id in arrived)
    && (forall id :: id in arrived ==> exists e :: e in held && e.id == id)
    && (forall i, j :: 0 <= i < j < |held| ==> held[i].id != held[j].id)
  }

  /** `arrived` are the events delivered since the stream opened. */
  ghost predicate Fits(w: World, arrived: set<EventId>) {
    && arrived <= w.delivered
    && (forall e, f :: e in w.rows && f in w.rows && e.id == f.id ==> e == f)
    && (!w.stream.finished ==>
          match w.phase
          case Waiting => w.stream.held.Some? && HeldFits(w.stream.held.value, arrived) && w.stream.out == []
          case Queried(rows) => w.stream.held.Some? && HeldFits(w.stream.held.value, arrived) && w.stream.out == [] && Increasing(rows)
          case Written(rows) =>
            && w.stream.held.Some? && HeldFits(w.stream.held.value, arrived) && Increasing(rows)
            && (|rows| <= REPLAY_LIMIT ==> NoneTwice(w.stream.out) && Exactly(w.stream.out, IdsOf(rows)))
          case Flowing(rows) =>
            && w.stream.held.None?
            && (|rows| <= REPLAY_LIMIT ==>
                  && NoneTwice(w.stream.out) && Exactly(w.stream.out, IdsOf(rows) + arrived)
                  && w.stream.replayed == IdsOf(rows) - arrived))
  }

  ghost predicate Increasing(rows: seq<Event>) {
    forall i, j :: 0 <= i < j < |rows| ==> rows[i].id < rows[j].id
  }

  /** The event frames written are exactly these. */
  ghost predicate Exactly(out: seq<Frame>, ids: set<EventId>) {
    forall frame :: frame in out <==> frame.EventFrame? && frame.id in ids
  }

  lemma AppendOnce(out: seq<Frame>, ids: set<EventId>, id: EventId)
    requires NoneTwice(out) && Exactly(out, ids) && id !in ids
    ensures NoneTwice(out + [EventFrame(id)]) && Exactly(out + [EventFrame(id)], ids + {id})
  {
    assert EventFrame(id) !in out;
  }

  lemma {:induction false} RowsWrittenOnce(s: Stream, rows: seq<Event>, ids: set<EventId>)
    requires !s.finished && NoneTwice(s.out) && Exactly(s.out, ids) && Increasing(rows)
    requires forall e :: e in rows ==> e.id !in ids
    ensures var after := WriteRows(s, rows);
            && NoneTwice(after.out) && Exactly(after.out, ids + IdsOf(rows)) && after.(out := s.out) == s
    decreases |rows|
  {
    if rows == [] {
      assert ids + IdsOf(rows) == ids;
    } else {
      AppendOnce(s.out, ids, rows[0].id);
      assert rows == [rows[0]] + rows[1..];
      assert ids + {rows[0].id} + IdsOf(rows[1..]) == ids + IdsOf(rows);
      assert forall k :: 0 <= k < |rows[1..]| ==> rows[1..][k] == rows[k + 1];
      RowsWrittenOnce(Write(s, EventFrame(rows[0].id)), rows[1..], ids + {rows[0].id});
    }
  }

  /** A live event is written unless the replay wrote it, and never again. */
  lemma SendOnce(s: Stream, event: Event, base: set<EventId>, arrived: set<EventId>)
    requires !s.finished && NoneTwice(s.out) && Exactly(s.out, base + arrived) && s.replayed == base - arrived && event.id !in arrived
    ensures var after := Send(s, event);
            && NoneTwice(after.out) && Exactly(after.out, base + (arrived + {event.id}))
            && after.replayed == base - (arrived + {event.id}) && !after.finished && after.held == s.held
  {
    if event.id in s.replayed {
      assert base + (arrived + {event.id}) == base + arrived;
    } else {
      assert base + (arrived + {event.id}) == base + arrived + {event.id};
      AppendOnce(s.out, base + arrived, event.id);
    }
  }

  lemma {:induction false} HeldSentOnce(s: Stream, held: seq<Event>, base: set<EventId>, arrived: set<EventId>)
    requires !s.finished && NoneTwice(s.out) && Exactly(s.out, base + arrived) && s.replayed == base - arrived
    requires forall e :: e in held ==> e.id !in arrived
    requires forall i, j :: 0 <= i < j < |held| ==> held[i].id != held[j].id
    ensures var after := SendAll(s, held);
            && NoneTwice(after.out) && Exactly(after.out, base + (arrived + IdsOf(held)))
            && after.replayed == base - (arrived + IdsOf(held)) && !after.finished && after.held == s.held
    decreases |held|
  {
    if held == [] {
      assert arrived + IdsOf(held) == arrived;
    } else {
      SendOnce(s, held[0], base, arrived);
      assert held == [held[0]] + held[1..];
      assert arrived + {held[0].id} + IdsOf(held[1..]) == arrived + IdsOf(held);
      assert forall k :: 0 <= k < |held[1..]| ==> held[1..][k] == held[k + 1];
      HeldSentOnce(Send(s, held[0]), held[1..], base, arrived + {held[0].id});
    }
  }

  lemma FlowFits(w: World, arrived: set<EventId>)
    requires Fits(w, arrived) && w.phase.Written?
    ensures Fits(Next(w, SFlow), arrived)
  {
    if !w.stream.finished {
      var rows, held := w.phase.rows, w.stream.held.value;
      assert IdsOf(held) == arrived;
      if |rows| <= REPLAY_LIMIT {
        var s := w.stream.(replayed := IdsOf(rows), held := None);
        assert IdsOf(rows) + {} == IdsOf(rows) && IdsOf(rows) - {} == IdsOf(rows) && {} + IdsOf(held) == arrived;
        HeldSentOnce(s, held, IdsOf(rows), {});
      } else {
        SendAllKeeps(w.stream.(replayed := {}, held := None), held);
      }
    } else {
      FinishedStays(w.stream, {});
    }
  }

  lemma FinishedStays(s: Stream, replayed: set<EventId>)
    requires s.finished
    ensures Flow(s, replayed) == s
  {
  }

  lemma {:induction false} SendAllKeeps(s: Stream, held: seq<Event>)
    ensures SendAll(s, held).held == s.held && SendAll(s, held).finished == s.finished
    decreases |held|
  {
    if held != [] {
      SendAllKeeps(Send(s, held[0]), held[1..]);
    }
  }

  lemma {:induction false} WriteRowsKeeps(s: Stream, rows: seq<Event>)
    ensures WriteRows(s, rows).(out := s.out) == s
    decreases |rows|
  {
    if rows != [] {
      WriteRowsKeeps(Write(s, EventFrame(rows[0].id)), rows[1..]);
    }
  }

  /** What the step delivers to an open stream. */
  function ArrivedBy(step: Step): set<EventId> {
    if step.SDeliver? then {step.event.id} else {}
  }

  lemma DeliverFits(w: World, arrived: set<EventId>, event: Event)
    requires Fits(w, arrived) && Possible(w, SDeliver(event))
    ensures Fits(Next(w, SDeliver(event)), arrived + {event.id})
  {
    if !w.stream.finished {
      if w.phase.Flowing? {
        if |w.phase.rows| <= REPLAY_LIMIT {
          SendOnce(w.stream, event, IdsOf(w.phase.rows), arrived);
        }
      } else {
        var held := w.stream.held.value;
        assert forall e :: e in held + [event] <==> e in held || e == event;
      }
    }
  }

  lemma StepFits(w: World, arrived: set<EventId>, step: Step)
    requires Fits(w, arrived) && Possible(w, step)
    ensures Fits(Next(w, step), arrived + ArrivedBy(step))
  {
    assert arrived + {} == arrived;
    match step
    case SDeliver(event) => DeliverFits(w, arrived, event);
    case SWrite(newest) =>
      if w.phase.Queried? {
        WriteRowsKeeps(w.stream, w.phase.rows);
        if !w.stream.finished && |w.phase.rows| <= REPLAY_LIMIT {
          assert {} + IdsOf(w.phase.rows) == IdsOf(w.phase.rows);
          RowsWrittenOnce(w.stream, w.phase.rows, {});
        }
      }
    case SFlow => if w.phase.Written? { FlowFits(w, arrived); }
    case _ =>
  }

  /** Rows the query saw stay what they were, and what it did not see came later. */
  ghost predicate ReplaySound(w: World) {
    match w.phase
    case Waiting => true
    case Queried(rows) => forall e :: e in rows ==> Missed(w, e)
    case Written(rows) => forall e :: e in rows ==> Missed(w, e)
    case Flowing(rows) => forall e :: e in rows ==> Missed(w, e)
  }

  lemma {:induction false} ExecFits(w: World, arrived: set<EventId>, steps: seq<Step>) returns (more: set<EventId>)
    requires Fits(w, arrived) && ReplaySound(w) && AllPossible(w, steps)
    ensures Fits(Exec(w, steps), more) && ReplaySound(Exec(w, steps))
    ensures arrived <= more <= Exec(w, steps).delivered + arrived && (more - arrived) * w.delivered == {}
    ensures forall id :: id in Exec(w, steps).delivered && id !in w.delivered ==> id in more
    ensures Exec(w, steps).channels == w.channels && Exec(w, steps).cursor == w.cursor
    decreases |steps|
  {
    if steps == [] {
      more := arrived;
    } else {
      StepFits(w, arrived, steps[0]);
      hide Fits;
      more := ExecFits(Next(w, steps[0]), arrived + ArrivedBy(steps[0]), steps[1..]);
    }
  }

  /** On every interleaving of inserts, PUBLISHes, the replay query and deliveries: a stream that flows
      and was not told to resync has written each event frame at most once, and exactly those of the
      rows its replay found and the events delivered to it since it opened (without a Last-Event-ID,
      exactly the latter). When every row the replay missed has been delivered, that is every event past
      the client's cursor on its channels, exactly once. */
  lemma EachEventIsWrittenOnce(w: World, steps: seq<Step>)
    requires Opened(w) && AllPossible(w, steps)
    requires var end := Exec(w, steps); !end.stream.finished && end.phase.Flowing? && |end.phase.rows| <= REPLAY_LIMIT
    ensures var end := Exec(w, steps);
            && NoneTwice(end.stream.out)
            && Exactly(end.stream.out, IdsOf(end.phase.rows) + (end.delivered - w.delivered))
            && (w.cursor.None? ==> Exactly(end.stream.out, end.delivered - w.delivered))
            && ((forall e :: Missed(end, e) && e !in end.phase.rows ==> e.id in end.delivered && e.id !in w.delivered)
                ==> forall e :: Missed(end, e) ==> IsWritten(end.stream.out, e.id))
  {
    assert HeldFits([], {});
    var arrived := ExecFits(w, {}, steps);
    var end := Exec(w, steps);
    hide Exec;
    assert arrived == end.delivered - w.delivered;
    if w.cursor.None? {
      assert IdsOf(end.phase.rows) == {} by {
        assert forall e :: e in end.phase.rows ==> Missed(end, e);
      }
      assert {} + (end.delivered - w.delivered) == end.delivered - w.delivered;
    }
  }
}
