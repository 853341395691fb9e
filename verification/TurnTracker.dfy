/**
 The HTTP adapter's turns (packages/http-adapter/src/server.ts): events that arrive
 before their turn begins are kept and replayed; live ones go to the client's stream.
 Every write to a stream and every settled promise is recorded in a log.
 */
module TurnTracker {
  import opened Wrappers

  const RECENT_EVENT_LIMIT := 1000
  const EARLY_EVENT_LIMIT := 256
  const EARLY_EVENT_BYTES := 262144

  datatype Kind = Started | Presence | Delta | Progress | Reply | Error | Cancelled

  type Positive = n: nat | n > 0 witness 1

  /** A parsed event; parsing refuses one whose sequence is not positive. */
  datatype Event = Event(id: string, correlation: string, conversation: string, sequence: Positive, kind: Kind, body: string)

  datatype Reason = TimedOut | Mismatched

  datatype Frame =
    | Accepted(correlation: string) | DeltaFrame(event: Event) | ProgressFrame(event: Event)
    | Completed(event: Event) | Withdrawn(event: Event) | Errored(event: Event) | Failure(reason: Reason)

  datatype Entry = Sent(turn: nat, frame: Frame) | Resolved(turn: nat, event: Event) | Rejected(turn: nat, reason: Reason)

  /** A turn under way; `stream` while the client's stream is attached. */
  datatype Turn = Turn(id: nat, conversation: string, lastSequence: nat, stream: bool)

  datatype Tracker = Tracker(conversation: string, buffered: seq<Event>, bufferedBytes: nat, terminal: Option<Event>, active: Option<Turn>)

  predicate Terminal(event: Event) {
    event.kind in {Reply, Error, Cancelled}
  }

  predicate Streamed(event: Event) {
    event.kind in {Delta, Progress}
  }

  // ----- one turn -----

  /** Writing to the stream; a write that does not fit, judged by all that was written, detaches it. */
  function Push(fits: seq<Entry> -> bool, turn: Turn, log: seq<Entry>, frame: Frame): (Turn, seq<Entry>) {
    if !turn.stream then (turn, log)
    else (turn.(stream := fits(log + [Sent(turn.id, frame)])), log + [Sent(turn.id, frame)])
  }

  function Finish(turn: Turn, log: seq<Entry>, frame: Frame): seq<Entry> {
    if turn.stream then log + [Sent(turn.id, frame)] else log
  }

  function LastFrame(event: Event): Frame {
    match event.kind
    case Reply => Completed(event)
    case Cancelled => Withdrawn(event)
    case _ => Errored(event)
  }

  function Complete(turn: Turn, log: seq<Entry>, event: Event): seq<Entry> {
    Finish(turn, log, LastFrame(event)) + [Resolved(turn.id, event)]
  }

  function Fail(turn: Turn, log: seq<Entry>, reason: Reason): seq<Entry> {
    Finish(turn, log, Failure(reason)) + [Rejected(turn.id, reason)]
  }

  /** One event for an active turn: the turn goes on, or is settled. */
  function DeliverTo(fits: seq<Entry> -> bool, turn: Turn, log: seq<Entry>, event: Event): (Option<Turn>, seq<Entry>) {
    if event.conversation != turn.conversation then (None, Fail(turn, log, Mismatched))
    else if event.sequence <= turn.lastSequence then
      if Terminal(event) then (None, Complete(turn, log, event)) else (Some(turn), log)
    else
      var next := turn.(lastSequence := event.sequence);
      match event.kind
      case Delta => var p := Push(fits, next, log, DeltaFrame(event)); (Some(p.0), p.1)
      case Progress => var p := Push(fits, next, log, ProgressFrame(event)); (Some(p.0), p.1)
      case Started => (Some(next), log)
      case Presence => (Some(next), log)
      case _ => (None, Complete(next, log, event))
  }

  /** Events one after another, until one settles the turn. */
  function Replay(fits: seq<Entry> -> bool, turn: Option<Turn>, log: seq<Entry>, events: seq<Event>): (Option<Turn>, seq<Entry>)
    decreases |events|
  {
    if events == [] || turn.None? then (turn, log)
    else
      var step := DeliverTo(fits, turn.value, log, events[0]);
      Replay(fits, step.0, step.1, events[1..])
  }

  // ----- before the turn -----

  function NewTracker(conversation: string): Tracker {
    Tracker(conversation, [], 0, None, None)
  }

  /** An event for a correlation with no active turn: kept if it can matter to one. */
  function AcceptEarly(tracker: Option<Tracker>, event: Event, bytes: nat): Option<Tracker> {
    if !Terminal(event) && !Streamed(event) then tracker
    else
      var early := if tracker.Some? then tracker.value else NewTracker(event.conversation);
      if Terminal(event) then
        Some(if early.terminal.None? || event.sequence < early.terminal.value.sequence then early.(terminal := Some(event)) else early)
      else if |early.buffered| >= EARLY_EVENT_LIMIT || early.bufferedBytes + bytes > EARLY_EVENT_BYTES then Some(early)
      else Some(early.(buffered := early.buffered + [event], bufferedBytes := early.bufferedBytes + bytes))
  }

  /** Insert before the first event with no smaller sequence. */
  function Insert(event: Event, events: seq<Event>): seq<Event> {
    if events == [] || events[0].sequence >= event.sequence then [event] + events
    else [events[0]] + Insert(event, events[1..])
  }

  /** Stable sort by sequence. */
  function Sorted(events: seq<Event>): seq<Event> {
    if events == [] then [] else Insert(events[0], Sorted(events[1..]))
  }

  function Kept(tracker: Tracker): seq<Event> {
    Sorted(tracker.buffered + if tracker.terminal.Some? then [tracker.terminal.value] else [])
  }

  // ----- the adapter -----

  datatype Adapter = Adapter(trackers: map<string, Tracker>, recent: seq<string>, log: seq<Entry>, turns: nat)

  const IDLE := Adapter(map[], [], [], 0)

  function Lookup(trackers: map<string, Tracker>, correlation: string): Option<Tracker> {
    if correlation in trackers then Some(trackers[correlation]) else None
  }

  predicate Live(trackers: map<string, Tracker>, correlation: string) {
    correlation in trackers && trackers[correlation].active.Some?
  }

  /** What became of a correlation's turn: its tracker goes with it. */
  function Track(trackers: map<string, Tracker>, correlation: string, tracker: Tracker, turn: Option<Turn>): map<string, Tracker> {
    if turn.Some? then trackers[correlation := tracker.(active := turn)] else trackers - {correlation}
  }

  function Deliver(fits: seq<Entry> -> bool, a: Adapter, correlation: string, event: Event): Adapter
    requires Live(a.trackers, correlation)
  {
    var tracker := a.trackers[correlation];
    var step := DeliverTo(fits, tracker.active.value, a.log, event);
    a.(trackers := Track(a.trackers, correlation, tracker, step.0), log := step.1)
  }

  function Accept(fits: seq<Entry> -> bool, a: Adapter, event: Event, bytes: nat): Adapter {
    if Live(a.trackers, event.correlation) then Deliver(fits, a, event.correlation, event)
    else
      var early := AcceptEarly(Lookup(a.trackers, event.correlation), event, bytes);
      if early.None? then a else a.(trackers := a.trackers[event.correlation := early.value])
  }

  function Remember(recent: seq<string>, id: string): seq<string> {
    if |recent| + 1 > RECENT_EVENT_LIMIT then (recent + [id])[1..] else recent + [id]
  }

  datatype Step =
    | CoreEvent(event: Event, bytes: nat)
    | BeginTurn(correlation: string, conversation: string, stream: bool)
    | TimeOut(correlation: string)
    | Expire(correlation: string)
    | Disconnect(correlation: string)

  function Apply(fits: seq<Entry> -> bool, a: Adapter, step: Step): Adapter {
    match step
    case CoreEvent(event, bytes) =>
      if event.id in a.recent then a
      else
        var b := Accept(fits, a, event, bytes);
        b.(recent := Remember(b.recent, event.id))
    case BeginTurn(correlation, conversation, stream) =>
      if Live(a.trackers, correlation) then a
      else
        var tracker := if correlation in a.trackers then a.trackers[correlation] else NewTracker(conversation);
        var start := Push(fits, Turn(a.turns, conversation, 0, stream), a.log, Accepted(correlation));
        var after := Replay(fits, Some(start.0), start.1, Kept(tracker));
        a.(trackers := Track(a.trackers, correlation, NewTracker(tracker.conversation), after.0), log := after.1, turns := a.turns + 1)
    case TimeOut(correlation) =>
      if Live(a.trackers, correlation)
      then a.(trackers := a.trackers - {correlation}, log := Fail(a.trackers[correlation].active.value, a.log, TimedOut))
      else a
    case Expire(correlation) => if Live(a.trackers, correlation) then a else a.(trackers := a.trackers - {correlation})
    case Disconnect(correlation) =>
      if Live(a.trackers, correlation)
      then
        var tracker := a.trackers[correlation];
        a.(trackers := Track(a.trackers, correlation, tracker, Some(tracker.active.value.(stream := false))))
      else a
  }

  function Run(fits: seq<Entry> -> bool, a: Adapter, steps: seq<Step>): Adapter
    decreases |steps|
  {
    if steps == [] then a else Run(fits, Apply(fits, a, steps[0]), steps[1..])
  }

  // ----- the class -----

  class HttpAgentAdapter {
    const fits: seq<Entry> -> bool
    var trackers: map<string, Tracker>
    var recentEventIds: set<string>
    var recentEventOrder: seq<string>
    var log: seq<Entry>
    var turns: nat

    constructor (fits: seq<Entry> -> bool)
      ensures this.fits == fits && Now() == IDLE && Valid()
    {
      this.fits, trackers, recentEventIds, recentEventOrder, log, turns := fits, map[], {}, [], [], 0;
    }

    function Now(): Adapter
      reads this
    {
      Adapter(trackers, recentEventOrder, log, turns)
    }

    /** The ids remembered are those in the queue, each once. */
    ghost predicate Valid()
      reads this
    {
      Remembered(recentEventIds, recentEventOrder)
    }

    method HandleCoreEvent(event: Event, bytes: nat) returns (duplicate: bool)
      requires Valid()
      modifies this
      ensures Valid() && Now() == Apply(fits, old(Now()), CoreEvent(event, bytes))
      ensures duplicate == (event.id in old(recentEventOrder))
    {
      hide Accept, Remember;
      if event.id in recentEventIds {
        return true;
      }
      AcceptEvent(event, bytes);
      RememberEvent(event.id);
      return false;
    }

    method AcceptEvent(event: Event, bytes: nat)
      requires Valid()
      modifies this`trackers, this`log
      ensures Valid() && Now() == Accept(fits, old(Now()), event, bytes)
    {
      hide DeliverTo;
      var correlation := event.correlation;
      if correlation in trackers && trackers[correlation].active.Some? {
        DeliverEvent(correlation, event);
        return;
      }
      if event.kind !in {Delta, Progress, Reply, Error, Cancelled} {
        return;
      }
      if correlation !in trackers {
        CreateEarlyTracker(event);
      }
      var early := trackers[correlation];
      if Terminal(event) {
        if early.terminal.None? || event.sequence < early.terminal.value.sequence {
          trackers := trackers[correlation := early.(terminal := Some(event))];
        }
        return;
      }
      if |early.buffered| >= EARLY_EVENT_LIMIT || early.bufferedBytes + bytes > EARLY_EVENT_BYTES {
        return;
      }
      early := early.(buffered := early.buffered + [event], bufferedBytes := early.bufferedBytes + bytes);
      trackers := trackers[correlation := early];
    }

    method CreateEarlyTracker(event: Event)
      modifies this`trackers
      ensures trackers == old(trackers)[event.correlation := NewTracker(event.conversation)]
    {
      trackers := trackers[event.correlation := Tracker(event.conversation, [], 0, None, None)];
    }

    method RememberEvent(id: string)
      requires Valid() && id !in recentEventIds
      modifies this`recentEventIds, this`recentEventOrder
      ensures Valid() && recentEventOrder == Remember(old(recentEventOrder), id)
    {
      RememberKeeps(recentEventIds, recentEventOrder, id);
      recentEventIds := recentEventIds + {id};
      recentEventOrder := recentEventOrder + [id];
      if |recentEventOrder| > RECENT_EVENT_LIMIT {
        recentEventIds := recentEventIds - {recentEventOrder[0]};
        recentEventOrder := recentEventOrder[1..];
      }
    }

    method PushFrame(correlation: string, frame: Frame)
      requires Live(trackers, correlation)
      modifies this`trackers, this`log
      ensures var tracker := old(trackers)[correlation]; var p := Push(fits, tracker.active.value, old(log), frame);
        trackers == old(trackers)[correlation := tracker.(active := Some(p.0))] && log == p.1
    {
      var tracker := trackers[correlation];
      var turn := tracker.active.value;
      if turn.stream {
        log := log + [Sent(turn.id, frame)];
        turn := turn.(stream := fits(log));
      }
      trackers := trackers[correlation := tracker.(active := Some(turn))];
    }

    method DeliverEvent(correlation: string, event: Event)
      requires Live(trackers, correlation)
      modifies this`trackers, this`log
      ensures Now() == Deliver(fits, old(Now()), correlation, event)
    {
      hide Push, Complete, Fail;
      var tracker := trackers[correlation];
      var active := tracker.active.value;
      if event.conversation != active.conversation {
        FailTurn(correlation, Mismatched);
        return;
      }
      if event.sequence <= active.lastSequence {
        if Terminal(event) {
          CompleteTurn(correlation, event);
        } else {
          assert trackers[correlation := tracker.(active := Some(active))] == trackers;
        }
        return;
      }
      trackers := trackers[correlation := tracker.(active := Some(active.(lastSequence := event.sequence)))];
      if event.kind == Delta {
        PushFrame(correlation, DeltaFrame(event));
      } else if event.kind == Progress {
        PushFrame(correlation, ProgressFrame(event));
      } else if Terminal(event) {
        CompleteTurn(correlation, event);
      }
    }

    method CompleteTurn(correlation: string, event: Event)
      requires Live(trackers, correlation)
      modifies this`trackers, this`log
      ensures trackers == old(trackers) - {correlation}
      ensures log == Complete(old(trackers)[correlation].active.value, old(log), event)
    {
      var active := trackers[correlation].active.value;
      trackers := trackers - {correlation};
      if active.stream {
        log := log + [Sent(active.id, LastFrame(event))];
      }
      log := log + [Resolved(active.id, event)];
    }

    method FailTurn(correlation: string, reason: Reason)
      requires Live(trackers, correlation)
      modifies this`trackers, this`log
      ensures trackers == old(trackers) - {correlation}
      ensures log == Fail(old(trackers)[correlation].active.value, old(log), reason)
    {
      var active := trackers[correlation].active.value;
      trackers := trackers - {correlation};
      if active.stream {
        log := log + [Sent(active.id, Failure(reason))];
      }
      log := log + [Rejected(active.id, reason)];
    }

    /** Register a turn and replay what came early; false if the correlation already has one. */
    method Begin(correlation: string, conversation: string, stream: bool) returns (begun: bool)
      requires Valid()
      modifies this
      ensures Valid() && Now() == Apply(fits, old(Now()), BeginTurn(correlation, conversation, stream))
      ensures begun == !old(Live(trackers, correlation))
    {
      hide DeliverTo, Push, Sorted, Replay, Track, Remembered;
      if correlation !in trackers {
        trackers := trackers[correlation := NewTracker(conversation)];
      }
      var tracker := trackers[correlation];
      if tracker.active.Some? {
        return false;
      }
      var active := Turn(turns, conversation, 0, stream);
      trackers := trackers[correlation := tracker.(active := Some(active))];
      turns := turns + 1;
      PushFrame(correlation, Accepted(correlation));
      active := trackers[correlation].active.value;
      var replay := tracker.buffered;
      if tracker.terminal.Some? {
        replay := replay + [tracker.terminal.value];
      }
      replay := Sorted(replay);
      assert replay == Kept(tracker) by {
        assert tracker.buffered + [] == tracker.buffered;
      }
      trackers := trackers[correlation := Tracker(tracker.conversation, [], 0, None, Some(active))];
      ghost var expected := Replay(fits, Some(active), log, replay);
      ghost var turn := Some(active);
      TrackFirst(old(trackers), correlation, NewTracker(tracker.conversation), active);
      assert replay[0..] == replay;
      var i := 0;
      while i < |replay| && correlation in trackers
        invariant 0 <= i <= |replay|
        invariant Valid() && recentEventOrder == old(recentEventOrder) && turns == old(turns) + 1
        invariant trackers == Track(old(trackers), correlation, NewTracker(tracker.conversation), turn)
        invariant correlation in trackers <==> turn.Some?
        invariant Replay(fits, turn, log, replay[i..]) == expected
      {
        TrackAgain(old(trackers), correlation, NewTracker(tracker.conversation), turn, DeliverTo(fits, turn.value, log, replay[i]).0);
        ReplayNext(fits, turn.value, log, replay, i);
        turn := DeliverTo(fits, turn.value, log, replay[i]).0;
        DeliverEvent(correlation, replay[i]);
        i := i + 1;
      }
      ReplayOver(fits, turn, log, replay[i..]);
      return true;
    }

    method TurnTimedOut(correlation: string)
      requires Valid()
      modifies this
      ensures Valid() && Now() == Apply(fits, old(Now()), TimeOut(correlation))
    {
      if correlation in trackers && trackers[correlation].active.Some? {
        FailTurn(correlation, TimedOut);
      }
    }

    method EarlyTrackerExpired(correlation: string)
      requires Valid()
      modifies this
      ensures Valid() && Now() == Apply(fits, old(Now()), Expire(correlation))
    {
      if correlation in trackers && trackers[correlation].active.None? {
        trackers := trackers - {correlation};
      } else {
        assert correlation !in trackers ==> trackers - {correlation} == trackers;
      }
    }

    method StreamClosed(correlation: string)
      requires Valid()
      modifies this
      ensures Valid() && Now() == Apply(fits, old(Now()), Disconnect(correlation))
    {
      if correlation in trackers && trackers[correlation].active.Some? {
        var tracker := trackers[correlation];
        trackers := trackers[correlation := tracker.(active := Some(tracker.active.value.(stream := false)))];
      }
    }
  }

  lemma ReplayNext(fits: seq<Entry> -> bool, turn: Turn, log: seq<Entry>, events: seq<Event>, i: nat)
    requires i < |events|
    ensures var step := DeliverTo(fits, turn, log, events[i]);
      Replay(fits, Some(turn), log, events[i..]) == Replay(fits, step.0, step.1, events[i + 1..])
  {
    hide DeliverTo;
    assert events[i..][1..] == events[i + 1..];
  }

  lemma ReplayOver(fits: seq<Entry> -> bool, turn: Option<Turn>, log: seq<Entry>, events: seq<Event>)
    requires turn.None? || events == []
    ensures Replay(fits, turn, log, events) == (turn, log)
  {
  }

  lemma TrackFirst(trackers: map<string, Tracker>, correlation: string, tracker: Tracker, turn: Turn)
    ensures Track(trackers, correlation, tracker, Some(turn)) == trackers[correlation := tracker.(active := Some(turn))]
  {
  }

  /** A tracker followed from one turn state to the next; it is there while the turn is. */
  lemma TrackAgain(trackers: map<string, Tracker>, correlation: string, tracker: Tracker, turn: Option<Turn>, next: Option<Turn>)
    ensures var now := Track(trackers, correlation, tracker, turn);
      && (correlation in Track(trackers, correlation, tracker, next) <==> next.Some?)
      && (turn.Some? ==> now[correlation] == tracker.(active := turn)
                         && Track(now, correlation, now[correlation], next) == Track(trackers, correlation, tracker, next))
  {
  }

  /** The set and the queue of remembered ids agree, and hold at most the limit. */
  ghost predicate Remembered(ids: set<string>, order: seq<string>) {
    && (forall id :: id in ids <==> id in order)
    && (forall i, j :: 0 <= i < j < |order| ==> order[i] != order[j])
    && |order| <= RECENT_EVENT_LIMIT
  }

  lemma RememberKeeps(ids: set<string>, order: seq<string>, id: string)
    requires Remembered(ids, order) && id !in ids
    ensures Remembered(if |order| + 1 > RECENT_EVENT_LIMIT then (ids + {id}) - {(order + [id])[0]} else ids + {id}, Remember(order, id))
  {
    var longer := order + [id];
    assert forall x :: x in longer <==> x in order || x == id;
    if |longer| > RECENT_EVENT_LIMIT {
      assert longer == [longer[0]] + longer[1..];
    }
  }
}
