/**
 A turn under way (packages/http-adapter/src/server.ts): what its client sees of the
 events that arrive for it while other turns come and go, and which events count as
 repeated.
 */
module TurnLive {
  import opened Wrappers
  import opened TurnTracker
  import opened TurnTheorems

  // ----- repeated events -----

  /** The last entries of `ids`, as many as are remembered. */
  function Remembered(ids: seq<string>): seq<string> {
    if |ids| <= RECENT_EVENT_LIMIT then ids else ids[|ids| - RECENT_EVENT_LIMIT..]
  }

  /** The ids accepted in the first `n` steps of a run: each that is not among those remembered when it comes. */
  function AcceptedIds(steps: seq<Step>, n: nat): seq<string>
    requires n <= |steps|
  {
    if n == 0 then []
    else
      var before := AcceptedIds(steps, n - 1);
      if steps[n - 1].CoreEvent? && steps[n - 1].event.id !in Remembered(before) then before + [steps[n - 1].event.id] else before
  }

  lemma {:induction false} RunNext(fits: seq<Entry> -> bool, a: Adapter, steps: seq<Step>, n: nat)
    requires n < |steps|
    ensures Run(fits, a, steps[..n + 1]) == Apply(fits, Run(fits, a, steps[..n]), steps[n])
    decreases n
  {
    hide Apply;
    if n > 0 {
      assert steps[..n + 1][1..] == steps[1..][..n] && steps[..n][1..] == steps[1..][..n - 1];
      RunNext(fits, Apply(fits, a, steps[0]), steps[1..], n - 1);
    } else {
      assert steps[..1][1..] == [] && steps[..0] == [];
      assert Run(fits, Apply(fits, a, steps[0]), []) == Apply(fits, a, steps[0]);
    }
  }

  lemma RememberedNext(ids: seq<string>, id: string)
    ensures Remember(Remembered(ids), id) == Remembered(ids + [id])
  {
  }

  /** No id is repeated within the limit. */
  ghost predicate Unlike(ids: seq<string>) {
    forall i, j :: 0 <= i < j < |ids| && j - i <= RECENT_EVENT_LIMIT ==> ids[i] != ids[j]
  }

  /** The adapter remembers the last accepted ids, and so takes an event again only once enough others came between. */
  lemma {:induction false} RecentIsTail(fits: seq<Entry> -> bool, start: Adapter, steps: seq<Step>, n: nat)
    requires n <= |steps| && start.recent == []
    ensures Run(fits, start, steps[..n]).recent == Remembered(AcceptedIds(steps, n))
    ensures Unlike(AcceptedIds(steps, n))
    decreases n
  {
    if n == 0 {
      assert steps[..0] == [];
    } else {
      AcceptedIs(steps, n);
      hide *;
      RecentIsTail(fits, start, steps, n - 1);
      RunNext(fits, start, steps, n - 1);
      var before := Run(fits, start, steps[..n - 1]);
      RecentIs(fits, before, steps[n - 1]);
      AcceptedNext(AcceptedIds(steps, n - 1), before.recent, steps[n - 1]);
    }
  }

  lemma AcceptedIs(steps: seq<Step>, n: nat)
    requires 0 < n <= |steps|
    ensures var before := AcceptedIds(steps, n - 1);
      AcceptedIds(steps, n) ==
      if steps[n - 1].CoreEvent? && steps[n - 1].event.id !in Remembered(before) then before + [steps[n - 1].event.id] else before
  {
    hide Remembered;
  }

  lemma AcceptedNext(ids: seq<string>, recent: seq<string>, step: Step)
    requires recent == Remembered(ids) && Unlike(ids)
    ensures var next := if step.CoreEvent? && step.event.id !in Remembered(ids) then ids + [step.event.id] else ids;
      RecentAfter(recent, step) == Remembered(next) && Unlike(next)
  {
    hide Remembered, Remember, Unlike;
    if Fresh(recent, step) {
      RememberedNext(ids, step.event.id);
      Unrepeated(ids, step.event.id);
    }
  }

  lemma Unrepeated(ids: seq<string>, id: string)
    requires id !in Remembered(ids) && Unlike(ids)
    ensures Unlike(ids + [id])
  {
    var start := if |ids| <= RECENT_EVENT_LIMIT then 0 else |ids| - RECENT_EVENT_LIMIT;
    forall i | start <= i < |ids| ensures ids[i] != id {
      assert Remembered(ids)[i - start] == ids[i];
    }
  }

  // ----- one turn's entries -----

  /** The entries of one turn. */
  function Own(log: seq<Entry>, turn: nat): seq<Entry> {
    if log == [] then []
    else Own(log[..|log| - 1], turn) + if log[|log| - 1].turn == turn then [log[|log| - 1]] else []
  }

  lemma {:induction false} OwnJoin(log: seq<Entry>, more: seq<Entry>, turn: nat)
    ensures Own(log + more, turn) == Own(log, turn) + Own(more, turn)
    decreases |more|
  {
    if more == [] {
      assert log + more == log;
    } else {
      assert (log + more)[..|log + more| - 1] == log + more[..|more| - 1];
      OwnJoin(log, more[..|more| - 1], turn);
    }
  }

  predicate AllOf(log: seq<Entry>, turn: nat) {
    forall i :: 0 <= i < |log| ==> log[i].turn == turn
  }

  lemma AllOfBoth(a: seq<Entry>, b: seq<Entry>, turn: nat)
    requires AllOf(a, turn) && AllOf(b, turn)
    ensures AllOf(a + b, turn)
  {
  }

  lemma {:induction false} OwnOf(log: seq<Entry>, id: nat, turn: nat)
    requires AllOf(log, id)
    ensures Own(log, turn) == if id == turn then log else []
    decreases |log|
  {
    if log != [] {
      OwnOf(log[..|log| - 1], id, turn);
      assert log[..|log| - 1] + [log[|log| - 1]] == log;
    }
  }

  lemma OwnAfter(log: seq<Entry>, more: seq<Entry>, id: nat, turn: nat)
    requires AllOf(more, id)
    ensures Own(log + more, turn) == Own(log, turn) + if id == turn then more else []
  {
    OwnJoin(log, more, turn);
    OwnOf(more, id, turn);
  }

  // ----- a turn adds to the log what it would add to an empty one -----

  /** Every write fits the stream. */
  ghost predicate Unhindered(fits: seq<Entry> -> bool) {
    forall log :: fits(log)
  }

  lemma PushShift(fits: seq<Entry> -> bool, turn: Turn, log: seq<Entry>, frame: Frame)
    requires Unhindered(fits)
    ensures var alone := Push(fits, turn, [], frame); Push(fits, turn, log, frame) == (turn, log + alone.1) && alone.0 == turn && AllOf(alone.1, turn.id)
  {
    var entry := Sent(turn.id, frame);
    assert fits(log + [entry]) && fits([] + [entry]);
    assert [] + [entry] == [entry] && log + [] == log;
  }

  lemma FinishShift(turn: Turn, log: seq<Entry>, frame: Frame, entry: Entry)
    requires entry.turn == turn.id
    ensures var alone := Finish(turn, [], frame) + [entry]; Finish(turn, log, frame) + [entry] == log + alone && AllOf(alone, turn.id)
  {
    assert log + [Sent(turn.id, frame)] + [entry] == log + ([Sent(turn.id, frame)] + [entry]);
    assert log + ([] + [entry]) == log + [entry];
  }

  lemma DeliverShift(fits: seq<Entry> -> bool, turn: Turn, log: seq<Entry>, event: Event)
    requires Unhindered(fits)
    ensures var alone := DeliverTo(fits, turn, [], event);
      && DeliverTo(fits, turn, log, event) == (alone.0, log + alone.1) && AllOf(alone.1, turn.id)
      && (alone.0.Some? ==> alone.0.value.id == turn.id)
  {
    var next := turn.(lastSequence := event.sequence);
    PushShift(fits, next, log, DeltaFrame(event));
    PushShift(fits, next, log, ProgressFrame(event));
    FinishShift(turn, log, LastFrame(event), Resolved(turn.id, event));
    FinishShift(next, log, LastFrame(event), Resolved(turn.id, event));
    FinishShift(turn, log, Failure(Mismatched), Rejected(turn.id, Mismatched));
    hide Push, Finish, LastFrame, AllOf, Unhindered;
    assert log + [] == log && AllOf([], turn.id) by {
      NothingOf(turn.id);
    }
  }

  lemma NothingOf(turn: nat)
    ensures AllOf([], turn)
  {
  }

  lemma ReplayFirst(fits: seq<Entry> -> bool, turn: Turn, log: seq<Entry>, events: seq<Event>)
    requires events != []
    ensures var step := DeliverTo(fits, turn, log, events[0]);
      Replay(fits, Some(turn), log, events) == Replay(fits, step.0, step.1, events[1..])
  {
    hide DeliverTo;
  }

  lemma ReplayDone(fits: seq<Entry> -> bool, turn: Option<Turn>, log: seq<Entry>, events: seq<Event>)
    requires events == [] || turn.None?
    ensures Replay(fits, turn, log, events) == (turn, log) && Replay(fits, turn, [], events) == (turn, []) && log + [] == log
  {
    hide DeliverTo;
  }

  lemma {:induction false} ReplayShift(fits: seq<Entry> -> bool, turn: Option<Turn>, log: seq<Entry>, events: seq<Event>, id: nat)
    requires Unhindered(fits) && (turn.Some? ==> turn.value.id == id)
    ensures var alone := Replay(fits, turn, [], events);
      && Replay(fits, turn, log, events) == (alone.0, log + alone.1) && AllOf(alone.1, id)
      && (alone.0.Some? ==> alone.0.value.id == id)
    decreases |events|
  {
    NothingOf(id);
    hide *;
    if events == [] || turn.None? {
      ReplayDone(fits, turn, log, events);
    } else {
      var step := DeliverTo(fits, turn.value, [], events[0]);
      DeliverShift(fits, turn.value, log, events[0]);
      ReplayFirst(fits, turn.value, log, events);
      ReplayFirst(fits, turn.value, [], events);
      ReplayShift(fits, step.0, log + step.1, events[1..], id);
      ReplayShift(fits, step.0, step.1, events[1..], id);
      var rest := Replay(fits, step.0, [], events[1..]);
      assert log + step.1 + rest.1 == log + (step.1 + rest.1);
      AllOfBoth(step.1, rest.1, id);
    }
  }

  // ----- a turn among others -----

  /** Turn `id` is that of `correlation`, if of any. */
  ghost predicate Apart(a: Adapter, correlation: string, id: nat) {
    && id < a.turns
    && forall c :: c != correlation && ActiveOf(a.trackers, c).Some? ==> ActiveOf(a.trackers, c).value.id != id
  }

  /** The turn's entries and its state are as they were. */
  ghost predicate Untouched(a: Adapter, b: Adapter, correlation: string, id: nat) {
    Own(b.log, id) == Own(a.log, id) && ActiveOf(b.trackers, correlation) == ActiveOf(a.trackers, correlation) && Apart(b, correlation, id)
  }

  /** Another turn, of id `other`, moved. */
  lemma TrackAside(a: Adapter, b: Adapter, c: string, turn: Option<Turn>, more: seq<Entry>, other: nat, correlation: string, id: nat)
    requires Apart(a, correlation, id) && c != correlation && other != id && a.turns <= b.turns
    requires ActiveOf(b.trackers, c) == turn && (forall d :: d != c ==> ActiveOf(b.trackers, d) == ActiveOf(a.trackers, d))
    requires b.log == a.log + more && AllOf(more, other) && (turn.Some? ==> turn.value.id == other)
    ensures Untouched(a, b, correlation, id)
  {
    OwnAfter(a.log, more, other, id);
    hide Own, AllOf, ActiveOf;
    assert Own(a.log, id) + [] == Own(a.log, id);
  }

  lemma SameTurns(a: Adapter, b: Adapter, correlation: string, id: nat)
    requires Apart(a, correlation, id) && b.log == a.log && b.turns == a.turns
    requires forall d :: ActiveOf(b.trackers, d) == ActiveOf(a.trackers, d)
    ensures Untouched(a, b, correlation, id)
  {
    hide Own, ActiveOf;
  }

  lemma ActiveApart(a: Adapter, c: string, correlation: string, id: nat)
    requires Live(a.trackers, c) && c != correlation && Apart(a, correlation, id)
    ensures ActiveOf(a.trackers, c) == a.trackers[c].active && a.trackers[c].active.value.id != id
  {
    assert ActiveOf(a.trackers, c).Some?;
  }

  lemma AcceptAside(fits: seq<Entry> -> bool, a: Adapter, event: Event, bytes: nat, correlation: string, id: nat)
    requires Unhindered(fits) && Apart(a, correlation, id) && event.correlation != correlation
    ensures Untouched(a, Accept(fits, a, event, bytes), correlation, id)
  {
    var c := event.correlation;
    if Live(a.trackers, c) {
      ActiveApart(a, c, correlation, id);
      var tracker := a.trackers[c];
      var turn := tracker.active.value;
      DeliverShift(fits, turn, a.log, event);
      var alone := DeliverTo(fits, turn, [], event);
      TrackIs(a.trackers, c, tracker, alone.0);
      hide DeliverTo, Track, Untouched, ActiveOf, Own, AllOf, Apart, Unhindered;
      TrackAside(a, Accept(fits, a, event, bytes), c, alone.0, alone.1, turn.id, correlation, id);
    } else {
      EarlyKept(Lookup(a.trackers, c), event, bytes);
      hide AcceptEarly, Own, Unhindered;
      SameTurns(a, Accept(fits, a, event, bytes), correlation, id);
    }
  }

  lemma BeginAside(fits: seq<Entry> -> bool, a: Adapter, c: string, conversation: string, stream: bool, correlation: string, id: nat)
    requires Unhindered(fits) && Apart(a, correlation, id) && c != correlation && !Live(a.trackers, c)
    ensures Untouched(a, Apply(fits, a, BeginTurn(c, conversation, stream)), correlation, id)
  {
    var more, after := BeginIs(fits, a, c, conversation, stream);
    hide *;
    ApartFrom(a, correlation, id);
    TrackAside(a, Apply(fits, a, BeginTurn(c, conversation, stream)), c, after, more, a.turns, correlation, id);
  }

  lemma ApartFrom(a: Adapter, correlation: string, id: nat)
    requires Apart(a, correlation, id)
    ensures a.turns != id
  {
  }

  /** A turn that begins adds its own entries to the log. */
  lemma BeginIs(fits: seq<Entry> -> bool, a: Adapter, c: string, conversation: string, stream: bool) returns (more: seq<Entry>, after: Option<Turn>)
    requires Unhindered(fits) && !Live(a.trackers, c)
    ensures var b := Apply(fits, a, BeginTurn(c, conversation, stream));
      && b.log == a.log + more && AllOf(more, a.turns) && (after.Some? ==> after.value.id == a.turns) && a.turns <= b.turns
      && ActiveOf(b.trackers, c) == after && (forall d :: d != c ==> ActiveOf(b.trackers, d) == ActiveOf(a.trackers, d))
  {
    hide Push, Replay, Kept, Track, ActiveOf, AllOf, Unhindered;
    var tracker := if c in a.trackers then a.trackers[c] else NewTracker(conversation);
    var turn := Turn(a.turns, conversation, 0, stream);
    PushShift(fits, turn, a.log, Accepted(c));
    var start := Push(fits, turn, [], Accepted(c)).1;
    ReplayShift(fits, Some(turn), a.log + start, Kept(tracker), turn.id);
    var played := Replay(fits, Some(turn), [], Kept(tracker));
    AllOfBoth(start, played.1, turn.id);
    TrackIs(a.trackers, c, NewTracker(tracker.conversation), played.0);
    assert a.log + start + played.1 == a.log + (start + played.1);
    more, after := start + played.1, played.0;
  }

  lemma TimeOutAside(fits: seq<Entry> -> bool, a: Adapter, c: string, correlation: string, id: nat)
    requires Apart(a, correlation, id) && c != correlation && Live(a.trackers, c)
    ensures Untouched(a, Apply(fits, a, TimeOut(c)), correlation, id)
  {
    ActiveApart(a, c, correlation, id);
    var turn := a.trackers[c].active.value;
    FinishShift(turn, a.log, Failure(TimedOut), Rejected(turn.id, TimedOut));
    var b := Apply(fits, a, TimeOut(c));
    assert ActiveOf(b.trackers, c) == None && forall d :: d != c ==> ActiveOf(b.trackers, d) == ActiveOf(a.trackers, d);
    hide Finish, Untouched, ActiveOf, Own, AllOf, Apart;
    TrackAside(a, b, c, None, Finish(turn, [], Failure(TimedOut)) + [Rejected(turn.id, TimedOut)], turn.id, correlation, id);
  }

  /** A step that is not for the turn leaves it alone. */
  lemma StepAside(fits: seq<Entry> -> bool, a: Adapter, step: Step, correlation: string, id: nat)
    requires Unhindered(fits) && Apart(a, correlation, id)
    requires if step.CoreEvent? then !(Fresh(a.recent, step) && step.event.correlation == correlation) else step.correlation != correlation
    ensures Untouched(a, Apply(fits, a, step), correlation, id)
  {
    match step
    case CoreEvent(event, bytes) =>
      if Fresh(a.recent, step) {
        AcceptAside(fits, a, event, bytes, correlation, id);
        hide Accept, Own, ActiveOf;
      }
    case BeginTurn(c, conversation, stream) =>
      if !Live(a.trackers, c) {
        BeginAside(fits, a, c, conversation, stream, correlation, id);
      }
    case TimeOut(c) =>
      if Live(a.trackers, c) {
        TimeOutAside(fits, a, c, correlation, id);
      }
    case Expire(c) =>
      if !Live(a.trackers, c) {
        hide Own;
        SameTurns(a, Apply(fits, a, step), correlation, id);
      }
    case Disconnect(c) =>
      if Live(a.trackers, c) {
        ActiveApart(a, c, correlation, id);
        var tracker := a.trackers[c];
        var turn := tracker.active.value.(stream := false);
        TrackIs(a.trackers, c, tracker, Some(turn));
        NothingOf(turn.id);
        assert a.log + [] == a.log;
        hide Own, AllOf, Track, ActiveOf;
        TrackAside(a, Apply(fits, a, step), c, Some(turn), [], turn.id, correlation, id);
      }
  }

  function EventsOf(arrivals: seq<Arrival>): seq<Event> {
    if arrivals == [] then [] else [arrivals[0].event] + EventsOf(arrivals[1..])
  }

  /** The turn and its entries are `turn`, if it is still under way, and `entries`. */
  ghost predicate At(a: Adapter, correlation: string, id: nat, turn: Option<Turn>, entries: seq<Entry>) {
    && Apart(a, correlation, id) && ActiveOf(a.trackers, correlation) == turn && (turn.Some? ==> turn.value.id == id)
    && Own(a.log, id) == entries
  }

  /** An event accepted for the turn is delivered to it; once it is settled it is not touched again. */
  lemma StepOwn(fits: seq<Entry> -> bool, a: Adapter, event: Event, bytes: nat, id: nat, turn: Option<Turn>, entries: seq<Entry>)
    requires Unhindered(fits) && At(a, event.correlation, id, turn, entries) && event.id !in a.recent
    ensures var played := if turn.Some? then DeliverTo(fits, turn.value, [], event) else (None, []);
      At(Apply(fits, a, CoreEvent(event, bytes)), event.correlation, id, played.0, entries + played.1)
  {
    var c := event.correlation;
    if turn.Some? {
      var tracker := a.trackers[c];
      DeliverShift(fits, turn.value, a.log, event);
      var alone := DeliverTo(fits, turn.value, [], event);
      TrackIs(a.trackers, c, tracker, alone.0);
      OwnAfter(a.log, alone.1, id, id);
      hide DeliverTo, Track, Own, AllOf, Unhindered, Remember;
      assert Live(a.trackers, c);
      hide ActiveOf;
    } else {
      EarlyKept(Lookup(a.trackers, c), event, bytes);
      assert !Live(a.trackers, c) && entries + [] == entries;
      hide AcceptEarly, Own, Unhindered, Remember;
      var b := Apply(fits, a, CoreEvent(event, bytes));
      assert b.log == a.log && b.turns == a.turns && forall d :: ActiveOf(b.trackers, d) == ActiveOf(a.trackers, d);
    }
  }

  /**
   A turn under way among any others: what it adds to the log, and what becomes of it, is
   what the events accepted for it would make of it alone.
   */
  lemma {:induction false} LiveRun(fits: seq<Entry> -> bool, a: Adapter, steps: seq<Step>, correlation: string, id: nat, turn: Option<Turn>, entries: seq<Entry>)
    requires Unhindered(fits) && At(a, correlation, id, turn, entries)
    requires forall i :: 0 <= i < |steps| && !steps[i].CoreEvent? ==> steps[i].correlation != correlation
    ensures var played := Replay(fits, turn, [], EventsOf(ArrivalsOf(a.recent, steps, correlation)));
      At(Run(fits, a, steps), correlation, id, played.0, entries + played.1)
    decreases |steps|
  {
    if steps == [] {
      ReplayDone(fits, turn, [], []);
      assert entries + [] == entries;
    } else {
      var step, rest := steps[0], steps[1..];
      var b := Apply(fits, a, step);
      RecentIs(fits, a, step);
      assert forall i :: 0 <= i < |rest| ==> rest[i] == steps[i + 1];
      var later := ArrivalsOf(b.recent, rest, correlation);
      if Fresh(a.recent, step) && step.event.correlation == correlation {
        FirstArrival(step.event, step.bytes, later);
        StepOwn(fits, a, step.event, step.bytes, id, turn, entries);
        var now := if turn.Some? then DeliverTo(fits, turn.value, [], step.event) else (None, []);
        hide Apply, DeliverTo, Replay, EventsOf, At, Unhindered, RecentAfter;
        LiveRun(fits, b, rest, correlation, id, now.0, entries + now.1);
        PlayedOn(fits, turn, step.event, EventsOf(later), id, entries) by {
          TurnIs(a, correlation, id, turn, entries);
        }
      } else {
        StepAside(fits, a, step, correlation, id);
        assert [] + later == later;
        hide Apply, Replay, EventsOf, Unhindered, RecentAfter, Own, ActiveOf, Apart;
        LiveRun(fits, b, rest, correlation, id, turn, entries);
      }
    }
  }

  lemma TurnIs(a: Adapter, correlation: string, id: nat, turn: Option<Turn>, entries: seq<Entry>)
    requires At(a, correlation, id, turn, entries)
    ensures turn.Some? ==> turn.value.id == id
  {
    hide Apart, ActiveOf, Own;
  }

  lemma FirstArrival(event: Event, bytes: nat, later: seq<Arrival>)
    ensures EventsOf([Arrival(event, bytes)] + later) == [event] + EventsOf(later)
  {
    assert ([Arrival(event, bytes)] + later)[1..] == later;
  }

  lemma PlayedOn(fits: seq<Entry> -> bool, turn: Option<Turn>, event: Event, later: seq<Event>, id: nat, entries: seq<Entry>)
    requires Unhindered(fits) && (turn.Some? ==> turn.value.id == id)
    ensures var now := if turn.Some? then DeliverTo(fits, turn.value, [], event) else (None, []);
      var rest := Replay(fits, now.0, [], later);
      Replay(fits, turn, [], [event] + later) == (rest.0, now.1 + rest.1) && entries + now.1 + rest.1 == entries + (now.1 + rest.1)
  {
    hide DeliverTo, Unhindered, AllOf;
    assert ([event] + later)[1..] == later;
    if turn.Some? {
      ReplayFirst(fits, turn.value, [], [event] + later);
      DeliverShift(fits, turn.value, [], event);
      var now := DeliverTo(fits, turn.value, [], event);
      ReplayShift(fits, now.0, now.1, later, id);
      hide Replay;
    } else {
      ReplayDone(fits, turn, [], [event] + later);
      ReplayDone(fits, turn, [], later);
      var none: seq<Entry> := [];
      assert none + none == none && entries + none + none == entries + (none + none);
    }
  }

  // ----- what the client of a live turn sees -----

  /** The highest sequence before event `n`. */
  function Highest(events: seq<Event>, last: nat, n: nat): nat
    requires n <= |events|
  {
    if n == 0 then last
    else if events[n - 1].sequence > Highest(events, last, n - 1) then events[n - 1].sequence
    else Highest(events, last, n - 1)
  }

  lemma {:induction false} HighestIs(events: seq<Event>, last: nat, n: nat)
    requires n <= |events|
    ensures last <= Highest(events, last, n) && forall i :: 0 <= i < n ==> events[i].sequence <= Highest(events, last, n)
    ensures Highest(events, last, n) == last || exists i :: 0 <= i < n && events[i].sequence == Highest(events, last, n)
  {
    if n > 0 {
      HighestIs(events, last, n - 1);
    }
  }

  /** A delta or progress beyond everything before it. */
  predicate Rises(events: seq<Event>, last: nat, i: nat)
    requires i < |events|
  {
    Streamed(events[i]) && last < events[i].sequence && forall j :: 0 <= j < i ==> events[j].sequence < events[i].sequence
  }

  /** Those of the first `n` events, in the order they arrive. */
  function Risen(events: seq<Event>, last: nat, n: nat): seq<Event>
    requires n <= |events|
  {
    if n == 0 then [] else Risen(events, last, n - 1) + if Rises(events, last, n - 1) then [events[n - 1]] else []
  }

  /** Nothing among the first `n` events ends the turn. */
  predicate GoesOn(events: seq<Event>, conversation: string, n: nat)
    requires n <= |events|
  {
    forall i :: 0 <= i < n ==> !Terminal(events[i]) && events[i].conversation == conversation
  }

  lemma {:induction false} ReplayNext(fits: seq<Entry> -> bool, turn: Option<Turn>, log: seq<Entry>, events: seq<Event>, n: nat)
    requires n < |events| && Replay(fits, turn, log, events[..n]).0.Some?
    ensures var before := Replay(fits, turn, log, events[..n]);
      Replay(fits, turn, log, events[..n + 1]) == DeliverTo(fits, before.0.value, before.1, events[n])
    decreases n
  {
    hide DeliverTo;
    if n == 0 {
      var step := DeliverTo(fits, turn.value, log, events[0]);
      assert events[..1][1..] == [] && Replay(fits, step.0, step.1, []) == step;
    } else {
      assert turn.Some?;
      var step := DeliverTo(fits, turn.value, log, events[0]);
      assert events[..n + 1][1..] == events[1..][..n] && events[..n][1..] == events[1..][..n - 1];
      ReplayNext(fits, step.0, step.1, events[1..], n - 1);
    }
  }

  lemma FramesNext(turn: nat, events: seq<Event>, event: Event)
    ensures Frames(turn, events + [event]) == Frames(turn, events) + [Sent(turn, FrameOf(event))]
  {
    hide FrameOf;
  }

  lemma OneShown(fits: seq<Entry> -> bool, turn: Turn, log: seq<Entry>, event: Event)
    requires Unhindered(fits) && turn.stream && !Terminal(event) && event.conversation == turn.conversation
    ensures DeliverTo(fits, turn, log, event) ==
      if event.sequence <= turn.lastSequence then (Some(turn), log)
      else (Some(turn.(lastSequence := event.sequence)), if Streamed(event) then log + [Sent(turn.id, FrameOf(event))] else log)
  {
    var next := turn.(lastSequence := event.sequence);
    PushShift(fits, next, log, FrameOf(event));
  }

  /** While nothing ends the turn its client is sent what rises, in the order it arrives. */
  lemma {:induction false} ShownLive(fits: seq<Entry> -> bool, turn: Turn, events: seq<Event>, n: nat)
    requires Unhindered(fits) && turn.stream && n <= |events| && GoesOn(events, turn.conversation, n)
    ensures Replay(fits, Some(turn), [], events[..n]) ==
      (Some(turn.(lastSequence := Highest(events, turn.lastSequence, n))), Frames(turn.id, Risen(events, turn.lastSequence, n)))
    decreases n
  {
    if n == 0 {
      assert events[..0] == [] && Frames(turn.id, []) == [];
    } else {
      ShownLive(fits, turn, events, n - 1);
      ReplayNext(fits, Some(turn), [], events, n - 1);
      var last, event := Highest(events, turn.lastSequence, n - 1), events[n - 1];
      HighestIs(events, turn.lastSequence, n - 1);
      assert Rises(events, turn.lastSequence, n - 1) <==> Streamed(event) && event.sequence > last;
      var risen := Risen(events, turn.lastSequence, n - 1);
      OneShown(fits, turn.(lastSequence := last), Frames(turn.id, risen), event);
      FramesNext(turn.id, risen, event);
      assert risen + [] == risen;
      hide DeliverTo, Replay, Frames, FrameOf, Highest, Rises;
    }
  }

  /**
   The client of a turn under way, whatever turns run beside it: of the events accepted
   for the turn it is sent, in the order they arrive, each delta and progress beyond all
   before it, up to the first terminal; then that terminal, and nothing after.
   */
  lemma LiveStream(fits: seq<Entry> -> bool, a: Adapter, steps: seq<Step>, correlation: string, turn: Turn, n: nat)
    requires Unhindered(fits) && Apart(a, correlation, turn.id) && ActiveOf(a.trackers, correlation) == Some(turn) && turn.stream
    requires forall i :: 0 <= i < |steps| && !steps[i].CoreEvent? ==> steps[i].correlation != correlation
    requires var events := EventsOf(ArrivalsOf(a.recent, steps, correlation));
      && n <= |events| && GoesOn(events, turn.conversation, n)
      && (n < |events| ==> Terminal(events[n]) && events[n].conversation == turn.conversation)
    ensures var events := EventsOf(ArrivalsOf(a.recent, steps, correlation)); var b := Run(fits, a, steps);
      && (ActiveOf(b.trackers, correlation).Some? <==> n == |events|)
      && Own(b.log, turn.id) == Own(a.log, turn.id) + Frames(turn.id, Risen(events, turn.lastSequence, n))
           + (if n < |events| then [Sent(turn.id, LastFrame(events[n])), Resolved(turn.id, events[n])] else [])
  {
    hide *;
    var events := EventsOf(ArrivalsOf(a.recent, steps, correlation));
    var own, b := Own(a.log, turn.id), Run(fits, a, steps);
    AtStart(a, correlation, turn);
    LiveRun(fits, a, steps, correlation, turn.id, Some(turn), own);
    ShownLive(fits, turn, events, n);
    var shown := Frames(turn.id, Risen(events, turn.lastSequence, n));
    if n < |events| {
      LastShown(fits, turn, events, n, turn.(lastSequence := Highest(events, turn.lastSequence, n)), shown);
      var last := [Sent(turn.id, LastFrame(events[n])), Resolved(turn.id, events[n])];
      assert own + (shown + last) == own + shown + last;
      AtEnd(b, correlation, turn.id, None, own + (shown + last));
    } else {
      assert events[..n] == events && own + shown + [] == own + shown;
      AtEnd(b, correlation, turn.id, Some(turn.(lastSequence := Highest(events, turn.lastSequence, n))), own + shown);
    }
  }

  lemma AtStart(a: Adapter, correlation: string, turn: Turn)
    requires Apart(a, correlation, turn.id) && ActiveOf(a.trackers, correlation) == Some(turn)
    ensures At(a, correlation, turn.id, Some(turn), Own(a.log, turn.id))
  {
    hide Apart, ActiveOf, Own;
  }

  lemma AtEnd(a: Adapter, correlation: string, id: nat, turn: Option<Turn>, entries: seq<Entry>)
    requires At(a, correlation, id, turn, entries)
    ensures ActiveOf(a.trackers, correlation) == turn && Own(a.log, id) == entries
  {
    hide Apart, ActiveOf, Own;
  }

  lemma LastShown(fits: seq<Entry> -> bool, turn: Turn, events: seq<Event>, n: nat, now: Turn, shown: seq<Entry>)
    requires n < |events| && Replay(fits, Some(turn), [], events[..n]) == (Some(now), shown)
    requires now.stream && now.id == turn.id && now.conversation == events[n].conversation && Terminal(events[n])
    ensures Replay(fits, Some(turn), [], events) ==
      (None, shown + [Sent(turn.id, LastFrame(events[n])), Resolved(turn.id, events[n])])
  {
    ReplayNext(fits, Some(turn), [], events, n);
    TerminalSettles(fits, now, shown, events[n]);
    assert shown + [Sent(turn.id, LastFrame(events[n]))] + [Resolved(turn.id, events[n])]
        == shown + [Sent(turn.id, LastFrame(events[n])), Resolved(turn.id, events[n])];
    assert Complete(now, shown, events[n]) == shown + [Sent(turn.id, LastFrame(events[n])), Resolved(turn.id, events[n])];
    hide Replay, DeliverTo, Complete;
    ReplayStops(fits, Some(turn), [], events, n + 1);
  }

  lemma {:induction false} ReplayStops(fits: seq<Entry> -> bool, turn: Option<Turn>, log: seq<Entry>, events: seq<Event>, n: nat)
    requires n <= |events| && Replay(fits, turn, log, events[..n]).0.None?
    ensures Replay(fits, turn, log, events) == Replay(fits, turn, log, events[..n])
    decreases n
  {
    hide DeliverTo;
    if n > 0 && turn.Some? {
      var step := DeliverTo(fits, turn.value, log, events[0]);
      assert events[..n][1..] == events[1..][..n - 1];
      ReplayStops(fits, step.0, step.1, events[1..], n - 1);
    }
  }
}
