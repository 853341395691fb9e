/** Early events are replayed in order, and every turn is settled at most once. */
module TurnTheorems {
  import opened Wrappers
  import opened TurnTracker

  // ----- what is kept before a turn -----

  datatype Arrival = Arrival(event: Event, bytes: nat)

  /** Core delivers an event again under its id until it is acknowledged; a remembered id is not accepted. */
  predicate Fresh(recent: seq<string>, step: Step) {
    step.CoreEvent? && step.event.id !in recent
  }

  /** The ids remembered after a step: only an accepted event adds one, in place of the oldest past the limit. */
  function RecentAfter(recent: seq<string>, step: Step): seq<string> {
    if Fresh(recent, step) then Remember(recent, step.event.id) else recent
  }

  /** The events accepted for a correlation: those whose id is not remembered when they come. */
  function ArrivalsOf(recent: seq<string>, steps: seq<Step>, correlation: string): seq<Arrival>
    decreases |steps|
  {
    if steps == [] then []
    else
      (if Fresh(recent, steps[0]) && steps[0].event.correlation == correlation then [Arrival(steps[0].event, steps[0].bytes)] else [])
      + ArrivalsOf(RecentAfter(recent, steps[0]), steps[1..], correlation)
  }

  function StreamedOf(arrivals: seq<Arrival>): seq<Event> {
    if arrivals == [] then []
    else (if Streamed(arrivals[0].event) then [arrivals[0].event] else []) + StreamedOf(arrivals[1..])
  }

  function TerminalsOf(arrivals: seq<Arrival>): seq<Event> {
    if arrivals == [] then []
    else (if Terminal(arrivals[0].event) then [arrivals[0].event] else []) + TerminalsOf(arrivals[1..])
  }

  function BytesOf(arrivals: seq<Arrival>): nat {
    if arrivals == [] then 0 else (if Streamed(arrivals[0].event) then arrivals[0].bytes else 0) + BytesOf(arrivals[1..])
  }

  function Gather(tracker: Option<Tracker>, arrivals: seq<Arrival>): Option<Tracker>
    decreases |arrivals|
  {
    if arrivals == [] then tracker else Gather(AcceptEarly(tracker, arrivals[0].event, arrivals[0].bytes), arrivals[1..])
  }

  /** Nothing here begins the correlation's turn or forgets its early events. */
  predicate Before(steps: seq<Step>, correlation: string) {
    forall i :: 0 <= i < |steps| ==>
      !(steps[i].BeginTurn? && steps[i].correlation == correlation) && !(steps[i].Expire? && steps[i].correlation == correlation)
  }

  lemma OtherStep(fits: seq<Entry> -> bool, a: Adapter, step: Step, correlation: string)
    requires !Live(a.trackers, correlation)
    requires !(step.BeginTurn? && step.correlation == correlation) && !(step.Expire? && step.correlation == correlation)
    requires !(Fresh(a.recent, step) && step.event.correlation == correlation)
    ensures Lookup(Apply(fits, a, step).trackers, correlation) == Lookup(a.trackers, correlation)
  {
    hide DeliverTo, Replay, Push, Sorted, AcceptEarly, Remember, Fail;
  }

  lemma OwnArrival(fits: seq<Entry> -> bool, a: Adapter, event: Event, bytes: nat)
    requires event.id !in a.recent && !Live(a.trackers, event.correlation)
    ensures Lookup(Apply(fits, a, CoreEvent(event, bytes)).trackers, event.correlation)
         == AcceptEarly(Lookup(a.trackers, event.correlation), event, bytes)
    ensures !Live(Apply(fits, a, CoreEvent(event, bytes)).trackers, event.correlation)
  {
    EarlyKept(Lookup(a.trackers, event.correlation), event, bytes);
    hide AcceptEarly, Remember;
  }

  lemma EarlyKept(tracker: Option<Tracker>, event: Event, bytes: nat)
    requires tracker.Some? ==> tracker.value.active.None?
    ensures var next := AcceptEarly(tracker, event, bytes);
      (tracker.Some? ==> next.Some?) && (next.Some? ==> next.value.active.None?)
  {
  }

  lemma AcceptKeepsRecent(fits: seq<Entry> -> bool, a: Adapter, event: Event, bytes: nat)
    ensures Accept(fits, a, event, bytes).recent == a.recent
  {
  }

  lemma RecentIs(fits: seq<Entry> -> bool, a: Adapter, step: Step)
    ensures Apply(fits, a, step).recent == RecentAfter(a.recent, step)
  {
    hide Accept, Replay, Push, Sorted, Remember;
    if Fresh(a.recent, step) {
      AcceptKeepsRecent(fits, a, step.event, step.bytes);
    }
  }

  /** Whatever else happens before a turn, its tracker gathers the events that arrive for it. */
  lemma {:induction false} EarlyRun(fits: seq<Entry> -> bool, a: Adapter, steps: seq<Step>, correlation: string)
    requires !Live(a.trackers, correlation) && Before(steps, correlation)
    ensures var b := Run(fits, a, steps);
      !Live(b.trackers, correlation) && Lookup(b.trackers, correlation) == Gather(Lookup(a.trackers, correlation), ArrivalsOf(a.recent, steps, correlation))
    decreases |steps|
  {
    if steps != [] {
      var step, next := steps[0], Apply(fits, a, steps[0]);
      var rest := ArrivalsOf(next.recent, steps[1..], correlation);
      RecentIs(fits, a, step);
      if Fresh(a.recent, step) && step.event.correlation == correlation {
        OwnArrival(fits, a, step.event, step.bytes);
        assert ([Arrival(step.event, step.bytes)] + rest)[1..] == rest;
      } else {
        OtherStep(fits, a, step, correlation);
        assert [] + rest == rest;
      }
      hide Apply, AcceptEarly, RecentAfter;
      assert forall i :: 0 <= i < |steps[1..]| ==> steps[1..][i] == steps[i + 1];
      EarlyRun(fits, next, steps[1..], correlation);
    }
  }

  /** The first event of the least sequence. */
  function Least(best: Option<Event>, events: seq<Event>): Option<Event>
    decreases |events|
  {
    if events == [] then best
    else Least(if best.None? || events[0].sequence < best.value.sequence then Some(events[0]) else best, events[1..])
  }

  /** `e` is in the list, and no earlier event has its sequence. */
  predicate FirstIn(events: seq<Event>, e: Event) {
    events != [] && (events[0] == e || (events[0].sequence != e.sequence && FirstIn(events[1..], e)))
  }

  lemma {:induction false} LeastIs(best: Option<Event>, events: seq<Event>)
    ensures Least(best, events).None? <==> best.None? && events == []
    ensures var least := Least(best, events);
      least.Some? ==>
        && (forall e :: e in events ==> least.value.sequence <= e.sequence)
        && (best.Some? ==> least.value.sequence <= best.value.sequence)
        && (least == best || (FirstIn(events, least.value) && (best.Some? ==> least.value.sequence < best.value.sequence)))
    decreases |events|
  {
    if events != [] {
      LeastIs(if best.None? || events[0].sequence < best.value.sequence then Some(events[0]) else best, events[1..]);
      assert forall e :: e in events <==> e == events[0] || e in events[1..];
    }
  }

  function TerminalIn(tracker: Option<Tracker>): Option<Event> {
    if tracker.Some? then tracker.value.terminal else None
  }

  function BufferIn(tracker: Option<Tracker>): (seq<Event>, nat) {
    if tracker.Some? then (tracker.value.buffered, tracker.value.bufferedBytes) else ([], 0)
  }

  lemma OneEarly(tracker: Option<Tracker>, event: Event, bytes: nat)
    ensures var next, buffer := AcceptEarly(tracker, event, bytes), BufferIn(tracker);
      && TerminalIn(next) == (if Terminal(event) && (TerminalIn(tracker).None? || event.sequence < TerminalIn(tracker).value.sequence) then Some(event) else TerminalIn(tracker))
      && BufferIn(next) == if Streamed(event) && |buffer.0| < EARLY_EVENT_LIMIT && buffer.1 + bytes <= EARLY_EVENT_BYTES
                           then (buffer.0 + [event], buffer.1 + bytes) else buffer
  {
  }

  /** No limit loses a terminal: the first of the least sequence is kept, however much was dropped. */
  lemma {:induction false} TerminalKept(tracker: Option<Tracker>, arrivals: seq<Arrival>)
    ensures TerminalIn(Gather(tracker, arrivals)) == Least(TerminalIn(tracker), TerminalsOf(arrivals))
    decreases |arrivals|
  {
    if arrivals != [] {
      var first := arrivals[0];
      OneEarly(tracker, first.event, first.bytes);
      hide AcceptEarly, Terminal;
      TerminalKept(AcceptEarly(tracker, first.event, first.bytes), arrivals[1..]);
      var rest := TerminalsOf(arrivals[1..]);
      if Terminal(first.event) {
        assert ([first.event] + rest)[1..] == rest;
      } else {
        assert [] + rest == rest;
      }
    }
  }

  /** Within the limits every streamed event is kept, in order of arrival; beyond them only such events. */
  lemma {:induction false} BufferKept(tracker: Option<Tracker>, arrivals: seq<Arrival>)
    ensures var buffer, all := BufferIn(Gather(tracker, arrivals)), BufferIn(tracker).0 + StreamedOf(arrivals);
      && (|all| <= EARLY_EVENT_LIMIT && BufferIn(tracker).1 + BytesOf(arrivals) <= EARLY_EVENT_BYTES ==> buffer.0 == all)
      && (forall e :: e in buffer.0 ==> e in all)
      && (|BufferIn(tracker).0| <= EARLY_EVENT_LIMIT && BufferIn(tracker).1 <= EARLY_EVENT_BYTES
          ==> |buffer.0| <= EARLY_EVENT_LIMIT && buffer.1 <= EARLY_EVENT_BYTES)
    decreases |arrivals|
  {
    var before := BufferIn(tracker).0;
    if arrivals == [] {
      assert before + [] == before;
    } else {
      var first := arrivals[0];
      OneEarly(tracker, first.event, first.bytes);
      hide AcceptEarly, Terminal, Streamed;
      BufferKept(AcceptEarly(tracker, first.event, first.bytes), arrivals[1..]);
      var rest := StreamedOf(arrivals[1..]);
      if Streamed(first.event) {
        assert (before + [first.event]) + rest == before + ([first.event] + rest);
      } else {
        assert before + ([] + rest) == before + rest;
      }
    }
  }

  // ----- the replay -----

  predicate Ascending(events: seq<Event>) {
    forall i, j :: 0 <= i < j < |events| ==> events[i].sequence <= events[j].sequence
  }

  predicate Rising(events: seq<Event>) {
    forall i, j :: 0 <= i < j < |events| ==> events[i].sequence < events[j].sequence
  }

  lemma {:induction false} InsertAscends(x: Event, events: seq<Event>)
    requires Ascending(events)
    ensures Ascending(Insert(x, events))
    ensures forall e :: e in Insert(x, events) <==> e == x || e in events
  {
    if events != [] && events[0].sequence < x.sequence {
      var rest := Insert(x, events[1..]);
      InsertAscends(x, events[1..]);
      forall e | e in rest ensures events[0].sequence <= e.sequence {
        assert e == x || e in events[1..];
      }
    }
  }

  lemma {:induction false} InsertFirst(x: Event, events: seq<Event>, e: Event)
    ensures FirstIn(Insert(x, events), e) <==> e == x || (x.sequence != e.sequence && FirstIn(events, e))
  {
    if events != [] && events[0].sequence < x.sequence {
      InsertFirst(x, events[1..], e);
      assert ([events[0]] + Insert(x, events[1..]))[1..] == Insert(x, events[1..]);
    } else {
      assert ([x] + events)[1..] == events;
    }
  }

  /** The sort orders by sequence, keeps every event, and keeps the first of equal sequences first. */
  lemma {:induction false} SortedIs(events: seq<Event>)
    ensures Ascending(Sorted(events))
    ensures forall e :: e in Sorted(events) <==> e in events
    ensures forall e :: FirstIn(Sorted(events), e) <==> FirstIn(events, e)
  {
    if events != [] {
      hide Ascending;
      SortedIs(events[1..]);
      InsertAscends(events[0], Sorted(events[1..]));
      forall e ensures FirstIn(Sorted(events), e) <==> FirstIn(events, e) {
        InsertFirst(events[0], Sorted(events[1..]), e);
      }
      assert forall e :: e in events <==> e == events[0] || e in events[1..];
    } else {
      assert Sorted(events) == [];
    }
  }

  /** The events at or below a bound. */
  function Upto(events: seq<Event>, bound: nat): seq<Event> {
    if events == [] then [] else (if events[0].sequence <= bound then [events[0]] else []) + Upto(events[1..], bound)
  }

  function Above(events: seq<Event>, bound: nat): seq<Event> {
    if events == [] then [] else (if events[0].sequence > bound then [events[0]] else []) + Above(events[1..], bound)
  }

  lemma {:induction false} UptoIs(events: seq<Event>, bound: nat)
    ensures forall e :: e in Upto(events, bound) <==> e in events && e.sequence <= bound
    ensures forall e :: FirstIn(Upto(events, bound), e) <==> FirstIn(events, e) && e.sequence <= bound
  {
    if events != [] {
      UptoIs(events[1..], bound);
      assert forall e :: e in events <==> e == events[0] || e in events[1..];
      var rest := Upto(events[1..], bound);
      assert ([events[0]] + rest)[1..] == rest && [] + rest == rest;
    }
  }

  lemma {:induction false} InsertLeft(x: Event, left: seq<Event>, right: seq<Event>)
    requires right != [] && right[0].sequence >= x.sequence
    ensures Insert(x, left + right) == Insert(x, left) + right
  {
    if left == [] {
      assert left + right == right;
    } else {
      assert (left + right)[1..] == left[1..] + right;
      InsertLeft(x, left[1..], right);
    }
  }

  lemma {:induction false} InsertRight(x: Event, left: seq<Event>, right: seq<Event>)
    requires forall e :: e in left ==> e.sequence < x.sequence
    ensures Insert(x, left + right) == left + Insert(x, right)
  {
    if left == [] {
      assert left + right == right;
    } else {
      assert (left + right)[1..] == left[1..] + right;
      assert left[0] in left;
      InsertRight(x, left[1..], right);
    }
  }

  /** A terminal appended last is sorted behind every event up to its sequence. */
  lemma {:induction false} SortedAround(events: seq<Event>, terminal: Event)
    ensures Sorted(events + [terminal])
         == Sorted(Upto(events, terminal.sequence)) + ([terminal] + Sorted(Above(events, terminal.sequence)))
  {
    if events == [] {
      assert events + [terminal] == [terminal] && [terminal][1..] == [];
    } else {
      assert (events + [terminal])[1..] == events[1..] + [terminal];
      SortedAround(events[1..], terminal);
      AroundNext(events[0], events[1..], terminal);
      assert [events[0]] + events[1..] == events;
    }
  }

  lemma InsertAround(x: Event, low: seq<Event>, terminal: Event, high: seq<Event>)
    requires forall e :: e in low ==> e.sequence <= terminal.sequence
    ensures Insert(x, low + ([terminal] + high))
         == if x.sequence <= terminal.sequence then Insert(x, low) + ([terminal] + high) else low + ([terminal] + Insert(x, high))
  {
    if x.sequence <= terminal.sequence {
      InsertLeft(x, low, [terminal] + high);
    } else {
      InsertRight(x, low, [terminal] + high);
      InsertRight(x, [terminal], high);
    }
  }

  /** One more event belongs to one side of the bound. */
  lemma SidesNext(x: Event, events: seq<Event>, bound: nat)
    ensures Upto([x] + events, bound) == (if x.sequence <= bound then [x] else []) + Upto(events, bound)
    ensures Above([x] + events, bound) == (if x.sequence > bound then [x] else []) + Above(events, bound)
  {
    assert ([x] + events)[1..] == events;
  }

  lemma SortedNext(x: Event, events: seq<Event>)
    ensures Sorted([x] + events) == Insert(x, Sorted(events)) && Sorted([] + events) == Sorted(events)
  {
    assert ([x] + events)[1..] == events && [] + events == events;
  }

  lemma AroundNext(x: Event, events: seq<Event>, terminal: Event)
    ensures var bound, all := terminal.sequence, [x] + events;
      Insert(x, Sorted(Upto(events, bound)) + ([terminal] + Sorted(Above(events, bound))))
        == Sorted(Upto(all, bound)) + ([terminal] + Sorted(Above(all, bound)))
  {
    var low, high := Upto(events, terminal.sequence), Above(events, terminal.sequence);
    UptoIs(events, terminal.sequence);
    SortedIs(low);
    hide Upto, Above, Insert, Sorted, FirstIn, Ascending;
    InsertAround(x, Sorted(low), terminal, Sorted(high));
    SidesNext(x, events, terminal.sequence);
    SortedNext(x, low);
    SortedNext(x, high);
  }

  /** The events that raise the sequence. */
  function Raising(events: seq<Event>, last: nat): seq<Event> {
    if events == [] then []
    else if events[0].sequence > last then [events[0]] + Raising(events[1..], events[0].sequence)
    else Raising(events[1..], last)
  }

  lemma AscendingRest(events: seq<Event>)
    requires Ascending(events) && events != []
    ensures Ascending(events[1..]) && forall e :: e in events[1..] ==> e.sequence >= events[0].sequence
  {
  }

  lemma RisingCons(x: Event, rest: seq<Event>)
    requires Rising(rest) && forall e :: e in rest ==> e.sequence > x.sequence
    ensures Rising([x] + rest) && forall e :: e in [x] + rest <==> e == x || e in rest
  {
  }

  lemma {:induction false} RaisingIs(events: seq<Event>, last: nat)
    requires Ascending(events)
    ensures Rising(Raising(events, last))
    ensures forall e :: e in Raising(events, last) <==> FirstIn(events, e) && e.sequence > last
    decreases |events|
  {
    hide Ascending;
    if events != [] {
      hide Rising;
      var x := events[0];
      var next := if x.sequence > last then x.sequence else last;
      AscendingRest(events);
      RaisingIs(events[1..], next);
      FirstIsMember(events[1..]);
      if x.sequence > last {
        RisingCons(x, Raising(events[1..], next));
      }
    }
  }

  lemma {:induction false} FirstIsMember(events: seq<Event>)
    ensures forall e :: FirstIn(events, e) ==> e in events
  {
    if events != [] {
      FirstIsMember(events[1..]);
      assert forall e :: e in events[1..] ==> e in events;
    }
  }

  /** What a stream should show of early events: those at or below the bound, once a sequence, in order. */
  function Shown(events: seq<Event>, bound: nat): seq<Event> {
    Raising(Sorted(Upto(events, bound)), 0)
  }

  /** It rises strictly, and holds exactly the first arrival of every sequence up to the bound. */
  lemma ShownIs(events: seq<Event>, bound: nat)
    ensures Rising(Shown(events, bound))
    ensures forall e :: e in Shown(events, bound) <==> FirstIn(events, e) && e.sequence <= bound
  {
    UptoIs(events, bound);
    SortedIs(Upto(events, bound));
    RaisingIs(Sorted(Upto(events, bound)), 0);
  }

  function FrameOf(event: Event): Frame {
    if event.kind == Delta then DeltaFrame(event) else ProgressFrame(event)
  }

  /** Writing some events to a turn's stream, one by one. */
  function PushAll(fits: seq<Entry> -> bool, turn: Turn, log: seq<Entry>, events: seq<Event>): (Turn, seq<Entry>)
    decreases |events|
  {
    if events == [] then (turn, log)
    else
      var p := Push(fits, turn.(lastSequence := events[0].sequence), log, FrameOf(events[0]));
      PushAll(fits, p.0, p.1, events[1..])
  }

  predicate Replayable(events: seq<Event>, conversation: string) {
    forall e :: e in events ==> Streamed(e) && e.conversation == conversation
  }

  lemma PushKeeps(fits: seq<Entry> -> bool, turn: Turn, log: seq<Entry>, frame: Frame)
    ensures Push(fits, turn, log, frame).0.(stream := turn.stream) == turn
  {
  }

  lemma {:induction false} PushAllKeeps(fits: seq<Entry> -> bool, turn: Turn, log: seq<Entry>, events: seq<Event>)
    ensures var after := PushAll(fits, turn, log, events).0;
      after.id == turn.id && after.conversation == turn.conversation
    decreases |events|
  {
    if events != [] {
      var p := Push(fits, turn.(lastSequence := events[0].sequence), log, FrameOf(events[0]));
      PushKeeps(fits, turn.(lastSequence := events[0].sequence), log, FrameOf(events[0]));
      hide Push, FrameOf;
      PushAllKeeps(fits, p.0, p.1, events[1..]);
    }
  }

  /** Streamed events of the turn's own conversation never settle it; those that raise the sequence are written. */
  lemma {:induction false} ReplayPushes(fits: seq<Entry> -> bool, turn: Turn, log: seq<Entry>, events: seq<Event>, more: seq<Event>)
    requires Replayable(events, turn.conversation)
    ensures var pushed := PushAll(fits, turn, log, Raising(events, turn.lastSequence));
      Replay(fits, Some(turn), log, events + more) == Replay(fits, Some(pushed.0), pushed.1, more)
    decreases |events|
  {
    if events == [] {
      assert events + more == more;
    } else {
      var x := events[0];
      assert x in events && (events + more)[1..] == events[1..] + more;
      var step := DeliverTo(fits, turn, log, x);
      var next := turn.(lastSequence := x.sequence);
      PushKeeps(fits, next, log, FrameOf(x));
      StreamedStep(fits, turn, log, x);
      hide DeliverTo, Push, FrameOf;
      ReplayPushes(fits, step.0.value, step.1, events[1..], more);
      var rest := Raising(events[1..], if x.sequence > turn.lastSequence then x.sequence else turn.lastSequence);
      assert ([x] + rest)[1..] == rest;
    }
  }

  lemma StreamedStep(fits: seq<Entry> -> bool, turn: Turn, log: seq<Entry>, x: Event)
    requires Streamed(x) && x.conversation == turn.conversation
    ensures var p := Push(fits, turn.(lastSequence := x.sequence), log, FrameOf(x));
      DeliverTo(fits, turn, log, x) == if x.sequence > turn.lastSequence then (Some(p.0), p.1) else (Some(turn), log)
  {
  }

  /** A terminal of the turn's conversation settles it, whatever its sequence. */
  lemma TerminalSettles(fits: seq<Entry> -> bool, turn: Turn, log: seq<Entry>, event: Event)
    requires Terminal(event) && event.conversation == turn.conversation
    ensures DeliverTo(fits, turn, log, event) == (None, Complete(turn, log, event))
  {
  }

  lemma ReplayEnds(fits: seq<Entry> -> bool, turn: Turn, log: seq<Entry>, event: Event, more: seq<Event>)
    requires Terminal(event) && event.conversation == turn.conversation
    ensures Replay(fits, Some(turn), log, [event] + more) == (None, Complete(turn, log, event))
  {
    TerminalSettles(fits, turn, log, event);
    hide DeliverTo, Complete;
    assert ([event] + more)[1..] == more;
  }

  lemma ReplayableSorted(events: seq<Event>, bound: nat, conversation: string)
    requires Replayable(events, conversation)
    ensures Replayable(Sorted(Upto(events, bound)), conversation) && Replayable(Sorted(events), conversation)
  {
    UptoIs(events, bound);
    SortedIs(Upto(events, bound));
    SortedIs(events);
  }

  /** A replay that holds a terminal: what is shown up to it, then its settlement, and nothing after. */
  lemma ReplayWithTerminal(fits: seq<Entry> -> bool, turn: Turn, log: seq<Entry>, buffered: seq<Event>, terminal: Event)
    requires Replayable(buffered, turn.conversation) && turn.lastSequence == 0
    requires Terminal(terminal) && terminal.conversation == turn.conversation
    ensures var shown := PushAll(fits, turn, log, Shown(buffered, terminal.sequence));
      Replay(fits, Some(turn), log, Sorted(buffered + [terminal])) == (None, Complete(shown.0, shown.1, terminal))
  {
    var low := Sorted(Upto(buffered, terminal.sequence));
    var rest := [terminal] + Sorted(Above(buffered, terminal.sequence));
    SortedAround(buffered, terminal);
    ReplayableSorted(buffered, terminal.sequence, turn.conversation);
    PushAllKeeps(fits, turn, log, Raising(low, 0));
    hide Replayable, Complete, PushAll, Sorted, Raising, Terminal;
    assert Sorted(buffered + [terminal]) == low + rest;
    ReplayPushes(fits, turn, log, low, rest);
    var pushed := PushAll(fits, turn, log, Raising(low, 0));
    ReplayEnds(fits, pushed.0, pushed.1, terminal, Sorted(Above(buffered, terminal.sequence)));
  }

  /** A replay without one: everything is shown, and the turn goes on. */
  lemma ReplayWithout(fits: seq<Entry> -> bool, turn: Turn, log: seq<Entry>, buffered: seq<Event>)
    requires Replayable(buffered, turn.conversation) && turn.lastSequence == 0
    ensures var shown := PushAll(fits, turn, log, Raising(Sorted(buffered), 0));
      Replay(fits, Some(turn), log, Sorted(buffered)) == (Some(shown.0), shown.1)
  {
    ReplayableSorted(buffered, 0, turn.conversation);
    ReplayPushes(fits, turn, log, Sorted(buffered), []);
    assert Sorted(buffered) + [] == Sorted(buffered);
  }

  /** All early events, once a sequence, in order. */
  function ShownAll(events: seq<Event>): seq<Event> {
    Raising(Sorted(events), 0)
  }

  lemma ShownAllIs(events: seq<Event>)
    ensures Rising(ShownAll(events))
    ensures forall e :: e in ShownAll(events) <==> FirstIn(events, e)
  {
    SortedIs(events);
    RaisingIs(Sorted(events), 0);
  }

  /** Arrivals for one conversation. */
  predicate SameConversation(arrivals: seq<Arrival>, conversation: string) {
    forall x :: x in arrivals ==> x.event.conversation == conversation
  }

  lemma {:induction false} StreamedReplayable(arrivals: seq<Arrival>, conversation: string)
    requires SameConversation(arrivals, conversation)
    ensures Replayable(StreamedOf(arrivals), conversation)
    ensures forall e :: e in TerminalsOf(arrivals) ==> Terminal(e) && e.conversation == conversation
  {
    if arrivals != [] {
      assert arrivals[0] in arrivals;
      StreamedReplayable(arrivals[1..], conversation);
    }
  }

  lemma BeginningIs(fits: seq<Entry> -> bool, b: Adapter, correlation: string, conversation: string, stream: bool)
    requires !Live(b.trackers, correlation)
    ensures var tracker := Lookup(b.trackers, correlation);
      var start := Push(fits, Turn(b.turns, conversation, 0, stream), b.log, Accepted(correlation));
      var kept := BufferIn(tracker).0 + if TerminalIn(tracker).Some? then [TerminalIn(tracker).value] else [];
      var after, end := Apply(fits, b, BeginTurn(correlation, conversation, stream)), Replay(fits, Some(start.0), start.1, Sorted(kept));
      && after.log == end.1 && after.turns == b.turns + 1
      && (if end.0.Some? then correlation in after.trackers && after.trackers[correlation].active == end.0 else correlation !in after.trackers)
  {
    hide Replay, Push, Sorted;
    var nothing: seq<Event> := [];
    assert nothing + [] == [];
  }

  /**
   Events that come before their turn, in any order, each retried any number of times, and
   within the limits, among whatever else the adapter does: when the turn begins, its stream gets the events up to the
   sequence of the kept terminal, each sequence once, in increasing order, then that
   terminal, which settles the turn. With no terminal it gets them all and stays open.
   */
  lemma EarlyReplay(fits: seq<Entry> -> bool, a: Adapter, steps: seq<Step>, correlation: string, conversation: string, stream: bool)
    requires correlation !in a.trackers && Before(steps, correlation)
    requires SameConversation(ArrivalsOf(a.recent, steps, correlation), conversation)
    requires |StreamedOf(ArrivalsOf(a.recent, steps, correlation))| <= EARLY_EVENT_LIMIT
    requires BytesOf(ArrivalsOf(a.recent, steps, correlation)) <= EARLY_EVENT_BYTES
    ensures var arrivals, b := ArrivalsOf(a.recent, steps, correlation), Run(fits, a, steps);
      var events, terminal := StreamedOf(arrivals), Least(None, TerminalsOf(arrivals));
      var after := Apply(fits, b, BeginTurn(correlation, conversation, stream));
      var start := Push(fits, Turn(b.turns, conversation, 0, stream), b.log, Accepted(correlation));
      if terminal.Some? then
        var shown := PushAll(fits, start.0, start.1, Shown(events, terminal.value.sequence));
        after.log == Complete(shown.0, shown.1, terminal.value) && correlation !in after.trackers
      else
        var shown := PushAll(fits, start.0, start.1, ShownAll(events));
        after.log == shown.1 && correlation in after.trackers && after.trackers[correlation].active == Some(shown.0)
  {
    var arrivals, b := ArrivalsOf(a.recent, steps, correlation), Run(fits, a, steps);
    EarlyRun(fits, a, steps, correlation);
    var tracker := Lookup(b.trackers, correlation);
    BufferKept(None, arrivals);
    assert [] + StreamedOf(arrivals) == StreamedOf(arrivals);
    TerminalKept(None, arrivals);
    BeginningIs(fits, b, correlation, conversation, stream);
    StreamedReplayable(arrivals, conversation);
    var turn := Turn(b.turns, conversation, 0, stream);
    var start := Push(fits, turn, b.log, Accepted(correlation));
    PushKeeps(fits, turn, b.log, Accepted(correlation));
    LeastIs(None, TerminalsOf(arrivals));
    FirstIsMember(TerminalsOf(arrivals));
    hide Run, Apply, ArrivalsOf, StreamedOf, TerminalsOf, Push, Sorted, PushAll, Complete, Gather, Before, Replayable, Terminal, FirstIn, Least, Replay;
    if TerminalIn(tracker).Some? {
      ReplayWithTerminal(fits, start.0, start.1, StreamedOf(arrivals), TerminalIn(tracker).value);
    } else {
      assert StreamedOf(arrivals) + [] == StreamedOf(arrivals);
      ReplayWithout(fits, start.0, start.1, StreamedOf(arrivals));
    }
  }

  /**
   However much of a flood of early events was dropped, a terminal among them settles the
   turn as it begins: the first of the least sequence.
   */
  lemma FloodStillSettles(fits: seq<Entry> -> bool, a: Adapter, steps: seq<Step>, correlation: string, conversation: string, stream: bool)
    requires correlation !in a.trackers && Before(steps, correlation)
    requires SameConversation(ArrivalsOf(a.recent, steps, correlation), conversation) && TerminalsOf(ArrivalsOf(a.recent, steps, correlation)) != []
    ensures var terminal, b := Least(None, TerminalsOf(ArrivalsOf(a.recent, steps, correlation))), Run(fits, a, steps);
      var after := Apply(fits, b, BeginTurn(correlation, conversation, stream));
      terminal.Some? && correlation !in after.trackers && after.log != [] && after.log[|after.log| - 1] == Resolved(b.turns, terminal.value)
  {
    var arrivals, b := ArrivalsOf(a.recent, steps, correlation), Run(fits, a, steps);
    EarlyRun(fits, a, steps, correlation);
    var buffered := BufferIn(Lookup(b.trackers, correlation)).0;
    BufferKept(None, arrivals);
    TerminalKept(None, arrivals);
    BeginningIs(fits, b, correlation, conversation, stream);
    StreamedReplayable(arrivals, conversation);
    var turn := Turn(b.turns, conversation, 0, stream);
    var start := Push(fits, turn, b.log, Accepted(correlation));
    PushKeeps(fits, turn, b.log, Accepted(correlation));
    LeastIs(None, TerminalsOf(arrivals));
    FirstIsMember(TerminalsOf(arrivals));
    assert Replayable(buffered, conversation);
    hide Run, Apply, ArrivalsOf, StreamedOf, TerminalsOf, Push, Sorted, PushAll, Gather, Before, Replayable, Terminal, FirstIn, Least, Replay, Finish;
    var terminal := TerminalIn(Lookup(b.trackers, correlation)).value;
    ReplayWithTerminal(fits, start.0, start.1, buffered, terminal);
    PushAllKeeps(fits, start.0, start.1, Shown(buffered, terminal.sequence));
  }

  function Frames(turn: nat, events: seq<Event>): seq<Entry> {
    seq(|events|, i requires 0 <= i < |events| => Sent(turn, FrameOf(events[i])))
  }

  /** When every write fits, an attached stream gets one frame for each event. */
  lemma {:induction false} AllFit(fits: seq<Entry> -> bool, turn: Turn, log: seq<Entry>, events: seq<Event>)
    requires turn.stream && forall l :: fits(l)
    ensures var after := PushAll(fits, turn, log, events); after.0.stream && after.1 == log + Frames(turn.id, events)
    decreases |events|
  {
    if events == [] {
      assert log + Frames(turn.id, events) == log;
    } else {
      var next := turn.(lastSequence := events[0].sequence);
      var p := Push(fits, next, log, FrameOf(events[0]));
      AllFit(fits, p.0, p.1, events[1..]);
      hide FrameOf;
      assert log + Frames(turn.id, events) == (log + [Sent(turn.id, FrameOf(events[0]))]) + Frames(turn.id, events[1..]);
    }
  }

  /** The client's view of a replay: accepted, the events in order, the terminal. */
  lemma EarlyStream(fits: seq<Entry> -> bool, a: Adapter, steps: seq<Step>, correlation: string, conversation: string)
    requires correlation !in a.trackers && Before(steps, correlation)
    requires SameConversation(ArrivalsOf(a.recent, steps, correlation), conversation) && forall l :: fits(l)
    requires |StreamedOf(ArrivalsOf(a.recent, steps, correlation))| <= EARLY_EVENT_LIMIT
    requires BytesOf(ArrivalsOf(a.recent, steps, correlation)) <= EARLY_EVENT_BYTES
    requires TerminalsOf(ArrivalsOf(a.recent, steps, correlation)) != []
    ensures var arrivals, b := ArrivalsOf(a.recent, steps, correlation), Run(fits, a, steps);
      var terminal := Least(None, TerminalsOf(arrivals));
      terminal.Some? && Apply(fits, b, BeginTurn(correlation, conversation, true)).log
        == b.log + [Sent(b.turns, Accepted(correlation))] + Frames(b.turns, Shown(StreamedOf(arrivals), terminal.value.sequence))
           + [Sent(b.turns, LastFrame(terminal.value)), Resolved(b.turns, terminal.value)]
  {
    var arrivals, b := ArrivalsOf(a.recent, steps, correlation), Run(fits, a, steps);
    EarlyReplay(fits, a, steps, correlation, conversation, true);
    LeastIs(None, TerminalsOf(arrivals));
    var turn := Turn(b.turns, conversation, 0, true);
    var start := Push(fits, turn, b.log, Accepted(correlation));
    var shown := Shown(StreamedOf(arrivals), Least(None, TerminalsOf(arrivals)).value.sequence);
    assert start.1 == b.log + [Sent(b.turns, Accepted(correlation))] && start.0 == turn;
    AllFit(fits, start.0, start.1, shown);
    PushAllKeeps(fits, start.0, start.1, shown);
    hide Run, Apply, ArrivalsOf, StreamedOf, TerminalsOf, Push, PushAll, Before, Least, Shown, Frames;
  }

  /** An event of another conversation rejects the turn. */
  lemma MismatchRejects(fits: seq<Entry> -> bool, turn: Turn, log: seq<Entry>, good: seq<Event>, bad: Event, more: seq<Event>)
    requires Replayable(good, turn.conversation) && bad.conversation != turn.conversation
    ensures var pushed := PushAll(fits, turn, log, Raising(good, turn.lastSequence));
      Replay(fits, Some(turn), log, good + ([bad] + more)) == (None, Fail(pushed.0, pushed.1, Mismatched))
  {
    ReplayPushes(fits, turn, log, good, [bad] + more);
    PushAllKeeps(fits, turn, log, Raising(good, turn.lastSequence));
    hide PushAll, Fail, Raising;
    assert ([bad] + more)[1..] == more;
  }

  // ----- runs -----

  predicate Settles(entry: Entry) {
    entry.Resolved? || entry.Rejected?
  }

  predicate Numbered(entry: Entry) {
    entry.Sent? && (entry.frame.DeltaFrame? || entry.frame.ProgressFrame?)
  }

  function Number(entry: Entry): nat
    requires Numbered(entry)
  {
    entry.frame.event.sequence
  }

  /** Nothing follows a turn's settlement, and its sequences rise strictly. */
  ghost predicate Orderly(log: seq<Entry>) {
    && (forall i, j :: 0 <= i < j < |log| && Settles(log[i]) ==> log[j].turn != log[i].turn)
    && (forall i, j ::
          0 <= i < j < |log| && Numbered(log[i]) && Numbered(log[j]) && log[i].turn == log[j].turn ==> Number(log[i]) < Number(log[j]))
  }

  /** The turn is not settled, and nothing beyond its last sequence was written. */
  ghost predicate Open(log: seq<Entry>, turn: Turn) {
    forall i :: 0 <= i < |log| && log[i].turn == turn.id ==> !Settles(log[i]) && (Numbered(log[i]) ==> Number(log[i]) <= turn.lastSequence)
  }

  ghost predicate SettledIn(log: seq<Entry>, turn: nat) {
    exists i :: 0 <= i < |log| && Settles(log[i]) && log[i].turn == turn
  }

  /** The log grew by entries of one turn. */
  ghost predicate Extends(log: seq<Entry>, more: seq<Entry>, turn: nat) {
    log <= more && forall i :: |log| <= i < |more| ==> more[i].turn == turn
  }

  /** What one turn's progress may do to the log. */
  ghost predicate Progresses(log: seq<Entry>, turn: Turn, after: (Option<Turn>, seq<Entry>)) {
    && Orderly(after.1) && Extends(log, after.1, turn.id)
    && (if after.0.Some? then after.0.value.id == turn.id && Open(after.1, after.0.value) else SettledIn(after.1, turn.id))
  }

  lemma PushProgresses(fits: seq<Entry> -> bool, turn: Turn, log: seq<Entry>, frame: Frame, last: nat)
    requires Orderly(log) && Open(log, turn.(lastSequence := last)) && last <= turn.lastSequence
    requires frame.DeltaFrame? || frame.ProgressFrame? ==> last < frame.event.sequence <= turn.lastSequence
    ensures var p := Push(fits, turn, log, frame); Progresses(log, turn, (Some(p.0), p.1))
  {
  }

  lemma SettleProgresses(turn: Turn, log: seq<Entry>, frame: Frame, entry: Entry)
    requires Orderly(log) && Open(log, turn) && Settles(entry) && entry.turn == turn.id && !frame.DeltaFrame? && !frame.ProgressFrame?
    ensures Progresses(log, turn, (None, Finish(turn, log, frame) + [entry]))
  {
    var after := Finish(turn, log, frame) + [entry];
    assert after[|after| - 1] == entry;
  }

  lemma DeliverProgresses(fits: seq<Entry> -> bool, turn: Turn, log: seq<Entry>, event: Event)
    requires Orderly(log) && Open(log, turn)
    ensures Progresses(log, turn, DeliverTo(fits, turn, log, event))
  {
    var next := turn.(lastSequence := event.sequence);
    OpenLater(log, turn, event);
    if event.conversation != turn.conversation {
      SettleProgresses(turn, log, Failure(Mismatched), Rejected(turn.id, Mismatched));
    } else if Terminal(event) {
      SettleProgresses(turn, log, LastFrame(event), Resolved(turn.id, event));
    } else if event.sequence > turn.lastSequence && Streamed(event) {
      PushProgresses(fits, next, log, FrameOf(event), turn.lastSequence);
    }
    hide Orderly, Open, Push;
  }

  lemma OpenLater(log: seq<Entry>, turn: Turn, event: Event)
    requires Open(log, turn)
    ensures event.sequence > turn.lastSequence ==> Open(log, turn.(lastSequence := event.sequence))
    ensures turn.(lastSequence := event.sequence).(lastSequence := turn.lastSequence) == turn
  {
  }

  lemma ProgressTwice(log: seq<Entry>, turn: Turn, middle: (Option<Turn>, seq<Entry>), after: (Option<Turn>, seq<Entry>))
    requires Progresses(log, turn, middle) && middle.0.Some? && Progresses(middle.1, middle.0.value, after)
    ensures Progresses(log, turn, after)
  {
    hide Orderly, Open;
  }

  lemma {:induction false} ReplayProgresses(fits: seq<Entry> -> bool, turn: Turn, log: seq<Entry>, events: seq<Event>)
    requires Orderly(log) && Open(log, turn)
    ensures Progresses(log, turn, Replay(fits, Some(turn), log, events))
    decreases |events|
  {
    if events != [] {
      var step := DeliverTo(fits, turn, log, events[0]);
      DeliverProgresses(fits, turn, log, events[0]);
      hide DeliverTo, Orderly, Open, Extends, SettledIn;
      if step.0.Some? {
        ReplayProgresses(fits, step.0.value, step.1, events[1..]);
        ProgressTwice(log, turn, step, Replay(fits, step.0, step.1, events[1..]));
      }
    }
  }

  function ActiveOf(trackers: map<string, Tracker>, correlation: string): Option<Turn> {
    if correlation in trackers then trackers[correlation].active else None
  }

  ghost predicate Playing(trackers: map<string, Tracker>, turn: nat) {
    exists c :: ActiveOf(trackers, c).Some? && ActiveOf(trackers, c).value.id == turn
  }

  /** What every run keeps. */
  ghost predicate Inv(a: Adapter) {
    && Orderly(a.log)
    && (forall i :: 0 <= i < |a.log| ==> a.log[i].turn < a.turns)
    && (forall c :: ActiveOf(a.trackers, c).Some? ==> ActiveOf(a.trackers, c).value.id < a.turns && Open(a.log, ActiveOf(a.trackers, c).value))
    && (forall c, d ::
          c != d && ActiveOf(a.trackers, c).Some? && ActiveOf(a.trackers, d).Some? ==> ActiveOf(a.trackers, c).value.id != ActiveOf(a.trackers, d).value.id)
    && (forall t: nat :: t < a.turns ==> Playing(a.trackers, t) || SettledIn(a.log, t))
  }

  lemma OpenKept(log: seq<Entry>, more: seq<Entry>, id: nat, other: Turn)
    requires Extends(log, more, id) && other.id != id && Open(log, other)
    ensures Open(more, other)
  {
    hide Settles, Numbered;
  }

  lemma SettledKept(log: seq<Entry>, more: seq<Entry>, id: nat, t: nat)
    requires Extends(log, more, id) && SettledIn(log, t)
    ensures SettledIn(more, t)
  {
    var i :| 0 <= i < |log| && Settles(log[i]) && log[i].turn == t;
    assert more[i] == log[i];
  }

  /** One turn progresses; the others are as they were. */
  lemma TurnMoves(a: Adapter, correlation: string, b: Adapter)
    requires Inv(a) && ActiveOf(a.trackers, correlation).Some? && b.turns == a.turns
    requires Progresses(a.log, ActiveOf(a.trackers, correlation).value, (ActiveOf(b.trackers, correlation), b.log))
    requires forall c :: c != correlation ==> ActiveOf(b.trackers, c) == ActiveOf(a.trackers, c)
    ensures Inv(b)
  {
    hide Orderly, Open, SettledIn, ActiveOf;
    var turn := ActiveOf(a.trackers, correlation).value;
    forall c | c != correlation && ActiveOf(b.trackers, c).Some? ensures Open(b.log, ActiveOf(b.trackers, c).value) {
      OpenKept(a.log, b.log, turn.id, ActiveOf(a.trackers, c).value);
    }
    forall t: nat | t < b.turns ensures Playing(b.trackers, t) || SettledIn(b.log, t) {
      if SettledIn(a.log, t) {
        SettledKept(a.log, b.log, turn.id, t);
      } else {
        StillPlaying(a, correlation, b, t);
      }
    }
    forall i | 0 <= i < |b.log| ensures b.log[i].turn < b.turns {
      assert i < |a.log| ==> b.log[i] == a.log[i];
    }
  }

  lemma StillPlaying(a: Adapter, correlation: string, b: Adapter, t: nat)
    requires Playing(a.trackers, t) && ActiveOf(a.trackers, correlation).Some?
    requires Progresses(a.log, ActiveOf(a.trackers, correlation).value, (ActiveOf(b.trackers, correlation), b.log))
    requires forall c :: c != correlation ==> ActiveOf(b.trackers, c) == ActiveOf(a.trackers, c)
    ensures Playing(b.trackers, t) || SettledIn(b.log, t)
  {
    hide Orderly, Open, SettledIn, Extends, ActiveOf;
    var c :| ActiveOf(a.trackers, c).Some? && ActiveOf(a.trackers, c).value.id == t;
    if ActiveOf(b.trackers, c).Some? {
      assert ActiveOf(b.trackers, c).value.id == t;
    }
  }

  /** No turn is touched. */
  lemma NoTurnMoves(a: Adapter, b: Adapter)
    requires Inv(a) && b.log == a.log && b.turns == a.turns
    requires forall c :: ActiveOf(b.trackers, c) == ActiveOf(a.trackers, c)
    ensures Inv(b)
  {
    hide Orderly, Open, SettledIn, ActiveOf;
    forall t: nat | t < b.turns ensures Playing(b.trackers, t) || SettledIn(b.log, t) {
      if Playing(a.trackers, t) {
        var c :| ActiveOf(a.trackers, c).Some? && ActiveOf(a.trackers, c).value.id == t;
        assert ActiveOf(b.trackers, c).Some? && ActiveOf(b.trackers, c).value.id == t;
      }
    }
  }

  /** A turn is registered. */
  lemma TurnStarts(a: Adapter, correlation: string, turn: Turn, b: Adapter)
    requires Inv(a) && ActiveOf(a.trackers, correlation).None? && turn.id == a.turns
    requires b.log == a.log && b.turns == a.turns + 1 && ActiveOf(b.trackers, correlation) == Some(turn)
    requires forall c :: c != correlation ==> ActiveOf(b.trackers, c) == ActiveOf(a.trackers, c)
    ensures Inv(b)
  {
    assert Open(a.log, turn);
    hide Orderly, Open, SettledIn, ActiveOf;
    forall t: nat | t < b.turns ensures Playing(b.trackers, t) || SettledIn(b.log, t) {
      if t == a.turns {
        assert ActiveOf(b.trackers, correlation).Some? && ActiveOf(b.trackers, correlation).value.id == t;
      } else if Playing(a.trackers, t) {
        var c :| ActiveOf(a.trackers, c).Some? && ActiveOf(a.trackers, c).value.id == t;
        assert ActiveOf(b.trackers, c).Some? && ActiveOf(b.trackers, c).value.id == t;
      }
    }
  }

  lemma TrackIs(trackers: map<string, Tracker>, correlation: string, tracker: Tracker, turn: Option<Turn>)
    ensures ActiveOf(Track(trackers, correlation, tracker, turn), correlation) == turn
    ensures forall c :: c != correlation ==> ActiveOf(Track(trackers, correlation, tracker, turn), c) == ActiveOf(trackers, c)
  {
  }

  lemma AcceptKeepsInv(fits: seq<Entry> -> bool, a: Adapter, event: Event, bytes: nat)
    requires Inv(a)
    ensures Inv(Accept(fits, a, event, bytes))
  {
    var b := Accept(fits, a, event, bytes);
    if Live(a.trackers, event.correlation) {
      var tracker := a.trackers[event.correlation];
      assert ActiveOf(a.trackers, event.correlation) == tracker.active;
      DeliverProgresses(fits, tracker.active.value, a.log, event);
      TrackIs(a.trackers, event.correlation, tracker, DeliverTo(fits, tracker.active.value, a.log, event).0);
      hide DeliverTo, Track, Inv, Progresses;
      TurnMoves(a, event.correlation, b);
    } else {
      EarlyKept(Lookup(a.trackers, event.correlation), event, bytes);
      hide AcceptEarly, Inv;
      NoTurnMoves(a, b);
    }
  }

  lemma BeginKeepsInv(fits: seq<Entry> -> bool, a: Adapter, correlation: string, conversation: string, stream: bool)
    requires Inv(a) && !Live(a.trackers, correlation)
    ensures Inv(Apply(fits, a, BeginTurn(correlation, conversation, stream)))
  {
    var b := Apply(fits, a, BeginTurn(correlation, conversation, stream));
    var tracker := if correlation in a.trackers then a.trackers[correlation] else NewTracker(conversation);
    var turn := Turn(a.turns, conversation, 0, stream);
    var blank := NewTracker(tracker.conversation);
    var begun := a.(trackers := Track(a.trackers, correlation, blank, Some(turn)), turns := a.turns + 1);
    TrackIs(a.trackers, correlation, blank, Some(turn));
    TurnStarts(a, correlation, turn, begun);
    var start := Push(fits, turn, a.log, Accepted(correlation));
    PushProgresses(fits, turn, a.log, Accepted(correlation), 0);
    ReplayProgresses(fits, start.0, start.1, Kept(tracker));
    var after := Replay(fits, Some(start.0), start.1, Kept(tracker));
    ProgressTwice(a.log, turn, (Some(start.0), start.1), after);
    TrackIs(a.trackers, correlation, blank, after.0);
    hide Push, Replay, Kept, Inv, Progresses, Track;
    TurnMoves(begun, correlation, b);
  }

  lemma ApplyKeepsInv(fits: seq<Entry> -> bool, a: Adapter, step: Step)
    requires Inv(a)
    ensures Inv(Apply(fits, a, step))
  {
    var b := Apply(fits, a, step);
    match step
    case CoreEvent(event, bytes) =>
      AcceptKeepsInv(fits, a, event, bytes);
      hide Accept, Inv;
      if event.id !in a.recent {
        NoTurnMoves(Accept(fits, a, event, bytes), b);
      }
    case BeginTurn(correlation, conversation, stream) =>
      if !Live(a.trackers, correlation) {
        BeginKeepsInv(fits, a, correlation, conversation, stream);
      }
    case TimeOut(correlation) =>
      if Live(a.trackers, correlation) {
        var turn := a.trackers[correlation].active.value;
        assert ActiveOf(a.trackers, correlation) == Some(turn);
        SettleProgresses(turn, a.log, Failure(TimedOut), Rejected(turn.id, TimedOut));
        hide Fail, Inv, Progresses;
        assert Fail(turn, a.log, TimedOut) == Finish(turn, a.log, Failure(TimedOut)) + [Rejected(turn.id, TimedOut)] by { FailIs(turn, a.log); }
        TurnMoves(a, correlation, b);
      }
    case Expire(correlation) =>
      if !Live(a.trackers, correlation) {
        hide Inv;
        NoTurnMoves(a, b);
      }
    case Disconnect(correlation) =>
      if Live(a.trackers, correlation) {
        var turn := a.trackers[correlation].active.value;
        assert ActiveOf(a.trackers, correlation) == Some(turn);
        assert Progresses(a.log, turn, (Some(turn.(stream := false)), a.log));
        hide Inv, Progresses;
        TurnMoves(a, correlation, b);
      }
  }

  lemma FailIs(turn: Turn, log: seq<Entry>)
    ensures Fail(turn, log, TimedOut) == Finish(turn, log, Failure(TimedOut)) + [Rejected(turn.id, TimedOut)]
  {
  }

  lemma {:induction false} RunKeepsInv(fits: seq<Entry> -> bool, a: Adapter, steps: seq<Step>)
    requires Inv(a)
    ensures Inv(Run(fits, a, steps))
    decreases |steps|
  {
    if steps != [] {
      ApplyKeepsInv(fits, a, steps[0]);
      hide Apply, Inv;
      RunKeepsInv(fits, Apply(fits, a, steps[0]), steps[1..]);
    }
  }

  /**
   Over any run from the start: the sequences written to a turn's stream rise strictly,
   nothing of a turn follows its settlement, so it is settled at most once, and a turn
   that was begun and is not settled is still being played.
   */
  lemma TurnsAreOrderly(fits: seq<Entry> -> bool, steps: seq<Step>)
    ensures var a := Run(fits, IDLE, steps);
      && Orderly(a.log)
      && (forall t: nat :: t < a.turns ==> (Playing(a.trackers, t) <==> !SettledIn(a.log, t)))
  {
    var a := Run(fits, IDLE, steps);
    assert Inv(IDLE);
    RunKeepsInv(fits, IDLE, steps);
    forall t: nat | t < a.turns && Playing(a.trackers, t) ensures !SettledIn(a.log, t) {
      hide Run;
      var c :| ActiveOf(a.trackers, c).Some? && ActiveOf(a.trackers, c).value.id == t;
      assert Open(a.log, ActiveOf(a.trackers, c).value);
    }
  }

  // ----- what the client is told -----

  /**
   Entry `i` says what happened: a frame has the name of its event's kind, and the last
   frame of a turn is followed by the turn's settlement with that event or for that reason.
   */
  predicate Tells(log: seq<Entry>, i: nat)
    requires i < |log|
  {
    match log[i]
    case Resolved(_, event) => event.kind == Reply || event.kind == Cancelled || event.kind == Error
    case Rejected(_, _) => true
    case Sent(turn, frame) =>
      match frame
      case Accepted(_) => true
      case DeltaFrame(event) => event.kind == Delta
      case ProgressFrame(event) => event.kind == Progress
      case Completed(event) => event.kind == Reply && i + 1 < |log| && log[i + 1] == Resolved(turn, event)
      case Withdrawn(event) => event.kind == Cancelled && i + 1 < |log| && log[i + 1] == Resolved(turn, event)
      case Errored(event) => event.kind == Error && i + 1 < |log| && log[i + 1] == Resolved(turn, event)
      case Failure(reason) => i + 1 < |log| && log[i + 1] == Rejected(turn, reason)
  }

  predicate Told(log: seq<Entry>) {
    forall i | 0 <= i < |log| :: Tells(log, i)
  }

  lemma ToldOn(log: seq<Entry>, more: seq<Entry>)
    requires Told(log) && Told(more)
    ensures Told(log + more)
  {
    forall i | 0 <= i < |log + more| ensures Tells(log + more, i) {
      if i < |log| {
        assert Tells(log, i);
      } else {
        assert Tells(more, i - |log|);
      }
    }
  }

  lemma DeliverTells(fits: seq<Entry> -> bool, turn: Turn, log: seq<Entry>, event: Event)
    requires Told(log)
    ensures Told(DeliverTo(fits, turn, log, event).1)
  {
    var after := DeliverTo(fits, turn, log, event).1;
    if after != log {
      var more := after[|log|..];
      assert after == log + more;
      assert Told(more);
      ToldOn(log, more);
    }
  }

  lemma {:induction false} ReplayTells(fits: seq<Entry> -> bool, turn: Option<Turn>, log: seq<Entry>, events: seq<Event>)
    requires Told(log)
    ensures Told(Replay(fits, turn, log, events).1)
    decreases |events|
  {
    if events != [] && turn.Some? {
      DeliverTells(fits, turn.value, log, events[0]);
      var step := DeliverTo(fits, turn.value, log, events[0]);
      hide DeliverTo, Told;
      ReplayTells(fits, step.0, step.1, events[1..]);
    }
  }

  lemma ApplyTells(fits: seq<Entry> -> bool, a: Adapter, step: Step)
    requires Told(a.log)
    ensures Told(Apply(fits, a, step).log)
  {
    match step
    case CoreEvent(event, bytes) =>
      if Live(a.trackers, event.correlation) {
        DeliverTells(fits, a.trackers[event.correlation].active.value, a.log, event);
        hide DeliverTo, Told;
      }
    case BeginTurn(correlation, conversation, stream) =>
      if !Live(a.trackers, correlation) {
        var tracker := if correlation in a.trackers then a.trackers[correlation] else NewTracker(conversation);
        var start := Push(fits, Turn(a.turns, conversation, 0, stream), a.log, Accepted(correlation));
        ToldOn(a.log, [Sent(a.turns, Accepted(correlation))]);
        ReplayTells(fits, Some(start.0), start.1, Kept(tracker));
        hide Replay, Told;
      }
    case TimeOut(correlation) =>
      if Live(a.trackers, correlation) {
        var turn := a.trackers[correlation].active.value;
        ToldOn(a.log, [Sent(turn.id, Failure(TimedOut)), Rejected(turn.id, TimedOut)]);
        ToldOn(a.log, [Rejected(turn.id, TimedOut)]);
        assert a.log + [Sent(turn.id, Failure(TimedOut))] + [Rejected(turn.id, TimedOut)]
            == a.log + [Sent(turn.id, Failure(TimedOut)), Rejected(turn.id, TimedOut)];
      }
    case _ =>
  }

  /** Over any run a client is told of each event by its own name, and of a turn's end as it was settled. */
  lemma {:induction false} FramesTell(fits: seq<Entry> -> bool, a: Adapter, steps: seq<Step>)
    requires Told(a.log)
    ensures Told(Run(fits, a, steps).log)
    decreases |steps|
  {
    if steps != [] {
      ApplyTells(fits, a, steps[0]);
      hide Apply, Told;
      FramesTell(fits, Apply(fits, a, steps[0]), steps[1..]);
    }
  }
}
