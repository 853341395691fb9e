/**
 The per-conversation ingest buffer (packages/core/src/ingest-buffer.ts): an ambient
 backlog, an engagement window that expires lazily, and a quiet period. The clock
 reading of each call is a parameter.
 */
module IngestBuffer {
  import opened Wrappers
  import opened AdapterRegistry

  /** Length of the engagement window and of the quiet period, in milliseconds. */
  datatype Settings = Settings(window: int, quiet: int)

  /** `body` stands for speaker, text and attachments, copied verbatim. */
  datatype Message = Message(conversationKey: string, messageId: string, body: string, addressed: bool)

  datatype Record = Record(adapterId: string, conversationKey: string, messageId: string, body: string, addressed: bool, receivedAt: int)

  datatype Mode = Prompt | Steer | FollowUp

  datatype State = State(backlog: seq<Record>, windowDeadline: Option<int>, lastArrivalAt: int)

  datatype Release = Release(adapterId: string, conversationKey: string, records: seq<Record>)

  datatype Call =
    | Ingest(adapterId: string, message: Message, streaming: bool, now: int)
    | Sweep(now: int)
    | Dismiss(adapterId: string, conversationKey: string, now: int)
    | Interact(adapterId: string, conversationKey: string, now: int)
    | Inspect(adapterId: string, conversationKey: string, now: int)

  datatype Reply =
    | Buffered(record: Record, backlogDepth: nat)
    | Activate(mode: Mode, records: seq<Record>)
    | Settled(due: seq<Release>)
    | Dismissed(closed: bool)
    | Interacted(renewed: bool)
    | Status(active: bool, backlogDepth: nat, windowDeadline: Option<int>)

  const FRESH := State([], None, 0)

  function ToRecord(adapterId: string, message: Message, receivedAt: int): Record {
    Record(adapterId, message.conversationKey, message.messageId, message.body, message.addressed, receivedAt)
  }

  predicate Active(s: State, now: int) {
    s.windowDeadline.Some? && now < s.windowDeadline.value
  }

  // ----- one conversation -----

  /** What an arrival does to its conversation. */
  function Arrive(cfg: Settings, s: State, record: Record, streaming: bool): (State, Reply) {
    var now := record.receivedAt;
    var kept := State(s.backlog + [record], s.windowDeadline, now);
    var flushed := State([], Some(now + cfg.window), now);
    if record.addressed then (flushed, Activate(if streaming then Steer else Prompt, kept.backlog))
    else if Active(s, now) then
      if cfg.quiet > 0 && now - s.lastArrivalAt < cfg.quiet then (kept, Buffered(record, |kept.backlog|))
      else (flushed, Activate(if streaming then FollowUp else Prompt, kept.backlog))
    else (kept.(windowDeadline := None), Buffered(record, |kept.backlog|))
  }

  predicate Due(cfg: Settings, s: State, now: int) {
    s.backlog != [] && now - s.lastArrivalAt >= cfg.quiet && Active(s, now)
  }

  function Swept(cfg: Settings, s: State, now: int): State {
    if Due(cfg, s, now) then s.(backlog := [], windowDeadline := Some(now + cfg.window)) else s
  }

  function Released(cfg: Settings, s: State, now: int): seq<Release> {
    if Due(cfg, s, now) then [Release(s.backlog[0].adapterId, s.backlog[0].conversationKey, s.backlog)] else []
  }

  /** One call as its conversation sees it. */
  function ApplyOne(cfg: Settings, s: State, call: Call): (State, Reply) {
    match call
    case Ingest(adapterId, message, streaming, now) => Arrive(cfg, s, ToRecord(adapterId, message, now), streaming)
    case Sweep(now) => if cfg.quiet <= 0 then (s, Settled([])) else (Swept(cfg, s, now), Settled(Released(cfg, s, now)))
    case Dismiss(_, _, now) => (s.(windowDeadline := None), Dismissed(Active(s, now)))
    case Interact(_, _, now) =>
      (if Active(s, now) then s.(windowDeadline := Some(now + cfg.window)) else s, Interacted(Active(s, now)))
    case Inspect(_, _, now) =>
      var seen := if Active(s, now) then s else s.(windowDeadline := None);
      (seen, Status(Active(s, now), |s.backlog|, seen.windowDeadline))
  }

  function RunOne(cfg: Settings, s: State, calls: seq<Call>): (State, seq<Reply>)
    decreases |calls|
  {
    if calls == [] then (s, [])
    else
      var step := ApplyOne(cfg, s, calls[0]);
      var rest := RunOne(cfg, step.0, calls[1..]);
      (rest.0, [step.1] + rest.1)
  }

  // ----- the whole buffer -----

  /** The map of states, with its keys in insertion order. */
  datatype Buffer = Buffer(states: map<string, State>, keys: seq<string>)

  const EMPTY := Buffer(map[], [])

  ghost predicate Ordered(b: Buffer) {
    && (forall key :: key in b.keys <==> key in b.states)
    && (forall i, j :: 0 <= i < j < |b.keys| ==> b.keys[i] != b.keys[j])
  }

  function Held(b: Buffer, key: string): State {
    if key in b.states then b.states[key] else FRESH
  }

  function Put(b: Buffer, key: string, s: State): Buffer {
    Buffer(b.states[key := s], if key in b.states then b.keys else b.keys + [key])
  }

  /** Put back only what was there. */
  function Amend(b: Buffer, key: string, s: State): Buffer {
    if key in b.states then b.(states := b.states[key := s]) else b
  }

  function SweepStates(cfg: Settings, states: map<string, State>, now: int): map<string, State> {
    map key | key in states :: Swept(cfg, states[key], now)
  }

  function SweepReleases(cfg: Settings, b: Buffer, keys: seq<string>, now: int): seq<Release> {
    if keys == [] then [] else Released(cfg, Held(b, keys[0]), now) + SweepReleases(cfg, b, keys[1..], now)
  }

  function Apply(cfg: Settings, b: Buffer, call: Call): (Buffer, Reply)
    requires Ordered(b)
  {
    match call
    case Sweep(now) =>
      if cfg.quiet <= 0 then (b, Settled([]))
      else (b.(states := SweepStates(cfg, b.states, now)), Settled(SweepReleases(cfg, b, b.keys, now)))
    case Ingest(adapterId, message, _, _) =>
      var key := ConversationStorageKey(adapterId, message.conversationKey);
      var step := ApplyOne(cfg, Held(b, key), call);
      (Put(b, key, step.0), step.1)
    case _ =>
      var key := ConversationStorageKey(call.adapterId, call.conversationKey);
      var step := ApplyOne(cfg, Held(b, key), call);
      (Amend(b, key, step.0), step.1)
  }

  lemma ApplyKeepsOrdered(cfg: Settings, b: Buffer, call: Call)
    requires Ordered(b)
    ensures Ordered(Apply(cfg, b, call).0)
  {
    hide ConversationStorageKey, ApplyOne, SweepReleases, Swept;
  }

  function Run(cfg: Settings, b: Buffer, calls: seq<Call>): (Buffer, seq<Reply>)
    requires Ordered(b)
    decreases |calls|
  {
    if calls == [] then (b, [])
    else
      ApplyKeepsOrdered(cfg, b, calls[0]);
      var step := Apply(cfg, b, calls[0]);
      var rest := Run(cfg, step.0, calls[1..]);
      (rest.0, [step.1] + rest.1)
  }

  // ----- the class -----

  class IngestBuffer {
    const cfg: Settings
    var states: map<string, State>
    var keys: seq<string>

    constructor (window: int, quiet: int)
      requires window > 0 && quiet >= 0
      ensures cfg == Settings(window, quiet) && Now() == EMPTY && Valid()
    {
      cfg, states, keys := Settings(window, quiet), map[], [];
    }

    function Now(): Buffer
      reads this
    {
      Buffer(states, keys)
    }

    ghost predicate Valid()
      reads this
    {
      Ordered(Now())
    }

    method SetState(key: string, s: State)
      requires Valid()
      modifies this
      ensures Valid() && Now() == Put(old(Now()), key, s)
    {
      if key !in states {
        keys := keys + [key];
      }
      states := states[key := s];
    }

    method Ingest(adapterId: string, message: Message, streaming: bool, now: int) returns (reply: Reply)
      requires Valid()
      modifies this
      ensures Valid()
      ensures var step := Apply(cfg, old(Now()), Call.Ingest(adapterId, message, streaming, now)); Now() == step.0 && reply == step.1
    {
      hide ConversationStorageKey, Ordered;
      var key := ConversationStorageKey(adapterId, message.conversationKey);
      var record := ToRecord(adapterId, message, now);
      var state := if key in states then states[key] else FRESH;
      var sinceLastArrival := now - state.lastArrivalAt;
      state := state.(lastArrivalAt := now);
      if message.addressed {
        var records := state.backlog + [record];
        SetState(key, state.(backlog := [], windowDeadline := Some(now + cfg.window)));
        return Activate(if streaming then Steer else Prompt, records);
      }
      if Active(state, now) {
        if cfg.quiet > 0 && sinceLastArrival < cfg.quiet {
          state := state.(backlog := state.backlog + [record]);
          SetState(key, state);
          return Buffered(record, |state.backlog|);
        }
        var records := state.backlog + [record];
        SetState(key, state.(backlog := [], windowDeadline := Some(now + cfg.window)));
        return Activate(if streaming then FollowUp else Prompt, records);
      }
      state := state.(windowDeadline := None, backlog := state.backlog + [record]);
      SetState(key, state);
      return Buffered(record, |state.backlog|);
    }

    method SweepSettled(now: int) returns (due: seq<Release>)
      requires Valid()
      modifies this
      ensures Valid()
      ensures var step := Apply(cfg, old(Now()), Sweep(now)); Now() == step.0 && Settled(due) == step.1
    {
      hide Released, Swept, Due, SweptUpTo, SweepReleases, Ordered, Active;
      due := [];
      if cfg.quiet <= 0 {
        return;
      }
      ghost var b := Now();
      NothingSwept(cfg, b, now);
      var i := 0;
      while i < |keys|
        invariant 0 <= i <= |keys| && keys == b.keys
        invariant SweptUpTo(cfg, b, states, i, now)
        invariant due + SweepReleases(cfg, b, b.keys[i..], now) == SweepReleases(cfg, b, b.keys, now)
      {
        var key := keys[i];
        SweepNext(cfg, b, states, i, now);
        ReleasesNext(cfg, b, i, now);
        var state := states[key];
        DueOrNot(cfg, state, now);
        if state.backlog != [] && now - state.lastArrivalAt >= cfg.quiet && Active(state, now) {
          var records := state.backlog;
          states := states[key := state.(backlog := [], windowDeadline := Some(now + cfg.window))];
          due := due + [Release(records[0].adapterId, records[0].conversationKey, records)];
        }
        i := i + 1;
      }
      AllSwept(cfg, b, states, now);
    }

    method Dismiss(adapterId: string, conversationKey: string, now: int) returns (closed: bool)
      requires Valid()
      modifies this
      ensures Valid()
      ensures var step := Apply(cfg, old(Now()), Call.Dismiss(adapterId, conversationKey, now)); Now() == step.0 && Dismissed(closed) == step.1
    {
      hide ConversationStorageKey, Ordered;
      var key := ConversationStorageKey(adapterId, conversationKey);
      if key !in states || states[key].windowDeadline.None? {
        assert key in states ==> states[key := states[key]] == states;
        return false;
      }
      closed := Active(states[key], now);
      SetState(key, states[key].(windowDeadline := None));
    }

    method RecordInteraction(adapterId: string, conversationKey: string, now: int) returns (renewed: bool)
      requires Valid()
      modifies this
      ensures Valid()
      ensures var step := Apply(cfg, old(Now()), Interact(adapterId, conversationKey, now)); Now() == step.0 && Interacted(renewed) == step.1
    {
      hide ConversationStorageKey, Ordered;
      var key := ConversationStorageKey(adapterId, conversationKey);
      if key !in states || !Active(states[key], now) {
        assert key in states ==> states[key := states[key]] == states;
        return false;
      }
      SetState(key, states[key].(windowDeadline := Some(now + cfg.window)));
      return true;
    }

    method Inspect(adapterId: string, conversationKey: string, now: int) returns (status: Reply)
      requires Valid()
      modifies this
      ensures Valid()
      ensures var step := Apply(cfg, old(Now()), Call.Inspect(adapterId, conversationKey, now)); Now() == step.0 && status == step.1
    {
      hide ConversationStorageKey, Ordered;
      var key := ConversationStorageKey(adapterId, conversationKey);
      if key !in states {
        return Status(false, 0, None);
      }
      var state := states[key];
      var active := Active(state, now);
      if !active && state.windowDeadline.Some? {
        SetState(key, state.(windowDeadline := None));
      } else {
        assert states[key := state] == states;
      }
      return Status(active, |state.backlog|, if active then state.windowDeadline else None);
    }
  }

  /** The sweep has visited the first `i` keys. */
  ghost predicate SweptUpTo(cfg: Settings, b: Buffer, after: map<string, State>, i: nat, now: int)
    requires i <= |b.keys|
  {
    && after.Keys == b.states.Keys
    && forall key :: key in b.states ==> after[key] == if key in b.keys[..i] then Swept(cfg, b.states[key], now) else b.states[key]
  }

  lemma NothingSwept(cfg: Settings, b: Buffer, now: int)
    requires Ordered(b)
    ensures SweptUpTo(cfg, b, b.states, 0, now) && b.keys[0..] == b.keys
  {
  }

  /** Visiting one more key. */
  lemma SweepNext(cfg: Settings, b: Buffer, after: map<string, State>, i: nat, now: int)
    requires Ordered(b) && i < |b.keys| && SweptUpTo(cfg, b, after, i, now)
    ensures var key := b.keys[i]; key in after && after[key] == Held(b, key)
    ensures SweptUpTo(cfg, b, after[b.keys[i] := Swept(cfg, Held(b, b.keys[i]), now)], i + 1, now)
    ensures after[b.keys[i] := after[b.keys[i]]] == after
  {
    hide Swept;
    var key := b.keys[i];
    assert b.keys[..i + 1] == b.keys[..i] + [key];
    assert key !in b.keys[..i];
  }

  lemma ReleasesNext(cfg: Settings, b: Buffer, i: nat, now: int)
    requires i < |b.keys|
    ensures SweepReleases(cfg, b, b.keys[i..], now) == Released(cfg, Held(b, b.keys[i]), now) + SweepReleases(cfg, b, b.keys[i + 1..], now)
  {
    hide Released;
    assert b.keys[i..][1..] == b.keys[i + 1..];
  }

  lemma DueOrNot(cfg: Settings, s: State, now: int)
    ensures Due(cfg, s, now) <==> s.backlog != [] && now - s.lastArrivalAt >= cfg.quiet && Active(s, now)
    ensures Swept(cfg, s, now) == if Due(cfg, s, now) then s.(backlog := [], windowDeadline := Some(now + cfg.window)) else s
    ensures Released(cfg, s, now)
         == if Due(cfg, s, now) then [Release(s.backlog[0].adapterId, s.backlog[0].conversationKey, s.backlog)] else []
  {
  }

  lemma AllSwept(cfg: Settings, b: Buffer, after: map<string, State>, now: int)
    requires Ordered(b) && SweptUpTo(cfg, b, after, |b.keys|, now)
    ensures after == SweepStates(cfg, b.states, now) && Ordered(b.(states := after))
    ensures SweepReleases(cfg, b, b.keys[|b.keys|..], now) == []
  {
    assert b.keys[..|b.keys|] == b.keys;
    hide Swept;
  }
}
