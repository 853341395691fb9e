/** Runs of the ingest buffer: isolation, conservation, engagement, lazy expiry. */
module IngestTheorems {
  import opened Wrappers
  import opened AdapterRegistry
  import opened IngestBuffer

  // ----- conversations do not mix -----

  predicate Concerns(call: Call, adapterId: string, conversationKey: string) {
    match call
    case Sweep(_) => true
    case Ingest(a, message, _, _) => a == adapterId && message.conversationKey == conversationKey
    case _ => call.adapterId == adapterId && call.conversationKey == conversationKey
  }

  function Mine(due: seq<Release>, adapterId: string, conversationKey: string): seq<Release> {
    if due == [] then []
    else (if due[0].adapterId == adapterId && due[0].conversationKey == conversationKey then [due[0]] else [])
         + Mine(due[1..], adapterId, conversationKey)
  }

  /** A reply, where a sweep's is cut down to what it reports for one conversation. */
  function ReplyFor(reply: Reply, adapterId: string, conversationKey: string): Reply {
    if reply.Settled? then Settled(Mine(reply.due, adapterId, conversationKey)) else reply
  }

  function Own(calls: seq<Call>, adapterId: string, conversationKey: string): seq<Call> {
    if calls == [] then []
    else (if Concerns(calls[0], adapterId, conversationKey) then [calls[0]] else []) + Own(calls[1..], adapterId, conversationKey)
  }

  function OwnReplies(calls: seq<Call>, replies: seq<Reply>, adapterId: string, conversationKey: string): seq<Reply>
    requires |replies| == |calls|
  {
    if calls == [] then []
    else (if Concerns(calls[0], adapterId, conversationKey) then [ReplyFor(replies[0], adapterId, conversationKey)] else [])
         + OwnReplies(calls[1..], replies[1..], adapterId, conversationKey)
  }

  /** Every backlog holds the records of the conversation its key names. */
  ghost predicate Tidy(b: Buffer) {
    forall key :: key in b.states ==> Filed(key, b.states[key])
  }

  ghost predicate Filed(key: string, s: State) {
    forall r :: r in s.backlog ==> ConversationStorageKey(r.adapterId, r.conversationKey) == key
  }

  lemma ArrivalFiled(cfg: Settings, s: State, call: Call)
    requires call.Ingest?
    requires Filed(ConversationStorageKey(call.adapterId, call.message.conversationKey), s)
    ensures Filed(ConversationStorageKey(call.adapterId, call.message.conversationKey), ApplyOne(cfg, s, call).0)
  {
    hide ConversationStorageKey;
  }

  lemma OthersFiled(cfg: Settings, s: State, call: Call, key: string)
    requires !call.Ingest? && Filed(key, s)
    ensures Filed(key, ApplyOne(cfg, s, call).0) && Filed(key, Swept(cfg, s, call.now))
    ensures s == FRESH && !call.Sweep? ==> ApplyOne(cfg, s, call).0 == FRESH
  {
    hide ConversationStorageKey;
  }

  lemma ApplyKeepsTidy(cfg: Settings, b: Buffer, call: Call)
    requires Ordered(b) && Tidy(b)
    ensures Tidy(Apply(cfg, b, call).0)
  {
    hide ConversationStorageKey, ApplyOne, Swept, SweepReleases, Filed;
    assert Filed("", FRESH) by { FreshIsFiled(""); }
    match call
    case Ingest(adapterId, message, _, _) =>
      FreshIsFiled(ConversationStorageKey(adapterId, message.conversationKey));
      ArrivalFiled(cfg, Held(b, ConversationStorageKey(adapterId, message.conversationKey)), call);
    case _ =>
      forall key | key in b.states
        ensures Filed(key, ApplyOne(cfg, b.states[key], call).0) && Filed(key, Swept(cfg, b.states[key], call.now))
      {
        OthersFiled(cfg, b.states[key], call, key);
      }
  }

  lemma FreshIsFiled(key: string)
    ensures Filed(key, FRESH)
  {
  }

  /** What a sweep reports for a conversation is what its own state releases. */
  lemma {:induction false} MineReleased(cfg: Settings, b: Buffer, keys: seq<string>, now: int, adapterId: string, conversationKey: string)
    requires Tidy(b) && forall i, j :: 0 <= i < j < |keys| ==> keys[i] != keys[j]
    ensures var key := ConversationStorageKey(adapterId, conversationKey);
      Mine(SweepReleases(cfg, b, keys, now), adapterId, conversationKey) == if key in keys then Released(cfg, Held(b, key), now) else []
  {
    var key := ConversationStorageKey(adapterId, conversationKey);
    if keys != [] {
      MineReleased(cfg, b, keys[1..], now, adapterId, conversationKey);
      ReleasedIdentity(cfg, b, keys[0], now, adapterId, conversationKey);
      hide ConversationStorageKey, Released, Tidy;
      var first := Released(cfg, Held(b, keys[0]), now);
      var rest := SweepReleases(cfg, b, keys[1..], now);
      if first == [] {
        assert first + rest == rest;
      } else {
        assert (first + rest)[1..] == rest;
      }
      assert key in keys <==> key == keys[0] || key in keys[1..];
      assert key == keys[0] ==> key !in keys[1..];
    }
  }

  lemma ReleasedIdentity(cfg: Settings, b: Buffer, key: string, now: int, adapterId: string, conversationKey: string)
    requires Tidy(b)
    ensures var released := Released(cfg, Held(b, key), now);
      && |released| <= 1
      && (released != [] ==>
           ((released[0].adapterId == adapterId && released[0].conversationKey == conversationKey)
            <==> key == ConversationStorageKey(adapterId, conversationKey)))
  {
    var released := Released(cfg, Held(b, key), now);
    if released != [] {
      assert Held(b, key).backlog[0] in Held(b, key).backlog;
      StorageKeyInjective(released[0].adapterId, released[0].conversationKey, adapterId, conversationKey);
    }
  }

  /** A call acts on the conversation it concerns as if that were alone, and on no other. */
  lemma StepProjects(cfg: Settings, b: Buffer, call: Call, adapterId: string, conversationKey: string)
    requires Ordered(b) && Tidy(b)
    ensures var key, step := ConversationStorageKey(adapterId, conversationKey), Apply(cfg, b, call);
      if Concerns(call, adapterId, conversationKey)
      then (Held(step.0, key), ReplyFor(step.1, adapterId, conversationKey)) == ApplyOne(cfg, Held(b, key), call)
      else Held(step.0, key) == Held(b, key)
  {
    var key := ConversationStorageKey(adapterId, conversationKey);
    if call.Sweep? {
      MineReleased(cfg, b, b.keys, call.now, adapterId, conversationKey);
      assert Released(cfg, FRESH, call.now) == [] && Swept(cfg, FRESH, call.now) == FRESH;
      hide ConversationStorageKey, SweepReleases, Swept, Released, Tidy;
      assert key in b.keys <==> key in b.states;
    } else {
      var other := if call.Ingest? then (call.adapterId, call.message.conversationKey) else (call.adapterId, call.conversationKey);
      StorageKeyInjective(other.0, other.1, adapterId, conversationKey);
      NoSettlement(cfg, Held(b, key), call);
      hide ConversationStorageKey, ApplyOne, Tidy;
    }
  }

  lemma NoSettlement(cfg: Settings, s: State, call: Call)
    requires !call.Sweep?
    ensures !ApplyOne(cfg, s, call).1.Settled?
    ensures !call.Ingest? && s == FRESH ==> ApplyOne(cfg, s, call).0 == FRESH
  {
  }

  /**
   The whole buffer is its conversations side by side: whatever is called, the replies
   a conversation gets and the state it ends in are those of its own calls alone.
   */
  lemma {:induction false} Isolated(cfg: Settings, b: Buffer, calls: seq<Call>, adapterId: string, conversationKey: string)
    requires Ordered(b) && Tidy(b)
    ensures |Run(cfg, b, calls).1| == |calls|
    ensures var key, run := ConversationStorageKey(adapterId, conversationKey), Run(cfg, b, calls);
      (Held(run.0, key), OwnReplies(calls, run.1, adapterId, conversationKey))
        == RunOne(cfg, Held(b, key), Own(calls, adapterId, conversationKey))
    decreases |calls|
  {
    if calls != [] {
      hide ConversationStorageKey, Apply, ApplyOne, Tidy, Ordered, ReplyFor, Concerns;
      var key := ConversationStorageKey(adapterId, conversationKey);
      var call := calls[0];
      var step := Apply(cfg, b, call);
      ApplyKeepsOrdered(cfg, b, call);
      ApplyKeepsTidy(cfg, b, call);
      StepProjects(cfg, b, call, adapterId, conversationKey);
      Isolated(cfg, step.0, calls[1..], adapterId, conversationKey);
      var own := Own(calls[1..], adapterId, conversationKey);
      assert Run(cfg, b, calls).1[1..] == Run(cfg, step.0, calls[1..]).1;
      if Concerns(call, adapterId, conversationKey) {
        assert ([call] + own)[1..] == own;
      } else {
        assert [] + own == own;
        assert [] + OwnReplies(calls[1..], Run(cfg, step.0, calls[1..]).1, adapterId, conversationKey)
            == OwnReplies(calls[1..], Run(cfg, step.0, calls[1..]).1, adapterId, conversationKey);
      }
    }
  }

  // ----- conservation -----

  /** What an arrival is to be handed on as: its message, part by part, with its adapter and its time. */
  function Verbatim(call: Call): Record
    requires call.Ingest?
  {
    var m := call.message;
    Record(call.adapterId, m.conversationKey, m.messageId, m.body, m.addressed, call.now)
  }

  function Arrivals(calls: seq<Call>): seq<Record> {
    if calls == [] then []
    else (if calls[0].Ingest? then [Verbatim(calls[0])] else []) + Arrivals(calls[1..])
  }

  function Delivered(due: seq<Release>): seq<Record> {
    if due == [] then [] else due[0].records + Delivered(due[1..])
  }

  function FlushedBy(reply: Reply): seq<Record> {
    match reply
    case Activate(_, records) => records
    case Settled(due) => Delivered(due)
    case _ => []
  }

  function Flushed(replies: seq<Reply>): seq<Record> {
    if replies == [] then [] else FlushedBy(replies[0]) + Flushed(replies[1..])
  }

  lemma StepConserves(cfg: Settings, s: State, call: Call)
    ensures var step := ApplyOne(cfg, s, call);
      s.backlog + Arrivals([call]) == FlushedBy(step.1) + step.0.backlog
  {
    assert Delivered([]) == [];
    assert forall r: Release :: Delivered([r]) == r.records + Delivered([]);
  }

  lemma FirstArrival(calls: seq<Call>)
    requires calls != []
    ensures Arrivals(calls) == Arrivals([calls[0]]) + Arrivals(calls[1..])
  {
    assert [calls[0]][1..] == [];
  }

  lemma Regroup<T>(a: seq<T>, b: seq<T>, c: seq<T>, d: seq<T>, e: seq<T>, f: seq<T>, g: seq<T>)
    requires a + b == c + d && d + e == f + g
    ensures a + (b + e) == (c + f) + g
  {
    assert a + (b + e) == (a + b) + e == c + (d + e);
  }

  lemma {:induction false} RunConserves(cfg: Settings, s: State, calls: seq<Call>)
    ensures var run := RunOne(cfg, s, calls); s.backlog + Arrivals(calls) == Flushed(run.1) + run.0.backlog
    decreases |calls|
  {
    if calls != [] {
      var step := ApplyOne(cfg, s, calls[0]);
      var rest := RunOne(cfg, step.0, calls[1..]);
      StepConserves(cfg, s, calls[0]);
      RunConserves(cfg, step.0, calls[1..]);
      hide ApplyOne, FlushedBy;
      FirstArrival(calls);
      assert ([step.1] + rest.1)[1..] == rest.1;
      hide Arrivals, Flushed;
      Regroup(s.backlog, Arrivals([calls[0]]), FlushedBy(step.1), step.0.backlog, Arrivals(calls[1..]), Flushed(rest.1), rest.0.backlog);
    }
  }

  /**
   Nothing is lost, repeated, reordered or given to another conversation: whatever the
   calls, what the conversation was handed so far, followed by its backlog, is exactly
   what arrived for it, part by part.
   */
  lemma Conservation(cfg: Settings, calls: seq<Call>, adapterId: string, conversationKey: string)
    ensures |Run(cfg, EMPTY, calls).1| == |calls|
    ensures var run := Run(cfg, EMPTY, calls);
      Flushed(OwnReplies(calls, run.1, adapterId, conversationKey)) + Held(run.0, ConversationStorageKey(adapterId, conversationKey)).backlog
        == Arrivals(Own(calls, adapterId, conversationKey))
  {
    Isolated(cfg, EMPTY, calls, adapterId, conversationKey);
    RunConserves(cfg, FRESH, Own(calls, adapterId, conversationKey));
    hide Run, RunOne, ConversationStorageKey;
    var arrivals := Arrivals(Own(calls, adapterId, conversationKey));
    assert FRESH.backlog + arrivals == arrivals;
  }

  // ----- engagement -----

  /** A call that opened the window or pushed its deadline. */
  predicate Renews(reply: Reply) {
    reply.Activate? || (reply.Settled? && reply.due != []) || (reply.Interacted? && reply.renewed)
  }

  /**
   Renewals leading to the last of them: an addressed arrival first, no gap as long as the
   window, and no dismissal from the first call to the last.
   */
  ghost predicate Chain(cfg: Settings, calls: seq<Call>, replies: seq<Reply>, c: seq<nat>)
    requires |replies| == |calls|
  {
    && c != [] && c[|c| - 1] < |calls|
    && (forall t :: 0 <= t < |c| ==> c[t] < |calls| && Renews(replies[c[t]]))
    && (forall t :: 0 <= t < |c| - 1 ==> c[t] < c[t + 1] && calls[c[t + 1]].now - calls[c[t]].now < cfg.window)
    && calls[c[0]].Ingest? && calls[c[0]].message.addressed
    && NoDismissal(calls, c[0], c[|c| - 1])
  }

  ghost predicate NoDismissal(calls: seq<Call>, from: int, to: int)
    requires to < |calls|
  {
    forall j :: 0 <= from <= j <= to ==> !calls[j].Dismiss?
  }

  /** Some chain ends at `i`. */
  ghost predicate Engaged(cfg: Settings, calls: seq<Call>, replies: seq<Reply>, i: int)
    requires |replies| == |calls|
  {
    exists c :: Chain(cfg, calls, replies, c) && c[|c| - 1] == i
  }

  /** What an open deadline stands for: a chain whose last renewal set it, and no dismissal since. */
  ghost predicate Backed(cfg: Settings, calls: seq<Call>, replies: seq<Reply>, deadline: int)
    requires |replies| == |calls|
  {
    exists i: nat :: i < |calls| && Engaged(cfg, calls, replies, i) && deadline == calls[i].now + cfg.window
      && NoDismissal(calls, i, |calls| - 1)
  }

  lemma ChainKept(cfg: Settings, calls: seq<Call>, replies: seq<Reply>, call: Call, reply: Reply, c: seq<nat>)
    requires |replies| == |calls| && Chain(cfg, calls, replies, c)
    ensures Chain(cfg, calls + [call], replies + [reply], c)
  {
    hide Renews;
    var all := calls + [call];
    assert forall j :: 0 <= j < |calls| ==> all[j] == calls[j];
  }

  lemma EngagedKept(cfg: Settings, calls: seq<Call>, replies: seq<Reply>, call: Call, reply: Reply, i: int)
    requires |replies| == |calls| && Engaged(cfg, calls, replies, i)
    ensures Engaged(cfg, calls + [call], replies + [reply], i)
  {
    hide Renews;
    var c :| Chain(cfg, calls, replies, c) && c[|c| - 1] == i;
    ChainKept(cfg, calls, replies, call, reply, c);
  }

  /** A renewal inside a backed window lengthens the chain. */
  lemma ChainGrows(cfg: Settings, calls: seq<Call>, replies: seq<Reply>, call: Call, reply: Reply, deadline: int)
    requires |replies| == |calls| && Backed(cfg, calls, replies, deadline)
    requires call.now < deadline && Renews(reply) && !call.Dismiss?
    ensures Engaged(cfg, calls + [call], replies + [reply], |calls|)
  {
    var i: nat :| i < |calls| && Engaged(cfg, calls, replies, i) && deadline == calls[i].now + cfg.window
      && NoDismissal(calls, i, |calls| - 1);
    var c :| Chain(cfg, calls, replies, c) && c[|c| - 1] == i;
    ChainExtends(cfg, calls, replies, call, reply, c);
  }

  lemma ChainExtends(cfg: Settings, calls: seq<Call>, replies: seq<Reply>, call: Call, reply: Reply, c: seq<nat>)
    requires |replies| == |calls| && Chain(cfg, calls, replies, c) && NoDismissal(calls, c[|c| - 1], |calls| - 1)
    requires call.now - calls[c[|c| - 1]].now < cfg.window && Renews(reply) && !call.Dismiss?
    ensures Chain(cfg, calls + [call], replies + [reply], c + [|calls|])
  {
    ChainKept(cfg, calls, replies, call, reply, c);
    hide Renews;
    var all, d := calls + [call], c + [|calls|];
    assert d[|d| - 1] == |calls| && d[0] == c[0];
    forall j | c[0] <= j <= |calls| ensures !all[j].Dismiss? {
      if j < |calls| {
        assert all[j] == calls[j];
      }
    }
  }

  lemma ChainStarts(cfg: Settings, calls: seq<Call>, replies: seq<Reply>, call: Call, reply: Reply)
    requires |replies| == |calls| && call.Ingest? && call.message.addressed && Renews(reply)
    ensures Engaged(cfg, calls + [call], replies + [reply], |calls|)
  {
    var c: seq<nat> := [|calls|];
    assert Chain(cfg, calls + [call], replies + [reply], c);
  }

  lemma BackedKept(cfg: Settings, calls: seq<Call>, replies: seq<Reply>, call: Call, reply: Reply, deadline: int)
    requires |replies| == |calls| && Backed(cfg, calls, replies, deadline) && !call.Dismiss?
    ensures Backed(cfg, calls + [call], replies + [reply], deadline)
  {
    hide Engaged;
    var i: nat :| i < |calls| && Engaged(cfg, calls, replies, i) && deadline == calls[i].now + cfg.window
      && NoDismissal(calls, i, |calls| - 1);
    EngagedKept(cfg, calls, replies, call, reply, i);
    assert (calls + [call])[i] == calls[i];
    assert NoDismissal(calls + [call], i, |calls|);
  }

  lemma BackedNow(cfg: Settings, calls: seq<Call>, replies: seq<Reply>, call: Call, reply: Reply)
    requires |replies| == |calls| && Engaged(cfg, calls + [call], replies + [reply], |calls|) && !call.Dismiss?
    ensures Backed(cfg, calls + [call], replies + [reply], call.now + cfg.window)
  {
    hide Engaged;
    assert (calls + [call])[|calls|] == call;
    assert NoDismissal(calls + [call], |calls|, |calls|);
  }

  /** How a call moves the deadline: renewals need an addressed arrival or an active window. */
  lemma DeadlineMoves(cfg: Settings, s: State, call: Call)
    ensures var step := ApplyOne(cfg, s, call);
      && (Renews(step.1) ==> !call.Dismiss? && step.0.windowDeadline == Some(call.now + cfg.window)
                             && ((call.Ingest? && call.message.addressed) || Active(s, call.now)))
      && (!Renews(step.1) && step.0.windowDeadline.Some? ==> step.0.windowDeadline == s.windowDeadline && !call.Dismiss?)
  {
  }

  lemma {:induction false} RunOneSnoc(cfg: Settings, s: State, calls: seq<Call>, call: Call)
    ensures var run, step := RunOne(cfg, s, calls), ApplyOne(cfg, RunOne(cfg, s, calls).0, call);
      |run.1| == |calls| && RunOne(cfg, s, calls + [call]) == (step.0, run.1 + [step.1])
    decreases |calls|
  {
    hide ApplyOne;
    if calls == [] {
      assert calls + [call] == [call] && [call][1..] == [];
      var step := ApplyOne(cfg, s, call);
      assert RunOne(cfg, step.0, [call][1..]) == (step.0, []);
      assert [step.1] + [] == [] + [step.1];
    } else {
      assert (calls + [call])[1..] == calls[1..] + [call];
      var first := ApplyOne(cfg, s, calls[0]);
      RunOneSnoc(cfg, first.0, calls[1..], call);
      var rest := RunOne(cfg, first.0, calls[1..]);
      var last := [ApplyOne(cfg, rest.0, call).1];
      assert [first.1] + (rest.1 + last) == ([first.1] + rest.1) + last;
    }
  }

  lemma {:induction false} EngagedRun(cfg: Settings, calls: seq<Call>)
    ensures var run := RunOne(cfg, FRESH, calls);
      && |run.1| == |calls|
      && (forall i: nat :: i < |calls| && Renews(run.1[i]) ==> Engaged(cfg, calls, run.1, i))
      && (run.0.windowDeadline.Some? ==> Backed(cfg, calls, run.1, run.0.windowDeadline.value))
    decreases |calls|
  {
    if calls != [] {
      hide Engaged, Backed, ApplyOne, RunOne, Renews;
      var n := |calls| - 1;
      var front, call := calls[..n], calls[n];
      assert calls == front + [call];
      EngagedRun(cfg, front);
      var run := RunOne(cfg, FRESH, front);
      RunOneSnoc(cfg, FRESH, front, call);
      var step := ApplyOne(cfg, run.0, call);
      DeadlineMoves(cfg, run.0, call);
      if Renews(step.1) {
        if call.Ingest? && call.message.addressed {
          ChainStarts(cfg, front, run.1, call, step.1);
        } else {
          ChainGrows(cfg, front, run.1, call, step.1, run.0.windowDeadline.value);
        }
        BackedNow(cfg, front, run.1, call, step.1);
      } else if step.0.windowDeadline.Some? {
        BackedKept(cfg, front, run.1, call, step.1, step.0.windowDeadline.value);
      }
      forall i: nat | i < n && Renews(run.1[i]) ensures Engaged(cfg, calls, run.1 + [step.1], i) {
        EngagedKept(cfg, front, run.1, call, step.1, i);
      }
    } else {
      assert RunOne(cfg, FRESH, calls) == (FRESH, []);
    }
  }

  /**
   The agent never speaks up uninvited: every activation by an ambient message, every
   release by a sweep and every renewal by an interaction descends, renewal by renewal,
   from an arrival that addressed it, with no gap as long as the window and no dismissal
   of the conversation in between.
   */
  lemma EngagementSafety(cfg: Settings, calls: seq<Call>, adapterId: string, conversationKey: string)
    ensures |Run(cfg, EMPTY, calls).1| == |calls|
    ensures var own, replies := Own(calls, adapterId, conversationKey), OwnReplies(calls, Run(cfg, EMPTY, calls).1, adapterId, conversationKey);
      && |replies| == |own|
      && forall i: nat :: i < |own| && Renews(replies[i]) ==> Engaged(cfg, own, replies, i)
  {
    Isolated(cfg, EMPTY, calls, adapterId, conversationKey);
    EngagedRun(cfg, Own(calls, adapterId, conversationKey));
    hide Run, RunOne, Own, OwnReplies, Engaged, ConversationStorageKey;
  }

  // ----- lazy expiry -----

  /** The window closes the moment its deadline is reached. */
  function TickTo(s: State, now: int): State {
    if s.windowDeadline.Some? && s.windowDeadline.value <= now then s.(windowDeadline := None) else s
  }

  /** The machine with a window that is open or closed, and never consults a deadline. */
  function ApplyEager(cfg: Settings, before: State, call: Call): (State, Reply) {
    var now := call.now;
    var s := TickTo(before, now);
    var engaged := s.windowDeadline.Some?;
    var renewed := Some(now + cfg.window);
    match call
    case Ingest(adapterId, message, streaming, _) =>
      var record := Verbatim(call);
      var held := s.(backlog := s.backlog + [record], lastArrivalAt := now);
      if message.addressed || (engaged && (cfg.quiet <= 0 || now - s.lastArrivalAt >= cfg.quiet)) then
        var mode := if !streaming then Prompt else if message.addressed then Steer else FollowUp;
        (State([], renewed, now), Activate(mode, held.backlog))
      else (held, Buffered(record, |held.backlog|))
    case Sweep(_) =>
      if cfg.quiet > 0 && engaged && s.backlog != [] && now - s.lastArrivalAt >= cfg.quiet then
        (s.(backlog := [], windowDeadline := renewed), Settled([Release(s.backlog[0].adapterId, s.backlog[0].conversationKey, s.backlog)]))
      else (s, Settled([]))
    case Dismiss(_, _, _) => (s.(windowDeadline := None), Dismissed(engaged))
    case Interact(_, _, _) => (if engaged then s.(windowDeadline := renewed) else s, Interacted(engaged))
    case Inspect(_, _, _) => (s, Status(engaged, |s.backlog|, s.windowDeadline))
  }

  function RunEager(cfg: Settings, s: State, calls: seq<Call>): (State, seq<Reply>)
    decreases |calls|
  {
    if calls == [] then (s, [])
    else
      var step := ApplyEager(cfg, s, calls[0]);
      var rest := RunEager(cfg, step.0, calls[1..]);
      (rest.0, [step.1] + rest.1)
  }

  predicate ClockAscends(from: int, calls: seq<Call>) {
    forall i :: 0 <= i < |calls| ==> from <= calls[i].now && (i > 0 ==> calls[i - 1].now <= calls[i].now)
  }

  lemma EagerStep(cfg: Settings, lazy: State, eager: State, call: Call, from: int)
    requires cfg.window > 0 && from <= call.now && TickTo(lazy, from) == TickTo(eager, from)
    ensures var l, e := ApplyOne(cfg, lazy, call), ApplyEager(cfg, eager, call);
      l.1 == e.1 && TickTo(l.0, call.now) == TickTo(e.0, call.now)
  {
    assert TickTo(lazy, call.now) == TickTo(eager, call.now);
  }

  /**
   With a clock that does not go back, expiring the window lazily cannot be told from
   closing it exactly at its deadline: every reply is the same.
   */
  lemma {:induction false} LazyIsEager(cfg: Settings, lazy: State, eager: State, calls: seq<Call>, from: int)
    requires cfg.window > 0 && TickTo(lazy, from) == TickTo(eager, from) && ClockAscends(from, calls)
    ensures RunOne(cfg, lazy, calls).1 == RunEager(cfg, eager, calls).1
    decreases |calls|
  {
    if calls != [] {
      EagerStep(cfg, lazy, eager, calls[0], from);
      hide ApplyOne, ApplyEager, TickTo;
      forall i | 0 <= i < |calls[1..]| ensures calls[0].now <= calls[1..][i].now && (i > 0 ==> calls[1..][i - 1].now <= calls[1..][i].now) {
        assert calls[1..][i] == calls[i + 1];
        ClockLater(from, calls, i + 1);
      }
      LazyIsEager(cfg, ApplyOne(cfg, lazy, calls[0]).0, ApplyEager(cfg, eager, calls[0]).0, calls[1..], calls[0].now);
    }
  }

  lemma {:induction false} ClockLater(from: int, calls: seq<Call>, i: nat)
    requires ClockAscends(from, calls) && i < |calls|
    ensures calls[0].now <= calls[i].now
  {
    if i > 0 {
      ClockLater(from, calls, i - 1);
    }
  }

  /** The same for a whole buffer and any of its conversations. */
  lemma ExpiryIsExact(cfg: Settings, calls: seq<Call>, adapterId: string, conversationKey: string, from: int)
    requires cfg.window > 0 && ClockAscends(from, Own(calls, adapterId, conversationKey))
    ensures |Run(cfg, EMPTY, calls).1| == |calls|
    ensures OwnReplies(calls, Run(cfg, EMPTY, calls).1, adapterId, conversationKey)
         == RunEager(cfg, FRESH, Own(calls, adapterId, conversationKey)).1
  {
    Isolated(cfg, EMPTY, calls, adapterId, conversationKey);
    LazyIsEager(cfg, FRESH, FRESH, Own(calls, adapterId, conversationKey), from);
    hide Run, RunOne, RunEager, Own, OwnReplies, ConversationStorageKey;
  }
}
