/**
 The delivery code makes only steps of the protocol machine: the retry loop, a
 resume and a redelivery are each a run of it, so everything proved of all runs
 holds of them.
 */
module DeliveryRuns {
  import opened Wrappers
  import opened IdempotencyStore
  import opened DeliveryProtocol
  import opened DeliveryInvariants
  import opened DeliverySafety
  import opened DeliveryTheorems
  import opened DeliveryBounds
  import opened OutboundEmitter

  function StoresOf(s: State): Stores {
    Stores(s.rows, s.out, s.nextRowid)
  }

  lemma OneStep(s: State, step: Step, retries: nat)
    requires Inv(s) && Enabled(s, step) && InSchedule(s, step, retries)
    ensures Exec(s, [step], retries) == Some(Apply(s, step)) && Inv(Apply(s, step))
  {
    hide Inv, Enabled, Apply, InSchedule;
    StepKeepsInv(s, step);
    ExecOne(s, step, retries);
  }

  /** `t` is reached by deliveries of emitter `em`, which leave it `chain` to deliver. */
  ghost predicate Delivering(s: State, t: State, em: Id, chain: seq<Task>) {
    && em in s.emitters
    && t.emitters == s.emitters[em := s.emitters[em].(chain := chain)]
    && t.open == s.open && t.reserved == s.reserved && t.corrs == s.corrs && t.events == s.events
  }

  lemma DeliverShape(s: State, step: DeliverStep)
    requires DeliverEnabled(s, step)
    ensures var t := ApplyDeliver(s, step);
      && Delivering(s, t, step.em, NextChain(s.emitters[step.em].chain, NextTask(s, step)))
      && StoresOf(t) == StoresOf(DeliverEffect(s, step))
  {
    EffectFrame(s, step);
    EffectKnows(s, step);
    hide DeliverEffect, NextTask, DeliverEnabled;
  }

  lemma EffectKnows(s: State, step: DeliverStep)
    requires DeliverEnabled(s, step)
    ensures var t := DeliverEffect(s, step); t.corrs == s.corrs && t.events == s.events
  {
    hide SendCorrelation, FailCorrelation, Update, SetStatus, Hooked, Flown, Landed;
  }

  /** A run of `steps` from `s` to `t`. */
  ghost predicate Runs(s: State, steps: seq<Step>, t: State, retries: nat) {
    Exec(s, steps, retries) == Some(t)
  }

  lemma Then(s: State, steps: seq<Step>, t: State, more: seq<Step>, u: State, retries: nat)
    requires Runs(s, steps, t, retries) && Runs(t, more, u, retries)
    ensures Runs(s, steps + more, u, retries)
    ensures Posted(s, steps + more) == Posted(s, steps) + Posted(t, more)
  {
    ExecAppend(s, steps, more, retries);
    PostedAppend(s, steps, t, more, retries);
  }

  /** The POSTs of a run, each with the adapter's answer. */
  ghost function Posted(s: State, steps: seq<Step>): seq<(Event, Reply)>
    decreases |steps|
  {
    if steps == [] || !Enabled(s, steps[0]) then []
    else PostedBy(s, steps[0]) + Posted(Apply(s, steps[0]), steps[1..])
  }

  ghost function PostedBy(s: State, step: Step): seq<(Event, Reply)>
    requires Enabled(s, step)
  {
    match step
    case Deliver(Post(em, reply)) => [(Head(s, em).event, reply)]
    case _ => []
  }

  lemma {:induction false} PostedAppend(s: State, steps: seq<Step>, t: State, more: seq<Step>, retries: nat)
    requires Runs(s, steps, t, retries)
    ensures Posted(s, steps + more) == Posted(s, steps) + Posted(t, more)
    decreases |steps|
  {
    hide Enabled, Apply, InSchedule, PostedBy;
    if steps == [] {
      assert steps + more == more;
      assert Posted(s, more) == [] + Posted(s, more);
    } else {
      assert (steps + more)[1..] == steps[1..] + more && (steps + more)[0] == steps[0];
      PostedAppend(Apply(s, steps[0]), steps[1..], t, more, retries);
    }
  }

  lemma PostedOne(s: State, step: Step)
    requires Enabled(s, step)
    ensures Posted(s, [step]) == PostedBy(s, step)
  {
    hide Enabled, Apply, PostedBy;
    assert [step][1..] == [];
    assert Posted(Apply(s, step), []) == [];
  }

  /** Every POST of a run is among them. */
  lemma {:induction false} PostedAt(s: State, steps: seq<Step>, i: nat, retries: nat)
    requires Exec(s, steps, retries).Some? && i < |steps| && steps[i].Deliver? && steps[i].delivery.Post?
    ensures Exec(s, steps[..i], retries).Some?
    ensures var u := Exec(s, steps[..i], retries).value;
      Heads(u, steps[i].delivery.em, Ready) && (Head(u, steps[i].delivery.em).event, steps[i].delivery.reply) in Posted(s, steps)
    decreases |steps|
  {
    if i == 0 {
      assert steps[..0] == [];
      assert PostedBy(s, steps[0])[0] in Posted(s, steps);
    } else {
      hide Enabled, Apply, InSchedule, PostedBy;
      assert steps[..i][1..] == steps[1..][..i - 1];
      PostedAt(Apply(s, steps[0]), steps[1..], i - 1, retries);
    }
  }

  /** The POSTs of the code from number `from` on, with the answers its adapter gave to them. */
  function Replied(w: World, posts: seq<Event>, from: nat): seq<(Event, Reply)>
    requires from <= |posts|
  {
    seq(|posts| - from, i requires 0 <= i < |posts| - from => (posts[from + i], w.reply(posts[from + i], from + i)))
  }

  lemma RepliedJoin(w: World, a: seq<Event>, b: seq<Event>, c: seq<Event>)
    requires a <= b <= c
    ensures Replied(w, c, |a|) == Replied(w, b, |a|) + Replied(w, c, |b|)
  {
  }

  lemma RepliedOnce(w: World, posts: seq<Event>, event: Event)
    ensures Replied(w, posts + [event], |posts|) == [(event, w.reply(event, |posts|))]
    ensures Replied(w, posts, |posts|) == []
  {
  }

  // ----- one delivery step -----

  lemma PostStep(s: State, em: Id, reply: Reply, retries: nat) returns (t: State)
    requires Inv(s) && Heads(s, em, Ready) && Head(s, em).attempt <= retries
    ensures Inv(t) && Runs(s, [Step.Deliver(Post(em, reply))], t, retries) && StoresOf(t) == StoresOf(s)
    ensures Posted(s, [Step.Deliver(Post(em, reply))]) == [(Head(s, em).event, reply)]
    ensures Delivering(s, t, em, [Head(s, em).(phase := if reply == Ack then Acked else Refused)] + s.emitters[em].chain[1..])
  {
    hide Inv;
    var step := Post(em, reply);
    OneStep(s, Step.Deliver(step), retries);
    PostedOne(s, Step.Deliver(step));
    DeliverShape(s, step);
    t := ApplyDeliver(s, step);
  }

  lemma MarkStep(s: State, em: Id, retries: nat) returns (t: State)
    requires Inv(s) && Heads(s, em, Acked)
    ensures Inv(t) && Runs(s, [Step.Deliver(MarkDelivered(em))], t, retries)
    ensures Posted(s, [Step.Deliver(MarkDelivered(em))]) == []
    ensures StoresOf(t) == Record(StoresOf(s), Head(s, em).event.id, Delivered, Head(s, em).attempt + 1)
    ensures Delivering(s, t, em, [Head(s, em).(phase := MarkedDelivered)] + s.emitters[em].chain[1..])
  {
    hide Inv;
    var step := MarkDelivered(em);
    OneStep(s, Step.Deliver(step), retries);
    PostedOne(s, Step.Deliver(step));
    DeliverShape(s, step);
    t := ApplyDeliver(s, step);
  }

  lemma RecordStep(s: State, em: Id, retries: nat) returns (t: State)
    requires Inv(s) && Heads(s, em, Refused)
    ensures Inv(t) && Runs(s, [Step.Deliver(RecordAttempt(em))], t, retries)
    ensures Posted(s, [Step.Deliver(RecordAttempt(em))]) == []
    ensures var id := Head(s, em).event.id;
      StoresOf(t) == Record(StoresOf(s), id, StatusOf(StoresOf(s), id), Head(s, em).attempt + 1)
    ensures var h := Head(s, em);
      Delivering(s, t, em, [h.(attempt := h.attempt + 1, phase := Ready)] + s.emitters[em].chain[1..])
  {
    hide Inv;
    var step := RecordAttempt(em);
    OneStep(s, Step.Deliver(step), retries);
    PostedOne(s, Step.Deliver(step));
    DeliverShape(s, step);
    t := ApplyDeliver(s, step);
  }

  lemma ResolveStep(s: State, em: Id, retries: nat) returns (t: State)
    requires Inv(s) && Heads(s, em, Queued)
    ensures Inv(t) && Runs(s, [Step.Deliver(ResolveTarget(em))], t, retries) && StoresOf(t) == StoresOf(s)
    ensures Posted(s, [Step.Deliver(ResolveTarget(em))]) == []
    ensures Delivering(s, t, em, [Head(s, em).(phase := Ready)] + s.emitters[em].chain[1..])
  {
    hide Inv;
    var step := ResolveTarget(em);
    OneStep(s, Step.Deliver(step), retries);
    PostedOne(s, Step.Deliver(step));
    DeliverShape(s, step);
    t := ApplyDeliver(s, step);
  }

  /** The two ways a row becomes a permanent failure: no target, or no attempt left. */
  lemma AbandonStep(s: State, step: DeliverStep, retries: nat) returns (t: State)
    requires Inv(s) && DeliverEnabled(s, step) && (step.NoTarget? || step.Exhaust?)
    requires step.Exhaust? ==> Head(s, step.em).attempt > retries
    ensures Inv(t) && Runs(s, [Step.Deliver(step)], t, retries)
    ensures Posted(s, [Step.Deliver(step)]) == []
    ensures var id := Head(s, step.em).event.id;
      StoresOf(t) == Record(StoresOf(s), id, PermanentFailure, AttemptsOf(StoresOf(s), id))
    ensures Delivering(s, t, step.em, [Head(s, step.em).(phase := MarkedFailed)] + s.emitters[step.em].chain[1..])
  {
    hide Inv;
    OneStep(s, Step.Deliver(step), retries);
    PostedOne(s, Step.Deliver(step));
    DeliverShape(s, step);
    t := ApplyDeliver(s, step);
  }

  lemma SentHookStep(s: State, em: Id, retries: nat) returns (t: State)
    requires Inv(s) && Heads(s, em, MarkedDelivered)
    ensures Inv(t) && Runs(s, [Step.Deliver(SentHook(em))], t, retries)
    ensures Posted(s, [Step.Deliver(SentHook(em))]) == []
    ensures var sent := SentRows(s.rows, s.emitters[em].corr, Head(s, em).event);
      sent.Ok? && StoresOf(t) == StoresOf(s).(rows := sent.value)
    ensures Delivering(s, t, em, s.emitters[em].chain[1..])
  {
    var step := SentHook(em);
    OneStep(s, Step.Deliver(step), retries);
    PostedOne(s, Step.Deliver(step));
    HeadFacts(s, em);
    if Answer(Head(s, em).event.kind) {
      SendSucceeds(s, s.emitters[em].corr, Head(s, em).event);
    }
    hide Inv, SendCorrelation;
    DeliverShape(s, step);
    t := ApplyDeliver(s, step);
  }

  lemma FailedHookStep(s: State, em: Id, error: Id, retries: nat) returns (t: State)
    requires Inv(s) && Heads(s, em, MarkedFailed)
    ensures Inv(t) && Runs(s, [Step.Deliver(FailedHook(em, error))], t, retries)
    ensures Posted(s, [Step.Deliver(FailedHook(em, error))]) == []
    ensures StoresOf(t) == OrElse(StoresOf(s), FailedRows(s.rows, s.emitters[em].corr, Head(s, em).event, error))
    ensures Delivering(s, t, em, s.emitters[em].chain[1..])
  {
    var step := FailedHook(em, error);
    OneStep(s, Step.Deliver(step), retries);
    PostedOne(s, Step.Deliver(step));
    hide Inv, FailCorrelation;
    DeliverShape(s, step);
    t := ApplyDeliver(s, step);
  }

  // ----- one delivery -----

  lemma GivesUp(s: State, step: DeliverStep, w: World) returns (steps: seq<Step>, t: State)
    requires Inv(s) && DeliverEnabled(s, step) && (step.NoTarget? || step.Exhaust?)
    requires step.Exhaust? ==> Head(s, step.em).attempt > w.retries
    ensures Inv(t) && Runs(s, steps, t, w.retries)
    ensures Posted(s, steps) == []
    ensures StoresOf(t) == Abandon(StoresOf(s), s.emitters[step.em].corr, Head(s, step.em).event, w)
    ensures Delivering(s, t, step.em, s.emitters[step.em].chain[1..])
  {
    hide Inv, Runs, FailedRows;
    var marked := AbandonStep(s, step, w.retries);
    t := FailedHookStep(marked, step.em, w.error, w.retries);
    steps := [Step.Deliver(step)] + [Step.Deliver(FailedHook(step.em, w.error))];
    Then(s, [Step.Deliver(step)], marked, [Step.Deliver(FailedHook(step.em, w.error))], t, w.retries);
  }

  lemma Acknowledged(s: State, em: Id, retries: nat) returns (steps: seq<Step>, t: State)
    requires Inv(s) && Heads(s, em, Ready) && Head(s, em).attempt <= retries
    ensures Inv(t) && Runs(s, steps, t, retries) && Posted(s, steps) == [(Head(s, em).event, Ack)]
    ensures var h := Head(s, em);
      var marked := Record(StoresOf(s), h.event.id, Delivered, h.attempt + 1);
      var sent := SentRows(marked.rows, s.emitters[em].corr, h.event);
      sent.Ok? && StoresOf(t) == marked.(rows := sent.value)
    ensures Delivering(s, t, em, s.emitters[em].chain[1..])
  {
    hide Inv, Runs, SentRows, Posted, Record, Enabled, Apply;
    var s1 := PostStep(s, em, Ack, retries);
    var s2 := MarkStep(s1, em, retries);
    t := SentHookStep(s2, em, retries);
    var a, b, c := Step.Deliver(Post(em, Ack)), Step.Deliver(MarkDelivered(em)), Step.Deliver(SentHook(em));
    Then(s, [a], s1, [b], s2, retries);
    Then(s, [a] + [b], s2, [c], t, retries);
    steps := [a] + [b] + [c];
  }

  lemma RefusedOnce(s: State, em: Id, reply: Reply, retries: nat) returns (steps: seq<Step>, t: State)
    requires Inv(s) && Heads(s, em, Ready) && Head(s, em).attempt <= retries && reply != Ack
    ensures Inv(t) && Runs(s, steps, t, retries) && Posted(s, steps) == [(Head(s, em).event, reply)]
    ensures var h := Head(s, em);
      && StoresOf(t) == Record(StoresOf(s), h.event.id, StatusOf(StoresOf(s), h.event.id), h.attempt + 1)
      && Delivering(s, t, em, [h.(attempt := h.attempt + 1)] + s.emitters[em].chain[1..])
  {
    hide Inv, Runs;
    var s1 := PostStep(s, em, reply, retries);
    t := RecordStep(s1, em, retries);
    var a, b := Step.Deliver(Post(em, reply)), Step.Deliver(RecordAttempt(em));
    Then(s, [a], s1, [b], t, retries);
    steps := [a] + [b];
  }

  /** The retry loop from any attempt on is a run of the machine, with the same POSTs and the adapter's answers to them. */
  lemma {:induction false} SettleRuns(s: State, em: Id, p: Ran, w: World) returns (steps: seq<Step>, t: State)
    requires Inv(s) && Heads(s, em, Ready) && p.stores == StoresOf(s)
    ensures Inv(t) && Runs(s, steps, t, w.retries)
    ensures var q := Settle(p, s.emitters[em].corr, Head(s, em).event, Head(s, em).attempt, w);
      StoresOf(t) == q.stores && p.posts <= q.posts && Posted(s, steps) == Replied(w, q.posts, |p.posts|)
    ensures Delivering(s, t, em, s.emitters[em].chain[1..])
    decreases w.retries + 1 - Head(s, em).attempt
  {
    hide Inv, Runs, SentRows, Abandon;
    var h := Head(s, em);
    var reply := w.reply(h.event, |p.posts|);
    RepliedOnce(w, p.posts, h.event);
    if h.attempt > w.retries {
      steps, t := GivesUp(s, Exhaust(em), w);
    } else if reply == Ack {
      steps, t := Acknowledged(s, em, w.retries);
    } else {
      var first, mid := RefusedOnce(s, em, reply, w.retries);
      var rest: seq<Step>;
      rest, t := SettleRuns(mid, em, Ran(StoresOf(mid), p.posts + [h.event]), w);
      steps := first + rest;
      RepliedJoin(w, p.posts, p.posts + [h.event], Settle(p, s.emitters[em].corr, h.event, h.attempt, w).posts);
      Then(s, first, mid, rest, t, w.retries);
    }
  }

  lemma DeliverRuns(s: State, em: Id, p: Ran, w: World) returns (steps: seq<Step>, t: State)
    requires Inv(s) && Heads(s, em, Queued) && p.stores == StoresOf(s)
    ensures Inv(t) && Runs(s, steps, t, w.retries)
    ensures var q := DeliverOne(p, s.emitters[em].corr, Head(s, em).event, Head(s, em).attempt, w);
      StoresOf(t) == q.stores && p.posts <= q.posts && Posted(s, steps) == Replied(w, q.posts, |p.posts|)
    ensures Delivering(s, t, em, s.emitters[em].chain[1..])
  {
    hide Inv, Runs, Settle, Abandon;
    if w.registered {
      var mid := ResolveStep(s, em, w.retries);
      var rest: seq<Step>;
      rest, t := SettleRuns(mid, em, p, w);
      steps := [Step.Deliver(ResolveTarget(em))] + rest;
      Then(s, [Step.Deliver(ResolveTarget(em))], mid, rest, t, w.retries);
    } else {
      steps, t := GivesUp(s, NoTarget(em), w);
      RepliedOnce(w, p.posts, Head(s, em).event);
    }
  }

  /** So is a whole queue of deliveries. */
  lemma {:induction false} DeliverAllRuns(s: State, em: Id, p: Ran, w: World) returns (steps: seq<Step>, t: State)
    requires Inv(s) && em in s.emitters && p.stores == StoresOf(s)
    requires forall x :: x in s.emitters[em].chain ==> x.durable && x.phase == Queued
    ensures Inv(t) && Runs(s, steps, t, w.retries)
    ensures var q := DeliverAll(p, s.emitters[em].corr, s.emitters[em].chain, w);
      StoresOf(t) == q.stores && p.posts <= q.posts && Posted(s, steps) == Replied(w, q.posts, |p.posts|)
    ensures Delivering(s, t, em, [])
    decreases |s.emitters[em].chain|
  {
    hide Inv, DeliverOne;
    var chain := s.emitters[em].chain;
    if chain == [] {
      steps, t := [], s;
      assert Replied(w, p.posts, |p.posts|) == [];
      assert s.emitters == s.emitters[em := s.emitters[em].(chain := [])];
    } else {
      assert chain[0] in chain;
      var first, mid := DeliverRuns(s, em, p, w);
      var rest: seq<Step>;
      var next := DeliverOne(p, s.emitters[em].corr, chain[0].event, chain[0].attempt, w);
      rest, t := DeliverAllRuns(mid, em, next, w);
      steps := first + rest;
      RepliedJoin(w, p.posts, next.posts, DeliverAll(p, s.emitters[em].corr, chain, w).posts);
      Then(s, first, mid, rest, t, w.retries);
    }
  }
}
