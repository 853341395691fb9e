/** How many POSTs a durable event can cost when each event has one deliverer at a time. */
module DeliveryBounds {
  import opened Wrappers
  import opened IdempotencyStore
  import opened DeliveryProtocol
  import opened DeliveryInvariants
  import opened DeliverySteps
  import opened DeliverySafety
  import opened DeliveryTheorems

  /** No event is queued on two emitters. */
  ghost predicate Single(s: State) {
    forall a, b, t, u :: a in s.emitters && b in s.emitters && a != b
      && t in s.emitters[a].chain && u in s.emitters[b].chain && t.durable && u.durable
      ==> t.event.id != u.event.id
  }

  function Fly(r: Round): nat {
    if r.flying then 1 else 0
  }

  /** POSTs of a round are exactly the recorded ones, the erased ones and the one in flight. */
  predicate RowRound(row: OutRow, r: Round, crashes: nat, retries: nat) {
    && r.crashesBefore + r.lost <= crashes
    && r.posts == row.attempts + r.lost + Fly(r)
    && row.attempts + Fly(r) <= 1 + retries
    && (row.status != Waiting ==> !r.flying)
  }

  predicate TaskRound(s: State, t: Task) {
    t.durable ==>
      && t.event.id in s.out && t.event.id in s.rounds
      && var row := s.out[t.event.id];
         var r := s.rounds[t.event.id];
         match t.phase
         case MarkedDelivered => row.status == Delivered
         case MarkedFailed => row.status == PermanentFailure
         case Queued => row.status == Waiting && t.attempt == row.attempts && !r.flying
         case Ready => row.status == Waiting && t.attempt == row.attempts && !r.flying
         case Acked => row.status == Waiting && t.attempt == row.attempts && r.flying
         case Refused => row.status == Waiting && t.attempt == row.attempts && r.flying
  }

  /** Some chain's head is waiting for the outcome of a POST of `id` to be recorded. */
  ghost predicate InFlight(s: State, id: Id) {
    exists em :: em in s.emitters && |s.emitters[em].chain| > 0 && FliesAtHead(s.emitters[em].chain[0], id)
  }

  predicate FliesAtHead(t: Task, id: Id) {
    t.durable && t.event.id == id && t.phase in {Acked, Refused}
  }

  ghost predicate ChainRound(s: State, chain: seq<Task>) {
    && (forall t :: t in chain ==> TaskRound(s, t))
    && (forall i :: 0 < i < |chain| ==> chain[i].phase == Queued)
  }

  ghost predicate RoundInv(s: State, retries: nat) {
    && RowsRound(s, retries)
    && (forall id :: id in s.out && s.rounds[id].flying ==> InFlight(s, id))
    && (forall em :: em in s.emitters ==> ChainRound(s, s.emitters[em].chain))
  }

  // ----- delivery steps -----

  /** A delivery step on event `id` leaves every other row and round alone. */
  ghost predicate OnlyTouches(s: State, t: State, id: Id) {
    && t.out.Keys == s.out.Keys && t.rounds.Keys == s.rounds.Keys
    && forall x :: x in s.out && x != id ==> t.out[x] == s.out[x] && (x in s.rounds ==> t.rounds[x] == s.rounds[x])
  }

  lemma EffectTouches(s: State, step: DeliverStep)
    requires DeliverEnabled(s, step)
    ensures OnlyTouches(s, DeliverEffect(s, step), Head(s, step.em).event.id)
  {
    hide SendCorrelation, FailCorrelation, Hooked, Update, OnlyTouches;
    var id := Head(s, step.em).event.id;
    LandedTouches(s.rounds, id);
    forall status, attempts, rounds | rounds in {s.rounds, Landed(s.rounds, id)}
      ensures OnlyTouches(s, Update(s, id, status, attempts).(rounds := rounds), id)
    {
      UpdateTouches(s, id, status, attempts, rounds);
    }
    FlownTouches(s, id);
    NothingTouched(s, DeliverEffect(s, step), id);
  }

  lemma NothingTouched(s: State, t: State, id: Id)
    ensures t.out == s.out && t.rounds == s.rounds ==> OnlyTouches(s, t, id)
  {
  }

  lemma FlownTouches(s: State, id: Id)
    ensures forall t: State :: t.out == s.out && t.rounds == Flown(s.rounds, id) ==> OnlyTouches(s, t, id)
  {
  }

  lemma LandedTouches(rounds: map<Id, Round>, id: Id)
    ensures Landed(rounds, id).Keys == rounds.Keys && forall x :: x in rounds && x != id ==> Landed(rounds, id)[x] == rounds[x]
  {
  }

  lemma UpdateTouches(s: State, id: Id, status: Status, attempts: nat, rounds: map<Id, Round>)
    requires rounds.Keys == s.rounds.Keys && forall x :: x in rounds && x != id ==> rounds[x] == s.rounds[x]
    ensures OnlyTouches(s, Update(s, id, status, attempts).(rounds := rounds), id)
  {
  }

  /** The row, the round and the task a delivery step moves, seen together. */
  lemma EffectRound(s: State, step: DeliverStep, retries: nat)
    requires Inv(s) && DeliverEnabled(s, step) && InSchedule(s, Deliver(step), retries)
    requires RoundInv(s, retries) && Head(s, step.em).durable
    ensures var id := Head(s, step.em).event.id;
      var t := DeliverEffect(s, step);
      && id in t.out && id in t.rounds && RowRound(t.out[id], t.rounds[id], t.crashes, retries)
      && (NextTask(s, step).Some? ==> TaskRound(t, NextTask(s, step).value))
      && (t.rounds[id].flying ==> NextTask(s, step).Some? && FliesAtHead(NextTask(s, step).value, id))
  {
    HeadFacts(s, step.em);
    HeadRoundFacts(s, step.em, retries);
    if step.SentHook? || step.FailedHook? {
      HookRound(s, step);
    }
    hide Inv, RoundInv, DeliverEffect, NextTask;
    if !step.SentHook? && !step.FailedHook? {
      MoveRound(s, step, retries);
    }
  }

  lemma MoveRound(s: State, step: DeliverStep, retries: nat)
    requires DeliverEnabled(s, step) && InSchedule(s, Deliver(step), retries)
    requires Head(s, step.em).durable && !step.SentHook? && !step.FailedHook?
    requires var id := Head(s, step.em).event.id;
      id in s.out && id in s.rounds && TaskRound(s, Head(s, step.em)) && RowRound(s.out[id], s.rounds[id], s.crashes, retries)
    ensures var id := Head(s, step.em).event.id;
      var t := DeliverEffect(s, step);
      && id in t.out && id in t.rounds && RowRound(t.out[id], t.rounds[id], t.crashes, retries)
      && (NextTask(s, step).Some? ==> TaskRound(t, NextTask(s, step).value))
      && (t.rounds[id].flying ==> NextTask(s, step).Some? && FliesAtHead(NextTask(s, step).value, id))
  {
  }

  /** A hook changes rows alone and ends its delivery. */
  lemma HookRound(s: State, step: DeliverStep)
    requires Inv(s) && DeliverEnabled(s, step) && (step.SentHook? || step.FailedHook?)
    ensures var t := DeliverEffect(s, step);
      t.out == s.out && t.rounds == s.rounds && t.crashes == s.crashes && NextTask(s, step).None?
  {
    var e := Head(s, step.em).event;
    HeadFacts(s, step.em);
    if Answer(e.kind) {
      SendSucceeds(s, s.emitters[step.em].corr, e);
    }
    hide Inv, SendCorrelation, FailCorrelation;
  }

  lemma SendSucceeds(s: State, c: Corr, e: Event)
    requires Inv(s) && Answered(s, c, e)
    ensures SendCorrelation(s.rows, c, e.id).Ok?
  {
    SendSettles(s, c, e);
  }

  lemma HeadRoundFacts(s: State, em: Id, retries: nat)
    requires RoundInv(s, retries) && em in s.emitters && |s.emitters[em].chain| > 0
    ensures TaskRound(s, Head(s, em))
    ensures var id := Head(s, em).event.id;
      id in s.out ==> id in s.rounds && RowRound(s.out[id], s.rounds[id], s.crashes, retries)
  {
    assert Head(s, em) in s.emitters[em].chain && ChainRound(s, s.emitters[em].chain);
  }

  /** Any other queued delivery is of another event. */
  lemma OthersDiffer(s: State, em: Id, x: Id, t: Task)
    requires Inv(s) && Single(s) && em in s.emitters && |s.emitters[em].chain| > 0 && Head(s, em).durable
    requires x in s.emitters && t in s.emitters[x].chain && t.durable
    requires x == em ==> t in s.emitters[em].chain[1..]
    ensures t.event.id != Head(s, em).event.id
  {
    if x == em {
      var chain := s.emitters[em].chain;
      assert EmitterInv(s, s.emitters[em]) && chain[0] in chain;
      assert TaskInv(s, s.emitters[em], chain[0]) && TaskInv(s, s.emitters[em], t);
      var i :| 0 < i < |chain| && chain[i] == t;
      assert chain[0].event.sequence < chain[i].event.sequence;
    } else {
      assert Head(s, em) in s.emitters[em].chain;
    }
  }

  lemma ChainUntouched(s: State, u: State, chain: seq<Task>, id: Id)
    requires ChainRound(s, chain) && OnlyTouches(s, u, id)
    requires forall t :: t in chain && t.durable ==> t.event.id != id
    ensures ChainRound(u, chain)
  {
    forall t | t in chain ensures TaskRound(u, t) {
      assert TaskRound(s, t);
    }
  }

  lemma TailRound(s: State, chain: seq<Task>)
    requires ChainRound(s, chain) && |chain| > 0
    ensures ChainRound(s, chain[1..])
  {
    assert forall t :: t in chain[1..] ==> t in chain;
  }

  lemma HeadRound(s: State, t: Task, tail: seq<Task>)
    requires ChainRound(s, tail) && TaskRound(s, t) && (|tail| > 0 ==> tail[0].phase == Queued)
    ensures ChainRound(s, [t] + tail)
  {
    assert forall i :: 0 < i < |[t] + tail| ==> ([t] + tail)[i] == tail[i - 1];
  }

  function NextChain(chain: seq<Task>, next: Option<Task>): seq<Task>
    requires |chain| > 0
  {
    if next.Some? then [next.value] + chain[1..] else chain[1..]
  }

  lemma DeliverKeepsChains(s: State, step: DeliverStep, retries: nat)
    requires Inv(s) && Single(s) && DeliverEnabled(s, step) && InSchedule(s, Deliver(step), retries)
    requires RoundInv(s, retries) && Head(s, step.em).durable
    ensures var t := DeliverEffect(s, step);
      && (forall x :: x in s.emitters && x != step.em ==> ChainRound(t, s.emitters[x].chain))
      && ChainRound(t, NextChain(s.emitters[step.em].chain, NextTask(s, step)))
  {
    hide Inv, Single, DeliverEffect, NextTask, ChainRound, TaskRound, OnlyTouches, InFlight, RowRound;
    var em := step.em;
    var id := Head(s, em).event.id;
    var t := DeliverEffect(s, step);
    var chain := s.emitters[em].chain;
    EffectTouches(s, step);
    EffectRound(s, step, retries);
    EffectFrame(s, step);
    var next := NextTask(s, step);
    forall x | x in s.emitters && x != em ensures ChainRound(t, s.emitters[x].chain) {
      forall y | y in s.emitters[x].chain && y.durable ensures y.event.id != id {
        OthersDiffer(s, em, x, y);
      }
      ChainUntouched(s, t, s.emitters[x].chain, id);
    }
    forall y | y in chain[1..] && y.durable ensures y.event.id != id {
      assert y in chain;
      OthersDiffer(s, em, em, y);
    }
    assert ChainRound(s, chain);
    TailRound(s, chain);
    ChainUntouched(s, t, chain[1..], id);
    if next.Some? {
      QueuedTail(s, chain);
      HeadRound(t, next.value, chain[1..]);
    }
  }

  lemma QueuedTail(s: State, chain: seq<Task>)
    requires ChainRound(s, chain)
    ensures |chain| > 1 ==> chain[1].phase == Queued
  {
  }

  lemma DeliverKeepsRounds(s: State, step: DeliverStep, retries: nat)
    requires Inv(s) && Single(s) && DeliverEnabled(s, step) && InSchedule(s, Deliver(step), retries)
    requires RoundInv(s, retries) && Head(s, step.em).durable
    ensures RoundInv(ApplyDeliver(s, step), retries)
  {
    hide Inv, Single, DeliverEffect, NextTask, RowRound, TaskRound, ChainRound, OnlyTouches, InFlight;
    var em := step.em;
    var id := Head(s, em).event.id;
    var t := DeliverEffect(s, step);
    EffectTouches(s, step);
    EffectRound(s, step, retries);
    EffectFrame(s, step);
    DeliverKeepsChains(s, step, retries);
    var next := NextTask(s, step);
    RowsTouched(s, t, id, retries);
    FlightsAdvance(s, t, em, next);
    ChainsAdvance(t, em, next);
  }

  ghost predicate RowsRound(s: State, retries: nat) {
    forall id :: id in s.out ==> id in s.rounds && RowRound(s.out[id], s.rounds[id], s.crashes, retries)
  }

  lemma RowsTouched(s: State, t: State, id: Id, retries: nat)
    requires RowsRound(s, retries) && OnlyTouches(s, t, id) && t.crashes == s.crashes
    requires id in t.out && id in t.rounds && RowRound(t.out[id], t.rounds[id], t.crashes, retries)
    ensures RowsRound(t, retries)
  {
  }

  lemma ChainsAdvance(t: State, em: Id, next: Option<Task>)
    requires em in t.emitters && |t.emitters[em].chain| > 0
    requires forall x :: x in t.emitters && x != em ==> ChainRound(t, t.emitters[x].chain)
    requires ChainRound(t, NextChain(t.emitters[em].chain, next))
    ensures var u := Advance(t, em, next);
      u.out == t.out && u.rounds == t.rounds && u.crashes == t.crashes
      && forall x :: x in u.emitters ==> ChainRound(u, u.emitters[x].chain)
  {
    var u := Advance(t, em, next);
    assert u.emitters[em].chain == NextChain(t.emitters[em].chain, next);
    forall x | x in u.emitters ensures ChainRound(u, u.emitters[x].chain) {
      SameStores(t, u, u.emitters[x].chain);
    }
  }

  /** Every POST in flight stays at the head of its chain until its outcome is recorded. */
  lemma FlightsAdvance(s: State, t: State, em: Id, next: Option<Task>)
    requires em in s.emitters && |s.emitters[em].chain| > 0 && Head(s, em).durable
    requires t.emitters == s.emitters && OnlyTouches(s, t, Head(s, em).event.id)
    requires forall i :: i in s.out ==> i in s.rounds
    requires forall i :: i in s.out && s.rounds[i].flying ==> InFlight(s, i)
    requires var id := Head(s, em).event.id;
      id in t.rounds && (t.rounds[id].flying ==> next.Some? && FliesAtHead(next.value, id))
    ensures var u := Advance(t, em, next);
      forall i :: i in u.out && i in u.rounds && u.rounds[i].flying ==> InFlight(u, i)
  {
    var u := Advance(t, em, next);
    var id := Head(s, em).event.id;
    forall i | i in u.out && i in u.rounds && u.rounds[i].flying ensures InFlight(u, i) {
      if i != id {
        assert InFlight(s, i);
        var x :| x in s.emitters && |s.emitters[x].chain| > 0 && FliesAtHead(s.emitters[x].chain[0], i);
        assert x != em && u.emitters[x] == s.emitters[x];
      } else {
        assert FliesAtHead(u.emitters[em].chain[0], id);
      }
    }
  }

  lemma SameStores(t: State, u: State, chain: seq<Task>)
    requires t.out == u.out && t.rounds == u.rounds && ChainRound(t, chain)
    ensures ChainRound(u, chain)
  {
    assert forall x :: x in chain && TaskRound(t, x) ==> TaskRound(u, x);
  }

  lemma DropKeepsRounds(s: State, em: Id, retries: nat)
    requires RoundInv(s, retries) && em in s.emitters && |s.emitters[em].chain| > 0 && !Head(s, em).durable
    ensures RoundInv(PopHead(s, em), retries)
  {
    var u := PopHead(s, em);
    forall x | x in u.emitters ensures ChainRound(u, u.emitters[x].chain) {
      assert ChainRound(s, s.emitters[x].chain);
      forall t | t in u.emitters[x].chain ensures TaskRound(u, t) {
        assert t in s.emitters[x].chain && TaskRound(s, t);
      }
    }
    forall i | i in u.out && u.rounds[i].flying ensures InFlight(u, i) {
      assert InFlight(s, i);
      var x :| x in s.emitters && |s.emitters[x].chain| > 0 && FliesAtHead(s.emitters[x].chain[0], i);
      assert u.emitters[x] == s.emitters[x];
    }
  }

  // ----- other steps -----

  /** The chain of `em` still starts with what it held. */
  ghost predicate Prefixed(chain: seq<Task>, t: State, em: Id) {
    em in t.emitters && chain <= t.emitters[em].chain
  }

  lemma FlightSurvives(s: State, t: State, id: Id)
    requires forall em :: em in s.emitters ==> Prefixed(s.emitters[em].chain, t, em)
    requires InFlight(s, id)
    ensures InFlight(t, id)
  {
    var em :| em in s.emitters && |s.emitters[em].chain| > 0 && FliesAtHead(s.emitters[em].chain[0], id);
    assert Prefixed(s.emitters[em].chain, t, em);
  }

  lemma InboundKeepsRounds(s: State, step: InboundStep, retries: nat)
    requires RoundInv(s, retries) && InboundEnabled(s, step)
    ensures RoundInv(ApplyInbound(s, step), retries)
  {
    var t := ApplyInbound(s, step);
    InboundFrame(s, step);
    hide InboundEnabled, ApplyInbound;
    forall em | em in t.emitters ensures ChainRound(t, t.emitters[em].chain) {
      if em in s.emitters {
        assert ChainRound(s, s.emitters[em].chain);
        assert forall x :: x in s.emitters[em].chain && TaskRound(s, x) ==> TaskRound(t, x);
      }
    }
    forall id | id in t.out && t.rounds[id].flying ensures InFlight(t, id) {
      FlightSurvives(s, t, id);
    }
  }

  lemma InboundFrame(s: State, step: InboundStep)
    requires InboundEnabled(s, step)
    ensures var t := ApplyInbound(s, step);
      && t.out == s.out && t.rounds == s.rounds && t.crashes == s.crashes
      && (forall em :: em in s.emitters ==> Prefixed(s.emitters[em].chain, t, em))
      && forall em :: em in t.emitters ==>
           if em in s.emitters then t.emitters[em] == s.emitters[em] else t.emitters[em].chain == []
  {
    hide ResumesAt, HasTerminal;
  }

  /** The row an emission inserts, if any. */
  function Inserted(s: State, step: EmitStep): Option<Event>
    requires step.em in s.emitters && (step.InsertPrepared? ==> s.emitters[step.em].prepared.Some?)
  {
    var e := s.emitters[step.em];
    match step
    case EmitDurable(_, kind, id, body) => Some(NextEvent(e, kind, id, body))
    case EmitCancelled(_, id) => Some(NextEvent(e, Cancelled, id, 0))
    case InsertPrepared(_) => if e.prepared.value.id in s.out then None else e.prepared
    case _ => None
  }

  function Appended(s: State, step: EmitStep): seq<Task>
    requires step.em in s.emitters && (step.InsertPrepared? ==> s.emitters[step.em].prepared.Some?)
  {
    var inserted := Inserted(s, step);
    if inserted.Some? then [Task(inserted.value, true, 0, Queued)]
    else if step.EmitBestEffort? then [Task(NextEvent(s.emitters[step.em], Progress, step.id, step.body), false, 0, Queued)]
    else []
  }

  function WithInserted(s: State, adapter: Id, inserted: Option<Event>): State {
    if inserted.None? then s else Insert(s, adapter, inserted.value)
  }

  lemma EmissionShape(s: State, step: EmitStep)
    requires Inv(s) && EmitEnabled(s, step)
    ensures var e := s.emitters[step.em];
      var t := EmitEffect(s, step);
      var inserted := Inserted(s, step);
      && EmitterAfter(s, step).chain == e.chain + Appended(s, step)
      && (inserted.Some? ==> inserted.value.id !in s.out)
      && t.out == WithInserted(s, e.corr.adapter, inserted).out
      && t.rounds == WithInserted(s, e.corr.adapter, inserted).rounds
  {
    OutIdsKnown(s);
    hide Inv, SaveForCorrelation;
    match step
    case EmitDurable(_, _, _, _) =>
    case EmitCancelled(_, _) =>
    case InsertPrepared(_) =>
    case _ =>
  }

  /** Queue one fresh delivery on a chain and leave every row it held alone. */
  lemma AppendRound(s: State, u: State, chain: seq<Task>, t: Task)
    requires ChainRound(s, chain) && TaskRound(u, t) && t.phase == Queued
    requires forall x :: x in chain && TaskRound(s, x) ==> TaskRound(u, x)
    ensures ChainRound(u, chain) && ChainRound(u, chain + [t])
  {
  }

  /** The chains, seen from the stores an insertion leaves. */
  lemma InsertedRounds(s: State, t: State, step: EmitStep, retries: nat)
    requires RoundInv(s, retries) && step.em in s.emitters
    requires step.InsertPrepared? ==> s.emitters[step.em].prepared.Some?
    requires Inserted(s, step).Some? ==> Inserted(s, step).value.id !in s.out
    requires t == WithInserted(s, s.emitters[step.em].corr.adapter, Inserted(s, step))
    ensures RowsRound(t, retries)
    ensures forall x :: x in s.emitters ==> ChainRound(t, s.emitters[x].chain)
    ensures ChainRound(t, s.emitters[step.em].chain + Appended(s, step))
    ensures forall id :: id in t.out && id in t.rounds && t.rounds[id].flying ==> id in s.out && id in s.rounds && s.rounds[id].flying
  {
    forall x | TaskRound(s, x) ensures TaskRound(t, x) {
    }
    forall x | x in s.emitters ensures ChainRound(t, s.emitters[x].chain) {
      assert ChainRound(s, s.emitters[x].chain);
    }
    var chain := s.emitters[step.em].chain;
    if Appended(s, step) != [] {
      AppendRound(s, t, chain, Appended(s, step)[0]);
    } else {
      assert chain + Appended(s, step) == chain;
    }
  }

  lemma EmitView(s: State, step: EmitStep)
    requires Inv(s) && EmitEnabled(s, step)
    ensures var e := s.emitters[step.em];
      var t := WithInserted(s, e.corr.adapter, Inserted(s, step));
      var u := ApplyEmit(s, step);
      && u.out == t.out && u.rounds == t.rounds && u.crashes == t.crashes
      && u.emitters == s.emitters[step.em := u.emitters[step.em]]
      && u.emitters[step.em].chain == e.chain + Appended(s, step)
  {
    EmissionShape(s, step);
    EmitFrame(s, step);
    hide Inv, EmitEffect, EmitterAfter, EmitEnabled, Appended, Inserted;
  }

  lemma EmitKeepsRounds(s: State, step: EmitStep, retries: nat)
    requires Inv(s) && RoundInv(s, retries) && EmitEnabled(s, step)
    ensures RoundInv(ApplyEmit(s, step), retries)
  {
    EmissionShape(s, step);
    EmitView(s, step);
    var e := s.emitters[step.em];
    var t := WithInserted(s, e.corr.adapter, Inserted(s, step));
    InsertedRounds(s, t, step, retries);
    var u := ApplyEmit(s, step);
    hide Inv, EmitEnabled, RoundInv, ChainRound, Appended, Inserted, WithInserted, RowRound, RowsRound, ApplyEmit;
    GrownRounds(s, t, u, step.em, retries);
  }

  lemma GrownRounds(s: State, t: State, u: State, em: Id, retries: nat)
    requires RowsRound(t, retries) && u.out == t.out && u.rounds == t.rounds && u.crashes == t.crashes
    requires em in s.emitters && em in u.emitters && u.emitters == s.emitters[em := u.emitters[em]]
    requires s.emitters[em].chain <= u.emitters[em].chain && ChainRound(t, u.emitters[em].chain)
    requires forall x :: x in s.emitters ==> ChainRound(t, s.emitters[x].chain)
    requires forall id :: id in t.out && id in t.rounds && t.rounds[id].flying ==> id in s.out && id in s.rounds && s.rounds[id].flying
    requires RoundInv(s, retries)
    ensures RoundInv(u, retries)
  {
    hide ChainRound, RowRound;
    forall x | x in s.emitters ensures Prefixed(s.emitters[x].chain, u, x) {
    }
    forall x | x in u.emitters ensures ChainRound(u, u.emitters[x].chain) {
      SameStores(t, u, u.emitters[x].chain);
    }
    forall id | id in u.out && u.rounds[id].flying ensures InFlight(u, id) {
      FlightSurvives(s, u, id);
    }
  }

  // ----- recovery, crashes, runs -----

  /** A recovery step leaves the outbox and the rounds alone, or starts one round afresh. */
  lemma RecoverMoves(s: State, step: RecoverStep)
    requires RecoverEnabled(s, step)
    ensures var t := RecoverEffect(s, step);
      if t.out == s.out && t.rounds == s.rounds then true
      else
        && Redeliverable(s, step.key) && (step.RedeliverMissing? || step.RedeliverFailed?)
        && var e := SavedResponse(s, step);
           && (step.RedeliverMissing? <==> e.id !in s.out)
           && e.id in t.out && t.out == s.out[e.id := t.out[e.id]] && t.out[e.id].attempts == 0 && t.out[e.id].status == Waiting
           && t.rounds == s.rounds[e.id := Round(0, 0, false, s.crashes)]
  {
    hide SaveForCorrelation, SendCorrelation, ResumesAt, PendingInOrder, Hooked, Busy, EntryFor;
    if step.RedeliverMissing? {
      hide PayloadConflict, Update;
    } else if step.RedeliverFailed? {
      hide PayloadConflict, Insert;
    } else {
      hide PayloadConflict, Update, Insert;
    }
  }

  lemma RecoveryRows(s: State, step: RecoverStep, retries: nat)
    requires RowsRound(s, retries) && RecoverEnabled(s, step)
    ensures var t := RecoverEffect(s, step);
      && RowsRound(t, retries)
      && (forall id :: id in t.out && t.rounds[id].flying ==> id in s.out && s.rounds[id].flying)
      && (forall id :: id in s.out && !(step.RedeliverFailed? && id == SavedResponse(s, step).id)
            ==> id in t.out && t.out[id] == s.out[id] && t.rounds[id] == s.rounds[id])
  {
    RecoverMoves(s, step);
    hide RecoverEffect, RecoverEnabled;
  }

  /** Under one deliverer per event, nothing in flight is queued a second time. */
  lemma NotFlying(s: State, u: State, em: Id, t: Task)
    requires Single(u) && em !in s.emitters && em in u.emitters && t in u.emitters[em].chain && t.durable
    requires forall x :: x in s.emitters ==> x in u.emitters && u.emitters[x] == s.emitters[x]
    ensures !InFlight(s, t.event.id)
    ensures forall x, y :: x in s.emitters && y in s.emitters[x].chain && y.durable ==> y.event.id != t.event.id
  {
    forall x | x in s.emitters && |s.emitters[x].chain| > 0 ensures !FliesAtHead(s.emitters[x].chain[0], t.event.id) {
      assert s.emitters[x].chain[0] in u.emitters[x].chain;
    }
  }

  lemma ResumedTasks(s: State, order: seq<Id>, c: Corr, t: Task)
    requires Inv(s) && PendingInOrder(s.out, c, order) && t in ResumeTasks(s.out, order)
    ensures t.durable && t.phase == Queued && t.event.id in s.out
    ensures s.out[t.event.id].status == Waiting && t.attempt == s.out[t.event.id].attempts
  {
    var i :| 0 <= i < |order| && ResumeTasks(s.out, order)[i] == t;
    assert order[i] in order && OutRowInv(s, order[i]);
  }

  lemma RecoveredTasks(s: State, step: RecoverStep, t: Task, retries: nat)
    requires Inv(s) && RoundInv(s, retries) && RecoverEnabled(s, step)
    requires RecoverChain(s, step).Some? && t in RecoverChain(s, step).value
    requires !InFlight(s, t.event.id)
    ensures t.durable && t.phase == Queued && TaskRound(RecoverEffect(s, step), t)
  {
    RowFacts(s, step.key);
    if Redeliverable(s, step.key) {
      PreparedHookIdle(s, KeyCorr(s.rows, step.key), s.rows[step.key].response.value);
    }
    if step.Resume? || step.RedeliverWaiting? {
      ResumedTasks(s, step.order, KeyCorr(s.rows, step.key), t);
      assert t.event.id in s.rounds && !s.rounds[t.event.id].flying;
    }
    hide Inv, RoundInv, SaveForCorrelation, SendCorrelation, ResumesAt, PendingInOrder, ResumeTasks;
  }

  lemma RecoveredEmitter(s: State, step: RecoverStep)
    requires RecoverEnabled(s, step)
    ensures var u := ApplyRecover(s, step);
      var t := RecoverEffect(s, step);
      && u.out == t.out && u.rounds == t.rounds && u.crashes == s.crashes
      && (forall x :: x in u.emitters && x !in s.emitters ==>
            x == step.em && RecoverChain(s, step).Some? && u.emitters[x].chain == RecoverChain(s, step).value)
  {
    RecoverEffectFrame(s, step);
    hide RecoverEffect, RecoverChain, RecoverEnabled;
  }

  lemma RecoverQueues(s: State, step: RecoverStep, t: Task)
    requires RecoverEnabled(s, step) && RecoverChain(s, step).Some? && t in RecoverChain(s, step).value
    ensures t.durable
  {
  }

  /** A delivery already queued is not of the event an explicit retry resets. */
  lemma HeldApart(s: State, step: RecoverStep, em: Id, t: Task)
    requires Inv(s) && RecoverEnabled(s, step) && Single(ApplyRecover(s, step))
    requires em in s.emitters && t in s.emitters[em].chain && t.durable && step.RedeliverFailed?
    ensures t.event.id != SavedResponse(s, step).id
  {
    RowFacts(s, step.key);
    PreparedHookIdle(s, KeyCorr(s.rows, step.key), s.rows[step.key].response.value);
    RecoverFrame(s, step);
    hide Inv, SaveForCorrelation, ResumesAt, RecoverEffect;
    var u := ApplyRecover(s, step);
    var queued := Task(SavedResponse(s, step), true, 0, Queued);
    assert queued in u.emitters[step.em].chain;
  }

  /** Deliveries queued before a recovery step keep their place in their round. */
  lemma KeptChain(s: State, step: RecoverStep, x: Id, retries: nat)
    requires Inv(s) && RoundInv(s, retries) && RecoverEnabled(s, step) && Single(ApplyRecover(s, step)) && x in s.emitters
    ensures ChainRound(RecoverEffect(s, step), s.emitters[x].chain)
  {
    hide Single, RecoverEffect, ApplyRecover, RowRound, TaskRound;
    RecoveryRows(s, step, retries);
    assert ChainRound(s, s.emitters[x].chain);
    forall y | y in s.emitters[x].chain && y.durable && step.RedeliverFailed? ensures y.event.id != SavedResponse(s, step).id {
      HeldApart(s, step, x, y);
    }
    forall y | y in s.emitters[x].chain ensures TaskRound(RecoverEffect(s, step), y) {
      TaskKept(s, RecoverEffect(s, step), y);
    }
  }

  lemma TaskKept(s: State, t: State, y: Task)
    requires TaskRound(s, y)
    requires var id := y.event.id;
      y.durable && id in s.out ==> id in t.out && id in t.rounds && t.out[id] == s.out[id] && (id in s.rounds ==> t.rounds[id] == s.rounds[id])
    ensures TaskRound(t, y)
  {
  }

  /** Deliveries a recovery step queues start where their row stands. */
  lemma NewChain(s: State, step: RecoverStep, x: Id, retries: nat)
    requires Inv(s) && RoundInv(s, retries) && RecoverEnabled(s, step) && Single(ApplyRecover(s, step))
    requires x in ApplyRecover(s, step).emitters && x !in s.emitters
    ensures ChainRound(RecoverEffect(s, step), ApplyRecover(s, step).emitters[x].chain)
  {
    var u := ApplyRecover(s, step);
    RecoverFrame(s, step);
    RecoveredEmitter(s, step);
    hide Inv, Single, RoundInv, RecoverEffect, RecoverEnabled, ApplyRecover, RowRound, TaskRound;
    forall y | y in u.emitters[x].chain ensures TaskRound(RecoverEffect(s, step), y) && y.phase == Queued {
      RecoverQueues(s, step, y);
      NotFlying(s, u, x, y);
      RecoveredTasks(s, step, y, retries);
    }
  }

  lemma RecoverKeepsRounds(s: State, step: RecoverStep, retries: nat)
    requires Inv(s) && RoundInv(s, retries) && RecoverEnabled(s, step) && Single(ApplyRecover(s, step))
    ensures RoundInv(ApplyRecover(s, step), retries)
  {
    hide Inv, Single, RecoverEffect, RecoverChain, RecoverEnabled, ApplyRecover, RowRound, ChainRound, InFlight;
    var t := RecoverEffect(s, step);
    var u := ApplyRecover(s, step);
    RecoverFrame(s, step);
    RecoveryRows(s, step, retries);
    RecoveredEmitter(s, step);
    forall x | x in u.emitters ensures ChainRound(u, u.emitters[x].chain) {
      if x in s.emitters {
        KeptChain(s, step, x, retries);
      } else {
        NewChain(s, step, x, retries);
      }
      SameStores(t, u, u.emitters[x].chain);
    }
    forall x | x in s.emitters ensures Prefixed(s.emitters[x].chain, u, x) {
    }
    forall id | id in u.out && u.rounds[id].flying ensures InFlight(u, id) {
      FlightSurvives(s, u, id);
    }
  }

  lemma CrashKeepsRounds(s: State, retries: nat)
    requires RoundInv(s, retries)
    ensures RoundInv(Apply(s, Crash), retries)
  {
  }

  lemma StepKeepsRounds(s: State, step: Step, retries: nat)
    requires Inv(s) && RoundInv(s, retries) && Enabled(s, step) && InSchedule(s, step, retries)
    requires Single(s) && Single(Apply(s, step))
    ensures RoundInv(Apply(s, step), retries)
  {
    hide Inv, Single, RoundInv, ApplyInbound, ApplyEmit, ApplyRecover, ApplyDeliver;
    match step
    case Inbound(i) => InboundKeepsRounds(s, i, retries);
    case Emit(e) => EmitKeepsRounds(s, e, retries);
    case Recover(r) => RecoverKeepsRounds(s, r, retries);
    case Crash => CrashKeepsRounds(s, retries);
    case Deliver(d) =>
      if d.BestEffortDone? {
        BestEffortPops(s, d);
        DropKeepsRounds(s, d.em, retries);
      } else {
        DeliverKeepsRounds(s, d, retries);
      }
  }

  lemma BestEffortPops(s: State, step: DeliverStep)
    requires step.BestEffortDone? && DeliverEnabled(s, step)
    ensures ApplyDeliver(s, step) == PopHead(s, step.em) && !Head(s, step.em).durable
  {
  }

  /** Every state of the run has one deliverer per event. */
  ghost predicate SingleRun(s: State, steps: seq<Step>)
    decreases |steps|
  {
    Single(s) && (steps != [] && Enabled(s, steps[0]) ==> SingleRun(Apply(s, steps[0]), steps[1..]))
  }

  lemma {:induction false} RunKeepsRounds(s: State, steps: seq<Step>, retries: nat)
    requires Inv(s) && RoundInv(s, retries) && SingleRun(s, steps) && Exec(s, steps, retries).Some?
    ensures RoundInv(Exec(s, steps, retries).value, retries)
    decreases |steps|
  {
    hide Inv, Single, RoundInv, Enabled, Apply, InSchedule;
    if steps != [] {
      StepKeepsInv(s, steps[0]);
      StepKeepsRounds(s, steps[0], retries);
      RunKeepsRounds(Apply(s, steps[0]), steps[1..], retries);
    }
  }

  /**
   With one deliverer per event, a delivery round never costs more than
   `1 + retries` POSTs plus one for each crash since it began, and while no crash
   has intervened the recorded attempts are exactly the POSTs made.
   */
  lemma BoundedPosts(s: State, steps: seq<Step>, id: Id, retries: nat)
    requires Exec(Init(), steps, retries) == Some(s) && SingleRun(Init(), steps) && id in s.out
    ensures id in s.rounds && s.rounds[id].crashesBefore <= s.crashes
    ensures s.rounds[id].posts <= 1 + retries + (s.crashes - s.rounds[id].crashesBefore)
    ensures s.rounds[id].crashesBefore == s.crashes ==> s.rounds[id].posts == s.out[id].attempts + Fly(s.rounds[id])
    ensures s.out[id].status != Waiting ==> !s.rounds[id].flying
  {
    InitInv();
    RunKeepsRounds(Init(), steps, retries);
    hide Exec, Inv, SingleRun;
    assert RowRound(s.out[id], s.rounds[id], s.crashes, retries);
  }

  /** Exhausting the schedule without a crash in between means every configured POST was made. */
  lemma ExhaustedMeansAllTried(s: State, steps: seq<Step>, em: Id, retries: nat)
    requires Exec(Init(), steps, retries) == Some(s) && SingleRun(Init(), steps)
    requires Enabled(s, Deliver(Exhaust(em))) && InSchedule(s, Deliver(Exhaust(em)), retries)
    ensures var id := Head(s, em).event.id;
      && id in s.rounds
      && s.rounds[id].posts == 1 + retries + s.rounds[id].lost
      && s.rounds[id].lost <= s.crashes - s.rounds[id].crashesBefore
  {
    InitInv();
    RunKeepsRounds(Init(), steps, retries);
    hide Exec, Inv, SingleRun;
    HeadRoundFacts(s, em, retries);
  }
}
