/**
 Start-up recovery with its conversations at work at once (packages/core/src/supervisor.ts,
 `recoverPending`): every interleaving of the steps of all the correlations recovered
 ends where recovering them one after another does.
 */
module RecoveryInterleavings {
  import opened Wrappers
  import opened IdempotencyStore
  import opened DeliveryProtocol
  import opened DeliveryInvariants
  import opened DeliverySafety
  import opened DeliveryTheorems
  import DeliveryBounds
  import opened OutboundEmitter
  import opened DeliveryRuns
  import opened Recovery
  import opened RecoveryTheorems

  // ----- interleavings -----

  /** Recovery step `r` is what the code does for `item`: redeliver its terminal, or resume what waits. */
  ghost predicate Serves(s: State, r: RecoverStep, item: Item)
    requires r.key in s.rows
  {
    && item.corr == KeyCorr(s.rows, r.key)
    && if item.terminal.None? then r.Resume?
       else !r.Resume? && !r.RedeliverThrough? && s.rows[r.key].response == item.terminal
  }

  ghost predicate Idle(s: State) {
    forall em :: em in s.emitters ==> s.emitters[em].chain == []
  }

  /**
   A step of recovery under an adapter that acknowledges: an item not taken up yet is,
   or a delivery goes on.
   */
  ghost predicate MayFollow(s: State, step: Step, items: seq<Item>, taken: set<Corr>, retries: nat) {
    && Enabled(s, step) && InSchedule(s, step, retries)
    && match step
       case Recover(r) =>
         r.key in s.rows && KeyCorr(s.rows, r.key) !in taken && exists j :: 0 <= j < |items| && Serves(s, r, items[j])
       case Deliver(d) => !d.NoTarget? && (d.Post? ==> d.reply == Ack)
       case _ => false
  }

  ghost function TakenAfter(s: State, step: Step, taken: set<Corr>): set<Corr>
    requires step.Recover? ==> step.recovery.key in s.rows
  {
    if step.Recover? then taken + {KeyCorr(s.rows, step.recovery.key)} else taken
  }

  /** `steps` take `s` to `t` in any such order, and the items taken up grow from `taken` to `all`. */
  ghost predicate Interleaved(s: State, steps: seq<Step>, items: seq<Item>, taken: set<Corr>, retries: nat, t: State, all: set<Corr>)
    decreases |steps|
  {
    if steps == [] then t == s && all == taken
    else
      && MayFollow(s, steps[0], items, taken, retries)
      && Interleaved(Apply(s, steps[0]), steps[1..], items, TakenAfter(s, steps[0], taken), retries, t, all)
  }

  /** Nothing is left to do. */
  ghost predicate Finished(s: State, items: seq<Item>, taken: set<Corr>) {
    Idle(s) && forall j :: 0 <= j < |items| ==> items[j].corr in taken
  }

  // ----- what holds on the way -----

  /** Only the delivery state of correlation `c` may change, and it becomes `d`. */
  ghost predicate Advances(s: State, t: State, c: Corr, d: Delivery) {
    && t.corrs == s.corrs && t.rows.Keys == s.rows.Keys
    && (forall k | k in s.rows :: KeyCorr(t.rows, k) == KeyCorr(s.rows, k))
    && (forall x :: Known(s, x) ==>
          && Known(t, x) && Lead(t, x).response == Lead(s, x).response
          && Lead(t, x).delivery == if x == c then d else Lead(s, x).delivery)
  }

  /** The POSTs an answer has behind it when recovery takes it up. */
  function Tries(out: Outbox, e: Event): nat {
    if e.id in out && out[e.id].status == Waiting then out[e.id].attempts else 0
  }

  function Goal(s: State, c: Corr, retries: nat): Delivery
    requires Known(s, c)
  {
    After(Lead(s, c), s.out, retries)
  }

  /** A queued delivery of the saved answer of `c`, and how it will end. */
  ghost predicate AnswerTask(s0: State, s: State, c: Corr, t: Task, retries: nat) {
    && Known(s0, c) && Known(s, c) && t.durable && Lead(s0, c).response == Some(t.event)
    && Lead(s, c).delivery == Lead(s0, c).delivery
    && Goal(s0, c, retries) == Settled(Lead(s0, c).delivery, Tries(s0.out, t.event) <= retries)
    && match t.phase
       case Queued => t.attempt == Tries(s0.out, t.event)
       case Ready => t.attempt == Tries(s0.out, t.event)
       case Acked => Tries(s0.out, t.event) <= retries
       case MarkedDelivered => Tries(s0.out, t.event) <= retries
       case MarkedFailed => Tries(s0.out, t.event) > retries
       case Refused => false
  }

  /** A correlation not taken up yet is as recovery found it. */
  ghost predicate Untouched(s0: State, s: State, c: Corr) {
    && (Known(s0, c) ==> Known(s, c) && Lead(s, c).delivery == Lead(s0, c).delivery)
    && (forall id :: OfCorr(s.out, id, c) <==> OfCorr(s0.out, id, c))
    && (forall id | OfCorr(s0.out, id, c) :: s.out[id] == s0.out[id])
  }

  ghost predicate OneEach(s: State, taken: set<Corr>) {
    && (forall em :: em in s.emitters ==> s.emitters[em].corr in taken)
    && (forall a, b :: a in s.emitters && b in s.emitters && s.emitters[a].corr == s.emitters[b].corr ==> a == b)
  }

  /** Recovery queues nothing best-effort. */
  ghost predicate AllDurable(s: State) {
    forall em, t :: em in s.emitters && t in s.emitters[em].chain ==> t.durable
  }

  ghost predicate AnswersDue(s0: State, s: State, retries: nat) {
    forall em, t :: em in s.emitters && t in s.emitters[em].chain && Answer(t.event.kind) ==>
      AnswerTask(s0, s, s.emitters[em].corr, t, retries)
  }

  /** The answer of `c` is queued somewhere. */
  ghost predicate InHand(s: State, c: Corr) {
    exists em, t :: em in s.emitters && s.emitters[em].corr == c && t in s.emitters[em].chain && Answer(t.event.kind)
  }

  ghost predicate Underway(s0: State, s: State, taken: set<Corr>, retries: nat) {
    && Inv(s) && Restarted(s)
    && s.corrs == s0.corrs && s.rows.Keys == s0.rows.Keys
    && (forall k | k in s0.rows :: KeyCorr(s.rows, k) == KeyCorr(s0.rows, k))
    && (forall c :: Known(s0, c) ==> Known(s, c) && Lead(s, c).response == Lead(s0, c).response)
    && (forall c :: c !in taken ==> Untouched(s0, s, c))
    && OneEach(s, taken) && AllDurable(s) && AnswersDue(s0, s, retries)
    && (forall c :: c in taken && Known(s0, c) ==> Lead(s, c).delivery == Goal(s0, c, retries) || InHand(s, c))
  }

  // ----- a delivery step -----

  lemma HeadThere(s: State, d: DeliverStep)
    requires DeliverEnabled(s, d)
    ensures d.em in s.emitters && |s.emitters[d.em].chain| > 0
  {
  }

  /** What a delivery step makes of the correlation's delivery state. */
  function Delivers(s: State, d: DeliverStep, was: Delivery): Delivery
    requires d.em in s.emitters && |s.emitters[d.em].chain| > 0
  {
    if !Answer(Head(s, d.em).event.kind) then was
    else if d.SentHook? then Sent
    else if d.FailedHook? && was == Saved then Failed
    else was
  }

  lemma MovedAdvances(s: State, t: State, c: Corr, d: Delivery, e: Event, error: Option<Id>)
    requires RowsInv(s) && Answered(s, c, e) && Moved(s.rows, t.rows, c, d, Some(e), error) && t.corrs == s.corrs
    ensures Advances(s, t, c, d)
  {
    forall x | Known(s, x) ensures InGroup(s.rows, s.corrs[x], c) <==> x == c {
    }
  }

  lemma SameAdvances(s: State, t: State, c: Corr)
    requires t.rows == s.rows && t.corrs == s.corrs && Known(s, c)
    ensures Advances(s, t, c, Lead(s, c).delivery)
  {
  }

  lemma DeliverAdvances(s: State, d: DeliverStep)
    requires Inv(s) && DeliverEnabled(s, d) && !d.BestEffortDone?
    ensures var c := s.emitters[d.em].corr;
      Known(s, c) && Advances(s, ApplyDeliver(s, d), c, Delivers(s, d, Lead(s, c).delivery))
  {
    var c, e := s.emitters[d.em].corr, Head(s, d.em).event;
    HeadFacts(s, d.em);
    HeadKnown(s, d.em);
    DeliverShape(s, d);
    var t := ApplyDeliver(s, d);
    if Answer(e.kind) && d.SentHook? {
      SendSettles(s, c, e);
      MovedAdvances(s, t, c, Sent, e, None);
    } else if Answer(e.kind) && d.FailedHook? {
      FailSettles(s, c, e, d.error);
      if Lead(s, c).delivery == Saved {
        MovedAdvances(s, t, c, Failed, e, Some(d.error));
      } else {
        SameAdvances(s, t, c);
      }
    } else {
      SameAdvances(s, t, c);
    }
    hide Inv, Advances;
  }

  lemma HeadKnown(s: State, em: Id)
    requires Inv(s) && em in s.emitters
    ensures Known(s, s.emitters[em].corr)
  {
    assert EmitterInv(s, s.emitters[em]);
  }

  /** One of its tasks' rows changes, and keeps its event. */
  lemma DeliverKeepsOthers(s: State, d: DeliverStep, x: Corr)
    requires Inv(s) && DeliverEnabled(s, d) && !d.BestEffortDone? && x != s.emitters[d.em].corr
    ensures var t := ApplyDeliver(s, d);
      && (forall id :: OfCorr(t.out, id, x) <==> OfCorr(s.out, id, x)) && forall id | OfCorr(s.out, id, x) :: t.out[id] == s.out[id]
  {
    hide Inv, SendCorrelation, FailCorrelation, NextTask;
    HeadFacts(s, d.em);
    DeliverShape(s, d);
    hide ApplyDeliver, DeliverEnabled;
  }

  lemma DeliverUntouched(s0: State, s: State, d: DeliverStep, x: Corr)
    requires Inv(s) && DeliverEnabled(s, d) && !d.BestEffortDone? && x != s.emitters[d.em].corr
    requires Untouched(s0, s, x)
    ensures Untouched(s0, ApplyDeliver(s, d), x)
  {
    hide Inv, DeliverEnabled, ApplyDeliver, Delivers;
    HeadThere(s, d);
    DeliverKeepsOthers(s, d, x);
    DeliverAdvances(s, d);
  }

  predicate Allowed(s: State, d: DeliverStep, retries: nat)
    requires d.em in s.emitters && |s.emitters[d.em].chain| > 0
  {
    && !d.NoTarget? && !d.BestEffortDone? && (d.Post? ==> d.reply == Ack && Head(s, d.em).attempt < 1 + retries)
    && (d.Exhaust? ==> Head(s, d.em).attempt >= 1 + retries)
  }

  /** The answer's delivery goes on as foreseen, or has ended as foreseen. */
  lemma AnswerGoesOn(s0: State, s: State, d: DeliverStep, retries: nat)
    requires Inv(s) && DeliverEnabled(s, d) && Allowed(s, d, retries) && Answer(Head(s, d.em).event.kind)
    requires AnswerTask(s0, s, s.emitters[d.em].corr, Head(s, d.em), retries)
    ensures var c, t := s.emitters[d.em].corr, ApplyDeliver(s, d);
      && Known(t, c)
      && match NextTask(s, d)
         case Some(next) => next.event == Head(s, d.em).event && AnswerTask(s0, t, c, next, retries)
         case None => Lead(t, c).delivery == Goal(s0, c, retries)
  {
    hide Inv, SendCorrelation, ApplyDeliver, Goal, Tries, Advances;
    var c, e := s.emitters[d.em].corr, Head(s, d.em).event;
    DeliverAdvances(s, d);
    HeadFacts(s, d.em);
    DeliveryBounds.SendSucceeds(s, c, e);
    RowFacts(s, s.corrs[c]);
    AdvancesAt(s, ApplyDeliver(s, d), c, Delivers(s, d, Lead(s, c).delivery), c);
  }

  /** No chain holds one event twice. */
  lemma OneAnswer(s: State, em: Id, i: nat, j: nat)
    requires Inv(s) && em in s.emitters && i < j < |s.emitters[em].chain|
    ensures s.emitters[em].chain[i].event != s.emitters[em].chain[j].event
  {
    assert EmitterInv(s, s.emitters[em]);
  }

  lemma TaskKept(s0: State, s: State, t: State, c: Corr, task: Task, retries: nat)
    requires AnswerTask(s0, s, c, task, retries) && Known(t, c) && Lead(t, c).delivery == Lead(s, c).delivery
    ensures AnswerTask(s0, t, c, task, retries)
  {
    hide Goal, Tries;
  }

  lemma DueAt(s0: State, s: State, retries: nat, em: Id, t: Task)
    requires AnswersDue(s0, s, retries) && em in s.emitters && t in s.emitters[em].chain && Answer(t.event.kind)
    ensures AnswerTask(s0, s, s.emitters[em].corr, t, retries)
  {
    hide AnswerTask;
  }

  /** Behind an answer there is none. */
  lemma TailHasNone(s0: State, s: State, em: Id, retries: nat, t: Task)
    requires Inv(s) && AnswersDue(s0, s, retries) && em in s.emitters && |s.emitters[em].chain| > 0
    requires t in s.emitters[em].chain[1..] && Answer(t.event.kind)
    ensures !Answer(Head(s, em).event.kind)
  {
    hide Inv, AnswersDue;
    var chain, h := s.emitters[em].chain, Head(s, em);
    var j :| 0 <= j < |chain[1..]| && chain[1..][j] == t;
    assert chain[j + 1] == t;
    OneAnswer(s, em, 0, j + 1);
    DueAt(s0, s, retries, em, t);
    if Answer(h.event.kind) {
      DueAt(s0, s, retries, em, h);
    }
  }

  lemma DeliverKeepsAnswers(s0: State, s: State, taken: set<Corr>, d: DeliverStep, retries: nat)
    requires Inv(s) && DeliverEnabled(s, d) && Allowed(s, d, retries) && OneEach(s, taken) && AnswersDue(s0, s, retries)
    ensures AnswersDue(s0, ApplyDeliver(s, d), retries)
  {
    hide Inv, DeliverEnabled, ApplyDeliver, DeliverEffect, NextTask, AnswerTask, AnswersDue, Advances;
    HeadThere(s, d);
    var u := ApplyDeliver(s, d);
    var chain, c := s.emitters[d.em].chain, s.emitters[d.em].corr;
    DeliverShape(s, d);
    DeliverAdvances(s, d);
    forall em, t | em in u.emitters && t in u.emitters[em].chain && Answer(t.event.kind)
      ensures AnswerTask(s0, u, u.emitters[em].corr, t, retries)
    {
      if em != d.em {
        DueAt(s0, s, retries, em, t);
        TaskKnown(s0, s, s.emitters[em].corr, t, retries);
        AdvancesAt(s, u, c, Delivers(s, d, Lead(s, c).delivery), s.emitters[em].corr);
        TaskKept(s0, s, u, s.emitters[em].corr, t, retries);
      } else if t in chain[1..] {
        assert t in chain;
        DueAt(s0, s, retries, em, t);
        TailHasNone(s0, s, em, retries, t);
        AdvancesAt(s, u, c, Delivers(s, d, Lead(s, c).delivery), c);
        TaskKept(s0, s, u, s.emitters[em].corr, t, retries);
      } else {
        assert Some(t) == NextTask(s, d);
        SameEvent(s, d);
        DueAt(s0, s, retries, em, chain[0]);
        AnswerGoesOn(s0, s, d, retries);
      }
    }
    assert AnswersDue(s0, u, retries) by {
      Gathered(s0, u, retries);
    }
  }

  lemma Gathered(s0: State, u: State, retries: nat)
    requires forall em, t :: em in u.emitters && t in u.emitters[em].chain && Answer(t.event.kind) ==>
      AnswerTask(s0, u, u.emitters[em].corr, t, retries)
    ensures AnswersDue(s0, u, retries)
  {
  }

  lemma TaskKnown(s0: State, s: State, c: Corr, t: Task, retries: nat)
    requires AnswerTask(s0, s, c, t, retries)
    ensures Known(s, c)
  {
  }

  lemma SameEvent(s: State, d: DeliverStep)
    requires DeliverEnabled(s, d)
    ensures NextTask(s, d).Some? ==> NextTask(s, d).value.event == Head(s, d.em).event && NextTask(s, d).value.durable == Head(s, d.em).durable
  {
  }

  ghost predicate Settling(s0: State, s: State, c: Corr, retries: nat)
    requires Known(s0, c)
  {
    Known(s, c) && (Lead(s, c).delivery == Goal(s0, c, retries) || InHand(s, c))
  }

  lemma DeliverKeepsSettling(s0: State, s: State, taken: set<Corr>, d: DeliverStep, retries: nat, x: Corr)
    requires Inv(s) && DeliverEnabled(s, d) && Allowed(s, d, retries) && OneEach(s, taken) && AnswersDue(s0, s, retries)
    requires Known(s0, x) && Settling(s0, s, x, retries)
    ensures Settling(s0, ApplyDeliver(s, d), x, retries)
  {
    hide Inv, DeliverEnabled, ApplyDeliver, DeliverEffect, NextTask, AnswerTask, AnswersDue, Goal, Advances, OneEach;
    HeadThere(s, d);
    var u := ApplyDeliver(s, d);
    var c, chain, h := s.emitters[d.em].corr, s.emitters[d.em].chain, Head(s, d.em);
    DeliverShape(s, d);
    DeliverAdvances(s, d);
    SameEvent(s, d);
    AdvancesAt(s, u, c, Delivers(s, d, Lead(s, c).delivery), x);
    if x == c && Answer(h.event.kind) {
      DueAt(s0, s, retries, d.em, h);
      AnswerGoesOn(s0, s, d, retries);
      if NextTask(s, d).Some? {
        assert NextTask(s, d).value in u.emitters[d.em].chain;
      }
    } else if InHand(s, x) {
      var em, t :| em in s.emitters && s.emitters[em].corr == x && t in s.emitters[em].chain && Answer(t.event.kind);
      if em == d.em {
        assert t in chain[1..];
      }
      assert t in u.emitters[em].chain;
    }
  }

  lemma AdvancesAt(s: State, t: State, c: Corr, d: Delivery, x: Corr)
    requires Advances(s, t, c, d) && Known(s, x)
    ensures Known(t, x) && Lead(t, x).response == Lead(s, x).response
    ensures Lead(t, x).delivery == if x == c then d else Lead(s, x).delivery
  {
  }

  // ----- a recovery step -----

  lemma KeyFacts(s: State, r: RecoverStep)
    requires Inv(s) && r.key in s.rows
    ensures var c := KeyCorr(s.rows, r.key);
      && Known(s, c) && Siblings(s.rows[r.key], Lead(s, c))
      && (Redeliverable(s, r.key) ==> Answered(s, c, SavedResponse(s, r)) && PreparedHook(s, r) == Ok(s.rows) && !PayloadConflict(s, r.key))
  {
    RowFacts(s, r.key);
    if Redeliverable(s, r.key) {
      PreparedHookIdle(s, KeyCorr(s.rows, r.key), SavedResponse(s, r));
      NoConflict(s, r.key);
    }
    hide Inv, SaveForCorrelation;
  }

  lemma RecoverAdvances(s: State, r: RecoverStep)
    requires Inv(s) && RecoverEnabled(s, r) && !r.RedeliverThrough?
    ensures var c := KeyCorr(s.rows, r.key);
      Known(s, c) && Advances(s, ApplyRecover(s, r), c, if r.RedeliverDelivered? then Sent else Lead(s, c).delivery)
  {
    KeyFacts(s, r);
    var c := KeyCorr(s.rows, r.key);
    if r.RedeliverDelivered? {
      SendSettles(s, c, SavedResponse(s, r));
      MovedAdvances(s, ApplyRecover(s, r), c, Sent, SavedResponse(s, r), None);
    } else {
      SameAdvances(s, ApplyRecover(s, r), c);
    }
    hide Inv, Advances;
  }

  lemma RecoverEmitters(s: State, r: RecoverStep)
    requires Inv(s) && RecoverEnabled(s, r) && !r.RedeliverThrough?
    ensures var t := ApplyRecover(s, r);
      if r.RedeliverDelivered? then t.emitters == s.emitters
      else
        && r.em !in s.emitters && r.em in t.emitters && t.emitters == s.emitters[r.em := t.emitters[r.em]]
        && t.emitters[r.em].corr == KeyCorr(s.rows, r.key) && RecoverChain(s, r) == Some(t.emitters[r.em].chain)
  {
    KeyFacts(s, r);
    RecoverEffectFrame(s, r);
    hide Inv, RecoverEffect, SaveForCorrelation, PayloadConflict, ResumesAt, PendingInOrder, Busy;
  }

  lemma RecoverKeepsOthers(s: State, r: RecoverStep, x: Corr)
    requires Inv(s) && RecoverEnabled(s, r) && !r.RedeliverThrough? && x != KeyCorr(s.rows, r.key)
    ensures var t := ApplyRecover(s, r);
      && (forall id :: OfCorr(t.out, id, x) <==> OfCorr(s.out, id, x)) && forall id | OfCorr(s.out, id, x) :: t.out[id] == s.out[id]
  {
    hide Inv, SaveForCorrelation, SendCorrelation, PayloadConflict, ResumesAt, PendingInOrder, Busy;
    KeyFacts(s, r);
    if Redeliverable(s, r.key) {
      ResponseFiled(s, r.key);
    }
  }

  lemma ResponseFiled(s: State, k: MessageKey)
    requires Inv(s) && Redeliverable(s, k)
    ensures var e, c := s.rows[k].response.value, KeyCorr(s.rows, k);
      && e.correlation == c.id && Answer(e.kind) && (e.id in s.out ==> OfCorr(s.out, e.id, c) && s.out[e.id].event == e)
  {
    RowFacts(s, k);
    hide Inv;
  }

  /** Correlation `c` is still as recovery found it, and its answer, if any, is filed as it was. */
  ghost predicate Fresh(s0: State, s: State, c: Corr) {
    && Inv(s0) && Inv(s) && Known(s0, c) && s.corrs == s0.corrs && s.rows.Keys == s0.rows.Keys
    && Untouched(s0, s, c) && Known(s, c) && Lead(s, c).response == Lead(s0, c).response
  }

  lemma FreshAnswer(s0: State, s: State, c: Corr)
    requires Fresh(s0, s, c) && Lead(s, c).response.Some?
    ensures var e := Lead(s, c).response.value;
      && Lead(s, c).delivery != Pending && Answer(e.kind) && e.correlation == c.id
      && (e.id in s.out ==> OfCorr(s.out, e.id, c) && s.out[e.id].event == e && e.id in s0.out && s0.out[e.id] == s.out[e.id])
      && (e.id !in s.out ==> e.id !in s0.out)
  {
    FiledLead(s, c);
    FiledLead(s0, c);
    hide Inv;
  }

  lemma FiledLead(s: State, c: Corr)
    requires Inv(s) && Known(s, c) && Lead(s, c).response.Some?
    ensures var e := Lead(s, c).response.value;
      Lead(s, c).delivery != Pending && Answer(e.kind) && e.correlation == c.id
      && (e.id in s.out ==> OfCorr(s.out, e.id, c) && s.out[e.id].event == e)
  {
    assert KeyCorr(s.rows, s.corrs[c]) == c;
    RowFacts(s, s.corrs[c]);
    hide Inv;
  }

  /** A waiting answer that is resumed. */
  lemma WaitingTask(s0: State, s: State, c: Corr, order: seq<Id>, t: Task, retries: nat)
    requires Fresh(s0, s, c) && PendingInOrder(s.out, c, order) && t in ResumeTasks(s.out, order) && Answer(t.event.kind)
    ensures AnswerTask(s0, s, c, t, retries)
  {
    hide Inv;
    var i :| 0 <= i < |order| && ResumeTasks(s.out, order)[i] == t;
    WaitingAnswer(s, c, order, i);
    assert order[i] in order;
    FreshAnswer(s0, s, c);
    hide PendingInOrder;
  }

  /** A saved answer that is not waiting. */
  lemma SavedTask(s0: State, s: State, c: Corr, e: Event, retries: nat)
    requires Fresh(s0, s, c) && Lead(s, c).response == Some(e) && Lead(s, c).delivery == Saved
    requires e.id in s.out ==> s.out[e.id].status != Waiting
    ensures AnswerTask(s0, s, c, Task(e, true, 0, Queued), retries) && Goal(s0, c, retries) == Sent
  {
    hide Inv;
    FreshAnswer(s0, s, c);
  }

  /** Everything a recovery step queues is as foreseen. */
  lemma QueuedAsDue(s0: State, s: State, r: RecoverStep, t: Task, retries: nat)
    requires RecoverEnabled(s, r) && Fresh(s0, s, KeyCorr(s.rows, r.key)) && !r.RedeliverThrough?
    requires !r.Resume? ==> Lead(s, KeyCorr(s.rows, r.key)).delivery == Saved
    requires RecoverChain(s, r).Some? && t in RecoverChain(s, r).value && Answer(t.event.kind)
    ensures AnswerTask(s0, s, KeyCorr(s.rows, r.key), t, retries)
  {
    hide Inv, SaveForCorrelation, AnswerTask, Goal, Fresh, RecoverChain, PayloadConflict, PreparedHook, PendingInOrder, ResumesAt, Busy, ResumeTasks;
    var c := KeyCorr(s.rows, r.key);
    FreshKnown(s0, s, c);
    KeyFacts(s, r);
    ChainsOf(s, r);
    if r.Resume? || r.RedeliverWaiting? {
      WaitingTask(s0, s, c, r.order, t, retries);
    } else {
      SavedTask(s0, s, c, SavedResponse(s, r), retries);
    }
  }

  lemma InHandBy(u: State, em: Id, t: Task)
    requires em in u.emitters && t in u.emitters[em].chain && Answer(t.event.kind)
    ensures InHand(u, u.emitters[em].corr)
  {
  }

  /** An answer neither waiting nor saved is left as it is. */
  lemma NothingDue(s0: State, s: State, c: Corr, retries: nat)
    requires Fresh(s0, s, c) && Lead(s, c).delivery != Saved
    requires Lead(s, c).response.Some? && Lead(s, c).response.value.id in s.out ==> s.out[Lead(s, c).response.value.id].status != Waiting
    ensures Goal(s0, c, retries) == Lead(s, c).delivery
  {
    if Lead(s, c).response.Some? {
      FreshAnswer(s0, s, c);
    }
    hide Inv;
  }

  lemma FreshKnown(s0: State, s: State, c: Corr)
    requires Fresh(s0, s, c)
    ensures Inv(s) && Known(s0, c) && Known(s, c)
  {
  }

  lemma ServedCorr(s: State, r: RecoverStep, item: Item)
    requires RecoverEnabled(s, r) && Serves(s, r, item)
    ensures r.key in s.rows && item.corr == KeyCorr(s.rows, r.key)
  {
  }

  lemma ServedKind(s: State, r: RecoverStep, item: Item)
    requires RecoverEnabled(s, r) && Serves(s, r, item) && Known(s, item.corr) && Siblings(s.rows[r.key], Lead(s, item.corr))
    requires item.terminal.None? <==> Lead(s, item.corr).delivery != Saved
    ensures r.Resume? <==> Lead(s, item.corr).delivery != Saved
    ensures !r.RedeliverThrough? && item.corr == KeyCorr(s.rows, r.key)
    ensures !r.Resume? ==> Redeliverable(s, r.key) && Lead(s, item.corr).response == Some(SavedResponse(s, r))
    ensures !r.Resume? ==> var id := SavedResponse(s, r).id;
      match r
      case RedeliverMissing(_, _, _) => id !in s.out
      case RedeliverWaiting(_, _, _, _) => id in s.out && s.out[id].status == Waiting
      case RedeliverFailed(_, _, _) => id in s.out && s.out[id].status == PermanentFailure
      case RedeliverDelivered(_) => id in s.out && s.out[id].status == Delivered
      case _ => false
    ensures r.Resume? || r.RedeliverWaiting? ==> PendingInOrder(s.out, item.corr, r.order)
  {
    hide PendingInOrder, ResumesAt, Busy;
  }

  lemma ChainsOf(s: State, r: RecoverStep)
    requires Inv(s) && RecoverEnabled(s, r) && !r.RedeliverThrough?
    ensures r.Resume? || r.RedeliverWaiting? ==>
      PendingInOrder(s.out, KeyCorr(s.rows, r.key), r.order) && RecoverChain(s, r) == Some(ResumeTasks(s.out, r.order))
    ensures r.RedeliverMissing? || r.RedeliverFailed? ==> RecoverChain(s, r) == Some([Task(SavedResponse(s, r), true, 0, Queued)])
    ensures r.RedeliverDelivered? ==> RecoverChain(s, r).None?
  {
    KeyFacts(s, r);
    hide Inv, SaveForCorrelation, PayloadConflict, PendingInOrder, ResumesAt, Busy, ResumeTasks;
  }

  /** And what it does not queue is settled: the correlation is taken care of. */
  lemma TakenCareOf(s0: State, s: State, r: RecoverStep, item: Item, retries: nat)
    requires RecoverEnabled(s, r) && Fresh(s0, s, KeyCorr(s.rows, r.key)) && Serves(s, r, item)
    requires item.terminal.None? <==> Lead(s, item.corr).delivery != Saved
    ensures Settling(s0, ApplyRecover(s, r), KeyCorr(s.rows, r.key), retries)
  {
    hide Inv, SaveForCorrelation, ApplyRecover, RecoverChain, Advances, ResumesAt, Busy, Fresh, RecoverEnabled, Serves, PendingInOrder, ResumeTasks;
    hide PayloadConflict, AnswerTask, Goal;
    ServedCorr(s, r, item);
    var c, u := item.corr, ApplyRecover(s, r);
    FreshKnown(s0, s, c);
    KeyFacts(s, r);
    ServedKind(s, r, item);
    RecoverAdvances(s, r);
    RecoverEmitters(s, r);
    ChainsOf(s, r);
    AdvancesAt(s, u, c, if r.RedeliverDelivered? then Sent else Lead(s, c).delivery, c);
    if Lead(s, c).response.Some? {
      FreshAnswer(s0, s, c);
    }
    if Lead(s, c).response.Some? && Lead(s, c).response.value.id in s.out && s.out[Lead(s, c).response.value.id].status == Waiting {
      var e := Lead(s, c).response.value;
      var t := AnswerIsQueued(s, c, e, r.order);
      InHandBy(u, r.em, t);
    } else if r.Resume? {
      NothingDue(s0, s, c, retries);
    } else {
      SavedTask(s0, s, c, SavedResponse(s, r), retries);
      if !r.RedeliverDelivered? {
        InHandBy(u, r.em, Task(SavedResponse(s, r), true, 0, Queued));
      }
    }
  }

  lemma AnswerIsQueued(s: State, c: Corr, e: Event, order: seq<Id>) returns (t: Task)
    requires PendingInOrder(s.out, c, order) && OfCorr(s.out, e.id, c) && s.out[e.id].event == e && s.out[e.id].status == Waiting
    ensures t in ResumeTasks(s.out, order) && t.event == e
  {
    assert e.id in order;
    var i :| 0 <= i < |order| && order[i] == e.id;
    t := ResumeTasks(s.out, order)[i];
  }

  lemma RecoverKeepsAnswers(s0: State, s: State, taken: set<Corr>, r: RecoverStep, retries: nat)
    requires RecoverEnabled(s, r) && Fresh(s0, s, KeyCorr(s.rows, r.key)) && !r.RedeliverThrough? && KeyCorr(s.rows, r.key) !in taken
    requires !r.Resume? ==> Lead(s, KeyCorr(s.rows, r.key)).delivery == Saved
    requires OneEach(s, taken) && AnswersDue(s0, s, retries)
    ensures AnswersDue(s0, ApplyRecover(s, r), retries)
  {
    hide Inv, RecoverEnabled, ApplyRecover, RecoverChain, AnswerTask, AnswersDue, Advances, Fresh;
    KeyThere(s, r);
    var c, u := KeyCorr(s.rows, r.key), ApplyRecover(s, r);
    FreshKnown(s0, s, c);
    RecoverAdvances(s, r);
    RecoverEmitters(s, r);
    var d := if r.RedeliverDelivered? then Sent else Lead(s, c).delivery;
    forall em, t | em in u.emitters && t in u.emitters[em].chain && Answer(t.event.kind)
      ensures AnswerTask(s0, u, u.emitters[em].corr, t, retries)
    {
      if em in s.emitters {
        DueAt(s0, s, retries, em, t);
        TaskKnown(s0, s, s.emitters[em].corr, t, retries);
        AdvancesAt(s, u, c, d, s.emitters[em].corr);
        TaskKept(s0, s, u, s.emitters[em].corr, t, retries);
      } else {
        QueuedAsDue(s0, s, r, t, retries);
        AdvancesAt(s, u, c, d, c);
        TaskKept(s0, s, u, c, t, retries);
      }
    }
    Gathered(s0, u, retries);
  }

  lemma KeyThere(s: State, r: RecoverStep)
    requires RecoverEnabled(s, r)
    ensures r.key in s.rows
  {
  }

  lemma RecoverKeepsSettling(s0: State, s: State, r: RecoverStep, retries: nat, x: Corr)
    requires Inv(s) && RecoverEnabled(s, r) && !r.RedeliverThrough? && x != KeyCorr(s.rows, r.key)
    requires Known(s0, x) && Settling(s0, s, x, retries)
    ensures Settling(s0, ApplyRecover(s, r), x, retries)
  {
    hide Inv, RecoverEnabled, ApplyRecover, RecoverChain, Goal, Advances;
    KeyThere(s, r);
    var c, u := KeyCorr(s.rows, r.key), ApplyRecover(s, r);
    RecoverAdvances(s, r);
    RecoverEmitters(s, r);
    AdvancesAt(s, u, c, if r.RedeliverDelivered? then Sent else Lead(s, c).delivery, x);
    if InHand(s, x) {
      var em, t :| em in s.emitters && s.emitters[em].corr == x && t in s.emitters[em].chain && Answer(t.event.kind);
      InHandBy(u, em, t);
    }
  }

  lemma RecoverUntouched(s0: State, s: State, r: RecoverStep, x: Corr)
    requires Inv(s) && RecoverEnabled(s, r) && !r.RedeliverThrough? && x != KeyCorr(s.rows, r.key) && Untouched(s0, s, x)
    ensures Untouched(s0, ApplyRecover(s, r), x)
  {
    hide Inv, RecoverEnabled, ApplyRecover;
    KeyThere(s, r);
    RecoverKeepsOthers(s, r, x);
    RecoverAdvances(s, r);
  }

  lemma DeliverDurable(s: State, d: DeliverStep)
    requires DeliverEnabled(s, d) && AllDurable(s)
    ensures AllDurable(ApplyDeliver(s, d))
  {
    hide DeliverEnabled, ApplyDeliver, DeliverEffect, NextTask;
    HeadThere(s, d);
    DeliverShape(s, d);
    SameEvent(s, d);
    assert Head(s, d.em) in s.emitters[d.em].chain;
    var t := ApplyDeliver(s, d);
    forall em, x | em in t.emitters && x in t.emitters[em].chain ensures x.durable {
      if em == d.em && Some(x) != NextTask(s, d) {
        assert x in s.emitters[em].chain[1..];
      }
    }
  }

  lemma RecoverDurable(s: State, r: RecoverStep)
    requires Inv(s) && RecoverEnabled(s, r) && !r.RedeliverThrough? && AllDurable(s)
    ensures AllDurable(ApplyRecover(s, r))
  {
    hide Inv, RecoverEnabled, ApplyRecover, RecoverChain;
    RecoverEmitters(s, r);
    var t := ApplyRecover(s, r);
    forall em, x | em in t.emitters && x in t.emitters[em].chain ensures x.durable {
      if em !in s.emitters {
        DeliveryBounds.RecoverQueues(s, r, x);
      }
    }
  }

  // ----- whole interleavings -----

  lemma Unfolds(s0: State, s: State, taken: set<Corr>, retries: nat)
    requires Underway(s0, s, taken, retries)
    ensures Inv(s) && Restarted(s) && OneEach(s, taken) && AllDurable(s) && AnswersDue(s0, s, retries)
    ensures s.corrs == s0.corrs && s.rows.Keys == s0.rows.Keys && forall k | k in s0.rows :: KeyCorr(s.rows, k) == KeyCorr(s0.rows, k)
    ensures forall c :: c !in taken ==> Untouched(s0, s, c)
    ensures forall c :: Known(s0, c) ==> Known(s, c) && Lead(s, c).response == Lead(s0, c).response
    ensures forall c :: c in taken && Known(s0, c) ==> Settling(s0, s, c, retries)
  {
    hide Inv, OneEach, AllDurable, AnswersDue, Untouched, Goal, InHand;
  }

  lemma Folds(s0: State, s: State, t: State, c: Corr, d: Delivery, taken: set<Corr>, retries: nat)
    requires Inv(t) && Restarted(t) && OneEach(t, taken) && AllDurable(t) && AnswersDue(s0, t, retries) && Advances(s, t, c, d)
    requires s.corrs == s0.corrs && s.rows.Keys == s0.rows.Keys && forall k | k in s0.rows :: KeyCorr(s.rows, k) == KeyCorr(s0.rows, k)
    requires forall x :: Known(s0, x) ==> Known(s, x) && Lead(s, x).response == Lead(s0, x).response
    requires forall x :: x !in taken ==> Untouched(s0, t, x)
    requires forall x :: x in taken && Known(s0, x) ==> Settling(s0, t, x, retries)
    ensures Underway(s0, t, taken, retries)
  {
    hide Inv, OneEach, AllDurable, AnswersDue, Untouched, Goal, InHand;
  }

  lemma DeliverUnderway(s0: State, s: State, d: DeliverStep, taken: set<Corr>, retries: nat)
    requires Underway(s0, s, taken, retries) && DeliverEnabled(s, d) && Allowed(s, d, retries)
    ensures Underway(s0, ApplyDeliver(s, d), taken, retries)
  {
    hide Inv, Underway, DeliverEnabled, ApplyDeliver, Advances, AnswersDue, Untouched, Settling, Delivers, DeliverEffect, NextTask;
    HeadThere(s, d);
    var c, t := s.emitters[d.em].corr, ApplyDeliver(s, d);
    Unfolds(s0, s, taken, retries);
    DeliverKeepsInv(s, d);
    DeliverShape(s, d);
    DeliverAdvances(s, d);
    DeliverKeepsAnswers(s0, s, taken, d, retries);
    DeliverDurable(s, d);
    forall x | x !in taken ensures Untouched(s0, t, x) {
      DeliverUntouched(s0, s, d, x);
    }
    forall x | x in taken && Known(s0, x) ensures Settling(s0, t, x, retries) {
      DeliverKeepsSettling(s0, s, taken, d, retries, x);
    }
    Folds(s0, s, t, c, Delivers(s, d, Lead(s, c).delivery), taken, retries);
  }

  lemma FreshlyTaken(s0: State, s: State, taken: set<Corr>, retries: nat, item: Item)
    requires Inv(s0) && Underway(s0, s, taken, retries) && item.corr !in taken && Current(s0.rows, item)
    ensures Fresh(s0, s, item.corr)
    ensures item.terminal.None? <==> Lead(s, item.corr).delivery != Saved
  {
    CurrentFacts(s0, item);
    Unfolds(s0, s, taken, retries);
    hide Inv, Underway;
  }

  lemma RecoverUnderway(s0: State, s: State, r: RecoverStep, item: Item, taken: set<Corr>, retries: nat)
    requires Inv(s0) && Underway(s0, s, taken, retries) && RecoverEnabled(s, r)
    requires Serves(s, r, item) && item.corr !in taken && Current(s0.rows, item)
    ensures Underway(s0, ApplyRecover(s, r), taken + {item.corr}, retries)
  {
    hide Inv, Underway, RecoverEnabled, ApplyRecover, Advances, AnswersDue, Untouched, Settling, Serves, Fresh, Current, RecoverChain, Siblings, SavedResponse;
    ServedCorr(s, r, item);
    var c, t := item.corr, ApplyRecover(s, r);
    Unfolds(s0, s, taken, retries);
    FreshlyTaken(s0, s, taken, retries, item);
    KeyFacts(s, r);
    ServedKind(s, r, item);
    RecoverKeepsInv(s, r);
    RecoverFrame(s, r);
    RecoverAdvances(s, r);
    RecoverEmitters(s, r);
    RecoverKeepsAnswers(s0, s, taken, r, retries);
    RecoverDurable(s, r);
    TakenCareOf(s0, s, r, item, retries);
    forall x | x !in taken + {c} ensures Untouched(s0, t, x) {
      RecoverUntouched(s0, s, r, x);
    }
    forall x | x in taken + {c} && Known(s0, x) ensures Settling(s0, t, x, retries) {
      if x != c {
        RecoverKeepsSettling(s0, s, r, retries, x);
      }
    }
    Folds(s0, s, t, c, if r.RedeliverDelivered? then Sent else Lead(s, c).delivery, taken + {c}, retries);
  }

  lemma StaysUnderway(s0: State, s: State, step: Step, items: seq<Item>, taken: set<Corr>, retries: nat)
    requires Inv(s0) && AllCurrent(s0.rows, items) && Underway(s0, s, taken, retries) && MayFollow(s, step, items, taken, retries)
    ensures Underway(s0, Apply(s, step), TakenAfter(s, step, taken), retries)
  {
    hide Inv, Underway, Serves, DeliverEnabled, RecoverEnabled, ApplyDeliver, ApplyRecover, Current;
    match step
    case Recover(r) =>
      var j :| 0 <= j < |items| && Serves(s, r, items[j]);
      ServedCorr(s, r, items[j]);
      RecoverUnderway(s0, s, r, items[j], taken, retries);
    case Deliver(d) =>
      StepAllowed(s0, s, d, taken, retries);
      DeliverUnderway(s0, s, d, taken, retries);
    case _ =>
  }

  /** What holds on the way holds wherever an interleaving has got to. */
  lemma {:induction false} WayUnderway(s0: State, s: State, steps: seq<Step>, items: seq<Item>, taken: set<Corr>, retries: nat,
                                       t: State, all: set<Corr>)
    requires Inv(s0) && AllCurrent(s0.rows, items) && Underway(s0, s, taken, retries)
    requires Interleaved(s, steps, items, taken, retries, t, all)
    ensures Underway(s0, t, all, retries) && Exec(s, steps, retries) == Some(t)
    decreases |steps|
  {
    hide Inv, Underway, AllCurrent, Enabled, InSchedule, Apply;
    if steps != [] {
      StaysUnderway(s0, s, steps[0], items, taken, retries);
      WayUnderway(s0, Apply(s, steps[0]), steps[1..], items, TakenAfter(s, steps[0], taken), retries, t, all);
    }
  }

  lemma StepAllowed(s0: State, s: State, d: DeliverStep, taken: set<Corr>, retries: nat)
    requires Underway(s0, s, taken, retries) && DeliverEnabled(s, d) && InSchedule(s, Deliver(d), retries)
    requires !d.NoTarget? && (d.Post? ==> d.reply == Ack)
    ensures d.em in s.emitters && |s.emitters[d.em].chain| > 0 && Allowed(s, d, retries)
  {
  }

  lemma Begins(s: State, retries: nat)
    requires Inv(s) && Restarted(s) && s.emitters == map[]
    ensures Underway(s, s, {}, retries)
  {
    hide Inv;
  }

  lemma NoneInHand(s: State, c: Corr)
    requires Idle(s)
    ensures !InHand(s, c)
  {
  }

  lemma EndsSettled(s0: State, t: State, items: seq<Item>, all: set<Corr>, retries: nat, k: MessageKey)
    requires Inv(s0) && Underway(s0, t, all, retries) && Finished(t, items, all) && Listed(s0.rows, s0.out, items) && k in s0.rows
    ensures k in t.rows && t.rows[k].response == s0.rows[k].response && t.rows[k].delivery == After(s0.rows[k], s0.out, retries)
    ensures s0.rows[k].delivery == Saved ==> s0.rows[k].response.Some?
  {
    hide Inv, Underway, Listed, Idle, InHand;
    Unfolds(s0, t, all, retries);
    var c := KeyCorr(s0.rows, k);
    RowFacts(s0, k);
    RowFacts(t, k);
    NoneInHand(t, c);
    if c !in all {
      UnlistedRest(s0, items, k, retries);
    }
  }

  /**
   Completeness for every interleaving: from whatever a crash at any point left,
   recovering every listed correlation once, in any order and with their deliveries
   interleaved in any way, ends with each saved answer sent, or recorded as failed
   where its schedule was already used up, exactly as recovering them one after
   another does. Every response stays what it was.
   */
  lemma InterleavingsComplete(s: State, items: seq<Item>, steps: seq<Step>, retries: nat, t: State, all: set<Corr>)
    requires Reachable(s, retries) && Restarted(s) && s.emitters == map[] && Listed(s.rows, s.out, items)
    requires Interleaved(s, steps, items, {}, retries, t, all) && Finished(t, items, all)
    ensures Exec(s, steps, retries) == Some(t) && t.rows.Keys == s.rows.Keys
    ensures forall k | k in s.rows ::
      t.rows[k].response == s.rows[k].response && t.rows[k].delivery == After(s.rows[k], s.out, retries)
    ensures forall k | k in s.rows && s.rows[k].delivery == Saved ::
      t.rows[k].delivery == (if Spent(s.rows[k], s.out, retries) then Failed else Sent)
  {
    hide Inv, Underway, Interleaved, Listed, Reachable, Exec, Finished;
    ReachableInv(s, retries);
    ListedCurrent(s, items);
    Begins(s, retries);
    WayUnderway(s, s, steps, items, {}, retries, t, all);
    Unfolds(s, t, all, retries);
    forall k | k in s.rows
      ensures t.rows[k].response == s.rows[k].response && t.rows[k].delivery == After(s.rows[k], s.out, retries)
      ensures s.rows[k].delivery == Saved ==> s.rows[k].response.Some?
    {
      EndsSettled(s, t, items, all, retries, k);
    }
  }

  // ----- recovery is never stuck -----

  lemma {:induction false} Latest(out: Outbox, ids: set<Id>) returns (last: Id)
    requires ids != {} && ids <= out.Keys
    ensures last in ids && forall x :: x in ids ==> out[x].event.sequence <= out[last].event.sequence
    decreases ids
  {
    last := Member(ids);
    if ids != {last} {
      var other := Latest(out, ids - {last});
      last := if out[other].event.sequence > out[last].event.sequence then other else last;
    }
  }

  /** Waiting rows can be listed by sequence. */
  lemma {:induction false} Listing(out: Outbox, c: Corr, ids: set<Id>) returns (order: seq<Id>)
    requires Sequenced(out, c) && forall id :: id in ids ==> OfCorr(out, id, c)
    ensures (forall id :: id in order <==> id in ids) && forall i :: 0 <= i < |order| ==> order[i] in ids
    ensures forall i, j :: 0 <= i < j < |order| ==> order[i] in out && order[j] in out && out[order[i]].event.sequence < out[order[j]].event.sequence
    decreases ids
  {
    if ids == {} {
      order := [];
    } else {
      forall id | id in ids ensures id in out.Keys {
        assert OfCorr(out, id, c);
      }
      var last := Latest(out, ids);
      var before := Listing(out, c, ids - {last});
      order := before + [last];
      forall i, j | 0 <= i < j < |order| ensures order[i] in out && order[j] in out && out[order[i]].event.sequence < out[order[j]].event.sequence {
        assert order[i] in ids && order[j] in ids;
        assert j < |before| ==> order[i] == before[i] && order[j] == before[j];
        assert j == |before| ==> before[i] in ids - {last} && OfCorr(out, before[i], c) && OfCorr(out, last, c);
      }
    }
  }

  lemma WaitingOrder(out: Outbox, c: Corr) returns (order: seq<Id>)
    requires Sequenced(out, c)
    ensures PendingInOrder(out, c, order)
  {
    var ids := set id | id in out && OfCorr(out, id, c) && out[id].status == Waiting;
    order := Listing(out, c, ids);
    forall i | 0 <= i < |order| ensures order[i] in out {
      assert order[i] in ids;
    }
  }

  lemma NextDelivery(s: State, em: Id, retries: nat) returns (d: DeliverStep)
    requires AllDurable(s) && em in s.emitters && s.emitters[em].chain != []
    ensures DeliverEnabled(s, d) && InSchedule(s, Deliver(d), retries) && !d.NoTarget? && (d.Post? ==> d.reply == Ack)
  {
    var h := Head(s, em);
    assert h in s.emitters[em].chain;
    match h.phase
    case Queued => d := ResolveTarget(em);
    case Ready => d := if h.attempt < 1 + retries then Post(em, Ack) else Exhaust(em);
    case Acked => d := MarkDelivered(em);
    case Refused => d := RecordAttempt(em);
    case MarkedDelivered => d := DeliverStep.SentHook(em);
    case MarkedFailed => d := DeliverStep.FailedHook(em, 0);
  }

  lemma NextRecovery(s0: State, s: State, taken: set<Corr>, retries: nat, item: Item) returns (r: RecoverStep)
    requires Inv(s0) && Underway(s0, s, taken, retries) && item.corr !in taken && Current(s0.rows, item)
    ensures RecoverEnabled(s, r) && Serves(s, r, item)
  {
    hide Inv, Underway, Current, PendingInOrder, ResumesAt;
    var c := item.corr;
    FreshlyTaken(s0, s, taken, retries, item);
    Unfolds(s0, s, taken, retries);
    CurrentFacts(s0, item);
    FreshKey(s0, s, c);
    InvSound(s);
    var em := UnusedEmitter(s.emitters.Keys);
    var n := Counter(s.out, c);
    var order := WaitingOrder(s.out, c);
    hide Fresh;
    var k := s.corrs[c];
    if item.terminal.None? {
      r := Resume(k, em, n, order);
    } else {
      var id := item.terminal.value.id;
      if id !in s.out {
        r := RedeliverMissing(k, em, n);
      } else {
        match s.out[id].status
        case Waiting => r := RedeliverWaiting(k, em, n, order);
        case PermanentFailure => r := RedeliverFailed(k, em, n);
        case Delivered => r := RedeliverDelivered(k);
      }
    }
  }

  lemma FreshKey(s0: State, s: State, c: Corr)
    requires Fresh(s0, s, c)
    ensures Known(s0, c) && Known(s, c) && KeyCorr(s.rows, s.corrs[c]) == c && Lead(s, c).response == Lead(s0, c).response
  {
  }

  /** Wherever an interleaving has got to, it is finished or can go on. */
  lemma NeverStuck(s: State, items: seq<Item>, steps: seq<Step>, retries: nat, t: State, all: set<Corr>) returns (next: Step)
    requires Reachable(s, retries) && Restarted(s) && s.emitters == map[] && Listed(s.rows, s.out, items)
    requires Interleaved(s, steps, items, {}, retries, t, all) && !Finished(t, items, all)
    ensures MayFollow(t, next, items, all, retries)
  {
    hide Inv, Underway, Interleaved, Listed, Reachable, RecoverEnabled, DeliverEnabled, Serves, InSchedule, Current;
    ReachableInv(s, retries);
    ListedCurrent(s, items);
    Begins(s, retries);
    WayUnderway(s, s, steps, items, {}, retries, t, all);
    Unfolds(s, t, all, retries);
    if !Idle(t) {
      var em :| em in t.emitters && t.emitters[em].chain != [];
      var d := NextDelivery(t, em, retries);
      next := Deliver(d);
    } else {
      var j :| 0 <= j < |items| && items[j].corr !in all;
      var r := NextRecovery(s, t, all, retries, items[j]);
      ServedCorr(t, r, items[j]);
      RecoveryUnscheduled(t, r, retries);
      next := Recover(r);
    }
  }

  lemma RecoveryUnscheduled(s: State, r: RecoverStep, retries: nat)
    ensures InSchedule(s, Recover(r), retries)
  {
  }

  // ----- recovery ends -----

  /** The steps a delivery may still take. */
  function Weight(t: Task): nat {
    match t.phase
    case Queued => 5
    case Refused => 5
    case Ready => 4
    case Acked => 3
    case MarkedDelivered => 2
    case MarkedFailed => 1
  }

  function ChainLoad(chain: seq<Task>): (n: nat)
    ensures n <= 5 * |chain|
  {
    if chain == [] then 0 else Weight(chain[0]) + ChainLoad(chain[1..])
  }

  ghost function Pick<T>(s: set<T>): (x: T)
    requires s != {}
    ensures x in s
  {
    var x :| x in s; x
  }

  ghost function Load(emitters: map<Id, DeliveryProtocol.Emitter>, ids: set<Id>): nat
    requires ids <= emitters.Keys
    decreases ids
  {
    if ids == {} then 0 else ChainLoad(emitters[Pick(ids)].chain) + Load(emitters, ids - {Pick(ids)})
  }

  lemma {:induction false} LoadAt(emitters: map<Id, DeliveryProtocol.Emitter>, ids: set<Id>, x: Id)
    requires ids <= emitters.Keys && x in ids
    ensures Load(emitters, ids) == ChainLoad(emitters[x].chain) + Load(emitters, ids - {x})
    decreases ids
  {
    var y := Pick(ids);
    assert Load(emitters, ids) == ChainLoad(emitters[y].chain) + Load(emitters, ids - {y});
    if x != y {
      LoadAt(emitters, ids - {y}, x);
      LoadAt(emitters, ids - {x}, y);
      assert ids - {y} - {x} == ids - {x} - {y};
    }
  }

  lemma {:induction false} LoadSame(emitters: map<Id, DeliveryProtocol.Emitter>, others: map<Id, DeliveryProtocol.Emitter>, ids: set<Id>)
    requires ids <= emitters.Keys && ids <= others.Keys && forall x :: x in ids ==> others[x].chain == emitters[x].chain
    ensures Load(others, ids) == Load(emitters, ids)
    decreases ids
  {
    if ids != {} {
      var x := Pick(ids);
      LoadSame(emitters, others, ids - {x});
      assert Load(others, ids) == ChainLoad(others[x].chain) + Load(others, ids - {x});
    }
  }

  lemma LoadWith(emitters: map<Id, DeliveryProtocol.Emitter>, em: Id, e: DeliveryProtocol.Emitter)
    ensures Load(emitters[em := e], emitters[em := e].Keys)
      == ChainLoad(e.chain) + Load(emitters, emitters.Keys - {em})
  {
    var others := emitters[em := e];
    LoadAt(others, others.Keys, em);
    assert others.Keys - {em} == emitters.Keys - {em};
    LoadSame(emitters, others, emitters.Keys - {em});
  }

  lemma Lighter(s0: State, s: State, d: DeliverStep, retries: nat)
    requires Inv(s) && DeliverEnabled(s, d) && Allowed(s, d, retries) && AnswersDue(s0, s, retries)
    ensures ChainLoad(DeliveryBounds.NextChain(s.emitters[d.em].chain, NextTask(s, d))) < ChainLoad(s.emitters[d.em].chain)
  {
    hide Inv, SendCorrelation, AnswersDue;
    var chain, h := s.emitters[d.em].chain, Head(s, d.em);
    if Answer(h.event.kind) {
      HeadFacts(s, d.em);
      DeliveryBounds.SendSucceeds(s, s.emitters[d.em].corr, h.event);
    }
    var next := NextTask(s, d);
    if next.Some? {
      assert ([next.value] + chain[1..])[1..] == chain[1..];
    }
  }

  /** The items not taken up yet. */
  ghost function Untaken(items: seq<Item>, taken: set<Corr>): set<int> {
    set j | 0 <= j < |items| && items[j].corr !in taken
  }

  /** A bound on the steps still to come. */
  ghost function StepsLeft(s: State, items: seq<Item>, taken: set<Corr>, rows: nat): nat {
    Load(s.emitters, s.emitters.Keys) + |Untaken(items, taken)| * (5 * rows + 6)
  }

  lemma DeliverLess(s0: State, s: State, d: DeliverStep, items: seq<Item>, taken: set<Corr>, retries: nat, rows: nat)
    requires Underway(s0, s, taken, retries) && DeliverEnabled(s, d) && Allowed(s, d, retries)
    ensures StepsLeft(ApplyDeliver(s, d), items, taken, rows) < StepsLeft(s, items, taken, rows)
  {
    hide Inv, Underway, DeliverEnabled, ApplyDeliver, NextTask, DeliverEffect, Load, Untaken, AnswersDue;
    HeadThere(s, d);
    Unfolds(s0, s, taken, retries);
    DeliverShape(s, d);
    Lighter(s0, s, d, retries);
    LoadAt(s.emitters, s.emitters.Keys, d.em);
    LoadWith(s.emitters, d.em, ApplyDeliver(s, d).emitters[d.em]);
  }

  /** A chain resumed lists different rows that were there when recovery began. */
  lemma ShortChain(s0: State, s: State, r: RecoverStep)
    requires RecoverEnabled(s, r) && Fresh(s0, s, KeyCorr(s.rows, r.key)) && !r.RedeliverThrough?
    ensures RecoverChain(s, r).Some? ==> |RecoverChain(s, r).value| <= |s0.out| + 1
  {
    hide Inv, RecoverChain, PendingInOrder;
    FreshKnown(s0, s, KeyCorr(s.rows, r.key));
    ChainsOf(s, r);
    if r.Resume? || r.RedeliverWaiting? {
      OrderWithin(s0, s, KeyCorr(s.rows, r.key), r.order);
    }
  }

  lemma OrderWithin(s0: State, s: State, c: Corr, order: seq<Id>)
    requires Untouched(s0, s, c) && PendingInOrder(s.out, c, order)
    ensures |order| <= |s0.out|
  {
    forall i | 0 <= i < |order| ensures order[i] in s0.out.Keys {
      assert order[i] in order;
      assert OfCorr(s.out, order[i], c);
    }
    ListedOnce(s0.out.Keys, order);
  }

  lemma {:induction false} ListedOnce(ids: set<Id>, order: seq<Id>)
    requires forall i :: 0 <= i < |order| ==> order[i] in ids
    requires forall i, j :: 0 <= i < j < |order| ==> order[i] != order[j]
    ensures |order| <= |ids|
    decreases |order|
  {
    if order != [] {
      ListedOnce(ids - {order[0]}, order[1..]);
    }
  }

  lemma OneFewer(items: seq<Item>, taken: set<Corr>, j: nat)
    requires Distinct(items) && j < |items| && items[j].corr !in taken
    ensures |Untaken(items, taken + {items[j].corr})| + 1 == |Untaken(items, taken)|
  {
    assert Untaken(items, taken) == Untaken(items, taken + {items[j].corr}) + {j};
  }

  lemma ChainAdds(s0: State, s: State, r: RecoverStep)
    requires RecoverEnabled(s, r) && Fresh(s0, s, KeyCorr(s.rows, r.key)) && !r.RedeliverThrough?
    ensures var t := ApplyRecover(s, r);
      Load(t.emitters, t.emitters.Keys) <= Load(s.emitters, s.emitters.Keys) + 5 * |s0.out| + 5
  {
    hide Inv, RecoverEnabled, ApplyRecover, RecoverChain, Load, Fresh;
    KeyThere(s, r);
    FreshKnown(s0, s, KeyCorr(s.rows, r.key));
    RecoverEmitters(s, r);
    ShortChain(s0, s, r);
    var t := ApplyRecover(s, r);
    if !r.RedeliverDelivered? {
      LoadWith(s.emitters, r.em, t.emitters[r.em]);
      assert s.emitters.Keys - {r.em} == s.emitters.Keys;
    }
  }

  lemma RecoverLess(s0: State, s: State, r: RecoverStep, items: seq<Item>, j: nat, taken: set<Corr>, retries: nat)
    requires Inv(s0) && AllCurrent(s0.rows, items) && Underway(s0, s, taken, retries) && RecoverEnabled(s, r)
    requires j < |items| && Serves(s, r, items[j]) && items[j].corr !in taken
    ensures StepsLeft(ApplyRecover(s, r), items, taken + {items[j].corr}, |s0.out|) < StepsLeft(s, items, taken, |s0.out|)
  {
    hide Inv, Underway, RecoverEnabled, ApplyRecover, RecoverChain, Load, Untaken, Serves, Fresh, Current;
    NotThrough(s, r, items[j]);
    FreshlyTaken(s0, s, taken, retries, items[j]);
    ChainAdds(s0, s, r);
    OneFewer(items, taken, j);
    Fewer(|Untaken(items, taken)|, |Untaken(items, taken + {items[j].corr})|, 5 * |s0.out| + 6);
  }

  lemma NotThrough(s: State, r: RecoverStep, item: Item)
    requires RecoverEnabled(s, r) && Serves(s, r, item)
    ensures r.key in s.rows && item.corr == KeyCorr(s.rows, r.key) && !r.RedeliverThrough?
  {
  }

  lemma Fewer(more: nat, less: nat, each: nat)
    requires more == less + 1
    ensures more * each == less * each + each
  {
  }

  /** Every interleaving ends: no more steps follow than the items and the outbox found at start-up allow. */
  lemma {:induction false} StepsBounded(s0: State, s: State, steps: seq<Step>, items: seq<Item>, taken: set<Corr>, retries: nat,
                                        t: State, all: set<Corr>)
    requires Inv(s0) && AllCurrent(s0.rows, items) && Underway(s0, s, taken, retries)
    requires Interleaved(s, steps, items, taken, retries, t, all)
    ensures |steps| <= StepsLeft(s, items, taken, |s0.out|)
    decreases |steps|
  {
    hide Inv, Underway, Current, Enabled, InSchedule, StepsLeft, Serves, DeliverEnabled, RecoverEnabled, ApplyDeliver, ApplyRecover;
    if steps != [] {
      StaysUnderway(s0, s, steps[0], items, taken, retries);
      StepsBounded(s0, Apply(s, steps[0]), steps[1..], items, TakenAfter(s, steps[0], taken), retries, t, all);
      StepLess(s0, s, steps[0], items, taken, retries);
    }
  }

  lemma StepLess(s0: State, s: State, step: Step, items: seq<Item>, taken: set<Corr>, retries: nat)
    requires Inv(s0) && AllCurrent(s0.rows, items) && Underway(s0, s, taken, retries) && MayFollow(s, step, items, taken, retries)
    ensures StepsLeft(Apply(s, step), items, TakenAfter(s, step, taken), |s0.out|) < StepsLeft(s, items, taken, |s0.out|)
  {
    hide Inv, Underway, Serves, DeliverEnabled, RecoverEnabled, ApplyDeliver, ApplyRecover, Current, StepsLeft;
    match step
    case Recover(r) =>
      var j :| 0 <= j < |items| && Serves(s, r, items[j]);
      ServedCorr(s, r, items[j]);
      RecoverLess(s0, s, r, items, j, taken, retries);
    case Deliver(d) =>
      StepAllowed(s0, s, d, taken, retries);
      DeliverLess(s0, s, d, items, taken, retries, |s0.out|);
    case _ =>
  }

  /** No interleaving goes on for ever: it takes at most this many steps. */
  lemma InterleavingsEnd(s: State, items: seq<Item>, steps: seq<Step>, retries: nat, t: State, all: set<Corr>)
    requires Reachable(s, retries) && Restarted(s) && s.emitters == map[] && Listed(s.rows, s.out, items)
    requires Interleaved(s, steps, items, {}, retries, t, all)
    ensures |steps| <= |items| * (5 * |s.out| + 6)
  {
    hide Inv, Underway, Interleaved, Listed, Reachable;
    ReachableInv(s, retries);
    ListedCurrent(s, items);
    Begins(s, retries);
    StepsBounded(s, s, steps, items, {}, retries, t, all);
    AllUntaken(items);
  }

  lemma {:induction false} AllUntaken(items: seq<Item>)
    ensures |Untaken(items, {})| == |items|
    decreases |items|
  {
    if items == [] {
      assert Untaken(items, {}) == {};
    } else {
      AllUntaken(items[..|items| - 1]);
      assert Untaken(items, {}) == Untaken(items[..|items| - 1], {}) + {|items| - 1};
    }
  }
}
