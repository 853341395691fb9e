/** What every run of the delivery protocol keeps: agreement, finality, order; and when it raises an internal error. */
module DeliveryTheorems {
  import opened Wrappers
  import opened IdempotencyStore
  import opened DeliveryProtocol
  import opened DeliveryInvariants
  import opened DeliverySteps
  import opened DeliverySafety

  ghost predicate Reachable(s: State, retries: nat) {
    exists steps :: Exec(Init(), steps, retries) == Some(s)
  }

  lemma ReachableInv(s: State, retries: nat)
    requires Reachable(s, retries)
    ensures Inv(s)
  {
    hide Inv, Exec;
    var steps :| Exec(Init(), steps, retries) == Some(s);
    InitInv();
    RunKeepsInv(Init(), steps, retries);
  }

  lemma {:induction false} ExecAppend(s: State, steps: seq<Step>, more: seq<Step>, retries: nat)
    requires Exec(s, steps, retries).Some?
    ensures Exec(s, steps + more, retries) == Exec(Exec(s, steps, retries).value, more, retries)
    decreases |steps|
  {
    hide Enabled, Apply, InSchedule;
    if steps == [] {
      assert steps + more == more;
    } else {
      assert (steps + more)[1..] == steps[1..] + more;
      ExecAppend(Apply(s, steps[0]), steps[1..], more, retries);
    }
  }

  // ----- agreement -----

  /**
   In every reachable state the two stores agree: a correlation has at most one
   reply or error in the outbox, that event is the saved response of every
   sibling, and siblings move through delivery together.
   */
  lemma TerminalAgreement(s: State, retries: nat)
    requires Reachable(s, retries)
    ensures forall i, j | i in s.out && j in s.out && CorrOf(s.out[i]) == CorrOf(s.out[j])
                          && Answer(s.out[i].event.kind) && Answer(s.out[j].event.kind) :: i == j
    ensures forall i, k | i in s.out && Answer(s.out[i].event.kind)
                          && k in s.rows && KeyCorr(s.rows, k) == CorrOf(s.out[i]) ::
              s.rows[k].delivery != Pending && s.rows[k].response == Some(s.out[i].event)
    ensures forall k, l :: k in s.rows && l in s.rows && KeyCorr(s.rows, k) == KeyCorr(s.rows, l)
              ==> s.rows[k].delivery == s.rows[l].delivery && s.rows[k].response == s.rows[l].response
  {
    ReachableInv(s, retries);
    forall i | i in s.out && Answer(s.out[i].event.kind)
      ensures Answered(s, CorrOf(s.out[i]), s.out[i].event) && s.out[i].event.id == i
    {
      assert OutRowInv(s, i);
    }
  }

  // ----- internal errors -----

  /** The one step that raises an internal error. */
  predicate Faulty(step: Step) {
    step.Recover? && step.recovery.RedeliverThrough?
  }

  function FaultsOf(steps: seq<Step>): nat {
    if steps == [] then 0 else (if Faulty(steps[0]) then 1 else 0) + FaultsOf(steps[1..])
  }

  lemma EmitFaults(s: State, step: EmitStep)
    requires Inv(s) && EmitEnabled(s, step)
    ensures ApplyEmit(s, step).faults == s.faults
  {
    if step.SaveTerminal? {
      OpenEmitterFacts(s, step.em);
      SaveSucceeds(s, s.emitters[step.em].corr, NextEvent(s.emitters[step.em], step.kind, step.id, step.body));
    } else if step.InsertPrepared? {
      PreparedFacts(s, step.em);
    }
    hide Inv, SaveForCorrelation;
  }

  lemma PreparedFacts(s: State, em: Id)
    requires Inv(s) && em in s.emitters && s.emitters[em].prepared.Some?
    ensures SavedInv(s, s.emitters[em].corr, s.emitters[em].prepared.value)
  {
    assert EmitterInv(s, s.emitters[em]);
  }

  lemma RecoverFaults(s: State, step: RecoverStep)
    requires Inv(s) && RecoverEnabled(s, step)
    ensures ApplyRecover(s, step).faults == s.faults + (if step.RedeliverThrough? then 1 else 0)
  {
    if step.RedeliverThrough? {
      ThroughIsRefused(s, step.key, step.em);
    } else if !step.Resume? {
      RowFacts(s, step.key);
      NoConflict(s, step.key);
      PreparedHookIdle(s, KeyCorr(s.rows, step.key), SavedResponse(s, step));
      SendSettles(s, KeyCorr(s.rows, step.key), SavedResponse(s, step));
    }
    hide Inv, SaveForCorrelation, SendCorrelation, Moved, PayloadConflict, ResumesAt, PendingInOrder, Busy;
  }

  lemma DeliverFaults(s: State, step: DeliverStep)
    requires Inv(s) && DeliverEnabled(s, step)
    ensures ApplyDeliver(s, step).faults == s.faults
  {
    hide Inv, DeliverEffect, NextTask;
    EffectFaults(s, step);
  }

  lemma EffectFaults(s: State, step: DeliverStep)
    requires Inv(s) && DeliverEnabled(s, step)
    ensures DeliverEffect(s, step).faults == s.faults
  {
    hide Inv, SendCorrelation, FailCorrelation, Moved, Update, SetStatus, Landed, Flown;
    var c, e := s.emitters[step.em].corr, Head(s, step.em).event;
    if (step.SentHook? || step.FailedHook?) && Answer(e.kind) {
      HeadFacts(s, step.em);
      HooksSettle(s, c, e, if step.FailedHook? then step.error else 0);
    }
  }

  lemma HooksSettle(s: State, c: Corr, e: Event, error: Id)
    requires Inv(s) && Answered(s, c, e)
    ensures SendCorrelation(s.rows, c, e.id).Ok? && FailCorrelation(s.rows, c, e.id, error).Ok?
  {
    SendSettles(s, c, e);
    FailSettles(s, c, e, error);
  }

  lemma InboundFaults(s: State, step: InboundStep)
    requires InboundEnabled(s, step)
    ensures ApplyInbound(s, step).faults == s.faults
  {
    hide InboundEnabled, Construct;
  }

  lemma StepFaults(s: State, step: Step)
    requires Inv(s) && Enabled(s, step)
    ensures Apply(s, step).faults == s.faults + (if Faulty(step) then 1 else 0)
  {
    hide Inv, ApplyInbound, ApplyEmit, ApplyRecover, ApplyDeliver;
    match step
    case Inbound(i) => InboundFaults(s, i);
    case Emit(e) => EmitFaults(s, e);
    case Recover(r) => RecoverFaults(s, r);
    case Deliver(d) => DeliverFaults(s, d);
    case Crash =>
  }

  /**
   Along every run the internal errors raised are exactly the redeliveries through
   another correlation's entry: no save, hook or other redelivery ever raises one
   of the stores' mismatch errors.
   */
  lemma {:induction false} RunFaults(s: State, steps: seq<Step>, retries: nat)
    requires Inv(s) && Exec(s, steps, retries).Some?
    ensures Exec(s, steps, retries).value.faults == s.faults + FaultsOf(steps)
    decreases |steps|
  {
    hide Inv, Enabled, Apply, InSchedule;
    if steps != [] {
      StepFaults(s, steps[0]);
      StepKeepsInv(s, steps[0]);
      RunFaults(Apply(s, steps[0]), steps[1..], retries);
    }
  }

  /**
   When redelivering the saved response of `k` raises an internal error: exactly
   when another correlation's entry is active in the conversation of `k`. The
   error then leaves the stores, the emitters and the entries as they were. The
   right-hand side is the guard that sends a redelivery through that entry; that the
   entry's hook then refuses is `ThroughIsRefused`, and that no other step of a run
   ever faults is `RunFaults`.
   */
  lemma RedeliveryFaultsExactly(s: State, step: RecoverStep, retries: nat)
    requires Reachable(s, retries) && RecoverEnabled(s, step) && !step.Resume?
    ensures ApplyRecover(s, step).faults != s.faults
       <==> exists c :: c != KeyCorr(s.rows, step.key) && EntryFor(s, c, step.key)
    ensures ApplyRecover(s, step).faults != s.faults ==> ApplyRecover(s, step) == s.(faults := s.faults + 1)
  {
    hide Inv, Reachable, SaveForCorrelation, SendCorrelation, ResumesAt, PendingInOrder;
    ReachableInv(s, retries);
    RecoverFaults(s, step);
    if step.RedeliverThrough? {
      ThroughKeepsInv(s, step.key, step.em);
      assert EntryFor(s, s.emitters[step.em].corr, step.key);
    } else {
      assert !Busy(s, step.key);
    }
  }

  /** A message that opens a turn of its own: its row, then its correlation's entry. */
  function OpenTurn(k: MessageKey, conversation: Id, hash: Id, minted: Id, em: Id): seq<Step> {
    [Inbound(BeginNew(k, conversation, hash, minted)), Inbound(Activate(Corr(k.adapter, minted), em, k, 0))]
  }

  lemma TurnOpens(s: State, k: MessageKey, conversation: Id, hash: Id, minted: Id, em: Id, retries: nat) returns (t: State)
    requires k !in s.rows && Corr(k.adapter, minted) !in s.corrs && Corr(k.adapter, minted) !in s.open
    requires s.out == map[] && em !in s.emitters
    ensures Exec(s, OpenTurn(k, conversation, hash, minted, em), retries) == Some(t)
    ensures t.rows == s.rows[k := FreshRow(conversation, minted, hash)]
    ensures t.emitters == s.emitters[em := Emitter(Corr(k.adapter, minted), conversation, 0, false, false, None, [])]
    ensures t.open == s.open[Corr(k.adapter, minted) := em]
    ensures t.corrs == s.corrs[Corr(k.adapter, minted) := k] && t.out == s.out && t.events == s.events && t.faults == s.faults
  {
    var steps := OpenTurn(k, conversation, hash, minted, em);
    var mid := Apply(s, steps[0]);
    assert Enabled(mid, steps[1]);
    t := Apply(mid, steps[1]);
    assert steps[1..] == [steps[1]] && steps[1..][1..] == [];
    assert Exec(mid, steps[1..], retries) == Exec(t, [], retries);
  }

  /** A conversation whose first message was answered and whose second has opened a turn. */
  function SecondTurn(m1: MessageKey, m2: MessageKey, conversation: Id): seq<Step> {
    OpenTurn(m1, conversation, 0, 1, 1) + [Step.Emit(SaveTerminal(1, Reply, 7, 0))] + OpenTurn(m2, conversation, 1, 2, 2)
  }

  lemma FirstTurnAnswered(m1: MessageKey, m2: MessageKey, conversation: Id, retries: nat) returns (s: State)
    requires m1 != m2
    ensures Exec(Init(), OpenTurn(m1, conversation, 0, 1, 1) + [Step.Emit(SaveTerminal(1, Reply, 7, 0))], retries) == Some(s)
    ensures s.rows.Keys == {m1} && Redeliverable(s, m1) && s.rows[m1].delivery == Saved && KeyCorr(s.rows, m1) == Corr(m1.adapter, 1)
    ensures s.rows[m1].conversation == conversation
    ensures s.out == map[] && s.open == map[] && s.emitters.Keys == {1} && s.corrs.Keys == {Corr(m1.adapter, 1)} && s.faults == 0
  {
    hide Inv, Exec, Enabled, SaveForCorrelation;
    var asked := TurnOpens(Init(), m1, conversation, 0, 1, 1, retries);
    InitInv();
    RunKeepsInv(Init(), OpenTurn(m1, conversation, 0, 1, 1), retries);
    s := AnswersTurn(asked, m1, retries);
    ExecAppend(Init(), OpenTurn(m1, conversation, 0, 1, 1), [Step.Emit(SaveTerminal(1, Reply, 7, 0))], retries);
  }

  lemma AnswersTurn(s: State, k: MessageKey, retries: nat) returns (t: State)
    requires Inv(s) && s.rows.Keys == {k} && KeyCorr(s.rows, k) == Corr(k.adapter, 1)
    requires s.open == map[Corr(k.adapter, 1) := 1] && s.events == map[]
    requires 1 in s.emitters && s.emitters[1].corr == Corr(k.adapter, 1) && !s.emitters[1].terminal
    ensures Exec(s, [Step.Emit(SaveTerminal(1, Reply, 7, 0))], retries) == Some(t)
    ensures t.rows.Keys == {k} && Redeliverable(t, k) && t.rows[k].delivery == Saved
    ensures t.rows[k].conversation == s.rows[k].conversation && t.rows[k].correlation == s.rows[k].correlation
    ensures t.open == map[] && t.out == s.out && t.emitters.Keys == s.emitters.Keys && t.corrs == s.corrs && t.faults == s.faults
  {
    hide Inv, SaveForCorrelation, Exec;
    var step := SaveTerminal(1, Reply, 7, 0);
    OpenEmitterFacts(s, 1);
    var event := NextEvent(s.emitters[1], Reply, 7, 0);
    SaveSucceeds(s, s.emitters[1].corr, event);
    assert InGroup(s.rows, k, s.emitters[1].corr);
    t := ApplyEmit(s, step);
    ExecOne(s, Step.Emit(step), retries);
  }

  lemma ExecOne(s: State, step: Step, retries: nat)
    requires Enabled(s, step) && InSchedule(s, step, retries)
    ensures Exec(s, [step], retries) == Some(Apply(s, step))
  {
    hide Enabled, InSchedule, Apply;
    assert [step][1..] == [];
    assert Exec(Apply(s, step), [], retries) == Some(Apply(s, step));
  }

  /**
   Such a state is reached, and the adapter sending the first message again then
   gets an error: the second correlation's emitter is asked to redeliver for the first.
   */
  lemma RetryOfAnsweredMessageFaults(m1: MessageKey, m2: MessageKey, conversation: Id, retries: nat) returns (s: State)
    requires m1 != m2 && m1.adapter == m2.adapter
    ensures Exec(Init(), SecondTurn(m1, m2, conversation), retries) == Some(s)
    ensures s.rows.Keys == {m1, m2} && s.rows[m1].delivery == Saved && s.faults == 0
    ensures Exec(s, [Step.Recover(RedeliverThrough(m1, 2))], retries) == Some(s.(faults := 1))
  {
    hide Inv, Exec;
    var answered := FirstTurnAnswered(m1, m2, conversation, retries);
    var first := OpenTurn(m1, conversation, 0, 1, 1) + [Step.Emit(SaveTerminal(1, Reply, 7, 0))];
    s := TurnOpens(answered, m2, conversation, 1, 2, 2, retries);
    ExecAppend(Init(), first, OpenTurn(m2, conversation, 1, 2, 2), retries);
    assert SecondTurn(m1, m2, conversation) == first + OpenTurn(m2, conversation, 1, 2, 2);
    hide SecondTurn, OpenTurn;
    InitInv();
    RunKeepsInv(Init(), SecondTurn(m1, m2, conversation), retries);
    FaultingRetry(s, m1, 2, retries);
  }

  lemma FaultingRetry(s: State, k: MessageKey, em: Id, retries: nat)
    requires Inv(s) && RecoverEnabled(s, RedeliverThrough(k, em))
    ensures Exec(s, [Step.Recover(RedeliverThrough(k, em))], retries) == Some(s.(faults := s.faults + 1))
  {
    hide Inv, RecoverEnabled, ApplyRecover, Exec;
    ThroughKeepsInv(s, k, em);
    ExecOne(s, Step.Recover(RedeliverThrough(k, em)), retries);
  }

  // ----- finality -----

  /** The order in which a delivery track may move. */
  predicate Reaches(d: Delivery, d': Delivery) {
    match d
    case Pending => true
    case Saved => d' != Pending
    case Failed => d' in {Failed, Sent}
    case Sent => d' == Sent
  }

  /** One row later in a run: same identity, response kept once saved, `sent` final. */
  predicate RowProgress(a: Row, b: Row) {
    && b.conversation == a.conversation && b.correlation == a.correlation && b.hash == a.hash
    && (a.ingested ==> b.ingested)
    && Reaches(a.delivery, b.delivery)
    && (a.response.Some? ==> b.response == a.response)
  }

  ghost predicate RowsProgress(a: Rows, b: Rows) {
    forall k :: k in a ==> k in b && RowProgress(a[k], b[k])
  }

  /** An outbox row keeps its payload, adapter and place. */
  ghost predicate OutProgress(a: Outbox, b: Outbox) {
    forall id | id in a :: id in b && b[id] == a[id].(status := b[id].status, attempts := b[id].attempts)
  }

  /** The acknowledged set grows only by a POST the adapter answered 2xx. */
  ghost predicate AckProgress(s: State, t: State, step: Step) {
    t.acked == s.acked
    || (step.Deliver? && step.delivery.Post? && step.delivery.reply == Ack && Heads(s, step.delivery.em, Ready)
        && t.acked == s.acked + {Head(s, step.delivery.em).event.id})
  }

  lemma HookProgress(s: State, c: Corr, r: Result<Rows, StoreError>, e: Event, error: Id)
    requires r in {SaveForCorrelation(s.rows, c, e), SendCorrelation(s.rows, c, e.id), FailCorrelation(s.rows, c, e.id, error)}
    requires forall k :: k in s.rows ==> RowValid(s.rows[k])
    ensures RowsProgress(s.rows, Hooked(s, r).rows)
  {
  }

  /** One step, seen from the rows and the outbox. */
  ghost predicate Progress(s: State, t: State) {
    RowsProgress(s.rows, t.rows) && OutProgress(s.out, t.out)
  }

  ghost predicate RowsSound(s: State) {
    && (forall k :: k in s.rows ==> RowValid(s.rows[k]))
    && (forall id :: id in s.out ==> id in s.events)
  }

  lemma EmitProgress(s: State, step: EmitStep)
    requires RowsSound(s) && EmitEnabled(s, step)
    ensures Progress(s, ApplyEmit(s, step)) && ApplyEmit(s, step).acked == s.acked
  {
    EmitEffectProgress(s, step);
    hide EmitEffect, EmitterAfter, Progress;
  }

  lemma EmitEffectProgress(s: State, step: EmitStep)
    requires RowsSound(s) && EmitEnabled(s, step)
    ensures Progress(s, EmitEffect(s, step)) && EmitEffect(s, step).acked == s.acked
  {
    hide SaveForCorrelation, RowProgress;
    SameRowsProgress(s.rows);
    if step.SaveTerminal? {
      var e := NextEvent(s.emitters[step.em], step.kind, step.id, step.body);
      HookProgress(s, s.emitters[step.em].corr, SaveForCorrelation(s.rows, s.emitters[step.em].corr, e), e, 0);
    }
  }

  lemma RecoverProgress(s: State, step: RecoverStep)
    requires RowsSound(s) && RecoverEnabled(s, step)
    ensures Progress(s, ApplyRecover(s, step)) && ApplyRecover(s, step).acked == s.acked
  {
    RecoverEffectProgress(s, step);
    hide RecoverEffect, RecoverChain, RecoverEnabled, Progress;
  }

  lemma RecoverEffectProgress(s: State, step: RecoverStep)
    requires RowsSound(s) && RecoverEnabled(s, step)
    ensures Progress(s, RecoverEffect(s, step)) && RecoverEffect(s, step).acked == s.acked
  {
    hide SaveForCorrelation, SendCorrelation, ResumesAt, PendingInOrder, RowProgress;
    SameRowsProgress(s.rows);
    match step
    case Resume(_, _, _, _) =>
    case RedeliverWaiting(_, _, _, _) =>
    case RedeliverMissing(k, _, _) => SaveHookProgress(s, k);
    case RedeliverFailed(k, _, _) => SaveHookProgress(s, k);
    case RedeliverDelivered(k) =>
      var e := s.rows[k].response.value;
      var c := KeyCorr(s.rows, k);
      HookProgress(s, c, SendCorrelation(s.rows, c, e.id), e, 0);
    case RedeliverThrough(k, em) =>
      var e := s.rows[k].response.value;
      var c := s.emitters[em].corr;
      HookProgress(s, c, SaveForCorrelation(s.rows, c, e), e, 0);
  }

  lemma SaveHookProgress(s: State, k: MessageKey)
    requires RowsSound(s) && Redeliverable(s, k)
    ensures RowsProgress(s.rows, Hooked(s, SaveForCorrelation(s.rows, KeyCorr(s.rows, k), s.rows[k].response.value)).rows)
  {
    var e := s.rows[k].response.value;
    HookProgress(s, KeyCorr(s.rows, k), SaveForCorrelation(s.rows, KeyCorr(s.rows, k), e), e, 0);
  }

  lemma SameRowsProgress(rows: Rows)
    ensures RowsProgress(rows, rows)
  {
  }

  lemma EffectProgress(s: State, step: DeliverStep)
    requires RowsSound(s) && DeliverEnabled(s, step)
    ensures Progress(s, DeliverEffect(s, step)) && AckProgress(s, DeliverEffect(s, step), Deliver(step))
  {
    hide SendCorrelation, FailCorrelation, RowProgress;
    var e := Head(s, step.em).event;
    var c := s.emitters[step.em].corr;
    SameRowsProgress(s.rows);
    match step
    case SentHook(_) => HookProgress(s, c, SendCorrelation(s.rows, c, e.id), e, 0);
    case FailedHook(_, error) => HookProgress(s, c, FailCorrelation(s.rows, c, e.id, error), e, error);
    case _ =>
  }

  lemma DeliverProgress(s: State, step: DeliverStep)
    requires RowsSound(s) && DeliverEnabled(s, step)
    ensures Progress(s, ApplyDeliver(s, step)) && AckProgress(s, ApplyDeliver(s, step), Deliver(step))
  {
    EffectProgress(s, step);
    EffectFrame(s, step);
    hide DeliverEffect, NextTask, Progress;
  }

  /** Delivery effects touch the stores and the history, never volatile state. */
  lemma EffectFrame(s: State, step: DeliverStep)
    requires DeliverEnabled(s, step)
    ensures var t := DeliverEffect(s, step);
      t.emitters == s.emitters && t.open == s.open && t.reserved == s.reserved && t.crashes == s.crashes
  {
    hide DeliverEffect, DeliverEnabled;
  }

  lemma StepProgress(s: State, step: Step)
    requires Inv(s) && Enabled(s, step)
    ensures Progress(s, Apply(s, step)) && AckProgress(s, Apply(s, step), step)
  {
    hide Inv, ApplyInbound, ApplyEmit, ApplyRecover, ApplyDeliver;
    OutIdsKnown(s);
    forall k | k in s.rows ensures RowValid(s.rows[k]) {
      RowFacts(s, k);
    }
    match step
    case Inbound(i) => InboundProgress(s, i);
    case Emit(e) => EmitProgress(s, e);
    case Recover(r) => RecoverProgress(s, r);
    case Deliver(d) => DeliverProgress(s, d);
    case Crash =>
  }

  lemma InboundProgress(s: State, step: InboundStep)
    requires RowsSound(s) && InboundEnabled(s, step)
    ensures Progress(s, ApplyInbound(s, step)) && ApplyInbound(s, step).acked == s.acked
  {
  }

  /**
   Along every run from a reachable state, whoever delivers and however often: a
   saved response never changes, `sent` is final, and no outbox payload changes.
   */
  lemma {:induction false} RunIsFinal(s: State, steps: seq<Step>, retries: nat)
    requires Inv(s) && Exec(s, steps, retries).Some?
    ensures Progress(s, Exec(s, steps, retries).value)
    decreases |steps|
  {
    hide Inv, Enabled, Apply;
    if steps != [] {
      StepKeepsInv(s, steps[0]);
      StepProgress(s, steps[0]);
      RunIsFinal(Apply(s, steps[0]), steps[1..], retries);
    }
  }

  /**
   `sent` means acknowledged: in the run that led here, an emitter of this very
   correlation POSTed exactly the saved response and the adapter answered 2xx.
   */
  lemma SentMeansAcknowledged(s: State, steps: seq<Step>, k: MessageKey, retries: nat)
    requires Exec(Init(), steps, retries) == Some(s) && k in s.rows && s.rows[k].delivery == Sent
    ensures s.rows[k].response.Some?
    ensures exists em, i :: Acknowledges(steps, em, i, KeyCorr(s.rows, k), s.rows[k].response.value, retries)
  {
    hide Inv, Exec, Acknowledges;
    InitInv();
    RunKeepsInv(Init(), steps, retries);
    RowFacts(s, k);
    hide SavedInv;
    var event := s.rows[k].response.value;
    var em, i := AckHasPost(Init(), steps, event.id, retries);
    SamePayload(s, steps, k, em, i, retries);
  }

  /** Step `i` of this run from the start is a POST of `event` for `c` that the adapter answered 2xx. */
  ghost predicate Acknowledges(steps: seq<Step>, em: Id, i: nat, c: Corr, event: Event, retries: nat) {
    && AckedFrom(Init(), steps, em, i, event.id, retries)
    && var u := Exec(Init(), steps[..i], retries).value;
       Head(u, em).event == event && u.emitters[em].corr == c
  }

  lemma ExecSplit(s: State, steps: seq<Step>, i: nat, retries: nat)
    requires i <= |steps| && Exec(s, steps, retries).Some? && Exec(s, steps[..i], retries).Some?
    ensures Exec(Exec(s, steps[..i], retries).value, steps[i..], retries) == Exec(s, steps, retries)
  {
    hide Exec;
    ExecAppend(s, steps[..i], steps[i..], retries);
    assert steps[..i] + steps[i..] == steps;
  }

  lemma ResponseCorrelation(s: State, k: MessageKey)
    requires Inv(s) && k in s.rows && s.rows[k].response.Some?
    ensures Corr(k.adapter, s.rows[k].response.value.correlation) == KeyCorr(s.rows, k)
  {
    RowFacts(s, k);
    hide OutInv, OpenInv, EmittersInv, SavedInv;
  }

  /** What was POSTed under the id of a saved response is that response. */
  lemma SamePayload(s: State, steps: seq<Step>, k: MessageKey, em: Id, i: nat, retries: nat)
    requires Exec(Init(), steps, retries) == Some(s) && k in s.rows && s.rows[k].response.Some?
    requires AckedFrom(Init(), steps, em, i, s.rows[k].response.value.id, retries)
    ensures Acknowledges(steps, em, i, KeyCorr(s.rows, k), s.rows[k].response.value, retries)
  {
    hide Inv, Exec;
    InitInv();
    RunKeepsInv(Init(), steps[..i], retries);
    var u := Exec(Init(), steps[..i], retries).value;
    ExecSplit(Init(), steps, i, retries);
    RunKeepsInv(u, steps[i..], retries);
    RunIsFinal(u, steps[i..], retries);
    HeadFacts(u, em);
    RowFacts(s, k);
    ResponseCorrelation(s, k);
  }

  ghost predicate AckedFrom(s: State, steps: seq<Step>, em: Id, i: nat, id: Id, retries: nat) {
    && i < |steps| && steps[i] == Deliver(Post(em, Ack))
    && Exec(s, steps[..i], retries).Some?
    && Heads(Exec(s, steps[..i], retries).value, em, Ready)
    && Head(Exec(s, steps[..i], retries).value, em).event.id == id
  }

  lemma {:induction false} AckHasPost(s: State, steps: seq<Step>, id: Id, retries: nat) returns (em: Id, i: nat)
    requires Inv(s) && Exec(s, steps, retries).Some? && id !in s.acked && id in Exec(s, steps, retries).value.acked
    ensures AckedFrom(s, steps, em, i, id, retries)
    decreases |steps|
  {
    hide Inv, Apply;
    var t := Apply(s, steps[0]);
    StepKeepsInv(s, steps[0]);
    StepProgress(s, steps[0]);
    if id in t.acked {
      em, i := steps[0].delivery.em, 0;
      assert steps[..0] == [];
    } else {
      var j: nat;
      em, j := AckHasPost(t, steps[1..], id, retries);
      i := j + 1;
      assert steps[..i][1..] == steps[1..][..j];
    }
  }

  // ----- order -----

  /**
   Outbox rows of a correlation are inserted in strictly ascending sequence,
   across any restarts, and every delivery chain is queued in that order.
   */
  lemma SequenceOrder(s: State, retries: nat)
    requires Reachable(s, retries)
    ensures forall i, j :: i in s.out && j in s.out && CorrOf(s.out[i]) == CorrOf(s.out[j]) && i != j
              ==> (s.out[i].rowid < s.out[j].rowid <==> s.out[i].event.sequence < s.out[j].event.sequence)
    ensures forall em :: em in s.emitters ==>
              forall i, j :: 0 <= i < j < |s.emitters[em].chain| ==>
                s.emitters[em].chain[i].event.sequence < s.emitters[em].chain[j].event.sequence
  {
    ReachableInv(s, retries);
    forall i, j | i in s.out && j in s.out && CorrOf(s.out[i]) == CorrOf(s.out[j]) && i != j
      ensures s.out[i].rowid < s.out[j].rowid <==> s.out[i].event.sequence < s.out[j].event.sequence
    {
      assert Ordered(s.out[i], s.out[j]) && Ordered(s.out[j], s.out[i]);
    }
    forall em | em in s.emitters ensures EmitterInv(s, s.emitters[em]) {
    }
  }

  /** Everything emitter `em` still has to deliver is `first` itself or comes after it. */
  ghost predicate NoneBefore(s: State, em: Id, first: Event) {
    && em in s.emitters
    && (forall t :: t in s.emitters[em].chain ==> t.event == first || first.sequence < t.event.sequence)
    && (IsOpen(s, em) ==> first.sequence <= s.emitters[em].sequence)
    && (s.emitters[em].prepared.Some? ==> first.sequence < s.emitters[em].prepared.value.sequence)
  }

  lemma HeadIsFirst(s: State, em: Id)
    requires Inv(s) && em in s.emitters && |s.emitters[em].chain| > 0
    ensures NoneBefore(s, em, Head(s, em).event)
  {
    var e := s.emitters[em];
    assert EmitterInv(s, e) && e.chain[0] in e.chain;
    forall t | t in e.chain ensures t.event == e.chain[0].event || e.chain[0].event.sequence < t.event.sequence {
      var i :| 0 <= i < |e.chain| && e.chain[i] == t;
    }
    if IsOpen(s, em) {
      assert OpenEmitterInv(s, e.corr, e);
    }
  }

  lemma EmitFrame(s: State, step: EmitStep)
    requires EmitEnabled(s, step)
    ensures var t := EmitEffect(s, step);
      t.emitters == s.emitters && t.reserved == s.reserved && t.crashes == s.crashes
      && t.open == (if step.SaveTerminal? then s.open - {s.emitters[step.em].corr} else s.open)
  {
    hide SaveForCorrelation, Insert, Hooked;
  }

  /** An emission appends at most one delivery, later than everything the emitter has built. */
  lemma EmitterAdvances(s: State, step: EmitStep)
    requires EmitEnabled(s, step)
    ensures var e := s.emitters[step.em];
      var e' := EmitterAfter(s, step);
      && e'.corr == e.corr && e'.conversation == e.conversation && e.sequence <= e'.sequence <= e.sequence + 1
      && (forall t :: t in e'.chain ==>
            t in e.chain || (if step.InsertPrepared? then t.event == e.prepared.value else t.event.sequence == e.sequence + 1))
      && (e'.prepared.Some? ==> (step.SaveTerminal? && e'.prepared.value.sequence == e.sequence + 1) || e'.prepared == e.prepared)
  {
    hide SaveForCorrelation;
  }

  lemma EmitKeepsFirst(s: State, step: EmitStep, em: Id, first: Event)
    requires Inv(s) && EmitEnabled(s, step) && NoneBefore(s, em, first)
    ensures NoneBefore(ApplyEmit(s, step), em, first)
  {
    hide Inv, EmitEffect, EmitterAfter, NextEvent, Insert, Hooked;
    EmitFrame(s, step);
    EmitterAdvances(s, step);
    var e, t := s.emitters[step.em], ApplyEmit(s, step);
    assert t.emitters == s.emitters[step.em := EmitterAfter(s, step)] && t.open.Keys <= s.open.Keys;
    if step.em == em {
      assert e.prepared.Some? ==> first.sequence < e.prepared.value.sequence;
      forall x | x in t.emitters[em].chain ensures x.event == first || first.sequence < x.event.sequence {
        assert x in e.chain || (if step.InsertPrepared? then x.event == e.prepared.value else x.event.sequence == e.sequence + 1);
      }
    }
  }

  lemma DeliverKeepsFirst(s: State, step: DeliverStep, em: Id, first: Event)
    requires DeliverEnabled(s, step) && NoneBefore(s, em, first)
    ensures NoneBefore(ApplyDeliver(s, step), em, first)
  {
    DeliverFrame(s, step);
    var t := ApplyDeliver(s, step);
    hide ApplyDeliver, DeliverEnabled;
    if step.em == em {
      var chain := s.emitters[em].chain;
      assert chain[0] in chain;
      forall x | x in t.emitters[em].chain ensures x.event == first || first.sequence < x.event.sequence {
        assert x.event == chain[0].event || x in chain;
      }
    }
  }

  /** A delivery step rewrites or drops the head of one chain and nothing else volatile. */
  lemma DeliverFrame(s: State, step: DeliverStep)
    requires DeliverEnabled(s, step)
    ensures var t := ApplyDeliver(s, step);
      && t.open == s.open && t.reserved == s.reserved && t.crashes == s.crashes
      && t.emitters.Keys == s.emitters.Keys
      && (forall x :: x in s.emitters && x != step.em ==> t.emitters[x] == s.emitters[x])
      && var e := s.emitters[step.em];
         var e' := t.emitters[step.em];
         && e' == e.(chain := e'.chain)
         && (e'.chain == e.chain[1..]
             || (|e'.chain| == |e.chain| && e'.chain[1..] == e.chain[1..] && e'.chain[0].event == e.chain[0].event))
  {
    EffectFrame(s, step);
    NextTaskSameEvent(s, step);
    hide DeliverEffect, NextTask;
  }

  lemma NextTaskSameEvent(s: State, step: DeliverStep)
    requires DeliverEnabled(s, step)
    ensures NextTask(s, step).Some? ==>
      NextTask(s, step).value.event == Head(s, step.em).event && NextTask(s, step).value.durable == Head(s, step.em).durable
  {
  }

  lemma InboundKeepsFirst(s: State, step: InboundStep, em: Id, first: Event)
    requires InboundEnabled(s, step) && NoneBefore(s, em, first)
    ensures NoneBefore(ApplyInbound(s, step), em, first)
  {
    assert ApplyInbound(s, step).emitters[em] == s.emitters[em];
  }

  /** Recovery adds one emitter and leaves the others alone. */
  lemma RecoverFrame(s: State, step: RecoverStep)
    requires RecoverEnabled(s, step)
    ensures var t := ApplyRecover(s, step);
      && t.open == s.open && t.reserved == s.reserved && t.crashes == s.crashes
      && forall em :: em in s.emitters ==> em in t.emitters && t.emitters[em] == s.emitters[em]
  {
    RecoverEffectFrame(s, step);
    if RecoverChain(s, step).Some? {
      RecoverIsNew(s, step);
    }
    hide RecoverEffect, RecoverChain, RecoverEnabled;
  }

  lemma RecoverEffectFrame(s: State, step: RecoverStep)
    requires RecoverEnabled(s, step)
    ensures var t := RecoverEffect(s, step);
      t.emitters == s.emitters && t.open == s.open && t.reserved == s.reserved && t.crashes == s.crashes
  {
    hide RecoverEffect, RecoverEnabled;
  }

  lemma RecoverIsNew(s: State, step: RecoverStep)
    requires RecoverEnabled(s, step) && RecoverChain(s, step).Some?
    ensures step.em !in s.emitters
  {
    hide SaveForCorrelation, ResumesAt, PendingInOrder;
  }

  lemma RecoverKeepsFirst(s: State, step: RecoverStep, em: Id, first: Event)
    requires RecoverEnabled(s, step) && NoneBefore(s, em, first)
    ensures NoneBefore(ApplyRecover(s, step), em, first)
  {
    RecoverFrame(s, step);
    hide ApplyRecover, RecoverEnabled;
  }

  lemma StepKeepsFirst(s: State, step: Step, em: Id, first: Event)
    requires Inv(s) && Enabled(s, step) && step != Crash && NoneBefore(s, em, first)
    ensures NoneBefore(Apply(s, step), em, first)
  {
    hide Inv, ApplyInbound, ApplyRecover, ApplyEmit, ApplyDeliver;
    match step
    case Inbound(i) => InboundKeepsFirst(s, i, em, first);
    case Emit(e) => EmitKeepsFirst(s, e, em, first);
    case Recover(r) => RecoverKeepsFirst(s, r, em, first);
    case Deliver(d) => DeliverKeepsFirst(s, d, em, first);
  }

  lemma {:induction false} RunKeepsFirst(s: State, steps: seq<Step>, em: Id, first: Event, retries: nat)
    requires Inv(s) && Exec(s, steps, retries).Some? && Crash !in steps && NoneBefore(s, em, first)
    ensures NoneBefore(Exec(s, steps, retries).value, em, first)
    decreases |steps|
  {
    hide Inv, Enabled, Apply, NoneBefore;
    if steps != [] {
      assert steps[0] in steps && steps[0] != Crash;
      StepKeepsInv(s, steps[0]);
      StepKeepsFirst(s, steps[0], em, first);
      RunKeepsFirst(Apply(s, steps[0]), steps[1..], em, first, retries);
    }
  }

  /**
   Within one process life an emitter POSTs in ascending sequence: once it has
   reached an event, everything it reaches later is that event again (a retry) or
   a later one. Live and resumed deliveries share this order.
   */
  lemma PostsAscend(s: State, steps: seq<Step>, em: Id, retries: nat)
    requires Reachable(s, retries) && Exec(s, steps, retries).Some? && Crash !in steps
    requires em in s.emitters && |s.emitters[em].chain| > 0
    ensures var t := Exec(s, steps, retries).value;
      && em in t.emitters
      && (|t.emitters[em].chain| > 0 ==>
            Head(t, em).event == Head(s, em).event || Head(s, em).event.sequence < Head(t, em).event.sequence)
  {
    ReachableInv(s, retries);
    HeadIsFirst(s, em);
    hide Inv, Exec;
    RunKeepsFirst(s, steps, em, Head(s, em).event, retries);
    var t := Exec(s, steps, retries).value;
    if |t.emitters[em].chain| > 0 {
      assert Head(t, em) in t.emitters[em].chain;
    }
  }
}
