/** Safety of the delivery protocol over every run, whatever crashes and replies occur. */
module DeliverySafety {
  import opened Wrappers
  import opened IdempotencyStore
  import opened DeliveryProtocol
  import opened DeliveryInvariants
  import opened DeliverySteps

  // ----- emitters created -----

  lemma ResumeTasksInv(s: State, c: Corr, conversation: Id, n: nat, order: seq<Id>)
    requires Inv(s) && c in s.corrs && PendingInOrder(s.out, c, order)
    ensures EmitterInv(s, Construct(s.out, c, conversation, n, ResumeTasks(s.out, order)))
  {
    var e := Construct(s.out, c, conversation, n, ResumeTasks(s.out, order));
    forall t | t in e.chain ensures TaskInv(s, e, t) {
      var i :| 0 <= i < |e.chain| && e.chain[i] == t;
      assert order[i] in order && OutRowInv(s, order[i]);
    }
  }

  lemma OpenKeepsInv(s: State, c: Corr, em: Id, conversation: Id, n: nat, reserved: set<Corr>)
    requires Inv(s) && c !in s.open && Unanswered(s, c) && em !in s.emitters
    requires conversation == Lead(s, c).conversation && ResumesAt(s.out, c, n)
    requires reserved <= s.reserved && c !in reserved
    ensures Inv(SetEmitter(s, em, Construct(s.out, c, conversation, n, [])).(open := s.open[c := em], reserved := reserved))
  {
    hide Inv, EmitterInv, Construct;
    var e := Construct(s.out, c, conversation, n, []);
    var s1 := s.(reserved := reserved);
    ReserveLess(s, reserved);
    EmptyEmitterInv(s1, c, conversation, n);
    NewEmitterKeepsInv(s1, em, e);
    OpenedKeepsInv(SetEmitter(s1, em, e), c, em);
  }

  lemma ReserveLess(s: State, reserved: set<Corr>)
    requires Inv(s) && reserved <= s.reserved
    ensures Inv(s.(reserved := reserved))
  {
    ExtendsKeepsInv(s, s.(reserved := reserved));
  }

  lemma EmptyEmitterInv(s: State, c: Corr, conversation: Id, n: nat)
    requires Unanswered(s, c) && conversation == Lead(s, c).conversation && ResumesAt(s.out, c, n)
    ensures var e := Construct(s.out, c, conversation, n, []); EmitterInv(s, e) && OpenEmitterInv(s, c, e)
  {
  }

  lemma OpenedKeepsInv(s: State, c: Corr, em: Id)
    requires Inv(s) && c !in s.open && c !in s.reserved && Unanswered(s, c) && em in s.emitters
    requires OpenEmitterInv(s, c, s.emitters[em])
    ensures Inv(s.(open := s.open[c := em]))
  {
    OpenedKeepsOpen(s, c, em);
    OpenedKeepsRest(s, c, em);
  }

  lemma OpenedKeepsOpen(s: State, c: Corr, em: Id)
    requires OpenInv(s) && c !in s.reserved && Unanswered(s, c) && em in s.emitters
    requires OpenEmitterInv(s, c, s.emitters[em])
    ensures OpenInv(s.(open := s.open[c := em]))
  {
    var t := s.(open := s.open[c := em]);
    forall x | x in t.open
      ensures Unanswered(t, x) && t.open[x] in t.emitters && OpenEmitterInv(t, x, t.emitters[t.open[x]])
    {
      assert x != c ==> Unanswered(s, x) && OpenEmitterInv(s, x, s.emitters[s.open[x]]);
    }
  }

  lemma OpenedKeepsRest(s: State, c: Corr, em: Id)
    requires RowsInv(s) && OutInv(s) && EmittersInv(s)
    ensures var t := s.(open := s.open[c := em]); RowsInv(t) && OutInv(t) && EmittersInv(t)
  {
    var t := s.(open := s.open[c := em]);
    forall i | i in t.out ensures OutRowInv(t, i) {
      assert OutRowInv(s, i);
    }
    forall x | Known(t, x) && Lead(t, x).response.Some? ensures SavedInv(t, x, Lead(t, x).response.value) {
      assert SavedInv(s, x, Lead(s, x).response.value);
    }
    forall x | x in t.emitters ensures EmitterInv(t, t.emitters[x]) {
      assert EmitterInv(s, s.emitters[x]);
      forall y | y in t.emitters[x].chain ensures TaskInv(t, t.emitters[x], y) {
        assert TaskInv(s, s.emitters[x], y);
      }
    }
  }

  lemma NewEmitterKeepsInv(s: State, em: Id, e: Emitter)
    requires Inv(s) && EmitterInv(s, e) && em !in s.emitters
    ensures Inv(SetEmitter(s, em, e))
  {
    EmitterKeepsInv(s, em, e);
  }

  lemma RowFacts(s: State, k: MessageKey)
    requires Inv(s) && k in s.rows
    ensures var c := KeyCorr(s.rows, k);
      && Known(s, c) && Siblings(s.rows[k], Lead(s, c)) && ResponseInv(s, c, Lead(s, c))
      && (s.rows[k].response.Some? ==> Answered(s, c, s.rows[k].response.value) && c !in s.open)
      && (s.rows[k].response.Some? ==> SavedInv(s, c, s.rows[k].response.value))
  {
  }

  lemma OpeningStep(s: State, step: InboundStep)
    requires Inv(s) && InboundEnabled(s, step) && (step.Activate? || step.Terminalize?)
    ensures Inv(ApplyInbound(s, step))
  {
    RowFacts(s, step.key);
    hide Inv;
    var c := KeyCorr(s.rows, step.key);
    if step.Activate? {
      ReservedFacts(s, c);
      OpenKeepsInv(s, c, step.em, s.rows[step.key].conversation, step.resume, s.reserved - {c});
    } else {
      OpenKeepsInv(s, c, step.em, s.rows[step.key].conversation, step.resume, s.reserved);
    }
  }

  lemma ReservedFacts(s: State, c: Corr)
    requires Inv(s) && c in s.reserved
    ensures Unanswered(s, c)
  {
  }

  lemma ResumingStep(s: State, step: RecoverStep)
    requires Inv(s) && RecoverEnabled(s, step) && (step.Resume? || step.RedeliverWaiting?)
    ensures Inv(ApplyRecover(s, step))
  {
    RowFacts(s, step.key);
    hide Inv;
    var c := KeyCorr(s.rows, step.key);
    ResumeTasksInv(s, c, s.rows[step.key].conversation, step.resume, step.order);
    NewEmitterKeepsInv(s, step.em,
      Construct(s.out, c, s.rows[step.key].conversation, step.resume, ResumeTasks(s.out, step.order)));
  }

  lemma RedeliverMissingKeepsInv(s: State, k: MessageKey, em: Id, n: nat)
    requires Inv(s) && RecoverEnabled(s, RedeliverMissing(k, em, n))
    ensures Inv(ApplyRecover(s, RedeliverMissing(k, em, n)))
  {
    RowFacts(s, k);
    hide Inv;
    var c := KeyCorr(s.rows, k);
    var event := s.rows[k].response.value;
    PreparedHookIdle(s, c, event);
    assert Hooked(s, SaveForCorrelation(s.rows, c, event)) == s;
    var s1 := Insert(s, k.adapter, event);
    InsertKeepsInv(s, c, event);
    var e := Construct(s.out, c, s.rows[k].conversation, n, [Task(event, true, 0, Queued)]);
    NewEmitterKeepsInv(s1, em, e);
  }

  lemma PreparedHookIdle(s: State, c: Corr, e: Event)
    requires Inv(s) && Answered(s, c, e)
    ensures SaveForCorrelation(s.rows, c, e) == Ok(s.rows)
  {
    SaveAgain(s, c, e);
  }

  /** The outbox holds a saved response as it was saved. */
  lemma NoConflict(s: State, k: MessageKey)
    requires Inv(s) && Redeliverable(s, k)
    ensures !PayloadConflict(s, k)
  {
    RowFacts(s, k);
  }

  lemma OneTaskEmitterInv(s: State, e: Emitter, event: Event)
    requires e.corr in s.corrs && e.prepared.None? && e.chain == [Task(event, true, 0, Queued)]
    requires event.id in s.out && s.out[event.id].event == event && CorrOf(s.out[event.id]) == e.corr
    ensures EmitterInv(s, e)
  {
  }

  lemma RedeliverFailedKeepsInv(s: State, k: MessageKey, em: Id, n: nat)
    requires Inv(s) && RecoverEnabled(s, RedeliverFailed(k, em, n))
    ensures Inv(ApplyRecover(s, RedeliverFailed(k, em, n)))
  {
    hide Inv, EmitterInv, SavedInv, ResponseInv;
    RowFacts(s, k);
    var c := KeyCorr(s.rows, k);
    var event := s.rows[k].response.value;
    PreparedHookIdle(s, c, event);
    assert Hooked(s, SaveForCorrelation(s.rows, c, event)) == s;
    NoConflict(s, k);
    var s1 := Update(s, event.id, Waiting, 0);
    UpdateKeepsInv(s, event.id, Waiting, 0);
    var e := Construct(s.out, c, s.rows[k].conversation, n, [Task(event, true, 0, Queued)]);
    OneTaskEmitterInv(s1, e, event);
    NewEmitterKeepsInv(s1, em, e);
    var rounds := s.rounds[event.id := Round(0, 0, false, s.crashes)];
    AckKeepsInv(SetEmitter(s1, em, e), s.acked, rounds);
    hide Construct;
    assert ApplyRecover(s, RedeliverFailed(k, em, n)) == SetEmitter(s1, em, e).(acked := s.acked, rounds := rounds);
  }

  lemma RedeliverDeliveredKeepsInv(s: State, k: MessageKey)
    requires Inv(s) && RecoverEnabled(s, RedeliverDelivered(k))
    ensures Inv(ApplyRecover(s, RedeliverDelivered(k)))
  {
    var event := s.rows[k].response.value;
    RowFacts(s, k);
    AckedFact(s, event.id);
    SendKeepsInv(s, KeyCorr(s.rows, k), event);
  }

  /** The emitter of another correlation refuses the response: its hook checks the correlation id. */
  lemma ThroughIsRefused(s: State, k: MessageKey, em: Id)
    requires Inv(s) && RecoverEnabled(s, RedeliverThrough(k, em))
    ensures SaveForCorrelation(s.rows, s.emitters[em].corr, s.rows[k].response.value).Err?
  {
    RowFacts(s, k);
  }

  lemma ThroughKeepsInv(s: State, k: MessageKey, em: Id)
    requires Inv(s) && RecoverEnabled(s, RedeliverThrough(k, em))
    ensures ApplyRecover(s, RedeliverThrough(k, em)) == s.(faults := s.faults + 1)
    ensures Inv(ApplyRecover(s, RedeliverThrough(k, em)))
  {
    ThroughIsRefused(s, k, em);
    hide Inv, SaveForCorrelation;
    FaultKeepsInv(s);
  }

  lemma FaultKeepsInv(s: State)
    requires Inv(s)
    ensures Inv(s.(faults := s.faults + 1))
  {
    ExtendsKeepsInv(s, s.(faults := s.faults + 1));
  }

  lemma AckedFact(s: State, id: Id)
    requires Inv(s) && id in s.out && s.out[id].status == Delivered
    ensures id in s.acked
  {
    assert OutRowInv(s, id);
  }

  lemma SendKeepsInv(s: State, c: Corr, e: Event)
    requires Inv(s) && Answered(s, c, e) && e.id in s.acked
    ensures SendCorrelation(s.rows, c, e.id).Ok?
    ensures Inv(s.(rows := SendCorrelation(s.rows, c, e.id).value))
  {
    SendSettles(s, c, e);
    MovedKeepsInv(s, SendCorrelation(s.rows, c, e.id).value, c, Sent, e, None);
  }

  lemma FailKeepsInv(s: State, c: Corr, e: Event, error: Id)
    requires Inv(s) && Answered(s, c, e)
    ensures FailCorrelation(s.rows, c, e.id, error).Ok?
    ensures Inv(s.(rows := FailCorrelation(s.rows, c, e.id, error).value))
  {
    FailSettles(s, c, e, error);
    if Lead(s, c).delivery == Saved {
      MovedKeepsInv(s, FailCorrelation(s.rows, c, e.id, error).value, c, Failed, e, Some(error));
    } else {
      assert s.(rows := FailCorrelation(s.rows, c, e.id, error).value) == s;
    }
  }

  // ----- delivery -----

  /** Rewrite the attempt and phase of a chain's head. */
  lemma HeadKeepsInv(s: State, em: Id, t: Task)
    requires Inv(s) && em in s.emitters && |s.emitters[em].chain| > 0
    requires t == Head(s, em).(attempt := t.attempt, phase := t.phase)
    requires t.durable && t.phase in {Acked, MarkedDelivered} ==> t.event.id in s.acked
    ensures Inv(SetHead(s, em, t))
  {
    var e := s.emitters[em];
    var e1 := e.(chain := [t] + e.chain[1..]);
    assert EmitterInv(s, e);
    assert forall i :: 0 <= i < |e.chain| ==> e1.chain[i].event == e.chain[i].event;
    assert EmitterInv(s, e1) by {
      forall x | x in e1.chain ensures TaskInv(s, e1, x)
        && (e1.prepared.Some? ==> x.event.sequence < e1.prepared.value.sequence)
      {
        assert TaskInv(s, e, e.chain[0]) && e.chain[0] in e.chain;
        if x != t {
          assert x in e.chain && TaskInv(s, e, x);
        }
      }
    }
    forall c | c in s.open && s.open[c] == em ensures Unanswered(s, c) && OpenEmitterInv(s, c, e1) {
      assert OpenEmitterInv(s, c, e);
      forall x | x in e1.chain ensures x.event.sequence <= e1.sequence {
        assert e.chain[0] in e.chain;
        assert x == t || x in e.chain;
      }
    }
    EmitterKeepsInv(s, em, e1);
  }

  lemma PopKeepsInv(s: State, em: Id)
    requires Inv(s) && em in s.emitters && |s.emitters[em].chain| > 0
    ensures Inv(PopHead(s, em))
  {
    var e := s.emitters[em];
    var e1 := e.(chain := e.chain[1..]);
    assert EmitterInv(s, e);
    assert EmitterInv(s, e1) by {
      forall x | x in e1.chain ensures TaskInv(s, e1, x) {
        assert x in e.chain && TaskInv(s, e, x);
      }
    }
    forall c | c in s.open && s.open[c] == em ensures Unanswered(s, c) && OpenEmitterInv(s, c, e1) {
      assert OpenEmitterInv(s, c, e);
    }
    EmitterKeepsInv(s, em, e1);
  }

  lemma HeadFacts(s: State, em: Id)
    requires Inv(s) && em in s.emitters && |s.emitters[em].chain| > 0 && Head(s, em).durable
    ensures var t := Head(s, em);
      && t.event.id in s.out && s.out[t.event.id].event == t.event && CorrOf(s.out[t.event.id]) == s.emitters[em].corr
      && (t.phase in {Acked, MarkedDelivered} ==> t.event.id in s.acked)
      && (s.out[t.event.id].status == Delivered ==> t.event.id in s.acked)
      && (Answer(t.event.kind) ==> Answered(s, s.emitters[em].corr, t.event))
  {
    var t := Head(s, em);
    assert EmitterInv(s, s.emitters[em]) && t in s.emitters[em].chain;
    assert TaskInv(s, s.emitters[em], t);
    assert OutRowInv(s, t.event.id);
  }

  lemma DeliverKeepsInv(s: State, step: DeliverStep)
    requires Inv(s) && DeliverEnabled(s, step)
    ensures Inv(ApplyDeliver(s, step))
  {
    hide Inv, SendCorrelation, FailCorrelation;
    var em := step.em;
    if step.BestEffortDone? {
      PopKeepsInv(s, em);
      return;
    }
    HeadFacts(s, em);
    var t := Head(s, em);
    var id := t.event.id;
    match step
    case ResolveTarget(_) =>
      HeadKeepsInv(s, em, t.(phase := Ready));
    case NoTarget(_) =>
      UpdateKeepsInv(s, id, PermanentFailure, s.out[id].attempts);
      HeadKeepsInv(Update(s, id, PermanentFailure, s.out[id].attempts), em, t.(phase := MarkedFailed));
    case Exhaust(_) =>
      UpdateKeepsInv(s, id, PermanentFailure, s.out[id].attempts);
      HeadKeepsInv(Update(s, id, PermanentFailure, s.out[id].attempts), em, t.(phase := MarkedFailed));
    case Post(_, reply) =>
      PostKeepsInv(s, em, reply);
    case MarkDelivered(_) =>
      RecordKeepsInv(s, em, Delivered, t.(phase := MarkedDelivered));
    case RecordAttempt(_) =>
      RecordKeepsInv(s, em, s.out[id].status, t.(attempt := t.attempt + 1, phase := Ready));
    case SentHook(_) =>
      if Answer(t.event.kind) {
        SendKeepsInv(s, s.emitters[em].corr, t.event);
        PopKeepsInv(Hooked(s, SendCorrelation(s.rows, s.emitters[em].corr, id)), em);
      } else {
        PopKeepsInv(s, em);
      }
    case FailedHook(_, error) =>
      if Answer(t.event.kind) {
        FailKeepsInv(s, s.emitters[em].corr, t.event, error);
        PopKeepsInv(Hooked(s, FailCorrelation(s.rows, s.emitters[em].corr, id, error)), em);
      } else {
        PopKeepsInv(s, em);
      }
  }

  /** Record a settled POST: the row's status and attempts, then the task. */
  lemma RecordKeepsInv(s: State, em: Id, status: Status, t: Task)
    requires Inv(s) && em in s.emitters && |s.emitters[em].chain| > 0 && Head(s, em).durable
    requires t == Head(s, em).(attempt := t.attempt, phase := t.phase)
    requires (status == Delivered || t.phase in {Acked, MarkedDelivered}) ==> t.event.id in s.acked
    ensures var id := t.event.id;
      Inv(SetHead(Update(s, id, status, Head(s, em).attempt + 1), em, t).(rounds := Landed(s.rounds, id)))
  {
    hide Inv;
    var id := t.event.id;
    UpdateKeepsInv(s, id, status, Head(s, em).attempt + 1);
    HeadKeepsInv(Update(s, id, status, Head(s, em).attempt + 1), em, t);
    var s1 := SetHead(Update(s, id, status, Head(s, em).attempt + 1), em, t);
    AckKeepsInv(s1, s1.acked, Landed(s.rounds, id));
    assert s1.(acked := s1.acked, rounds := Landed(s.rounds, id)) == s1.(rounds := Landed(s.rounds, id));
  }

  lemma PostKeepsInv(s: State, em: Id, reply: Reply)
    requires Inv(s) && DeliverEnabled(s, Post(em, reply))
    ensures Inv(ApplyDeliver(s, Post(em, reply)))
  {
    hide Inv;
    var t := Head(s, em);
    var id := t.event.id;
    var acked := if reply == Ack then s.acked + {id} else s.acked;
    var rounds := Flown(s.rounds, id);
    AckKeepsInv(s, acked, rounds);
    var t1 := t.(phase := if reply == Ack then Acked else Refused);
    HeadKeepsInv(s.(acked := acked, rounds := rounds), em, t1);
    assert ApplyDeliver(s, Post(em, reply)) == SetHead(s.(acked := acked, rounds := rounds), em, t1);
  }

  // ----- every step, every run -----

  lemma JoinKeepsInv(s: State, k: MessageKey, hash: Id, c: Corr)
    requires Inv(s) && InboundEnabled(s, BeginJoin(k, hash, c))
    ensures Inv(ApplyInbound(s, BeginJoin(k, hash, c)))
  {
    var conversation := s.emitters[s.open[c]].conversation;
    assert OpenEmitterInv(s, c, s.emitters[s.open[c]]);
    AddRowKeepsInv(s, k, FreshRow(conversation, c.id, hash), false);
  }

  lemma ForgetKeepsInv(s: State, t: State)
    requires Inv(s)
    requires t == s.(emitters := t.emitters, open := t.open, reserved := t.reserved, crashes := t.crashes, rounds := t.rounds)
    requires (t.emitters == s.emitters && t.open.Keys <= s.open.Keys) || (t.emitters == map[] && t.open == map[])
    requires forall c :: c in t.open ==> c in s.open && t.open[c] == s.open[c]
    requires t.reserved == s.reserved || t.reserved == {}
    ensures Inv(t)
  {
    ExtendsKeepsInv(s, t);
  }

  lemma InboundKeepsInv(s: State, step: InboundStep)
    requires Inv(s) && InboundEnabled(s, step)
    ensures Inv(ApplyInbound(s, step))
  {
    hide Inv;
    match step
    case BeginNew(k, conversation, hash, minted) => AddRowKeepsInv(s, k, FreshRow(conversation, minted, hash), true);
    case BeginJoin(k, hash, c) => JoinKeepsInv(s, k, hash, c);
    case CompleteIngest(k) => IngestKeepsInv(s, k);
    case Activate(_, _, _, _) => OpeningStep(s, step);
    case Terminalize(_, _, _) => OpeningStep(s, step);
    case Cleanup(c) => ForgetKeepsInv(s, s.(open := s.open - {c}));
  }

  lemma EmitKeepsInv(s: State, step: EmitStep)
    requires Inv(s) && EmitEnabled(s, step)
    ensures Inv(ApplyEmit(s, step))
  {
    hide Inv;
    match step
    case EmitDurable(em, kind, id, body) =>
      EmissionKeepsInv(s, em, kind, id, body, s.emitters[em].started || kind == Started, s.emitters[em].terminal);
    case EmitBestEffort(em, id, body) => BestEffortKeepsInv(s, em, id, body);
    case EmitCancelled(em, id) =>
      EmissionKeepsInv(s, em, Cancelled, id, 0, s.emitters[em].started, true);
    case SaveTerminal(em, kind, id, body) => SaveKeepsInv(s, em, kind, id, body);
    case InsertPrepared(em) => InsertPreparedKeepsInv(s, em);
  }

  lemma RecoverKeepsInv(s: State, step: RecoverStep)
    requires Inv(s) && RecoverEnabled(s, step)
    ensures Inv(ApplyRecover(s, step))
  {
    hide Inv;
    match step
    case Resume(_, _, _, _) => ResumingStep(s, step);
    case RedeliverWaiting(_, _, _, _) => ResumingStep(s, step);
    case RedeliverMissing(k, em, n) => RedeliverMissingKeepsInv(s, k, em, n);
    case RedeliverFailed(k, em, n) => RedeliverFailedKeepsInv(s, k, em, n);
    case RedeliverDelivered(k) => RedeliverDeliveredKeepsInv(s, k);
    case RedeliverThrough(k, em) => ThroughKeepsInv(s, k, em);
  }

  lemma StepKeepsInv(s: State, step: Step)
    requires Inv(s) && Enabled(s, step)
    ensures Inv(Apply(s, step))
  {
    hide Inv, ApplyInbound, ApplyEmit, ApplyRecover, ApplyDeliver;
    match step
    case Inbound(i) => InboundKeepsInv(s, i);
    case Emit(e) => EmitKeepsInv(s, e);
    case Recover(r) => RecoverKeepsInv(s, r);
    case Deliver(d) => DeliverKeepsInv(s, d);
    case Crash => ForgetKeepsInv(s, Apply(s, Crash));
  }

  lemma {:induction false} RunKeepsInv(s: State, steps: seq<Step>, retries: nat)
    requires Inv(s) && Exec(s, steps, retries).Some?
    ensures Inv(Exec(s, steps, retries).value)
    decreases |steps|
  {
    hide Inv, Enabled, Apply;
    if steps != [] {
      StepKeepsInv(s, steps[0]);
      RunKeepsInv(Apply(s, steps[0]), steps[1..], retries);
    }
  }
}
