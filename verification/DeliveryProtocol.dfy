/**
 The two-store delivery protocol as a step machine: the inbound store, the
 outbox (packages/core/src/outbound-emitter.ts) and the hooks and recovery that
 join them (packages/core/src/supervisor.ts).

 A step is one SQL statement, one POST, or one synchronous change of volatile
 state, except that RedeliverMissing and RedeliverFailed run the prepared hook
 and the insert or update after it as one: the hook leaves the rows as they are
 (PreparedHookIdle), so a crash between the two is a crash before the step. A
 crash may fall between any two steps and wipes everything volatile: emitters,
 their delivery chains, and the map of active correlations. The adapter may
 acknowledge, refuse or time out each POST.

 A message delivered again redelivers its saved response through the active
 entry of its conversation when there is one, whatever correlation that entry
 has (RedeliverThrough), and through a fresh emitter of its own otherwise.
 */
module DeliveryProtocol {
  import opened Wrappers
  import opened IdempotencyStore

  // ----- durable outbox -----

  datatype Status = Waiting | Delivered | PermanentFailure

  /** One outbox row; `rowid` is the insertion order of the table. */
  datatype OutRow = OutRow(adapter: Id, event: Event, status: Status, attempts: nat, rowid: nat)

  type Outbox = map<Id, OutRow>

  function CorrOf(row: OutRow): Corr {
    Corr(row.adapter, row.event.correlation)
  }

  predicate OfCorr(out: Outbox, id: Id, c: Corr) {
    id in out && CorrOf(out[id]) == c
  }

  // ----- volatile state -----

  /** Where one queued delivery stands. Only the head of a chain moves. */
  datatype Phase = Queued | Ready | Acked | Refused | MarkedDelivered | MarkedFailed

  datatype Task = Task(event: Event, durable: bool, attempt: nat, phase: Phase)

  /** `prepared` is a terminal whose save has committed and whose insert has not. */
  datatype Emitter = Emitter(
    corr: Corr, conversation: Id, sequence: nat, started: bool, terminal: bool,
    prepared: Option<Event>, chain: seq<Task>)

  /**
   History of one delivery round, from insertion or an explicit retry on: POSTs
   made, POSTs whose outcome a crash erased, and whether one is unrecorded now.
   */
  datatype Round = Round(posts: nat, lost: nat, flying: bool, crashesBefore: nat)

  datatype State = State(
    // durable
    rows: Rows, out: Outbox, nextRowid: nat,
    // volatile: `open` holds the active correlations a new message may join
    emitters: map<Id, Emitter>, open: map<Corr, Id>, reserved: set<Corr>,
    // history: every correlation with the message it was minted for, the correlation each
    // event id was minted in, every acknowledged event, crashes, internal errors raised, delivery rounds
    corrs: map<Corr, MessageKey>, events: map<Id, Corr>, acked: set<Id>, crashes: nat, faults: nat, rounds: map<Id, Round>)

  datatype Reply = Ack | Refusal | Timeout

  datatype InboundStep =
    | BeginNew(key: MessageKey, conversation: Id, hash: Id, minted: Id)
    | BeginJoin(key: MessageKey, hash: Id, corr: Corr)
    | CompleteIngest(key: MessageKey)
    | Activate(corr: Corr, em: Id, key: MessageKey, resume: nat)
    | Terminalize(key: MessageKey, em: Id, resume: nat)
    | Cleanup(corr: Corr)

  datatype EmitStep =
    | EmitDurable(em: Id, kind: Kind, id: Id, body: Id)
    | EmitBestEffort(em: Id, id: Id, body: Id)
    | EmitCancelled(em: Id, id: Id)
    | SaveTerminal(em: Id, kind: Kind, id: Id, body: Id)
    | InsertPrepared(em: Id)

  datatype RecoverStep =
    | Resume(key: MessageKey, em: Id, resume: nat, order: seq<Id>)
    | RedeliverMissing(key: MessageKey, em: Id, resume: nat)
    | RedeliverWaiting(key: MessageKey, em: Id, resume: nat, order: seq<Id>)
    | RedeliverFailed(key: MessageKey, em: Id, resume: nat)
    | RedeliverDelivered(key: MessageKey)
    | RedeliverThrough(key: MessageKey, em: Id)

  datatype DeliverStep =
    | ResolveTarget(em: Id)
    | NoTarget(em: Id)
    | Post(em: Id, reply: Reply)
    | MarkDelivered(em: Id)
    | SentHook(em: Id)
    | RecordAttempt(em: Id)
    | Exhaust(em: Id)
    | FailedHook(em: Id, error: Id)
    | BestEffortDone(em: Id)

  datatype Step =
    | Inbound(inbound: InboundStep)
    | Emit(emit: EmitStep)
    | Recover(recovery: RecoverStep)
    | Deliver(delivery: DeliverStep)
    | Crash

  function Init(): State {
    State(map[], map[], 0, map[], map[], {}, map[], map[], {}, 0, 0, map[])
  }

  // ----- statements and constructors -----

  function KeyCorr(rows: Rows, k: MessageKey): Corr
    requires k in rows
  {
    Corr(k.adapter, rows[k].correlation)
  }

  /** `SELECT MAX(sequence)` for one correlation, 0 when it has no row. */
  ghost predicate ResumesAt(out: Outbox, c: Corr, n: nat) {
    && (forall id :: OfCorr(out, id, c) ==> out[id].event.sequence <= n)
    && (n == 0 || exists id :: OfCorr(out, id, c) && out[id].event.sequence == n)
  }

  ghost predicate HasTerminal(out: Outbox, c: Corr) {
    exists id :: OfCorr(out, id, c) && Terminal(out[id].event.kind)
  }

  /** The emitter constructor: resume the counter, and guard against a second terminal. */
  ghost function Construct(out: Outbox, c: Corr, conversation: Id, resume: nat, chain: seq<Task>): Emitter {
    Emitter(c, conversation, resume, HasTerminal(out, c), HasTerminal(out, c), None, chain)
  }

  /** `order` lists the waiting rows of a correlation by ascending sequence. */
  ghost predicate PendingInOrder(out: Outbox, c: Corr, order: seq<Id>) {
    && (forall id :: id in order <==> OfCorr(out, id, c) && out[id].status == Waiting)
    && (forall i :: 0 <= i < |order| ==> order[i] in out)
    && (forall i, j :: 0 <= i < j < |order| ==> out[order[i]].event.sequence < out[order[j]].event.sequence)
  }

  function ResumeTasks(out: Outbox, order: seq<Id>): seq<Task>
    requires forall i :: 0 <= i < |order| ==> order[i] in out
  {
    seq(|order|, i requires 0 <= i < |order| => Task(out[order[i]].event, true, out[order[i]].attempts, Queued))
  }

  /** Insert one durable row and start its delivery round. */
  function Insert(s: State, adapter: Id, event: Event): (t: State)
    ensures t == s.(out := t.out, nextRowid := t.nextRowid, rounds := t.rounds)
  {
    s.(out := s.out[event.id := OutRow(adapter, event, Waiting, 0, s.nextRowid)],
       nextRowid := s.nextRowid + 1,
       rounds := s.rounds[event.id := Round(0, 0, false, s.crashes)])
  }

  function Flown(rounds: map<Id, Round>, id: Id): map<Id, Round> {
    if id in rounds then rounds[id := rounds[id].(posts := rounds[id].posts + 1, flying := true)] else rounds
  }

  function Landed(rounds: map<Id, Round>, id: Id): map<Id, Round> {
    if id in rounds then rounds[id := rounds[id].(flying := false)] else rounds
  }

  function Erased(rounds: map<Id, Round>): map<Id, Round> {
    map id | id in rounds ::
      if rounds[id].flying then rounds[id].(flying := false, lost := rounds[id].lost + 1) else rounds[id]
  }

  function SetEmitter(s: State, em: Id, e: Emitter): State {
    s.(emitters := s.emitters[em := e])
  }

  predicate Heads(s: State, em: Id, phase: Phase) {
    && em in s.emitters && |s.emitters[em].chain| > 0
    && s.emitters[em].chain[0].durable && s.emitters[em].chain[0].phase == phase
  }

  function Head(s: State, em: Id): Task
    requires em in s.emitters && |s.emitters[em].chain| > 0
  {
    s.emitters[em].chain[0]
  }

  function SetHead(s: State, em: Id, t: Task): State
    requires em in s.emitters && |s.emitters[em].chain| > 0
  {
    SetEmitter(s, em, s.emitters[em].(chain := [t] + s.emitters[em].chain[1..]))
  }

  function PopHead(s: State, em: Id): State
    requires em in s.emitters && |s.emitters[em].chain| > 0
  {
    SetEmitter(s, em, s.emitters[em].(chain := s.emitters[em].chain[1..]))
  }

  /** The event an emitter would build now. */
  function NextEvent(e: Emitter, kind: Kind, id: Id, body: Id): Event {
    Event(id, e.corr.id, e.conversation, e.sequence + 1, kind, body)
  }

  /** The emitter a correlation's active entry points at. */
  predicate IsOpen(s: State, em: Id) {
    && em in s.emitters && s.emitters[em].corr in s.open && s.open[s.emitters[em].corr] == em
  }

  /** A key whose saved response still needs delivery. */
  predicate Redeliverable(s: State, k: MessageKey) {
    k in s.rows && s.rows[k].delivery in {Saved, Failed} && s.rows[k].response.Some?
  }

  /** An active entry of the conversation that message `k` belongs to. */
  predicate EntryFor(s: State, c: Corr, k: MessageKey)
    requires k in s.rows
  {
    && c in s.open && s.open[c] in s.emitters
    && c.adapter == k.adapter && s.emitters[s.open[c]].conversation == s.rows[k].conversation
  }

  ghost predicate Busy(s: State, k: MessageKey)
    requires k in s.rows
  {
    exists c :: EntryFor(s, c, k)
  }

  // ----- transition system -----

  ghost predicate InboundEnabled(s: State, step: InboundStep) {
    match step
    case BeginNew(k, _, _, minted) =>
      k !in s.rows && Corr(k.adapter, minted) !in s.corrs
    case BeginJoin(k, _, c) =>
      k !in s.rows && c in s.open && c.adapter == k.adapter && s.open[c] in s.emitters
    case CompleteIngest(k) =>
      k in s.rows && !s.rows[k].ingested
    case Activate(c, em, k, n) =>
      && c in s.reserved && c !in s.open && em !in s.emitters
      && k in s.rows && KeyCorr(s.rows, k) == c && ResumesAt(s.out, c, n)
    case Terminalize(k, em, n) =>
      && k in s.rows && s.rows[k].delivery == Pending && !s.rows[k].ingested && em !in s.emitters
      && KeyCorr(s.rows, k) !in s.open && KeyCorr(s.rows, k) !in s.reserved
      && ResumesAt(s.out, KeyCorr(s.rows, k), n)
    case Cleanup(c) =>
      c in s.open && s.open[c] in s.emitters && s.emitters[s.open[c]].terminal
  }

  ghost predicate EmitEnabled(s: State, step: EmitStep) {
    match step
    case EmitDurable(em, kind, id, _) =>
      && IsOpen(s, em) && kind in {Started, Presence} && id !in s.events
      && (kind == Started ==> !s.emitters[em].started)
    case EmitBestEffort(em, id, _) =>
      IsOpen(s, em) && id !in s.events
    case EmitCancelled(em, id) =>
      IsOpen(s, em) && !s.emitters[em].terminal && id !in s.events
    case SaveTerminal(em, kind, id, _) =>
      IsOpen(s, em) && !s.emitters[em].terminal && Answer(kind) && id !in s.events
    case InsertPrepared(em) =>
      em in s.emitters && s.emitters[em].prepared.Some?
  }

  ghost predicate RecoverEnabled(s: State, step: RecoverStep) {
    match step
    case Resume(k, em, n, order) =>
      && k in s.rows && em !in s.emitters
      && KeyCorr(s.rows, k) !in s.open && KeyCorr(s.rows, k) !in s.reserved
      && ResumesAt(s.out, KeyCorr(s.rows, k), n) && PendingInOrder(s.out, KeyCorr(s.rows, k), order)
    case RedeliverMissing(k, em, n) =>
      && Redeliverable(s, k) && !Busy(s, k) && em !in s.emitters && ResumesAt(s.out, KeyCorr(s.rows, k), n)
      && s.rows[k].response.value.id !in s.out
    case RedeliverWaiting(k, em, n, order) =>
      && Redeliverable(s, k) && !Busy(s, k) && em !in s.emitters && ResumesAt(s.out, KeyCorr(s.rows, k), n)
      && s.rows[k].response.value.id in s.out && s.out[s.rows[k].response.value.id].status == Waiting
      && PendingInOrder(s.out, KeyCorr(s.rows, k), order)
    case RedeliverFailed(k, em, n) =>
      && Redeliverable(s, k) && !Busy(s, k) && em !in s.emitters && ResumesAt(s.out, KeyCorr(s.rows, k), n)
      && s.rows[k].response.value.id in s.out && s.out[s.rows[k].response.value.id].status == PermanentFailure
    case RedeliverDelivered(k) =>
      && Redeliverable(s, k) && !Busy(s, k)
      && s.rows[k].response.value.id in s.out && s.out[s.rows[k].response.value.id].status == Delivered
    case RedeliverThrough(k, em) =>
      && Redeliverable(s, k) && IsOpen(s, em)
      && s.emitters[em].corr != KeyCorr(s.rows, k) && EntryFor(s, s.emitters[em].corr, k)
  }

  ghost predicate DeliverEnabled(s: State, step: DeliverStep) {
    match step
    case ResolveTarget(em) => Heads(s, em, Queued)
    case NoTarget(em) => Heads(s, em, Queued)
    case Post(em, _) => Heads(s, em, Ready)
    case MarkDelivered(em) => Heads(s, em, Acked)
    case SentHook(em) => Heads(s, em, MarkedDelivered)
    case RecordAttempt(em) => Heads(s, em, Refused)
    case Exhaust(em) => Heads(s, em, Ready)
    case FailedHook(em, _) => Heads(s, em, MarkedFailed)
    case BestEffortDone(em) =>
      em in s.emitters && |s.emitters[em].chain| > 0 && !s.emitters[em].chain[0].durable
  }

  ghost predicate Enabled(s: State, step: Step) {
    match step
    case Inbound(i) => InboundEnabled(s, i)
    case Emit(e) => EmitEnabled(s, e)
    case Recover(r) => RecoverEnabled(s, r)
    case Deliver(d) => DeliverEnabled(s, d)
    case Crash => true
  }

  /** The two guards that depend on the configured retry schedule. */
  ghost predicate InSchedule(s: State, step: Step, retries: nat) {
    match step
    case Deliver(Post(em, _)) => Heads(s, em, Ready) ==> Head(s, em).attempt < 1 + retries
    case Deliver(Exhaust(em)) => Heads(s, em, Ready) ==> Head(s, em).attempt >= 1 + retries
    case _ => true
  }

  /** Outcome of a hook: its new rows, or a fault that leaves them alone. */
  function Hooked(s: State, r: Result<Rows, StoreError>): (t: State)
    ensures t == s.(rows := t.rows, faults := t.faults)
  {
    match r
    case Ok(rows) => s.(rows := rows)
    case Err(_) => s.(faults := s.faults + 1)
  }

  function Update(s: State, id: Id, status: Status, attempts: nat): (t: State)
    ensures t == s.(out := t.out)
  {
    if id in s.out then s.(out := s.out[id := s.out[id].(status := status, attempts := attempts)]) else s
  }

  function SetStatus(s: State, id: Id, status: Status): (t: State)
    ensures t == s.(out := t.out)
  {
    Update(s, id, status, if id in s.out then s.out[id].attempts else 0)
  }

  /** Saved payload and outbox payload differ: the source throws a conflict. */
  predicate PayloadConflict(s: State, k: MessageKey)
    requires Redeliverable(s, k)
  {
    var event := s.rows[k].response.value;
    event.id in s.out && (s.out[event.id].event != event || s.out[event.id].adapter != k.adapter)
  }

  ghost function ApplyInbound(s: State, step: InboundStep): State
    requires InboundEnabled(s, step)
  {
    match step
    case BeginNew(k, conversation, hash, minted) =>
      s.(rows := s.rows[k := FreshRow(conversation, minted, hash)],
         reserved := s.reserved + {Corr(k.adapter, minted)},
         corrs := s.corrs[Corr(k.adapter, minted) := k])
    case BeginJoin(k, hash, c) =>
      s.(rows := s.rows[k := FreshRow(s.emitters[s.open[c]].conversation, c.id, hash)])
    case CompleteIngest(k) =>
      s.(rows := s.rows[k := s.rows[k].(ingested := true)])
    case Activate(c, em, k, n) =>
      SetEmitter(s, em, Construct(s.out, c, s.rows[k].conversation, n, []))
      .(open := s.open[c := em], reserved := s.reserved - {c})
    case Terminalize(k, em, n) =>
      var c := KeyCorr(s.rows, k);
      SetEmitter(s, em, Construct(s.out, c, s.rows[k].conversation, n, [])).(open := s.open[c := em])
    case Cleanup(c) =>
      s.(open := s.open - {c})
  }

  /** The emitter after one of its own steps. */
  function EmitterAfter(s: State, step: EmitStep): Emitter
    requires step.em in s.emitters && (step.InsertPrepared? ==> s.emitters[step.em].prepared.Some?)
  {
    var e := s.emitters[step.em];
    match step
    case EmitDurable(_, kind, id, body) =>
      e.(sequence := e.sequence + 1, started := e.started || kind == Started,
         chain := e.chain + [Task(NextEvent(e, kind, id, body), true, 0, Queued)])
    case EmitBestEffort(_, id, body) =>
      e.(sequence := e.sequence + 1, chain := e.chain + [Task(NextEvent(e, Progress, id, body), false, 0, Queued)])
    case EmitCancelled(_, id) =>
      e.(sequence := e.sequence + 1, terminal := true,
         chain := e.chain + [Task(NextEvent(e, Cancelled, id, 0), true, 0, Queued)])
    case SaveTerminal(_, kind, id, body) =>
      var event := NextEvent(e, kind, id, body);
      e.(sequence := e.sequence + 1, terminal := true,
         prepared := if SaveForCorrelation(s.rows, e.corr, event).Ok? then Some(event) else None)
    case InsertPrepared(_) =>
      e.(prepared := None,
         chain := if e.prepared.value.id in s.out then e.chain else e.chain + [Task(e.prepared.value, true, 0, Queued)])
  }

  /** Everything else one of its steps does. */
  function EmitEffect(s: State, step: EmitStep): State
    requires step.em in s.emitters && (step.InsertPrepared? ==> s.emitters[step.em].prepared.Some?)
  {
    var e := s.emitters[step.em];
    match step
    case EmitDurable(_, kind, id, body) =>
      Insert(s, e.corr.adapter, NextEvent(e, kind, id, body)).(events := s.events[id := e.corr])
    case EmitBestEffort(_, id, _) =>
      s.(events := s.events[id := e.corr])
    case EmitCancelled(_, id) =>
      Insert(s, e.corr.adapter, NextEvent(e, Cancelled, id, 0)).(events := s.events[id := e.corr])
    case SaveTerminal(_, kind, id, body) =>
      Hooked(s, SaveForCorrelation(s.rows, e.corr, NextEvent(e, kind, id, body)))
      .(open := s.open - {e.corr}, events := s.events[id := e.corr])
    case InsertPrepared(_) =>
      var event := e.prepared.value;
      if event.id !in s.out then Insert(s, e.corr.adapter, event)
      else if s.out[event.id].event == event && s.out[event.id].adapter == e.corr.adapter then s
      else s.(faults := s.faults + 1)
  }

  ghost function ApplyEmit(s: State, step: EmitStep): State
    requires EmitEnabled(s, step)
  {
    SetEmitter(EmitEffect(s, step), step.em, EmitterAfter(s, step))
  }

  /** The saved response a redelivery works on, and the outcome of its prepared hook. */
  function SavedResponse(s: State, step: RecoverStep): Event
    requires Redeliverable(s, step.key)
  {
    s.rows[step.key].response.value
  }

  function PreparedHook(s: State, step: RecoverStep): Result<Rows, StoreError>
    requires Redeliverable(s, step.key)
  {
    SaveForCorrelation(s.rows, KeyCorr(s.rows, step.key), SavedResponse(s, step))
  }

  /** The deliveries a recovery step queues on its new emitter; `None` queues on none. */
  ghost function RecoverChain(s: State, step: RecoverStep): Option<seq<Task>>
    requires RecoverEnabled(s, step)
  {
    match step
    case Resume(_, _, _, order) => Some(ResumeTasks(s.out, order))
    case RedeliverMissing(k, _, _) =>
      if PreparedHook(s, step).Err? then None else Some([Task(SavedResponse(s, step), true, 0, Queued)])
    case RedeliverWaiting(k, _, _, order) =>
      if PayloadConflict(s, k) then None else Some(ResumeTasks(s.out, order))
    case RedeliverFailed(k, _, _) =>
      if PayloadConflict(s, k) || PreparedHook(s, step).Err? then None
      else Some([Task(SavedResponse(s, step), true, 0, Queued)])
    case RedeliverDelivered(_) => None
    case RedeliverThrough(_, _) => None
  }

  /** What a recovery step does to the stores and the history. */
  ghost function RecoverEffect(s: State, step: RecoverStep): (t: State)
    requires RecoverEnabled(s, step)
    ensures t == s.(rows := t.rows, out := t.out, nextRowid := t.nextRowid, faults := t.faults, rounds := t.rounds)
  {
    match step
    case Resume(_, _, _, _) => s
    case RedeliverMissing(k, _, _) =>
      var prepared := PreparedHook(s, step);
      if prepared.Err? then Hooked(s, prepared) else Insert(Hooked(s, prepared), k.adapter, SavedResponse(s, step))
    case RedeliverWaiting(k, _, _, _) =>
      if PayloadConflict(s, k) then s.(faults := s.faults + 1) else s
    case RedeliverFailed(k, _, _) =>
      var prepared := PreparedHook(s, step);
      var id := SavedResponse(s, step).id;
      if PayloadConflict(s, k) then s.(faults := s.faults + 1)
      else if prepared.Err? then Hooked(s, prepared)
      else Update(Hooked(s, prepared), id, Waiting, 0).(rounds := s.rounds[id := Round(0, 0, false, s.crashes)])
    case RedeliverDelivered(k) =>
      if PayloadConflict(s, k) then s.(faults := s.faults + 1)
      else Hooked(s, SendCorrelation(s.rows, KeyCorr(s.rows, k), SavedResponse(s, step).id))
    case RedeliverThrough(_, em) =>
      // no row of its correlation: the emitter prepares the event as a new one of its own
      Hooked(s, SaveForCorrelation(s.rows, s.emitters[em].corr, SavedResponse(s, step)))
  }

  ghost function ApplyRecover(s: State, step: RecoverStep): State
    requires RecoverEnabled(s, step)
  {
    var chain := RecoverChain(s, step);
    var t := RecoverEffect(s, step);
    if chain.None? then t
    else SetEmitter(t, step.em,
           Construct(s.out, KeyCorr(s.rows, step.key), s.rows[step.key].conversation, step.resume, chain.value))
  }

  /** What a delivery step leaves at the head of its chain; `None` drops it. */
  function NextTask(s: State, step: DeliverStep): Option<Task>
    requires step.em in s.emitters && |s.emitters[step.em].chain| > 0
  {
    var t := Head(s, step.em);
    match step
    case ResolveTarget(_) => Some(t.(phase := Ready))
    case NoTarget(_) => Some(t.(phase := MarkedFailed))
    case Post(_, reply) => Some(t.(phase := if reply == Ack then Acked else Refused))
    case MarkDelivered(_) => Some(t.(phase := MarkedDelivered))
    case SentHook(em) =>
      // a throwing hook lands in the retry loop's catch
      if Answer(t.event.kind) && SendCorrelation(s.rows, s.emitters[em].corr, t.event.id).Err?
      then Some(t.(phase := Refused)) else None
    case RecordAttempt(_) => Some(t.(attempt := t.attempt + 1, phase := Ready))
    case Exhaust(_) => Some(t.(phase := MarkedFailed))
    case FailedHook(_, _) => None
    case BestEffortDone(_) => None
  }

  /** What a delivery step does to the stores and the history. */
  function DeliverEffect(s: State, step: DeliverStep): (t: State)
    requires step.em in s.emitters && |s.emitters[step.em].chain| > 0
    ensures t == s.(rows := t.rows, out := t.out, acked := t.acked, faults := t.faults, rounds := t.rounds)
  {
    var t := Head(s, step.em);
    var id := t.event.id;
    match step
    case ResolveTarget(_) => s
    case NoTarget(_) => SetStatus(s, id, PermanentFailure)
    case Post(_, reply) =>
      s.(acked := if reply == Ack then s.acked + {id} else s.acked, rounds := Flown(s.rounds, id))
    case MarkDelivered(_) =>
      Update(s, id, Delivered, t.attempt + 1).(rounds := Landed(s.rounds, id))
    case SentHook(em) =>
      if Answer(t.event.kind) then Hooked(s, SendCorrelation(s.rows, s.emitters[em].corr, id)) else s
    case RecordAttempt(_) =>
      Update(s, id, if id in s.out then s.out[id].status else Waiting, t.attempt + 1).(rounds := Landed(s.rounds, id))
    case Exhaust(_) => SetStatus(s, id, PermanentFailure)
    case FailedHook(em, error) =>
      if Answer(t.event.kind) then Hooked(s, FailCorrelation(s.rows, s.emitters[em].corr, id, error)) else s
    case BestEffortDone(_) => s
  }

  function Advance(s: State, em: Id, next: Option<Task>): State
    requires em in s.emitters && |s.emitters[em].chain| > 0
  {
    if next.Some? then SetHead(s, em, next.value) else PopHead(s, em)
  }

  ghost function ApplyDeliver(s: State, step: DeliverStep): State
    requires DeliverEnabled(s, step)
  {
    Advance(DeliverEffect(s, step), step.em, NextTask(s, step))
  }

  ghost function Apply(s: State, step: Step): State
    requires Enabled(s, step)
  {
    match step
    case Inbound(i) => ApplyInbound(s, i)
    case Emit(e) => ApplyEmit(s, e)
    case Recover(r) => ApplyRecover(s, r)
    case Deliver(d) => ApplyDeliver(s, d)
    case Crash =>
      s.(emitters := map[], open := map[], reserved := {}, crashes := s.crashes + 1, rounds := Erased(s.rounds))
  }

  /** Run a step list; `None` when some step is not enabled where it stands. */
  ghost function Exec(s: State, steps: seq<Step>, retries: nat): Option<State>
    decreases |steps|
  {
    if steps == [] then Some(s)
    else if Enabled(s, steps[0]) && InSchedule(s, steps[0], retries)
    then Exec(Apply(s, steps[0]), steps[1..], retries)
    else None
  }
}
