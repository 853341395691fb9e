/** Every step of the delivery protocol keeps its invariant. */
module DeliverySteps {
  import opened Wrappers
  import opened IdempotencyStore
  import opened DeliveryProtocol
  import opened DeliveryInvariants

  /** Add one pending row to a correlation, or start a new correlation with it. */
  function AddRow(s: State, k: MessageKey, row: Row, isNew: bool): State {
    var c := Corr(k.adapter, row.correlation);
    var t := s.(rows := s.rows[k := row]);
    if isNew then t.(corrs := s.corrs[c := k], reserved := s.reserved + {c}) else t
  }

  lemma AddRowKeepsRows(s: State, k: MessageKey, row: Row, isNew: bool)
    requires RowsInv(s) && k !in s.rows
    requires row == FreshRow(row.conversation, row.correlation, row.hash)
    requires var c := Corr(k.adapter, row.correlation);
      if isNew then c !in s.corrs else Unanswered(s, c) && row.conversation == Lead(s, c).conversation
    ensures RowsInv(AddRow(s, k, row, isNew))
    ensures forall c :: Known(s, c) ==> Known(AddRow(s, k, row, isNew), c) && Lead(AddRow(s, k, row, isNew), c) == Lead(s, c)
  {
    hide ResponseInv, Siblings;
    var t := AddRow(s, k, row, isNew);
    forall c | c in t.corrs
      ensures t.corrs[c] in t.rows && KeyCorr(t.rows, t.corrs[c]) == c && ResponseInv(t, c, Lead(t, c))
      ensures c in s.corrs ==> Lead(t, c) == Lead(s, c)
    {
      AddRowLead(s, k, row, isNew, c);
    }
    forall x | x in t.rows
      ensures KeyCorr(t.rows, x) in t.corrs && t.corrs[KeyCorr(t.rows, x)] in t.rows
      ensures Siblings(t.rows[x], Lead(t, KeyCorr(t.rows, x)))
    {
      AddRowSibling(s, k, row, isNew, x);
    }
  }

  lemma AddRowLead(s: State, k: MessageKey, row: Row, isNew: bool, c: Corr)
    requires RowsInv(s) && k !in s.rows && c in AddRow(s, k, row, isNew).corrs
    requires row == FreshRow(row.conversation, row.correlation, row.hash)
    requires isNew ==> Corr(k.adapter, row.correlation) !in s.corrs
    ensures var t := AddRow(s, k, row, isNew);
      && t.corrs[c] in t.rows && KeyCorr(t.rows, t.corrs[c]) == c && ResponseInv(t, c, Lead(t, c))
      && (c in s.corrs ==> Lead(t, c) == Lead(s, c))
  {
    if c in s.corrs {
      assert ResponseInv(s, c, Lead(s, c));
    }
  }

  lemma AddRowSibling(s: State, k: MessageKey, row: Row, isNew: bool, x: MessageKey)
    requires RowsInv(s) && k !in s.rows && (x == k || x in s.rows)
    requires row == FreshRow(row.conversation, row.correlation, row.hash)
    requires var c := Corr(k.adapter, row.correlation);
      if isNew then c !in s.corrs else Unanswered(s, c) && row.conversation == Lead(s, c).conversation
    ensures var t := AddRow(s, k, row, isNew);
      && KeyCorr(t.rows, x) in t.corrs && t.corrs[KeyCorr(t.rows, x)] in t.rows
      && Siblings(t.rows[x], Lead(t, KeyCorr(t.rows, x)))
  {
    if x != k {
      assert Siblings(s.rows[x], Lead(s, KeyCorr(s.rows, x)));
    } else if !isNew {
      assert ResponseInv(s, Corr(k.adapter, row.correlation), Lead(s, Corr(k.adapter, row.correlation)));
    }
  }

  lemma AddRowKeepsInv(s: State, k: MessageKey, row: Row, isNew: bool)
    requires Inv(s) && k !in s.rows
    requires row == FreshRow(row.conversation, row.correlation, row.hash)
    requires var c := Corr(k.adapter, row.correlation);
      if isNew then c !in s.corrs else Unanswered(s, c) && row.conversation == Lead(s, c).conversation
    ensures Inv(AddRow(s, k, row, isNew))
  {
    AddRowKeepsRows(s, k, row, isNew);
    AddRowExtends(s, k, row, isNew);
    ExtendsKeepsInv(s, AddRow(s, k, row, isNew));
  }

  lemma AddRowExtends(s: State, k: MessageKey, row: Row, isNew: bool)
    requires RowsInv(s) && OpenInv(s) && k !in s.rows && row.delivery == Pending && row.response.None?
    requires isNew ==> Corr(k.adapter, row.correlation) !in s.corrs
    requires var t := AddRow(s, k, row, isNew); forall c :: Known(s, c) ==> Known(t, c) && Lead(t, c) == Lead(s, c)
    ensures Extends(s, AddRow(s, k, row, isNew))
  {
    var c := Corr(k.adapter, row.correlation);
    var t := AddRow(s, k, row, isNew);
    if isNew {
      assert c !in s.open;
      assert Unanswered(t, c);
    }
    forall x | Known(t, x) && !Known(s, x) ensures Lead(t, x).response.None? {
      assert x == c;
    }
    forall x | x in t.reserved ensures x !in t.open && (x in s.reserved || Unanswered(t, x)) {
    }
  }

  function Ingested(s: State, k: MessageKey): State
    requires k in s.rows
  {
    s.(rows := s.rows[k := s.rows[k].(ingested := true)])
  }

  lemma IngestKeepsRows(s: State, k: MessageKey)
    requires RowsInv(s) && k in s.rows
    ensures RowsInv(Ingested(s, k))
    ensures forall c :: Known(s, c) ==> Known(Ingested(s, k), c) && Siblings(Lead(Ingested(s, k), c), Lead(s, c))
  {
    var t := Ingested(s, k);
    forall c | c in t.corrs
      ensures t.corrs[c] in t.rows && KeyCorr(t.rows, t.corrs[c]) == c && ResponseInv(t, c, Lead(t, c))
    {
      assert ResponseInv(s, c, Lead(s, c));
    }
    forall x | x in t.rows
      ensures KeyCorr(t.rows, x) in t.corrs && Siblings(t.rows[x], Lead(t, KeyCorr(t.rows, x)))
    {
      assert KeyCorr(t.rows, x) == KeyCorr(s.rows, x);
      assert Siblings(s.rows[x], Lead(s, KeyCorr(s.rows, x)));
    }
  }

  lemma IngestKeepsInv(s: State, k: MessageKey)
    requires Inv(s) && k in s.rows
    ensures Inv(Ingested(s, k))
  {
    IngestKeepsRows(s, k);
    IngestExtends(s, k);
    hide RowsInv, Extends, Ingested;
    ExtendsKeepsInv(s, Ingested(s, k));
  }

  lemma IngestExtends(s: State, k: MessageKey)
    requires OpenInv(s) && k in s.rows
    requires forall c :: Known(s, c) ==> Known(Ingested(s, k), c) && Siblings(Lead(Ingested(s, k), c), Lead(s, c))
    ensures Extends(s, Ingested(s, k))
  {
  }

  lemma MintKeepsInv(s: State, id: Id, c: Corr)
    requires Inv(s) && id !in s.events
    ensures Inv(s.(events := s.events[id := c]))
  {
    ExtendsKeepsInv(s, s.(events := s.events[id := c]));
  }

  lemma AckKeepsInv(s: State, acked: set<Id>, rounds: map<Id, Round>)
    requires Inv(s) && s.acked <= acked
    ensures Inv(s.(acked := acked, rounds := rounds))
  {
    ExtendsKeepsInv(s, s.(acked := acked, rounds := rounds));
  }

  // ----- emissions -----

  /** Bump the counter, insert the row, append its delivery: every non-answer emission. */
  lemma EmissionKeepsInv(s: State, em: Id, kind: Kind, id: Id, body: Id, started: bool, terminal: bool)
    requires Inv(s) && IsOpen(s, em) && id !in s.events && !Answer(kind)
    ensures var e := s.emitters[em];
      var event := NextEvent(e, kind, id, body);
      Inv(SetEmitter(Insert(s, e.corr.adapter, event), em,
            e.(sequence := e.sequence + 1, started := started, terminal := terminal,
               chain := e.chain + [Task(event, true, 0, Queued)]))
          .(events := s.events[id := e.corr]))
  {
    hide Inv;
    var e := s.emitters[em];
    var c := e.corr;
    var event := NextEvent(e, kind, id, body);
    var e1 := e.(sequence := e.sequence + 1, started := started, terminal := terminal);
    var s1 := s.(events := s.events[id := c]);
    MintKeepsInv(s, id, c);
    BumpKeepsInv(s1, em, e1);
    var s2 := SetEmitter(s1, em, e1);
    EmissionInsertable(s, em, kind, id, body, e1);
    InsertKeepsInv(s2, c, event);
    var s3 := Insert(s2, c.adapter, event);
    QueueKeepsInv(s3, em, Task(event, true, 0, Queued));
    var e2 := e1.(chain := e1.chain + [Task(event, true, 0, Queued)]);
    assert SetEmitter(s3, em, e2)
        == SetEmitter(Insert(s, c.adapter, event), em, e2).(events := s.events[id := c]);
  }

  lemma BumpKeepsInv(s: State, em: Id, e: Emitter)
    requires Inv(s) && IsOpen(s, em)
    requires e == s.emitters[em].(sequence := s.emitters[em].sequence + 1, started := e.started, terminal := e.terminal)
    ensures Inv(SetEmitter(s, em, e))
  {
    assert EmitterInv(s, s.emitters[em]);
    assert EmitterInv(s, e) by {
      assert forall t :: t in e.chain ==> TaskInv(s, s.emitters[em], t);
    }
    assert OpenEmitterInv(s, e.corr, s.emitters[em]);
    EmitterKeepsInv(s, em, e);
  }

  lemma EmissionInsertable(s: State, em: Id, kind: Kind, id: Id, body: Id, e1: Emitter)
    requires Inv(s) && IsOpen(s, em) && id !in s.events && !Answer(kind)
    requires e1 == s.emitters[em].(sequence := s.emitters[em].sequence + 1, started := e1.started, terminal := e1.terminal)
    ensures Insertable(SetEmitter(s.(events := s.events[id := e1.corr]), em, e1), e1.corr,
                       NextEvent(s.emitters[em], kind, id, body))
    ensures e1.prepared.None? && forall t :: t in e1.chain ==> t.event.sequence < e1.sequence
  {
    assert Unanswered(s, e1.corr) && OpenEmitterInv(s, e1.corr, s.emitters[em]);
    assert ResponseInv(s, e1.corr, Lead(s, e1.corr));
    assert id !in s.out by {
      assert id in s.out ==> OutRowInv(s, id);
    }
  }

  /** Append one delivery, the latest of its chain, to an emitter. */
  lemma QueueKeepsInv(s: State, em: Id, task: Task)
    requires Inv(s) && em in s.emitters
    requires s.emitters[em].prepared.None? && TaskInv(s, s.emitters[em], task)
    requires forall t :: t in s.emitters[em].chain ==> t.event.sequence < task.event.sequence
    requires IsOpen(s, em) ==> task.event.sequence <= s.emitters[em].sequence
    ensures Inv(SetEmitter(s, em, s.emitters[em].(chain := s.emitters[em].chain + [task])))
  {
    var e := s.emitters[em].(chain := s.emitters[em].chain + [task]);
    assert EmitterInv(s, s.emitters[em]);
    AppendKeepsEmitter(s, s.emitters[em], task);
    forall c | c in s.open && s.open[c] == em ensures Unanswered(s, c) && OpenEmitterInv(s, c, e) {
      assert OpenEmitterInv(s, c, s.emitters[em]);
    }
    EmitterKeepsInv(s, em, e);
  }

  lemma AppendKeepsEmitter(s: State, e: Emitter, task: Task)
    requires EmitterInv(s, e) && TaskInv(s, e, task)
    requires e.prepared.None?
    requires forall t :: t in e.chain ==> t.event.sequence < task.event.sequence
    ensures EmitterInv(s, e.(chain := e.chain + [task]))
  {
    var e' := e.(chain := e.chain + [task]);
    forall t | t in e'.chain ensures TaskInv(s, e', t) {
      if t in e.chain {
        assert TaskInv(s, e, t);
      }
    }
    forall i, j | 0 <= i < j < |e'.chain| ensures e'.chain[i].event.sequence < e'.chain[j].event.sequence {
      if j < |e.chain| {
        assert e.chain[i].event.sequence < e.chain[j].event.sequence;
      } else {
        assert e.chain[i] in e.chain;
      }
    }
  }

  lemma BestEffortKeepsInv(s: State, em: Id, id: Id, body: Id)
    requires Inv(s) && EmitEnabled(s, EmitBestEffort(em, id, body))
    ensures Inv(ApplyEmit(s, EmitBestEffort(em, id, body)))
  {
    hide Inv;
    var e := s.emitters[em];
    var e1 := e.(sequence := e.sequence + 1);
    var s1 := s.(events := s.events[id := e.corr]);
    OpenEmitterFacts(s, em);
    MintKeepsInv(s, id, e.corr);
    BumpKeepsInv(s1, em, e1);
    var s2 := SetEmitter(s1, em, e1);
    var task := Task(NextEvent(e, Progress, id, body), false, 0, Queued);
    QueueKeepsInv(s2, em, task);
    assert SetEmitter(s2, em, e1.(chain := e1.chain + [task])) == ApplyEmit(s, EmitBestEffort(em, id, body));
  }

  lemma OpenEmitterFacts(s: State, em: Id)
    requires Inv(s) && IsOpen(s, em)
    ensures var e := s.emitters[em];
      && Unanswered(s, e.corr) && e.prepared.None? && e.conversation == Lead(s, e.corr).conversation
      && (forall t :: t in e.chain ==> t.event.sequence <= e.sequence)
      && (forall id :: OfCorr(s.out, id, e.corr) ==> s.out[id].event.sequence <= e.sequence)
      && e.corr !in s.reserved
  {
    assert OpenEmitterInv(s, s.emitters[em].corr, s.emitters[em]);
  }

  lemma OutIdsKnown(s: State)
    requires Inv(s)
    ensures forall id :: id in s.out ==> id in s.events
  {
    forall id | id in s.out ensures id in s.events {
      assert OutRowInv(s, id);
    }
  }

  lemma SaveKeepsInv(s: State, em: Id, kind: Kind, id: Id, body: Id)
    requires Inv(s) && EmitEnabled(s, SaveTerminal(em, kind, id, body))
    ensures Inv(ApplyEmit(s, SaveTerminal(em, kind, id, body)))
  {
    hide Inv, SaveForCorrelation, Moved;
    var e := s.emitters[em];
    var event := NextEvent(e, kind, id, body);
    OpenEmitterFacts(s, em);
    SaveSucceeds(s, e.corr, event);
    var rows' := SaveForCorrelation(s.rows, e.corr, event).value;
    var e1 := e.(sequence := e.sequence + 1, terminal := true, prepared := Some(event));
    var t := s.(events := s.events[id := e.corr], open := s.open - {e.corr}, rows := rows');
    CommitSaveKeepsInv(s, em, event, rows');
    assert ApplyEmit(s, SaveTerminal(em, kind, id, body)) == SetEmitter(t, em, e1);
  }

  lemma CommitSaveKeepsInv(s: State, em: Id, event: Event, rows': Rows)
    requires Inv(s) && IsOpen(s, em) && event.id !in s.events && Answer(event.kind)
    requires var e := s.emitters[em];
      event.correlation == e.corr.id && event.conversation == e.conversation && event.sequence == e.sequence + 1
    requires Moved(s.rows, rows', s.emitters[em].corr, Saved, Some(event), None)
    ensures var e := s.emitters[em];
      Inv(SetEmitter(s.(events := s.events[event.id := e.corr], open := s.open - {e.corr}, rows := rows'),
                     em, e.(sequence := e.sequence + 1, terminal := true, prepared := Some(event))))
  {
    hide Inv, Moved;
    var e := s.emitters[em];
    OpenEmitterFacts(s, em);
    OutIdsKnown(s);
    CloseKeepsInv(s, event.id, e.corr);
    var s1 := s.(events := s.events[event.id := e.corr], open := s.open - {e.corr});
    var t := s1.(rows := rows');
    SavedKeepsInv(s1, t, e.corr, event);
    PrepareKeepsInv(t, em, e, e.(sequence := e.sequence + 1, terminal := true, prepared := Some(event)));
  }

  lemma SaveSucceeds(s: State, c: Corr, e: Event)
    requires Inv(s) && Unanswered(s, c)
    requires Answer(e.kind) && e.correlation == c.id && e.conversation == Lead(s, c).conversation
    ensures SaveForCorrelation(s.rows, c, e).Ok?
    ensures Moved(s.rows, SaveForCorrelation(s.rows, c, e).value, c, Saved, Some(e), None)
  {
    SaveOpens(s, c, e);
  }

  lemma CloseKeepsInv(s: State, id: Id, c: Corr)
    requires Inv(s) && id !in s.events
    ensures Inv(s.(events := s.events[id := c], open := s.open - {c}))
  {
    ExtendsKeepsInv(s, s.(events := s.events[id := c], open := s.open - {c}));
  }

  lemma PrepareKeepsInv(s: State, em: Id, e: Emitter, e1: Emitter)
    requires Inv(s) && em in s.emitters && s.emitters[em] == e && e.corr !in s.open
    requires e1 == e.(sequence := e.sequence + 1, terminal := true, prepared := e1.prepared)
    requires e1.prepared.Some? && Answered(s, e.corr, e1.prepared.value)
    requires forall t :: t in e.chain ==> t.event.sequence < e1.prepared.value.sequence
    ensures Inv(SetEmitter(s, em, e1))
  {
    assert EmitterInv(s, e);
    assert EmitterInv(s, e1) by {
      assert forall x :: x in e1.chain ==> TaskInv(s, e, x);
    }
    forall c | c in s.open ensures s.open[c] != em {
      assert OpenEmitterInv(s, c, s.emitters[s.open[c]]);
    }
    EmitterKeepsInv(s, em, e1);
  }

  /** The save itself, with the correlation already closed to new messages. */
  lemma SavedKeepsInv(s: State, t: State, c: Corr, event: Event)
    requires Inv(s) && Unanswered(s, c) && c !in s.open && c !in s.reserved && t == s.(rows := t.rows)
    requires Moved(s.rows, t.rows, c, Saved, Some(event), None)
    requires Answer(event.kind) && event.correlation == c.id
               && event.conversation == Lead(s, c).conversation && event.id in s.events && s.events[event.id] == c
    requires event.id !in s.out && forall id :: OfCorr(s.out, id, c) ==> s.out[id].event.sequence < event.sequence
    ensures Inv(t) && Answered(t, c, event)
  {
    hide RowsInv, OpenInv, OutInv, EmittersInv, Moved;
    MovedKeepsRows(s, t.rows, c, Saved, event, None);
    MovedKeys(s, t, c, event);
    SavedKeepsOut(s, t, c, event);
    SavedKeepsOpen(s, t, c);
    SavedKeepsEmitters(s, t, c);
  }

  lemma MovedKeys(s: State, t: State, c: Corr, event: Event)
    requires Moved(s.rows, t.rows, c, Saved, Some(event), None)
    ensures t.rows.Keys == s.rows.Keys
  {
  }

  lemma SavedKeepsOpen(s: State, t: State, c: Corr)
    requires OpenInv(s) && Unanswered(s, c) && c !in s.open && c !in s.reserved && t == s.(rows := t.rows)
    requires forall x :: Known(s, x) && x != c ==> Known(t, x) && Lead(t, x) == Lead(s, x)
    ensures OpenInv(t)
  {
    forall x | x in t.open
      ensures Unanswered(t, x) && t.open[x] in t.emitters && OpenEmitterInv(t, x, t.emitters[t.open[x]])
    {
      assert Unanswered(s, x) && OpenEmitterInv(s, x, s.emitters[s.open[x]]);
    }
  }

  lemma SavedKeepsEmitters(s: State, t: State, c: Corr)
    requires EmittersInv(s) && Unanswered(s, c) && t == s.(rows := t.rows) && RowsInv(s)
    requires forall x :: Known(s, x) && x != c ==> Known(t, x) && Lead(t, x) == Lead(s, x)
    ensures EmittersInv(t)
  {
    assert ResponseInv(s, c, Lead(s, c));
    forall x | x in t.emitters ensures EmitterInv(t, t.emitters[x]) {
      assert EmitterInv(s, s.emitters[x]);
      forall y | y in t.emitters[x].chain ensures TaskInv(t, t.emitters[x], y) {
        assert TaskInv(s, s.emitters[x], y);
      }
    }
  }

  lemma SavedKeepsOut(s: State, t: State, c: Corr, event: Event)
    requires OutInv(s) && Unanswered(s, c) && t == s.(rows := t.rows) && t.rows.Keys == s.rows.Keys
    requires Answered(t, c, event)
    requires forall x :: Known(s, x) && x != c ==> Known(t, x) && Lead(t, x) == Lead(s, x)
    requires RowsInv(s)
    requires event.id !in s.out && forall id :: OfCorr(s.out, id, c) ==> s.out[id].event.sequence < event.sequence
    ensures OutInv(t)
  {
    assert ResponseInv(s, c, Lead(s, c));
    forall id | id in t.out ensures OutRowInv(t, id) {
      assert OutRowInv(s, id);
    }
    forall x | Known(t, x) && Lead(t, x).response.Some? ensures SavedInv(t, x, Lead(t, x).response.value) {
      if x != c {
        assert Known(s, x) && SavedInv(s, x, Lead(s, x).response.value);
      }
    }
  }

  lemma PreparedFacts(s: State, em: Id)
    requires Inv(s) && em in s.emitters && s.emitters[em].prepared.Some?
    ensures var e := s.emitters[em];
      var event := e.prepared.value;
      && Answered(s, e.corr, event) && e.corr !in s.open && event.correlation == e.corr.id
      && event.id in s.events && s.events[event.id] == e.corr
      && (forall t :: t in e.chain ==> t.event.sequence < event.sequence)
      && (event.id in s.out ==> s.out[event.id].event == event && s.out[event.id].adapter == e.corr.adapter)
      && (event.id !in s.out ==> Insertable(s, e.corr, event))
  {
    var e := s.emitters[em];
    var event := e.prepared.value;
    assert EmitterInv(s, e) && ResponseInv(s, e.corr, Lead(s, e.corr)) && SavedInv(s, e.corr, event);
  }

  lemma UnprepareKeepsInv(s: State, em: Id)
    requires Inv(s) && em in s.emitters && s.emitters[em].prepared.Some?
    ensures Inv(SetEmitter(s, em, s.emitters[em].(prepared := None)))
  {
    var e := s.emitters[em];
    var e1 := e.(prepared := None);
    assert EmitterInv(s, e);
    assert EmitterInv(s, e1) by {
      assert forall t :: t in e1.chain ==> TaskInv(s, e, t);
    }
    forall c | c in s.open ensures s.open[c] != em {
      assert OpenEmitterInv(s, c, s.emitters[s.open[c]]);
    }
    EmitterKeepsInv(s, em, e1);
  }

  lemma InsertPreparedKeepsInv(s: State, em: Id)
    requires Inv(s) && EmitEnabled(s, InsertPrepared(em))
    ensures Inv(ApplyEmit(s, InsertPrepared(em)))
  {
    hide Inv;
    var e := s.emitters[em];
    var event := e.prepared.value;
    PreparedFacts(s, em);
    UnprepareKeepsInv(s, em);
    var s1 := SetEmitter(s, em, e.(prepared := None));
    if event.id !in s.out {
      InsertKeepsInv(s1, e.corr, event);
      var s2 := Insert(s1, e.corr.adapter, event);
      var task := Task(event, true, 0, Queued);
      QueueKeepsInv(s2, em, task);
      assert ApplyEmit(s, InsertPrepared(em)) == SetEmitter(s2, em, s2.emitters[em].(chain := e.chain + [task]));
    } else {
      assert ApplyEmit(s, InsertPrepared(em)) == s1;
    }
  }
}
