/** The invariant of the delivery protocol and its preservation by every step. */
module DeliveryInvariants {
  import opened Wrappers
  import opened IdempotencyStore
  import opened DeliveryProtocol

  // ----- inbound rows -----

  /** The row a correlation was minted for stands for all its siblings. */
  function Lead(s: State, c: Corr): Row
    requires c in s.corrs && s.corrs[c] in s.rows
  {
    s.rows[s.corrs[c]]
  }

  /** Siblings agree on everything but their hash and ingest track. */
  predicate Siblings(a: Row, b: Row) {
    a.conversation == b.conversation && a.delivery == b.delivery && a.response == b.response && a.error == b.error
  }

  predicate ResponseInv(s: State, c: Corr, row: Row) {
    && RowValid(row)
    && (row.response.Some? ==>
          var e := row.response.value;
          && e.correlation == row.correlation && e.conversation == row.conversation
          && Answer(e.kind) && e.id in s.events && s.events[e.id] == c)
    && (row.delivery == Sent ==> row.response.Some? && row.response.value.id in s.acked)
  }

  ghost predicate RowsInv(s: State) {
    && (forall c :: c in s.corrs ==>
          s.corrs[c] in s.rows && KeyCorr(s.rows, s.corrs[c]) == c && ResponseInv(s, c, Lead(s, c)))
    && (forall k :: k in s.rows ==>
          KeyCorr(s.rows, k) in s.corrs && Siblings(s.rows[k], Lead(s, KeyCorr(s.rows, k))))
  }

  predicate Known(s: State, c: Corr) {
    c in s.corrs && s.corrs[c] in s.rows
  }

  /** Nothing has answered this correlation yet. */
  predicate Unanswered(s: State, c: Corr) {
    Known(s, c) && Lead(s, c).delivery == Pending
  }

  /** This event is the saved response of the correlation. */
  predicate Answered(s: State, c: Corr, e: Event) {
    Known(s, c) && Lead(s, c).response == Some(e)
  }

  // ----- active correlations -----

  ghost predicate OpenInv(s: State) {
    && (forall c :: c in s.reserved ==> Unanswered(s, c) && c !in s.open)
    && (forall c :: c in s.open ==>
          && Unanswered(s, c)
          && s.open[c] in s.emitters
          && OpenEmitterInv(s, c, s.emitters[s.open[c]]))
  }

  ghost predicate OpenEmitterInv(s: State, c: Corr, e: Emitter)
    requires Unanswered(s, c)
  {
    && e.corr == c && e.prepared.None?
    && e.conversation == Lead(s, c).conversation
    && (forall id :: OfCorr(s.out, id, c) ==> s.out[id].event.sequence <= e.sequence)
    && (forall t :: t in e.chain ==> t.event.sequence <= e.sequence)
  }

  // ----- outbox -----

  predicate OutRowInv(s: State, id: Id)
    requires id in s.out
  {
    var row := s.out[id];
    && row.event.id == id && id in s.events && s.events[id] == CorrOf(row) && CorrOf(row) in s.corrs
    && row.rowid < s.nextRowid
    && (row.status == Delivered ==> id in s.acked)
    && (Answer(row.event.kind) ==> Answered(s, CorrOf(row), row.event))
  }

  /** Within a correlation, insertion order is sequence order. */
  predicate Ordered(a: OutRow, b: OutRow) {
    && a.rowid != b.rowid
    && (CorrOf(a) == CorrOf(b) && a.rowid < b.rowid ==> a.event.sequence < b.event.sequence)
  }

  ghost predicate OutInv(s: State) {
    && (forall id :: id in s.out ==> OutRowInv(s, id))
    && (forall i, j :: i in s.out && j in s.out && i != j ==> Ordered(s.out[i], s.out[j]))
    && (forall c :: Known(s, c) && Lead(s, c).response.Some? ==> SavedInv(s, c, Lead(s, c).response.value))
  }

  /** A saved response is in the outbox unchanged, or ahead of everything there. */
  ghost predicate SavedInv(s: State, c: Corr, e: Event) {
    && (e.id in s.out ==> s.out[e.id].event == e && s.out[e.id].adapter == c.adapter)
    && (e.id !in s.out ==>
          forall id :: OfCorr(s.out, id, c) ==> s.out[id].event.sequence < e.sequence)
  }

  // ----- emitters -----

  predicate TaskInv(s: State, e: Emitter, t: Task) {
    t.durable ==>
      && t.event.id in s.out && s.out[t.event.id].event == t.event && CorrOf(s.out[t.event.id]) == e.corr
      && (t.phase in {Acked, MarkedDelivered} ==> t.event.id in s.acked)
  }

  ghost predicate EmitterInv(s: State, e: Emitter) {
    && e.corr in s.corrs
    && (e.prepared.Some? ==>
          && Answered(s, e.corr, e.prepared.value)
          && (forall t :: t in e.chain ==> t.event.sequence < e.prepared.value.sequence))
    && (forall t :: t in e.chain ==> TaskInv(s, e, t))
    && (forall i, j :: 0 <= i < j < |e.chain| ==> e.chain[i].event.sequence < e.chain[j].event.sequence)
  }

  ghost predicate EmittersInv(s: State) {
    forall em :: em in s.emitters ==> EmitterInv(s, s.emitters[em])
  }

  ghost predicate Inv(s: State) {
    && RowsInv(s) && OpenInv(s) && OutInv(s) && EmittersInv(s)
  }

  lemma InitInv()
    ensures Inv(Init())
  {
  }

  // ----- hooks -----

  /** Move every sibling of `c` to one delivery state and response. */
  ghost predicate Moved(rows: Rows, rows': Rows, c: Corr, d: Delivery, response: Option<Event>, error: Option<Id>) {
    && rows'.Keys == rows.Keys
    && (forall k :: k in rows ==>
          if InGroup(rows, k, c)
          then rows'[k] == rows[k].(ingested := rows'[k].ingested, delivery := d, response := response, error := error)
          else rows'[k] == rows[k])
  }

  lemma GroupFollowsLead(s: State, c: Corr, k: MessageKey)
    requires RowsInv(s) && InGroup(s.rows, k, c)
    ensures Known(s, c) && Siblings(s.rows[k], Lead(s, c)) && KeyCorr(s.rows, k) == c
  {
  }

  lemma SaveOpens(s: State, c: Corr, e: Event)
    requires RowsInv(s) && Unanswered(s, c)
    requires Answer(e.kind) && e.correlation == c.id && e.conversation == Lead(s, c).conversation
    ensures SaveForCorrelation(s.rows, c, e).Ok?
    ensures Moved(s.rows, SaveForCorrelation(s.rows, c, e).value, c, Saved, Some(e), None)
  {
    assert s.corrs[c] in Group(s.rows, c);
    forall k | k in s.rows && InGroup(s.rows, k, c) ensures Savable(s.rows[k], e) {
      GroupFollowsLead(s, c, k);
    }
  }

  lemma SaveAgain(s: State, c: Corr, e: Event)
    requires RowsInv(s) && Answered(s, c, e)
    ensures SaveForCorrelation(s.rows, c, e) == Ok(s.rows)
  {
    assert s.corrs[c] in Group(s.rows, c);
    forall k | k in s.rows && InGroup(s.rows, k, c) ensures Savable(s.rows[k], e) && s.rows[k].delivery != Pending {
      GroupFollowsLead(s, c, k);
    }
    assert SaveForCorrelation(s.rows, c, e).value == s.rows;
  }

  lemma SendSettles(s: State, c: Corr, e: Event)
    requires RowsInv(s) && Answered(s, c, e)
    ensures SendCorrelation(s.rows, c, e.id).Ok?
    ensures Moved(s.rows, SendCorrelation(s.rows, c, e.id).value, c, Sent, Some(e), None)
  {
    forall k | k in s.rows && InGroup(s.rows, k, c) ensures Settleable(s.rows[k], e.id) && s.rows[k].response == Some(e) {
      GroupFollowsLead(s, c, k);
    }
  }

  lemma FailSettles(s: State, c: Corr, e: Event, error: Id)
    requires RowsInv(s) && Answered(s, c, e)
    ensures FailCorrelation(s.rows, c, e.id, error).Ok?
    ensures var rows' := FailCorrelation(s.rows, c, e.id, error).value;
      if Lead(s, c).delivery == Saved then Moved(s.rows, rows', c, Failed, Some(e), Some(error)) else rows' == s.rows
  {
    forall k | k in s.rows && InGroup(s.rows, k, c)
      ensures Settleable(s.rows[k], e.id) && s.rows[k].response == Some(e) && s.rows[k].delivery == Lead(s, c).delivery
    {
      GroupFollowsLead(s, c, k);
    }
    if Lead(s, c).delivery != Saved {
      assert FailCorrelation(s.rows, c, e.id, error).value == s.rows;
    }
  }

  /** The same answers, at least the same knowledge, no more volatile state. */
  ghost predicate Extends(s: State, t: State) {
    && t.out == s.out && t.nextRowid == s.nextRowid
    && s.corrs.Keys <= t.corrs.Keys && s.acked <= t.acked
    && (forall id :: id in s.events ==> id in t.events && t.events[id] == s.events[id])
    && (forall c :: Known(s, c) ==> Known(t, c) && SameAnswer(Lead(s, c), Lead(t, c)))
    && (forall c :: Known(t, c) && !Known(s, c) ==> Lead(t, c).response.None?)
    && (forall em :: em in t.emitters ==> em in s.emitters && t.emitters[em] == s.emitters[em])
    && (forall c :: c in t.open ==> c in s.open && t.open[c] == s.open[c] && s.open[c] in t.emitters)
    && (forall c :: c in t.reserved ==> c !in t.open && (c in s.reserved || Unanswered(t, c)))
  }

  predicate SameAnswer(a: Row, b: Row) {
    a.response == b.response && a.conversation == b.conversation && (a.delivery == Pending <==> b.delivery == Pending)
  }

  lemma ExtendsKeepsOpen(s: State, t: State)
    requires OpenInv(s) && Extends(s, t)
    ensures OpenInv(t)
  {
    forall c | c in t.open
      ensures Unanswered(t, c) && t.open[c] in t.emitters && OpenEmitterInv(t, c, t.emitters[t.open[c]])
    {
      assert Unanswered(s, c) && OpenEmitterInv(s, c, s.emitters[s.open[c]]);
    }
  }

  lemma ExtendsKeepsOut(s: State, t: State)
    requires OutInv(s) && Extends(s, t)
    ensures OutInv(t)
  {
    forall id | id in t.out ensures OutRowInv(t, id) {
      assert OutRowInv(s, id);
    }
    forall c | Known(t, c) && Lead(t, c).response.Some? ensures SavedInv(t, c, Lead(t, c).response.value) {
      assert Known(s, c);
      assert SavedInv(s, c, Lead(s, c).response.value);
    }
  }

  lemma ExtendsKeepsEmitters(s: State, t: State)
    requires EmittersInv(s) && Extends(s, t)
    ensures EmittersInv(t)
  {
    forall em | em in t.emitters ensures EmitterInv(t, t.emitters[em]) {
      assert EmitterInv(s, s.emitters[em]);
      forall x | x in t.emitters[em].chain ensures TaskInv(t, t.emitters[em], x) {
        assert TaskInv(s, s.emitters[em], x);
      }
    }
  }

  lemma ExtendsKeepsInv(s: State, t: State)
    requires Inv(s) && Extends(s, t) && RowsInv(t)
    ensures Inv(t)
  {
    ExtendsKeepsOpen(s, t);
    ExtendsKeepsOut(s, t);
    ExtendsKeepsEmitters(s, t);
  }

  /** A correlation-wide move keeps the invariant when `e` is already its response. */
  lemma MovedKeepsInv(s: State, rows': Rows, c: Corr, d: Delivery, e: Event, error: Option<Id>)
    requires Inv(s) && Answered(s, c, e)
    requires Moved(s.rows, rows', c, d, Some(e), error)
    requires d != Pending && (d == Failed <==> error.Some?)
    requires d == Sent ==> e.id in s.acked
    ensures Inv(s.(rows := rows'))
  {
    MovedKeepsRows(s, rows', c, d, e, error);
    ExtendsKeepsInv(s, s.(rows := rows'));
  }

  lemma MovedKeepsRows(s: State, rows': Rows, c: Corr, d: Delivery, e: Event, error: Option<Id>)
    requires RowsInv(s) && OpenInv(s) && Known(s, c)
    requires Answered(s, c, e) || (Unanswered(s, c) && Answer(e.kind) && e.correlation == c.id
               && e.conversation == Lead(s, c).conversation && e.id in s.events && s.events[e.id] == c)
    requires Moved(s.rows, rows', c, d, Some(e), error)
    requires d != Pending && (d == Failed <==> error.Some?)
    requires d == Sent ==> e.id in s.acked
    ensures var t := s.(rows := rows'); RowsInv(t) && Answered(t, c, e) && Lead(t, c).delivery == d
    ensures var t := s.(rows := rows'); forall x :: Known(s, x) && x != c ==> Known(t, x) && Lead(t, x) == Lead(s, x)
    ensures Answered(s, c, e) ==> Extends(s, s.(rows := rows'))
  {
    hide Extends, ResponseInv, Siblings, OpenInv;
    MovedLeads(s, rows', c, d, e, error);
    MovedExtends(s, rows', c, d, e);
    hide Moved;
    var t := s.(rows := rows');
    forall k | k in t.rows
      ensures KeyCorr(t.rows, k) == KeyCorr(s.rows, k)
      ensures KeyCorr(t.rows, k) in t.corrs && Siblings(t.rows[k], Lead(t, KeyCorr(t.rows, k)))
    {
      MovedSiblings(s, rows', c, d, e, error, k);
    }
  }

  lemma MovedLeads(s: State, rows': Rows, c: Corr, d: Delivery, e: Event, error: Option<Id>)
    requires RowsInv(s) && Known(s, c) && Moved(s.rows, rows', c, d, Some(e), error)
    requires Answered(s, c, e) || (Unanswered(s, c) && Answer(e.kind) && e.correlation == c.id
               && e.conversation == Lead(s, c).conversation && e.id in s.events && s.events[e.id] == c)
    requires d != Pending && (d == Failed <==> error.Some?) && (d == Sent ==> e.id in s.acked)
    ensures var t := s.(rows := rows');
      && rows'.Keys == s.rows.Keys && Answered(t, c, e) && Lead(t, c).delivery == d
      && (forall x :: Known(s, x) ==> Known(t, x) && KeyCorr(t.rows, t.corrs[x]) == x && ResponseInv(t, x, Lead(t, x)))
      && (forall x :: Known(s, x) && x != c ==> Lead(t, x) == Lead(s, x))
  {
    var t := s.(rows := rows');
    forall x | Known(s, x) ensures KeyCorr(t.rows, t.corrs[x]) == x && ResponseInv(t, x, Lead(t, x)) && (x != c ==> Lead(t, x) == Lead(s, x)) {
      assert ResponseInv(s, x, Lead(s, x));
    }
  }

  lemma MovedExtends(s: State, rows': Rows, c: Corr, d: Delivery, e: Event)
    requires OpenInv(s) && Known(s, c) && d != Pending
    requires var t := s.(rows := rows');
      && rows'.Keys == s.rows.Keys && Answered(t, c, e) && Lead(t, c).delivery == d
      && (forall x :: Known(s, x) && x != c ==> Known(t, x) && Lead(t, x) == Lead(s, x))
      && Lead(t, c).conversation == Lead(s, c).conversation
    requires RowsInv(s)
    ensures Answered(s, c, e) ==> Extends(s, s.(rows := rows'))
  {
    assert ResponseInv(s, c, Lead(s, c));
  }

  lemma MovedSiblings(s: State, rows': Rows, c: Corr, d: Delivery, e: Event, error: Option<Id>, k: MessageKey)
    requires RowsInv(s) && k in rows' && Moved(s.rows, rows', c, d, Some(e), error)
    ensures var t := s.(rows := rows');
      && KeyCorr(rows', k) == KeyCorr(s.rows, k) && KeyCorr(rows', k) in s.corrs
      && Known(t, KeyCorr(rows', k)) && Siblings(rows'[k], Lead(t, KeyCorr(rows', k)))
  {
    assert Siblings(s.rows[k], Lead(s, KeyCorr(s.rows, k)));
  }

  // ----- volatile state and the outbox -----

  lemma EmitterKeepsInv(s: State, em: Id, e: Emitter)
    requires Inv(s) && EmitterInv(s, e)
    requires forall c :: c in s.open && s.open[c] == em ==> Unanswered(s, c) && OpenEmitterInv(s, c, e)
    ensures Inv(SetEmitter(s, em, e))
  {
    var t := SetEmitter(s, em, e);
    assert RowsInv(t);
    forall c | c in t.open
      ensures Unanswered(t, c) && t.open[c] in t.emitters && OpenEmitterInv(t, c, t.emitters[t.open[c]])
    {
      assert Unanswered(s, c);
      assert OpenEmitterInv(s, c, t.emitters[s.open[c]]);
    }
    forall id | id in t.out ensures OutRowInv(t, id) {
      assert OutRowInv(s, id);
    }
    forall c | Known(t, c) && Lead(t, c).response.Some? ensures SavedInv(t, c, Lead(t, c).response.value) {
      assert SavedInv(s, c, Lead(s, c).response.value);
    }
    forall x | x in t.emitters ensures EmitterInv(t, t.emitters[x]) {
      assert EmitterInv(s, t.emitters[x]);
    }
  }

  /** Insert one row: it extends its correlation, and no other saved response is affected. */
  ghost predicate Insertable(s: State, c: Corr, event: Event) {
    && Known(s, c) && event.correlation == c.id
    && event.id !in s.out && event.id in s.events && s.events[event.id] == c
    && (forall id :: OfCorr(s.out, id, c) ==> s.out[id].event.sequence < event.sequence)
    && (c in s.open ==> s.open[c] in s.emitters && event.sequence <= s.emitters[s.open[c]].sequence)
    && (Answer(event.kind) ==> Answered(s, c, event))
    && (Lead(s, c).response.Some? ==> Answered(s, c, event))
  }

  lemma InsertKeepsRows(s: State, c: Corr, event: Event)
    requires Inv(s) && Insertable(s, c, event)
    ensures RowsInv(Insert(s, c.adapter, event)) && OpenInv(Insert(s, c.adapter, event))
  {
    var t := Insert(s, c.adapter, event);
    forall x | x in t.open
      ensures Unanswered(t, x) && t.open[x] in t.emitters && OpenEmitterInv(t, x, t.emitters[t.open[x]])
    {
      assert Unanswered(s, x);
      assert OpenEmitterInv(s, x, s.emitters[s.open[x]]);
      forall id | OfCorr(t.out, id, x) ensures t.out[id].event.sequence <= t.emitters[t.open[x]].sequence {
        if id != event.id {
          assert OfCorr(s.out, id, x);
        }
      }
    }
  }

  lemma InsertKeepsOut(s: State, c: Corr, event: Event)
    requires Inv(s) && Insertable(s, c, event)
    ensures OutInv(Insert(s, c.adapter, event))
  {
    var t := Insert(s, c.adapter, event);
    forall id | id in t.out ensures OutRowInv(t, id) {
      if id != event.id {
        assert OutRowInv(s, id);
      }
    }
    forall i, j | i in t.out && j in t.out && i != j ensures Ordered(t.out[i], t.out[j]) {
      if i != event.id && j != event.id {
        assert Ordered(s.out[i], s.out[j]);
      } else if i != event.id {
        assert OutRowInv(s, i) && (CorrOf(s.out[i]) == c ==> OfCorr(s.out, i, c));
      } else {
        assert OutRowInv(s, j) && (CorrOf(s.out[j]) == c ==> OfCorr(s.out, j, c));
      }
    }
    forall x | Known(t, x) && Lead(t, x).response.Some? ensures SavedInv(t, x, Lead(t, x).response.value) {
      var e := Lead(s, x).response.value;
      assert Lead(t, x).response.value == e;
      assert SavedInv(s, x, e);
      assert ResponseInv(s, x, Lead(s, x));
      if e.id == event.id {
        assert x == c;
      } else if x != c {
        forall id | OfCorr(t.out, id, x) ensures OfCorr(s.out, id, x) {
        }
      }
    }
  }

  lemma InsertKeepsInv(s: State, c: Corr, event: Event)
    requires Inv(s) && Insertable(s, c, event)
    ensures Inv(Insert(s, c.adapter, event))
  {
    var t := Insert(s, c.adapter, event);
    InsertKeepsRows(s, c, event);
    InsertKeepsOut(s, c, event);
    forall em | em in t.emitters ensures EmitterInv(t, t.emitters[em]) {
      assert EmitterInv(s, s.emitters[em]);
      forall x | x in t.emitters[em].chain ensures TaskInv(t, t.emitters[em], x) {
        assert TaskInv(s, s.emitters[em], x);
      }
    }
  }

  /** Change one row's status and attempts. */
  lemma UpdateKeepsInv(s: State, id: Id, status: Status, attempts: nat)
    requires Inv(s)
    requires status == Delivered ==> id in s.acked
    ensures Inv(Update(s, id, status, attempts))
  {
    var t := Update(s, id, status, attempts);
    if id in s.out {
      assert forall x :: x in s.out ==> t.out[x].event == s.out[x].event && CorrOf(t.out[x]) == CorrOf(s.out[x]);
      assert RowsInv(t);
      forall c | c in t.open
        ensures Unanswered(t, c) && t.open[c] in t.emitters && OpenEmitterInv(t, c, t.emitters[t.open[c]])
      {
        assert OpenEmitterInv(s, c, s.emitters[s.open[c]]);
        forall x | OfCorr(t.out, x, c) ensures t.out[x].event.sequence <= t.emitters[t.open[c]].sequence {
          assert OfCorr(s.out, x, c);
        }
      }
      UpdateKeepsOut(s, id, status, attempts);
      forall em | em in t.emitters ensures EmitterInv(t, t.emitters[em]) {
        assert EmitterInv(s, s.emitters[em]);
        forall x | x in t.emitters[em].chain ensures TaskInv(t, t.emitters[em], x) {
          assert TaskInv(s, s.emitters[em], x);
        }
      }
    }
  }

  lemma UpdateKeepsOut(s: State, id: Id, status: Status, attempts: nat)
    requires OutInv(s) && id in s.out
    requires status == Delivered ==> id in s.acked
    ensures OutInv(Update(s, id, status, attempts))
  {
    var t := Update(s, id, status, attempts);
    forall x | x in t.out ensures OutRowInv(t, x) {
      assert OutRowInv(s, x);
    }
    forall i, j | i in t.out && j in t.out && i != j ensures Ordered(t.out[i], t.out[j]) {
      assert Ordered(s.out[i], s.out[j]);
    }
    forall c | Known(t, c) && Lead(t, c).response.Some? ensures SavedInv(t, c, Lead(t, c).response.value) {
      var e := Lead(s, c).response.value;
      assert SavedInv(s, c, e);
      if e.id !in t.out {
        forall x | OfCorr(t.out, x, c) ensures t.out[x].event.sequence < e.sequence {
          assert OfCorr(s.out, x, c);
        }
      }
    }
  }
}
