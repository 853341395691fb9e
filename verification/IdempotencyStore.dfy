/**
 The inbound store (packages/core/src/idempotency-store.ts).

 A row is keyed by (adapter, message) and carries two tracks: ingest
 (pending -> completed) and delivery (pending -> saved -> sent, with
 saved -> failed -> sent beside it). Rows of one correlation are siblings; the
 correlation-wide transitions below move all of them with one UPDATE.

 Ids, payload hashes and error texts are opaque: only equality is used, so they
 are integers here. The saved response is the event itself, because its JSON text
 is an injective function of it.
 */
module IdempotencyStore {
  import opened Wrappers

  type Id = int

  /** One adapter-scoped correlation. */
  datatype Corr = Corr(adapter: Id, id: Id)

  /** Primary key of an inbound row. */
  datatype MessageKey = MessageKey(adapter: Id, message: Id)

  datatype Kind = Started | Presence | Progress | Reply | Error | Cancelled

  datatype Event = Event(id: Id, correlation: Id, conversation: Id, sequence: nat, kind: Kind, body: Id)

  datatype Delivery = Pending | Saved | Sent | Failed

  datatype Row = Row(
    conversation: Id, correlation: Id, hash: Id,
    ingested: bool, delivery: Delivery, response: Option<Event>, error: Option<Id>)

  type Rows = map<MessageKey, Row>

  datatype StoreError =
    | NotTerminal | CorrelationMismatch | NoEntries | EntryMismatch | Conflict | InvalidTransition

  predicate Terminal(kind: Kind) {
    kind in {Reply, Error, Cancelled}
  }

  /** The terminals the durable hooks act on; `turn.cancelled` is skipped there. */
  predicate Answer(kind: Kind) {
    kind in {Reply, Error}
  }

  predicate InGroup(rows: Rows, k: MessageKey, c: Corr) {
    k in rows && k.adapter == c.adapter && rows[k].correlation == c.id
  }

  function Group(rows: Rows, c: Corr): set<MessageKey> {
    set k | k in rows && InGroup(rows, k, c)
  }

  function PendingGroup(rows: Rows, c: Corr): set<MessageKey> {
    set k | k in rows && InGroup(rows, k, c) && rows[k].delivery == Pending
  }

  /** The checks a correlation-wide save runs over its siblings. */
  predicate Savable(row: Row, event: Event) {
    && row.conversation == event.conversation
    && (row.delivery != Pending ==> row.response.Some? && row.response.value.id == event.id)
  }

  /** The checks behind a correlation-wide sent or failed mark. */
  predicate Settleable(row: Row, eventId: Id) {
    row.delivery != Pending && row.response.Some? && row.response.value.id == eventId
  }

  /** State after `saveResponseForCorrelation`. */
  function SaveForCorrelation(rows: Rows, c: Corr, event: Event): Result<Rows, StoreError> {
    if !Terminal(event.kind) then Err(NotTerminal)
    else if event.correlation != c.id then Err(CorrelationMismatch)
    else if Group(rows, c) == {} then Err(NoEntries)
    else if exists k | k in rows :: InGroup(rows, k, c) && !Savable(rows[k], event) then Err(EntryMismatch)
    else Ok(map k | k in rows ::
              if InGroup(rows, k, c) && rows[k].delivery == Pending
              then rows[k].(ingested := true, delivery := Saved, response := Some(event), error := None)
              else rows[k])
  }

  /** State after `markCorrelationSent`. */
  function SendCorrelation(rows: Rows, c: Corr, eventId: Id): Result<Rows, StoreError> {
    if exists k | k in rows :: InGroup(rows, k, c) && !Settleable(rows[k], eventId) then Err(EntryMismatch)
    else Ok(map k | k in rows ::
              if InGroup(rows, k, c) && rows[k].delivery in {Saved, Failed}
              then rows[k].(delivery := Sent, error := None)
              else rows[k])
  }

  /** State after `markCorrelationFailed`. */
  function FailCorrelation(rows: Rows, c: Corr, eventId: Id, error: Id): Result<Rows, StoreError> {
    if exists k | k in rows :: InGroup(rows, k, c) && !Settleable(rows[k], eventId) then Err(EntryMismatch)
    else Ok(map k | k in rows ::
              if InGroup(rows, k, c) && rows[k].delivery == Saved
              then rows[k].(delivery := Failed, error := Some(error))
              else rows[k])
  }

  datatype Begun =
    | Created(correlation: Id)
    | StillPending(correlation: Id)
    | ResponseSaved(correlation: Id, response: Event)
    | AlreadySent(correlation: Id)
    | DeliveryFailed(correlation: Id, response: Event, error: Id)

  /** A row as the table's CHECK constraints admit it. */
  predicate RowValid(row: Row) {
    && (row.delivery == Pending <==> row.response.None?)
    && (row.delivery == Failed <==> row.error.Some?)
  }

  predicate RowsValid(rows: Rows) {
    forall k :: k in rows ==> RowValid(rows[k])
  }

  function FreshRow(conversation: Id, correlation: Id, hash: Id): Row {
    Row(conversation, correlation, hash, false, Pending, None, None)
  }

  function Classify(row: Row): Begun
    requires RowValid(row)
  {
    match row.delivery
    case Sent => AlreadySent(row.correlation)
    case Saved => ResponseSaved(row.correlation, row.response.value)
    case Failed => DeliveryFailed(row.correlation, row.response.value, row.error.value)
    case Pending => StillPending(row.correlation)
  }

  /**
   What a repeated message is told follows what happened to its correlation since: a
   saved response comes with the answer until it is sent, also after its delivery
   failed, and marks that change nothing of the row change nothing of the answer.
   */
  lemma RepeatIsTold(rows: Rows, key: MessageKey, c: Corr, event: Event, error: Id)
    requires RowsValid(rows) && InGroup(rows, key, c)
    ensures rows[key].delivery == Pending ==> Classify(rows[key]) == StillPending(c.id)
    ensures var saved := SaveForCorrelation(rows, c, event);
      saved.Ok? ==>
        && RowValid(saved.value[key])
        && (if rows[key].delivery == Pending then Classify(saved.value[key]) == ResponseSaved(c.id, event)
            else saved.value[key] == rows[key] && rows[key].response.value.id == event.id)
    ensures var sent := SendCorrelation(rows, c, event.id);
      sent.Ok? ==> RowValid(sent.value[key]) && Classify(sent.value[key]) == AlreadySent(c.id)
    ensures var failed := FailCorrelation(rows, c, event.id, error);
      failed.Ok? ==>
        && RowValid(failed.value[key])
        && (if rows[key].delivery == Saved then Classify(failed.value[key]) == DeliveryFailed(c.id, rows[key].response.value, error)
            else failed.value[key] == rows[key])
  {
    assert RowValid(rows[key]);
    var saved, sent, failed := SaveForCorrelation(rows, c, event), SendCorrelation(rows, c, event.id), FailCorrelation(rows, c, event.id, error);
    assert saved.Ok? ==> Savable(rows[key], event);
    assert sent.Ok? ==> Settleable(rows[key], event.id);
    assert failed.Ok? ==> Settleable(rows[key], event.id);
  }

  /**
   The table and its guarded statements. Every mutating method runs the source's
   read-then-UPDATE sequence and counts the rows it changed.
   */
  class Store {
    var rows: Rows

    constructor ()
      ensures rows == map[] && RowsValid(rows)
    {
      rows := map[];
    }

    /** SELECT of one correlation's siblings, in some order. */
    method GetEntriesByCorrelation(c: Corr) returns (keys: seq<MessageKey>)
      ensures forall i :: 0 <= i < |keys| ==> InGroup(rows, keys[i], c)
      ensures forall k :: k in keys <==> k in Group(rows, c)
      ensures forall i, j :: 0 <= i < j < |keys| ==> keys[i] != keys[j]
    {
      keys := [];
      var left := Group(rows, c);
      while left != {}
        invariant left <= Group(rows, c)
        invariant forall k :: k in keys <==> k in Group(rows, c) - left
        invariant forall i, j :: 0 <= i < j < |keys| ==> keys[i] != keys[j]
        decreases left
      {
        var k :| k in left;
        keys := keys + [k];
        left := left - {k};
      }
      forall i | 0 <= i < |keys| ensures InGroup(rows, keys[i], c) {
        assert keys[i] in keys;
      }
    }

    /**
     Insert a fresh row or classify the one that exists. A payload that differs
     from the recorded one is a conflict and changes nothing; an existing row
     keeps its correlation whatever the caller offered.
     */
    method BeginInbound(key: MessageKey, conversation: Id, hash: Id, offered: Option<Id>, minted: Id)
      returns (r: Result<Begun, StoreError>)
      requires RowsValid(rows)
      modifies this
      ensures RowsValid(rows)
      ensures key !in old(rows) ==>
        var correlation := if offered.Some? then offered.value else minted;
        r == Ok(Created(correlation)) && rows == old(rows)[key := FreshRow(conversation, correlation, hash)]
      ensures key in old(rows) ==> rows == old(rows)
      ensures key in old(rows) && old(rows)[key].hash != hash ==> r == Err(Conflict)
      ensures key in old(rows) && old(rows)[key].hash == hash ==> r == Ok(Classify(old(rows)[key]))
    {
      if key !in rows {
        var correlation := if offered.Some? then offered.value else minted;
        rows := rows[key := FreshRow(conversation, correlation, hash)];
        return Ok(Created(correlation));
      }
      if rows[key].hash != hash {
        return Err(Conflict);
      }
      return Ok(Classify(rows[key]));
    }

    /** Delete a row nothing was accepted for; any other row is kept. */
    method DiscardPendingInbound(key: MessageKey) returns (r: Result<(), StoreError>)
      modifies this
      ensures var removable := key in old(rows) && !old(rows)[key].ingested
                && old(rows)[key].delivery == Pending && old(rows)[key].response.None?;
        && rows == (if removable then old(rows) - {key} else old(rows))
        && r == (if removable then Ok(()) else Err(InvalidTransition))
    {
      if key in rows && !rows[key].ingested && rows[key].delivery == Pending && rows[key].response.None? {
        rows := rows - {key};
        return Ok(());
      }
      return Err(InvalidTransition);
    }

    method MarkIngestComplete(key: MessageKey) returns (r: Result<(), StoreError>)
      modifies this
      ensures var open := key in old(rows) && !old(rows)[key].ingested;
        && rows == (if open then old(rows)[key := old(rows)[key].(ingested := true)] else old(rows))
        && r == (if open then Ok(()) else Err(InvalidTransition))
    {
      if key in rows && !rows[key].ingested {
        rows := rows[key := rows[key].(ingested := true)];
        return Ok(());
      }
      return Err(InvalidTransition);
    }

    /**
     Save one terminal event on every sibling still pending. The count of rows
     the UPDATE changes is the count the scan saw, so the source's "changed while
     saving" error cannot occur.
     */
    method SaveResponseForCorrelation(c: Corr, event: Event) returns (r: Result<(), StoreError>)
      modifies this
      ensures SaveForCorrelation(old(rows), c, event).Ok? ==>
        r == Ok(()) && rows == SaveForCorrelation(old(rows), c, event).value
      ensures SaveForCorrelation(old(rows), c, event).Err? ==>
        r == Err(SaveForCorrelation(old(rows), c, event).error) && rows == old(rows)
    {
      if !Terminal(event.kind) {
        return Err(NotTerminal);
      }
      if event.correlation != c.id {
        return Err(CorrelationMismatch);
      }
      var entries := GetEntriesByCorrelation(c);
      if entries == [] {
        assert Group(rows, c) == {};
        return Err(NoEntries);
      }
      assert entries[0] in Group(rows, c);
      var ok, pending := CountPending(c, event, entries);
      if !ok {
        return Err(EntryMismatch);
      }
      var changing := PendingGroup(rows, c);
      if pending == 0 {
        assert changing == {};
        assert forall k :: k in rows && InGroup(rows, k, c) && rows[k].delivery == Pending ==> k in changing;
        assert rows == SaveForCorrelation(rows, c, event).value;
        return Ok(());
      }
      rows := map k | k in rows ::
                if InGroup(rows, k, c) && rows[k].delivery == Pending
                then rows[k].(ingested := true, delivery := Saved, response := Some(event), error := None)
                else rows[k];
      if |changing| != pending {
        assert false;
      }
      return Ok(());
    }

    /** The sibling loop of the save: refuse a mismatch, count the rows still pending. */
    method CountPending(c: Corr, event: Event, entries: seq<MessageKey>) returns (ok: bool, pending: nat)
      requires forall j :: 0 <= j < |entries| ==> entries[j] in rows && InGroup(rows, entries[j], c)
      requires forall k :: k in entries <==> k in Group(rows, c)
      requires forall i, j :: 0 <= i < j < |entries| ==> entries[i] != entries[j]
      ensures ok <==> forall k :: InGroup(rows, k, c) ==> Savable(rows[k], event)
      ensures ok ==> pending == |PendingGroup(rows, c)|
    {
      ghost var counted := {};
      pending := 0;
      for i := 0 to |entries|
        invariant forall j :: 0 <= j < i ==> Savable(rows[entries[j]], event)
        invariant counted == set j | 0 <= j < i && rows[entries[j]].delivery == Pending :: entries[j]
        invariant pending == |counted|
      {
        var entry := rows[entries[i]];
        if !Savable(entry, event) {
          return false, 0;
        }
        if entry.delivery == Pending {
          assert entries[i] !in counted;
          counted := counted + {entries[i]};
          pending := pending + 1;
        }
      }
      AllEntries(rows, c, entries, event);
      Counted(rows, c, entries, counted);
      return true, pending;
    }

    /** Move every unsent sibling to `sent`; one sibling that does not hold the event refuses it all. */
    method MarkCorrelationSent(c: Corr, eventId: Id) returns (r: Result<(), StoreError>)
      modifies this
      ensures SendCorrelation(old(rows), c, eventId).Ok? ==>
        r == Ok(()) && rows == SendCorrelation(old(rows), c, eventId).value
      ensures SendCorrelation(old(rows), c, eventId).Err? ==> r == Err(EntryMismatch) && rows == old(rows)
    {
      var ok := Scan(c, eventId);
      if !ok {
        return Err(EntryMismatch);
      }
      rows := map k | k in rows ::
                if InGroup(rows, k, c) && rows[k].delivery in {Saved, Failed}
                then rows[k].(delivery := Sent, error := None)
                else rows[k];
      return Ok(());
    }

    /** Record one delivery failure on every sibling still `saved`, keeping its response. */
    method MarkCorrelationFailed(c: Corr, eventId: Id, error: Id) returns (r: Result<(), StoreError>)
      modifies this
      ensures FailCorrelation(old(rows), c, eventId, error).Ok? ==>
        r == Ok(()) && rows == FailCorrelation(old(rows), c, eventId, error).value
      ensures FailCorrelation(old(rows), c, eventId, error).Err? ==> r == Err(EntryMismatch) && rows == old(rows)
    {
      var ok := Scan(c, eventId);
      if !ok {
        return Err(EntryMismatch);
      }
      rows := map k | k in rows ::
                if InGroup(rows, k, c) && rows[k].delivery == Saved
                then rows[k].(delivery := Failed, error := Some(error))
                else rows[k];
      return Ok(());
    }

    /** The sibling loop shared by the two settling marks. */
    method Scan(c: Corr, eventId: Id) returns (ok: bool)
      ensures ok <==> forall k :: InGroup(rows, k, c) ==> Settleable(rows[k], eventId)
    {
      var entries := GetEntriesByCorrelation(c);
      for i := 0 to |entries|
        invariant forall j :: 0 <= j < i ==> Settleable(rows[entries[j]], eventId)
      {
        if !Settleable(rows[entries[i]], eventId) {
          assert InGroup(rows, entries[i], c);
          return false;
        }
      }
      forall k | InGroup(rows, k, c) ensures Settleable(rows[k], eventId) {
        assert k in Group(rows, c);
        assert k in entries;
      }
      return true;
    }
  }

  lemma AllEntries(rows: Rows, c: Corr, entries: seq<MessageKey>, event: Event)
    requires forall k :: k in entries <==> k in Group(rows, c)
    requires forall j :: 0 <= j < |entries| ==> entries[j] in rows && Savable(rows[entries[j]], event)
    ensures forall k :: InGroup(rows, k, c) ==> Savable(rows[k], event)
  {
    forall k | InGroup(rows, k, c) ensures Savable(rows[k], event) {
      assert k in Group(rows, c);
      assert k in entries;
    }
  }

  lemma Counted(rows: Rows, c: Corr, entries: seq<MessageKey>, counted: set<MessageKey>)
    requires forall k :: k in entries <==> k in Group(rows, c)
    requires forall j :: 0 <= j < |entries| ==> entries[j] in rows && InGroup(rows, entries[j], c)
    requires counted == set j | 0 <= j < |entries| && rows[entries[j]].delivery == Pending :: entries[j]
    ensures counted == PendingGroup(rows, c)
  {
    forall k | k in PendingGroup(rows, c) ensures k in counted {
      assert k in Group(rows, c);
      assert k in entries;
    }
  }
}
