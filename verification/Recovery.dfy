/** Start-up recovery (packages/core/src/supervisor.ts, `recoverPending`). */
module Recovery {
  import opened Wrappers
  import opened IdempotencyStore
  import opened DeliveryProtocol
  import opened OutboundEmitter

  /** One correlation to recover and the saved terminal its siblings held at start-up. */
  datatype Item = Item(corr: Corr, terminal: Option<Event>)

  predicate SavedSibling(rows: Rows, k: MessageKey, c: Corr) {
    InGroup(rows, k, c) && rows[k].delivery == Saved && rows[k].response.Some?
  }

  function PendingCorrelations(out: Outbox): set<Corr> {
    set id | id in out && out[id].status == Waiting :: CorrOf(out[id])
  }

  function SavedCorrelations(rows: Rows): set<Corr> {
    set k | k in rows && rows[k].delivery == Saved :: KeyCorr(rows, k)
  }

  predicate Recoverable(rows: Rows, out: Outbox, c: Corr) {
    c in PendingCorrelations(out) + SavedCorrelations(rows) && Group(rows, c) != {}
  }

  /** `item.terminal` is a saved sibling's response, `None` when no sibling is saved. */
  ghost predicate Found(rows: Rows, item: Item) {
    && (forall e | item.terminal == Some(e) :: exists k :: SavedSibling(rows, k, item.corr) && rows[k].response == Some(e))
    && (item.terminal.None? ==> forall k :: !SavedSibling(rows, k, item.corr))
  }

  predicate Distinct(items: seq<Item>) {
    forall i, j :: 0 <= i < j < |items| ==> items[i].corr != items[j].corr
  }

  /** The work list: every recoverable correlation once, with its saved terminal. */
  ghost predicate Listed(rows: Rows, out: Outbox, items: seq<Item>) {
    && Distinct(items)
    && (forall c :: Recoverable(rows, out, c) <==> exists i :: 0 <= i < |items| && items[i].corr == c)
    && (forall i :: 0 <= i < |items| ==> Found(rows, items[i]))
  }

  function RecoverItem(p: Ran, item: Item, order: seq<Id>, w: World): Ran
    requires forall i :: 0 <= i < |order| ==> order[i] in p.stores.out
  {
    if item.terminal.Some? then Redeliver(p, item.corr, item.terminal.value, order, w)
    else DeliverAll(p, item.corr, ResumeTasks(p.stores.out, order), w)
  }

  /** `q` is what recovering the items one after another makes of `p`. */
  ghost predicate Recovered(p: Ran, items: seq<Item>, w: World, q: Ran)
    decreases |items|
  {
    if items == [] then q == p
    else exists order ::
      PendingInOrder(p.stores.out, items[0].corr, order) && Recovered(RecoverItem(p, items[0], order, w), items[1..], w, q)
  }

  lemma RecoveredFirst(p: Ran, items: seq<Item>, w: World, q: Ran, order: seq<Id>)
    requires items != [] && PendingInOrder(p.stores.out, items[0].corr, order)
    requires Recovered(RecoverItem(p, items[0], order, w), items[1..], w, q)
    ensures Recovered(p, items, w, q)
  {
    hide RecoverItem;
  }

  lemma {:induction false} RecoveredAppend(p: Ran, items: seq<Item>, w: World, q: Ran, item: Item, order: seq<Id>)
    requires Recovered(p, items, w, q) && PendingInOrder(q.stores.out, item.corr, order)
    ensures Recovered(p, items + [item], w, RecoverItem(q, item, order, w))
    decreases |items|
  {
    hide RecoverItem;
    if items == [] {
      assert (items + [item])[1..] == [];
      assert Recovered(RecoverItem(q, item, order, w), [], w, RecoverItem(q, item, order, w));
      RecoveredFirst(p, items + [item], w, RecoverItem(q, item, order, w), order);
    } else {
      var first :| PendingInOrder(p.stores.out, items[0].corr, first) && Recovered(RecoverItem(p, items[0], first, w), items[1..], w, q);
      assert (items + [item])[1..] == items[1..] + [item];
      RecoveredAppend(RecoverItem(p, items[0], first, w), items[1..], w, q, item, order);
      RecoveredFirst(p, items + [item], w, RecoverItem(q, item, order, w), first);
    }
  }

  // ----- one correlation at a time -----

  /** From `a` to `b` only rows of correlation `c` change, and no payload does. */
  ghost predicate Within(a: Stores, b: Stores, c: Corr) {
    && b.rows.Keys == a.rows.Keys
    && (forall k | k in a.rows :: !InGroup(a.rows, k, c) ==> b.rows[k] == a.rows[k])
    && (forall k | k in a.rows :: b.rows[k].correlation == a.rows[k].correlation)
    && (forall id | id in a.out :: id in b.out && b.out[id] == a.out[id].(status := b.out[id].status, attempts := b.out[id].attempts))
    && (forall id | id in a.out :: !OfCorr(a.out, id, c) ==> b.out[id] == a.out[id])
    && (forall id | id in b.out :: id in a.out || (OfCorr(b.out, id, c) && b.out[id].event.id == id))
  }

  lemma WithinAll(a: Stores, b: Stores, d: Stores, c: Corr)
    requires Within(a, b, c) && Within(b, d, c)
    ensures Within(a, d, c)
  {
    forall k | k in a.rows && !InGroup(a.rows, k, c) ensures d.rows[k] == a.rows[k] {
      assert !InGroup(b.rows, k, c);
    }
    forall id | id in a.out ensures OfCorr(b.out, id, c) == OfCorr(a.out, id, c) {
    }
  }

  /** A hook's rows differ from the ones before in one correlation only. */
  ghost predicate RowsWithin(a: Rows, r: Result<Rows, StoreError>, c: Corr) {
    r.Ok? ==>
      && r.value.Keys == a.Keys
      && forall k | k in a :: r.value[k].correlation == a[k].correlation && (!InGroup(a, k, c) ==> r.value[k] == a[k])
  }

  lemma PreparedWithin(rows: Rows, c: Corr, e: Event)
    ensures RowsWithin(rows, PreparedRows(rows, c, e), c)
  {
  }

  lemma SentWithin(rows: Rows, c: Corr, e: Event)
    ensures RowsWithin(rows, SentRows(rows, c, e), c)
  {
  }

  lemma FailedWithin(rows: Rows, c: Corr, e: Event, error: Id)
    ensures RowsWithin(rows, FailedRows(rows, c, e, error), c)
  {
  }

  lemma WithinHooks(s: Stores, c: Corr, e: Event, error: Id)
    ensures Within(s, OrElse(s, PreparedRows(s.rows, c, e)), c)
    ensures Within(s, OrElse(s, SentRows(s.rows, c, e)), c)
    ensures Within(s, OrElse(s, FailedRows(s.rows, c, e, error)), c)
  {
    hide PreparedRows, SentRows, FailedRows;
    PreparedWithin(s.rows, c, e);
    SentWithin(s.rows, c, e);
    FailedWithin(s.rows, c, e, error);
    WithinOrElse(s, PreparedRows(s.rows, c, e), c);
    WithinOrElse(s, SentRows(s.rows, c, e), c);
    WithinOrElse(s, FailedRows(s.rows, c, e, error), c);
  }

  lemma WithinOrElse(s: Stores, r: Result<Rows, StoreError>, c: Corr)
    requires RowsWithin(s.rows, r, c)
    ensures Within(s, OrElse(s, r), c)
  {
  }

  lemma WithinRecord(s: Stores, c: Corr, id: Id, status: Status, attempts: nat)
    requires id in s.out ==> OfCorr(s.out, id, c)
    ensures Within(s, Record(s, id, status, attempts), c)
  {
  }

  lemma WithinAbandon(s: Stores, c: Corr, e: Event, w: World)
    requires e.id in s.out ==> OfCorr(s.out, e.id, c)
    ensures Within(s, Abandon(s, c, e, w), c)
  {
    hide FailedRows, PreparedRows, SentRows, Within, OrElse;
    var failed := Record(s, e.id, PermanentFailure, AttemptsOf(s, e.id));
    WithinRecord(s, c, e.id, PermanentFailure, AttemptsOf(s, e.id));
    WithinHooks(failed, c, e, w.error);
    WithinAll(s, failed, Abandon(s, c, e, w), c);
  }

  lemma StillOfCorr(a: Stores, b: Stores, c: Corr, id: Id)
    requires Within(a, b, c) && (id in a.out ==> OfCorr(a.out, id, c))
    ensures id in b.out ==> OfCorr(b.out, id, c)
  {
  }

  lemma {:induction false} WithinSettle(p: Ran, c: Corr, e: Event, attempt: nat, w: World)
    requires e.id in p.stores.out ==> OfCorr(p.stores.out, e.id, c)
    ensures Within(p.stores, Settle(p, c, e, attempt, w).stores, c)
    decreases w.retries + 1 - attempt
  {
    hide FailedRows, PreparedRows, SentRows, Within, Record, Abandon;
    var q := Settle(p, c, e, attempt, w);
    if attempt > w.retries {
      WithinAbandon(p.stores, c, e, w);
    } else {
      var acked := w.reply(e, |p.posts|) == Ack;
      var s := if acked then Record(p.stores, e.id, Delivered, attempt + 1) else p.stores;
      var posts := p.posts + [e];
      var sent := SentRows(s.rows, c, e);
      assert Within(p.stores, s, c) by {
        WithinRecord(p.stores, c, e.id, Delivered, attempt + 1);
        WithinSame(p.stores, c);
      }
      StillOfCorr(p.stores, s, c, e.id);
      if acked && sent.Ok? {
        WithinHooks(s, c, e, 0);
        WithinAll(p.stores, s, q.stores, c);
      } else {
        var next := Record(s, e.id, StatusOf(s, e.id), attempt + 1);
        WithinRecord(s, c, e.id, StatusOf(s, e.id), attempt + 1);
        WithinAll(p.stores, s, next, c);
        StillOfCorr(p.stores, next, c, e.id);
        WithinSettle(Ran(next, posts), c, e, attempt + 1, w);
        WithinAll(p.stores, next, q.stores, c);
      }
    }
  }

  lemma WithinSame(s: Stores, c: Corr)
    ensures Within(s, s, c)
  {
  }

  lemma WithinDeliver(p: Ran, c: Corr, e: Event, attempt: nat, w: World)
    requires e.id in p.stores.out ==> OfCorr(p.stores.out, e.id, c)
    ensures Within(p.stores, DeliverOne(p, c, e, attempt, w).stores, c)
  {
    hide Settle, Abandon, Within;
    if w.registered {
      WithinSettle(p, c, e, attempt, w);
    } else {
      WithinAbandon(p.stores, c, e, w);
    }
  }

  lemma {:induction false} WithinDeliverAll(p: Ran, c: Corr, tasks: seq<Task>, w: World)
    requires forall i | 0 <= i < |tasks| :: tasks[i].event.id in p.stores.out ==> OfCorr(p.stores.out, tasks[i].event.id, c)
    ensures Within(p.stores, DeliverAll(p, c, tasks, w).stores, c)
    decreases |tasks|
  {
    hide DeliverOne, Within;
    if tasks == [] {
      WithinSame(p.stores, c);
    } else {
      var q := DeliverOne(p, c, tasks[0].event, tasks[0].attempt, w);
      WithinDeliver(p, c, tasks[0].event, tasks[0].attempt, w);
      forall i | 0 <= i < |tasks[1..]|
        ensures tasks[1..][i].event.id in q.stores.out ==> OfCorr(q.stores.out, tasks[1..][i].event.id, c)
      {
        StillOfCorr(p.stores, q.stores, c, tasks[i + 1].event.id);
      }
      WithinDeliverAll(q, c, tasks[1..], w);
      WithinAll(p.stores, q.stores, DeliverAll(p, c, tasks, w).stores, c);
    }
  }

  /** The resumed tasks are rows of the correlation, under their own ids. */
  predicate Keyed(out: Outbox) {
    forall id :: id in out ==> out[id].event.id == id
  }

  lemma WithinResume(p: Ran, c: Corr, order: seq<Id>, w: World)
    requires Keyed(p.stores.out) && PendingInOrder(p.stores.out, c, order)
    ensures Within(p.stores, DeliverAll(p, c, ResumeTasks(p.stores.out, order), w).stores, c)
  {
    var tasks := ResumeTasks(p.stores.out, order);
    forall i | 0 <= i < |tasks| ensures OfCorr(p.stores.out, tasks[i].event.id, c) {
      assert order[i] in order;
      assert tasks[i].event == p.stores.out[order[i]].event;
      assert p.stores.out[order[i]].event.id == order[i];
    }
    WithinDeliverAll(p, c, tasks, w);
  }

  lemma WithinRedeliver(p: Ran, c: Corr, e: Event, order: seq<Id>, w: World)
    requires Keyed(p.stores.out) && PendingInOrder(p.stores.out, c, order) && (e.id in p.stores.out ==> OfCorr(p.stores.out, e.id, c))
    requires e.correlation == c.id
    ensures Within(p.stores, Redeliver(p, c, e, order, w).stores, c)
  {
    hide PreparedRows, SentRows, FailedRows, DeliverOne, DeliverAll, Within, ResumeTasks, Keyed;
    WithinResume(p, c, order, w);
    WithinHooks(p.stores, c, e, 0);
    WithinSame(p.stores, c);
    var prepared := PreparedRows(p.stores.rows, c, e);
    var q := Redeliver(p, c, e, order, w);
    if prepared.Ok? {
      var mid := if e.id in p.stores.out then Record(OrElse(p.stores, prepared), e.id, Waiting, 0)
                 else Inserted(p.stores, prepared.value, c, e);
      MidWithin(p.stores, c, e);
      WithinDeliver(Ran(mid, p.posts), c, e, 0, w);
      WithinAll(p.stores, mid, DeliverOne(Ran(mid, p.posts), c, e, 0, w).stores, c);
    }
  }

  lemma MidWithin(s: Stores, c: Corr, e: Event)
    requires PreparedRows(s.rows, c, e).Ok? && (e.id in s.out ==> OfCorr(s.out, e.id, c)) && e.correlation == c.id
    ensures var mid := if e.id in s.out then Record(OrElse(s, PreparedRows(s.rows, c, e)), e.id, Waiting, 0)
                       else Inserted(s, PreparedRows(s.rows, c, e).value, c, e);
      Within(s, mid, c) && OfCorr(mid.out, e.id, c)
  {
    WithinHooks(s, c, e, 0);
    hide PreparedRows, SentRows, FailedRows;
  }

  // ----- the supervisor -----

  /** What the stores guarantee recovery: see `DeliveryInvariants.Inv`, from which it follows. */
  ghost predicate Sound(s: Stores) {
    && Keyed(s.out)
    && (forall c :: Sequenced(s.out, c))
    && (forall k | k in s.rows && s.rows[k].response.Some? ::
          var e := s.rows[k].response.value;
          e.correlation == s.rows[k].correlation && (e.id in s.out ==> OfCorr(s.out, e.id, KeyCorr(s.rows, k))))
    && (forall k, l | k in s.rows && l in s.rows && s.rows[k].response.Some? && s.rows[l].response.Some? ::
          s.rows[k].response.value.id == s.rows[l].response.value.id ==> KeyCorr(s.rows, k) == KeyCorr(s.rows, l))
  }

  predicate Startable(out: Outbox, item: Item) {
    && Sequenced(out, item.corr)
    && (item.terminal.Some? ==>
          && item.terminal.value.correlation == item.corr.id
          && (item.terminal.value.id in out ==> OfCorr(out, item.terminal.value.id, item.corr)))
  }

  ghost predicate AllReady(out: Outbox, items: seq<Item>) {
    && Keyed(out)
    && (forall j :: 0 <= j < |items| ==> Startable(out, items[j]))
    && (forall i, j :: 0 <= i < j < |items| && items[i].terminal.Some? && items[j].terminal.Some?
          ==> items[i].terminal.value.id != items[j].terminal.value.id)
    && Distinct(items)
  }

  lemma ListedReady(s: Stores, items: seq<Item>)
    requires Sound(s) && Listed(s.rows, s.out, items)
    ensures AllReady(s.out, items)
  {
    forall j | 0 <= j < |items| ensures Startable(s.out, items[j]) {
      assert Found(s.rows, items[j]);
    }
    forall i, j | 0 <= i < j < |items| && items[i].terminal.Some? && items[j].terminal.Some?
      ensures items[i].terminal.value.id != items[j].terminal.value.id
    {
      assert Found(s.rows, items[i]) && Found(s.rows, items[j]);
    }
  }

  lemma ItemWithin(p: Ran, item: Item, order: seq<Id>, w: World)
    requires Keyed(p.stores.out) && Startable(p.stores.out, item) && PendingInOrder(p.stores.out, item.corr, order)
    ensures var q := RecoverItem(p, item, order, w);
      && Within(p.stores, q.stores, item.corr)
      && q.stores.out.Keys <= p.stores.out.Keys + (if item.terminal.Some? then {item.terminal.value.id} else {})
  {
    if item.terminal.Some? {
      WithinRedeliver(p, item.corr, item.terminal.value, order, w);
    } else {
      WithinResume(p, item.corr, order, w);
    }
  }

  /** Recovering one correlation leaves the others ready. */
  lemma StillReady(a: Stores, b: Stores, items: seq<Item>)
    requires items != [] && AllReady(a.out, items)
    requires Within(a, b, items[0].corr)
    requires b.out.Keys <= a.out.Keys + (if items[0].terminal.Some? then {items[0].terminal.value.id} else {})
    ensures AllReady(b.out, items[1..])
  {
    forall j | 0 <= j < |items[1..]| ensures Startable(b.out, items[1..][j]) {
      var item := items[j + 1];
      assert Startable(a.out, item) && item.corr != items[0].corr;
      forall id | id in b.out && OfCorr(b.out, id, item.corr) ensures OfCorr(a.out, id, item.corr) {
      }
    }
  }

  class CoreSupervisor {
    const world: World
    const store: Store
    const table: OutboxTable
    var posts: seq<Event>

    constructor (world: World, store: Store, table: OutboxTable)
      ensures this.world == world && this.store == store && this.table == table && posts == []
    {
      this.world, this.store, this.table, posts := world, store, table, [];
    }

    function Now(): Ran
      reads this, store, table
    {
      Ran(Stores(store.rows, table.rows, table.nextRowid), posts)
    }

    /** The first saved sibling's response, if any. */
    method FindTerminal(c: Corr, entries: seq<MessageKey>) returns (terminal: Option<Event>)
      requires forall k :: k in entries <==> k in Group(store.rows, c)
      ensures Found(store.rows, Item(c, terminal))
    {
      terminal := None;
      for i := 0 to |entries|
        invariant terminal.None?
        invariant forall j :: 0 <= j < i ==> !SavedSibling(store.rows, entries[j], c)
      {
        assert entries[i] in entries;
        if SavedSibling(store.rows, entries[i], c) {
          return store.rows[entries[i]].response;
        }
      }
      forall k ensures !SavedSibling(store.rows, k, c) {
        assert InGroup(store.rows, k, c) ==> k in Group(store.rows, c);
      }
    }

    /** Gather the work: correlations with a waiting row or a saved response, and some inbound row. */
    method ListRecoverable() returns (items: seq<Item>)
      ensures Listed(store.rows, table.rows, items)
    {
      items := [];
      var all := PendingCorrelations(table.rows) + SavedCorrelations(store.rows);
      var left := all;
      while left != {}
        invariant left <= all && Distinct(items)
        invariant forall i :: 0 <= i < |items| ==> items[i].corr in all - left && Recoverable(store.rows, table.rows, items[i].corr)
        invariant forall c | c in all - left && Group(store.rows, c) != {} :: exists i :: 0 <= i < |items| && items[i].corr == c
        invariant forall i :: 0 <= i < |items| ==> Found(store.rows, items[i])
        decreases left
      {
        var c := AnyOf(left);
        var before := items;
        var entries := store.GetEntriesByCorrelation(c);
        if entries != [] {
          assert entries[0] in Group(store.rows, c);
          var terminal := FindTerminal(c, entries);
          items := items + [Item(c, terminal)];
          assert items[|before|].corr == c;
        } else {
          assert Group(store.rows, c) == {};
        }
        assert forall i :: 0 <= i < |before| ==> items[i] == before[i];
        left := left - {c};
      }
    }

    /** Recover every listed correlation, one after another. */
    method RecoverPending() returns (ghost items: seq<Item>)
      requires Sound(Now().stores)
      modifies this, store, table
      ensures Listed(old(store.rows), old(table.rows), items)
      ensures Recovered(old(Now()), items, world, Now())
    {
      var list := ListRecoverable();
      items := list;
      ListedReady(Now().stores, list);
      for i := 0 to |list|
        invariant Recovered(old(Now()), list[..i], world, Now())
        invariant AllReady(table.rows, list[i..])
      {
        RecoverOne(list, i, old(Now()));
      }
      assert list[..|list|] == list;
    }

    method RecoverOne(list: seq<Item>, i: nat, ghost start: Ran)
      requires i < |list| && Recovered(start, list[..i], world, Now()) && AllReady(table.rows, list[i..])
      modifies this, store, table
      ensures Recovered(start, list[..i + 1], world, Now()) && AllReady(table.rows, list[i + 1..])
    {
      ghost var before := Now();
      assert Startable(table.rows, list[i..][0]) && list[i..][0] == list[i];
      var emitter := new OutboundEmitter.Emitter(list[i].corr, world, store, table, posts);
      ghost var order;
      if list[i].terminal.Some? {
        order := emitter.RedeliverDurable(list[i].terminal.value);
      } else {
        order := emitter.ResumePending();
      }
      posts := emitter.posts;
      Advanced(start, list, i, before, order);
    }

    lemma Advanced(start: Ran, list: seq<Item>, i: nat, before: Ran, order: seq<Id>)
      requires i < |list| && Recovered(start, list[..i], world, before) && AllReady(before.stores.out, list[i..])
      requires PendingInOrder(before.stores.out, list[i].corr, order)
      requires Now() == RecoverItem(before, list[i], order, world)
      ensures Recovered(start, list[..i + 1], world, Now()) && AllReady(table.rows, list[i + 1..])
    {
      hide Recovered, RecoverItem, PendingInOrder, Within;
      assert list[i..][0] == list[i] && Startable(before.stores.out, list[i..][0]);
      ItemWithin(before, list[i], order, world);
      RecoveredAppend(start, list[..i], world, before, list[i], order);
      assert list[..i] + [list[i]] == list[..i + 1];
      StillReady(before.stores, Now().stores, list[i..]);
      assert list[i..][1..] == list[i + 1..];
    }
  }
}
