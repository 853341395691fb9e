/**
 The delivery code (packages/core/src/outbound-emitter.ts): the outbox table, one
 emitter's retry loop and its resume paths, and the supervisor's start-up
 recovery. Each method is proved equal to a function of the stores; what those
 functions achieve is proved in RecoveryTheorems.
 */
module OutboundEmitter {
  import opened Wrappers
  import opened IdempotencyStore
  import opened DeliveryProtocol

  /** The two stores. */
  datatype Stores = Stores(rows: Rows, out: Outbox, nextRowid: nat)

  /**
   What delivery depends on: the retry schedule's length, whether the adapter is
   registered, its answer to the n-th POST of this process, and the text kept for
   a failure.
   */
  datatype World = World(retries: nat, registered: bool, reply: (Event, nat) -> Reply, error: Id)

  /** Stores and the POSTs made so far. */
  datatype Ran = Ran(stores: Stores, posts: seq<Event>)

  function Record(s: Stores, id: Id, status: Status, attempts: nat): (t: Stores)
    ensures t == s.(out := t.out) && t.out.Keys == s.out.Keys
  {
    if id in s.out then s.(out := s.out[id := s.out[id].(status := status, attempts := attempts)]) else s
  }

  function StatusOf(s: Stores, id: Id): Status {
    if id in s.out then s.out[id].status else Waiting
  }

  function AttemptsOf(s: Stores, id: Id): nat {
    if id in s.out then s.out[id].attempts else 0
  }

  /** The rows after the delivered hook: `sent` for an answer, untouched otherwise. */
  function SentRows(rows: Rows, c: Corr, event: Event): Result<Rows, StoreError> {
    if Answer(event.kind) then SendCorrelation(rows, c, event.id) else Ok(rows)
  }

  function FailedRows(rows: Rows, c: Corr, event: Event, error: Id): Result<Rows, StoreError> {
    if Answer(event.kind) then FailCorrelation(rows, c, event.id, error) else Ok(rows)
  }

  function PreparedRows(rows: Rows, c: Corr, event: Event): Result<Rows, StoreError> {
    if Answer(event.kind) then SaveForCorrelation(rows, c, event) else Ok(rows)
  }

  function OrElse(s: Stores, r: Result<Rows, StoreError>): Stores {
    if r.Ok? then s.(rows := r.value) else s
  }

  function Inserted(s: Stores, rows: Rows, c: Corr, event: Event): Stores {
    Stores(rows, s.out[event.id := OutRow(c.adapter, event, Waiting, 0, s.nextRowid)], s.nextRowid + 1)
  }

  /** Keep the row as a permanent failure and run the failed hook. */
  function Abandon(s: Stores, c: Corr, event: Event, w: World): (t: Stores)
    ensures t.out.Keys == s.out.Keys
  {
    var failed := Record(s, event.id, PermanentFailure, AttemptsOf(s, event.id));
    OrElse(failed, FailedRows(failed.rows, c, event, w.error))
  }

  /** The retry loop from one attempt on. A throwing delivered hook counts as a refusal. */
  function Settle(p: Ran, c: Corr, event: Event, attempt: nat, w: World): (q: Ran)
    ensures q.stores.out.Keys == p.stores.out.Keys
    decreases w.retries + 1 - attempt
  {
    if attempt > w.retries then Ran(Abandon(p.stores, c, event, w), p.posts)
    else
      var acked := w.reply(event, |p.posts|) == Ack;
      var s := if acked then Record(p.stores, event.id, Delivered, attempt + 1) else p.stores;
      var posts := p.posts + [event];
      var sent := SentRows(s.rows, c, event);
      if acked && sent.Ok? then Ran(s.(rows := sent.value), posts)
      else Settle(Ran(Record(s, event.id, StatusOf(s, event.id), attempt + 1), posts), c, event, attempt + 1, w)
  }

  lemma SettleNext(p: Ran, c: Corr, event: Event, attempt: nat, w: World)
    requires attempt <= w.retries
    ensures var acked := w.reply(event, |p.posts|) == Ack;
      var s := if acked then Record(p.stores, event.id, Delivered, attempt + 1) else p.stores;
      var posts := p.posts + [event];
      var sent := SentRows(s.rows, c, event);
      Settle(p, c, event, attempt, w)
        == if acked && sent.Ok? then Ran(s.(rows := sent.value), posts)
           else Settle(Ran(Record(s, event.id, StatusOf(s, event.id), attempt + 1), posts), c, event, attempt + 1, w)
  {
    hide Record, SentRows, Abandon;
  }

  lemma SettleEnds(p: Ran, c: Corr, event: Event, attempt: nat, w: World)
    requires attempt > w.retries
    ensures Settle(p, c, event, attempt, w) == Ran(Abandon(p.stores, c, event, w), p.posts)
  {
    hide Abandon;
  }

  function DeliverOne(p: Ran, c: Corr, event: Event, attempt: nat, w: World): (q: Ran)
    ensures q.stores.out.Keys == p.stores.out.Keys
  {
    if w.registered then Settle(p, c, event, attempt, w) else Ran(Abandon(p.stores, c, event, w), p.posts)
  }

  /** Queued deliveries run one after another, whatever becomes of each. */
  function DeliverAll(p: Ran, c: Corr, tasks: seq<Task>, w: World): (q: Ran)
    ensures q.stores.out.Keys == p.stores.out.Keys
    decreases |tasks|
  {
    if tasks == [] then p
    else DeliverAll(DeliverOne(p, c, tasks[0].event, tasks[0].attempt, w), c, tasks[1..], w)
  }

  /** Redeliver one saved terminal; `order` lists the waiting rows by sequence. */
  function Redeliver(p: Ran, c: Corr, event: Event, order: seq<Id>, w: World): (q: Ran)
    requires forall i :: 0 <= i < |order| ==> order[i] in p.stores.out
    ensures q.stores.out.Keys <= p.stores.out.Keys + {event.id}
  {
    var s := p.stores;
    var prepared := PreparedRows(s.rows, c, event);
    if !OfCorr(s.out, event.id, c) then
      if prepared.Err? || event.id in s.out then Ran(OrElse(s, prepared), p.posts)
      else
        DeliverOne(Ran(Inserted(s, prepared.value, c, event), p.posts), c, event, 0, w)
    else if s.out[event.id].event != event then p
    else match s.out[event.id].status
      case Waiting => DeliverAll(p, c, ResumeTasks(s.out, order), w)
      case PermanentFailure =>
        if prepared.Err? then p
        else DeliverOne(Ran(Record(s.(rows := prepared.value), event.id, Waiting, 0), p.posts), c, event, 0, w)
      case Delivered =>
        Ran(OrElse(s, SentRows(s.rows, c, event)), p.posts)
  }

  // ----- what becomes of one delivery -----

  function Copies(event: Event, n: nat): (s: seq<Event>)
    ensures |s| == n
  {
    seq(n, i => event)
  }

  /** POST `n` of this process, were it one of `event`, is acknowledged and its delivered hook does not throw. */
  predicate Accepted(p: Ran, c: Corr, event: Event, w: World, n: nat) {
    w.reply(event, n) == Ack && SentRows(p.stores.rows, c, event).Ok?
  }

  lemma {:induction false} SettlesAtFirst(p: Ran, c: Corr, event: Event, attempt: nat, w: World, k: nat)
    requires attempt + k <= w.retries && Accepted(p, c, event, w, |p.posts| + k)
    requires forall n :: |p.posts| <= n < |p.posts| + k ==> !Accepted(p, c, event, w, n)
    ensures Settle(p, c, event, attempt, w) ==
      Ran(Record(p.stores, event.id, Delivered, attempt + k + 1).(rows := SentRows(p.stores.rows, c, event).value), p.posts + Copies(event, k + 1))
    decreases k
  {
    hide SentRows, Abandon, Record, Settle;
    SettleNext(p, c, event, attempt, w);
    assert p.posts + Copies(event, 1) == p.posts + [event];
    if k > 0 {
      assert !Accepted(p, c, event, w, |p.posts|);
      var s := p.stores;
      var next := Ran(Record(s, event.id, StatusOf(s, event.id), attempt + 1), p.posts + [event]);
      forall n | |next.posts| <= n ensures Accepted(next, c, event, w, n) == Accepted(p, c, event, w, n) {
      }
      SettlesAtFirst(next, c, event, attempt + 1, w, k - 1);
      assert next.posts + Copies(event, k) == p.posts + Copies(event, k + 1);
      RecordTwice(s, event.id, StatusOf(s, event.id), attempt + 1, Delivered, attempt + k + 1);
    }
  }

  lemma RecordTwice(s: Stores, id: Id, a: Status, m: nat, b: Status, n: nat)
    ensures Record(Record(s, id, a, m), id, b, n) == Record(s, id, b, n)
  {
  }

  /** How often the schedule still allows a POST. */
  function Left(attempt: nat, w: World): nat {
    if attempt <= w.retries then w.retries + 1 - attempt else 0
  }

  lemma {:induction false} SettlesNowhere(p: Ran, c: Corr, event: Event, attempt: nat, w: World)
    requires forall n :: |p.posts| <= n < |p.posts| + Left(attempt, w) ==> !Accepted(p, c, event, w, n)
    ensures Settle(p, c, event, attempt, w) == Ran(GivenUp(p.stores, c, event, attempt + Left(attempt, w), Left(attempt, w), w), p.posts + Copies(event, Left(attempt, w)))
    decreases w.retries + 1 - attempt
  {
    hide SentRows, FailedRows, Settle;
    if attempt > w.retries {
      SettleEnds(p, c, event, attempt, w);
      assert p.posts + Copies(event, 0) == p.posts;
    } else {
      SettleNext(p, c, event, attempt, w);
      assert !Accepted(p, c, event, w, |p.posts|);
      var s := if w.reply(event, |p.posts|) == Ack then Record(p.stores, event.id, Delivered, attempt + 1) else p.stores;
      var next := Ran(Record(s, event.id, StatusOf(s, event.id), attempt + 1), p.posts + [event]);
      forall n | |next.posts| <= n ensures Accepted(next, c, event, w, n) == Accepted(p, c, event, w, n) {
      }
      SettlesNowhere(next, c, event, attempt + 1, w);
      assert next.posts + Copies(event, Left(attempt + 1, w)) == p.posts + Copies(event, Left(attempt, w));
    }
  }

  /** A permanent failure after `posts` POSTs in vain, the last of them attempt number `last`: the row keeps the count, and the failed hook runs. */
  function GivenUp(s: Stores, c: Corr, event: Event, last: nat, posts: nat, w: World): Stores {
    var failed := Record(s, event.id, PermanentFailure, if posts > 0 then last else AttemptsOf(s, event.id));
    OrElse(failed, FailedRows(s.rows, c, event, w.error))
  }

  /**
   What becomes of one delivery, said of the adapter's answers alone. The event is
   POSTed until the first POST that is acknowledged and whose hook does not throw; the
   row is then delivered with the attempts made, and its correlation sent. If the
   schedule holds no such POST, every POST it still allows is made, the row becomes a
   permanent failure, and the failed hook runs; with no target registered no POST is.
   */
  lemma DeliveryOutcome(p: Ran, c: Corr, event: Event, attempt: nat, w: World)
    ensures var q := DeliverOne(p, c, event, attempt, w);
      && (!w.registered ==> q == Ran(GivenUp(p.stores, c, event, 0, 0, w), p.posts))
      && (w.registered && (forall n :: |p.posts| <= n < |p.posts| + Left(attempt, w) ==> !Accepted(p, c, event, w, n)) ==>
            q == Ran(GivenUp(p.stores, c, event, attempt + Left(attempt, w), Left(attempt, w), w), p.posts + Copies(event, Left(attempt, w))))
      && (forall k: nat :: w.registered && FirstAccepted(p, c, event, attempt, w, k) ==>
            q == Ran(Record(p.stores, event.id, Delivered, attempt + k + 1).(rows := SentRows(p.stores.rows, c, event).value), p.posts + Copies(event, k + 1)))
  {
    hide Settle, SentRows, FailedRows, Record;
    if !w.registered {
      AbandonIsGivenUp(p.stores, c, event, w);
    } else if forall n :: |p.posts| <= n < |p.posts| + Left(attempt, w) ==> !Accepted(p, c, event, w, n) {
      SettlesNowhere(p, c, event, attempt, w);
    }
    forall k: nat | w.registered && FirstAccepted(p, c, event, attempt, w, k)
      ensures DeliverOne(p, c, event, attempt, w) ==
        Ran(Record(p.stores, event.id, Delivered, attempt + k + 1).(rows := SentRows(p.stores.rows, c, event).value), p.posts + Copies(event, k + 1))
    {
      SettlesAtFirst(p, c, event, attempt, w, k);
    }
  }

  /** The schedule's first POST to be accepted is its POST number `k`. */
  predicate FirstAccepted(p: Ran, c: Corr, event: Event, attempt: nat, w: World, k: nat) {
    && k < Left(attempt, w) && Accepted(p, c, event, w, |p.posts| + k)
    && forall n :: |p.posts| <= n < |p.posts| + k ==> !Accepted(p, c, event, w, n)
  }

  lemma AbandonIsGivenUp(s: Stores, c: Corr, event: Event, w: World)
    ensures Abandon(s, c, event, w) == GivenUp(s, c, event, 0, 0, w)
  {
    hide FailedRows;
  }

  // ----- what becomes of the rows a restart finds waiting -----

  /**
   A row after its delivery: `posts` POSTs of its event were made, the first of them
   POST `first` of this process. It is delivered if the last of them was acknowledged,
   and otherwise a permanent failure with its schedule used up, or with no target.
   */
  predicate RowSettled(before: OutRow, after: OutRow, w: World, first: nat, posts: nat) {
    && after == before.(status := after.status, attempts := after.attempts)
    && posts <= Left(before.attempts, w)
    && match after.status
       case Waiting => false
       case Delivered => w.registered && posts > 0 && w.reply(before.event, first + posts - 1) == Ack && after.attempts == before.attempts + posts
       case PermanentFailure =>
         && posts == (if w.registered then Left(before.attempts, w) else 0)
         && after.attempts == (if posts > 0 then before.attempts + posts else before.attempts)
  }

  lemma RowSettles(p: Ran, c: Corr, id: Id, w: World) returns (posts: nat)
    requires id in p.stores.out && p.stores.out[id].event.id == id
    ensures var before := p.stores.out[id]; var q := DeliverOne(p, c, before.event, before.attempts, w);
      && q.posts == p.posts + Copies(before.event, posts)
      && id in q.stores.out && q.stores.out == p.stores.out[id := q.stores.out[id]]
      && RowSettled(before, q.stores.out[id], w, |p.posts|, posts)
  {
    var before := p.stores.out[id];
    var event, attempt := before.event, before.attempts;
    DeliveryOutcome(p, c, event, attempt, w);
    hide DeliverOne, SentRows, FailedRows;
    if !w.registered {
      posts := 0;
      assert p.posts + Copies(event, 0) == p.posts;
    } else if forall n :: |p.posts| <= n < |p.posts| + Left(attempt, w) ==> !Accepted(p, c, event, w, n) {
      posts := Left(attempt, w);
    } else {
      var k := LeastAccepted(p, c, event, attempt, w, 0);
      posts := k + 1;
    }
  }

  lemma {:induction false} LeastAccepted(p: Ran, c: Corr, event: Event, attempt: nat, w: World, from: nat) returns (k: nat)
    requires exists n :: |p.posts| <= n < |p.posts| + Left(attempt, w) && Accepted(p, c, event, w, n)
    requires forall n :: |p.posts| <= n < |p.posts| + from ==> !Accepted(p, c, event, w, n)
    ensures FirstAccepted(p, c, event, attempt, w, k)
    decreases Left(attempt, w) - from
  {
    hide Accepted;
    if Accepted(p, c, event, w, |p.posts| + from) {
      k := from;
    } else {
      k := LeastAccepted(p, c, event, attempt, w, from + 1);
    }
  }

  /** The number of this process's POSTs before those of row `i`. */
  function FirstOf(start: nat, counts: seq<nat>, i: nat): nat
    requires i <= |counts|
    decreases i
  {
    if i == 0 then start else FirstOf(start + counts[0], counts[1..], i - 1)
  }

  /** The POSTs of the rows in `order`, row after row. */
  function Bursts(out: Outbox, order: seq<Id>, counts: seq<nat>): seq<Event>
    requires |counts| == |order| && forall i :: 0 <= i < |order| ==> order[i] in out
  {
    if order == [] then [] else Copies(out[order[0]].event, counts[0]) + Bursts(out, order[1..], counts[1..])
  }

  lemma {:induction false} BurstsKept(out: Outbox, other: Outbox, order: seq<Id>, counts: seq<nat>)
    requires |counts| == |order| && forall i :: 0 <= i < |order| ==> order[i] in out && order[i] in other && other[order[i]] == out[order[i]]
    ensures Bursts(other, order, counts) == Bursts(out, order, counts)
    decreases |order|
  {
    if order != [] {
      BurstsKept(out, other, order[1..], counts[1..]);
    }
  }

  /** Every row in `order` is settled, row after row, and no other row is changed. */
  predicate AllSettled(out: Outbox, after: Outbox, order: seq<Id>, w: World, start: nat, counts: seq<nat>)
    requires |counts| == |order| && forall i :: 0 <= i < |order| ==> order[i] in out
  {
    && (forall i :: 0 <= i < |order| ==>
          order[i] in after && RowSettled(out[order[i]], after[order[i]], w, FirstOf(start, counts, i), counts[i]))
    && (forall id :: id in out && id !in order ==> id in after && after[id] == out[id])
  }

  lemma SettledOn(out: Outbox, middle: Outbox, after: Outbox, order: seq<Id>, w: World, start: nat, first: nat, later: seq<nat>)
    requires order != [] && |later| == |order| - 1 && forall i :: 0 <= i < |order| ==> order[i] in out && order[i] in middle
    requires forall i, j :: 0 <= i < j < |order| ==> order[i] != order[j]
    requires middle == out[order[0] := middle[order[0]]] && RowSettled(out[order[0]], middle[order[0]], w, start, first)
    requires AllSettled(middle, after, order[1..], w, start + first, later)
    ensures AllSettled(out, after, order, w, start, [first] + later)
  {
    hide RowSettled;
    var counts, rest := [first] + later, order[1..];
    assert counts[1..] == later;
    assert forall i :: 0 <= i < |rest| ==> rest[i] == order[i + 1];
    var id0 := order[0];
    assert id0 in middle && id0 !in rest;
    forall i | 0 <= i < |order| ensures order[i] in after && RowSettled(out[order[i]], after[order[i]], w, FirstOf(start, counts, i), counts[i]) {
      if i > 0 {
        assert order[i] == rest[i - 1] && counts[i] == later[i - 1] && middle[rest[i - 1]] == out[rest[i - 1]];
        assert FirstOf(start, counts, i) == FirstOf(start + first, later, i - 1);
      }
    }
    forall id | id in out && id !in order ensures id in after && after[id] == out[id] {
      assert id !in rest && id in middle && middle[id] == out[id];
    }
  }

  /** The first queued delivery, and then the others of a store in which only its row changed. */
  lemma DeliverFirst(p: Ran, c: Corr, order: seq<Id>, w: World, next: Ran)
    requires order != [] && forall i :: 0 <= i < |order| ==> order[i] in p.stores.out && order[i] in next.stores.out
    requires forall i :: 0 < i < |order| ==> next.stores.out[order[i]] == p.stores.out[order[i]]
    requires next == DeliverOne(p, c, p.stores.out[order[0]].event, p.stores.out[order[0]].attempts, w)
    ensures DeliverAll(p, c, ResumeTasks(p.stores.out, order), w) == DeliverAll(next, c, ResumeTasks(next.stores.out, order[1..]), w)
  {
    hide DeliverOne;
    assert ResumeTasks(p.stores.out, order)[1..] == ResumeTasks(next.stores.out, order[1..]);
  }

  lemma BurstsOn(posts: seq<Event>, out: Outbox, middle: Outbox, order: seq<Id>, first: nat, later: seq<nat>)
    requires order != [] && |later| == |order| - 1 && forall i :: 0 <= i < |order| ==> order[i] in out && order[i] in middle
    requires forall i :: 0 < i < |order| ==> middle[order[i]] == out[order[i]]
    ensures posts + Bursts(out, order, [first] + later) == posts + Copies(out[order[0]].event, first) + Bursts(middle, order[1..], later)
  {
    assert ([first] + later)[1..] == later;
    BurstsKept(out, middle, order[1..], later);
  }

  lemma NoTasks(p: Ran, c: Corr, w: World)
    ensures DeliverAll(p, c, ResumeTasks(p.stores.out, []), w) == p
    ensures p.posts + Bursts(p.stores.out, [], []) == p.posts && AllSettled(p.stores.out, p.stores.out, [], w, |p.posts|, [])
  {
    assert ResumeTasks(p.stores.out, []) == [];
  }

  lemma {:induction false} TasksSettle(p: Ran, c: Corr, order: seq<Id>, w: World) returns (counts: seq<nat>)
    requires forall i :: 0 <= i < |order| ==> order[i] in p.stores.out && p.stores.out[order[i]].event.id == order[i]
    requires forall i, j :: 0 <= i < j < |order| ==> order[i] != order[j]
    ensures |counts| == |order|
    ensures var q := DeliverAll(p, c, ResumeTasks(p.stores.out, order), w);
      && q.posts == p.posts + Bursts(p.stores.out, order, counts)
      && AllSettled(p.stores.out, q.stores.out, order, w, |p.posts|, counts)
    decreases |order|
  {
    hide *;
    var out := p.stores.out;
    if order == [] {
      counts := [];
      NoTasks(p, c, w);
    } else {
      var id, rest := order[0], order[1..];
      var first := RowSettles(p, c, id, w);
      var next := DeliverOne(p, c, out[id].event, out[id].attempts, w);
      forall i | 0 < i < |order| ensures order[i] == rest[i - 1] && next.stores.out[order[i]] == out[order[i]] {
      }
      DeliverFirst(p, c, order, w, next);
      var later := TasksSettle(next, c, rest, w);
      counts := [first] + later;
      BurstsOn(p.posts, out, next.stores.out, order, first, later);
      SettledOn(out, next.stores.out, DeliverAll(next, c, ResumeTasks(next.stores.out, rest), w).stores.out, order, w, |p.posts|, first, later);
    }
  }

  /**
   Resuming a correlation leaves none of its rows waiting, whatever the adapter answers:
   row after row by sequence, each goes on from its recorded attempts until a POST is
   accepted or its schedule is used up. No other row changes and nothing else is POSTed.
   */
  lemma ResumeSettles(p: Ran, c: Corr, order: seq<Id>, w: World) returns (counts: seq<nat>)
    requires PendingInOrder(p.stores.out, c, order) && forall id :: id in p.stores.out ==> p.stores.out[id].event.id == id
    ensures |counts| == |order|
    ensures var q := DeliverAll(p, c, ResumeTasks(p.stores.out, order), w);
      && q.posts == p.posts + Bursts(p.stores.out, order, counts)
      && AllSettled(p.stores.out, q.stores.out, order, w, |p.posts|, counts)
      && (forall id :: OfCorr(q.stores.out, id, c) ==> q.stores.out[id].status != Waiting)
  {
    counts := TasksSettle(p, c, order, w);
    var q := DeliverAll(p, c, ResumeTasks(p.stores.out, order), w);
    hide DeliverAll, ResumeTasks, Bursts, FirstOf;
    forall id | OfCorr(q.stores.out, id, c) ensures q.stores.out[id].status != Waiting {
      if id in order {
        var i :| 0 <= i < |order| && order[i] == id;
        assert RowSettled(p.stores.out[order[i]], q.stores.out[order[i]], w, FirstOf(|p.posts|, counts, i), counts[i]);
      }
    }
  }

  /** No two rows of one correlation share a sequence number. */
  predicate Sequenced(out: Outbox, c: Corr) {
    forall i, j | i in out && j in out ::
      OfCorr(out, i, c) && OfCorr(out, j, c) && i != j ==> out[i].event.sequence != out[j].event.sequence
  }

  // ----- the outbox table -----

  /** Some row of a result set. */
  method AnyOf<T(==)>(s: set<T>) returns (x: T)
    requires s != {}
    ensures x in s
  {
    x :| x in s;
  }

  class OutboxTable {
    var rows: Outbox
    var nextRowid: nat

    constructor ()
      ensures rows == map[] && nextRowid == 0
    {
      rows := map[];
      nextRowid := 0;
    }

    /** Insert a row, or find the identical one already there; a different one is a conflict. */
    method Insert(adapter: Id, event: Event) returns (r: Result<bool, StoreError>)
      modifies this
      ensures event.id !in old(rows) ==>
        r == Ok(true) && nextRowid == old(nextRowid) + 1
        && rows == old(rows)[event.id := OutRow(adapter, event, Waiting, 0, old(nextRowid))]
      ensures event.id in old(rows) ==>
        rows == old(rows) && nextRowid == old(nextRowid)
        && r == if old(rows)[event.id].event == event && old(rows)[event.id].adapter == adapter then Ok(false) else Err(Conflict)
    {
      if event.id in rows {
        if rows[event.id].event == event && rows[event.id].adapter == adapter {
          return Ok(false);
        }
        return Err(Conflict);
      }
      rows := rows[event.id := OutRow(adapter, event, Waiting, 0, nextRowid)];
      nextRowid := nextRowid + 1;
      return Ok(true);
    }

    method Set(id: Id, status: Status, attempts: nat)
      modifies this`rows
      ensures rows == if id in old(rows) then old(rows)[id := old(rows)[id].(status := status, attempts := attempts)] else old(rows)
    {
      if id in rows {
        rows := rows[id := rows[id].(status := status, attempts := attempts)];
      }
    }

    /** `SELECT MAX(sequence)` over one correlation. */
    method MaxSequence(c: Corr) returns (n: nat)
      ensures ResumesAt(rows, c, n)
    {
      n := 0;
      var left := rows.Keys;
      ghost var done: set<Id> := {};
      while left != {}
        invariant left <= rows.Keys && done == rows.Keys - left
        invariant forall id :: id in done && OfCorr(rows, id, c) ==> rows[id].event.sequence <= n
        invariant n == 0 || exists id :: OfCorr(rows, id, c) && rows[id].event.sequence == n
        decreases left
      {
        var id := AnyOf(left);
        if OfCorr(rows, id, c) && rows[id].event.sequence > n {
          n := rows[id].event.sequence;
        }
        left := left - {id};
        done := done + {id};
      }
    }

    /** `SELECT ... WHERE status = 'pending' ORDER BY sequence ASC` for one correlation. */
    method PendingOrder(c: Corr) returns (order: seq<Id>)
      requires Sequenced(rows, c)
      ensures PendingInOrder(rows, c, order)
    {
      order := [];
      var left := set id | id in rows && OfCorr(rows, id, c) && rows[id].status == Waiting;
      ghost var all := left;
      while left != {}
        invariant left <= all
        invariant forall id :: id in order <==> id in all - left
        invariant forall i :: 0 <= i < |order| ==> order[i] in rows
        invariant forall i, j :: 0 <= i < j < |order| ==> rows[order[i]].event.sequence < rows[order[j]].event.sequence
        invariant forall i, id :: 0 <= i < |order| && id in left ==> rows[order[i]].event.sequence < rows[id].event.sequence
        decreases left
      {
        var least := LeastSequence(left);
        order := order + [least];
        left := left - {least};
      }
    }

    method LeastSequence(ids: set<Id>) returns (least: Id)
      requires ids != {} && ids <= rows.Keys
      ensures least in ids && forall id :: id in ids ==> rows[least].event.sequence <= rows[id].event.sequence
    {
      least := AnyOf(ids);
      var left := ids - {least};
      while left != {}
        invariant left <= ids && least in ids
        invariant forall id :: id in ids - left ==> rows[least].event.sequence <= rows[id].event.sequence
        decreases left
      {
        var id := AnyOf(left);
        if rows[id].event.sequence < rows[least].event.sequence {
          least := id;
        }
        left := left - {id};
      }
    }
  }

  // ----- one emitter -----

  class Emitter {
    const corr: Corr
    const world: World
    const store: Store
    const table: OutboxTable
    var posts: seq<Event>

    constructor (corr: Corr, world: World, store: Store, table: OutboxTable, posts: seq<Event>)
      ensures this.corr == corr && this.world == world && this.store == store && this.table == table && this.posts == posts
    {
      this.corr, this.world, this.store, this.table, this.posts := corr, world, store, table, posts;
    }

    function Now(): Ran
      reads this, store, table
    {
      Ran(Stores(store.rows, table.rows, table.nextRowid), posts)
    }

    /** `onDurableDelivered`: turn.started and the like pass, an answer settles its correlation. */
    method DeliveredHook(event: Event) returns (r: Result<(), StoreError>)
      modifies store
      ensures SentRows(old(store.rows), corr, event).Ok? ==> r.Ok? && store.rows == SentRows(old(store.rows), corr, event).value
      ensures SentRows(old(store.rows), corr, event).Err? ==> r.Err? && store.rows == old(store.rows)
    {
      if !Answer(event.kind) {
        return Ok(());
      }
      r := store.MarkCorrelationSent(corr, event.id);
    }

    /** `onDurableFailed`; a throw only rejects the queued delivery. */
    method FailedHook(event: Event)
      modifies store
      ensures Stores(store.rows, table.rows, table.nextRowid)
           == OrElse(old(Now().stores), FailedRows(old(store.rows), corr, event, world.error))
    {
      if Answer(event.kind) {
        var _ := store.MarkCorrelationFailed(corr, event.id, world.error);
      }
    }

    /** `onDurablePrepared`. */
    method PreparedHook(event: Event) returns (r: Result<(), StoreError>)
      modifies store
      ensures PreparedRows(old(store.rows), corr, event).Ok? ==> r.Ok? && store.rows == PreparedRows(old(store.rows), corr, event).value
      ensures PreparedRows(old(store.rows), corr, event).Err? ==> r.Err? && store.rows == old(store.rows)
    {
      if !Answer(event.kind) {
        return Ok(());
      }
      r := store.SaveResponseForCorrelation(corr, event);
    }

    method MarkPermanentFailure(event: Event)
      modifies store, table`rows
      ensures Now() == Ran(Abandon(old(Now().stores), corr, event, world), old(posts))
    {
      var attempts := if event.id in table.rows then table.rows[event.id].attempts else 0;
      table.Set(event.id, PermanentFailure, attempts);
      FailedHook(event);
    }

    /** POST until acknowledged or the schedule is exhausted. */
    method DeliverPayload(event: Event, startingAttempts: nat)
      modifies this, store, table`rows
      ensures Now() == DeliverOne(old(Now()), corr, event, startingAttempts, world)
    {
      hide SentRows, FailedRows, OrElse, Settle, Abandon;
      if !world.registered {
        MarkPermanentFailure(event);
        return;
      }
      var totalPosts := 1 + world.retries;
      var attempt := startingAttempts;
      while attempt < totalPosts
        invariant Settle(Now(), corr, event, attempt, world) == Settle(old(Now()), corr, event, startingAttempts, world)
      {
        SettleNext(Now(), corr, event, attempt, world);
        var reply := world.reply(event, |posts|);
        posts := posts + [event];
        var hook: Result<(), StoreError> := Ok(());
        if reply == Ack {
          table.Set(event.id, Delivered, attempt + 1);
          hook := DeliveredHook(event);
          if hook.Ok? {
            return;
          }
        }
        var status := if event.id in table.rows then table.rows[event.id].status else Waiting;
        table.Set(event.id, status, attempt + 1);
        attempt := attempt + 1;
      }
      SettleEnds(Now(), corr, event, attempt, world);
      MarkPermanentFailure(event);
    }

    /** Queue every waiting row of this correlation in sequence order and await them all. */
    method ResumePending() returns (ghost order: seq<Id>)
      requires Sequenced(table.rows, corr)
      modifies this, store, table`rows
      ensures PendingInOrder(old(table.rows), corr, order)
      ensures Now() == DeliverAll(old(Now()), corr, ResumeTasks(old(table.rows), order), world)
    {
      var ids := table.PendingOrder(corr);
      order := ids;
      var tasks := ResumeTasks(table.rows, ids);
      for i := 0 to |tasks|
        invariant DeliverAll(Now(), corr, tasks[i..], world) == DeliverAll(old(Now()), corr, tasks, world)
      {
        assert tasks[i..][1..] == tasks[i + 1..];
        DeliverPayload(tasks[i].event, tasks[i].attempt);
      }
    }

    /** Prepared hook, insert, deliver. A throw from either leaves nothing queued. */
    method DeliverDurable(event: Event)
      modifies this, store, table
      ensures var s := old(Now().stores);
        var prepared := PreparedRows(s.rows, corr, event);
        Now() == if prepared.Err? || event.id in s.out then Ran(OrElse(s, prepared), old(posts))
                 else DeliverOne(Ran(Inserted(s, prepared.value, corr, event), old(posts)), corr, event, 0, world)
    {
      var prepared := PreparedHook(event);
      if prepared.Err? {
        return;
      }
      var inserted := table.Insert(corr.adapter, event);
      if inserted.Err? || !inserted.value {
        return;
      }
      DeliverPayload(event, 0);
    }

    /** Put an exhausted row back to waiting, with a full schedule ahead of it. */
    method RetryPermanentFailure(event: Event)
      requires event.id in table.rows
      modifies this, store, table`rows
      ensures var s := old(Now().stores);
        var prepared := PreparedRows(s.rows, corr, event);
        Now() == if prepared.Err? then old(Now())
                 else DeliverOne(Ran(Record(s.(rows := prepared.value), event.id, Waiting, 0), old(posts)), corr, event, 0, world)
    {
      var prepared := PreparedHook(event);
      if prepared.Err? {
        return;
      }
      table.Set(event.id, Waiting, 0);
      DeliverPayload(event, 0);
    }

    /** Repair one saved terminal from wherever a crash left it. */
    method RedeliverDurable(event: Event) returns (ghost order: seq<Id>)
      requires Sequenced(table.rows, corr)
      modifies this, store, table
      ensures PendingInOrder(old(table.rows), corr, order)
      ensures Now() == Redeliver(old(Now()), corr, event, order, world)
    {
      var ids := table.PendingOrder(corr);
      order := ids;
      if event.id !in table.rows || Corr(table.rows[event.id].adapter, table.rows[event.id].event.correlation) != corr {
        DeliverDurable(event);
        return;
      }
      var row := table.rows[event.id];
      if row.event != event {
        return;
      }
      match row.status
      case Waiting =>
        order := ResumePending();
      case PermanentFailure =>
        RetryPermanentFailure(event);
      case Delivered =>
        var _ := DeliveredHook(event);
    }
  }
}
