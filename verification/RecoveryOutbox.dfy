/**
 Which outbox rows start-up recovery (packages/core/src/supervisor.ts,
 `recoverPending`) leaves waiting, whatever the adapter answers.
 */
module RecoveryOutbox {
  import opened Wrappers
  import opened IdempotencyStore
  import opened DeliveryProtocol
  import opened DeliveryInvariants
  import opened DeliverySafety
  import opened DeliveryTheorems
  import opened OutboundEmitter
  import opened DeliveryRuns
  import opened Recovery
  import opened RecoveryTheorems

  predicate WaitingIn(out: Outbox, id: Id) {
    id in out && out[id].status == Waiting
  }

  /** A correlation's recovery goes through its waiting rows: nothing is saved for it, or what is saved is waiting itself. */
  predicate Resumes(out: Outbox, item: Item) {
    item.terminal.None? || WaitingIn(out, item.terminal.value.id)
  }

  /** The saved answer's row, if it is there, holds that answer. */
  predicate Holding(out: Outbox, item: Item) {
    item.terminal.Some? && item.terminal.value.id in out ==> out[item.terminal.value.id].event == item.terminal.value
  }

  /** One delivery changes no row but its own. */
  lemma OnlyItsRow(p: Ran, c: Corr, event: Event, attempt: nat, w: World, id: Id)
    requires id != event.id
    ensures var q := DeliverOne(p, c, event, attempt, w);
      (id in q.stores.out <==> id in p.stores.out) && (id in p.stores.out ==> q.stores.out[id] == p.stores.out[id])
  {
    if w.registered {
      OnlyItsRowSettled(p, c, event, attempt, w, id);
    }
    hide Settle, FailedRows;
  }

  lemma {:induction false} OnlyItsRowSettled(p: Ran, c: Corr, event: Event, attempt: nat, w: World, id: Id)
    requires id != event.id
    ensures var q := Settle(p, c, event, attempt, w);
      (id in q.stores.out <==> id in p.stores.out) && (id in p.stores.out ==> q.stores.out[id] == p.stores.out[id])
    decreases w.retries + 1 - attempt
  {
    hide SentRows, FailedRows;
    if attempt <= w.retries {
      var s := if w.reply(event, |p.posts|) == Ack then Record(p.stores, event.id, Delivered, attempt + 1) else p.stores;
      OnlyItsRowSettled(Ran(Record(s, event.id, StatusOf(s, event.id), attempt + 1), p.posts + [event]), c, event, attempt + 1, w, id);
    }
  }

  /** Going through a correlation's rows settles those that were waiting, and no others. */
  lemma ResumeDrains(p: Ran, c: Corr, order: seq<Id>, w: World, id: Id)
    requires Keyed(p.stores.out) && PendingInOrder(p.stores.out, c, order) && OfCorr(p.stores.out, id, c)
    ensures var q := DeliverAll(p, c, ResumeTasks(p.stores.out, order), w);
      id in q.stores.out && !WaitingIn(q.stores.out, id) && (!WaitingIn(p.stores.out, id) ==> q.stores.out[id] == p.stores.out[id])
  {
    var counts := ResumeSettles(p, c, order, w);
    WithinResume(p, c, order, w);
    hide DeliverAll, ResumeTasks, Bursts, RowSettled, FirstOf;
  }

  /** What one correlation's recovery makes of its rows. */
  lemma ItemDrains(p: Ran, item: Item, order: seq<Id>, w: World, id: Id)
    requires Keyed(p.stores.out) && Startable(p.stores.out, item) && Holding(p.stores.out, item)
    requires PendingInOrder(p.stores.out, item.corr, order) && OfCorr(p.stores.out, id, item.corr)
    ensures var q := RecoverItem(p, item, order, w);
      && id in q.stores.out
      && (WaitingIn(p.stores.out, id) ==> (WaitingIn(q.stores.out, id) <==> !Resumes(p.stores.out, item)))
      && (!WaitingIn(p.stores.out, id) && !(item.terminal.Some? && item.terminal.value.id == id) ==> q.stores.out[id] == p.stores.out[id])
  {
    hide Redeliver, DeliverAll, ResumeTasks, PendingInOrder;
    if item.terminal.Some? {
      RedeliverDrains(p, item.corr, item.terminal.value, order, w, id);
    } else {
      ResumeDrains(p, item.corr, order, w, id);
    }
  }

  lemma RedeliverDrains(p: Ran, c: Corr, e: Event, order: seq<Id>, w: World, id: Id)
    requires Keyed(p.stores.out) && PendingInOrder(p.stores.out, c, order) && OfCorr(p.stores.out, id, c)
    requires e.id in p.stores.out ==> OfCorr(p.stores.out, e.id, c) && p.stores.out[e.id].event == e
    ensures var q := Redeliver(p, c, e, order, w);
      && id in q.stores.out
      && (WaitingIn(p.stores.out, id) ==> (WaitingIn(q.stores.out, id) <==> !WaitingIn(p.stores.out, e.id)))
      && (!WaitingIn(p.stores.out, id) && e.id != id ==> q.stores.out[id] == p.stores.out[id])
  {
    hide DeliverOne, DeliverAll, PreparedRows, SentRows, ResumeTasks;
    ResumeDrains(p, c, order, w, id);
    hide PendingInOrder, Keyed;
    var prepared := PreparedRows(p.stores.rows, c, e);
    if prepared.Ok? && e.id != id {
      OnlyItsRow(Ran(Inserted(p.stores, prepared.value, c, e), p.posts), c, e, 0, w, id);
      OnlyItsRow(Ran(Record(p.stores.(rows := prepared.value), e.id, Waiting, 0), p.posts), c, e, 0, w, id);
    }
  }

  /** Some item of `items` goes through the waiting rows of `c`. */
  predicate Resumed(out: Outbox, items: seq<Item>, c: Corr) {
    exists j :: 0 <= j < |items| && items[j].corr == c && Resumes(out, items[j])
  }

  ghost predicate AllHolding(out: Outbox, items: seq<Item>) {
    forall j :: 0 <= j < |items| ==> Holding(out, items[j])
  }

  /** The other correlations' items find what they would have found. */
  lemma OthersKept(a: Stores, b: Stores, items: seq<Item>, j: nat)
    requires items != [] && 0 < j < |items| && AllReady(a.out, items) && AllHolding(a.out, items)
    requires Within(a, b, items[0].corr)
    requires b.out.Keys <= a.out.Keys + (if items[0].terminal.Some? then {items[0].terminal.value.id} else {})
    ensures Holding(b.out, items[j]) && (Resumes(b.out, items[j]) <==> Resumes(a.out, items[j]))
  {
    assert Startable(a.out, items[j]) && items[0].corr != items[j].corr;
  }

  lemma ResumedRest(a: Stores, b: Stores, items: seq<Item>, c: Corr)
    requires items != [] && AllReady(a.out, items) && AllHolding(a.out, items)
    requires Within(a, b, items[0].corr)
    requires b.out.Keys <= a.out.Keys + (if items[0].terminal.Some? then {items[0].terminal.value.id} else {})
    ensures AllHolding(b.out, items[1..])
    ensures Resumed(a.out, items, c) <==> (c == items[0].corr && Resumes(a.out, items[0])) || Resumed(b.out, items[1..], c)
    ensures c == items[0].corr ==> !Resumed(b.out, items[1..], c)
  {
    forall j | 0 < j < |items|
      ensures Holding(b.out, items[j]) && (Resumes(b.out, items[j]) <==> Resumes(a.out, items[j])) && items[1..][j - 1] == items[j]
    {
      OthersKept(a, b, items, j);
    }
    hide Within, Resumes, Holding, Startable;
    if Resumed(a.out, items, c) {
      var j :| 0 <= j < |items| && items[j].corr == c && Resumes(a.out, items[j]);
      if j > 0 {
        assert items[1..][j - 1].corr == c;
      }
    }
    if Resumed(b.out, items[1..], c) {
      var j :| 0 <= j < |items[1..]| && items[1..][j].corr == c && Resumes(b.out, items[1..][j]);
      assert items[j + 1] == items[1..][j];
    }
  }

  lemma {:induction false} ItemsDrain(p: Ran, items: seq<Item>, w: World, q: Ran, id: Id)
    requires AllReady(p.stores.out, items) && AllHolding(p.stores.out, items) && Recovered(p, items, w, q) && id in p.stores.out
    ensures id in q.stores.out
    ensures WaitingIn(p.stores.out, id) ==> (WaitingIn(q.stores.out, id) <==> !Resumed(p.stores.out, items, CorrOf(p.stores.out[id])))
    ensures !WaitingIn(p.stores.out, id) && !TerminalOf(items, id) ==> q.stores.out[id] == p.stores.out[id]
    decreases |items|
  {
    if items != [] {
      hide RecoverItem, PendingInOrder, Within, Resumed, Recovered, AllReady, Resumes;
      var order := FirstOrder(p, items, w, q);
      var mid := RecoverItem(p, items[0], order, w);
      var c := CorrOf(p.stores.out[id]);
      ReadyFirst(p.stores.out, items);
      ItemWithin(p, items[0], order, w);
      StillReady(p.stores, mid.stores, items);
      ResumedRest(p.stores, mid.stores, items, c);
      RowKept(p.stores, mid.stores, items[0].corr, id);
      if c == items[0].corr {
        ItemDrains(p, items[0], order, w, id);
      }
      ItemsDrain(mid, items[1..], w, q, id);
      if TerminalOf(items[1..], id) {
        TerminalOfRest(items, id);
      }
    }
  }

  lemma ReadyFirst(out: Outbox, items: seq<Item>)
    requires items != [] && AllReady(out, items)
    ensures Keyed(out) && Startable(out, items[0])
  {
  }

  lemma RowKept(a: Stores, b: Stores, c: Corr, id: Id)
    requires Within(a, b, c) && id in a.out
    ensures id in b.out && CorrOf(b.out[id]) == CorrOf(a.out[id]) && (CorrOf(a.out[id]) != c ==> b.out[id] == a.out[id])
  {
  }

  /** Recovery goes through the rows of `c`: some message of it is stored, and none is saved or what is saved waits itself. */
  ghost predicate Drained(s: State, c: Corr) {
    && Group(s.rows, c) != {}
    && (forall k :: SavedSibling(s.rows, k, c) ==> WaitingIn(s.out, s.rows[k].response.value.id))
  }

  lemma DrainedIs(s: State, items: seq<Item>, id: Id)
    requires Inv(s) && Listed(s.rows, s.out, items) && WaitingIn(s.out, id)
    ensures Drained(s, CorrOf(s.out[id])) <==> Resumed(s.out, items, CorrOf(s.out[id]))
  {
    var c := CorrOf(s.out[id]);
    assert c in PendingCorrelations(s.out);
    assert Recoverable(s.rows, s.out, c) <==> Group(s.rows, c) != {};
    if Resumed(s.out, items, c) || Drained(s, c) {
      var j :| 0 <= j < |items| && items[j].corr == c;
      assert Found(s.rows, items[j]);
      SavedAlike(s, c);
      hide Inv, WaitingIn;
      if items[j].terminal.Some? {
        var k :| SavedSibling(s.rows, k, c) && s.rows[k].response == items[j].terminal;
        forall other | SavedSibling(s.rows, other, c) ensures s.rows[other].response == s.rows[k].response {
        }
      }
      forall i | 0 <= i < |items| && items[i].corr == c ensures i == j {
      }
    }
  }

  lemma SavedAlike(s: State, c: Corr)
    requires Inv(s)
    ensures forall k, l | SavedSibling(s.rows, k, c) && SavedSibling(s.rows, l, c) :: s.rows[k].response == s.rows[l].response
  {
    GroupAgrees(s, c);
    hide Inv;
  }

  lemma ListedHolding(s: State, items: seq<Item>)
    requires Inv(s) && Listed(s.rows, s.out, items)
    ensures AllHolding(s.out, items)
  {
    forall j | 0 <= j < |items| ensures Holding(s.out, items[j]) {
      assert Found(s.rows, items[j]);
      if items[j].terminal.Some? {
        var k :| SavedSibling(s.rows, k, items[j].corr) && s.rows[k].response == items[j].terminal;
        RowFacts(s, k);
      }
    }
    hide Inv;
  }

  /**
   After recovery, whatever the adapter answered, a row that was waiting is delivered or
   a permanent failure, unless its correlation has no stored message, or has a saved
   answer that was not itself waiting: then recovery sees to the answer alone, and the
   rows before it wait on. Rows that were not waiting change only if they are a saved answer's.
   */
  lemma WaitingAfterRecovery(s: State, items: seq<Item>, w: World, q: Ran)
    requires Reachable(s, w.retries) && Listed(s.rows, s.out, items) && Recovered(Ran(StoresOf(s), []), items, w, q)
    ensures forall id | WaitingIn(s.out, id) ::
      id in q.stores.out && (WaitingIn(q.stores.out, id) <==> !Drained(s, CorrOf(s.out[id])))
    ensures forall id | id in s.out && !WaitingIn(s.out, id) && (forall k :: !SavedAs(s.rows, k, id)) ::
      id in q.stores.out && q.stores.out[id] == s.out[id]
  {
    ReachableInv(s, w.retries);
    InvSound(s);
    ListedReady(StoresOf(s), items);
    ListedHolding(s, items);
    hide Inv, Reachable, Listed, Recovered, Sound, AllReady, AllHolding, Resumed, WaitingIn, SavedAs, Drained, TerminalOf;
    forall id | id in s.out
      ensures id in q.stores.out
      ensures WaitingIn(s.out, id) ==> (WaitingIn(q.stores.out, id) <==> !Drained(s, CorrOf(s.out[id])))
      ensures !WaitingIn(s.out, id) && (forall k :: !SavedAs(s.rows, k, id)) ==> q.stores.out[id] == s.out[id]
    {
      ItemsDrain(Ran(StoresOf(s), []), items, w, q, id);
      if WaitingIn(s.out, id) {
        DrainedIs(s, items, id);
      } else if TerminalOf(items, id) {
        TerminalSaved(s, items, id);
      }
    }
  }

  lemma TerminalSaved(s: State, items: seq<Item>, id: Id)
    requires Listed(s.rows, s.out, items) && TerminalOf(items, id)
    ensures exists k :: SavedAs(s.rows, k, id)
  {
    var j :| 0 <= j < |items| && items[j].terminal.Some? && items[j].terminal.value.id == id;
    assert Found(s.rows, items[j]);
    var k :| SavedSibling(s.rows, k, items[j].corr) && s.rows[k].response == items[j].terminal;
    assert SavedAs(s.rows, k, id);
  }

  // ----- such a run -----

  /** A turn starts, its answer is saved, and the process dies before it is in the outbox. */
  function CutShort(k: MessageKey, conversation: Id): seq<Step> {
    OpenTurn(k, conversation, 0, 1, 1)
    + [Step.Emit(EmitDurable(1, Started, 5, 0))] + [Step.Emit(SaveTerminal(1, Kind.Reply, 7, 0))] + [Step.Crash]
  }

  lemma SavesOne(k: MessageKey, row: Row, event: Event)
    requires row.delivery == Pending && row.correlation == event.correlation && row.conversation == event.conversation && Answer(event.kind)
    ensures var saved := SaveForCorrelation(map[k := row], Corr(k.adapter, row.correlation), event);
      saved.Ok? && saved.value == map[k := row.(ingested := true, delivery := Saved, response := Some(event), error := None)]
  {
    var c, rows := Corr(k.adapter, row.correlation), map[k := row];
    assert k in Group(rows, c) && Savable(row, event);
  }

  lemma StartsAndAnswers(s: State, k: MessageKey, conversation: Id) returns (t: State)
    requires s.rows == map[k := FreshRow(conversation, 1, 0)] && s.out == map[] && s.events == map[]
    requires s.emitters == map[1 := Emitter(Corr(k.adapter, 1), conversation, 0, false, false, None, [])]
    requires s.open == map[Corr(k.adapter, 1) := 1]
    ensures EmitEnabled(s, EmitDurable(1, Started, 5, 0))
    ensures var u := ApplyEmit(s, EmitDurable(1, Started, 5, 0));
      EmitEnabled(u, SaveTerminal(1, Kind.Reply, 7, 0)) && t == ApplyEmit(u, SaveTerminal(1, Kind.Reply, 7, 0))
    ensures WaitingIn(t.out, 5) && CorrOf(t.out[5]) == Corr(k.adapter, 1) && 7 !in t.out
    ensures k in t.rows && SavedSibling(t.rows, k, Corr(k.adapter, 1)) && t.rows[k].response.value.id == 7
  {
    var u := ApplyEmit(s, EmitDurable(1, Started, 5, 0));
    SavesOne(k, FreshRow(conversation, 1, 0), NextEvent(u.emitters[1], Kind.Reply, 7, 0));
    hide SaveForCorrelation;
    t := ApplyEmit(u, SaveTerminal(1, Kind.Reply, 7, 0));
  }

  lemma CutShortReaches(k: MessageKey, conversation: Id, retries: nat) returns (s: State)
    ensures Exec(Init(), CutShort(k, conversation), retries) == Some(s) && Restarted(s)
    ensures WaitingIn(s.out, 5) && !Drained(s, CorrOf(s.out[5]))
  {
    var asked := TurnOpens(Init(), k, conversation, 0, 1, 1, retries);
    var begun := OpenTurn(k, conversation, 0, 1, 1);
    var start, answer := Step.Emit(EmitDurable(1, Started, 5, 0)), Step.Emit(SaveTerminal(1, Kind.Reply, 7, 0));
    var answered := StartsAndAnswers(asked, k, conversation);
    hide OpenTurn, Exec, ApplyEmit, EmitEnabled, Init;
    var started := Apply(asked, start);
    ExecOne(asked, start, retries);
    ExecOne(started, answer, retries);
    s := Crashed(answered, retries);
    hide Apply, Enabled, InSchedule;
    ExecAppend(Init(), begun, [start], retries);
    ExecAppend(Init(), begun + [start], [answer], retries);
    ExecAppend(Init(), begun + [start] + [answer], [Step.Crash], retries);
  }

  lemma Crashed(s: State, retries: nat) returns (t: State)
    ensures Exec(s, [Step.Crash], retries) == Some(t) && Restarted(t) && t.rows == s.rows && t.out == s.out
  {
    ExecOne(s, Step.Crash, retries);
    t := Apply(s, Step.Crash);
  }

  /** The row of the turn's start waits on: recovery sends the answer and nothing before it. */
  lemma StartWaitsOn(k: MessageKey, conversation: Id, retries: nat) returns (s: State)
    ensures Exec(Init(), CutShort(k, conversation), retries) == Some(s) && Restarted(s)
    ensures forall items: seq<Item>, w: World, q: Ran | w.retries == retries && Listed(s.rows, s.out, items) && Recovered(Ran(StoresOf(s), []), items, w, q) ::
      WaitingIn(q.stores.out, 5)
  {
    s := CutShortReaches(k, conversation, retries);
    IsReachable(CutShort(k, conversation), s, retries);
    hide *;
    forall items: seq<Item>, w: World, q: Ran | w.retries == retries && Listed(s.rows, s.out, items) && Recovered(Ran(StoresOf(s), []), items, w, q)
      ensures WaitingIn(q.stores.out, 5)
    {
      WaitingAfterRecovery(s, items, w, q);
    }
  }

  lemma IsReachable(steps: seq<Step>, s: State, retries: nat)
    requires Exec(Init(), steps, retries) == Some(s)
    ensures Reachable(s, retries)
  {
    hide Exec, Init;
  }
}
